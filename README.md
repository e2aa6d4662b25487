# Caliber note fan-in and Bam calendar reconciliation, modelled in Dafny

This project models two pieces of the training-management front end.

- **The Caliber note service.** It builds the REST routes that notes are read from and posted to. For one batch and week it requests four note feeds: trainer batch notes, trainer trainee notes, QC batch notes and QC trainee notes. It merges the four replies into one list and pushes that list on its list subject.
- **The Bam calendar view.** It loads a batch's subtopics into a table of calendar events. After a click or a drag-and-drop on the schedule widget, it reconciles that table. It also sequences the calendar service's remote calls.

Asynchrony becomes explicit input:

- The replies to the note feeds arrive as a trace of per-feed events. `RxMerge.Merge` turns that trace into what a subscriber of `Observable.merge` sees.
- The subscriber's three callbacks are a loop over the merged events, in `NoteService.NoteService.FetchByBatchIdByWeek`.
- A request whose reply is handled by a callback is split into two steps: the call issues the request and records it as waiting, and a settle method handles the reply later, or its failure.
  - A drag-and-drop's pending date change is kept in `awaitingDateChange`; `SettleDateChange` resolves it.
  - The QC note requests are kept in `awaitingNotes`; `SettleNotesRequest` resolves them.
  - `NgOnInit`'s subtopics load is counted in `awaitingSubtopics`; `SettleSubtopics` resolves it.
- HTTP requests and calendar-service calls go into ghost logs (`requests`, `calls`).
- The status service's functions and the widget's moment-to-Date conversion are uninterpreted constants of the component.

Modules:

- `Wrappers`: the Option type.
- `Decimal`: how `${n}` renders an integer, and its inverse parser.
- `Paths`: joins and splits `/`-separated paths.
- `RxMerge`: `Observable.merge` over traces.
- `NoteService`: the note service.
- `Calendar`: the calendar view.

Two behaviours of the code are worth stating up front:

- **A failing note feed.** The first error of any feed ends the merged stream. The error callback (note.service.ts:61) does nothing, so the completion push (note.service.ts:62) never runs and nothing is pushed for that batch and week (`NoteService.FetchFails`).
- **The drop handler.** The local table is updated at once, before the date change settles. When the date change settles, neither reply is read and the local table is never rolled back (`SettleDateChange`).

## Model

| member | source | states |
|---|---|---|
| `Decimal.ParseIntToString` | client-side/src/app/Caliber/services/note.service.ts:78 | the decimal text interpolated for a batch id, week or trainee id reads back as that integer |
| `Decimal.IntToStringInjective` | client-side/src/app/Caliber/services/note.service.ts:140 | two ids are rendered as the same text exactly when they are equal |
| `NoteService.ParseBatchWeekUrlRoundTrip` | client-side/src/app/Caliber/services/note.service.ts:77-129 | every route `<role>/note/<kind>/<batchId>/<week>` reads back as the role, kind, batch id and week it was built from |
| `NoteService.BatchWeekUrlInjective` | client-side/src/app/Caliber/services/note.service.ts:77-129 | two batch/week routes are equal if and only if feed, batch id and week are equal |
| `NoteService.FeedUrlsDistinct` | client-side/src/app/Caliber/services/note.service.ts:50-53 | the four feeds requested for one batch and week use four pairwise distinct routes |
| `NoteService.FetchByTraineeUrlShape` | client-side/src/app/Caliber/services/note.service.ts:139-171 | the trainee route splits into `all`, `notes`, `trainee` and the id; it is injective in the trainee; it differs from every batch/week route and from `note/update` and `note/create`, and those two differ from each other |
| `NoteService.Published` | client-side/src/app/Caliber/services/note.service.ts:57-63 | the subscriber pushes at most one list, and only if the merged stream completes |
| `NoteService.FlattenAppend` | client-side/src/app/Caliber/services/note.service.ts:55-59 | the accumulator starts empty, and concatenating one more list puts it after everything received so far |
| `NoteService.FlattenLength` | client-side/src/app/Caliber/services/note.service.ts:59 | the merged list's length is the sum of the lengths of the received lists |
| `NoteService.FlattenSlice` | client-side/src/app/Caliber/services/note.service.ts:59 | each received list appears contiguous and unchanged in the merged list, right after the lists received before it |
| `NoteService.PublishedOnComplete` | client-side/src/app/Caliber/services/note.service.ts:57-63 | lists followed by completion push exactly one value: the accumulator extended by all the lists, in order |
| `NoteService.PublishedOnError` | client-side/src/app/Caliber/services/note.service.ts:61-62 | lists followed by an error push nothing, whatever comes after the error |
| `NoteService.FetchPending` | client-side/src/app/Caliber/services/note.service.ts:57-63 | while some feed has not finished and none has failed, nothing has been pushed |
| `NoteService.FetchCompletes` | client-side/src/app/Caliber/services/note.service.ts:49-63 | once all four feeds deliver and finish without failing, in any interleaving, exactly one list is pushed: every delivered list in arrival order, concatenated, with length equal to the sum of their lengths |
| `NoteService.FetchFails` | client-side/src/app/Caliber/services/note.service.ts:57-63 | a feed that fails before finishing causes nothing to be pushed, even if the other feeds finish later |
| `NoteService.NoteService.FetchByBatchIdByWeek` | client-side/src/app/Caliber/services/note.service.ts:49-64 | requests, in order, trainer batch, trainer trainee, QC batch and QC trainee notes; the list subject then receives exactly what the subscriber of the merged feeds pushes |
| `NoteService.NoteService.Update` | client-side/src/app/Caliber/services/note.service.ts:153-157 | posts the note to `note/update` and pushes nothing on listSubject |
| `NoteService.NoteService.Create` | client-side/src/app/Caliber/services/note.service.ts:167-171 | posts the note to `note/create` and pushes nothing on listSubject |
| `NoteService.NoteService.GetAllQCTraineeNotes` | client-side/src/app/Caliber/services/note.service.ts:179-184 | requests `/qc/note/trainee/<batchId>/<week>`, pushes `[]` at once and records the request as waiting |
| `NoteService.NoteService.FindQCBatchNotes` | client-side/src/app/Caliber/services/note.service.ts:196-201 | requests `/qc/note/batch/<batchId>/<week>`, pushes `[]` at once and records the request as waiting |
| `NoteService.NoteService.SettleNotesRequest` | client-side/src/app/Caliber/services/note.service.ts:184-186 | when a waiting QC request settles (the subscribers at lines 184-186 and 201-203), a reply's notes are pushed as they are and a failure pushes nothing; the request stops waiting and nothing is requested |
| `RxMerge.Merge` | client-side/src/app/Caliber/services/note.service.ts:57 | the merged stream ends at most once, and its terminal event is its last event |
| `RxMerge.MergeCompletes` | client-side/src/app/Caliber/services/note.service.ts:57 | when every input finishes without failing, the merge forwards every emitted list in arrival order and then completes |
| `RxMerge.MergePending` | client-side/src/app/Caliber/services/note.service.ts:57 | while an input is unfinished and none has failed, the merge forwards the lists and does not end |
| `RxMerge.MergeFails` | client-side/src/app/Caliber/services/note.service.ts:57-61 | the first failure ends the merge with Error, after the lists delivered before it, and nothing after the failure is forwarded |
| `Calendar.CalendarComponent.constructor` | client-side/src/app/portals/Bam/components/calendar/calendar-view/calendar.component.ts:26-30 | the table starts empty, the recorded date undefined, with no call made |
| `Calendar.CalendarComponent.NgOnInit` | client-side/src/app/portals/Bam/components/calendar/calendar-view/calendar.component.ts:32-33 | calls getSubtopicsByBatchPagination(22506, 0, 34) and records one more waiting load; the table and the recorded date are left as they were |
| `Calendar.CalendarComponent.SettleSubtopics` | client-side/src/app/portals/Bam/components/calendar/calendar-view/calendar.component.ts:34-47 | a reply appends one event per subtopic, in order, after the existing ones; each event takes the subtopic's id, its name as title, its date as start, its status name, and the color of that status; the recorded date becomes the first event's start; with an empty table that read fails and the date is left as it was; a failure changes nothing |
| `Calendar.CalendarComponent.MapSubtopicFromEvent` | client-side/src/app/portals/Bam/components/calendar/calendar-view/calendar.component.ts:126-133 | returns the same object it is given, with only `start` replaced by the converted Date |
| `Calendar.Reconciled` | client-side/src/app/portals/Bam/components/calendar/calendar-view/calendar.component.ts:136-145 | the table keeps its length and every entry's title and id; every entry titled like the changed event takes its status, start and color, not only the first such entry; other entries are unchanged, except that the first entry's start becomes the recorded date |
| `Calendar.ReconciledIdempotent` | client-side/src/app/portals/Bam/components/calendar/calendar-view/calendar.component.ts:136-145 | reconciling the same change a second time changes nothing |
| `Calendar.CalendarComponent.UpdateEvents` | client-side/src/app/portals/Bam/components/calendar/calendar-view/calendar.component.ts:136-145 | a non-empty table becomes `Reconciled` of the old table; an empty table fails at `events[0]` and is left as it was; no other field changes |
| `Calendar.CalendarComponent.HandleEventClick` | client-side/src/app/portals/Bam/components/calendar/calendar-view/calendar.component.ts:92-102 | the clicked object gets the next status and, through the alias, that status's color; updateTopicStatus is called once without waiting; the table is reconciled at once |
| `Calendar.CalendarComponent.HandleEventDrop` | client-side/src/app/portals/Bam/components/calendar/calendar-view/calendar.component.ts:104-124 | the dropped object gets the moved status and its color; changeTopicDate is called with the subtopic id, batch 22506 and the new start's milliseconds; the status update waits for that call; the table is reconciled at once |
| `Calendar.CalendarComponent.SettleDateChange` | client-side/src/app/portals/Bam/components/calendar/calendar-view/calendar.component.ts:114-121 | when the date change settles, on success or on failure alike, updateTopicStatus is called exactly once; the local table is neither changed nor rolled back |

## Left out

- Angular dependency injection, decorators, `HttpClient` and the API base service's `doGetListObservable` and `doPost`: their bodies are not part of this model. Requests are logged by route. An `Observable<Note[]>` result is represented by the route it fetches.
- NoteService.NoteService.Update: does not model the push on savedSubject that doPost performs; doPost's body is not part of this model.
- NoteService.NoteService.Create: does not model the push on savedSubject that doPost performs; doPost's body is not part of this model.
- `envService.buildUrl`: it is not part of this model. `HttpGet` records the path handed to it.
- The list subject's initial value and its replay to late subscribers: `listSubject` only logs the values pushed on it.
- `FetchByBatchIdByWeek` takes the whole reply trace in one call. Other service calls interleaved with a pending fan-in are not modelled.
- Non-integral or non-finite numbers (fractions, `NaN`, exponent notation) in interpolated ids: ids are integers.
- The schedule widget's configuration, header and view switching, the `window.innerWidth` branch, `jumpToDate`, `fc.updateEvent` and `console.log` (calendar.component.ts:50-90 and the handlers' UI calls): these belong to the UI.
- The moment-to-Date conversion and `new Date(subtopicDate)`: dates are opaque millisecond values, and the conversion is the uninterpreted constant `toDate`.
- The statusService (`getStatusColor`, `updateNextStatus`, `updateMovedStatus`) and the calendarService are not part of this model. The former are uninterpreted constants; the latter's calls are logged.
- The replies to updateTopicStatus and to getSubtopicsByBatchPagination's failure: the source attaches no handler to either.
- The throw at `events[0]` (calendar.component.ts:46 and 137) is modelled as a returned `ok == false` with no change. Its propagation to Angular's error handler is not modelled.
- `Calendar.CalendarComponent.MapSubtopicFromEvent`: does not model the fresh CalendarEvent that the source allocates and immediately discards (calendar.component.ts:127).
- The widget's event object is modelled as separate from the entries of `events`. The case where the widget hands back one of those entries is not modelled.
- session.service.ts, app.module.ts, app.routing.ts and bam-routing.module.ts: a storage wrapper and declarative module and route tables, with no logic of their own.
