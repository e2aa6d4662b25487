/**
 * The Bam calendar view: the table of calendar events it loads from a batch's
 * subtopics, how it reconciles that table after a click or a drag-and-drop on
 * the schedule widget, and the remote calls those handlers make.
 *
 * The calendar and status services are not part of this model: their remote
 * calls are appended to a ghost call log, replies are delivered explicitly,
 * and the status service's functions are uninterpreted constants of the
 * component.
 */
module Calendar {
  import opened Wrappers

  /** A point in time, as the milliseconds that `Date.getTime()` returns. */
  datatype Date = Date(millis: int)

  /** A name-carrying lookup record, as a subtopic's name and status are. */
  datatype Named = Named(name: string)

  datatype Subtopic = Subtopic(subtopicId: int, subtopicName: Named, subtopicDate: int, status: Named)

  /** An entry of the component's event table. */
  datatype CalendarEvent = CalendarEvent(subtopicId: int, title: string, start: Date, status: string, color: string)

  /** The batch, page and page size the view is hard-wired to. */
  const BatchId: int := 22506
  const PageNumber: int := 0
  const PageSize: int := 34

  /** A remote call made through the calendar service. */
  datatype Call =
    | GetSubtopicsByBatchPagination(batchId: int, pageNumber: int, pageSize: int)
    | UpdateTopicStatus(topic: CalendarEvent, batchId: int)
    | ChangeTopicDate(subtopicId: int, batchId: int, millis: int)

  /**
   * The mutable event object the schedule widget passes to the click and drop
   * handlers. Its fields are the ones a calendar event has.
   */
  class ScheduleEvent {
    var subtopicId: int
    var title: string
    var start: Date
    var status: string
    var color: string

    function Fields(): CalendarEvent
      reads this
    {
      CalendarEvent(subtopicId, title, start, status, color)
    }

    constructor (e: CalendarEvent)
      ensures Fields() == e
    {
      subtopicId, title, start, status, color := e.subtopicId, e.title, e.start, e.status, e.color;
    }
  }

  /** `e` with the changed event's status, start and color when the titles match, else `e` itself. */
  function Refreshed(e: CalendarEvent, changed: CalendarEvent): CalendarEvent {
    if e.title == changed.title
    then e.(status := changed.status, start := changed.start, color := changed.color)
    else e
  }

  /**
   * The event table after `changed` is reconciled into `events`: the first
   * entry's start is reset to `overriden`, then every entry titled like the
   * changed event takes its status, start and color.
   */
  function Reconciled(events: seq<CalendarEvent>, overriden: Date, changed: CalendarEvent): (r: seq<CalendarEvent>)
    requires |events| > 0
    ensures |r| == |events|
    ensures forall i :: 0 <= i < |r| ==> r[i].title == events[i].title && r[i].subtopicId == events[i].subtopicId
    ensures forall i :: 0 <= i < |r| && events[i].title == changed.title ==>
      r[i].status == changed.status && r[i].start == changed.start && r[i].color == changed.color
    ensures forall i :: 0 < i < |r| && events[i].title != changed.title ==> r[i] == events[i]
    ensures events[0].title != changed.title ==> r[0] == events[0].(start := overriden)
  {
    var reset := events[0 := events[0].(start := overriden)];
    seq(|events|, i requires 0 <= i < |events| => Refreshed(reset[i], changed))
  }

  /** Reconciling the same change twice leaves the table as reconciling it once. */
  lemma ReconciledIdempotent(events: seq<CalendarEvent>, overriden: Date, changed: CalendarEvent)
    requires |events| > 0
    ensures Reconciled(Reconciled(events, overriden, changed), overriden, changed) == Reconciled(events, overriden, changed)
  {
  }

  class CalendarComponent {
    var events: seq<CalendarEvent>
    /** The start of the first loaded event; None until the table has loaded one. */
    var overridenDate: Option<Date>
    /** The drop handlers still waiting for their date change to settle, oldest first. */
    var awaitingDateChange: seq<ScheduleEvent>
    /** The number of subtopics requests whose reply has not arrived. */
    var awaitingSubtopics: nat
    ghost var calls: seq<Call>

    /** The status service: the color of a status, and the status after a click or a move. */
    const statusColor: string -> string
    const nextStatus: CalendarEvent -> string
    const movedStatus: CalendarEvent -> string
    /** The widget's moment-to-Date conversion of an event's start. */
    const toDate: Date -> Date

    ghost predicate Valid()
      reads this
    {
      |events| > 0 ==> overridenDate.Some?
    }

    constructor (statusColor: string -> string, nextStatus: CalendarEvent -> string,
                 movedStatus: CalendarEvent -> string, toDate: Date -> Date)
      ensures Valid()
      ensures events == [] && overridenDate == None && awaitingDateChange == [] && calls == []
      ensures awaitingSubtopics == 0
      ensures this.statusColor == statusColor && this.nextStatus == nextStatus
      ensures this.movedStatus == movedStatus && this.toDate == toDate
    {
      this.statusColor, this.nextStatus, this.movedStatus, this.toDate := statusColor, nextStatus, movedStatus, toDate;
      events, overridenDate, awaitingDateChange, awaitingSubtopics, calls := [], None, [], 0, [];
    }

    /** The table entry loaded for one subtopic. */
    function EventOf(s: Subtopic): CalendarEvent
    {
      CalendarEvent(s.subtopicId, s.subtopicName.name, Date(s.subtopicDate), s.status.name, statusColor(s.status.name))
    }

    /**
     * Requests the batch's subtopics; the reply is handled later, by
     * SettleSubtopics.
     */
    method NgOnInit()
      requires Valid()
      modifies this
      ensures Valid()
      ensures calls == old(calls) + [GetSubtopicsByBatchPagination(BatchId, PageNumber, PageSize)]
      ensures awaitingSubtopics == old(awaitingSubtopics) + 1
      ensures events == old(events) && overridenDate == old(overridenDate)
      ensures awaitingDateChange == old(awaitingDateChange)
    {
      calls := calls + [GetSubtopicsByBatchPagination(BatchId, PageNumber, PageSize)];
      awaitingSubtopics := awaitingSubtopics + 1;
    }

    /**
     * A subtopics request settles. A reply appends one event per subtopic, in
     * order, and records the first event's start; with an empty table that
     * last read fails: `ok` is false and the date is left as it was. A failure
     * has no handler and changes nothing.
     */
    method SettleSubtopics(subtopics: Option<seq<Subtopic>>) returns (ok: bool)
      requires Valid() && awaitingSubtopics > 0
      modifies this
      ensures Valid()
      ensures awaitingSubtopics == old(awaitingSubtopics) - 1
      ensures calls == old(calls) && awaitingDateChange == old(awaitingDateChange)
      ensures subtopics.None? ==> events == old(events) && overridenDate == old(overridenDate) && ok
      ensures subtopics.Some? ==>
        |events| == |old(events)| + |subtopics.value| &&
        events[..|old(events)|] == old(events)
      ensures subtopics.Some? ==> forall j :: 0 <= j < |subtopics.value| ==>
        var e, s := events[|old(events)| + j], subtopics.value[j];
        e.subtopicId == s.subtopicId && e.title == s.subtopicName.name &&
        e.start == Date(s.subtopicDate) && e.status == s.status.name &&
        e.color == statusColor(s.status.name)
      ensures subtopics.Some? ==> ok == (|events| > 0)
      ensures subtopics.Some? && ok ==> overridenDate == Some(events[0].start)
      ensures !ok ==> overridenDate == old(overridenDate)
    {
      awaitingSubtopics := awaitingSubtopics - 1;
      ok := true;
      if subtopics.Some? {
        var loaded := subtopics.value;
        var j := 0;
        while j < |loaded|
          invariant 0 <= j <= |loaded|
          invariant |events| == |old(events)| + j
          invariant events[..|old(events)|] == old(events)
          invariant forall k :: 0 <= k < j ==> events[|old(events)| + k] == EventOf(loaded[k])
          invariant overridenDate == old(overridenDate)
          invariant awaitingSubtopics == old(awaitingSubtopics) - 1
          invariant calls == old(calls) && awaitingDateChange == old(awaitingDateChange)
        {
          events := events + [EventOf(loaded[j])];
          j := j + 1;
        }
        if |events| > 0 {
          overridenDate := Some(events[0].start);
        } else {
          ok := false;  // events[0] is undefined
        }
      }
    }

    /**
     * Replaces the widget event's start by its converted Date and returns the
     * same object, not a copy.
     */
    method MapSubtopicFromEvent(e: ScheduleEvent) returns (r: ScheduleEvent)
      modifies e
      ensures r == e
      ensures e.Fields() == old(e.Fields()).(start := toDate(old(e.start)))
    {
      r := e;
      r.start := toDate(e.start);
    }

    /**
     * Resets the first entry's start to the recorded date, then copies the
     * changed event's status, start and color into every entry with its title.
     * With an empty table the first read fails: `ok` is false and nothing changes.
     */
    method UpdateEvents(changed: CalendarEvent) returns (ok: bool)
      requires Valid()
      modifies this
      ensures Valid()
      ensures ok == (|old(events)| > 0)
      ensures ok ==> events == Reconciled(old(events), old(overridenDate).value, changed)
      ensures !ok ==> events == old(events)
      ensures overridenDate == old(overridenDate) && awaitingDateChange == old(awaitingDateChange)
      ensures awaitingSubtopics == old(awaitingSubtopics) && calls == old(calls)
    {
      if |events| == 0 {
        return false;  // events[0] is undefined
      }
      ok := true;
      events := events[0 := events[0].(start := overridenDate.value)];
      ghost var reset := events;
      var i := 0;
      while i < |events|
        invariant 0 <= i <= |events| == |reset|
        invariant forall k :: 0 <= k < i ==> events[k] == Refreshed(reset[k], changed)
        invariant forall k :: i <= k < |events| ==> events[k] == reset[k]
        invariant overridenDate == old(overridenDate) && awaitingDateChange == old(awaitingDateChange)
        invariant awaitingSubtopics == old(awaitingSubtopics) && calls == old(calls)
      {
        if events[i].title == changed.title {
          events := events[i := events[i].(status := changed.status, start := changed.start, color := changed.color)];
        }
        i := i + 1;
      }
    }

    /**
     * Advances the clicked event's status and recolors it, posts the status
     * change without waiting for it, and reconciles the event table.
     */
    method HandleEventClick(clicked: ScheduleEvent) returns (ok: bool)
      requires Valid()
      modifies this, clicked
      ensures Valid()
      ensures clicked.subtopicId == old(clicked.subtopicId) && clicked.title == old(clicked.title)
      ensures clicked.start == toDate(old(clicked.start))
      ensures clicked.status == nextStatus(old(clicked.Fields()).(start := clicked.start))
      ensures clicked.color == statusColor(clicked.status)
      ensures calls == old(calls) + [UpdateTopicStatus(clicked.Fields(), BatchId)]
      ensures ok == (|old(events)| > 0)
      ensures ok ==> events == Reconciled(old(events), old(overridenDate).value, clicked.Fields())
      ensures !ok ==> events == old(events)
      ensures overridenDate == old(overridenDate) && awaitingDateChange == old(awaitingDateChange)
      ensures awaitingSubtopics == old(awaitingSubtopics)
    {
      var calendarEvent := MapSubtopicFromEvent(clicked);
      clicked.status := nextStatus(calendarEvent.Fields());
      // calendarEvent is clicked itself, so this is the color of the new status
      clicked.color := statusColor(calendarEvent.status);
      calls := calls + [UpdateTopicStatus(calendarEvent.Fields(), BatchId)];
      ok := UpdateEvents(calendarEvent.Fields());
    }

    /**
     * Marks the dropped event as moved and recolors it, asks for the date
     * change, and reconciles the event table at once; the status update waits
     * for the date change to settle (see SettleDateChange).
     */
    method HandleEventDrop(dropped: ScheduleEvent) returns (ok: bool)
      requires Valid()
      modifies this, dropped
      ensures Valid()
      ensures dropped.subtopicId == old(dropped.subtopicId) && dropped.title == old(dropped.title)
      ensures dropped.start == toDate(old(dropped.start))
      ensures dropped.status == movedStatus(old(dropped.Fields()).(start := dropped.start))
      ensures dropped.color == statusColor(dropped.status)
      ensures calls == old(calls) + [ChangeTopicDate(dropped.subtopicId, BatchId, dropped.start.millis)]
      ensures awaitingDateChange == old(awaitingDateChange) + [dropped]
      ensures ok == (|old(events)| > 0)
      ensures ok ==> events == Reconciled(old(events), old(overridenDate).value, dropped.Fields())
      ensures !ok ==> events == old(events)
      ensures overridenDate == old(overridenDate) && awaitingSubtopics == old(awaitingSubtopics)
    {
      var calendarEvent := MapSubtopicFromEvent(dropped);
      var milliDate := calendarEvent.start.millis;
      dropped.status := movedStatus(calendarEvent.Fields());
      dropped.color := statusColor(dropped.status);
      calls := calls + [ChangeTopicDate(dropped.subtopicId, BatchId, milliDate)];
      awaitingDateChange := awaitingDateChange + [calendarEvent];
      ok := UpdateEvents(calendarEvent.Fields());
    }

    /**
     * The date change of the `k`-th waiting drop settles: whether it succeeded
     * or failed, the dropped event's status is posted, once. Nothing local is
     * changed or rolled back.
     */
    method SettleDateChange(k: nat, succeeded: bool)
      requires k < |awaitingDateChange|
      modifies this
      ensures calls == old(calls) + [UpdateTopicStatus(old(awaitingDateChange[k]).Fields(), BatchId)]
      ensures awaitingDateChange == old(awaitingDateChange[..k] + awaitingDateChange[k + 1..])
      ensures events == old(events) && overridenDate == old(overridenDate)
      ensures awaitingSubtopics == old(awaitingSubtopics)
    {
      var calendarEvent := awaitingDateChange[k];
      awaitingDateChange := awaitingDateChange[..k] + awaitingDateChange[k + 1..];
      if succeeded {
        calls := calls + [UpdateTopicStatus(calendarEvent.Fields(), BatchId)];
      } else {
        calls := calls + [UpdateTopicStatus(calendarEvent.Fields(), BatchId)];
      }
    }
  }
}
