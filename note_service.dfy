/**
 * The Caliber note service: the URLs it requests notes from, the fan-in of the
 * four batch/week note feeds into one list, and what it pushes on its list
 * subject.
 *
 * HTTP is not performed: every request the service makes is appended to a
 * ghost request log, and the replies arrive as an explicit trace.
 */
module NoteService {
  import opened Wrappers
  import Decimal
  import Paths
  import opened RxMerge

  /** The note fields the service reads; the rest of a note is carried as `content`. */
  datatype Note = Note(noteId: int, week: int, content: string)

  datatype Batch = Batch(batchId: int)

  datatype Trainee = Trainee(traineeId: int)

  /** Who entered the notes: a trainer or quality control. */
  datatype Role = Trainer | QualityControl

  /** What the notes are about: the batch as a whole, or its trainees. */
  datatype Kind = BatchNotes | TraineeNotes

  /** One of the four note feeds that make up a batch/week view. */
  datatype Feed = Feed(role: Role, kind: Kind)

  datatype NoteQuery = NoteQuery(feed: Feed, batchId: int, week: int)

  const AllFeeds: set<Feed> :=
    {Feed(Trainer, BatchNotes), Feed(Trainer, TraineeNotes),
     Feed(QualityControl, BatchNotes), Feed(QualityControl, TraineeNotes)}

  function RoleSegment(r: Role): string {
    match r
    case Trainer => "trainer"
    case QualityControl => "qc"
  }

  function KindSegment(k: Kind): string {
    match k
    case BatchNotes => "batch"
    case TraineeNotes => "trainee"
  }

  // ---------------------------------------------------------------------------
  // URLs
  // ---------------------------------------------------------------------------

  /** `<role>/note/<kind>/<batchId>/<week>`, the route of every batch/week feed. */
  function BatchWeekUrl(q: NoteQuery): string {
    RoleSegment(q.feed.role) + "/note/" + KindSegment(q.feed.kind) + "/" +
    Decimal.IntToString(q.batchId) + "/" + Decimal.IntToString(q.week)
  }

  function FetchQcBatchNotesUrl(batchId: int, week: int): string {
    BatchWeekUrl(NoteQuery(Feed(QualityControl, BatchNotes), batchId, week))
  }

  function FetchQcTraineeNotesUrl(batchId: int, week: int): string {
    BatchWeekUrl(NoteQuery(Feed(QualityControl, TraineeNotes), batchId, week))
  }

  function FetchBatchNotesUrl(batchId: int, week: int): string {
    BatchWeekUrl(NoteQuery(Feed(Trainer, BatchNotes), batchId, week))
  }

  function FetchTraineeNotesUrl(batchId: int, week: int): string {
    BatchWeekUrl(NoteQuery(Feed(Trainer, TraineeNotes), batchId, week))
  }

  /** The route of every note of one trainee. */
  function FetchByTraineeUrl(trainee: Trainee): string {
    "all/notes/trainee/" + Decimal.IntToString(trainee.traineeId)
  }

  const UpdateUrl: string := "note/update"

  const CreateUrl: string := "note/create"

  /** The route of a feed, read back: the inverse of BatchWeekUrl. */
  function ParseBatchWeekUrl(url: string): Option<NoteQuery> {
    var segments := Paths.Split(url);
    if |segments| != 5 || segments[1] != "note" then None
    else
      var role := if segments[0] == "trainer" then Some(Trainer)
                  else if segments[0] == "qc" then Some(QualityControl) else None;
      var kind := if segments[2] == "batch" then Some(BatchNotes)
                  else if segments[2] == "trainee" then Some(TraineeNotes) else None;
      var batchId := Decimal.ParseInt(segments[3]);
      var week := Decimal.ParseInt(segments[4]);
      if role.Some? && kind.Some? && batchId.Some? && week.Some?
      then Some(NoteQuery(Feed(role.value, kind.value), batchId.value, week.value))
      else None
  }

  lemma BatchWeekUrlSegments(q: NoteQuery)
    ensures Paths.Split(BatchWeekUrl(q)) ==
      [RoleSegment(q.feed.role), "note", KindSegment(q.feed.kind),
       Decimal.IntToString(q.batchId), Decimal.IntToString(q.week)]
  {
    var segments := [RoleSegment(q.feed.role), "note", KindSegment(q.feed.kind),
                     Decimal.IntToString(q.batchId), Decimal.IntToString(q.week)];
    assert Paths.Join(segments[4..]) == segments[4];
    assert Paths.Join(segments[3..]) == segments[3] + "/" + segments[4];
    assert segments[2..][1..] == segments[3..];
    assert Paths.Join(segments[2..]) == segments[2] + "/" + segments[3] + "/" + segments[4];
    assert segments[1..][1..] == segments[2..];
    assert Paths.Join(segments[1..]) == segments[1] + "/" + segments[2] + "/" + segments[3] + "/" + segments[4];
    assert Paths.Join(segments) == BatchWeekUrl(q);
    Paths.SplitJoin(segments);
  }

  /** Every batch/week route reads back as the feed, batch and week it was built from. */
  lemma ParseBatchWeekUrlRoundTrip(q: NoteQuery)
    ensures ParseBatchWeekUrl(BatchWeekUrl(q)) == Some(q)
  {
    BatchWeekUrlSegments(q);
    Decimal.ParseIntToString(q.batchId);
    Decimal.ParseIntToString(q.week);
  }

  /** Two batch/week routes are equal exactly when feed, batch and week are. */
  lemma BatchWeekUrlInjective(q1: NoteQuery, q2: NoteQuery)
    ensures BatchWeekUrl(q1) == BatchWeekUrl(q2) <==> q1 == q2
  {
    ParseBatchWeekUrlRoundTrip(q1);
    ParseBatchWeekUrlRoundTrip(q2);
  }

  /** The four feeds of one batch and week are requested from four different routes. */
  lemma FeedUrlsDistinct(batchId: int, week: int)
    ensures FetchBatchNotesUrl(batchId, week) != FetchTraineeNotesUrl(batchId, week)
    ensures FetchBatchNotesUrl(batchId, week) != FetchQcBatchNotesUrl(batchId, week)
    ensures FetchBatchNotesUrl(batchId, week) != FetchQcTraineeNotesUrl(batchId, week)
    ensures FetchTraineeNotesUrl(batchId, week) != FetchQcBatchNotesUrl(batchId, week)
    ensures FetchTraineeNotesUrl(batchId, week) != FetchQcTraineeNotesUrl(batchId, week)
    ensures FetchQcBatchNotesUrl(batchId, week) != FetchQcTraineeNotesUrl(batchId, week)
  {
  }

  /**
   * The trainee route is `all/notes/trainee/<traineeId>`, determines the trainee,
   * and is none of the batch/week routes nor the update or create route.
   */
  lemma FetchByTraineeUrlShape(t1: Trainee, t2: Trainee, q: NoteQuery)
    ensures Paths.Split(FetchByTraineeUrl(t1)) == ["all", "notes", "trainee", Decimal.IntToString(t1.traineeId)]
    ensures FetchByTraineeUrl(t1) == FetchByTraineeUrl(t2) <==> t1 == t2
    ensures FetchByTraineeUrl(t1) != BatchWeekUrl(q)
    ensures FetchByTraineeUrl(t1) != UpdateUrl && FetchByTraineeUrl(t1) != CreateUrl && UpdateUrl != CreateUrl
  {
    var segments := ["all", "notes", "trainee", Decimal.IntToString(t1.traineeId)];
    assert Paths.Join(segments[3..]) == segments[3];
    assert segments[2..][1..] == segments[3..];
    assert Paths.Join(segments[2..]) == segments[2] + "/" + segments[3];
    assert segments[1..][1..] == segments[2..];
    assert Paths.Join(segments[1..]) == segments[1] + "/" + segments[2] + "/" + segments[3];
    assert Paths.Join(segments) == FetchByTraineeUrl(t1);
    Paths.SplitJoin(segments);
    BatchWeekUrlSegments(q);
    if FetchByTraineeUrl(t1) == FetchByTraineeUrl(t2) {
      var prefix := "all/notes/trainee/";
      assert FetchByTraineeUrl(t1)[|prefix|..] == Decimal.IntToString(t1.traineeId);
      assert FetchByTraineeUrl(t2)[|prefix|..] == Decimal.IntToString(t2.traineeId);
      Decimal.IntToStringInjective(t1.traineeId, t2.traineeId);
    }
    assert FetchByTraineeUrl(t1)[0] == 'a';
    assert UpdateUrl[0] == 'n' && CreateUrl[0] == 'n';
  }

  // ---------------------------------------------------------------------------
  // Fan-in of the four feeds
  // ---------------------------------------------------------------------------

  /** All lists, one after the other. */
  function Flatten<T>(lists: seq<seq<T>>): seq<T>
    decreases |lists|
  {
    if lists == [] then [] else lists[0] + Flatten(lists[1..])
  }

  function SumLengths<T>(lists: seq<seq<T>>): nat
    decreases |lists|
  {
    if lists == [] then 0 else |lists[0]| + SumLengths(lists[1..])
  }

  /**
   * What the subscriber of the merged feeds pushes on the list subject, given
   * the events it still receives and its accumulator `results`: each list is
   * concatenated onto the accumulator, an error is ignored and ends the
   * subscription, completion pushes the accumulator once.
   */
  function Published(m: seq<Event<seq<Note>>>, results: seq<Note>): (pushed: seq<seq<Note>>)
    ensures |pushed| <= 1
    ensures pushed != [] ==> Complete in m
    decreases |m|
  {
    if m == [] then []
    else match m[0]
      case Next(notes) => Published(m[1..], results + notes)
      case Error => []
      case Complete => [results]
  }

  /** Appending one more list to the lists received so far appends it to their concatenation. */
  lemma {:induction false} FlattenAppend<T>(lists: seq<seq<T>>, last: seq<T>)
    ensures Flatten(lists + [last]) == Flatten(lists) + last
    decreases |lists|
  {
    if lists == [] {
      assert [] + [last] == [last];
      assert [last][1..] == [];
    } else {
      assert (lists + [last])[1..] == lists[1..] + [last];
      FlattenAppend(lists[1..], last);
    }
  }

  /** The concatenation is as long as all the lists together. */
  lemma {:induction false} FlattenLength<T>(lists: seq<seq<T>>)
    ensures |Flatten(lists)| == SumLengths(lists)
    decreases |lists|
  {
    if lists != [] {
      FlattenLength(lists[1..]);
    }
  }

  /**
   * The `j`-th list sits, unchanged and contiguous, right after all the lists
   * received before it: order within a list is kept and earlier lists come first.
   */
  lemma {:induction false} FlattenSlice<T>(lists: seq<seq<T>>, j: nat)
    requires j < |lists|
    ensures SumLengths(lists[..j]) + |lists[j]| <= |Flatten(lists)|
    ensures Flatten(lists)[SumLengths(lists[..j]) .. SumLengths(lists[..j]) + |lists[j]|] == lists[j]
    decreases j
  {
    FlattenLength(lists);
    FlattenLength(lists[1..]);
    if j == 0 {
      assert lists[..0] == [];
    } else {
      FlattenSlice(lists[1..], j - 1);
      assert lists[1..][..j - 1] == lists[..j][1..];
      assert lists[..j][0] == lists[0];
      var before := SumLengths(lists[1..][..j - 1]);
      var f := Flatten(lists);
      assert f == lists[0] + Flatten(lists[1..]);
      assert f[|lists[0]| + before .. |lists[0]| + before + |lists[j]|]
          == Flatten(lists[1..])[before .. before + |lists[j]|];
    }
  }

  /** A run of lists followed by completion pushes the accumulator extended by all of them, once. */
  lemma {:induction false} PublishedOnComplete(lists: seq<seq<Note>>, results: seq<Note>, rest: seq<Event<seq<Note>>>)
    ensures Published(Nexts(lists) + [Complete] + rest, results) == [results + Flatten(lists)]
    decreases |lists|
  {
    var m := Nexts(lists) + [Complete] + rest;
    if lists == [] {
      assert m[0] == Complete;
      assert results + [] == results;
    } else {
      assert m[0] == Next(lists[0]);
      assert m[1..] == Nexts(lists[1..]) + [Complete] + rest;
      PublishedOnComplete(lists[1..], results + lists[0], rest);
      assert results + lists[0] + Flatten(lists[1..]) == results + Flatten(lists);
    }
  }

  /** A run of lists followed by an error pushes nothing, whatever follows the error. */
  lemma {:induction false} PublishedOnError(lists: seq<seq<Note>>, results: seq<Note>, rest: seq<Event<seq<Note>>>)
    ensures Published(Nexts(lists) + [Error] + rest, results) == []
    decreases |lists|
  {
    var m := Nexts(lists) + [Error] + rest;
    if lists == [] {
      assert m[0] == Error;
    } else {
      assert m[0] == Next(lists[0]);
      assert m[1..] == Nexts(lists[1..]) + [Error] + rest;
      PublishedOnError(lists[1..], results + lists[0], rest);
    }
  }

  /** Feeds that have not all finished have pushed nothing. */
  lemma FetchPending(arrivals: seq<SourceEvent<Feed, seq<Note>>>)
    requires WellBehaved(arrivals, AllFeeds) && NoFailure(arrivals)
    requires Remaining(arrivals, AllFeeds) != {}
    ensures Published(Merge(arrivals, AllFeeds), []) == []
  {
    MergePending(arrivals, AllFeeds);
  }

  /**
   * Once all four feeds have delivered and finished, without failing and in
   * any interleaving, exactly one list is pushed: every delivered list, in
   * arrival order, concatenated.
   */
  lemma FetchCompletes(arrivals: seq<SourceEvent<Feed, seq<Note>>>)
    requires WellBehaved(arrivals, AllFeeds) && NoFailure(arrivals)
    requires Remaining(arrivals, AllFeeds) == {}
    ensures Published(Merge(arrivals, AllFeeds), []) == [Flatten(EmittedValues(arrivals))]
    ensures |Flatten(EmittedValues(arrivals))| == SumLengths(EmittedValues(arrivals))
  {
    MergeCompletes(arrivals, AllFeeds);
    PublishedOnComplete(EmittedValues(arrivals), [], []);
    assert Nexts(EmittedValues(arrivals)) + [Complete] + [] == Nexts(EmittedValues(arrivals)) + [Complete];
    assert [] + Flatten(EmittedValues(arrivals)) == Flatten(EmittedValues(arrivals));
    FlattenLength(EmittedValues(arrivals));
  }

  /**
   * A feed that fails before it finishes ends the merged stream: the notes
   * received so far are dropped and nothing is pushed, even when the other
   * feeds finish afterwards.
   */
  lemma FetchFails(before: seq<SourceEvent<Feed, seq<Note>>>, feed: Feed, after: seq<SourceEvent<Feed, seq<Note>>>)
    requires WellBehaved(before + [Failed(feed)], AllFeeds) && NoFailure(before)
    ensures Published(Merge(before + [Failed(feed)] + after, AllFeeds), []) == []
  {
    MergeFails(before, feed, after, AllFeeds);
    PublishedOnError(EmittedValues(before), [], []);
    assert Nexts(EmittedValues(before)) + [Error] + [] == Nexts(EmittedValues(before)) + [Error];
  }

  // ---------------------------------------------------------------------------
  // The service
  // ---------------------------------------------------------------------------

  /** A request handed to the HTTP layer: through the API base service, or built by the environment service. */
  datatype Request = ApiGet(url: string) | ApiPost(url: string, body: Note) | HttpGet(path: string)

  class NoteService {
    /** Every value pushed on the list subject, oldest first. */
    var listSubject: seq<seq<Note>>
    /** The paths of the QC notes requests whose reply has not arrived, oldest first. */
    var awaitingNotes: seq<string>
    ghost var requests: seq<Request>

    constructor ()
      ensures listSubject == [] && awaitingNotes == [] && requests == []
    {
      listSubject := [];
      awaitingNotes := [];
      requests := [];
    }

    /**
     * Requests the four batch/week feeds and subscribes to their merge. The
     * feeds' replies arrive in the order `arrivals`; the subscriber folds every
     * list into its accumulator and pushes the accumulator when the merge completes.
     */
    method FetchByBatchIdByWeek(batchId: int, week: int, arrivals: seq<SourceEvent<Feed, seq<Note>>>)
      modifies this
      ensures requests == old(requests) +
        [ApiGet(FetchBatchNotesUrl(batchId, week)), ApiGet(FetchTraineeNotesUrl(batchId, week)),
         ApiGet(FetchQcBatchNotesUrl(batchId, week)), ApiGet(FetchQcTraineeNotesUrl(batchId, week))]
      ensures listSubject == old(listSubject) + Published(Merge(arrivals, AllFeeds), [])
      ensures awaitingNotes == old(awaitingNotes)
    {
      requests := requests +
        [ApiGet(FetchBatchNotesUrl(batchId, week)), ApiGet(FetchTraineeNotesUrl(batchId, week)),
         ApiGet(FetchQcBatchNotesUrl(batchId, week)), ApiGet(FetchQcTraineeNotesUrl(batchId, week))];

      ghost var issued := requests;
      var merged := Merge(arrivals, AllFeeds);
      var results: seq<Note> := [];
      var subscribed := true;
      var i := 0;
      while i < |merged| && subscribed
        invariant 0 <= i <= |merged|
        invariant subscribed ==>
          old(listSubject) + Published(merged, []) == listSubject + Published(merged[i..], results)
        invariant !subscribed ==> listSubject == old(listSubject) + Published(merged, [])
        invariant requests == issued
        invariant awaitingNotes == old(awaitingNotes)
        decreases |merged| - i
      {
        assert merged[i..][0] == merged[i] && merged[i..][1..] == merged[i + 1..];
        match merged[i] {
          case Next(notes) =>
            results := results + notes;
          case Error =>
            subscribed := false;
          case Complete =>
            listSubject := listSubject + [results];
            subscribed := false;
        }
        i := i + 1;
      }
      if subscribed {
        assert merged[i..] == [];
      }
    }

    /** Posts a note to the update route. */
    method Update(note: Note)
      modifies this
      ensures requests == old(requests) + [ApiPost(UpdateUrl, note)]
      ensures listSubject == old(listSubject) && awaitingNotes == old(awaitingNotes)
    {
      requests := requests + [ApiPost(UpdateUrl, note)];
    }

    /** Posts a note to the create route. */
    method Create(note: Note)
      modifies this
      ensures requests == old(requests) + [ApiPost(CreateUrl, note)]
      ensures listSubject == old(listSubject) && awaitingNotes == old(awaitingNotes)
    {
      requests := requests + [ApiPost(CreateUrl, note)];
    }

    /**
     * Clears the list subject and requests the QC trainee notes of the note's
     * week. The reply is handled later, by SettleNotesRequest.
     */
    method GetAllQCTraineeNotes(batch: Batch, note: Note)
      modifies this
      ensures requests == old(requests) +
        [HttpGet("/" + BatchWeekUrl(NoteQuery(Feed(QualityControl, TraineeNotes), batch.batchId, note.week)))]
      ensures listSubject == old(listSubject) + [[]]
      ensures awaitingNotes == old(awaitingNotes) +
        ["/" + BatchWeekUrl(NoteQuery(Feed(QualityControl, TraineeNotes), batch.batchId, note.week))]
    {
      var path := "/qc/note/trainee/" + Decimal.IntToString(batch.batchId) + "/" + Decimal.IntToString(note.week);
      assert path == "/" + BatchWeekUrl(NoteQuery(Feed(QualityControl, TraineeNotes), batch.batchId, note.week));
      requests := requests + [HttpGet(path)];
      listSubject := listSubject + [[]];
      awaitingNotes := awaitingNotes + [path];
    }

    /**
     * Clears the list subject and requests the QC batch notes of the note's
     * week. The reply is handled later, by SettleNotesRequest.
     */
    method FindQCBatchNotes(batch: Batch, note: Note)
      modifies this
      ensures requests == old(requests) +
        [HttpGet("/" + BatchWeekUrl(NoteQuery(Feed(QualityControl, BatchNotes), batch.batchId, note.week)))]
      ensures listSubject == old(listSubject) + [[]]
      ensures awaitingNotes == old(awaitingNotes) +
        ["/" + BatchWeekUrl(NoteQuery(Feed(QualityControl, BatchNotes), batch.batchId, note.week))]
    {
      var path := "/qc/note/batch/" + Decimal.IntToString(batch.batchId) + "/" + Decimal.IntToString(note.week);
      assert path == "/" + BatchWeekUrl(NoteQuery(Feed(QualityControl, BatchNotes), batch.batchId, note.week));
      requests := requests + [HttpGet(path)];
      listSubject := listSubject + [[]];
      awaitingNotes := awaitingNotes + [path];
    }

    /**
     * The `k`-th waiting QC notes request settles: a reply is pushed on the
     * list subject as it is; a failure, which has no handler, pushes nothing.
     */
    method SettleNotesRequest(k: nat, reply: Option<seq<Note>>)
      requires k < |awaitingNotes|
      modifies this
      ensures awaitingNotes == old(awaitingNotes[..k] + awaitingNotes[k + 1..])
      ensures listSubject == old(listSubject) + (if reply.Some? then [reply.value] else [])
      ensures requests == old(requests)
    {
      awaitingNotes := awaitingNotes[..k] + awaitingNotes[k + 1..];
      if reply.Some? {
        listSubject := listSubject + [reply.value];
      }
    }
  }
}
