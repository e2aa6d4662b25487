/**
 * Observable.merge, as the note service uses it, over explicit event traces.
 *
 * Asynchronous delivery is replaced by a trace: the order in which the merged
 * inputs deliver their events. The merged stream forwards every value of an
 * input that has not finished, ends with Error at the first failure of such an
 * input, and ends with Complete once every input has finished. Nothing is
 * forwarded after the merged stream has ended.
 */
module RxMerge {

  /** What a subscriber of the merged stream observes. */
  datatype Event<T> = Next(value: T) | Error | Complete

  /** What one input of the merge, identified by `src`, delivers. */
  datatype SourceEvent<S, T> = Emitted(src: S, value: T) | Failed(src: S) | Finished(src: S)

  /** A terminal event, if any, is the last one. */
  predicate WellFormed<T>(m: seq<Event<T>>) {
    forall i :: 0 <= i < |m| - 1 ==> m[i].Next?
  }

  /** One Next per value, in order. */
  function Nexts<T>(vs: seq<T>): (m: seq<Event<T>>)
    ensures |m| == |vs|
    ensures forall i :: 0 <= i < |m| ==> m[i] == Next(vs[i])
    decreases |vs|
  {
    if vs == [] then [] else [Next(vs[0])] + Nexts(vs[1..])
  }

  /** The values of the Emitted events of a trace, in trace order. */
  function EmittedValues<S, T>(t: seq<SourceEvent<S, T>>): seq<T>
    decreases |t|
  {
    if t == [] then []
    else if t[0].Emitted? then [t[0].value] + EmittedValues(t[1..])
    else EmittedValues(t[1..])
  }

  /** The inputs among `live` that `t` does not finish. */
  function Remaining<S, T>(t: seq<SourceEvent<S, T>>, live: set<S>): set<S>
    decreases |t|
  {
    if t == [] then live
    else if t[0].Finished? then Remaining(t[1..], live - {t[0].src})
    else Remaining(t[1..], live)
  }

  predicate NoFailure<S, T>(t: seq<SourceEvent<S, T>>) {
    forall i :: 0 <= i < |t| ==> !t[i].Failed?
  }

  /**
   * Every event comes from an input that has not yet finished: each input keeps
   * the observable contract of delivering nothing after it terminates.
   */
  predicate WellBehaved<S, T>(t: seq<SourceEvent<S, T>>, live: set<S>)
    decreases |t|
  {
    t == [] ||
    (t[0].src in live &&
     if t[0].Finished? then WellBehaved(t[1..], live - {t[0].src})
     else if t[0].Failed? then WellBehaved(t[1..], live - {t[0].src})
     else WellBehaved(t[1..], live))
  }

  /**
   * The merged stream of the inputs in `live`, given the order `t` in which they
   * deliver. An input outside `live` has finished: what it still delivers is
   * ignored. Merging no inputs completes at once.
   */
  function Merge<S, T>(t: seq<SourceEvent<S, T>>, live: set<S>): (m: seq<Event<T>>)
    ensures WellFormed(m)
    decreases |t|
  {
    if live == {} then [Complete]
    else if t == [] then []
    else match t[0]
      case Emitted(s, v) =>
        if s in live then [Next(v)] + Merge(t[1..], live) else Merge(t[1..], live)
      case Failed(s) =>
        if s in live then [Error] else Merge(t[1..], live)
      case Finished(s) =>
        Merge(t[1..], live - {s})
  }

  /** When every input finishes without failing, all values are forwarded, then Complete. */
  lemma {:induction false} MergeCompletes<S, T>(t: seq<SourceEvent<S, T>>, live: set<S>)
    requires WellBehaved(t, live) && NoFailure(t)
    requires Remaining(t, live) == {}
    ensures Merge(t, live) == Nexts(EmittedValues(t)) + [Complete]
    decreases |t|
  {
    if live != {} && t != [] {
      assert NoFailure(t[1..]) by {
        forall i | 0 <= i < |t[1..]| ensures !t[1..][i].Failed? {
          assert t[1..][i] == t[i + 1];
        }
      }
      match t[0]
      case Emitted(s, v) =>
        MergeCompletes(t[1..], live);
      case Failed(s) =>
        assert false;
      case Finished(s) =>
        MergeCompletes(t[1..], live - {s});
    }
  }

  /** While some input has not finished and none failed, values are forwarded and nothing ends. */
  lemma {:induction false} MergePending<S, T>(t: seq<SourceEvent<S, T>>, live: set<S>)
    requires WellBehaved(t, live) && NoFailure(t)
    requires Remaining(t, live) != {}
    ensures Merge(t, live) == Nexts(EmittedValues(t))
    decreases |t|
  {
    if live != {} && t != [] {
      assert NoFailure(t[1..]) by {
        forall i | 0 <= i < |t[1..]| ensures !t[1..][i].Failed? {
          assert t[1..][i] == t[i + 1];
        }
      }
      match t[0]
      case Emitted(s, v) =>
        MergePending(t[1..], live);
      case Failed(s) =>
        assert false;
      case Finished(s) =>
        MergePending(t[1..], live - {s});
    }
  }

  /**
   * The first failure ends the merged stream with Error: the values delivered
   * before it are forwarded, and nothing after it is, not even a later Complete.
   */
  lemma {:induction false} MergeFails<S, T>(p: seq<SourceEvent<S, T>>, s: S, q: seq<SourceEvent<S, T>>, live: set<S>)
    requires WellBehaved(p + [Failed(s)], live) && NoFailure(p)
    ensures Merge(p + [Failed(s)] + q, live) == Nexts(EmittedValues(p)) + [Error]
    decreases |p|
  {
    var t := p + [Failed(s)] + q;
    if p == [] {
      assert t[0] == Failed(s);
      assert (p + [Failed(s)])[0].src in live;
    } else {
      assert t[0] == p[0];
      assert t[1..] == p[1..] + [Failed(s)] + q;
      assert (p + [Failed(s)])[1..] == p[1..] + [Failed(s)];
      assert (p + [Failed(s)])[0] == p[0];
      assert NoFailure(p[1..]) by {
        forall i | 0 <= i < |p[1..]| ensures !p[1..][i].Failed? {
          assert p[1..][i] == p[i + 1];
        }
      }
      assert !p[0].Failed?;
      match p[0]
      case Emitted(s0, v) =>
        MergeFails(p[1..], s, q, live);
      case Finished(s0) =>
        MergeFails(p[1..], s, q, live - {s0});
        assert live != {};
    }
  }
}
