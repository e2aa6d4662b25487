/** Relative URL paths as '/'-separated segments. */
module Paths {

  predicate IsSegment(s: string) {
    '/' !in s
  }

  function Join(segments: seq<string>): (p: string)
    requires |segments| > 0
    decreases |segments|
  {
    if |segments| == 1 then segments[0] else segments[0] + "/" + Join(segments[1..])
  }

  /** Cuts a path at every '/'; a path without '/' is one segment. */
  function Split(p: string): (segments: seq<string>)
    ensures |segments| > 0
    decreases |p|
  {
    if p == [] then [[]]
    else if p[0] == '/' then [[]] + Split(p[1..])
    else
      var rest := Split(p[1..]);
      [[p[0]] + rest[0]] + rest[1..]
  }

  lemma {:induction false} SplitSegmentPrefix(a: string, tail: string)
    requires IsSegment(a)
    ensures Split(a + tail) == [a + Split(tail)[0]] + Split(tail)[1..]
    decreases |a|
  {
    if a != [] {
      assert (a + tail)[1..] == a[1..] + tail;
      SplitSegmentPrefix(a[1..], tail);
      assert [a[0]] + (a[1..] + Split(tail)[0]) == a + Split(tail)[0];
    } else {
      var r := Split(tail);
      assert a + tail == tail && a + r[0] == r[0];
      assert r == [r[0]] + r[1..];
    }
  }

  /** Splitting a joined path gives back its segments. */
  lemma {:induction false} SplitJoin(segments: seq<string>)
    requires |segments| > 0
    requires forall k :: 0 <= k < |segments| ==> IsSegment(segments[k])
    ensures Split(Join(segments)) == segments
    decreases |segments|
  {
    var a := segments[0];
    if |segments| == 1 {
      SplitSegmentPrefix(a, []);
      assert a + [] == a;
    } else {
      var rest := Join(segments[1..]);
      SplitJoin(segments[1..]);
      assert a + "/" + rest == a + ("/" + rest);
      SplitSegmentPrefix(a, "/" + rest);
      assert ("/" + rest)[1..] == rest;
      assert Split("/" + rest) == [[]] + segments[1..];
      assert a + [] == a;
    }
  }
}
