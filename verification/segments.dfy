/** The segment label of the report (audit_script.py lines 37-41): the
    distinct Segment values in order of first appearance, joined with ", ",
    or a fixed label when the input has no Segment column. */
module Segments {

  /** Label used when the input has no Segment column. */
  const FallbackLabel: string := "Equity & F&O (Options) [Derived]"

  const Separator: string := ", "

  /** Position of the first occurrence of `x` in `s`. */
  function FirstIndex(s: seq<string>, x: string): (i: nat)
    requires x in s
    ensures i < |s| && s[i] == x
    ensures forall j :: 0 <= j < i ==> s[j] != x
  {
    if s[0] == x then 0 else 1 + FirstIndex(s[1..], x)
  }

  /** Appending an element does not move earlier first occurrences. */
  lemma FirstIndexSnoc(s: seq<string>, y: string, x: string)
    requires x in s
    ensures x in s + [y] && FirstIndex(s + [y], x) == FirstIndex(s, x)
  {
    var t := s + [y];
    var i := FirstIndex(s, x);
    assert t[i] == x;
    var k := FirstIndex(t, x);
    assert k <= i;
  }

  predicate Distinct(u: seq<string>)
  {
    forall i, j :: 0 <= i < j < |u| ==> u[i] != u[j]
  }

  /** pandas `Series.unique()`: each distinct value once, in order of first appearance. */
  function Unique(s: seq<string>): (u: seq<string>)
    ensures Distinct(u)
    ensures forall x :: x in u <==> x in s
    ensures forall i, j :: 0 <= i < j < |u| ==> FirstIndex(s, u[i]) < FirstIndex(s, u[j])
  {
    if |s| == 0 then []
    else
      var init := s[..|s| - 1];
      var last := s[|s| - 1];
      assert s == init + [last];
      var u := Unique(init);
      forall x | x in init ensures FirstIndex(s, x) == FirstIndex(init, x) {
        FirstIndexSnoc(init, last, x);
      }
      if last in u then u
      else
        assert FirstIndex(s, last) == |s| - 1;
        u + [last]
  }

  /** Python's `sep.join(parts)`. */
  function Join(parts: seq<string>, sep: string): (r: string)
    ensures |parts| == 0 ==> r == ""
    ensures |parts| == 1 ==> r == parts[0]
    ensures |parts| > 0 ==> |r| == TotalLength(parts) + (|parts| - 1) * |sep|
  {
    if |parts| == 0 then ""
    else if |parts| == 1 then parts[0]
    else parts[0] + sep + Join(parts[1..], sep)
  }

  function TotalLength(parts: seq<string>): nat
  {
    if |parts| == 0 then 0 else |parts[0]| + TotalLength(parts[1..])
  }

  /** Where part `i` starts in the joined text: after each earlier part and
      the separator that follows it. */
  function Offset(parts: seq<string>, sep: string, i: nat): nat
    requires i <= |parts|
  {
    if i == 0 then 0 else |parts[0]| + |sep| + Offset(parts[1..], sep, i - 1)
  }

  /** The offset of part `i` is the length of the parts before it plus one separator for each. */
  lemma {:induction false} OffsetClosedForm(parts: seq<string>, sep: string, i: nat)
    requires i <= |parts|
    ensures Offset(parts, sep, i) == TotalLength(parts[..i]) + i * |sep|
  {
    if i > 0 {
      OffsetClosedForm(parts[1..], sep, i - 1);
      assert parts[..i][1..] == parts[1..][..i - 1];
    }
  }

  /** A slice past a prefix of known length is a slice of the rest. */
  lemma SliceAfter(head: string, tail: string, lo: nat, hi: nat)
    requires lo <= hi <= |tail|
    ensures (head + tail)[|head| + lo..|head| + hi] == tail[lo..hi]
  {
  }

  /** Part `i` of the joined text sits at its offset. */
  lemma {:induction false} JoinPartAt(parts: seq<string>, sep: string, i: nat)
    requires i < |parts|
    ensures Offset(parts, sep, i) + |parts[i]| <= |Join(parts, sep)|
    ensures Join(parts, sep)[Offset(parts, sep, i)..Offset(parts, sep, i) + |parts[i]|] == parts[i]
  {
    if i > 0 {
      var head, tail := parts[0] + sep, Join(parts[1..], sep);
      assert Join(parts, sep) == head + tail;
      JoinPartAt(parts[1..], sep, i - 1);
      assert parts[1..][i - 1] == parts[i];
      var o := Offset(parts[1..], sep, i - 1);
      assert Offset(parts, sep, i) == |head| + o;
      SliceAfter(head, tail, o, o + |parts[i]|);
    }
  }

  /** The separator follows every part of the joined text but the last. */
  lemma {:induction false} JoinSeparatorAfter(parts: seq<string>, sep: string, i: nat)
    requires i + 1 < |parts|
    ensures Offset(parts, sep, i) + |parts[i]| + |sep| <= |Join(parts, sep)|
    ensures Join(parts, sep)[Offset(parts, sep, i) + |parts[i]|..Offset(parts, sep, i) + |parts[i]| + |sep|] == sep
  {
    if i > 0 {
      var head, tail := parts[0] + sep, Join(parts[1..], sep);
      assert Join(parts, sep) == head + tail;
      JoinSeparatorAfter(parts[1..], sep, i - 1);
      assert parts[1..][i - 1] == parts[i];
      var o := Offset(parts[1..], sep, i - 1) + |parts[i]|;
      assert Offset(parts, sep, i) + |parts[i]| == |head| + o;
      SliceAfter(head, tail, o, o + |sep|);
    }
  }

  /** The Segments line of the report. */
  function SegmentLabel(hasSegment: bool, segments: seq<string>): (r: string)
    ensures !hasSegment ==> r == FallbackLabel
    ensures hasSegment && |segments| > 0 ==> |r| == TotalLength(Unique(segments)) + (|Unique(segments)| - 1) * |Separator|
  {
    if hasSegment then Join(Unique(segments), Separator) else FallbackLabel
  }

  /** A log whose rows all name one segment is labelled with that segment alone. */
  lemma {:induction false} SingleSegmentLabel(segments: seq<string>, x: string)
    requires |segments| > 0
    requires forall i :: 0 <= i < |segments| ==> segments[i] == x
    ensures SegmentLabel(true, segments) == x
  {
    UniqueOfConstant(segments, x);
  }

  lemma {:induction false} UniqueOfConstant(s: seq<string>, x: string)
    requires |s| > 0
    requires forall i :: 0 <= i < |s| ==> s[i] == x
    ensures Unique(s) == [x]
  {
    var init := s[..|s| - 1];
    if |init| > 0 {
      UniqueOfConstant(init, x);
    } else {
      assert Unique(init) == [];
    }
  }
}
