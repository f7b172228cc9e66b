/** Clip records, the stable sort by start time that the timeline applies to
    them, and the two `findIndex` lookups it performs on them. */
module Clips {

  datatype Option<T> = None | Some(value: T)

  /** A time range [start, end] of the source video, with the fade lengths the
      crossfade resolver derives from overlaps with its neighbours. */
  datatype Clip = Clip(id: nat, start: real, end: real, fadeIn: real, fadeOut: real)

  /** What the timeline hands to the exporter for one clip (its id dropped). */
  datatype Segment = Segment(start: real, end: real, fadeIn: real, fadeOut: real)

  function Length(c: Clip): real {
    c.end - c.start
  }

  predicate SortedByStart(cs: seq<Clip>) {
    forall i, j :: 0 <= i < j < |cs| ==> cs[i].start <= cs[j].start
  }

  /** Every id is below the counter that hands out the next one, and no two
      clips share an id: a freshly allocated id clashes with nothing. */
  predicate IdsFresh(cs: seq<Clip>, counter: nat) {
    (forall i :: 0 <= i < |cs| ==> cs[i].id < counter) &&
    (forall i, j :: 0 <= i < j < |cs| ==> cs[i].id != cs[j].id)
  }

  /** Moving one clip in time keeps the ids of the list as they were. */
  lemma MoveKeepsIdsFresh(cs: seq<Clip>, k: nat, start: real, end: real, counter: nat)
    requires k < |cs| && IdsFresh(cs, counter)
    ensures IdsFresh(cs[k := cs[k].(start := start, end := end)], counter)
  {
    var moved := cs[k := cs[k].(start := start, end := end)];
    assert forall i :: 0 <= i < |cs| ==> moved[i].id == cs[i].id;
  }

  /** Puts `c` in front of the first element whose start is not smaller, so
      that `c` stays ahead of the elements with the same start. */
  function Insert(c: Clip, cs: seq<Clip>): (r: seq<Clip>)
    requires SortedByStart(cs)
    ensures SortedByStart(r)
    ensures |r| == |cs| + 1 && (r[0] == c || (|cs| > 0 && r[0] == cs[0]))
    ensures multiset(r) == multiset(cs) + multiset{c}
  {
    if cs == [] || c.start <= cs[0].start then [c] + cs
    else
      var rest := Insert(c, cs[1..]);
      assert cs == [cs[0]] + cs[1..];
      assert forall j :: 0 <= j < |rest| ==> cs[0].start <= rest[0].start <= rest[j].start;
      [cs[0]] + rest
  }

  /** The array sort by `a.start - b.start` (timeline.js sorts with a stable
      comparison sort): an insertion sort that keeps equal starts in their
      original order. */
  function SortByStart(s: seq<Clip>): (r: seq<Clip>)
    ensures SortedByStart(r)
    ensures multiset(r) == multiset(s)
    ensures |r| == |s|
  {
    if s == [] then []
    else
      assert s == [s[0]] + s[1..];
      Insert(s[0], SortByStart(s[1..]))
  }

  /** Sorting a list that is already in order changes nothing. */
  lemma {:induction false} SortOfSortedIsIdentity(s: seq<Clip>)
    requires SortedByStart(s)
    ensures SortByStart(s) == s
  {
    if s != [] {
      SortOfSortedIsIdentity(s[1..]);
      assert s == [s[0]] + s[1..];
    }
  }

  lemma {:induction false} InsertMembers(c: Clip, cs: seq<Clip>)
    requires SortedByStart(cs)
    ensures forall x :: x in Insert(c, cs) ==> x == c || x in cs
  {
    if cs != [] && c.start > cs[0].start {
      InsertMembers(c, cs[1..]);
      assert forall x :: x in cs[1..] ==> x in cs;
    }
  }

  lemma {:induction false} SortMembers(s: seq<Clip>)
    ensures forall x :: x in SortByStart(s) ==> x in s
  {
    if s != [] {
      SortMembers(s[1..]);
      InsertMembers(s[0], SortByStart(s[1..]));
      assert forall x :: x in s[1..] ==> x in s;
    }
  }

  /** A clip found in `cs[1..]` has an id other than `cs[0]`'s. */
  lemma TailIdsDiffer(cs: seq<Clip>, counter: nat, x: Clip)
    requires cs != [] && IdsFresh(cs, counter) && x in cs[1..]
    ensures x.id != cs[0].id
  {
    var m :| 0 <= m < |cs[1..]| && cs[1..][m] == x;
    assert cs[m + 1] == x;
  }

  lemma {:induction false} InsertKeepsIdsFresh(c: Clip, cs: seq<Clip>, counter: nat)
    requires SortedByStart(cs) && IdsFresh(cs, counter)
    requires c.id < counter && forall x :: x in cs ==> x.id != c.id
    ensures IdsFresh(Insert(c, cs), counter)
  {
    if cs != [] && c.start > cs[0].start {
      assert forall x :: x in cs[1..] ==> x in cs;
      InsertKeepsIdsFresh(c, cs[1..], counter);
      InsertMembers(c, cs[1..]);
      var rest := Insert(c, cs[1..]);
      forall j | 0 <= j < |rest| ensures rest[j].id != cs[0].id {
        if rest[j] != c {
          TailIdsDiffer(cs, counter, rest[j]);
        }
      }
      assert Insert(c, cs) == [cs[0]] + rest;
    }
  }

  /** Sorting keeps every id and creates no duplicate. */
  lemma {:induction false} SortKeepsIdsFresh(s: seq<Clip>, counter: nat)
    requires IdsFresh(s, counter)
    ensures IdsFresh(SortByStart(s), counter)
  {
    if s != [] {
      SortKeepsIdsFresh(s[1..], counter);
      SortMembers(s[1..]);
      var rest := SortByStart(s[1..]);
      forall x | x in rest ensures x.id != s[0].id {
        TailIdsDiffer(s, counter, x);
      }
      InsertKeepsIdsFresh(s[0], rest, counter);
    }
  }

  /** `clips.findIndex(c => c.id === id)`: the first index holding `id`, or -1. */
  function IndexOfId(cs: seq<Clip>, id: nat): (k: int)
    ensures -1 <= k < |cs|
    ensures k == -1 <==> forall j :: 0 <= j < |cs| ==> cs[j].id != id
    ensures k >= 0 ==> cs[k].id == id && forall j :: 0 <= j < k ==> cs[j].id != id
  {
    if cs == [] then -1
    else if cs[0].id == id then 0
    else
      var k := IndexOfId(cs[1..], id);
      if k == -1 then -1 else k + 1
  }

  /** The cut test of timeline.js:103-105: `time` lies strictly inside the clip. */
  predicate StrictlyInside(c: Clip, time: real) {
    time > c.start && time < c.end
  }

  /** `clips.findIndex(clip => time > clip.start && time < clip.end)`. */
  function IndexOfCut(cs: seq<Clip>, time: real): (k: int)
    ensures -1 <= k < |cs|
    ensures k == -1 <==> forall j :: 0 <= j < |cs| ==> !StrictlyInside(cs[j], time)
    ensures k >= 0 ==> StrictlyInside(cs[k], time) && forall j :: 0 <= j < k ==> !StrictlyInside(cs[j], time)
  {
    if cs == [] then -1
    else if StrictlyInside(cs[0], time) then 0
    else
      var k := IndexOfCut(cs[1..], time);
      if k == -1 then -1 else k + 1
  }

  /** The record `getActiveSegments` maps each clip to. */
  function ToSegment(c: Clip): Segment {
    Segment(c.start, c.end, c.fadeIn, c.fadeOut)
  }

  function ToSegments(cs: seq<Clip>): (r: seq<Segment>)
    ensures |r| == |cs|
  {
    seq(|cs|, i requires 0 <= i < |cs| => ToSegment(cs[i]))
  }
}
