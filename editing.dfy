/** The arithmetic of the edit operations of timeline.js: splitting a clip,
    closing the gap a deleted clip leaves, moving the playhead after a delete,
    clamping a drag, snapping, and clamping a resize. */
module Editing {
  import opened Clips
  import opened Crossfade

  // ---------------------------------------------------------------- cut

  /** The two clips that replace `c` when it is cut at `time`: the first keeps
      the fade-in, the second the fade-out, and the inner fades are 0. */
  function CutPieces(c: Clip, time: real, firstId: nat): seq<Clip> {
    [Clip(firstId, c.start, time, c.fadeIn, 0.0), Clip(firstId + 1, time, c.end, 0.0, c.fadeOut)]
  }

  /** The clip list after `cutAtTime(time)` finds clip `k`: the two pieces are
      spliced in its place and the list is sorted by start again. */
  function CutClips(cs: seq<Clip>, k: nat, time: real, firstId: nat): seq<Clip>
    requires k < |cs|
  {
    SortByStart(cs[..k] + CutPieces(cs[k], time, firstId) + cs[k + 1..])
  }

  /** A successful cut: one more clip, sorted by start, and exactly the old
      clips with clip `k` replaced by [start, time] and [time, end]. */
  lemma CutResult(cs: seq<Clip>, k: nat, time: real, firstId: nat)
    requires k < |cs| && StrictlyInside(cs[k], time)
    ensures |CutClips(cs, k, time, firstId)| == |cs| + 1
    ensures SortedByStart(CutClips(cs, k, time, firstId))
    ensures multiset(CutClips(cs, k, time, firstId)) ==
      multiset(cs) - multiset{cs[k]} + multiset{Clip(firstId, cs[k].start, time, cs[k].fadeIn, 0.0), Clip(firstId + 1, time, cs[k].end, 0.0, cs[k].fadeOut)}
    ensures Length(CutPieces(cs[k], time, firstId)[0]) > 0.0 && Length(CutPieces(cs[k], time, firstId)[1]) > 0.0
    ensures Length(CutPieces(cs[k], time, firstId)[0]) + Length(CutPieces(cs[k], time, firstId)[1]) == Length(cs[k])
  {
    assert cs == cs[..k] + [cs[k]] + cs[k + 1..];
    assert multiset(cs) == multiset(cs[..k]) + multiset{cs[k]} + multiset(cs[k + 1..]);
  }

  /** The two new ids are the counter and its successor; with ids below the
      counter before the cut, ids stay distinct and below the advanced counter. */
  lemma CutKeepsIdsFresh(cs: seq<Clip>, k: nat, time: real, counter: nat)
    requires k < |cs| && IdsFresh(cs, counter)
    ensures IdsFresh(CutClips(cs, k, time, counter), counter + 2)
  {
    SplicedIdsFresh(cs, k, time, counter);
    SortKeepsIdsFresh(cs[..k] + CutPieces(cs[k], time, counter) + cs[k + 1..], counter + 2);
  }

  /** The splice before the sort already has fresh, distinct ids. */
  lemma SplicedIdsFresh(cs: seq<Clip>, k: nat, time: real, counter: nat)
    requires k < |cs| && IdsFresh(cs, counter)
    ensures IdsFresh(cs[..k] + CutPieces(cs[k], time, counter) + cs[k + 1..], counter + 2)
  {
    var spliced := cs[..k] + CutPieces(cs[k], time, counter) + cs[k + 1..];
    assert forall i :: 0 <= i < |spliced| ==>
      spliced[i].id == if i < k then cs[i].id else if i == k then counter else if i == k + 1 then counter + 1 else cs[i - 1].id;
  }

  lemma SortOfPair(a: Clip, b: Clip)
    requires b.start < a.start
    ensures SortByStart([a, b]) == [b, a]
  {
    assert [a, b][1..] == [b] && [b][1..] == [];
    assert SortByStart([b]) == [b];
    assert Insert(a, [b]) == [b] + Insert(a, []);
  }

  /** The sort in the counterexample below moves the clip that started
      inside the cut clip between the two pieces. */
  lemma SortOfCutPieces(p0: Clip, p1: Clip, q: Clip)
    requires p0.start < q.start < p1.start
    ensures SortByStart([p0, p1, q]) == [p0, q, p1]
  {
    SortOfPair(p1, q);
    assert [p0, p1, q][1..] == [p1, q];
    assert Insert(p0, [q, p1]) == [p0, q, p1];
  }

  /** Two clips whose fades are their overlap are resolved. */
  lemma PairFadesMatch(a: Clip, b: Clip)
    requires a.fadeIn == 0.0 && b.fadeOut == 0.0 && a.fadeOut == b.fadeIn == Overlap(a, b)
    ensures FadesMatchOverlaps([a, b])
  {
    var cs := [a, b];
    assert FadeInAt(cs, 0) == 0.0 && FadeOutAt(cs, 1) == 0.0;
    assert FadeOutAt(cs, 0) == FadeInAt(cs, 1) == Overlap(a, b);
  }

  /** The cut does not re-run the resolver: cutting [0,10] (which overlaps
      [5,15] by 5) at 7 sorts [5,15] between the two pieces, and the first
      piece keeps a fade-out of 0 although it now overlaps [5,15] by 2. */
  lemma CutLeavesStaleFades()
    ensures var cs := [Clip(0, 0.0, 10.0, 0.0, 5.0), Clip(1, 5.0, 15.0, 5.0, 0.0)];
            var after := CutClips(cs, 0, 7.0, 2);
            FadesMatchOverlaps(cs) &&
            after == [Clip(2, 0.0, 7.0, 0.0, 0.0), Clip(1, 5.0, 15.0, 5.0, 0.0), Clip(3, 7.0, 10.0, 0.0, 5.0)] &&
            !FadesMatchOverlaps(after)
  {
    var cs := [Clip(0, 0.0, 10.0, 0.0, 5.0), Clip(1, 5.0, 15.0, 5.0, 0.0)];
    PairFadesMatch(cs[0], cs[1]);
    var p0, p1, q := Clip(2, 0.0, 7.0, 0.0, 0.0), Clip(3, 7.0, 10.0, 0.0, 5.0), Clip(1, 5.0, 15.0, 5.0, 0.0);
    assert cs[..0] + CutPieces(cs[0], 7.0, 2) + cs[1..] == [p0, p1, q];
    SortOfCutPieces(p0, p1, q);
    var after := CutClips(cs, 0, 7.0, 2);
    assert after[0].fadeOut != FadeOutAt(after, 0);
  }

  // ---------------------------------------------------------------- delete

  function ShiftLeft(c: Clip, d: real): Clip {
    c.(start := c.start - d, end := c.end - d)
  }

  /** The clip list after deleting clip `k`: the clips before it stay, every
      later clip moves left by the deleted clip's length. */
  function ClosedGap(cs: seq<Clip>, k: nat): (r: seq<Clip>)
    requires k < |cs|
    ensures |r| == |cs| - 1
    ensures forall i :: 0 <= i < k ==> r[i] == cs[i]
    ensures forall i :: k <= i < |r| ==> r[i] == ShiftLeft(cs[i + 1], Length(cs[k]))
  {
    var later := seq(|cs| - k - 1, j requires 0 <= j < |cs| - k - 1 => ShiftLeft(cs[k + 1 + j], Length(cs[k])));
    var r := cs[..k] + later;
    assert forall i :: k <= i < |r| ==> r[i] == later[i - k];
    r
  }

  /** The ids after a delete are the old ones less the deleted clip's, so
      freshness is kept with the same counter. */
  lemma ClosedGapKeepsIdsFresh(cs: seq<Clip>, k: nat, counter: nat)
    requires k < |cs| && IdsFresh(cs, counter)
    ensures IdsFresh(ClosedGap(cs, k), counter)
    ensures forall i :: 0 <= i < |cs| - 1 ==> ClosedGap(cs, k)[i].id != cs[k].id
  {
    var r := ClosedGap(cs, k);
    assert forall i :: 0 <= i < |r| ==> r[i].id == (if i < k then cs[i].id else cs[i + 1].id);
  }

  /** The clips tile time without gap or overlap. */
  predicate Abutting(cs: seq<Clip>) {
    forall i :: 0 <= i < |cs| - 1 ==> cs[i].end == cs[i + 1].start
  }

  /** Delete closes the gap: a tiling timeline stays a tiling after a delete. */
  lemma DeleteClosesGap(cs: seq<Clip>, k: nat)
    requires k < |cs| && Abutting(cs)
    ensures Abutting(ClosedGap(cs, k))
  {
    var r := ClosedGap(cs, k);
    forall i | 0 <= i < |r| - 1 ensures r[i].end == r[i + 1].start {
      if i + 1 == k {
        assert r[i] == cs[i] && cs[i].end == cs[k].start && cs[k].end == cs[k + 1].start;
      }
    }
  }

  /** Sortedness survives a delete when the deleted clip does not overlap the
      clip after it. */
  lemma DeleteKeepsSortedWithoutOverlap(cs: seq<Clip>, k: nat)
    requires k < |cs| && SortedByStart(cs)
    requires k + 1 < |cs| ==> cs[k].end <= cs[k + 1].start
    ensures SortedByStart(ClosedGap(cs, k))
  {
    var r := ClosedGap(cs, k);
    var d := Length(cs[k]);
    forall i, j | 0 <= i < j < |r| ensures r[i].start <= r[j].start {
      if i < k && k <= j {
        assert cs[i].start <= cs[k].start;
        assert cs[k + 1].start <= cs[j + 1].start;
      }
    }
  }

  /** ... but not otherwise: deleting [10,50] from [5,15], [10,50], [20,60]
      moves the last clip to [-20,20], before its predecessor and below 0. */
  lemma DeleteOverlappingCanUnsort()
    ensures var cs := [Clip(0, 5.0, 15.0, 0.0, 0.0), Clip(1, 10.0, 50.0, 0.0, 0.0), Clip(2, 20.0, 60.0, 0.0, 0.0)];
            SortedByStart(cs) &&
            ClosedGap(cs, 1) == [Clip(0, 5.0, 15.0, 0.0, 0.0), Clip(2, -20.0, 20.0, 0.0, 0.0)] &&
            !SortedByStart(ClosedGap(cs, 1))
  {
    var cs := [Clip(0, 5.0, 15.0, 0.0, 0.0), Clip(1, 10.0, 50.0, 0.0, 0.0), Clip(2, 20.0, 60.0, 0.0, 0.0)];
    var r := ClosedGap(cs, 1);
    assert r[1] == Clip(2, -20.0, 20.0, 0.0, 0.0);
    assert r[0].start > r[1].start;
  }

  /** An illustration of ClosedGap and DeleteClosesGap on one input: a 100 s
      video cut into [0,40], [40,70], [70,100]; deleting the middle clip
      leaves [0,40], [40,70]. */
  lemma DeleteMiddleExample()
    ensures ClosedGap([Clip(0, 0.0, 40.0, 0.0, 0.0), Clip(1, 40.0, 70.0, 0.0, 0.0), Clip(2, 70.0, 100.0, 0.0, 0.0)], 1)
         == [Clip(0, 0.0, 40.0, 0.0, 0.0), Clip(2, 40.0, 70.0, 0.0, 0.0)]
  {
    var cs := [Clip(0, 0.0, 40.0, 0.0, 0.0), Clip(1, 40.0, 70.0, 0.0, 0.0), Clip(2, 70.0, 100.0, 0.0, 0.0)];
    assert ClosedGap(cs, 1)[1] == Clip(2, 40.0, 70.0, 0.0, 0.0);
  }

  /** The playhead after deleting `deleted`: a playhead past the deleted clip
      moves left with the clips after it, one inside it goes to its start, and
      one at or before its start stays. */
  function PlayheadAfterDelete(playhead: real, deleted: Clip): (p: real)
    ensures playhead <= deleted.start ==> p == playhead
    ensures deleted.start < playhead ==> deleted.start <= p
    ensures deleted.start < playhead <= deleted.end ==> p == deleted.start
    ensures deleted.start < playhead && deleted.end <= playhead ==> p == playhead - Length(deleted)
    ensures deleted.start <= deleted.end ==> p <= playhead
  {
    if playhead > deleted.start then
      var moved := playhead - Length(deleted);
      if deleted.start >= moved then deleted.start else moved
    else playhead
  }

  // ---------------------------------------------------------------- drag

  /** The drag position before snapping (timeline.js:356-368): the original
      range moved by `delta`, pushed back inside [0, duration] as a whole. */
  function ClampMove(origStart: real, origEnd: real, delta: real, duration: real): (r: (real, real))
    ensures r.1 - r.0 == origEnd - origStart
    ensures 0.0 <= origEnd - origStart <= duration ==> 0.0 <= r.0 && r.1 <= duration
    ensures 0.0 <= origStart + delta && origEnd + delta <= duration ==> r == (origStart + delta, origEnd + delta)
    ensures origStart + delta < 0.0 && origEnd - origStart <= duration ==> r == (0.0, origEnd - origStart)
    ensures origEnd + delta > duration ==> r == (duration - (origEnd - origStart), duration)
  {
    var length := origEnd - origStart;
    var (s, e) := if origStart + delta < 0.0 then (0.0, length) else (origStart + delta, origEnd + delta);
    if e > duration then (duration - length, duration) else (s, e)
  }

  // ---------------------------------------------------------------- snapping

  const SnapThreshold: real := 0.2

  function Abs(x: real): real {
    if x < 0.0 then -x else x
  }

  /** Starts and ends of the clips other than `id`, in list order: exactly
      the edges of every other clip. */
  function OtherEdges(cs: seq<Clip>, id: nat): (ps: seq<real>)
    ensures forall p :: p in ps ==> exists c :: c in cs && c.id != id && (p == c.start || p == c.end)
    ensures forall c :: c in cs && c.id != id ==> c.start in ps && c.end in ps
  {
    if cs == [] then []
    else
      var last := cs[|cs| - 1];
      var rest := OtherEdges(cs[..|cs| - 1], id);
      assert forall c :: c in cs[..|cs| - 1] ==> c in cs;
      assert forall c :: c in cs ==> c in cs[..|cs| - 1] || c == last;
      rest + (if last.id != id then [last.start, last.end] else [])
  }

  /** Collecting one more clip appends its edges when it is not the dragged one. */
  lemma OtherEdgesStep(cs: seq<Clip>, i: nat, id: nat)
    requires i < |cs|
    ensures OtherEdges(cs[..i + 1], id) ==
      OtherEdges(cs[..i], id) + (if cs[i].id != id then [cs[i].start, cs[i].end] else [])
  {
    assert cs[..i + 1][..i] == cs[..i];
  }

  /** The snap targets of `applySnapping`: the other clips' edges, then the
      playhead, then 0 and the video's duration. */
  function SnapPoints(cs: seq<Clip>, id: nat, playhead: real, duration: real): seq<real> {
    OtherEdges(cs, id) + [playhead, 0.0, duration]
  }

  /** The index of the first point closer than the threshold to `x`, or -1. */
  function IndexWithin(points: seq<real>, x: real): (k: int)
    ensures -1 <= k < |points|
    ensures k == -1 <==> forall i :: 0 <= i < |points| ==> Abs(x - points[i]) >= SnapThreshold
    ensures k >= 0 ==> Abs(x - points[k]) < SnapThreshold && forall i :: 0 <= i < k ==> Abs(x - points[i]) >= SnapThreshold
  {
    if points == [] then -1
    else if Abs(x - points[0]) < SnapThreshold then 0
    else
      var k := IndexWithin(points[1..], x);
      assert forall i :: 0 < i < |points| ==> points[i] == points[1..][i - 1];
      if k == -1 then -1 else k + 1
  }

  /** `snapPoints.find(...)`: the first point closer than the threshold to `x`. */
  function FirstWithin(points: seq<real>, x: real): (r: Option<real>)
    ensures r.None? <==> forall i :: 0 <= i < |points| ==> Abs(x - points[i]) >= SnapThreshold
    ensures r.Some? ==>
      exists k :: 0 <= k < |points| && points[k] == r.value && Abs(x - r.value) < SnapThreshold &&
                  forall i :: 0 <= i < k ==> Abs(x - points[i]) >= SnapThreshold
  {
    var k := IndexWithin(points, x);
    if k == -1 then None else Some(points[k])
  }

  /** One of the two `for (const point of snapPoints)` scans of
      `applySnapping`: the index of the first point in reach of `x`, or -1. */
  method ScanForSnap(points: seq<real>, x: real) returns (k: int)
    ensures k == IndexWithin(points, x)
  {
    k := -1;
    var i := 0;
    while i < |points|
      invariant 0 <= i <= |points|
      invariant forall j :: 0 <= j < i ==> Abs(x - points[j]) >= SnapThreshold
    {
      if Abs(x - points[i]) < SnapThreshold {
        k := i;
        return;
      }
      i := i + 1;
    }
  }

  /** `applySnapping(newStart, newEnd, clipId)`: the start snaps to the first
      point within the threshold; only if the start is left where it was does
      the end get its turn.  The length of the range never changes, each edge
      moves by less than the threshold, and a range with no point in reach
      comes back unchanged. */
  function SnapRange(points: seq<real>, newStart: real, newEnd: real): (r: (real, real))
    ensures r.1 - r.0 == newEnd - newStart
    ensures Abs(r.0 - newStart) < SnapThreshold
    ensures r == (newStart, newEnd) || (r.0 in points && r.0 != newStart) || (r.1 in points && r.1 != newEnd)
    ensures FirstWithin(points, newStart).None? && FirstWithin(points, newEnd).None? ==> r == (newStart, newEnd)
  {
    var length := newEnd - newStart;
    var (s, e) := match FirstWithin(points, newStart)
      case Some(p) => (p, p + length)
      case None => (newStart, newEnd);
    if s == newStart then
      match FirstWithin(points, newEnd)
      case Some(q) => (q - length, q)
      case None => (s, e)
    else (s, e)
  }

  /** The second half of `applySnapping`: the start scan, then the end scan
      when the start scan left the start where it was. */
  method SnapToPoints(snapPoints: seq<real>, newStart: real, newEnd: real) returns (snappedStart: real, snappedEnd: real)
    ensures (snappedStart, snappedEnd) == SnapRange(snapPoints, newStart, newEnd)
  {
    var clipDuration := newEnd - newStart;
    snappedStart, snappedEnd := newStart, newEnd;
    var k := ScanForSnap(snapPoints, newStart);
    if k != -1 {
      snappedStart := snapPoints[k];
      snappedEnd := snapPoints[k] + clipDuration;
    }
    if snappedStart == newStart {
      k := ScanForSnap(snapPoints, newEnd);
      if k != -1 {
        snappedEnd := snapPoints[k];
        snappedStart := snapPoints[k] - clipDuration;
      }
    }
  }

  /** The start takes priority: when some point is in reach of the start and
      the first such point differs from it, the start lands exactly on it. */
  lemma StartSnapWins(points: seq<real>, newStart: real, newEnd: real)
    requires FirstWithin(points, newStart).Some? && FirstWithin(points, newStart).value != newStart
    ensures SnapRange(points, newStart, newEnd).0 == FirstWithin(points, newStart).value
    ensures SnapRange(points, newStart, newEnd).1 == FirstWithin(points, newStart).value + (newEnd - newStart)
  {
  }

  /** The end snaps only when the start stays where it is, and then lands
      exactly on the first point in its reach. */
  lemma EndSnapWhenStartStays(points: seq<real>, newStart: real, newEnd: real)
    requires FirstWithin(points, newStart).None? || FirstWithin(points, newStart).value == newStart
    requires FirstWithin(points, newEnd).Some?
    ensures SnapRange(points, newStart, newEnd).1 == FirstWithin(points, newEnd).value
  {
  }

  // ---------------------------------------------------------------- resize

  const MinClipLength: real := 0.1

  /** Left-edge resize (timeline.js:444-449): the new start is kept at or above
      0 and at least 0.1 s before the original end. */
  function ResizedStart(origStart: real, origEnd: real, delta: real): (s: real)
    ensures 0.0 <= s
    ensures origEnd >= MinClipLength ==> s <= origEnd - MinClipLength
    ensures 0.0 <= origStart + delta <= origEnd - MinClipLength ==> s == origStart + delta
    ensures origStart + delta < 0.0 ==> s == 0.0
    ensures origStart + delta > origEnd - MinClipLength >= 0.0 ==> s == origEnd - MinClipLength
  {
    var wanted := origStart + delta;
    var capped := if wanted < origEnd - MinClipLength then wanted else origEnd - MinClipLength;
    if 0.0 > capped then 0.0 else capped
  }

  /** Right-edge resize (timeline.js:452-457): the new end is kept at or below
      the duration and at least 0.1 s after the original start. */
  function ResizedEnd(origStart: real, origEnd: real, delta: real, duration: real): (e: real)
    ensures e <= duration
    ensures origStart + MinClipLength <= duration ==> origStart + MinClipLength <= e
    ensures origStart + MinClipLength <= origEnd + delta <= duration ==> e == origEnd + delta
    ensures origEnd + delta > duration ==> e == duration
    ensures origEnd + delta < origStart + MinClipLength <= duration ==> e == origStart + MinClipLength
  {
    var wanted := origEnd + delta;
    var floored := if wanted > origStart + MinClipLength then wanted else origStart + MinClipLength;
    if duration < floored then duration else floored
  }
}
