/** The playback-preview queries: whether a time is covered by a clip, and the
    opacity of the picture at a time inside a crossfade window. */
module Preview {
  import opened Clips
  import opened Crossfade

  /** `clips.some(clip => time >= clip.start && time <= clip.end)`. */
  function InAnyClip(cs: seq<Clip>, time: real): (b: bool)
    ensures b <==> exists i :: 0 <= i < |cs| && cs[i].start <= time <= cs[i].end
  {
    if cs == [] then false
    else if cs[0].start <= time <= cs[0].end then true
    else
      var b := InAnyClip(cs[1..], time);
      assert b ==> exists i :: 0 <= i < |cs| && cs[i].start <= time <= cs[i].end by {
        if b {
          var j :| 0 <= j < |cs[1..]| && cs[1..][j].start <= time <= cs[1..][j].end;
          assert cs[j + 1] == cs[1..][j];
        }
      }
      b
  }

  /** A JavaScript number as the opacity code can produce it: a value, or NaN
      when it divides zero by zero. */
  datatype Opacity = Level(value: real) | NaN

  /** The pair (i, i+1) takes part in the opacity scan: both fades are positive. */
  predicate Crossfading(cs: seq<Clip>, i: nat)
    requires i + 1 < |cs|
  {
    cs[i].fadeOut > 0.0 && cs[i + 1].fadeIn > 0.0
  }

  /** `time` lies in the window [next.start, cur.end] of the pair (i, i+1). */
  predicate InWindow(cs: seq<Clip>, i: nat, time: real)
    requires i + 1 < |cs|
  {
    cs[i + 1].start <= time <= cs[i].end
  }

  /** The two-phase ramp of timeline.js:574-590 over the window [s, e]:
      down from 1 to 0 on the first half, up from 0 to 1 from the midpoint on. */
  function Ramp(s: real, e: real, time: real): (o: Opacity)
    requires s <= time <= e
    ensures o.NaN? <==> s == e
    ensures o.Level? ==> 0.0 <= o.value <= 1.0
  {
    var d := e - s;
    var mid := s + d / 2.0;
    if time < mid then
      UnitFraction(time - s, d / 2.0);
      Level(1.0 - (time - s) / (d / 2.0))
    else if d == 0.0 then NaN
    else
      UnitFraction(time - mid, d / 2.0);
      Level((time - mid) / (d / 2.0))
  }

  lemma UnitFraction(x: real, h: real)
    requires 0.0 <= x <= h && h > 0.0
    ensures 0.0 <= x / h <= 1.0
  {
    assert x / h * h == x;
  }

  /** The scan of adjacent pairs from index `i` on: the first crossfading pair
      whose window holds `time` decides, otherwise the opacity is 1. */
  function OpacityFrom(cs: seq<Clip>, time: real, i: nat): Opacity
    decreases |cs| - i
  {
    if i + 1 >= |cs| then Level(1.0)
    else if Crossfading(cs, i) && InWindow(cs, i, time) then Ramp(cs[i + 1].start, cs[i].end, time)
    else OpacityFrom(cs, time, i + 1)
  }

  /** `getOpacityAtTime(time)`. */
  function OpacityAt(cs: seq<Clip>, time: real): Opacity {
    OpacityFrom(cs, time, 0)
  }

  lemma {:induction false} OpacityFromOutside(cs: seq<Clip>, time: real, i: nat)
    requires forall j :: i <= j && j + 1 < |cs| ==> !(Crossfading(cs, j) && InWindow(cs, j, time))
    ensures OpacityFrom(cs, time, i) == Level(1.0)
    decreases |cs| - i
  {
    if i + 1 < |cs| {
      OpacityFromOutside(cs, time, i + 1);
    }
  }

  /** Outside every window of a crossfading pair the picture is fully opaque. */
  lemma OpacityOutsideWindows(cs: seq<Clip>, time: real)
    requires forall j :: 0 <= j && j + 1 < |cs| ==> !(Crossfading(cs, j) && InWindow(cs, j, time))
    ensures OpacityAt(cs, time) == Level(1.0)
  {
    OpacityFromOutside(cs, time, 0);
  }

  lemma {:induction false} OpacityFromFirstWindow(cs: seq<Clip>, time: real, i: nat, k: nat)
    requires i <= k && k + 1 < |cs| && Crossfading(cs, k) && InWindow(cs, k, time)
    requires forall j :: i <= j < k ==> !(Crossfading(cs, j) && InWindow(cs, j, time))
    ensures OpacityFrom(cs, time, i) == Ramp(cs[k + 1].start, cs[k].end, time)
    decreases k - i
  {
    if i < k {
      OpacityFromFirstWindow(cs, time, i + 1, k);
    }
  }

  /** Inside a window, the first crossfading pair (in list order) whose window
      holds `time` gives the ramp value. */
  lemma OpacityInFirstWindow(cs: seq<Clip>, time: real, k: nat)
    requires k + 1 < |cs| && Crossfading(cs, k) && InWindow(cs, k, time)
    requires forall j :: 0 <= j < k ==> !(Crossfading(cs, j) && InWindow(cs, j, time))
    ensures OpacityAt(cs, time) == Ramp(cs[k + 1].start, cs[k].end, time)
  {
    OpacityFromFirstWindow(cs, time, 0, k);
  }

  lemma {:induction false} OpacityFromRange(cs: seq<Clip>, time: real, i: nat)
    ensures OpacityFrom(cs, time, i).Level? ==> 0.0 <= OpacityFrom(cs, time, i).value <= 1.0
    ensures OpacityFrom(cs, time, i).NaN? ==>
      exists j :: i <= j && j + 1 < |cs| && Crossfading(cs, j) && cs[j + 1].start == time == cs[j].end
    decreases |cs| - i
  {
    if i + 1 < |cs| && !(Crossfading(cs, i) && InWindow(cs, i, time)) {
      OpacityFromRange(cs, time, i + 1);
    }
  }

  /** The opacity is a value in [0, 1], unless a crossfading pair has an empty
      window (`cur.end == next.start == time`), where 0/0 gives NaN. */
  lemma OpacityRange(cs: seq<Clip>, time: real)
    ensures OpacityAt(cs, time).Level? ==> 0.0 <= OpacityAt(cs, time).value <= 1.0
    ensures OpacityAt(cs, time).NaN? ==>
      exists j :: 0 <= j && j + 1 < |cs| && Crossfading(cs, j) && cs[j + 1].start == time == cs[j].end
  {
    OpacityFromRange(cs, time, 0);
  }

  /** The ramp is 1 at both ends of a non-empty window and 0 at its midpoint
      (not 0.5: the first half ends at 0 and the second starts there). */
  lemma RampEndpointsAndMidpoint(s: real, e: real)
    requires s < e
    ensures Ramp(s, e, s) == Level(1.0)
    ensures Ramp(s, e, e) == Level(1.0)
    ensures Ramp(s, e, s + (e - s) / 2.0) == Level(0.0)
  {
    var h := (e - s) / 2.0;
    assert 0.0 / h == 0.0;
    assert e - (s + h) == h;
    assert h / h == 1.0;
  }

  /** When the fades match the overlaps (as the resolver leaves them) no
      crossfading window is empty, so the opacity is always a number in [0, 1]. */
  lemma ResolvedOpacityIsLevel(cs: seq<Clip>, time: real)
    requires FadesMatchOverlaps(cs)
    ensures OpacityAt(cs, time).Level?
    ensures 0.0 <= OpacityAt(cs, time).value <= 1.0
  {
    OpacityRange(cs, time);
  }
}
