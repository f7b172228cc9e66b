/** The crossfade resolver: fades are derived from the overlap of each clip
    with its neighbour in list order, and from nothing else. */
module Crossfade {
  import opened Clips

  /** How far `cur` runs past the start of `next`; 0 when they do not overlap. */
  function Overlap(cur: Clip, next: Clip): (d: real)
    ensures d >= 0.0
    ensures d > 0.0 <==> cur.end > next.start
    ensures d > 0.0 ==> next.start + d == cur.end
  {
    if cur.end > next.start then cur.end - next.start else 0.0
  }

  /** The fade-in clip `i` must carry: its overlap with the clip before it. */
  function FadeInAt(cs: seq<Clip>, i: nat): real
    requires i < |cs|
  {
    if i > 0 then Overlap(cs[i - 1], cs[i]) else 0.0
  }

  /** The fade-out clip `i` must carry: its overlap with the clip after it. */
  function FadeOutAt(cs: seq<Clip>, i: nat): real
    requires i < |cs|
  {
    if i + 1 < |cs| then Overlap(cs[i], cs[i + 1]) else 0.0
  }

  /** Every fade equals the overlap with the adjacent clip. */
  predicate FadesMatchOverlaps(cs: seq<Clip>) {
    forall i :: 0 <= i < |cs| ==> cs[i].fadeIn == FadeInAt(cs, i) && cs[i].fadeOut == FadeOutAt(cs, i)
  }

  /** Same clips in the same order, fades aside. */
  predicate SameGeometry(a: seq<Clip>, b: seq<Clip>) {
    |a| == |b| &&
    forall i :: 0 <= i < |a| ==> a[i].id == b[i].id && a[i].start == b[i].start && a[i].end == b[i].end
  }

  /** What `detectAndSetCrossfades` leaves in `clips`: the same clips, in the
      same order, each with the fades its neighbours' overlaps call for. */
  function Resolved(cs: seq<Clip>): (r: seq<Clip>)
    ensures SameGeometry(cs, r)
    ensures FadesMatchOverlaps(r)
  {
    var r := seq(|cs|, i requires 0 <= i < |cs| => cs[i].(fadeIn := FadeInAt(cs, i), fadeOut := FadeOutAt(cs, i)));
    assert forall i :: 0 <= i < |r| ==> FadeInAt(r, i) == FadeInAt(cs, i) && FadeOutAt(r, i) == FadeOutAt(cs, i);
    r
  }

  /** A list with the geometry of `cs` and the fades its overlaps call for
      is `Resolved(cs)`. */
  lemma FadesOfResolved(cs: seq<Clip>, r: seq<Clip>)
    requires SameGeometry(cs, r)
    requires forall i :: 0 <= i < |r| ==> r[i].fadeIn == FadeInAt(cs, i) && r[i].fadeOut == FadeOutAt(cs, i)
    ensures r == Resolved(cs)
  {
    assert forall i :: 0 <= i < |r| ==> r[i] == Resolved(cs)[i];
  }

  /** Where the resolver's pair loop stands before pair (i, i+1): the pairs
      before it are done, clip `i` has its fade-in but not yet its fade-out,
      and every later clip still has the zero fades of the first pass. */
  predicate ResolvedBefore(original: seq<Clip>, cs: seq<Clip>, i: nat) {
    SameGeometry(original, cs) && (i < |cs| || i == 0) &&
    (forall j :: 0 <= j < i ==> cs[j].fadeIn == FadeInAt(original, j) && cs[j].fadeOut == FadeOutAt(original, j)) &&
    (i < |cs| ==> cs[i].fadeIn == FadeInAt(original, i) && cs[i].fadeOut == 0.0) &&
    (forall j :: i < j < |cs| ==> cs[j].fadeIn == 0.0 && cs[j].fadeOut == 0.0)
  }

  /** After the first pass, which zeroes every fade, no pair is done yet. */
  lemma ClearedIsResolvedBefore(original: seq<Clip>, cs: seq<Clip>)
    requires SameGeometry(original, cs)
    requires forall j :: 0 <= j < |cs| ==> cs[j].fadeIn == 0.0 && cs[j].fadeOut == 0.0
    ensures ResolvedBefore(original, cs, 0)
  {
  }

  /** One pass of the pair loop: an overlapping pair gets the overlap as the
      first clip's fade-out and the second clip's fade-in. */
  function ResolvePair(cs: seq<Clip>, i: nat): (r: seq<Clip>)
    requires i + 1 < |cs|
  {
    if cs[i].end > cs[i + 1].start then
      var d := cs[i].end - cs[i + 1].start;
      cs[i := cs[i].(fadeOut := d)][i + 1 := cs[i + 1].(fadeIn := d)]
    else cs
  }

  /** Resolving pair `i` moves the loop one pair on. */
  lemma ResolvePairStep(original: seq<Clip>, cs: seq<Clip>, i: nat)
    requires i + 1 < |cs| && ResolvedBefore(original, cs, i)
    ensures ResolvedBefore(original, ResolvePair(cs, i), i + 1)
  {
    var r := ResolvePair(cs, i);
    assert Overlap(original[i], original[i + 1]) == Overlap(cs[i], cs[i + 1]);
    assert r[i].fadeOut == FadeOutAt(original, i);
    assert r[i + 1].fadeIn == FadeInAt(original, i + 1);
  }

  /** Once every pair is done the list is the resolved one. */
  lemma ResolvedAfterLastPair(original: seq<Clip>, cs: seq<Clip>, i: nat)
    requires ResolvedBefore(original, cs, i) && i + 1 >= |cs|
    ensures cs == Resolved(original)
  {
    FadesOfResolved(original, cs);
  }

  /** Fades are a function of the geometry alone: two lists with the same
      clips whose fades both match their overlaps are equal. */
  lemma FadesDetermineList(a: seq<Clip>, b: seq<Clip>)
    requires SameGeometry(a, b)
    requires FadesMatchOverlaps(a) && FadesMatchOverlaps(b)
    ensures a == b
  {
    assert forall i :: 0 <= i < |a| ==> FadeInAt(a, i) == FadeInAt(b, i) && FadeOutAt(a, i) == FadeOutAt(b, i);
    assert forall i :: 0 <= i < |a| ==> a[i] == b[i];
  }

  /** A list whose fades already match is left as it is. */
  lemma ResolvedFixpoint(cs: seq<Clip>)
    requires FadesMatchOverlaps(cs)
    ensures Resolved(cs) == cs
  {
    FadesDetermineList(cs, Resolved(cs));
  }

  /** Resolving twice is resolving once. */
  lemma ResolvedIdempotent(cs: seq<Clip>)
    ensures Resolved(Resolved(cs)) == Resolved(cs)
  {
    ResolvedFixpoint(Resolved(cs));
  }

  /** Resolving changes no id, so id freshness survives it. */
  lemma ResolvedKeepsIdsFresh(cs: seq<Clip>, counter: nat)
    requires IdsFresh(cs, counter)
    ensures IdsFresh(Resolved(cs), counter)
  {
    var r := Resolved(cs);
    assert forall i :: 0 <= i < |r| ==> r[i].id == cs[i].id;
  }

  /** In a list sorted by start, the fade-out of a clip never exceeds its length,
      and both fades are non-negative. */
  lemma FadeOutWithinClip(cs: seq<Clip>, i: nat)
    requires SortedByStart(cs) && FadesMatchOverlaps(cs)
    requires i < |cs| && cs[i].start <= cs[i].end
    ensures 0.0 <= cs[i].fadeIn && 0.0 <= cs[i].fadeOut
    ensures cs[i].fadeOut <= Length(cs[i])
  {
    if i + 1 < |cs| {
      assert cs[i].start <= cs[i + 1].start;
    }
  }

  /** Overlap is the sole trigger: a clip has a fade-out exactly when it runs
      past the start of the next clip, and the next clip then fades in by the
      same amount. */
  lemma FadeOnlyOnOverlap(cs: seq<Clip>, i: nat)
    requires FadesMatchOverlaps(cs)
    requires i + 1 < |cs|
    ensures cs[i].fadeOut > 0.0 <==> cs[i].end > cs[i + 1].start
    ensures cs[i].fadeOut == cs[i + 1].fadeIn
  {
  }
}
