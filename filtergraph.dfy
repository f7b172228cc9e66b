/** The FFmpeg filter graphs app.js builds from the exported segments: a plain
    trim-and-concat graph, and a graph that chains the segments through
    `xfade`/`acrossfade` where adjacent segments fade into each other.
    `Number.prototype.toFixed(3)` is the parameter `fmt`. */
module FilterGraph {
  import opened Clips
  import opened Crossfade

  // ------------------------------------------------------------ integers as text

  predicate IsDigit(c: char) {
    '0' <= c <= '9'
  }

  predicate AllDigits(s: string) {
    forall i :: 0 <= i < |s| ==> IsDigit(s[i])
  }

  function Digit(d: nat): (c: char)
    requires d < 10
    ensures IsDigit(c) && c as int - '0' as int == d
  {
    ('0' as int + d) as char
  }

  /** A natural number in decimal, as a template literal prints an index. */
  function NatStr(n: nat): (s: string)
    ensures |s| >= 1 && AllDigits(s)
    ensures |s| > 1 ==> s[0] != '0'
  {
    if n < 10 then [Digit(n)] else NatStr(n / 10) + [Digit(n % 10)]
  }

  /** The value of a string of decimal digits. */
  function ParseNat(s: string): nat
    requires AllDigits(s)
  {
    if s == [] then 0 else ParseNat(s[..|s| - 1]) * 10 + (s[|s| - 1] as int - '0' as int)
  }

  lemma {:induction false} NatStrRoundTrip(n: nat)
    ensures ParseNat(NatStr(n)) == n
  {
    if n >= 10 {
      var s := NatStr(n);
      assert s[..|s| - 1] == NatStr(n / 10);
      NatStrRoundTrip(n / 10);
    }
  }

  /** Different indices print differently. */
  lemma NatStrInjective(a: nat, b: nat)
    ensures NatStr(a) == NatStr(b) ==> a == b
  {
    NatStrRoundTrip(a);
    NatStrRoundTrip(b);
  }

  // ------------------------------------------------------------ stream labels

  /** A pad label such as `[v3]` or `[ax2]`. */
  function Label(stream: string, i: nat): string {
    "[" + stream + NatStr(i) + "]"
  }

  /** The stream names used in the graphs; none of them holds a digit. */
  predicate StreamName(s: string) {
    |s| >= 1 && forall i :: 0 <= i < |s| ==> !IsDigit(s[i])
  }

  /** A label names one index of one stream. */
  lemma LabelInjective(stream: string, i: nat, j: nat)
    ensures Label(stream, i) == Label(stream, j) ==> i == j
  {
    if Label(stream, i) == Label(stream, j) {
      var li, lj := Label(stream, i), Label(stream, j);
      assert NatStr(i) == li[1 + |stream|..|li| - 1];
      assert NatStr(j) == lj[1 + |stream|..|lj| - 1];
      NatStrInjective(i, j);
    }
  }

  /** Labels of different streams never clash (`[v1]`, `[vx1]`, `[a1]`, `[ax1]`). */
  lemma LabelsOfStreamsDiffer(p: string, q: string, i: nat, j: nat)
    requires StreamName(p) && StreamName(q) && p != q
    ensures Label(p, i) != Label(q, j)
  {
    var lp, lq := Label(p, i), Label(q, j);
    if |p| == |q| {
      var k :| 0 <= k < |p| && p[k] != q[k];
      assert lp[1 + k] == p[k] && lq[1 + k] == q[k];
    } else if |p| < |q| {
      assert lp[1 + |p|] == NatStr(i)[0];
      assert lq[1 + |p|] == q[|p|];
    } else {
      assert lq[1 + |q|] == NatStr(j)[0];
      assert lp[1 + |q|] == p[|q|];
    }
  }

  /** The label that carries the chain after step `i`: `[v0]` before any
      step, `[vxi]` after step i. */
  function ChainLabel(stream: string, i: nat): string {
    if i == 0 then Label(stream, 0) else Label(stream + "x", i)
  }

  /** The chain labels of one stream are pairwise distinct, so no step
      overwrites an earlier one. */
  lemma ChainLabelsDistinct(stream: string, i: nat, j: nat)
    requires StreamName(stream)
    ensures ChainLabel(stream, i) == ChainLabel(stream, j) ==> i == j
  {
    if i == 0 && j != 0 {
      assert StreamName(stream + "x");
      LabelsOfStreamsDiffer(stream, stream + "x", 0, j);
    } else if i != 0 && j == 0 {
      assert StreamName(stream + "x");
      LabelsOfStreamsDiffer(stream + "x", stream, i, 0);
    } else {
      LabelInjective(stream, i, j);
      LabelInjective(stream + "x", i, j);
    }
  }

  // ------------------------------------------------------------ joining parts

  /** `Array.prototype.join(sep)`. */
  function Join(parts: seq<string>, sep: string): string {
    if |parts| == 0 then ""
    else if |parts| == 1 then parts[0]
    else Join(parts[..|parts| - 1], sep) + sep + parts[|parts| - 1]
  }

  // ------------------------------------------------------------ trimming

  /** The trim chains for segment `i`: video into `[vi]`, audio into `[ai]`,
      both starting at the segment's start and lasting its length. */
  function TrimPart(seg: Segment, i: nat, fmt: real -> string): string {
    TrimChain("[0:v]trim", ",setpts", seg, fmt) + Label("v", i) + ";" +
    TrimChain("[0:a]atrim", ",asetpts", seg, fmt) + Label("a", i)
  }

  /** One trim filter and its timestamp reset, before the output label. */
  function TrimChain(trim: string, setpts: string, seg: Segment, fmt: real -> string): string {
    trim + "=start=" + fmt(seg.start) + ":duration=" + fmt(seg.end - seg.start) + setpts + "=PTS-STARTPTS"
  }

  function TrimParts(segs: seq<Segment>, fmt: real -> string): seq<string> {
    seq(|segs|, i requires 0 <= i < |segs| => TrimPart(segs[i], i, fmt))
  }

  /** The `forEach` both builders open with: one trim part per segment. */
  method TrimAll(segments: seq<Segment>, fmt: real -> string) returns (filterParts: seq<string>)
    ensures filterParts == TrimParts(segments, fmt)
  {
    filterParts := [];
    for index := 0 to |segments|
      invariant filterParts == TrimParts(segments[..index], fmt)
    {
      filterParts := filterParts + [TrimPart(segments[index], index, fmt)];
    }
    assert segments[..|segments|] == segments;
  }

  // ------------------------------------------------------------ simple graph

  /** `[s0][s1]...[s(n-1)]`: the labels of one stream in index order. */
  function Inputs(stream: string, n: nat): string {
    if n == 0 then "" else Inputs(stream, n - 1) + Label(stream, n - 1)
  }

  /** Every trimmed stream feeds the concat filter, in index order: the input
      list is the labels before `i`, then label `i`, then the rest. */
  lemma {:induction false} InputsHoldEveryLabel(stream: string, n: nat, i: nat)
    requires i < n
    ensures exists rest :: Inputs(stream, n) == Inputs(stream, i) + Label(stream, i) + rest
    decreases n
  {
    if i == n - 1 {
      assert Inputs(stream, n) == Inputs(stream, i) + Label(stream, i) + "";
    } else {
      InputsHoldEveryLabel(stream, n - 1, i);
      var rest :| Inputs(stream, n - 1) == Inputs(stream, i) + Label(stream, i) + rest;
      assert Inputs(stream, n) == Inputs(stream, i) + Label(stream, i) + (rest + Label(stream, n - 1));
    }
  }

  function ConcatPart(n: nat): string {
    Inputs("v", n) + "concat=n=" + NatStr(n) + ":v=1:a=0[outv];" +
    Inputs("a", n) + "concat=n=" + NatStr(n) + ":v=0:a=1[outa]"
  }

  /** The parts of the simple graph: one trim part per segment, then the
      concat of all of them. */
  function SimpleParts(segs: seq<Segment>, fmt: real -> string): seq<string> {
    TrimParts(segs, fmt) + [ConcatPart(|segs|)]
  }

  /** `createSimpleFilterString(segments)`. */
  method CreateSimpleFilterString(segments: seq<Segment>, fmt: real -> string) returns (s: string)
    ensures s == Join(SimpleParts(segments, fmt), "")
  {
    var filterParts := TrimAll(segments, fmt);
    var vInputs := Inputs("v", |segments|);
    var aInputs := Inputs("a", |segments|);
    filterParts := filterParts + [
      vInputs + "concat=n=" + NatStr(|segments|) + ":v=1:a=0[outv];" +
      aInputs + "concat=n=" + NatStr(|segments|) + ":v=0:a=1[outa]"];
    s := Join(filterParts, "");
  }

  /** Each trim part writes the audio label of its segment last. */
  lemma TrimPartWritesAudioLabel(seg: Segment, i: nat, fmt: real -> string)
    ensures EndsWith(TrimPart(seg, i, fmt), Label("a", i))
  {
    EndsWithOwnSuffix(TrimChain("[0:v]trim", ",setpts", seg, fmt) + Label("v", i) + ";" +
      TrimChain("[0:a]atrim", ",asetpts", seg, fmt), Label("a", i));
  }

  /** The concat part reads every video label in order into a concat told
      the number of inputs. */
  lemma ConcatPartOpens(n: nat)
    ensures StartsWith(ConcatPart(n), Inputs("v", n) + "concat=n=" + NatStr(n))
  {
    PrefixOfJoined(Inputs("v", n), "concat=n=", NatStr(n),
      ":v=1:a=0[outv];", Inputs("a", n), "concat=n=", NatStr(n), ":v=0:a=1[outa]");
  }

  /** The first three pieces of a concatenation are a prefix of it. */
  lemma PrefixOfJoined(a: string, b: string, c: string, d: string, e: string, f: string, g: string, h: string)
    ensures StartsWith(a + b + c + d + e + f + g + h, a + b + c)
  {
    var x := a + b + c;
    assert a + b + c + d + e + f + g + h == x + (d + e + f + g + h);
    assert (x + (d + e + f + g + h))[..|x|] == x;
  }

  /** The concat part names the audio result `[outa]` last. */
  lemma ConcatPartCloses(n: nat)
    ensures EndsWith(ConcatPart(n), "[outa]")
  {
    var body := Inputs("v", n) + "concat=n=" + NatStr(n) + ":v=1:a=0[outv];" +
      Inputs("a", n) + "concat=n=" + NatStr(n) + ":v=0:a=1";
    assert ":v=0:a=1[outa]" == ":v=0:a=1" + "[outa]";
    assert ConcatPart(n) == body + "[outa]";
    EndsWithOwnSuffix(body, "[outa]");
  }

  /** The simple graph: part `i` trims segment `i` into `[vi]` and `[ai]`,
      and the one part after them feeds all `n` video labels, in index
      order, to a concat told `n=` the number of segments, ending in `[outa]`. */
  lemma SimpleGraphShape(segs: seq<Segment>, fmt: real -> string)
    ensures |SimpleParts(segs, fmt)| == |segs| + 1
    ensures forall i :: 0 <= i < |segs| ==> EndsWith(SimpleParts(segs, fmt)[i], Label("a", i))
    ensures StartsWith(SimpleParts(segs, fmt)[|segs|], Inputs("v", |segs|) + "concat=n=" + NatStr(|segs|))
    ensures EndsWith(SimpleParts(segs, fmt)[|segs|], "[outa]")
  {
    var parts := SimpleParts(segs, fmt);
    forall i | 0 <= i < |segs|
      ensures EndsWith(parts[i], Label("a", i))
    {
      assert parts[i] == TrimPart(segs[i], i, fmt);
      TrimPartWritesAudioLabel(segs[i], i, fmt);
    }
    ConcatPartOpens(|segs|);
    ConcatPartCloses(|segs|);
  }

  // ------------------------------------------------------------ crossfade graph

  /** The transition between two segments: the smaller of the previous
      segment's fade-out and this segment's fade-in. */
  function TransitionLength(prev: Segment, cur: Segment): (cf: real)
    ensures cf <= prev.fadeOut && cf <= cur.fadeIn
    ensures cf == prev.fadeOut || cf == cur.fadeIn
  {
    if prev.fadeOut < cur.fadeIn then prev.fadeOut else cur.fadeIn
  }

  /** Where `xfade` starts: the previous segment's length less the transition. */
  function XfadeOffset(prev: Segment, cf: real): real {
    (prev.end - prev.start) - cf
  }

  /** The parts step `i` adds: `xfade` plus `acrossfade` when there is a
      transition, otherwise a two-input concat for each stream.  Either way
      step `i` reads the chain label of step `i - 1` and segment `i`, and
      writes the chain label of step `i`. */
  function StepParts(segs: seq<Segment>, i: nat, fmt: real -> string): (r: seq<string>)
    requires 1 <= i < |segs|
    ensures |r| == if TransitionLength(segs[i - 1], segs[i]) > 0.0 then 2 else 1
  {
    var cf := TransitionLength(segs[i - 1], segs[i]);
    if cf > 0.0 then
      var duration := fmt(cf);
      var offset := fmt(XfadeOffset(segs[i - 1], cf));
      [ChainLabel("v", i - 1) + Label("v", i) + "xfade=transition=fade:duration=" + duration + ":offset=" + offset + ChainLabel("v", i),
       ChainLabel("a", i - 1) + Label("a", i) + "acrossfade=d=" + duration + ChainLabel("a", i)]
    else
      [ChainLabel("v", i - 1) + Label("v", i) + "concat=n=2:v=1:a=0" + ChainLabel("v", i) + ";" +
       ChainLabel("a", i - 1) + Label("a", i) + "concat=n=2:v=0:a=1" + ChainLabel("a", i)]
  }

  /** The parts of steps 1 .. k-1. */
  function StepsUpTo(segs: seq<Segment>, k: nat, fmt: real -> string): seq<string>
    requires k <= 1 || k <= |segs|
  {
    if k <= 1 then [] else StepsUpTo(segs, k - 1, fmt) + StepParts(segs, k - 1, fmt)
  }

  /** The copy part that names the end of both chains `[outv]` and `[outa]`. */
  function FinalPart(last: nat): string {
    ChainLabel("v", last) + "copy[outv];" + ChainLabel("a", last) + "copy[outa]"
  }

  function LastIndex(segs: seq<Segment>): nat {
    if |segs| == 0 then 0 else |segs| - 1
  }

  function CrossfadeParts(segs: seq<Segment>, fmt: real -> string): seq<string> {
    TrimParts(segs, fmt) + StepsUpTo(segs, LastIndex(segs) + 1, fmt) + [FinalPart(LastIndex(segs))]
  }

  lemma ChainLabelAfterStep(i: nat)
    requires i >= 1
    ensures ChainLabel("v", i) == Label("vx", i) && ChainLabel("a", i) == Label("ax", i)
  {
    assert "v" + "x" == "vx" && "a" + "x" == "ax";
  }

  lemma ChainLabelsAtStart()
    ensures ChainLabel("v", 0) == "[v0]" && ChainLabel("a", 0) == "[a0]"
  {
    assert NatStr(0) == "0";
  }

  /** Step `i` written with the labels as the builder spells them. */
  lemma StepPartsSpelledOut(segs: seq<Segment>, i: nat, fmt: real -> string)
    requires 1 <= i < |segs|
    ensures var prev, cur := segs[i - 1], segs[i];
      var cf := if prev.fadeOut < cur.fadeIn then prev.fadeOut else cur.fadeIn;
      var inV, inA := ChainLabel("v", i - 1), ChainLabel("a", i - 1);
      StepParts(segs, i, fmt) ==
        if cf > 0.0 then
          [inV + Label("v", i) + "xfade=transition=fade:duration=" + fmt(cf) + ":offset=" + fmt((prev.end - prev.start) - cf) + Label("vx", i),
           inA + Label("a", i) + "acrossfade=d=" + fmt(cf) + Label("ax", i)]
        else
          [inV + Label("v", i) + "concat=n=2:v=1:a=0" + Label("vx", i) + ";" +
           inA + Label("a", i) + "concat=n=2:v=0:a=1" + Label("ax", i)]
  {
    assert "v" + "x" == "vx" && "a" + "x" == "ax";
  }

  /** One pass of the builder's loop: the parts of step `i`, appended to
      `filterParts`, reading the chain labels the previous step wrote. */
  method AppendStep(filterParts: seq<string>, segments: seq<Segment>, i: nat, currentVideoLabel: string, currentAudioLabel: string, fmt: real -> string)
    returns (parts: seq<string>)
    requires 1 <= i < |segments|
    requires currentVideoLabel == ChainLabel("v", i - 1) && currentAudioLabel == ChainLabel("a", i - 1)
    ensures parts == filterParts + StepParts(segments, i, fmt)
    ensures forall trims :: filterParts == trims + StepsUpTo(segments, i, fmt) ==> parts == trims + StepsUpTo(segments, i + 1, fmt)
  {
    var prevSegment := segments[i - 1];
    var currentSegment := segments[i];
    var crossfadeDuration := if prevSegment.fadeOut < currentSegment.fadeIn then prevSegment.fadeOut else currentSegment.fadeIn;
    StepPartsSpelledOut(segments, i, fmt);
    parts := filterParts;
    if crossfadeDuration > 0.0 {
      var prevDuration := prevSegment.end - prevSegment.start;
      var offset := fmt(prevDuration - crossfadeDuration);
      var duration := fmt(crossfadeDuration);
      parts := parts + [currentVideoLabel + Label("v", i) + "xfade=transition=fade:duration=" + duration + ":offset=" + offset + Label("vx", i)];
      parts := parts + [currentAudioLabel + Label("a", i) + "acrossfade=d=" + duration + Label("ax", i)];
    } else {
      parts := parts + [
        currentVideoLabel + Label("v", i) + "concat=n=2:v=1:a=0" + Label("vx", i) + ";" +
        currentAudioLabel + Label("a", i) + "concat=n=2:v=0:a=1" + Label("ax", i)];
    }
  }

  /** The builder's loop over steps 1 .. n-1: it appends the parts of every
      step and ends holding the chain labels of the last segment. */
  method ChainSteps(trims: seq<string>, segments: seq<Segment>, fmt: real -> string)
    returns (filterParts: seq<string>, currentVideoLabel: string, currentAudioLabel: string)
    ensures filterParts == trims + StepsUpTo(segments, LastIndex(segments) + 1, fmt)
    ensures currentVideoLabel == ChainLabel("v", LastIndex(segments))
    ensures currentAudioLabel == ChainLabel("a", LastIndex(segments))
  {
    filterParts := trims;
    currentVideoLabel := "[v0]";
    currentAudioLabel := "[a0]";
    ChainLabelsAtStart();
    var i := 1;
    while i < |segments|
      invariant 1 <= i && (i <= |segments| || i == 1)
      invariant filterParts == trims + StepsUpTo(segments, i, fmt)
      invariant currentVideoLabel == ChainLabel("v", i - 1) && currentAudioLabel == ChainLabel("a", i - 1)
    {
      filterParts := AppendStep(filterParts, segments, i, currentVideoLabel, currentAudioLabel, fmt);
      currentVideoLabel := Label("vx", i);
      currentAudioLabel := Label("ax", i);
      ChainLabelAfterStep(i);
      i := i + 1;
    }
    assert i - 1 == LastIndex(segments);
  }

  /** `createCrossfadeFilterString(segments)`. */
  method CreateCrossfadeFilterString(segments: seq<Segment>, fmt: real -> string) returns (s: string)
    ensures s == Join(CrossfadeParts(segments, fmt), ";")
  {
    var filterParts := TrimAll(segments, fmt);
    var currentVideoLabel, currentAudioLabel;
    filterParts, currentVideoLabel, currentAudioLabel := ChainSteps(filterParts, segments, fmt);
    filterParts := filterParts + [currentVideoLabel + "copy[outv];" + currentAudioLabel + "copy[outa]"];
    assert filterParts == CrossfadeParts(segments, fmt);
    s := Join(filterParts, ";");
  }

  /** How many of the steps 1 .. k-1 have a transition. */
  function FadedSteps(segs: seq<Segment>, k: nat): nat
    requires k <= 1 || k <= |segs|
  {
    if k <= 1 then 0
    else FadedSteps(segs, k - 1) + if TransitionLength(segs[k - 2], segs[k - 1]) > 0.0 then 1 else 0
  }

  lemma {:induction false} StepsCount(segs: seq<Segment>, k: nat, fmt: real -> string)
    requires k <= 1 || k <= |segs|
    ensures |StepsUpTo(segs, k, fmt)| == (if k <= 1 then 0 else k - 1) + FadedSteps(segs, k)
  {
    if k > 1 {
      StepsCount(segs, k - 1, fmt);
    }
  }

  /** The crossfade graph of n >= 1 segments has n trim parts, two parts per
      faded step, one per unfaded step, and the final copy part. */
  lemma CrossfadePartCount(segs: seq<Segment>, fmt: real -> string)
    requires |segs| >= 1
    ensures |CrossfadeParts(segs, fmt)| == |segs| + (|segs| - 1) + FadedSteps(segs, |segs|) + 1
  {
    StepsCount(segs, |segs|, fmt);
  }

  predicate StartsWith(s: string, prefix: string) {
    |prefix| <= |s| && s[..|prefix|] == prefix
  }

  predicate EndsWith(s: string, suffix: string) {
    |suffix| <= |s| && s[|s| - |suffix|..] == suffix
  }

  lemma StartsWithAppend(s: string, prefix: string, t: string)
    requires StartsWith(s, prefix)
    ensures StartsWith(s + t, prefix)
  {
    assert (s + t)[..|prefix|] == s[..|prefix|];
  }

  lemma EndsWithOwnSuffix(s: string, suffix: string)
    ensures EndsWith(s + suffix, suffix)
  {
    assert (s + suffix)[|s|..] == suffix;
  }

  /** The chain is linked: step `i` opens by reading the video label the
      previous step wrote, together with segment `i`, and closes by writing
      the audio label that the next step, or the final copy, reads. */
  lemma ChainIsLinked(segs: seq<Segment>, i: nat, fmt: real -> string)
    requires 1 <= i < |segs|
    ensures StartsWith(StepParts(segs, i, fmt)[0], ChainLabel("v", i - 1) + Label("v", i))
    ensures EndsWith(StepParts(segs, i, fmt)[|StepParts(segs, i, fmt)| - 1], ChainLabel("a", i))
  {
    StepPartsSpelledOut(segs, i, fmt);
    ChainLabelAfterStep(i);
    var prev, cur := segs[i - 1], segs[i];
    var cf := if prev.fadeOut < cur.fadeIn then prev.fadeOut else cur.fadeIn;
    var inV, inA := ChainLabel("v", i - 1), ChainLabel("a", i - 1);
    var opening := inV + Label("v", i);
    assert StartsWith(opening, opening);
    if cf > 0.0 {
      StartsWithAppend(opening, opening, "xfade=transition=fade:duration=");
      StartsWithAppend(opening + "xfade=transition=fade:duration=", opening, fmt(cf));
      StartsWithAppend(opening + "xfade=transition=fade:duration=" + fmt(cf), opening, ":offset=");
      StartsWithAppend(opening + "xfade=transition=fade:duration=" + fmt(cf) + ":offset=", opening, fmt((prev.end - prev.start) - cf));
      StartsWithAppend(opening + "xfade=transition=fade:duration=" + fmt(cf) + ":offset=" + fmt((prev.end - prev.start) - cf), opening, Label("vx", i));
      EndsWithOwnSuffix(inA + Label("a", i) + "acrossfade=d=" + fmt(cf), Label("ax", i));
    } else {
      var v1 := opening + "concat=n=2:v=1:a=0";
      var v2 := v1 + Label("vx", i);
      var v3 := v2 + ";";
      var v4 := v3 + inA;
      var v5 := v4 + Label("a", i);
      var v6 := v5 + "concat=n=2:v=0:a=1";
      StartsWithAppend(opening, opening, "concat=n=2:v=1:a=0");
      StartsWithAppend(v1, opening, Label("vx", i));
      StartsWithAppend(v2, opening, ";");
      StartsWithAppend(v3, opening, inA);
      StartsWithAppend(v4, opening, Label("a", i));
      StartsWithAppend(v5, opening, "concat=n=2:v=0:a=1");
      StartsWithAppend(v6, opening, Label("ax", i));
      EndsWithOwnSuffix(v6, Label("ax", i));
    }
  }

  /** The other half of each stream's link: step `i` also reads the audio
      chain label of step `i - 1` with segment `i`'s audio, and writes the
      video chain label of step `i` that the next step reads. */
  lemma StepLinksBothStreams(segs: seq<Segment>, i: nat, fmt: real -> string)
    requires 1 <= i < |segs|
    ensures TransitionLength(segs[i - 1], segs[i]) > 0.0 ==>
      EndsWith(StepParts(segs, i, fmt)[0], ChainLabel("v", i)) &&
      StartsWith(StepParts(segs, i, fmt)[1], ChainLabel("a", i - 1) + Label("a", i))
    ensures TransitionLength(segs[i - 1], segs[i]) <= 0.0 ==>
      StartsWith(StepParts(segs, i, fmt)[0],
        ChainLabel("v", i - 1) + Label("v", i) + "concat=n=2:v=1:a=0" + ChainLabel("v", i) + ";" +
        ChainLabel("a", i - 1) + Label("a", i))
  {
    if TransitionLength(segs[i - 1], segs[i]) > 0.0 {
      XfadeStepLinks(segs, i, fmt);
    } else {
      ConcatStepLinks(segs, i, fmt);
    }
  }

  lemma XfadeStepLinks(segs: seq<Segment>, i: nat, fmt: real -> string)
    requires 1 <= i < |segs| && TransitionLength(segs[i - 1], segs[i]) > 0.0
    ensures EndsWith(StepParts(segs, i, fmt)[0], ChainLabel("v", i))
    ensures StartsWith(StepParts(segs, i, fmt)[1], ChainLabel("a", i - 1) + Label("a", i))
  {
    StepPartsSpelledOut(segs, i, fmt);
    ChainLabelAfterStep(i);
    var prev := segs[i - 1];
    var cf := TransitionLength(prev, segs[i]);
    var inV, inA := ChainLabel("v", i - 1), ChainLabel("a", i - 1);
    EndsWithOwnSuffix(inV + Label("v", i) + "xfade=transition=fade:duration=" + fmt(cf) + ":offset=" + fmt((prev.end - prev.start) - cf), Label("vx", i));
    var opening := inA + Label("a", i);
    assert StartsWith(opening, opening);
    StartsWithAppend(opening, opening, "acrossfade=d=");
    StartsWithAppend(opening + "acrossfade=d=", opening, fmt(cf));
    StartsWithAppend(opening + "acrossfade=d=" + fmt(cf), opening, Label("ax", i));
  }

  lemma ConcatStepLinks(segs: seq<Segment>, i: nat, fmt: real -> string)
    requires 1 <= i < |segs| && TransitionLength(segs[i - 1], segs[i]) <= 0.0
    ensures StartsWith(StepParts(segs, i, fmt)[0],
      ChainLabel("v", i - 1) + Label("v", i) + "concat=n=2:v=1:a=0" + ChainLabel("v", i) + ";" +
      ChainLabel("a", i - 1) + Label("a", i))
  {
    StepPartsSpelledOut(segs, i, fmt);
    ChainLabelAfterStep(i);
    var opening := ChainLabel("v", i - 1) + Label("v", i) + "concat=n=2:v=1:a=0" + Label("vx", i) + ";" +
      ChainLabel("a", i - 1) + Label("a", i);
    assert StartsWith(opening, opening);
    StartsWithAppend(opening, opening, "concat=n=2:v=0:a=1");
    StartsWithAppend(opening + "concat=n=2:v=0:a=1", opening, Label("ax", i));
  }

  // ------------------------------------------------------------ dispatch

  /** `segments.some(seg => seg.fadeIn > 0 || seg.fadeOut > 0)`. */
  function HasCrossfade(segs: seq<Segment>): (b: bool)
    ensures b <==> exists i :: 0 <= i < |segs| && (segs[i].fadeIn > 0.0 || segs[i].fadeOut > 0.0)
  {
    if segs == [] then false
    else if segs[0].fadeIn > 0.0 || segs[0].fadeOut > 0.0 then true
    else
      var b := HasCrossfade(segs[1..]);
      assert b ==> exists i :: 0 <= i < |segs| && (segs[i].fadeIn > 0.0 || segs[i].fadeOut > 0.0) by {
        if b {
          var j :| 0 <= j < |segs[1..]| && (segs[1..][j].fadeIn > 0.0 || segs[1..][j].fadeOut > 0.0);
          assert segs[j + 1] == segs[1..][j];
        }
      }
      b
  }

  /** `createFilterString(segments)`: the simple graph when no segment fades
      or there is a single segment, the crossfade graph otherwise. */
  method CreateFilterString(segments: seq<Segment>, fmt: real -> string) returns (s: string)
    ensures (forall i :: 0 <= i < |segments| ==> segments[i].fadeIn <= 0.0 && segments[i].fadeOut <= 0.0) || |segments| == 1
      ==> s == Join(SimpleParts(segments, fmt), "")
    ensures (exists i :: 0 <= i < |segments| && (segments[i].fadeIn > 0.0 || segments[i].fadeOut > 0.0)) && |segments| != 1
      ==> s == Join(CrossfadeParts(segments, fmt), ";")
  {
    if !HasCrossfade(segments) || |segments| == 1 {
      s := CreateSimpleFilterString(segments, fmt);
    } else {
      s := CreateCrossfadeFilterString(segments, fmt);
    }
  }

  // ------------------------------------------------------------ link to the timeline

  /** For clips whose fades the resolver set, each exported transition is
      exactly the overlap of the two clips, and an `xfade` is emitted for a
      pair exactly when the clips overlap. */
  lemma ExportTransitionsMatchOverlaps(cs: seq<Clip>, i: nat)
    requires FadesMatchOverlaps(cs)
    requires 1 <= i < |cs|
    ensures TransitionLength(ToSegments(cs)[i - 1], ToSegments(cs)[i]) == Overlap(cs[i - 1], cs[i])
    ensures TransitionLength(ToSegments(cs)[i - 1], ToSegments(cs)[i]) > 0.0 <==> cs[i - 1].end > cs[i].start
  {
    var segs := ToSegments(cs);
    assert segs[i - 1] == ToSegment(cs[i - 1]) && segs[i] == ToSegment(cs[i]);
    assert cs[i - 1].fadeOut == FadeOutAt(cs, i - 1);
    assert cs[i].fadeIn == FadeInAt(cs, i);
  }

  /** For resolved clips, the crossfade graph is chosen exactly when two
      adjacent clips overlap (or several clips have fades at all). */
  lemma ResolvedHasCrossfadeIffOverlap(cs: seq<Clip>)
    requires FadesMatchOverlaps(cs)
    ensures HasCrossfade(ToSegments(cs)) <==> exists i :: 1 <= i < |cs| && cs[i - 1].end > cs[i].start
  {
    var segs := ToSegments(cs);
    if HasCrossfade(segs) {
      var j :| 0 <= j < |segs| && (segs[j].fadeIn > 0.0 || segs[j].fadeOut > 0.0);
      assert segs[j] == ToSegment(cs[j]);
      if cs[j].fadeIn > 0.0 {
        assert cs[j].fadeIn == FadeInAt(cs, j);
        assert cs[j - 1].end > cs[j].start;
      } else {
        assert cs[j].fadeOut == FadeOutAt(cs, j);
        assert cs[j + 1 - 1].end > cs[j + 1].start;
      }
    }
    if exists i :: 1 <= i < |cs| && cs[i - 1].end > cs[i].start {
      var i :| 1 <= i < |cs| && cs[i - 1].end > cs[i].start;
      assert cs[i].fadeIn == FadeInAt(cs, i);
      assert segs[i] == ToSegment(cs[i]);
    }
  }

  /** The `xfade` offset is taken from the previous segment alone, not from
      the chain built so far: with three 10 s segments overlapping by 2 s,
      the chain `[vx1]` lasts 18 s, yet the second transition starts at 8 s. */
  lemma XfadeOffsetUsesPreviousSegmentOnly()
    ensures var segs := [Segment(0.0, 10.0, 0.0, 2.0), Segment(8.0, 18.0, 2.0, 2.0), Segment(16.0, 26.0, 2.0, 0.0)];
      TransitionLength(segs[0], segs[1]) == 2.0 &&
      TransitionLength(segs[1], segs[2]) == 2.0 &&
      XfadeOffset(segs[0], 2.0) == 8.0 &&
      XfadeOffset(segs[1], 2.0) == 8.0
  {
  }
}
