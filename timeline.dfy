/** The `Timeline` class of timeline.js without its DOM parts: the clip list,
    the id counter, the selection, the undo history, and the drag and resize
    gestures.  The video element's `currentTime` is the field `playhead`, and
    mouse positions are replaced by the time offset they stand for. */
module TimelineEngine {
  import opened Clips
  import opened Crossfade
  import opened Editing
  import opened History
  import opened Preview

  datatype Edge = Left | Right

  /** The gesture in progress, in place of the flags isDraggingClip,
      draggedClipId, hasMoved, isResizingClip, resizeClipId, resizeEdge and
      clipOriginalStart/End. */
  datatype Gesture =
    | Idle
    | DraggingClip(clipId: nat, originalStart: real, originalEnd: real, hasMoved: bool)
    | ResizingClip(clipId: nat, edge: Edge, originalStart: real, originalEnd: real)

  class Timeline {
    const duration: real
    var playhead: real
    var clips: seq<Clip>
    var selectedClipId: Option<nat>
    var clipIdCounter: nat
    var history: seq<Snapshot>
    var historyIndex: int
    var gesture: Gesture

    function Present(): Snapshot
      reads this
    {
      Snapshot(clips, clipIdCounter, selectedClipId)
    }

    function State(): Undoable
      reads this
    {
      Undoable(Present(), history, historyIndex)
    }

    /** The cursor points into a history of at most 50 entries, and the
        present and every saved snapshot hand out fresh ids. */
    ghost predicate Valid()
      reads this
    {
      WellFormed(State()) && IdsFresh(clips, clipIdCounter) && SnapshotsFresh(history)
    }

    /** A timeline over a video of `duration` seconds starts with one clip
        spanning the whole video, saved as the first history entry. */
    constructor (duration: real, playhead: real)
      ensures Valid()
      ensures this.duration == duration && this.playhead == playhead
      ensures clips == [Clip(0, 0.0, duration, 0.0, 0.0)] && clipIdCounter == 1 && selectedClipId == None
      ensures history == [Present()] && historyIndex == 0 && gesture == Idle
    {
      this.duration := duration;
      this.playhead := playhead;
      clips := [];
      selectedClipId := None;
      clipIdCounter := 0;
      history := [];
      historyIndex := -1;
      gesture := Idle;
      new;
      CreateInitialClip();
      SaveState();
    }

    method CreateInitialClip()
      modifies this`clips, this`clipIdCounter
      ensures clips == old(clips) + [Clip(old(clipIdCounter), 0.0, duration, 0.0, 0.0)]
      ensures clipIdCounter == old(clipIdCounter) + 1
    {
      clips := clips + [Clip(clipIdCounter, 0.0, duration, 0.0, 0.0)];
      clipIdCounter := clipIdCounter + 1;
    }

    // ------------------------------------------------------------ history

    /** `saveState()`: one new entry, the present, under the cursor. */
    method SaveState()
      requires -1 <= historyIndex < |history| <= MaxHistorySize
      modifies this`history, this`historyIndex
      ensures State() == AfterSave(old(State()))
    {
      history := history[..historyIndex + 1];
      history := history + [Present()];
      if |history| > MaxHistorySize {
        history := history[1..];
      } else {
        historyIndex := historyIndex + 1;
      }
    }

    /** `restoreState(state)`: the snapshot's clips, counter and selection,
        with the crossfades resolved again; the history is not touched. */
    method RestoreState(s: Snapshot)
      modifies this`clips, this`clipIdCounter, this`selectedClipId
      ensures Present() == Restored(s)
    {
      clips := s.clips;
      clipIdCounter := s.clipIdCounter;
      selectedClipId := s.selectedClipId;
      DetectAndSetCrossfades();
    }

    method Undo()
      requires Valid()
      modifies this`clips, this`clipIdCounter, this`selectedClipId, this`historyIndex
      ensures Valid()
      ensures State() == AfterUndo(old(State()))
    {
      if historyIndex > 0 {
        historyIndex := historyIndex - 1;
        assert history[historyIndex] in history;
        RestoredKeepsIdsFresh(history[historyIndex]);
        RestoreState(history[historyIndex]);
      }
    }

    method Redo()
      requires Valid()
      modifies this`clips, this`clipIdCounter, this`selectedClipId, this`historyIndex
      ensures Valid()
      ensures State() == AfterRedo(old(State()))
    {
      if historyIndex < |history| - 1 {
        historyIndex := historyIndex + 1;
        assert history[historyIndex] in history;
        RestoredKeepsIdsFresh(history[historyIndex]);
        RestoreState(history[historyIndex]);
      }
    }

    // ------------------------------------------------------------ crossfades

    /** `detectAndSetCrossfades()`: clear every fade, then give each
        overlapping adjacent pair the overlap as fade-out and fade-in. */
    method DetectAndSetCrossfades()
      modifies this`clips
      ensures clips == Resolved(old(clips))
    {
      ghost var original := clips;
      ClearFades();
      ClearedIsResolvedBefore(original, clips);
      var i := 0;
      while i + 1 < |clips|
        invariant ResolvedBefore(original, clips, i)
        decreases |clips| - i
      {
        ResolvePairStep(original, clips, i);
        var current := clips[i];
        var next := clips[i + 1];
        if current.end > next.start {
          var overlapDuration := current.end - next.start;
          clips := clips[i := current.(fadeOut := overlapDuration)];
          clips := clips[i + 1 := next.(fadeIn := overlapDuration)];
        }
        i := i + 1;
      }
      ResolvedAfterLastPair(original, clips, i);
    }

    /** The first pass of `detectAndSetCrossfades()`: every fade set to 0. */
    method ClearFades()
      modifies this`clips
      ensures SameGeometry(old(clips), clips)
      ensures forall j :: 0 <= j < |clips| ==> clips[j].fadeIn == 0.0 && clips[j].fadeOut == 0.0
    {
      var i := 0;
      while i < |clips|
        invariant 0 <= i <= |clips| == |old(clips)|
        invariant forall j :: 0 <= j < |clips| ==>
          clips[j] == if j < i then old(clips)[j].(fadeIn := 0.0, fadeOut := 0.0) else old(clips)[j]
      {
        clips := clips[i := clips[i].(fadeIn := 0.0, fadeOut := 0.0)];
        i := i + 1;
      }
    }

    // ------------------------------------------------------------ cut and delete

    /** `cutAtTime(time)`: nothing happens unless a clip holds `time`
        strictly inside it; otherwise the first such clip is replaced by its
        two pieces under the next two ids, the list is sorted by start and
        the result is saved as one history entry.  The crossfades are not
        resolved again. */
    method CutAtTime(time: real)
      requires Valid()
      modifies this`clips, this`clipIdCounter, this`history, this`historyIndex
      ensures Valid()
      ensures IndexOfCut(old(clips), time) == -1 ==> State() == old(State())
      ensures IndexOfCut(old(clips), time) >= 0 ==>
        clips == CutClips(old(clips), IndexOfCut(old(clips), time), time, old(clipIdCounter)) &&
        clipIdCounter == old(clipIdCounter) + 2 &&
        State() == AfterSave(old(State()).(present := Present()))
    {
      var clipIndex := IndexOfCut(clips, time);
      if clipIndex != -1 {
        SplitClipAt(clipIndex, time);
        SaveKeepsSnapshotsFresh(State());
        SaveState();
      }
    }

    /** The body of `cutAtTime(time)` once the clip is found: its two pieces
        take the next two ids and its place, and the list is sorted again. */
    method SplitClipAt(clipIndex: nat, time: real)
      requires clipIndex < |clips| && IdsFresh(clips, clipIdCounter)
      modifies this`clips, this`clipIdCounter
      ensures clips == CutClips(old(clips), clipIndex, time, old(clipIdCounter))
      ensures clipIdCounter == old(clipIdCounter) + 2
      ensures IdsFresh(clips, clipIdCounter)
    {
      var clip := clips[clipIndex];
      var newClip1 := Clip(clipIdCounter, clip.start, time, clip.fadeIn, 0.0);
      clipIdCounter := clipIdCounter + 1;
      var newClip2 := Clip(clipIdCounter, time, clip.end, 0.0, clip.fadeOut);
      clipIdCounter := clipIdCounter + 1;
      CutKeepsIdsFresh(clips, clipIndex, time, old(clipIdCounter));
      clips := clips[..clipIndex] + [newClip1, newClip2] + clips[clipIndex + 1..];
      clips := SortByStart(clips);
    }

    /** `deleteSelectedClip()`: false, and nothing changes, when nothing is
        selected or the selected id is not in the list.  Otherwise the clip
        goes, every later clip moves left by its length, the playhead follows
        when it was past the clip's start, the selection is cleared and one
        history entry is saved.  The crossfades are not resolved again. */
    method DeleteSelectedClip() returns (deleted: bool)
      requires Valid()
      modifies this`clips, this`playhead, this`selectedClipId, this`history, this`historyIndex
      ensures Valid()
      ensures deleted <==> old(selectedClipId).Some? && IndexOfId(old(clips), old(selectedClipId).value) >= 0
      ensures !deleted ==> State() == old(State()) && playhead == old(playhead)
      ensures deleted ==>
        var k := IndexOfId(old(clips), old(selectedClipId).value);
        clips == ClosedGap(old(clips), k) &&
        playhead == PlayheadAfterDelete(old(playhead), old(clips)[k]) &&
        selectedClipId == None &&
        State() == AfterSave(old(State()).(present := Present()))
    {
      deleted := false;
      if selectedClipId.Some? {
        var clipIndex := IndexOfId(clips, selectedClipId.value);
        if clipIndex != -1 {
          RemoveClipAt(clipIndex);
          selectedClipId := None;
          SaveKeepsSnapshotsFresh(State());
          SaveState();
          deleted := true;
        }
      }
    }

    /** The body of `deleteSelectedClip()` once the clip is found: remove
        clip `clipIndex`, move the later clips left by its length, and move
        the playhead when it was past the clip's start. */
    method RemoveClipAt(clipIndex: nat)
      requires clipIndex < |clips| && IdsFresh(clips, clipIdCounter)
      modifies this`clips, this`playhead
      ensures clips == ClosedGap(old(clips), clipIndex)
      ensures playhead == PlayheadAfterDelete(old(playhead), old(clips)[clipIndex])
      ensures IdsFresh(clips, clipIdCounter)
    {
      var deletedClip := clips[clipIndex];
      var deletedDuration := deletedClip.end - deletedClip.start;
      var remaining := clips[..clipIndex] + clips[clipIndex + 1..];
      remaining := ShiftClipsLeft(remaining, clipIndex, deletedDuration);
      ShiftedRemovalIsClosedGap(clips, clipIndex, remaining);
      ClosedGapKeepsIdsFresh(clips, clipIndex, clipIdCounter);
      clips := remaining;
      if playhead > deletedClip.start {
        var moved := playhead - deletedDuration;
        playhead := if deletedClip.start >= moved then deletedClip.start else moved;
      }
    }

    /** The splice and the loop of `deleteSelectedClip()` together close
        the gap. */
    static lemma ShiftedRemovalIsClosedGap(cs: seq<Clip>, k: nat, shifted: seq<Clip>)
      requires k < |cs|
      requires |shifted| == |cs| - 1 && shifted[..k] == (cs[..k] + cs[k + 1..])[..k]
      requires forall j :: k <= j < |shifted| ==> shifted[j] == ShiftLeft((cs[..k] + cs[k + 1..])[j], Length(cs[k]))
      ensures shifted == ClosedGap(cs, k)
    {
      assert forall j :: 0 <= j < k ==> shifted[j] == shifted[..k][j] == cs[j];
      var removed := cs[..k] + cs[k + 1..];
      assert forall j :: k <= j < |shifted| ==> removed[j] == cs[j + 1];
    }

    /** The loop of `deleteSelectedClip()` that moves every clip from index
        `from` on left by `d`. */
    static method ShiftClipsLeft(cs: seq<Clip>, from: nat, d: real) returns (r: seq<Clip>)
      requires from <= |cs|
      ensures |r| == |cs| && r[..from] == cs[..from]
      ensures forall j :: from <= j < |r| ==> r[j] == ShiftLeft(cs[j], d)
    {
      r := cs;
      for i := from to |r|
        invariant |r| == |cs| && r[..from] == cs[..from]
        invariant forall j :: from <= j < i ==> r[j] == ShiftLeft(cs[j], d)
        invariant forall j :: i <= j < |r| ==> r[j] == cs[j]
      {
        r := r[i := r[i].(start := r[i].start - d)];
        r := r[i := r[i].(end := r[i].end - d)];
      }
    }

    // ------------------------------------------------------------ selection and clicks

    method SelectClip(clipId: nat)
      modifies this`selectedClipId
      ensures selectedClipId == Some(clipId)
    {
      selectedClipId := Some(clipId);
    }

    method DeselectClip()
      modifies this`selectedClipId
      ensures selectedClipId == None
    {
      selectedClipId := None;
    }

    /** A click on a clip (or a drag released without movement) selects it,
        or clears the selection when it was already selected. */
    method ToggleSelection(clipId: nat)
      modifies this`selectedClipId
      ensures selectedClipId == if old(selectedClipId) == Some(clipId) then None else Some(clipId)
    {
      if selectedClipId == Some(clipId) {
        DeselectClip();
      } else {
        SelectClip(clipId);
      }
    }

    /** A click on the timeline outside every clip moves the playhead to the
        clicked time and clears the selection. */
    method ClickOutsideClips(clickedTime: real)
      modifies this`playhead, this`selectedClipId
      ensures playhead == clickedTime && selectedClipId == None
    {
      playhead := clickedTime;
      DeselectClip();
    }

    // ------------------------------------------------------------ preview

    /** `getOpacityAtTime(time)`: scan the adjacent pairs in order; the first
        pair with both fades positive whose window holds `time` gives the
        ramp value.  The scan over single clips that follows returns 1 on
        both of its paths, so it is folded into the final 1. */
    method GetOpacityAtTime(time: real) returns (o: Opacity)
      ensures o == OpacityAt(clips, time)
    {
      var i := 0;
      while i + 1 < |clips|
        invariant 0 <= i
        invariant OpacityFrom(clips, time, i) == OpacityAt(clips, time)
        decreases |clips| - i
      {
        var currentClip := clips[i];
        var nextClip := clips[i + 1];
        if currentClip.fadeOut > 0.0 && nextClip.fadeIn > 0.0 {
          var crossfadeStart := nextClip.start;
          var crossfadeEnd := currentClip.end;
          if time >= crossfadeStart && time <= crossfadeEnd {
            return Ramp(crossfadeStart, crossfadeEnd, time);
          }
        }
        i := i + 1;
      }
      o := Level(1.0);
    }

    // ------------------------------------------------------------ export

    /** `getActiveSegments()`: sorts the clip list in place by start and
        returns one segment per clip, in that order. */
    method GetActiveSegments() returns (segments: seq<Segment>)
      requires Valid()
      modifies this`clips
      ensures Valid()
      ensures clips == SortByStart(old(clips)) && SortedByStart(clips)
      ensures multiset(clips) == multiset(old(clips))
      ensures segments == ToSegments(clips)
    {
      SortKeepsIdsFresh(clips, clipIdCounter);
      clips := SortByStart(clips);
      var sorted := clips;
      segments := seq(|sorted|, i requires 0 <= i < |sorted| => ToSegment(sorted[i]));
    }

    // ------------------------------------------------------------ drag

    /** Mouse-down on a clip: remember its range; nothing when the id is absent. */
    method StartDraggingClip(clipId: nat)
      modifies this`gesture
      ensures var k := IndexOfId(clips, clipId);
        (k == -1 ==> gesture == old(gesture)) &&
        (k >= 0 ==> gesture == DraggingClip(clipId, clips[k].start, clips[k].end, false))
    {
      var k := IndexOfId(clips, clipId);
      if k == -1 {
        return;
      }
      gesture := DraggingClip(clipId, clips[k].start, clips[k].end, false);
    }

    /** A mouse move while dragging (`moved`: the mouse has left the 5-pixel
        dead zone; `deltaTime`: the mouse offset in seconds).  The dragged
        clip is placed at its original range moved by `deltaTime`, clamped as a
        whole into the video and then snapped; its id and length never change. */
    method DragClip(deltaTime: real, moved: bool)
      requires Valid()
      modifies this`gesture, this`clips
      ensures Valid()
      ensures !old(gesture).DraggingClip? ==> gesture == old(gesture) && clips == old(clips)
      ensures old(gesture).DraggingClip? ==>
        var g := old(gesture);
        var k := IndexOfId(old(clips), g.clipId);
        gesture == g.(hasMoved := g.hasMoved || moved) &&
        (k == -1 ==> clips == old(clips)) &&
        (k >= 0 ==>
          var range := ClampMove(g.originalStart, g.originalEnd, deltaTime, duration);
          var snapped := SnapRange(SnapPoints(old(clips), g.clipId, playhead, duration), range.0, range.1);
          clips == old(clips)[k := old(clips)[k].(start := snapped.0, end := snapped.1)] &&
          clips[k].id == g.clipId &&
          Length(clips[k]) == g.originalEnd - g.originalStart)
    {
      if gesture.DraggingClip? {
        if moved {
          gesture := gesture.(hasMoved := true);
        }
        var k := IndexOfId(clips, gesture.clipId);
        if k != -1 {
          var range := ClampMove(gesture.originalStart, gesture.originalEnd, deltaTime, duration);
          var newStart, newEnd := ApplySnapping(range.0, range.1, clips[k].id);
          MoveKeepsIdsFresh(clips, k, newStart, newEnd, clipIdCounter);
          clips := clips[k := clips[k].(start := newStart, end := newEnd)];
        }
      }
    }

    /** `applySnapping(newStart, newEnd, clipId)`: collect the snap points,
        then snap the range to them. */
    method ApplySnapping(newStart: real, newEnd: real, clipId: nat) returns (snappedStart: real, snappedEnd: real)
      ensures (snappedStart, snappedEnd) == SnapRange(SnapPoints(clips, clipId, playhead, duration), newStart, newEnd)
    {
      var snapPoints := CollectSnapPoints(clipId);
      snappedStart, snappedEnd := SnapToPoints(snapPoints, newStart, newEnd);
    }

    /** The first half of `applySnapping`: the other clips' edges in list
        order, then the playhead, 0 and the duration. */
    method CollectSnapPoints(clipId: nat) returns (snapPoints: seq<real>)
      ensures snapPoints == SnapPoints(clips, clipId, playhead, duration)
    {
      snapPoints := [];
      for i := 0 to |clips|
        invariant snapPoints == OtherEdges(clips[..i], clipId)
      {
        OtherEdgesStep(clips, i, clipId);
        if clips[i].id != clipId {
          snapPoints := snapPoints + [clips[i].start];
          snapPoints := snapPoints + [clips[i].end];
        }
      }
      assert clips[..|clips|] == clips;
      snapPoints := snapPoints + [playhead];
      snapPoints := snapPoints + [0.0];
      snapPoints := snapPoints + [duration];
    }

    /** Mouse-up after a drag: a drag that never left the dead zone toggles
        the selection; otherwise the list is sorted, the crossfades resolved
        and one history entry saved. */
    method StopDraggingClip()
      requires Valid()
      modifies this`gesture, this`selectedClipId, this`clips, this`history, this`historyIndex
      ensures Valid()
      ensures !old(gesture).DraggingClip? ==> gesture == old(gesture) && State() == old(State())
      ensures old(gesture).DraggingClip? ==> gesture == Idle
      ensures old(gesture).DraggingClip? && !old(gesture).hasMoved ==>
        clips == old(clips) && history == old(history) && historyIndex == old(historyIndex) &&
        selectedClipId == if old(selectedClipId) == Some(old(gesture).clipId) then None else Some(old(gesture).clipId)
      ensures old(gesture).DraggingClip? && old(gesture).hasMoved ==>
        clips == Resolved(SortByStart(old(clips))) && selectedClipId == old(selectedClipId) &&
        State() == AfterSave(old(State()).(present := Present())) &&
        SortedByStart(clips) && AtRest(State())
    {
      if !gesture.DraggingClip? {
        return;
      }
      var clipId := gesture.clipId;
      var hasMoved := gesture.hasMoved;
      gesture := Idle;
      if !hasMoved {
        ToggleSelection(clipId);
      } else {
        Commit();
      }
    }

    // ------------------------------------------------------------ resize

    /** Mouse-down on a resize handle: remember the clip's range and the edge. */
    method StartResizingClip(clipId: nat, edge: Edge)
      modifies this`gesture
      ensures var k := IndexOfId(clips, clipId);
        (k == -1 ==> gesture == old(gesture)) &&
        (k >= 0 ==> gesture == ResizingClip(clipId, edge, clips[k].start, clips[k].end))
    {
      var k := IndexOfId(clips, clipId);
      if k == -1 {
        return;
      }
      gesture := ResizingClip(clipId, edge, clips[k].start, clips[k].end);
    }

    /** A mouse move while resizing: only the chosen edge of the clip moves,
        clamped to the video and to a 0.1 s minimum length against the other
        edge's original position. */
    method ResizeClip(deltaTime: real)
      requires Valid()
      modifies this`clips
      ensures Valid()
      ensures !gesture.ResizingClip? ==> clips == old(clips)
      ensures gesture.ResizingClip? ==>
        var g := gesture;
        var k := IndexOfId(old(clips), g.clipId);
        (k == -1 ==> clips == old(clips)) &&
        (k >= 0 && g.edge == Left ==>
          clips == old(clips)[k := old(clips)[k].(start := ResizedStart(g.originalStart, g.originalEnd, deltaTime))]) &&
        (k >= 0 && g.edge == Right ==>
          clips == old(clips)[k := old(clips)[k].(end := ResizedEnd(g.originalStart, g.originalEnd, deltaTime, duration))])
    {
      if !gesture.ResizingClip? {
        return;
      }
      var k := IndexOfId(clips, gesture.clipId);
      if k == -1 {
        return;
      }
      match gesture.edge
      case Left =>
        clips := clips[k := clips[k].(start := ResizedStart(gesture.originalStart, gesture.originalEnd, deltaTime))];
      case Right =>
        clips := clips[k := clips[k].(end := ResizedEnd(gesture.originalStart, gesture.originalEnd, deltaTime, duration))];
    }

    /** Mouse-up after a resize: sort, resolve the crossfades, save. */
    method StopResizingClip()
      requires Valid()
      modifies this`gesture, this`clips, this`history, this`historyIndex
      ensures Valid()
      ensures !old(gesture).ResizingClip? ==> gesture == old(gesture) && State() == old(State())
      ensures old(gesture).ResizingClip? ==>
        gesture == Idle &&
        clips == Resolved(SortByStart(old(clips))) &&
        State() == AfterSave(old(State()).(present := Present())) &&
        SortedByStart(clips) && AtRest(State())
    {
      if !gesture.ResizingClip? {
        return;
      }
      gesture := Idle;
      Commit();
    }

    /** The commit both gestures end with: sort by start, resolve the
        crossfades, save one history entry. */
    method Commit()
      requires Valid()
      modifies this`clips, this`history, this`historyIndex
      ensures Valid()
      ensures clips == Resolved(SortByStart(old(clips)))
      ensures SortedByStart(clips) && FadesMatchOverlaps(clips)
      ensures State() == AfterSave(old(State()).(present := Present()))
      ensures AtRest(State())
    {
      SortKeepsIdsFresh(clips, clipIdCounter);
      clips := SortByStart(clips);
      ResolvedKeepsIdsFresh(clips, clipIdCounter);
      ghost var sorted := clips;
      DetectAndSetCrossfades();
      assert SortedByStart(clips) by {
        assert SameGeometry(sorted, clips);
      }
      SaveKeepsSnapshotsFresh(State());
      SaveOfResolvedIsAtRest(State());
      SaveState();
    }
  }
}
