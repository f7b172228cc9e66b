# ClipTrimmer timeline and filter-graph model

This project models the core of ClipTrimmer, a browser video trimmer, in Dafny.

**The timeline editor.** The `Timeline` class of `timeline.js`, without its DOM, is modelled here. It holds:

- a list of clips `{id, start, end, fadeIn, fadeOut}` over one source video;
- an id counter;
- the selected clip;
- a bounded undo/redo history of snapshots with a cursor.

Its operations, each with the effect it has on that state:

- **cut** a clip at a time;
- **delete** the selected clip, closing the gap and moving the playhead;
- **drag** a clip with clamping and snapping;
- **resize** one edge with a 0.1 s minimum length;
- **resolve crossfades** from overlaps of adjacent clips;
- compute the **preview opacity**;
- **export** the clips as segments;
- **save**, **undo** and **redo**.

**The export graph builders.** These come from `app.js` and turn the exported segments into FFmpeg `-filter_complex` text. There are two graphs:

- a plain trim-and-concat graph;
- a graph that chains the segments through `xfade`/`acrossfade` where adjacent segments fade into each other.

**Modules.** The Dafny modules follow that structure:

- `Clips` (clips.dfy): clip and segment records; the stable sort by start that the timeline applies in place; the two `findIndex` lookups; id freshness.
- `Crossfade` (crossfade.dfy): the specification of `detectAndSetCrossfades` (`Resolved`) and its properties.
- `Preview` (preview.dfy): `isTimeInClip` and `getOpacityAtTime`.
- `Editing` (editing.dfy): the arithmetic of cut, delete, drag, snapping and resize.
- `History` (history.dfy): the undo/redo history as a value (`Undoable`) with `saveState`, `undo` and `redo` as functions and the lemmas relating them.
- `TimelineEngine` (timeline.dfy): the class `Timeline`. Its fields are updated in place by methods proved against the functions above.
- `FilterGraph` (filtergraph.dfy): the three builders of `app.js`. The two builders with loops are methods proved against part-list functions.

**Modelling choices.**

- Times are `real`.
- The video element's `currentTime` is the field `playhead`.
- Mouse movements are given as the time offset they stand for (`deltaTime`) and as a flag saying whether the mouse left the 5-pixel dead zone.
- `Number.prototype.toFixed(3)` is the function-typed parameter `fmt`.
- The drag/resize flags of the class are one `Gesture` value: idle, dragging or resizing.

## Model

| member | source | states |
|---|---|---|
| Clips.Insert | timeline.js:135 | inserting a clip into a list sorted by start gives a sorted list one longer holding exactly the old clips plus the new one |
| Clips.SortByStart | timeline.js:135 | the in-place sort by `a.start - b.start` yields a list sorted by start that is a permutation of its input |
| Clips.SortOfSortedIsIdentity | timeline.js:196 | sorting a list that is already sorted by start leaves it exactly as it is (the sort is stable) |
| Clips.InsertKeepsIdsFresh | timeline.js:135 | inserting a clip whose id is below the counter and new to the list keeps every id below the counter and all ids distinct |
| Clips.SortKeepsIdsFresh | timeline.js:135 | sorting keeps every id below the counter and all ids distinct |
| Clips.MoveKeepsIdsFresh | timeline.js:375-376 | changing one clip's start and end keeps the ids fresh and distinct |
| Clips.IndexOfId | timeline.js:147 | `findIndex` by id: -1 exactly when no clip has the id, otherwise the first index holding it |
| Clips.IndexOfCut | timeline.js:103-105 | `findIndex` of the cut: -1 exactly when no clip has `start < time < end`, otherwise the first clip that does |
| Crossfade.Overlap | timeline.js:496-499 | the overlap is non-negative, positive exactly when the first clip ends after the second starts, and then equals `end - next.start` |
| Crossfade.Resolved | timeline.js:482-503 | resolving keeps every clip's id, start, end and position and sets every fade to the overlap with the neighbouring clip, 0 at the ends and where clips do not overlap |
| Crossfade.ResolvePairStep | timeline.js:490-502 | one pass of the pair loop gives the current pair its overlap and keeps the loop's progress invariant |
| Crossfade.ResolvedAfterLastPair | timeline.js:490-502 | when the pair loop ends, the list is exactly `Resolved` of the list it started from |
| Crossfade.FadesOfResolved | timeline.js:482-503 | a list with the original geometry and the fades the overlaps call for is the resolved list |
| Crossfade.FadesDetermineList | timeline.js:482-503 | the fades depend on the geometry alone: two lists with the same clips whose fades match their overlaps are equal |
| Crossfade.ResolvedFixpoint | timeline.js:482-503 | resolving a list whose fades already match its overlaps changes nothing |
| Crossfade.ResolvedIdempotent | timeline.js:482-503 | resolving twice is the same as resolving once |
| Crossfade.ResolvedKeepsIdsFresh | timeline.js:482-503 | resolving changes no id |
| Crossfade.FadeOutWithinClip | timeline.js:496-499 | in a sorted resolved list every fade is non-negative and no fade-out exceeds its clip's length |
| Crossfade.FadeOnlyOnOverlap | timeline.js:496-500 | in a resolved list a clip fades out exactly when it runs past the next clip's start, and by the amount the next clip fades in |
| Preview.InAnyClip | timeline.js:557-562 | `isTimeInClip` holds exactly when some clip has `start <= time <= end` |
| Preview.Ramp | timeline.js:574-590 | the window ramp is NaN exactly for an empty window and otherwise a value in [0, 1] |
| Preview.OpacityOutsideWindows | timeline.js:564-602 | outside every window of a pair with both fades positive the opacity is 1 |
| Preview.OpacityInFirstWindow | timeline.js:568-592 | inside a window the first such pair in list order gives the ramp value |
| Preview.OpacityRange | timeline.js:564-602 | the opacity is in [0, 1] unless a crossfading pair has an empty window at `time`, where 0/0 gives NaN |
| Preview.RampEndpointsAndMidpoint | timeline.js:574-590 | the ramp is 1 at both window ends and 0, not 0.5, at the midpoint |
| Preview.ResolvedOpacityIsLevel | timeline.js:564-602 | for resolved clips the opacity is always a number in [0, 1] |
| Editing.CutResult | timeline.js:112-135 | a cut gives one more clip, sorted by start: the old clips less the cut clip plus `[start, t]` with the old fade-in and `[t, end]` with the old fade-out, both of positive length that sum to the old length |
| Editing.CutKeepsIdsFresh | timeline.js:114-135 | the two new ids are the counter and its successor, so after the cut all ids are distinct and below the counter plus 2 |
| Editing.CutLeavesStaleFades | timeline.js:112-137 | the cut does not resolve crossfades again: cutting [0,10] (overlapping [5,15]) at 7 leaves a list whose fades no longer match its overlaps |
| Editing.ClosedGap | timeline.js:153-162 | after a delete the clips before the deleted one are unchanged and each later clip is the next old clip moved left by the deleted length |
| Editing.ClosedGapKeepsIdsFresh | timeline.js:153-162 | after a delete the ids stay fresh with the same counter and the deleted id is gone |
| Editing.DeleteClosesGap | timeline.js:158-162 | deleting from clips that tile time without gaps leaves clips that still tile time |
| Editing.DeleteKeepsSortedWithoutOverlap | timeline.js:158-162 | the list stays sorted when the deleted clip does not overlap its successor |
| Editing.DeleteOverlappingCanUnsort | timeline.js:158-162 | when the deleted clip overlaps its successor the shift can unsort the list and move a clip below 0 (concrete case) |
| Editing.DeleteMiddleExample | timeline.js:158-162 | an illustration on one input: deleting the middle of [0,40], [40,70], [70,100] leaves [0,40], [40,70] |
| Editing.PlayheadAfterDelete | timeline.js:164-168 | the playhead stays when at or before the deleted start; past it, it moves to `max(start, playhead - length)`, i.e. to the start from inside the clip and left by the length from after it |
| Editing.ClampMove | timeline.js:356-368 | the clamped drag range keeps the original length, lies in [0, duration] when the clip fits, and is the plain moved range when that already fits; when the clip fits, a drag past 0 lands at [0, length]; and a drag past the duration lands at [duration - length, duration] |
| Editing.OtherEdges | timeline.js:515-520 | the collected points are exactly the edges of the other clips: every point is the start or end of a clip with another id, and every such clip's start and end is collected |
| Editing.IndexWithin | timeline.js:535-541 | the index of the first snap point strictly closer than 0.2 to `x`, or -1 exactly when none is |
| Editing.FirstWithin | timeline.js:535-541 | the first point within 0.2 of `x`, or none exactly when no point is within reach |
| Editing.ScanForSnap | timeline.js:535-541 | the scan loop with `break` finds the same index as `IndexWithin` |
| Editing.SnapRange | timeline.js:530-554 | snapping keeps the range's length, moves the start by less than 0.2, lands an edge on a snap point or changes nothing, and changes nothing when no point is within reach of either edge |
| Editing.SnapToPoints | timeline.js:530-554 | the two scans of `applySnapping` compute `SnapRange` |
| Editing.StartSnapWins | timeline.js:535-541 | when a point other than the start itself is in reach of the start, the start lands on the first such point and the end follows |
| Editing.EndSnapWhenStartStays | timeline.js:544-552 | the end snaps only when the start stayed put, and then lands on the first point in its reach |
| Editing.ResizedStart | timeline.js:442-449 | the new start is `max(0, min(origStart + delta, origEnd - 0.1))`: never below 0, at least 0.1 before the original end when that end is at least 0.1, and exact when in range; a request below 0 lands at 0 and one past `origEnd - 0.1` lands there |
| Editing.ResizedEnd | timeline.js:450-457 | the new end is `min(duration, max(origEnd + delta, origStart + 0.1))`: never past the duration, at least 0.1 after the original start, and exact when in range; a request past the duration lands at the duration and one before `origStart + 0.1` lands there |
| History.AfterSave | timeline.js:605-625 | a save truncates the redo tail, appends the present and drops the oldest entry on overflow; the history then holds at most 50 entries and the cursor is on the last one, the present |
| History.AfterUndo | timeline.js:627-632 | undo steps the cursor back and restores that entry; at index 0 it does nothing; the history is never changed |
| History.AfterRedo | timeline.js:634-639 | redo steps the cursor forward and restores that entry; at the last index it does nothing; the history is never changed |
| History.SaveOfResolvedIsAtRest | timeline.js:605-625 | saving a present whose fades match its overlaps leaves a history whose present is the restored entry under the cursor |
| History.UndoThenRedo | timeline.js:627-639 | undo followed by redo gives back the same history and cursor with the restored entry under the cursor as the present, so the same state exactly when the history was at rest |
| History.RedoThenUndo | timeline.js:627-639 | redo followed by undo gives back the same history and cursor with the restored entry under the cursor as the present, so the same state exactly when the history was at rest |
| History.RedoAfterSaveDoesNothing | timeline.js:605-639 | after a save there is nothing to redo |
| History.UndoAfterSave | timeline.js:605-632 | undo right after a save restores the entry that was under the cursor before it, also when the save evicted the oldest entry |
| History.EditThenUndoRestores | timeline.js:605-632 | an edit then an undo gives back the state before the edit, when that state was at rest |
| History.SaveKeepsSnapshotsFresh | timeline.js:605-625 | every snapshot kept after a save has fresh, distinct ids |
| History.RestoredKeepsIdsFresh | timeline.js:641-651 | restoring a snapshot with fresh ids gives a present with fresh ids |
| History.SaveTimes | timeline.js:605-625 | any number of saves keeps the history within 50 entries with a valid cursor |
| History.SaveTimesLength | timeline.js:605-625 | with the cursor at the end, n saves leave min(length + n, 50) entries with the cursor on the last |
| History.UndoTimes | timeline.js:627-632 | any number of undos keeps the cursor inside the history |
| History.UndoTimesReachesOldest | timeline.js:627-632 | n undos move the cursor back by n, restore the entry they stop on and never change the history |
| TimelineEngine.Timeline.constructor | timeline.js:3-20 | a new timeline holds one clip [0, duration] with id 0, counter 1, no selection, and a history of exactly that state with the cursor on it |
| TimelineEngine.Timeline.CreateInitialClip | timeline.js:90-99 | appends the clip [0, duration] with the current counter as id and advances the counter |
| TimelineEngine.Timeline.SaveState | timeline.js:605-625 | the new history and cursor are `AfterSave` of the old state |
| TimelineEngine.Timeline.RestoreState | timeline.js:641-651 | clips, counter and selection become the snapshot's, with the crossfades resolved again |
| TimelineEngine.Timeline.Undo | timeline.js:627-632 | the new state is `AfterUndo` of the old one, and the class invariant (bounded history, fresh ids) is kept |
| TimelineEngine.Timeline.Redo | timeline.js:634-639 | the new state is `AfterRedo` of the old one, and the class invariant is kept |
| TimelineEngine.Timeline.DetectAndSetCrossfades | timeline.js:482-503 | the clip list becomes `Resolved` of the old list |
| TimelineEngine.Timeline.ClearFades | timeline.js:484-487 | the first pass sets every fade to 0 and changes nothing else |
| TimelineEngine.Timeline.CutAtTime | timeline.js:101-139 | with no clip strictly around `time` nothing changes; otherwise the clips become the sorted cut list, the counter grows by 2, one history entry is saved, and the invariant is kept |
| TimelineEngine.Timeline.SplitClipAt | timeline.js:112-135 | the found clip is replaced by its two pieces under the next two ids, the list is sorted, and ids stay fresh |
| TimelineEngine.Timeline.DeleteSelectedClip | timeline.js:142-178 | returns false and changes nothing when nothing is selected or the id is absent; otherwise returns true, closes the gap, moves the playhead, clears the selection and saves one entry |
| TimelineEngine.Timeline.RemoveClipAt | timeline.js:150-168 | removes the clip, shifts the later clips left by its length and moves the playhead as `PlayheadAfterDelete` says |
| TimelineEngine.Timeline.ShiftedRemovalIsClosedGap | timeline.js:156-162 | the splice followed by the shifting loop gives exactly `ClosedGap` |
| TimelineEngine.Timeline.ShiftClipsLeft | timeline.js:159-162 | the loop moves every clip from the given index on left by the given length and leaves the others as they were |
| TimelineEngine.Timeline.SelectClip | timeline.js:181-185 | the selection becomes the given id |
| TimelineEngine.Timeline.DeselectClip | timeline.js:187-191 | the selection is cleared |
| TimelineEngine.Timeline.ToggleSelection | timeline.js:229-233 | clicking a clip deselects it when it is selected and selects it otherwise |
| TimelineEngine.Timeline.ClickOutsideClips | timeline.js:234-237 | clicking outside every clip moves the playhead to the clicked time and clears the selection |
| TimelineEngine.Timeline.GetOpacityAtTime | timeline.js:564-603 | the scan over adjacent pairs returns `OpacityAt` of the clips |
| TimelineEngine.Timeline.GetActiveSegments | timeline.js:193-203 | the clips are sorted in place (a permutation sorted by start) and the segments are the sorted clips without their ids, in that order |
| TimelineEngine.Timeline.StartDraggingClip | timeline.js:316-336 | starts a drag that records the clip's range, or does nothing when the id is absent |
| TimelineEngine.Timeline.DragClip | timeline.js:338-379 | the dragged clip gets the clamped and snapped range; its id and length are kept; no other clip changes; the moved flag is raised when the mouse left the dead zone |
| TimelineEngine.Timeline.ApplySnapping | timeline.js:510-555 | returns `SnapRange` over the other clips' edges, the playhead, 0 and the duration |
| TimelineEngine.Timeline.CollectSnapPoints | timeline.js:511-528 | the snap points are the other clips' starts and ends in list order, then the playhead, 0 and the duration |
| TimelineEngine.Timeline.StopDraggingClip | timeline.js:381-410 | a drag that never moved toggles the selection and saves nothing; a moved drag sorts, resolves the crossfades and saves one entry, leaving the history at rest |
| TimelineEngine.Timeline.StartResizingClip | timeline.js:412-428 | starts a resize that records the clip's range and edge, or does nothing when the id is absent |
| TimelineEngine.Timeline.ResizeClip | timeline.js:430-461 | only the chosen edge of the resized clip changes, to `ResizedStart` or `ResizedEnd`; id, other edge and other clips are unchanged |
| TimelineEngine.Timeline.StopResizingClip | timeline.js:463-480 | sorts, resolves the crossfades and saves one entry, leaving the history at rest |
| TimelineEngine.Timeline.Commit | timeline.js:398-404 | the clips become `Resolved(SortByStart(old))`, sorted with fades matching overlaps, and the saved history is at rest |
| FilterGraph.Digit | app.js:273 | a digit character for a number below 10 |
| FilterGraph.NatStr | app.js:273-274 | an index prints as a non-empty string of decimal digits without a leading zero |
| FilterGraph.NatStrRoundTrip | app.js:273-274 | reading the printed index back as decimal gives the index |
| FilterGraph.NatStrInjective | app.js:273-274 | different indices print differently |
| FilterGraph.LabelInjective | app.js:273-274 | `[v{i}]` and `[v{j}]` are equal only when i == j |
| FilterGraph.LabelsOfStreamsDiffer | app.js:325-339 | labels of different streams (`v`, `a`, `vx`, `ax`) never clash |
| FilterGraph.ChainLabelsDistinct | app.js:305-343 | the running chain labels of one stream are pairwise distinct |
| FilterGraph.TrimAll | app.js:268-276 | the `forEach` loop emits one trim part per segment in index order |
| FilterGraph.InputsHoldEveryLabel | app.js:279-280 | every segment's label appears in the concat input list, in index order |
| FilterGraph.CreateSimpleFilterString | app.js:264-288 | the result is the trim parts followed by the concat part, joined with the empty string |
| FilterGraph.SimpleGraphShape | app.js:268-287 | the simple graph has one part per segment plus the concat part; part i ends by writing `[ai]`, and the concat part opens with `[v0]`..`[v(n-1)]` and `concat=n=` followed by the number of segments, and ends with `[outa]` |
| FilterGraph.TransitionLength | app.js:313-316 | the transition length is the minimum of the previous fade-out and the current fade-in |
| FilterGraph.StepParts | app.js:318-344 | step i emits two parts (`xfade` and `acrossfade`) when the transition length is positive, otherwise one two-input concat part |
| FilterGraph.AppendStep | app.js:309-344 | one loop pass appends exactly the parts of step i |
| FilterGraph.ChainSteps | app.js:305-345 | the loop appends the parts of steps 1 .. n-1 and ends holding the chain labels of the last segment |
| FilterGraph.CreateCrossfadeFilterString | app.js:290-354 | the result is the trim parts, the step parts and the final copy part, joined with `;` |
| FilterGraph.StepsCount | app.js:308-345 | steps 1 .. k-1 emit one part each plus one more per faded step |
| FilterGraph.CrossfadePartCount | app.js:290-354 | the crossfade graph has n + (n - 1) + (number of faded steps) + 1 parts, i.e. n + 2·faded + unfaded + 1 |
| FilterGraph.ChainIsLinked | app.js:305-351 | step i's first part opens by reading the video chain label step i - 1 wrote plus segment i's video label, and its last part ends by writing step i's audio chain label |
| FilterGraph.StepLinksBothStreams | app.js:318-344 | the other halves: with a transition the `xfade` part ends by writing step i's video chain label and the `acrossfade` part opens by reading step i - 1's audio chain label plus segment i's audio label; without one the concat part writes the video chain label and then reads the audio chain label and segment i's audio label |
| FilterGraph.HasCrossfade | app.js:253 | true exactly when some segment has a positive fade-in or fade-out |
| FilterGraph.CreateFilterString | app.js:251-262 | the simple graph is chosen when no segment fades or there is exactly one segment, the crossfade graph otherwise |
| FilterGraph.ExportTransitionsMatchOverlaps | app.js:313-318 | for resolved clips each exported transition length is the overlap of the two clips, positive exactly when they overlap |
| FilterGraph.ResolvedHasCrossfadeIffOverlap | app.js:253 | for resolved clips the crossfade graph is considered exactly when two adjacent clips overlap |
| FilterGraph.XfadeOffsetUsesPreviousSegmentOnly | app.js:320-322 | the `xfade` offset is the previous segment's own length less the transition, not the length of the chain built so far (three 10 s segments give offset 8 twice) |

## Left out

- DOM and rendering: `initElements`, `initEventListeners`, `resizeCanvas`, `render`, `drawWaveform` (canvas and `Math.random`), `updateRuler`, `updateClipCount`, `updatePlayhead`, `formatTime`, the delete button's `disabled` flag, and cursor and `userSelect` styling. None of them changes the modelled state.
- Mouse hit-testing in `handleTimelineClick` and `handleTimelineSectionClick`, and the pixel-to-time conversion and 5-pixel dead zone of the drag and resize handlers. Their effects on state are the methods `ToggleSelection` and `ClickOutsideClips`, the `deltaTime` parameters and the `moved` flag.
- Playhead dragging (`startDraggingPlayhead`, `dragPlayhead`, `stopDraggingPlayhead`) and `handleKeyDown`: they only set `currentTime` from a pixel position or call `undo`/`redo`.
- `toFixed(3)`: decimal formatting of doubles is the opaque parameter `fmt`. The model checks the graph's structure, not the digits printed.
- IEEE-754 arithmetic: times are exact reals. Length preservation under drag and delete is exact here but only approximate in JavaScript, and NaN fades from `|| 0` are not modelled.
- The second scan of `getOpacityAtTime` (timeline.js:596-602) returns 1 on both of its paths, so `GetOpacityAtTime` returns 1 after the pair scan without it.
- `isTimeInClip` is a single `some` and is modelled by the function `Preview.InAnyClip` only, with no class method.
- The JSON deep copies of `saveState` and `restoreState`: snapshots are values, so no snapshot can alias the live clip list.
- The sort is modelled as a stable insertion sort on sequences. The in-place array sort of JavaScript is not modelled as an array algorithm.
- TimelineEngine.Timeline.Valid: the id counter is not monotone, since `restoreState` puts an earlier counter back. The invariant proved instead is that every id is below the counter and all ids are distinct, in the present and in every snapshot.
- `app.js` outside the three builders, and `copy-ffmpeg-files.js`: FFmpeg loading, processing and download, file input, playback, key handling and status text are asynchronous I/O with no state of the model.
