/** The undo/redo history of the timeline: a bounded list of snapshots with a
    cursor, saved after every committed edit and restored by undo and redo. */
module History {
  import opened Clips
  import opened Crossfade

  const MaxHistorySize: nat := 50

  /** What `saveState` copies: the clips, the id counter and the selection. */
  datatype Snapshot = Snapshot(clips: seq<Clip>, clipIdCounter: nat, selectedClipId: Option<nat>)

  /** The present document together with the history and its cursor
      (`historyIndex`, -1 before the first save). */
  datatype Undoable = Undoable(present: Snapshot, history: seq<Snapshot>, index: int)

  predicate WellFormed(u: Undoable) {
    0 <= u.index < |u.history| <= MaxHistorySize
  }

  /** Every snapshot hands out ids that clash with none of its clips. */
  predicate SnapshotsFresh(h: seq<Snapshot>) {
    forall s :: s in h ==> IdsFresh(s.clips, s.clipIdCounter)
  }

  /** `saveState()`: drop everything after the cursor, append the present,
      and when that overflows the capacity drop the oldest entry instead of
      advancing the cursor.  The cursor then sits on the new last entry,
      which is the present, and the history fits in 50 entries. */
  function AfterSave(u: Undoable): (r: Undoable)
    requires -1 <= u.index < |u.history| <= MaxHistorySize
    ensures WellFormed(r)
    ensures r.present == u.present
    ensures r.index == |r.history| - 1 && r.history[r.index] == u.present
    ensures u.index + 2 <= MaxHistorySize ==> r.history == u.history[..u.index + 1] + [u.present]
    ensures u.index + 2 > MaxHistorySize ==> r.history == u.history[1..u.index + 1] + [u.present]
  {
    var kept := u.history[..u.index + 1] + [u.present];
    if |kept| > MaxHistorySize then
      assert kept[1..] == u.history[1..u.index + 1] + [u.present];
      Undoable(u.present, kept[1..], u.index)
    else Undoable(u.present, kept, u.index + 1)
  }

  /** `restoreState(s)`: the snapshot's clips with their crossfades resolved
      again, and its counter and selection. */
  function Restored(s: Snapshot): Snapshot {
    Snapshot(Resolved(s.clips), s.clipIdCounter, s.selectedClipId)
  }

  /** `undo()`: step the cursor back and restore that entry, unless the
      cursor is already at the first entry. The history itself never changes. */
  function AfterUndo(u: Undoable): (r: Undoable)
    requires WellFormed(u)
    ensures WellFormed(r) && r.history == u.history
    ensures u.index == 0 ==> r == u
    ensures u.index > 0 ==> r.index == u.index - 1 && r.present == Restored(u.history[r.index])
  {
    if u.index > 0 then Undoable(Restored(u.history[u.index - 1]), u.history, u.index - 1) else u
  }

  /** `redo()`: step the cursor forward and restore that entry, unless the
      cursor is already at the last entry. The history itself never changes. */
  function AfterRedo(u: Undoable): (r: Undoable)
    requires WellFormed(u)
    ensures WellFormed(r) && r.history == u.history
    ensures u.index == |u.history| - 1 ==> r == u
    ensures u.index < |u.history| - 1 ==> r.index == u.index + 1 && r.present == Restored(u.history[r.index])
  {
    if u.index < |u.history| - 1 then Undoable(Restored(u.history[u.index + 1]), u.history, u.index + 1) else u
  }

  /** The present is what restoring the entry under the cursor gives: the
      state right after an undo, a redo, or a save of resolved clips. */
  predicate AtRest(u: Undoable) {
    WellFormed(u) && u.present == Restored(u.history[u.index])
  }

  /** Saving clips whose fades already match their overlaps leaves the
      history at rest. */
  lemma SaveOfResolvedIsAtRest(u: Undoable)
    requires -1 <= u.index < |u.history| <= MaxHistorySize
    requires FadesMatchOverlaps(u.present.clips)
    ensures AtRest(AfterSave(u))
  {
    ResolvedFixpoint(u.present.clips);
  }

  /** Undo then redo puts the cursor back and leaves the restored entry under
      it as the present; for a history at rest that is the present itself. */
  lemma UndoThenRedo(u: Undoable)
    requires WellFormed(u) && u.index > 0
    ensures AfterRedo(AfterUndo(u)) == u.(present := Restored(u.history[u.index]))
    ensures AtRest(u) ==> AfterRedo(AfterUndo(u)) == u
  {
  }

  /** Redo then undo puts the cursor back and leaves the restored entry under
      it as the present; for a history at rest that is the present itself. */
  lemma RedoThenUndo(u: Undoable)
    requires WellFormed(u) && u.index < |u.history| - 1
    ensures AfterUndo(AfterRedo(u)) == u.(present := Restored(u.history[u.index]))
    ensures AtRest(u) ==> AfterUndo(AfterRedo(u)) == u
  {
  }

  /** A save leaves nothing to redo: after an undo and a new edit, redo does
      nothing. */
  lemma RedoAfterSaveDoesNothing(u: Undoable)
    requires -1 <= u.index < |u.history| <= MaxHistorySize
    ensures AfterRedo(AfterSave(u)) == AfterSave(u)
  {
  }

  /** Undo right after a commit restores the entry that was under the cursor
      before it, also when the commit evicted the oldest entry. */
  lemma UndoAfterSave(u: Undoable, edited: Snapshot)
    requires WellFormed(u)
    ensures AfterUndo(AfterSave(u.(present := edited))).present == Restored(u.history[u.index])
    ensures AfterUndo(AfterSave(u.(present := edited))).history == AfterSave(u.(present := edited)).history
  {
    var r := AfterSave(u.(present := edited));
    assert r.history[r.index - 1] == u.history[u.index];
  }

  /** So an edit followed by undo gives back the state before the edit,
      whenever that state was at rest (e.g. `cut` then `undo`). */
  lemma EditThenUndoRestores(u: Undoable, edited: Snapshot)
    requires AtRest(u)
    ensures AfterUndo(AfterSave(u.(present := edited))).present == u.present
  {
    UndoAfterSave(u, edited);
  }

  /** Saving keeps every retained snapshot's ids fresh. */
  lemma SaveKeepsSnapshotsFresh(u: Undoable)
    requires -1 <= u.index < |u.history| <= MaxHistorySize
    requires SnapshotsFresh(u.history) && IdsFresh(u.present.clips, u.present.clipIdCounter)
    ensures SnapshotsFresh(AfterSave(u).history)
  {
    var h := u.history[..u.index + 1];
    assert forall s :: s in h ==> s in u.history;
  }

  /** Restoring a snapshot whose ids are fresh gives a present whose ids are fresh. */
  lemma RestoredKeepsIdsFresh(s: Snapshot)
    requires IdsFresh(s.clips, s.clipIdCounter)
    ensures IdsFresh(Restored(s).clips, Restored(s).clipIdCounter)
  {
    ResolvedKeepsIdsFresh(s.clips, s.clipIdCounter);
  }

  /** `n` commits in a row, each saving the present. */
  function SaveTimes(u: Undoable, n: nat): (r: Undoable)
    requires -1 <= u.index < |u.history| <= MaxHistorySize
    ensures -1 <= r.index < |r.history| <= MaxHistorySize
    ensures n > 0 ==> WellFormed(r)
    decreases n
  {
    if n == 0 then u else SaveTimes(AfterSave(u), n - 1)
  }

  function Min(a: int, b: int): int {
    if a < b then a else b
  }

  /** The capacity is reached and then held: starting with the cursor at the
      end, `n` commits leave min(length + n, 50) entries, so 60 commits after
      the initial save leave exactly 50. */
  lemma {:induction false} SaveTimesLength(u: Undoable, n: nat)
    requires -1 <= u.index < |u.history| <= MaxHistorySize
    requires u.index == |u.history| - 1
    ensures |SaveTimes(u, n).history| == Min(|u.history| + n, MaxHistorySize)
    ensures SaveTimes(u, n).index == |SaveTimes(u, n).history| - 1
    decreases n
  {
    if n > 0 {
      SaveTimesLength(AfterSave(u), n - 1);
    }
  }

  /** `n` undos in a row. */
  function UndoTimes(u: Undoable, n: nat): (r: Undoable)
    requires WellFormed(u)
    ensures WellFormed(r)
    decreases n
  {
    if n == 0 then u else UndoTimes(AfterUndo(u), n - 1)
  }

  /** Repeated undo walks the cursor back one entry at a time and stops at
      the oldest retained entry, restoring the entry it stops on; the history
      is never changed by it. */
  lemma {:induction false} UndoTimesReachesOldest(u: Undoable, n: nat)
    requires WellFormed(u) && 0 < n <= u.index
    ensures UndoTimes(u, n).history == u.history
    ensures UndoTimes(u, n).index == u.index - n
    ensures UndoTimes(u, n).present == Restored(u.history[u.index - n])
    decreases n
  {
    if n > 1 {
      UndoTimesReachesOldest(AfterUndo(u), n - 1);
    }
  }
}
