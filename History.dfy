/**
 * The persona history of src/services/workflow.service.ts as a value: the
 * snapshot stack and the cursor into it, with the transitions the service
 * performs on them. The service class in Workflow.dfy is proved against
 * these functions.
 */
module History {
  import opened Options
  import opened WorkflowTypes

  datatype History = History(stack: seq<PersonaState>, cursor: int)

  /** The cursor designates a snapshot. */
  predicate Valid(h: History) {
    0 <= h.cursor < |h.stack|
  }

  /** `state()`: the snapshot under the cursor, or the empty snapshot when the cursor is out of range. */
  function Current(h: History): (r: PersonaState)
    ensures Valid(h) ==> r == h.stack[h.cursor]
    ensures !Valid(h) ==> r == EmptyState()
  {
    if 0 <= h.cursor && h.cursor < |h.stack| then h.stack[h.cursor] else EmptyState()
  }

  /** `Array.prototype.slice(0, end)`: a negative end counts from the back, and both ends are clamped. */
  function SliceTo<T>(s: seq<T>, end: int): (r: seq<T>)
    ensures 0 <= end <= |s| ==> r == s[..end]
    ensures end > |s| ==> r == s
    ensures end < 0 && |s| + end >= 0 ==> r == s[..|s| + end]
    ensures |s| + end < 0 ==> r == []
  {
    var e := if end < 0 then (if |s| + end < 0 then 0 else |s| + end) else if end > |s| then |s| else end;
    s[..e]
  }

  /**
   * `pushState(p)`: merge `p` into the current snapshot, cut the stack just
   * after the cursor and push the merged snapshot, which becomes current.
   */
  function Push(h: History, p: Patch): (r: History)
    ensures Valid(r) && r.cursor == |r.stack| - 1
    ensures Current(r) == Merge(Current(h), p)
    ensures -1 <= h.cursor < |h.stack| ==>
      r.stack == h.stack[..h.cursor + 1] + [Merge(Current(h), p)] && r.cursor == h.cursor + 1
  {
    var merged := Merge(Current(h), p);
    var kept := SliceTo(h.stack, h.cursor + 1);
    History(kept + [merged], |kept|)
  }

  /** `undo()`: step the cursor back, but never below the first snapshot. */
  function Undo(h: History): (r: History)
    ensures r.stack == h.stack
    ensures h.cursor > 0 ==> r.cursor == h.cursor - 1
    ensures h.cursor <= 0 ==> r == h
  {
    if h.cursor > 0 then History(h.stack, h.cursor - 1) else h
  }

  /** `redo()` as the source writes it: below the top it moves the cursor DOWN. */
  function RedoAsWritten(h: History): (r: History)
    ensures r.stack == h.stack
    ensures h.cursor < |h.stack| - 1 ==> r.cursor == h.cursor - 1
    ensures h.cursor >= |h.stack| - 1 ==> r == h
  {
    if h.cursor < |h.stack| - 1 then History(h.stack, h.cursor - 1) else h
  }

  /** `redo()` as evidently intended: step forward again towards the newest snapshot. */
  function Redo(h: History): (r: History)
    ensures r.stack == h.stack
    ensures h.cursor < |h.stack| - 1 ==> r.cursor == h.cursor + 1
    ensures h.cursor >= |h.stack| - 1 ==> r == h
  {
    if h.cursor < |h.stack| - 1 then History(h.stack, h.cursor + 1) else h
  }

  function StepPatch(s: PipelineStep): Patch {
    NoChange.(step := Some(s))
  }

  /** `setStep(s)`: push a snapshot that only changes the step, unless the step is already `s`. */
  function SetStep(h: History, s: PipelineStep): (r: History)
    ensures Current(r).step == s
    ensures Current(h).step == s ==> r == h
    ensures Current(h).step != s ==> Current(r) == Current(h).(step := s)
    ensures Current(h).step != s && -1 <= h.cursor < |h.stack| ==>
      r.stack == h.stack[..h.cursor + 1] + [Current(h).(step := s)] && r.cursor == h.cursor + 1
    ensures Current(h).step != s && Valid(h) && h.cursor == |h.stack| - 1 ==>
      r.stack == h.stack + [Current(h).(step := s)]
  {
    if Current(h).step != s then Push(h, StepPatch(s)) else h
  }

  /** `reset()`: a one-snapshot history holding the empty snapshot. */
  function Reset(): (r: History)
    ensures Valid(r) && |r.stack| == 1 && Current(r) == EmptyState()
  {
    History([EmptyState()], 0)
  }

  /** `initDirectorMode(d)`: a one-snapshot history starting the director with draft `d`. */
  function InitDirector(d: string): (r: History)
    ensures Valid(r) && |r.stack| == 1
    ensures Current(r) == EmptyState().(currentDraft := d, step := RefineDirector)
  {
    History([EmptyState().(currentDraft := d, step := RefineDirector)], 0)
  }

  lemma UndoKeepsValid(h: History)
    requires Valid(h)
    ensures Valid(Undo(h))
  {
  }

  lemma RedoKeepsValid(h: History)
    requires Valid(h)
    ensures Valid(Redo(h))
  {
  }

  /** Undo right after a push returns to the snapshot the push started from. */
  lemma UndoAfterPush(h: History, p: Patch)
    requires Valid(h)
    ensures Current(Undo(Push(h, p))) == Current(h)
    ensures Undo(Push(h, p)).stack == h.stack[..h.cursor + 1] + [Merge(Current(h), p)]
  {
  }

  /** The intended redo undoes an undo. */
  lemma RedoAfterUndo(h: History)
    requires Valid(h) && h.cursor > 0
    ensures Redo(Undo(h)) == h
  {
  }

  /**
   * The redo as written does not reverse an undo: after one push on a fresh
   * history, undo then redo leaves the cursor at -1, where `state()` shows
   * the empty snapshot instead of the pushed one.
   */
  lemma RedoAsWrittenLosesState()
    ensures
      var h := Push(Reset(), StepPatch(Check));
      var back := RedoAsWritten(Undo(h));
      back.cursor == -1 && !Valid(back) && Current(back) == EmptyState() && Current(h) != EmptyState()
  {
  }

  /** An operation the service exposes on its history. */
  datatype Op = PushOp(p: Patch) | UndoOp | RedoOp | SetStepOp(s: PipelineStep) | ResetOp | InitDirectorOp(d: string)

  function Apply(h: History, op: Op): History {
    match op
    case PushOp(p) => Push(h, p)
    case UndoOp => Undo(h)
    case RedoOp => Redo(h)
    case SetStepOp(s) => SetStep(h, s)
    case ResetOp => Reset()
    case InitDirectorOp(d) => InitDirector(d)
  }

  function Run(h: History, ops: seq<Op>): History
    decreases |ops|
  {
    if ops == [] then h else Run(Apply(h, ops[0]), ops[1..])
  }

  /**
   * With the intended redo, every sequence of operations from a valid
   * history keeps the cursor on a snapshot, so `state()` never falls back to
   * the empty snapshot while the stack is non-empty.
   */
  lemma {:induction false} RunKeepsValid(h: History, ops: seq<Op>)
    requires Valid(h)
    ensures Valid(Run(h, ops))
    decreases |ops|
  {
    if ops != [] {
      match ops[0] {
        case UndoOp => UndoKeepsValid(h);
        case RedoOp => RedoKeepsValid(h);
        case _ =>
      }
      RunKeepsValid(Apply(h, ops[0]), ops[1..]);
    }
  }

  /** The auto-save condition: more than one snapshot, or a first snapshot holding chat messages. */
  predicate ShouldPersist(stack: seq<PersonaState>) {
    |stack| > 1 || (|stack| > 0 && |stack[0].vibeMessages| > 0)
  }

  /**
   * The auto-save fires only once there is progress: a fresh session, or a
   * director session that has not moved yet, is not saved, and any push from
   * a snapshot the cursor designates is.
   */
  lemma AutoSaveOnlyWithProgress(h: History, p: Patch, d: string)
    requires Valid(h)
    ensures !ShouldPersist(Reset().stack)
    ensures !ShouldPersist(InitDirector(d).stack)
    ensures ShouldPersist(Push(h, p).stack)
    ensures ShouldPersist(h.stack) ==> ShouldPersist(Undo(h).stack) && ShouldPersist(Redo(h).stack)
  {
  }

  /**
   * What the stored session record turned out to be: missing; text whose
   * parse or destructuring throws (not JSON, or the JSON `null`); or JSON
   * whose `history` is (`Some`) or is not an array and whose `index` is
   * (`Some`) or is not a number.
   */
  datatype StoredSession =
    | Absent
    | Unparseable
    | Parsed(history: Option<seq<PersonaState>>, index: Option<int>)

  /** The record the auto-save writes for a history. */
  function Saved(h: History): StoredSession {
    Parsed(Some(h.stack), Some(h.cursor))
  }

  /** Whether a stored record passes the restore validation. */
  predicate Restorable(s: StoredSession) {
    s.Parsed? && s.history.Some? && |s.history.value| > 0 && s.index.Some?
  }

  /**
   * `loadState()`: a record that passes validation becomes the history as
   * stored; anything else starts a fresh session. Only a record whose parse
   * or destructuring throws is removed from storage (`discard`).
   */
  function Restore(s: StoredSession): (r: (History, bool))
    ensures Restorable(s) ==> r.0 == History(s.history.value, s.index.value)
    ensures !Restorable(s) ==> r.0 == Reset()
    ensures r.1 <==> s.Unparseable?
  {
    var discard := s.Unparseable?;
    if s.Parsed? && s.history.Some? && |s.history.value| > 0 && s.index.Some? then
      (History(s.history.value, s.index.value), discard)
    else
      (Reset(), discard)
  }

  /** Every history the auto-save writes is restored exactly, and its record is kept. */
  lemma SaveRestoreRoundTrip(h: History)
    requires ShouldPersist(h.stack)
    ensures Restore(Saved(h)) == (h, false)
  {
  }

  /** Twelve hours, in milliseconds. */
  const COOLDOWN_MS: int := 1000 * 60 * 60 * 12

  /**
   * The daily-inspiration refresh condition: no timestamp was stored, or
   * more than the cooldown has passed since it.
   */
  predicate NeedsDailyRefresh(lastFetch: Option<int>, now: int) {
    lastFetch.None? || now - lastFetch.value > COOLDOWN_MS
  }

  /** Within twelve hours of a fetch there is no refresh; once one is due it stays due. */
  lemma DailyRefreshWindow(last: int, now: int, later: int)
    requires now <= later
    ensures now - last <= 43200000 ==> !NeedsDailyRefresh(Some(last), now)
    ensures NeedsDailyRefresh(Some(last), now) ==> NeedsDailyRefresh(Some(last), later)
  {
  }
}
