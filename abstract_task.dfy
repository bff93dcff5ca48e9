/**
 * AbstractTask: the template every run-count and time-gated task executes
 * through. `execute` runs beforeProcess, the variant's doExecute and
 * afterProcess; the first of them that throws ends the tick, its failure is
 * stored as the task's error and handed to onError, and nothing propagates to
 * the caller.
 */
module AbstractTask {
  import opened Tasks
  import Run
  import SimpleTime
  import PreciseTime

  /** doExecute of the concrete class `kind`. */
  function DoExecuteStep(kind: Kind, s: TaskState, delta: real, now: nat, w: UserStep): (e: Effect)
    requires kind.IsLeaf()
    ensures e.failed ==> w.processFails
    ensures e.state.error == s.error && e.state.errorCalls == s.errorCalls
    ensures e.now >= now
  {
    match kind
    case SingleRun => Run.SingleRunStep(s, now, w)
    case MultipleRun => Run.MultipleRunStep(s, now, w)
    case MaxRun(timesToRun) => Run.MaxRunStep(timesToRun, s, now, w)
    case SimpleTime => SimpleTime.SimpleStep(kind, s, delta, now, w)
    case SimpleWait(_) => SimpleTime.SimpleStep(kind, s, delta, now, w)
    case SimpleRepeat(_, _) => SimpleTime.SimpleStep(kind, s, delta, now, w)
    case PreciseTime => PreciseTime.PreciseStep(kind, s, delta, now, w)
    case PreciseWait(_) => PreciseTime.PreciseStep(kind, s, delta, now, w)
    case PreciseMax(_) => PreciseTime.PreciseStep(kind, s, delta, now, w)
    case PreciseRepeat(_, _) => PreciseTime.PreciseStep(kind, s, delta, now, w)
  }

  /**
   * Whether afterProcess throws: SingleRunTask's afterProcess is the
   * library's own and only sets the finished flag.
   */
  predicate AfterFails(kind: Kind, w: UserStep)
  {
    w.afterFails && !kind.SingleRun?
  }

  /** The catch block: store the failure and call onError once. */
  function Capture(s: TaskState, hook: Hook, now: nat): Effect
  {
    Effect(s.(error := Some(hook), errorCalls := s.errorCalls + 1), true, now)
  }

  /**
   * AbstractTask.execute. `failed` of the result says whether a failure was
   * captured; the caller never sees it as an exception.
   */
  function Tick(kind: Kind, s: TaskState, delta: real, now: nat, w: UserStep): (e: Effect)
    requires kind.IsLeaf()
    // a failing beforeProcess ends the tick before anything else runs
    ensures w.beforeFails ==> e.state == s.(error := Some(BeforeProcess), errorCalls := s.errorCalls + 1) && e.now == now
    // otherwise doExecute runs, and its outcome decides whether afterProcess runs
    ensures !w.beforeFails ==>
      var d := DoExecuteStep(kind, s, delta, now, w);
      && e.now == d.now
      && (d.failed ==> e.state == d.state.(error := Some(WorkStep), errorCalls := s.errorCalls + 1))
      && (!d.failed && AfterFails(kind, w) ==> e.state == d.state.(error := Some(AfterProcess), errorCalls := s.errorCalls + 1))
      && (!d.failed && !AfterFails(kind, w) ==> e.state == if kind.SingleRun? then Run.SingleRunAfter(d.state) else d.state)
    // onError runs exactly once per captured failure, which is then the stored error
    ensures e.failed <==> e.state.errorCalls == s.errorCalls + 1
    ensures !e.failed ==> e.state.errorCalls == s.errorCalls
    ensures e.failed ==> e.state.error.Some?
    // a tick without failure leaves a previously stored error in place
    ensures !e.failed ==> e.state.error == s.error
    ensures e.now >= now
  {
    if w.beforeFails then Capture(s, BeforeProcess, now)
    else
      var d := DoExecuteStep(kind, s, delta, now, w);
      if d.failed then Capture(d.state, WorkStep, d.now)
      else if AfterFails(kind, w) then Capture(d.state, AfterProcess, d.now)
      else if kind.SingleRun? then Effect(Run.SingleRunAfter(d.state), false, d.now)
      else d
  }

  /** reset of the concrete class `kind`; SingleRunTask inherits AbstractTask's. */
  function ResetLeaf(kind: Kind, s: TaskState): (r: TaskState)
    requires kind.IsLeaf()
    ensures r.error == None
    ensures !kind.SingleRun? ==> !r.finished
    ensures kind.SingleRun? ==> r == s.(error := None)
    ensures r.processCalls == s.processCalls && r.errorCalls == s.errorCalls
  {
    match kind
    case SingleRun => ResetError(s)
    case MultipleRun => Run.ResetRunCount(s)
    case MaxRun(_) => Run.ResetRunCount(s)
    case SimpleTime => SimpleTime.ResetSimple(kind, s)
    case SimpleWait(_) => SimpleTime.ResetSimple(kind, s)
    case SimpleRepeat(_, _) => SimpleTime.ResetSimple(kind, s)
    case PreciseTime => PreciseTime.ResetPrecise(kind, s)
    case PreciseWait(_) => PreciseTime.ResetPrecise(kind, s)
    case PreciseMax(_) => PreciseTime.ResetPrecise(kind, s)
    case PreciseRepeat(_, _) => PreciseTime.ResetPrecise(kind, s)
  }

  method DoExecute(t: Task, delta: real, clock: Clock, w: UserStep) returns (failed: bool)
    requires t.kind.IsLeaf()
    modifies t`state, clock
    ensures Effect(t.state, failed, clock.now) == DoExecuteStep(t.kind, old(t.state), delta, old(clock.now), w)
  {
    match t.kind
    case SingleRun =>
      failed := Run.DoExecuteSingleRun(t, clock, w);
    case MultipleRun =>
      failed := Run.DoExecuteMultipleRun(t, clock, w);
    case MaxRun(_) =>
      failed := Run.DoExecuteMaxRun(t, clock, w);
    case SimpleTime =>
      failed := SimpleTime.DoExecute(t, delta, clock, w);
    case SimpleWait(_) =>
      failed := SimpleTime.DoExecute(t, delta, clock, w);
    case SimpleRepeat(_, _) =>
      failed := SimpleTime.DoExecute(t, delta, clock, w);
    case PreciseTime =>
      failed := PreciseTime.DoExecute(t, delta, clock, w);
    case PreciseWait(_) =>
      failed := PreciseTime.DoExecute(t, delta, clock, w);
    case PreciseMax(_) =>
      failed := PreciseTime.DoExecute(t, delta, clock, w);
    case PreciseRepeat(_, _) =>
      failed := PreciseTime.DoExecute(t, delta, clock, w);
  }

  /** The catch block of execute: the error field, then onError. */
  method CaptureFailure(t: Task, hook: Hook)
    modifies t`state
    ensures t.state == Capture(old(t.state), hook, 0).state
  {
    t.state := t.state.(error := Some(hook));
    t.state := t.state.(errorCalls := t.state.errorCalls + 1);
  }

  method Execute(t: Task, delta: real, clock: Clock, w: UserStep)
    requires t.kind.IsLeaf()
    modifies t`state, clock
    ensures t.state == Tick(t.kind, old(t.state), delta, old(clock.now), w).state
    ensures clock.now == Tick(t.kind, old(t.state), delta, old(clock.now), w).now
  {
    if w.beforeFails {
      CaptureFailure(t, BeforeProcess);
      return;
    }
    var failed := DoExecute(t, delta, clock, w);
    if failed {
      CaptureFailure(t, WorkStep);
      return;
    }
    if AfterFails(t.kind, w) {
      CaptureFailure(t, AfterProcess);
      return;
    }
    if t.kind.SingleRun? {
      Run.AfterProcessSingleRun(t);
    }
  }

  method Reset(t: Task)
    requires t.kind.IsLeaf()
    modifies t`state
    ensures t.state == ResetLeaf(t.kind, old(t.state))
  {
    match t.kind
    case SingleRun =>
      t.ResetAbstract();
    case MultipleRun =>
      Run.ResetMultipleRun(t);
    case MaxRun(_) =>
      Run.ResetMultipleRun(t);
    case SimpleTime =>
      SimpleTime.Reset(t);
    case SimpleWait(_) =>
      SimpleTime.Reset(t);
    case SimpleRepeat(_, _) =>
      SimpleTime.Reset(t);
    case PreciseTime =>
      PreciseTime.Reset(t);
    case PreciseWait(_) =>
      PreciseTime.Reset(t);
    case PreciseMax(_) =>
      PreciseTime.Reset(t);
    case PreciseRepeat(_, _) =>
      PreciseTime.Reset(t);
  }
}
