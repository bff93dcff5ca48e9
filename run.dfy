/**
 * The run-count tasks of package `run`: SingleRunTask (processes once, then
 * finishes from its own afterProcess), MultipleRunTask (counts and processes
 * on every tick until told to stop) and MaxRunTask (a MultipleRunTask that
 * finishes itself once the count reaches its limit).
 *
 * Each operation is a pure step on `TaskState` and a method on a `Task`
 * proved to perform exactly that step.
 */
module Run {
  import opened Tasks

  /** MultipleRunTask.doExecute: count the run, then the user's doProcess. */
  function MultipleRunStep(s: TaskState, now: nat, w: UserStep): (e: Effect)
    ensures e.state.timesProcessed == s.timesProcessed + 1
    ensures e.state.processCalls == s.processCalls + 1
    ensures e.state.finished == s.finished
    ensures e.failed == w.processFails
  {
    Process(s.(timesProcessed := s.timesProcessed + 1), now, w)
  }

  /**
   * MaxRunTask.doExecute: the MultipleRunTask step, then finish once the count
   * reaches `timesToRun`; a failing doProcess skips that check.
   */
  function MaxRunStep(timesToRun: int, s: TaskState, now: nat, w: UserStep): (e: Effect)
    ensures e.state.timesProcessed == s.timesProcessed + 1
    ensures e.state.processCalls == s.processCalls + 1
    ensures e.state.finished <==> s.finished || (!w.processFails && s.timesProcessed + 1 >= timesToRun)
    ensures e.failed == w.processFails
  {
    var e := MultipleRunStep(s, now, w);
    if !e.failed && e.state.timesProcessed >= timesToRun then e.(state := e.state.(finished := true)) else e
  }

  /** SingleRunTask.doExecute: only the user's doProcess. */
  function SingleRunStep(s: TaskState, now: nat, w: UserStep): Effect
  {
    Process(s, now, w)
  }

  /** SingleRunTask.afterProcess: the task marks itself finished. */
  function SingleRunAfter(s: TaskState): TaskState
  {
    s.(finished := true)
  }

  /** MultipleRunTask.reset (also MaxRunTask's): error, count and finished flag cleared. */
  function ResetRunCount(s: TaskState): (r: TaskState)
    ensures r.error == None && r.timesProcessed == 0 && !r.finished
    ensures r.processCalls == s.processCalls && r.errorCalls == s.errorCalls
  {
    ResetError(s).(timesProcessed := 0, finished := false)
  }

  method DoExecuteMultipleRun(t: Task, clock: Clock, w: UserStep) returns (failed: bool)
    requires t.kind.MultipleRun? || t.kind.MaxRun?
    modifies t`state, clock
    ensures Effect(t.state, failed, clock.now) == MultipleRunStep(old(t.state), old(clock.now), w)
  {
    t.state := t.state.(timesProcessed := t.state.timesProcessed + 1);
    failed := t.DoProcess(clock, w);
  }

  method DoExecuteMaxRun(t: Task, clock: Clock, w: UserStep) returns (failed: bool)
    requires t.kind.MaxRun?
    modifies t`state, clock
    ensures Effect(t.state, failed, clock.now) == MaxRunStep(t.kind.timesToRun, old(t.state), old(clock.now), w)
  {
    failed := DoExecuteMultipleRun(t, clock, w);
    if failed {
      return;
    }
    if t.state.timesProcessed >= t.kind.timesToRun {
      t.SetFinished(true);
    }
  }

  method DoExecuteSingleRun(t: Task, clock: Clock, w: UserStep) returns (failed: bool)
    requires t.kind.SingleRun?
    modifies t`state, clock
    ensures Effect(t.state, failed, clock.now) == SingleRunStep(old(t.state), old(clock.now), w)
  {
    failed := t.DoProcess(clock, w);
  }

  method AfterProcessSingleRun(t: Task)
    requires t.kind.SingleRun?
    modifies t`state
    ensures t.state == SingleRunAfter(old(t.state))
  {
    t.SetFinished(true);
  }

  method ResetMultipleRun(t: Task)
    requires t.kind.MultipleRun? || t.kind.MaxRun?
    modifies t`state
    ensures t.state == ResetRunCount(old(t.state))
  {
    t.ResetAbstract();
    t.state := t.state.(timesProcessed := 0);
    t.SetFinished(false);
  }
}
