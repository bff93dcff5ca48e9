/**
 * The tasks of package `time.simple`, which measure time by adding up the
 * delta (in seconds) that each execute call receives: SimpleTimeTask
 * processes on every tick, SimpleWaitTimeTask once the accumulated time
 * reaches its wait time (and then finishes), SimpleRepeatTimeTask once its
 * delay is reached, on a tick when the clock time since its last run is 0
 * (no run recorded, or the same reading) or at least a period.
 */
module SimpleTime {
  import opened Tasks

  /** SimpleWaitTimeTask.resolveProcess. */
  function WaitGate(waitTime: real, s: TaskState): (g: Gate)
    ensures g.process <==> s.timePassed >= waitTime
    ensures g.state.finished <==> s.finished || g.process
    ensures g.state.(finished := s.finished) == s
  {
    if s.timePassed >= waitTime then Gate(true, s.(finished := true)) else Gate(false, s)
  }

  /** The nanoseconds since the last processing tick; 0 when there was none. */
  function SinceLastExecution(s: TaskState, now: nat): int
  {
    if s.lastExecution > 0 then now - s.lastExecution else 0
  }

  /**
   * SimpleRepeatTimeTask.resolveProcess: once the accumulated time reaches
   * the delay, process when the clock time since the last run is 0 (a
   * recorded reading of 0 counts as no run) or at least a period, and
   * remember when.
   */
  function RepeatGate(delay: real, periodNs: int, s: TaskState, now: nat): (g: Gate)
    ensures g.process <==> s.timePassed >= delay && (SinceLastExecution(s, now) == 0 || SinceLastExecution(s, now) >= periodNs)
    ensures g.state.lastExecution == if g.process then now else s.lastExecution
    ensures g.state.timeSinceLastExecution == if s.timePassed >= delay then SinceLastExecution(s, now) else s.timeSinceLastExecution
    ensures g.state.(lastExecution := s.lastExecution, timeSinceLastExecution := s.timeSinceLastExecution) == s
  {
    if s.timePassed >= delay then
      var since := SinceLastExecution(s, now);
      var s1 := s.(timeSinceLastExecution := since);
      if since == 0 || since >= periodNs then Gate(true, s1.(lastExecution := now)) else Gate(false, s1)
    else
      Gate(false, s)
  }

  /** resolveProcess of the three simple kinds; SimpleTimeTask's own always processes. */
  function ResolveProcess(kind: Kind, s: TaskState, now: nat): Gate
    requires kind.IsSimpleTime()
  {
    match kind
    case SimpleWait(waitTime) => WaitGate(waitTime, s)
    case SimpleRepeat(delay, periodNs) => RepeatGate(delay, periodNs, s, now)
    case SimpleTime => Gate(true, s)
  }

  /** SimpleTimeTask.doExecute: accumulate the delta, then doProcess(delta) if the gate opens. */
  function SimpleStep(kind: Kind, s: TaskState, delta: real, now: nat, w: UserStep): (e: Effect)
    requires kind.IsSimpleTime()
    ensures e.state.timePassed == s.timePassed + delta
    ensures e.state.processCalls == s.processCalls + (if ResolveProcess(kind, s.(timePassed := s.timePassed + delta), now).process then 1 else 0)
    ensures e.state.processCalls > s.processCalls ==> e.state.lastProcessDelta == delta
    ensures e.failed ==> w.processFails
    ensures e.now == now + (if e.state.processCalls > s.processCalls then w.cost else 0)
    ensures e.state.error == s.error && e.state.timesProcessed == s.timesProcessed
  {
    var g := ResolveProcess(kind, s.(timePassed := s.timePassed + delta), now);
    if g.process then ProcessTimed(g.state, delta, now, w) else Effect(g.state, false, now)
  }

  /** SimpleTimeTask.reset, with SimpleRepeatTimeTask's extra clearing of lastExecution. */
  function ResetSimple(kind: Kind, s: TaskState): (r: TaskState)
    requires kind.IsSimpleTime()
    ensures r.error == None && r.timePassed == 0.0 && !r.finished
    ensures r.lastExecution == if kind.SimpleRepeat? then 0 else s.lastExecution
    ensures r.processCalls == s.processCalls && r.timeSinceLastExecution == s.timeSinceLastExecution
  {
    var r := ResetError(s).(timePassed := 0.0, finished := false);
    if kind.SimpleRepeat? then r.(lastExecution := 0) else r
  }

  method ResolveWait(t: Task) returns (process: bool)
    requires t.kind.SimpleWait?
    modifies t`state
    ensures Gate(process, t.state) == WaitGate(t.kind.waitTime, old(t.state))
  {
    process := false;
    if t.state.timePassed >= t.kind.waitTime {
      process := true;
      t.SetFinished(true);
    }
  }

  method ResolveRepeat(t: Task, clock: Clock) returns (process: bool)
    requires t.kind.SimpleRepeat?
    modifies t`state
    ensures Gate(process, t.state) == RepeatGate(t.kind.delay, t.kind.periodNs, old(t.state), clock.now)
  {
    process := false;
    if t.state.timePassed >= t.kind.delay {
      t.state := t.state.(timeSinceLastExecution := if t.state.lastExecution > 0 then clock.now - t.state.lastExecution else 0);
      if t.state.timeSinceLastExecution == 0 || t.state.timeSinceLastExecution >= t.kind.periodNs {
        process := true;
        t.state := t.state.(lastExecution := clock.now);
      }
    }
  }

  method ResolveProcessTask(t: Task, clock: Clock) returns (process: bool)
    requires t.kind.IsSimpleTime()
    modifies t`state
    ensures Gate(process, t.state) == ResolveProcess(t.kind, old(t.state), clock.now)
  {
    match t.kind
    case SimpleWait(_) =>
      process := ResolveWait(t);
    case SimpleRepeat(_, _) =>
      process := ResolveRepeat(t, clock);
    case SimpleTime =>
      process := true;
  }

  method DoExecute(t: Task, delta: real, clock: Clock, w: UserStep) returns (failed: bool)
    requires t.kind.IsSimpleTime()
    modifies t`state, clock
    ensures Effect(t.state, failed, clock.now) == SimpleStep(t.kind, old(t.state), delta, old(clock.now), w)
  {
    t.state := t.state.(timePassed := t.state.timePassed + delta);
    var process := ResolveProcessTask(t, clock);
    if process {
      failed := t.DoProcessTimed(delta, clock, w);
    } else {
      failed := false;
    }
  }

  method Reset(t: Task)
    requires t.kind.IsSimpleTime()
    modifies t`state
    ensures t.state == ResetSimple(t.kind, old(t.state))
  {
    t.ResetAbstract();
    t.state := t.state.(timePassed := 0.0);
    t.SetFinished(false);
    if t.kind.SimpleRepeat? {
      t.state := t.state.(lastExecution := 0);
    }
  }
}
