/**
 * The tasks of package `time.precise`, which ignore the delta they are given
 * and measure time on the monotonic clock: PreciseTimeTask processes on every
 * tick, PreciseWaitTimeTask once the measured time reaches its wait time (and
 * then finishes), PreciseMaxTimeTask on every tick until the measured time
 * reaches its maximum (and then finishes without processing), and
 * PreciseRepeatTimeTask once its delay is reached, on a tick when the clock
 * time since its last run is 0 (no run recorded, or the same reading) or at
 * least a period.
 *
 * All times here are nanoseconds of the clock.
 */
module PreciseTime {
  import opened Tasks

  /** The nanoseconds since the previous execute; 0 on the first one. */
  function SinceLastUpdate(s: TaskState, now: nat): int
  {
    if s.lastUpdate > 0 then now - s.lastUpdate else 0
  }

  /** The nanoseconds since the last processing tick of a repeat task; 0 when there was none. */
  function SinceLastExecution(s: TaskState, now: nat): int
  {
    if s.lastExecution > 0 then now - s.lastExecution else 0
  }

  /** PreciseWaitTimeTask.resolveProcess. */
  function WaitGate(waitTimeNs: int, s: TaskState): (g: Gate)
    ensures g.process <==> s.timePassedNs >= waitTimeNs
    ensures g.state.finished <==> s.finished || g.process
    ensures g.state.(finished := s.finished) == s
  {
    if s.timePassedNs >= waitTimeNs then Gate(true, s.(finished := true)) else Gate(false, s)
  }

  /** PreciseMaxTimeTask.resolveProcess: process until the maximum, then finish instead. */
  function MaxGate(maxTimeNs: int, s: TaskState): (g: Gate)
    ensures g.process <==> s.timePassedNs < maxTimeNs
    ensures g.state.finished <==> s.finished || !g.process
    ensures g.state.(finished := s.finished) == s
  {
    if s.timePassedNs >= maxTimeNs then Gate(false, s.(finished := true)) else Gate(true, s)
  }

  /**
   * PreciseRepeatTimeTask.resolveProcess: once the measured time reaches the
   * delay, process when the clock time since the last run is 0 (a recorded
   * reading of 0 counts as no run) or at least a period.
   */
  function RepeatGate(delayNs: int, periodNs: int, s: TaskState, now: nat): (g: Gate)
    ensures g.process <==> s.timePassedNs >= delayNs && (SinceLastExecution(s, now) == 0 || SinceLastExecution(s, now) >= periodNs)
    ensures g.state.lastExecution == if g.process then now else s.lastExecution
    ensures g.state.timeSinceLastExecution == if s.timePassedNs >= delayNs then SinceLastExecution(s, now) else s.timeSinceLastExecution
    ensures g.state.(lastExecution := s.lastExecution, timeSinceLastExecution := s.timeSinceLastExecution) == s
  {
    if s.timePassedNs >= delayNs then
      var since := SinceLastExecution(s, now);
      var s1 := s.(timeSinceLastExecution := since);
      if since == 0 || since >= periodNs then Gate(true, s1.(lastExecution := now)) else Gate(false, s1)
    else
      Gate(false, s)
  }

  /** resolveProcess of the four precise kinds; PreciseTimeTask's own always processes. */
  function ResolveProcess(kind: Kind, s: TaskState, now: nat): Gate
    requires kind.IsPreciseTime()
  {
    match kind
    case PreciseWait(waitTimeNs) => WaitGate(waitTimeNs, s)
    case PreciseMax(maxTimeNs) => MaxGate(maxTimeNs, s)
    case PreciseRepeat(delayNs, periodNs) => RepeatGate(delayNs, periodNs, s, now)
    case PreciseTime => Gate(true, s)
  }

  /**
   * resolveDelta: the seconds handed to doProcess. The delta given to execute
   * is ignored; a repeat task passes the time since its last run instead of
   * the time since the last tick.
   */
  function ResolveDelta(kind: Kind, s: TaskState, delta: real, sinceLastUpdate: int): real
  {
    if kind.PreciseRepeat? then s.timeSinceLastExecution as real / 1000000000.0
    else sinceLastUpdate as real / 1000000000.0
  }

  /**
   * PreciseTimeTask.doExecute: add the clock time since the last tick, run
   * the gate, doProcess if it opens, then record the clock. A failing
   * doProcess skips that last step.
   */
  function PreciseStep(kind: Kind, s: TaskState, delta: real, now: nat, w: UserStep): (e: Effect)
    requires kind.IsPreciseTime()
    ensures e.state.timePassedNs == s.timePassedNs + SinceLastUpdate(s, now)
    ensures e.state.lastUpdate == if e.failed then s.lastUpdate else e.now
    ensures e.failed ==> w.processFails
    ensures e.now == now + (if e.state.processCalls > s.processCalls then w.cost else 0)
    // doProcess runs exactly when the gate opens on the updated time
    ensures e.state.processCalls > s.processCalls
            <==> ResolveProcess(kind, s.(timePassedNs := s.timePassedNs + SinceLastUpdate(s, now)), now).process
    ensures e.state.error == s.error && e.state.timesProcessed == s.timesProcessed && e.state.timePassed == s.timePassed
  {
    var since := SinceLastUpdate(s, now);
    AfterGate(kind, ResolveProcess(kind, s.(timePassedNs := s.timePassedNs + since), now), since, delta, now, w)
  }

  /** The part of doExecute after resolveProcess answered. */
  function AfterGate(kind: Kind, g: Gate, since: int, delta: real, now: nat, w: UserStep): Effect
  {
    if g.process then
      var e := ProcessTimed(g.state, ResolveDelta(kind, g.state, delta, since), now, w);
      if e.failed then e else Effect(e.state.(lastUpdate := e.now), false, e.now)
    else
      Effect(g.state.(lastUpdate := now), false, now)
  }

  /**
   * The seconds doProcess receives: the clock time since the previous tick,
   * or for a repeat task since its previous run; the executor's delta plays
   * no part in the step.
   */
  lemma ProcessDelta(kind: Kind, s: TaskState, delta: real, other: real, now: nat, w: UserStep)
    requires kind.IsPreciseTime()
    ensures var e := PreciseStep(kind, s, delta, now, w);
      e.state.processCalls > s.processCalls ==>
        e.state.lastProcessDelta
        == (if kind.PreciseRepeat? then SinceLastExecution(s, now) else SinceLastUpdate(s, now)) as real / 1000000000.0
    ensures PreciseStep(kind, s, other, now, w) == PreciseStep(kind, s, delta, now, w)
  {
    var since := SinceLastUpdate(s, now);
    var g := ResolveProcess(kind, s.(timePassedNs := s.timePassedNs + since), now);
    if g.process && kind.PreciseRepeat? {
      assert g.state.timeSinceLastExecution == SinceLastExecution(s, now);
    }
  }

  /** PreciseTimeTask.reset, with the repeat task's extra clearing of lastExecution. */
  function ResetPrecise(kind: Kind, s: TaskState): (r: TaskState)
    requires kind.IsPreciseTime()
    ensures r.error == None && r.lastUpdate == 0 && r.timePassedNs == 0 && !r.finished
    ensures r.lastExecution == if kind.PreciseRepeat? then 0 else s.lastExecution
    ensures r.processCalls == s.processCalls && r.timeSinceLastExecution == s.timeSinceLastExecution
  {
    var r := ResetError(s).(lastUpdate := 0, timePassedNs := 0, finished := false);
    if kind.PreciseRepeat? then r.(lastExecution := 0) else r
  }

  method ResolveWait(t: Task) returns (process: bool)
    requires t.kind.PreciseWait?
    modifies t`state
    ensures Gate(process, t.state) == WaitGate(t.kind.waitTimeNs, old(t.state))
  {
    process := false;
    if t.state.timePassedNs >= t.kind.waitTimeNs {
      process := true;
      t.SetFinished(true);
    }
  }

  method ResolveMax(t: Task) returns (process: bool)
    requires t.kind.PreciseMax?
    modifies t`state
    ensures Gate(process, t.state) == MaxGate(t.kind.maxTimeNs, old(t.state))
  {
    process := true;
    if t.state.timePassedNs >= t.kind.maxTimeNs {
      process := false;
      t.SetFinished(true);
    }
  }

  method ResolveRepeat(t: Task, clock: Clock) returns (process: bool)
    requires t.kind.PreciseRepeat?
    modifies t`state
    ensures Gate(process, t.state) == RepeatGate(t.kind.delayNs, t.kind.periodNs, old(t.state), clock.now)
  {
    process := false;
    if t.state.timePassedNs >= t.kind.delayNs {
      t.state := t.state.(timeSinceLastExecution := if t.state.lastExecution > 0 then clock.now - t.state.lastExecution else 0);
      if t.state.timeSinceLastExecution == 0 || t.state.timeSinceLastExecution >= t.kind.periodNs {
        process := true;
        t.state := t.state.(lastExecution := clock.now);
      }
    }
  }

  method ResolveProcessTask(t: Task, clock: Clock) returns (process: bool)
    requires t.kind.IsPreciseTime()
    modifies t`state
    ensures Gate(process, t.state) == ResolveProcess(t.kind, old(t.state), clock.now)
  {
    match t.kind
    case PreciseWait(_) =>
      process := ResolveWait(t);
    case PreciseMax(_) =>
      process := ResolveMax(t);
    case PreciseRepeat(_, _) =>
      process := ResolveRepeat(t, clock);
    case PreciseTime =>
      process := true;
  }

  method DoExecute(t: Task, delta: real, clock: Clock, w: UserStep) returns (failed: bool)
    requires t.kind.IsPreciseTime()
    modifies t`state, clock
    ensures Effect(t.state, failed, clock.now) == PreciseStep(t.kind, old(t.state), delta, old(clock.now), w)
  {
    ghost var s0, now0 := t.state, clock.now;
    var since := if t.state.lastUpdate > 0 then clock.now - t.state.lastUpdate else 0;
    assert since == SinceLastUpdate(s0, now0);
    t.state := t.state.(timePassedNs := t.state.timePassedNs + since);
    assert t.state == s0.(timePassedNs := s0.timePassedNs + since);
    var process := ResolveProcessTask(t, clock);
    ghost var g := ResolveProcess(t.kind, s0.(timePassedNs := s0.timePassedNs + since), now0);
    assert PreciseStep(t.kind, s0, delta, now0, w) == AfterGate(t.kind, g, since, delta, now0, w);
    assert Gate(process, t.state) == g;
    failed := ProcessAndRecord(t, process, since, delta, clock, w);
    assert Effect(t.state, failed, clock.now) == AfterGate(t.kind, g, since, delta, now0, w);
  }

  method ProcessAndRecord(t: Task, process: bool, since: int, delta: real, clock: Clock, w: UserStep)
    returns (failed: bool)
    requires t.kind.IsPreciseTime()
    modifies t`state, clock
    ensures Effect(t.state, failed, clock.now) == AfterGate(t.kind, Gate(process, old(t.state)), since, delta, old(clock.now), w)
  {
    failed := false;
    if process {
      var d := ResolveDelta(t.kind, t.state, delta, since);
      failed := t.DoProcessTimed(d, clock, w);
      if failed {
        return;
      }
    }
    t.state := t.state.(lastUpdate := clock.now);
  }

  method Reset(t: Task)
    requires t.kind.IsPreciseTime()
    modifies t`state
    ensures t.state == ResetPrecise(t.kind, old(t.state))
  {
    t.ResetAbstract();
    t.state := t.state.(lastUpdate := 0);
    t.state := t.state.(timePassedNs := 0);
    t.SetFinished(false);
    if t.kind.PreciseRepeat? {
      t.state := t.state.(lastExecution := 0);
    }
  }
}
