/**
 * The task abstraction shared by every part of the scheduler: the variant of
 * a task and its configuration, its per-tick state, the monotonic clock, what
 * the user's overridden hooks do on one tick, and the `Task` object itself.
 *
 * The Java library spreads a task over an inheritance chain
 * (AbstractTask -> MultipleRunTask -> MaxRunTask, ...). Here one class holds
 * the union of those fields; `kind` says which concrete class the object is,
 * and is fixed at construction like the Java class of an object.
 */
module Tasks {

  datatype Option<T> = None | Some(value: T)

  /**
   * The step of AbstractTask.execute in which a failure was raised:
   * beforeProcess, doExecute (whose only user code is doProcess) or afterProcess.
   */
  datatype Hook = BeforeProcess | WorkStep | AfterProcess

  /**
   * What the user's overrides do during one `execute` call of one task:
   * whether an overridden beforeProcess, doProcess or afterProcess throws,
   * and how many nanoseconds of the monotonic clock doProcess takes.
   */
  datatype UserStep = UserStep(beforeFails: bool, processFails: bool, afterFails: bool, cost: nat)

  /** User code that never throws and takes no clock time. */
  const Quiet := UserStep(false, false, false, 0)

  /**
   * The concrete class of a task with its construction-time configuration.
   * Thresholds that the Java code compares in nanoseconds after a
   * `(long) (seconds * 1_000_000_000f)` conversion are stored already
   * converted; `SimpleWait.waitTime` and `SimpleRepeat.delay` are compared
   * with the accumulated seconds and stay in seconds.
   */
  datatype Kind =
    | SingleRun
    | MultipleRun
    | MaxRun(timesToRun: int)
    | SimpleTime
    | SimpleWait(waitTime: real)
    | SimpleRepeat(delay: real, periodNs: int)
    | PreciseTime
    | PreciseWait(waitTimeNs: int)
    | PreciseMax(maxTimeNs: int)
    | PreciseRepeat(delayNs: int, periodNs: int)
    | Sequence(timesToRun: int)
  {
    /** Every kind except SequenceTask extends AbstractTask. */
    predicate IsLeaf() { !Sequence? }

    predicate IsRunCount() { SingleRun? || MultipleRun? || MaxRun? }

    predicate IsSimpleTime() { SimpleTime? || SimpleWait? || SimpleRepeat? }

    predicate IsPreciseTime() { PreciseTime? || PreciseWait? || PreciseMax? || PreciseRepeat? }
  }

  /**
   * Everything one `execute` call may change in one task object. Each field
   * is the Java field of the same name; a kind uses only its own fields.
   * `processCalls`, `lastProcessDelta` and `errorCalls` record the calls of
   * the user hooks doProcess and onError, as a test spy would.
   */
  datatype TaskState = TaskState(
    error: Option<Hook>,          // AbstractTask
    finished: bool,               // run-count and time-gated tasks
    timesProcessed: int,          // MultipleRunTask
    timePassed: real,             // SimpleTimeTask, seconds
    timePassedNs: int,            // PreciseTimeTask, nanoseconds
    lastUpdate: int,              // PreciseTimeTask, clock reading
    lastExecution: int,           // the repeat tasks, clock reading
    timeSinceLastExecution: int,  // the repeat tasks, nanoseconds
    currentTask: nat,             // SequenceTask
    timesRan: int,                // SequenceTask
    processCalls: nat,
    lastProcessDelta: real,
    errorCalls: nat)

  /** The state every constructor leaves behind. */
  const Initial := TaskState(None, false, 0, 0.0, 0, 0, 0, 0, 0, 0, 0, 0.0, 0)

  /** The outcome of a step: the new state, whether it threw, and the clock after it. */
  datatype Effect = Effect(state: TaskState, failed: bool, now: nat)

  /** The answer of a resolveProcess hook, with the state it leaves behind. */
  datatype Gate = Gate(process: bool, state: TaskState)

  /** isFinished of a task of class `kind` in state `s`. */
  predicate FinishedIn(kind: Kind, s: TaskState)
  {
    if kind.Sequence? then s.timesRan == kind.timesToRun else s.finished
  }

  /** doProcess() of a run-count task: the user's work step, without argument. */
  function Process(s: TaskState, now: nat, w: UserStep): Effect
  {
    Effect(s.(processCalls := s.processCalls + 1), w.processFails, now + w.cost)
  }

  /** doProcess(delta) of a time-gated task. */
  function ProcessTimed(s: TaskState, delta: real, now: nat, w: UserStep): Effect
  {
    Effect(s.(processCalls := s.processCalls + 1, lastProcessDelta := delta), w.processFails, now + w.cost)
  }

  /** AbstractTask.reset: forget the captured failure. */
  function ResetError(s: TaskState): TaskState
  {
    s.(error := None)
  }

  /** System.nanoTime(): a non-negative reading that never goes back. */
  class Clock {
    var now: nat

    constructor (start: nat)
      ensures now == start
    {
      now := start;
    }

    /** Time passing outside the scheduler, between ticks. */
    method Advance(d: nat)
      modifies this
      ensures now == old(now) + d
    {
      now := now + d;
    }
  }

  class Task {
    const kind: Kind
    /** The member array of a SequenceTask; empty for every other kind. */
    const members: seq<Task>
    /** The objects one `execute` of this task may change: itself and its members, recursively. */
    ghost const Repr: set<Task>
    ghost const depth: nat

    var next: Successor
    /**
     * The fields one `execute` call may change (see TaskState), held as one
     * record that the methods update in place, field by field.
     */
    var state: TaskState

    // Calls of the executor's hooks, counted as a test spy counts them.
    var addedCalls: nat
    var removedCalls: nat
    var createCalls: nat
    var disposeCalls: nat

    /** The shape fixed at construction: members are older, shallower tasks. */
    ghost predicate Structure()
      decreases depth
    {
      && this in Repr
      && (kind.IsLeaf() ==> members == [] && Repr == {this})
      && forall m | m in members ::
           && m in Repr
           && m.Repr <= Repr
           && this !in m.Repr
           && m.depth < depth
           && m.Structure()
    }

    /** Every run-count and time-gated task: all fields at their initial values, no successor. */
    constructor Leaf(kind: Kind)
      requires kind.IsLeaf()
      ensures Structure() && this.kind == kind && members == []
      ensures state == Initial && next == null
      ensures addedCalls == removedCalls == createCalls == disposeCalls == 0
    {
      this.kind := kind;
      members := [];
      Repr := {this};
      depth := 0;
      next, state := null, Initial;
      addedCalls, removedCalls, createCalls, disposeCalls := 0, 0, 0, 0;
    }

    /** SequenceTask(timesToRun, tasks...): the cursor starts on the first member. */
    constructor Sequence(timesToRun: int, members: seq<Task>)
      requires forall m | m in members :: m.Structure()
      ensures Structure() && kind == Kind.Sequence(timesToRun) && this.members == members
      ensures state == Initial && next == null
      ensures addedCalls == removedCalls == createCalls == disposeCalls == 0
    {
      kind := Kind.Sequence(timesToRun);
      this.members := members;
      Repr := {this} + ReprOf(members);
      depth := 1 + MaxDepth(members);
      next, state := null, Initial;
      addedCalls, removedCalls, createCalls, disposeCalls := 0, 0, 0, 0;
    }

    /** SequenceTask(tasks...): the sequence runs once. */
    constructor SequenceOnce(members: seq<Task>)
      requires forall m | m in members :: m.Structure()
      ensures Structure() && kind == Kind.Sequence(1) && this.members == members
      ensures state == Initial && next == null
      ensures addedCalls == removedCalls == createCalls == disposeCalls == 0
    {
      kind := Kind.Sequence(1);
      this.members := members;
      Repr := {this} + ReprOf(members);
      depth := 1 + MaxDepth(members);
      next, state := null, Initial;
      addedCalls, removedCalls, createCalls, disposeCalls := 0, 0, 0, 0;
    }

    predicate IsFinished()
      reads this`state
    {
      FinishedIn(kind, state)
    }

    /** AbstractTask.getNext; a SequenceTask never has a successor. */
    function GetNext(): Successor
      reads this`next
    {
      if kind.Sequence? then null else next
    }

    /** AbstractTask.setNext. */
    method SetNext(n: Successor)
      requires kind.IsLeaf()
      modifies this`next
      ensures next == n && GetNext() == n
    {
      next := n;
    }

    /** AbstractTask.getError: the last captured failure, if any. */
    function GetError(): Option<Hook>
      reads this`state
    {
      state.error
    }

    /** setFinished of the run-count and time-gated tasks. */
    method SetFinished(b: bool)
      requires kind.IsLeaf()
      modifies this`state
      ensures state == old(state).(finished := b)
    {
      state := state.(finished := b);
    }

    /** Task.added: AbstractTask forwards it to onCreate; SequenceTask ignores it. */
    method Added()
      modifies this`addedCalls, this`createCalls
      ensures addedCalls == old(addedCalls) + 1
      ensures createCalls == old(createCalls) + (if kind.IsLeaf() then 1 else 0)
    {
      addedCalls := addedCalls + 1;
      if kind.IsLeaf() {
        createCalls := createCalls + 1;
      }
    }

    /** Task.removed: AbstractTask forwards it to onDispose; SequenceTask ignores it. */
    method Removed()
      modifies this`removedCalls, this`disposeCalls
      ensures removedCalls == old(removedCalls) + 1
      ensures disposeCalls == old(disposeCalls) + (if kind.IsLeaf() then 1 else 0)
    {
      removedCalls := removedCalls + 1;
      if kind.IsLeaf() {
        disposeCalls := disposeCalls + 1;
      }
    }

    /** AbstractTask.reset: clears the captured failure and nothing else. */
    method ResetAbstract()
      requires kind.IsLeaf()
      modifies this`state
      ensures state == ResetError(old(state))
    {
      state := ResetError(state);
    }

    /** doProcess() of a run-count task, whose outcome the user's code decides. */
    method DoProcess(clock: Clock, w: UserStep) returns (failed: bool)
      modifies this`state, clock
      ensures Effect(state, failed, clock.now) == Process(old(state), old(clock.now), w)
    {
      state := state.(processCalls := state.processCalls + 1);
      clock.now := clock.now + w.cost;
      failed := w.processFails;
    }

    /** doProcess(delta) of a time-gated task. */
    method DoProcessTimed(delta: real, clock: Clock, w: UserStep) returns (failed: bool)
      modifies this`state, clock
      ensures Effect(state, failed, clock.now) == ProcessTimed(old(state), delta, old(clock.now), w)
    {
      state := state.(processCalls := state.processCalls + 1, lastProcessDelta := delta);
      clock.now := clock.now + w.cost;
      failed := w.processFails;
    }
  }

  /** A successor reference: null, or a well-formed task. */
  type Successor = t: Task? | t == null || t.Structure() witness null

  ghost function ReprOf(ms: seq<Task>): (r: set<Task>)
    ensures forall m | m in ms :: m.Repr <= r
  {
    if ms == [] then {} else ReprOf(ms[..|ms| - 1]) + ms[|ms| - 1].Repr
  }

  ghost function MaxDepth(ms: seq<Task>): (d: nat)
    ensures forall m | m in ms :: m.depth <= d
  {
    if ms == [] then 0
    else
      var d := MaxDepth(ms[..|ms| - 1]);
      if ms[|ms| - 1].depth > d then ms[|ms| - 1].depth else d
  }

  /** The state of every object in `s`, as one value. */
  ghost function Snap(s: set<Task>): map<Task, TaskState>
    reads s`state
  {
    map o | o in s :: o.state
  }
}
