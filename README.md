# task-utils, modelled in Dafny

This project models the core of **task-utils**: a cooperative, single-threaded
tick scheduler written in Java. A `SingleThreadTaskExecutor` holds an ordered
collection of tasks. Each call to `execute(delta)` makes one pass over the tasks
held when the pass starts:
- a task that is not finished is executed;
- a task that is finished afterwards (or already was) leaves the collection and
  is told so with `removed()`;
- the successor of a task that leaves, if it has one, is added at the end.

Every task is a small state machine driven by `execute(delta)`:

- **`AbstractTask`** runs `beforeProcess`, the concrete class's `doExecute` and
  `afterProcess`. The first of them that throws ends the tick. Its failure is
  stored as the task's error and handed to `onError`, and nothing reaches the
  caller.
- **The run-count tasks:**
  - `SingleRunTask` processes once and finishes from its own `afterProcess`.
  - `MultipleRunTask` counts its runs.
  - `MaxRunTask` finishes when the count reaches its bound.
- **The simple time tasks** add up the deltas they are given:
  - `SimpleTimeTask` processes every tick.
  - `SimpleWaitTimeTask` processes once the wait time is reached, and finishes.
  - `SimpleRepeatTimeTask` processes once a delay is reached, on a tick when
    the clock time since its last run is 0 or at least a period. A last run
    recorded at clock reading 0 counts as no run at all, so "at most once per
    period" holds only while readings are positive and increasing.
- **The precise time tasks** sample the monotonic nanosecond clock instead:
  `PreciseTimeTask`, `PreciseWaitTimeTask`, `PreciseMaxTimeTask` and
  `PreciseRepeatTimeTask`.
- **`SequenceTask`** is a cursor over a fixed array of member tasks, with a
  repeat counter.

## How the model is built

**Tasks** (`task.dfy`)
- One `class Task` stands for every task object.
  - `kind` is a closed datatype naming the concrete Java class and its
    configuration.
  - `state` is a record of every field that `execute` may change.
  - `next` is the successor.
  - Four counters record the calls of `added`/`removed` and
    `onCreate`/`onDispose`, as the tests' spies count them.
- The methods update these fields in place. Their frames are field by field
  (``t`state``, ``t`next``), so a method's `modifies` clause says exactly what
  it touches.
- `System.nanoTime()` is a `Clock` object whose reading never goes back.
- What the user's overridden hooks do on a tick is an input, a `UserStep`:
  - whether `beforeProcess`, `doProcess` or `afterProcess` throws;
  - how much clock time `doProcess` takes.

  `SingleRunTask` overrides `afterProcess` with the library's own code, which
  only sets the finished flag. The model therefore ignores the
  `afterProcess`-throws input for it.

**Operations** (`abstract_task.dfy`, `run.dfy`, `simple_time.dfy`,
`precise_time.dfy`, `sequence_task.dfy`)
- Each Java operation is a pure step function on the state record, and a method
  on a `Task` whose `ensures` says it performs exactly that step.
- The properties the source promises are stated on the step functions.

**The executor** (`executor.dfy`) is a class holding a `seq<Task>`.
- Its pass is a `while` loop over a snapshot of the collection, proved against
  the predicate `PassOutcome`. In words, `PassOutcome` says:
  - which tasks were visited;
  - which stayed, in order;
  - which left, and whose successors were appended;
  - how many hook calls each task received;
  - what happened to the state of every task that shares no object with
    another.
- `SequenceTask.execute` can throw out of the pass: `tasks[currentTask]` on an
  empty member array. This is the `thrown` result, which ends the pass where it
  happened.

**Lifetimes** (`lifetimes.dfy`) adds up what single steps promise over many
ticks of one task held by the executor. This is what the library's tests
observe.
- `TurnOf` is what one executor visit does to the states of a task's objects.
  `VisitIsTurnOf` and `PassVisitIsTurn` prove that the executor's pass
  performs exactly this turn on every task that shares no object with
  another.
- For a leaf task the turn is the step function `Turn` on its own state
  (`LeafTurn`). The leaf lifetimes below are folds of `Turn`.
- `LifetimeOf` folds `TurnOf` over the ticks of a whole task tree. The
  sequence lifetimes rest on it.

### Behaviour of the code worth noting

- `execute()` computes its delta as `(now - lastUpdate) + lastExecutionTime`
  (`SingleThreadTaskExecutor.java:79-84`). `lastUpdate` is the reading at the
  end of the previous pass and `lastExecutionTime` its duration, so the delta
  is the clock time since the previous pass *began*.
- `remove(task)` calls `task.removed()` even when the task is not held. Only
  the collection is unchanged in that case.
- `SingleRunTask` inherits `AbstractTask.reset`, which clears only the error.
  A finished single-run task stays finished after a reset.
- A `SequenceTask` is not an `AbstractTask`, so nothing catches an exception
  in it. An empty member array makes its `execute` throw out of the executor's
  pass.
- The precise tasks never use the caller's delta. Even before their first
  clock sample they pass the measured interval, which is 0.

## Model

| member | source | states |
|---|---|---|
| Tasks.Task.Leaf | task-utils/src/main/java/es/molabs/task/run/MultipleRunTask.java:29-34 | a new run-count or time-gated task has every counter and timer at zero, is not finished, has no error and no successor |
| Tasks.Task.Sequence | task-utils/src/main/java/es/molabs/task/base/SequenceTask.java:33-39 | a new sequence has its cursor on the first member, no completed run, the given bound and members, and no successor |
| Tasks.Task.SequenceOnce | task-utils/src/main/java/es/molabs/task/base/SequenceTask.java:28-31 | the varargs constructor builds a sequence that runs once |
| Tasks.Task.SetNext | task-utils/src/main/java/es/molabs/task/base/AbstractTask.java:65-73 | after setNext(n), getNext() answers n and only the successor link changes |
| Tasks.Task.SetFinished | task-utils/src/main/java/es/molabs/task/run/MultipleRunTask.java:46-49 | setFinished changes the finished flag and nothing else |
| Tasks.Task.Added | task-utils/src/main/java/es/molabs/task/base/AbstractTask.java:75-78 | added() is counted once, and onCreate runs exactly once for an AbstractTask and never for a sequence |
| Tasks.Task.Removed | task-utils/src/main/java/es/molabs/task/base/AbstractTask.java:80-83 | removed() is counted once, and onDispose runs exactly once for an AbstractTask and never for a sequence |
| Tasks.Task.ResetAbstract | task-utils/src/main/java/es/molabs/task/base/AbstractTask.java:40-43 | AbstractTask.reset clears the stored error and changes nothing else, not even the successor |
| AbstractTask.Tick | task-utils/src/main/java/es/molabs/task/base/AbstractTask.java:45-63 | the three steps run in order; the first that throws ends the tick, its step is stored as the error, and onError runs exactly once; a tick without failure keeps an earlier error; the clock never goes back |
| AbstractTask.DoExecuteStep | task-utils/src/main/java/es/molabs/task/base/AbstractTask.java:148 | doExecute of every concrete class fails only if doProcess throws, never touches the error or onError, and never moves the clock back |
| AbstractTask.ResetLeaf | task-utils/src/main/java/es/molabs/task/base/AbstractTask.java:40-43 | every reset clears the error; every class but SingleRunTask is then unfinished; SingleRunTask's reset changes only the error |
| AbstractTask.Execute | task-utils/src/main/java/es/molabs/task/base/AbstractTask.java:45-63 | the in-place execute leaves exactly the state and clock reading of Tick |
| AbstractTask.DoExecute | task-utils/src/main/java/es/molabs/task/base/AbstractTask.java:148 | the in-place doExecute of each concrete class performs exactly DoExecuteStep |
| AbstractTask.CaptureFailure | task-utils/src/main/java/es/molabs/task/base/AbstractTask.java:55-62 | the catch block stores the failure and counts one onError call |
| AbstractTask.Reset | task-utils/src/main/java/es/molabs/task/base/AbstractTask.java:40-43 | the in-place reset of each concrete class performs exactly ResetLeaf |
| Run.MultipleRunStep | task-utils/src/main/java/es/molabs/task/run/MultipleRunTask.java:70-76 | doExecute counts one run and one doProcess call even when doProcess throws, and never changes finished |
| Run.MaxRunStep | task-utils/src/main/java/es/molabs/task/run/MaxRunTask.java:40-51 | finished afterwards iff it already was, or doProcess did not throw and the count reached the bound; never set back to false |
| Run.ResetRunCount | task-utils/src/main/java/es/molabs/task/run/MultipleRunTask.java:51-58 | reset clears the error and the count and unsets finished |
| Run.DoExecuteMultipleRun | task-utils/src/main/java/es/molabs/task/run/MultipleRunTask.java:70-76 | the in-place doExecute performs exactly MultipleRunStep |
| Run.DoExecuteMaxRun | task-utils/src/main/java/es/molabs/task/run/MaxRunTask.java:40-51 | the in-place doExecute performs exactly MaxRunStep |
| Run.DoExecuteSingleRun | task-utils/src/main/java/es/molabs/task/run/SingleRunTask.java:52-55 | doExecute is doProcess and nothing more |
| Run.AfterProcessSingleRun | task-utils/src/main/java/es/molabs/task/run/SingleRunTask.java:47-50 | afterProcess sets finished |
| Run.ResetMultipleRun | task-utils/src/main/java/es/molabs/task/run/MultipleRunTask.java:51-58 | the in-place reset performs exactly ResetRunCount |
| SimpleTime.WaitGate | task-utils/src/main/java/es/molabs/task/time/simple/SimpleWaitTimeTask.java:35-48 | processes iff the accumulated time reached the wait time; finished afterwards iff it was or the gate opened; nothing else changes |
| SimpleTime.RepeatGate | task-utils/src/main/java/es/molabs/task/time/simple/SimpleRepeatTimeTask.java:70-92 | processes iff the delay is reached and the clock time since the last run is 0 (a last run recorded at reading 0 counts as none) or at least a period; the time of the last run is updated exactly when processing |
| SimpleTime.SimpleStep | task-utils/src/main/java/es/molabs/task/time/simple/SimpleTimeTask.java:61-68 | the delta is added first; doProcess runs iff the gate opens, and receives the caller's delta |
| SimpleTime.ResetSimple | task-utils/src/main/java/es/molabs/task/time/simple/SimpleTimeTask.java:47-54 | reset clears the error and the accumulated time and unsets finished; the repeat task also clears its last run |
| SimpleTime.ResolveWait | task-utils/src/main/java/es/molabs/task/time/simple/SimpleWaitTimeTask.java:35-48 | the in-place gate answers and leaves the state of WaitGate |
| SimpleTime.ResolveRepeat | task-utils/src/main/java/es/molabs/task/time/simple/SimpleRepeatTimeTask.java:70-92 | the in-place gate answers and leaves the state of RepeatGate |
| SimpleTime.ResolveProcessTask | task-utils/src/main/java/es/molabs/task/time/simple/SimpleTimeTask.java:77-80 | each simple class answers with its own gate; SimpleTimeTask's always processes |
| SimpleTime.DoExecute | task-utils/src/main/java/es/molabs/task/time/simple/SimpleTimeTask.java:61-68 | the in-place doExecute performs exactly SimpleStep |
| SimpleTime.Reset | task-utils/src/main/java/es/molabs/task/time/simple/SimpleRepeatTimeTask.java:53-58 | the in-place reset performs exactly ResetSimple |
| PreciseTime.WaitGate | task-utils/src/main/java/es/molabs/task/time/precise/PreciseWaitTimeTask.java:35-47 | processes iff the measured nanoseconds reached the wait time; finished afterwards iff it was or the gate opened |
| PreciseTime.MaxGate | task-utils/src/main/java/es/molabs/task/time/precise/PreciseMaxTimeTask.java:40-54 | processes iff the measured nanoseconds are below the maximum; otherwise it finishes instead; never unsets finished |
| PreciseTime.RepeatGate | task-utils/src/main/java/es/molabs/task/time/precise/PreciseRepeatTimeTask.java:71-93 | processes iff the delay is reached and the clock time since the last run is 0 (a last run recorded at reading 0 counts as none) or at least a period; the last run is updated exactly when processing |
| PreciseTime.PreciseStep | task-utils/src/main/java/es/molabs/task/time/precise/PreciseTimeTask.java:66-78 | the measured time grows by the clock interval since the last tick (0 on the first); doProcess runs iff the class's gate opens on that updated time; the reading is recorded unless doProcess threw |
| PreciseTime.ProcessDelta | task-utils/src/main/java/es/molabs/task/time/precise/PreciseRepeatTimeTask.java:95-98 | doProcess receives the interval since the previous tick, or for a repeat task since its previous run, in seconds; the caller's delta has no effect on the step |
| PreciseTime.ResetPrecise | task-utils/src/main/java/es/molabs/task/time/precise/PreciseTimeTask.java:51-59 | reset clears the error, the last reading and the measured time and unsets finished; the repeat task also clears its last run |
| PreciseTime.ResolveWait | task-utils/src/main/java/es/molabs/task/time/precise/PreciseWaitTimeTask.java:35-47 | the in-place gate answers and leaves the state of WaitGate |
| PreciseTime.ResolveMax | task-utils/src/main/java/es/molabs/task/time/precise/PreciseMaxTimeTask.java:40-54 | the in-place gate answers and leaves the state of MaxGate |
| PreciseTime.ResolveRepeat | task-utils/src/main/java/es/molabs/task/time/precise/PreciseRepeatTimeTask.java:71-93 | the in-place gate answers and leaves the state of RepeatGate |
| PreciseTime.ResolveProcessTask | task-utils/src/main/java/es/molabs/task/time/precise/PreciseTimeTask.java:87-90 | each precise class answers with its own gate; PreciseTimeTask's always processes |
| PreciseTime.DoExecute | task-utils/src/main/java/es/molabs/task/time/precise/PreciseTimeTask.java:66-78 | the in-place doExecute performs exactly PreciseStep |
| PreciseTime.ProcessAndRecord | task-utils/src/main/java/es/molabs/task/time/precise/PreciseTimeTask.java:75-77 | after the gate: doProcess with resolveDelta if it opened, then the clock is recorded unless doProcess threw |
| PreciseTime.Reset | task-utils/src/main/java/es/molabs/task/time/precise/PreciseRepeatTimeTask.java:54-59 | the in-place reset performs exactly ResetPrecise |
| SequenceTask.Advance | task-utils/src/main/java/es/molabs/task/base/SequenceTask.java:71-87 | the cursor stays within the members; the run count never decreases; the cursor wraps to 0 exactly when the run count grows by one; nothing else changes |
| SequenceTask.AdvanceTimesRounds | task-utils/src/main/java/es/molabs/task/base/SequenceTask.java:77-87 | from the first member, rounds * count + j member completions leave the cursor on member j after exactly `rounds` runs |
| SequenceTask.Reset | task-utils/src/main/java/es/molabs/task/base/SequenceTask.java:54-58 | a sequence's reset rewinds its cursor and run count and leaves its members alone; other tasks reset as ResetLeaf says |
| SequenceTask.Stepped | task-utils/src/main/java/es/molabs/task/base/SequenceTask.java:65-89 | what one execute does to the states of a task tree, shared objects included: a leaf ticks as AbstractTask.Tick; a sequence executes its current member; if the member is finished afterwards, the member is reset and the cursor advances; no object outside the tree changes and the clock never goes back |
| SequenceTask.ExecuteSequence | task-utils/src/main/java/es/molabs/task/base/SequenceTask.java:65-89 | the in-place execute leaves every object of the sequence, nested members included, in the state Stepped gives and the clock at its reading; it throws iff the cursor is out of range somewhere along the nested sequences, and then nothing changed |
| SequenceTask.StepCursor | task-utils/src/main/java/es/molabs/task/base/SequenceTask.java:77-87 | the cursor moves to the next member, or wraps to 0 and counts one more run after the last, as Advance says |
| SequenceTask.Execute | task-utils/src/main/java/es/molabs/task/base/SequenceTask.java:65-68 | Task.execute of any task leaves its objects and the clock as Stepped says, or throws with nothing changed |
| Executor.RemoveFirst | task-utils/src/main/java/es/molabs/task/base/SingleThreadTaskExecutor.java:73 | Collection.remove drops one occurrence when the task is held and changes nothing otherwise |
| Executor.SelfTimedDelta | task-utils/src/main/java/es/molabs/task/base/SingleThreadTaskExecutor.java:79-84 | 0 before any pass; otherwise the seconds since the last pass began; never negative for readings in order |
| Executor.ExecuteUnlessFinished | task-utils/src/main/java/es/molabs/task/base/SingleThreadTaskExecutor.java:96-101 | a finished task is not executed and is left untouched; any other task is executed once; a throw leaves it as it was |
| Executor.DisposedHolds | task-utils/src/main/java/es/molabs/task/base/SingleThreadTaskExecutor.java:103-113 | a visit that finished its task counts that task among the departures |
| Executor.KeptHolds | task-utils/src/main/java/es/molabs/task/base/SingleThreadTaskExecutor.java:92-122 | a visit that left its task unfinished keeps that task in the collection |
| Executor.SingleThreadTaskExecutor.constructor | task-utils/src/main/java/es/molabs/task/base/SingleThreadTaskExecutor.java:36-40 | a new executor holds no task and has both timing fields at 0 |
| Executor.SingleThreadTaskExecutor.Add | task-utils/src/main/java/es/molabs/task/base/SingleThreadTaskExecutor.java:55-65 | the task is appended, so the size grows by one; added() fires once, and onCreate once for an AbstractTask |
| Executor.SingleThreadTaskExecutor.Remove | task-utils/src/main/java/es/molabs/task/base/SingleThreadTaskExecutor.java:67-77 | the first occurrence leaves the collection, which is unchanged if the task is absent; removed() fires once in either case |
| Executor.SingleThreadTaskExecutor.VisitAt | task-utils/src/main/java/es/molabs/task/base/SingleThreadTaskExecutor.java:94-121 | one visit: execute unless finished; if finished afterwards, take the task out in place, call removed() and append its successor with added(); the objects of other tasks and every successor link are untouched |
| Executor.SingleThreadTaskExecutor.Retire | task-utils/src/main/java/es/molabs/task/base/SingleThreadTaskExecutor.java:103-121 | iterator.remove at the position, then removed(), then add(successor) when there is one |
| Executor.SingleThreadTaskExecutor.PassStep | task-utils/src/main/java/es/molabs/task/base/SingleThreadTaskExecutor.java:92-122 | one turn of the pass loop moves every pass invariant on by one visit, or leaves them in place if the visit threw |
| Executor.SingleThreadTaskExecutor.PassTurn | task-utils/src/main/java/es/molabs/task/base/SingleThreadTaskExecutor.java:92-122 | the same turn, stated as the loop invariants at the next position; a throw stops at a task that is not finished and throws |
| Executor.SingleThreadTaskExecutor.RunPass | task-utils/src/main/java/es/molabs/task/base/SingleThreadTaskExecutor.java:90-122 | the loop over the snapshot ends in PassOutcome |
| Executor.SingleThreadTaskExecutor.Pass | task-utils/src/main/java/es/molabs/task/base/SingleThreadTaskExecutor.java:88-122 | a pass starts from the collection, successors, hook counts and task states held on entry, and ends in PassOutcome |
| Executor.SingleThreadTaskExecutor.ExecuteDelta | task-utils/src/main/java/es/molabs/task/base/SingleThreadTaskExecutor.java:86-126 | execute(delta): PassOutcome of one pass with that delta; a completed pass records its start, its duration and its end reading |
| Executor.SingleThreadTaskExecutor.Stamp | task-utils/src/main/java/es/molabs/task/base/SingleThreadTaskExecutor.java:124-125 | lastExecutionTime becomes the pass's duration and lastUpdate the reading at its end |
| Executor.SingleThreadTaskExecutor.Execute | task-utils/src/main/java/es/molabs/task/base/SingleThreadTaskExecutor.java:79-84 | execute(): one pass whose delta is SelfTimedDelta of the timing fields, i.e. the seconds since the previous completed pass began (0 on the first) |
| Executor.SingleThreadTaskExecutor.VisitedFate | task-utils/src/main/java/es/molabs/task/base/SingleThreadTaskExecutor.java:96-113 | after a pass, a task that was finished when visited was not executed, is untouched and is among the departures, with its removed() count raised; one left unfinished is still held |
| Executor.SingleThreadTaskExecutor.Size | task-utils/src/main/java/es/molabs/task/base/SingleThreadTaskExecutor.java:147-150 | size() is the number of held entries |
| Executor.SingleThreadTaskExecutor.Clear | task-utils/src/main/java/es/molabs/task/base/SingleThreadTaskExecutor.java:128-145 | the collection ends empty and every held task gets removed() once per occurrence, and onDispose as often if it is an AbstractTask |
| Lifetimes.VisitIsTurnOf | task-utils/src/main/java/es/molabs/task/base/SingleThreadTaskExecutor.java:96-101 | a visit by the executor leaves every object of the task in the state TurnOf gives; the visit reports the task finished iff TurnOf leaves it finished |
| Lifetimes.PassVisitIsTurn | task-utils/src/main/java/es/molabs/task/base/SingleThreadTaskExecutor.java:92-122 | in a pass, the j-th visited task, if it shares no object with another held task, ends in the state TurnOf gives at that visit's clock reading; for a leaf this is Turn of its state when the pass began |
| Lifetimes.LeafTurn | task-utils/src/main/java/es/molabs/task/base/SingleThreadTaskExecutor.java:96-101 | for a leaf task, TurnOf changes only the task's own state, and changes it exactly as Turn does |
| Lifetimes.FinishedStays | task-utils/src/main/java/es/molabs/task/base/SingleThreadTaskExecutor.java:96-101 | a finished task held by the executor is never touched again |
| Lifetimes.MaxRunLifetime | task-utils/src/test/java/es/molabs/task/run/test/RunTaskTest.java:83-99 | MaxRunTask(n) processes once per tick until it has run n times, is finished exactly from the n-th tick on, and never processes again |
| Lifetimes.SingleRunLifetime | task-utils/src/test/java/es/molabs/task/run/test/RunTaskTest.java:42-49 | SingleRunTask processes exactly once over any number of ticks and is then finished |
| Lifetimes.MultipleRunLifetime | task-utils/src/main/java/es/molabs/task/run/MultipleRunTask.java:70-76 | MultipleRunTask counts and processes once per tick and never finishes by itself |
| Lifetimes.StoppedAfter | task-utils/src/test/java/es/molabs/task/run/test/RunTaskTest.java:64-77 | a MultipleRunTask marked finished after k ticks has processed exactly k times however many ticks follow |
| Lifetimes.EndlessLifetime | task-utils/src/main/java/es/molabs/task/time/simple/SimpleRepeatTimeTask.java:70-92 | the classes without a finishing rule never finish by themselves, whatever the user code does |
| Lifetimes.WaitLifetime | task-utils/src/main/java/es/molabs/task/time/simple/SimpleWaitTimeTask.java:35-48 | a wait task, simple or precise, processes at most once until reset, whatever the clock and the user code do |
| Lifetimes.SimpleTimeLifetime | task-utils/src/main/java/es/molabs/task/time/simple/SimpleTimeTask.java:61-68 | SimpleTimeTask's time is the sum of the deltas; it processes every tick, last with the last delta |
| Lifetimes.PreciseTimeLifetime | task-utils/src/test/java/es/molabs/task/time/precise/test/PreciseTimeTaskTest.java:49-61 | PreciseTimeTask processes on every tick, and its measured time grows by exactly the clock time between its first and last readings |
| Lifetimes.PreciseMaxLifetime | task-utils/src/test/java/es/molabs/task/time/precise/test/PreciseTimeTaskTest.java:109-130 | PreciseMaxTimeTask processes on exactly the ticks before its measured time reaches the maximum, and is finished afterwards iff a later tick came |
| Lifetimes.PreciseWaitLifetime | task-utils/src/test/java/es/molabs/task/time/precise/test/PreciseTimeTaskTest.java:141-156 | PreciseWaitTimeTask processes once, on the first tick at or past its wait time, and is finished from then on; never otherwise |
| Lifetimes.PositionAtTicks | task-utils/src/main/java/es/molabs/task/base/SequenceTask.java:71-87 | after k member ticks, the position reached (round, member, run) is within its bounds and its tick count is exactly k |
| Lifetimes.PhaseStep | task-utils/src/main/java/es/molabs/task/base/SequenceTask.java:65-89 | one tick of a sequence of distinct MaxRunTask(n) members moves it from one position to the next: one more doProcess call for the current member; when that member reaches n runs, it is reset and the cursor moves on |
| Lifetimes.SequenceTicks | task-utils/src/test/java/es/molabs/task/base/test/SequenceTaskTest.java:50-81 | for as many ticks as the sequence runs, the member doProcess counts and the cursor are those of the position reached |
| Lifetimes.SequenceLifetime | task-utils/src/test/java/es/molabs/task/base/test/SequenceTaskTest.java:32-98 | a sequence of `rounds` repeats over distinct MaxRunTask(n) members is unfinished for exactly its first rounds * count * n ticks and finished from then on; at every tick before that, each member's doProcess count and the cursor match the position reached |
| Lifetimes.SequenceRuns | task-utils/src/test/java/es/molabs/task/base/test/SequenceTaskTest.java:94-98 | the same in plain products: finished iff at least rounds * count * n ticks have passed; then every member has run doProcess exactly rounds * n times and is unfinished |
| Lifetimes.FirstPreciseTick | task-utils/src/main/java/es/molabs/task/time/precise/PreciseTimeTask.java:69-77 | the first tick after construction or reset measures no time: a positive wait is not reached, a positive maximum still processes, and the reading becomes the reference |

## Left out

- Floating point: the Java code keeps seconds in `float`. The model uses exact
  `real`s for seconds and unbounded integers for nanoseconds. Rounding in the
  `(long) (seconds * 1_000_000_000f)` thresholds and in the `/ 1_000_000_000f`
  conversions is not modelled. The thresholds are stored already converted to
  nanoseconds in the task's kind.
- Executor.SingleThreadTaskExecutor.constructor: only the no-argument
  constructor is modelled. The `SingleThreadTaskExecutor(Collection<Task>)`
  constructor (`SingleThreadTaskExecutor.java:47-53`) adopts a collection
  chosen by the caller, possibly already holding tasks on which `added()` was
  never called. Its storage class and its initial content are not modelled.
- Integer width: `long` and `int` overflow of counters and clock differences is
  not modelled.
- Clock reads:
  - `System.nanoTime()` is a `Clock` object whose reading never goes back.
    Framework code takes no clock time; only user `doProcess` code and time
    between ticks advance it.
  - Two readings of the source that follow each other with no user code
    between them are one reading in the model. These are
    `SimpleRepeatTimeTask.java:78,87`, `PreciseRepeatTimeTask.java:79,88` and
    `SingleThreadTaskExecutor.java:124-125`.
- Executor.SingleThreadTaskExecutor.ExecuteDelta: a successor appended during
  a pass is not visited in that pass. The `ConcurrentLinkedQueue` iterator of
  the source may reach such a tail element in the same pass, so the model
  covers only the case where it does not.
- Executor.SingleThreadTaskExecutor.ExecuteDelta: `PassOutcome` states the new
  state only of tasks that share no object with another held task. A task
  held twice, or a member also held on its own, is executed through shared
  objects, and its resulting state is not described.
- The executor's own `added`/`removed` hooks are empty in the source and are
  left out; so are the user hooks `onCreate`, `onDispose` and `onError`, which
  are counted but cannot react.
- User code that marks a task finished or changes it from inside a hook is not
  modelled; a `UserStep` only decides whether each hook throws and how long
  `doProcess` takes.
- Logging (the SLF4J logger of `AbstractTask`) has no effect on behaviour and
  is left out.
- `add(null)`, null members of a sequence, and successors that are not tasks
  built by the constructors are excluded by the types.
- The `AbstractTask(next)` constructor and the one-argument repeat
  constructors (delay 0) are not separate members; a `Leaf` constructor
  followed by `SetNext`, or a `SimpleRepeat(0.0, periodNs)` kind, gives the
  same object.
- The Java fields that one `execute` may change are held together in the
  `state` record rather than as separate fields; each method changes the
  record's fields one assignment at a time, as the Java code does.
- Executor.SingleThreadTaskExecutor.Execute: the delta is computed in exact
  arithmetic rather than in `float`.
- Lifetimes.SequenceLifetime: it states the sequence's own state and its
  members' doProcess counts. The executor's `size()` dropping to 0 once the
  sequence is finished follows from Executor.SingleThreadTaskExecutor.VisitedFate,
  and is not restated in the lifetime.
- The repeat-task counts of the tests (`round((T - D) / P)` over a wall-clock
  window) depend on real sleeping time and are not stated.
- `Task.java` and `TaskExecutor.java` contain only signatures; the executor's
  class and the `Task` class carry their method sets.
