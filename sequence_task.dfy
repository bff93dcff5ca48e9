/**
 * SequenceTask, and `Task.execute` / `Task.reset` of any task.
 *
 * A SequenceTask is a cursor over a fixed array of member tasks: each tick
 * executes only the member under the cursor; when that member reports
 * finished it is reset and the cursor moves on, wrapping to the first member
 * and counting one more run after the last. The sequence is finished when it
 * has run `timesToRun` times. It is not an AbstractTask: nothing catches a
 * failure in it, and an empty member array makes `tasks[currentTask]` throw
 * out of `execute`, which is modelled by the `thrown` result.
 */
module SequenceTask {
  import opened Tasks
  import AbstractTask

  /** The cursor step after the current member finished. */
  function Advance(s: TaskState, count: nat): (r: TaskState)
    requires s.currentTask < count
    ensures r.currentTask < count
    ensures r.timesRan >= s.timesRan
    ensures r.currentTask == 0 <==> r.timesRan == s.timesRan + 1
    ensures r.(currentTask := s.currentTask, timesRan := s.timesRan) == s
  {
    if s.currentTask + 1 >= count then s.(currentTask := 0, timesRan := s.timesRan + 1)
    else s.(currentTask := s.currentTask + 1)
  }

  /** `k` successive cursor steps. */
  function AdvanceTimes(s: TaskState, count: nat, k: nat): TaskState
    requires s.currentTask < count
  {
    if k == 0 then s else Advance(AdvanceTimes(s, count, k - 1), count)
  }

  /**
   * From the first member, `rounds * count + j` finished members (`j` below
   * `count`) complete `rounds` runs and leave the cursor on member `j`: a
   * sequence that starts over is finished after exactly `timesToRun * count`
   * member completions.
   */
  lemma {:induction false} AdvanceTimesRounds(s: TaskState, count: nat, rounds: nat, j: nat)
    requires s.currentTask == 0 && j < count
    ensures AdvanceTimes(s, count, rounds * count + j).currentTask == j
    ensures AdvanceTimes(s, count, rounds * count + j).timesRan == s.timesRan + rounds
  {
    if j > 0 {
      AdvanceTimesRounds(s, count, rounds, j - 1);
    } else if rounds > 0 {
      AdvanceTimesRounds(s, count, rounds - 1, count - 1);
      assert (rounds - 1) * count + (count - 1) + 1 == rounds * count;
    }
  }

  /** Task.reset of any task; a sequence rewinds its cursor and leaves its members alone. */
  function ResetState(kind: Kind, s: TaskState): (r: TaskState)
  {
    if kind.Sequence? then s.(currentTask := 0, timesRan := 0)
    else AbstractTask.ResetLeaf(kind, s)
  }

  /** `execute` of `t` throws: the cursor of a sequence on the path is out of range. */
  ghost predicate Throws(t: Task)
    requires t.Structure()
    reads t.Repr`state
    decreases t.depth
  {
    t.kind.Sequence? && (t.state.currentTask >= |t.members| || Throws(t.members[t.state.currentTask]))
  }

  /** `before` holds the current state of every object of `t`. */
  ghost predicate Current(t: Task, before: map<Task, TaskState>)
    requires t.Structure()
    reads t.Repr`state
  {
    forall o | o in t.Repr :: o in before && o.state == before[o]
  }

  /** The states of a group of objects and the clock reading after some code ran on them. */
  datatype Outcome = Outcome(states: map<Task, TaskState>, now: nat)

  /**
   * One `execute(delta)` of `t` that does not throw, run on the object
   * states `st` from clock reading `now`, with `work` saying what each task's
   * user code does: the states of all objects afterwards and the clock. A
   * sequence executes its current member; when that member is finished
   * afterwards it is reset and the cursor advances. The states are threaded
   * through one map, so objects shared between members are updated in the
   * order the Java code touches them.
   */
  ghost function Stepped(t: Task, st: map<Task, TaskState>, delta: real, now: nat, work: Task -> UserStep): (r: Outcome)
    requires t.Structure() && t.Repr <= st.Keys
    ensures r.states.Keys == st.Keys && r.now >= now
    // only the objects of `t` change
    ensures forall o | o in st && o !in t.Repr :: r.states[o] == st[o]
    decreases t.depth
  {
    if t.kind.IsLeaf() then
      var e := AbstractTask.Tick(t.kind, st[t], delta, now, work(t));
      Outcome(st[t := e.state], e.now)
    else if st[t].currentTask >= |t.members| then
      // the Java code throws here; see Throws
      Outcome(st, now)
    else
      var m := t.members[st[t].currentTask];
      var r := Stepped(m, st, delta, now, work);
      if FinishedIn(m.kind, r.states[m]) then
        var reset := r.states[m := ResetState(m.kind, r.states[m])];
        Outcome(reset[t := Advance(reset[t], |t.members|)], r.now)
      else
        r
  }

  /** Every object of `t` holds the state that Stepped gives for one execute of `t` from `before`. */
  ghost predicate Executed(t: Task, before: map<Task, TaskState>, delta: real, now: nat, work: Task -> UserStep)
    requires t.Structure() && t.Repr <= before.Keys
    reads t.Repr`state
  {
    var r := Stepped(t, before, delta, now, work);
    forall o | o in t.Repr :: o.state == r.states[o]
  }

  /** Task.reset of any task. */
  method Reset(t: Task)
    modifies t`state
    ensures t.state == ResetState(t.kind, old(t.state))
  {
    if t.kind.Sequence? {
      t.state := t.state.(currentTask := 0);
      t.state := t.state.(timesRan := 0);
    } else {
      AbstractTask.Reset(t);
    }
  }

  /** Task.execute of any task. */
  method Execute(t: Task, delta: real, clock: Clock, work: Task -> UserStep, ghost before: map<Task, TaskState>)
    returns (thrown: bool)
    requires t.Structure() && Current(t, before)
    modifies t.Repr`state, clock
    ensures thrown == old(Throws(t))
    ensures thrown ==> Current(t, before) && clock.now == old(clock.now)
    ensures !thrown ==> Executed(t, before, delta, old(clock.now), work)
    ensures !thrown ==> clock.now == Stepped(t, before, delta, old(clock.now), work).now
    ensures clock.now >= old(clock.now)
    decreases t.depth, 1
  {
    if t.kind.IsLeaf() {
      AbstractTask.Execute(t, delta, clock, work(t));
      thrown := false;
    } else {
      thrown := ExecuteSequence(t, delta, clock, work, before);
    }
  }

  /** SequenceTask.execute. */
  method ExecuteSequence(t: Task, delta: real, clock: Clock, work: Task -> UserStep, ghost before: map<Task, TaskState>)
    returns (thrown: bool)
    requires t.Structure() && t.kind.Sequence? && Current(t, before)
    modifies t.Repr`state, clock
    ensures thrown == old(Throws(t))
    ensures thrown ==> Current(t, before) && clock.now == old(clock.now)
    ensures !thrown ==> Executed(t, before, delta, old(clock.now), work)
    ensures !thrown ==> clock.now == Stepped(t, before, delta, old(clock.now), work).now
    ensures clock.now >= old(clock.now)
    decreases t.depth, 0
  {
    if t.state.currentTask >= |t.members| {
      // tasks[currentTask] throws ArrayIndexOutOfBoundsException
      return true;
    }
    var m := t.members[t.state.currentTask];
    ghost var now0 := clock.now;
    thrown := Execute(m, delta, clock, work, before);
    if thrown {
      return;
    }
    ghost var r := Stepped(m, before, delta, now0, work);
    forall o | o in t.Repr
      ensures o.state == r.states[o]
    {
      if o !in m.Repr {
        assert o.state == before[o];
      }
    }
    if m.IsFinished() {
      label Ran:
      ghost var reset := r.states[m := ResetState(m.kind, r.states[m])];
      ghost var after := Stepped(t, before, delta, now0, work);
      assert after == Outcome(reset[t := Advance(reset[t], |t.members|)], r.now);
      assert reset[t] == before[t] == t.state;
      Reset(m);
      StepCursor(t);
      forall o | o in t.Repr
        ensures o.state == after.states[o]
      {
        if o != t && o != m {
          assert o.state == old@Ran(o.state);
        }
      }
    } else {
      assert Stepped(t, before, delta, now0, work) == r;
    }
  }

  /** The cursor moves past a member that finished, wrapping and counting a run after the last. */
  method StepCursor(t: Task)
    requires t.kind.Sequence? && t.state.currentTask < |t.members|
    modifies t`state
    ensures t.state == Advance(old(t.state), |t.members|)
  {
    t.state := t.state.(currentTask := t.state.currentTask + 1);
    if t.state.currentTask >= |t.members| {
      t.state := t.state.(timesRan := t.state.timesRan + 1);
      t.state := t.state.(currentTask := 0);
    }
  }
}
