/**
 * SingleThreadTaskExecutor: an ordered collection of tasks, driven by ticks.
 *
 * A pass (`execute(delta)`) walks the tasks present when it starts. A task
 * that is not finished is executed; a task that is finished afterwards (or
 * already was) leaves the collection, gets `removed()`, and its successor,
 * if any, is added at the end of the collection.
 */
module Executor {
  import opened Tasks
  import SequenceTask

  /**
   * What a pass did with one task: whether it was skipped because it was
   * already finished, whether it was finished after the visit (and therefore
   * removed), the successor then added, and the clock when the visit began.
   */
  datatype Visit = Visit(task: Task, skipped: bool, finished: bool, successor: Task?, now: nat)

  /** The visited tasks that stay in the collection, in order. */
  function Kept(pass: seq<Visit>): seq<Task>
  {
    if pass == [] then []
    else
      var v := pass[|pass| - 1];
      Kept(pass[..|pass| - 1]) + (if v.finished then [] else [v.task])
  }

  /** The visited tasks that left the collection, in order. */
  function Disposed(pass: seq<Visit>): seq<Task>
  {
    if pass == [] then []
    else
      var v := pass[|pass| - 1];
      Disposed(pass[..|pass| - 1]) + (if v.finished then [v.task] else [])
  }

  /** The successors appended during the pass, in order. */
  function Chained(pass: seq<Visit>): seq<Task>
  {
    if pass == [] then []
    else
      var v := pass[|pass| - 1];
      Chained(pass[..|pass| - 1]) + (if v.finished && v.successor != null then [v.successor] else [])
  }

  /** Extending a pass by one visit extends its three outcomes by that visit's share. */
  lemma AppendVisit(pass: seq<Visit>, v: Visit)
    ensures Kept(pass + [v]) == Kept(pass) + (if v.finished then [] else [v.task])
    ensures Disposed(pass + [v]) == Disposed(pass) + (if v.finished then [v.task] else [])
    ensures Chained(pass + [v]) == Chained(pass) + (if v.finished && v.successor != null then [v.successor] else [])
  {
    assert (pass + [v])[..|pass|] == pass;
  }

  /** A visit that finished its task counts that task among the departures. */
  lemma {:induction false} DisposedHolds(pass: seq<Visit>, j: nat)
    requires j < |pass| && pass[j].finished
    ensures pass[j].task in Disposed(pass)
    decreases |pass|
  {
    if j < |pass| - 1 {
      DisposedHolds(pass[..|pass| - 1], j);
    }
  }

  /** A visit that left its task unfinished keeps it in the collection. */
  lemma {:induction false} KeptHolds(pass: seq<Visit>, j: nat)
    requires j < |pass| && !pass[j].finished
    ensures pass[j].task in Kept(pass)
    decreases |pass|
  {
    if j < |pass| - 1 {
      KeptHolds(pass[..|pass| - 1], j);
    }
  }

  /** The parts of a collection around position `|front|`. */
  lemma SplitAround(front: seq<Task>, x: Task, rest: seq<Task>)
    ensures (front + [x] + rest)[..|front|] == front
    ensures (front + [x] + rest)[|front|] == x
    ensures (front + [x] + rest)[|front| + 1..] == rest
  {
  }

  /** Entry `i` of the snapshot sits right after the kept tasks. */
  lemma HeldAt(held: seq<Task>, kept: seq<Task>, snapshot: seq<Task>, i: nat, chained: seq<Task>)
    requires i < |snapshot| && held == kept + snapshot[i..] + chained
    ensures |kept| < |held| && held[|kept|] == snapshot[i]
  {
  }

  lemma Regroup(a: seq<Task>, m: seq<Task>, b: seq<Task>, c: seq<Task>, t: seq<Task>)
    ensures a + m + (b + c) + t == a + m + b + (c + t)
  {
  }

  /** Collection.remove(o) of the queue: drop the first occurrence of `t`, if any. */
  function RemoveFirst(s: seq<Task>, t: Task): (r: seq<Task>)
    ensures t !in s ==> r == s
    ensures t in s ==> |r| == |s| - 1 && multiset(r) == multiset(s) - multiset{t}
    ensures forall x | x in r :: x in s
  {
    if s == [] then []
    else if s[0] == t then
      assert s == [s[0]] + s[1..];
      s[1..]
    else
      assert s == [s[0]] + s[1..];
      [s[0]] + RemoveFirst(s[1..], t)
  }

  /**
   * execute(): the delta it hands to execute(delta), in seconds. After a
   * completed pass that ended at a positive clock reading, it is the time
   * since that pass began; before any pass it is 0.
   */
  function SelfTimedDelta(lastUpdate: int, lastExecutionTime: int, now: nat): (d: real)
    ensures lastUpdate == 0 && lastExecutionTime == 0 ==> d == 0.0
    ensures 0 < lastUpdate ==> d == (now - (lastUpdate - lastExecutionTime)) as real / 1000000000.0
    ensures 0 <= lastExecutionTime <= lastUpdate <= now ==> d >= 0.0
  {
    ((if lastUpdate > 0 then now - lastUpdate else 0) + lastExecutionTime) as real / 1000000000.0
  }

  /** Entry `i` of `ts` shares no object with any other entry (nor is it repeated). */
  ghost predicate Isolated(ts: seq<Task>, i: int)
    requires 0 <= i < |ts|
  {
    forall j | 0 <= j < |ts| && j != i :: ts[j].Repr !! ts[i].Repr
  }

  /**
   * What a visit did to task `t`, given the states of its objects when the
   * pass began: a task finished then is skipped and left alone, any other is
   * executed once; `finished` is its state afterwards.
   */
  ghost predicate Visited(t: Task, skipped: bool, finished: bool, now: nat, before: map<Task, TaskState>,
                          delta: real, work: Task -> UserStep)
    requires t.Structure() && t.Repr <= before.Keys
    reads t.Repr`state
  {
    && skipped == FinishedIn(t.kind, before[t])
    && finished == t.IsFinished()
    && if skipped then SequenceTask.Current(t, before)
       else SequenceTask.Executed(t, before, delta, now, work)
  }

  /** What visit `v` did to its task. */
  ghost predicate VisitEffect(v: Visit, before: map<Task, TaskState>, delta: real, work: Task -> UserStep)
    requires v.task.Structure() && v.task.Repr <= before.Keys
    reads v.task.Repr`state
  {
    Visited(v.task, v.skipped, v.finished, v.now, before, delta, work)
  }

  /** The first half of a visit: execute `t` unless it is already finished. */
  method ExecuteUnlessFinished(t: Task, delta: real, clock: Clock, work: Task -> UserStep,
                               ghost before: map<Task, TaskState>)
    returns (skipped: bool, finished: bool, thrown: bool)
    requires t.Structure() && SequenceTask.Current(t, before)
    modifies t.Repr`state, clock
    ensures thrown ==> SequenceTask.Current(t, before) && clock.now == old(clock.now)
    ensures thrown ==> Throwing(t)
    ensures !thrown ==> Visited(t, skipped, finished, old(clock.now), before, delta, work)
    ensures clock.now >= old(clock.now)
  {
    finished := t.IsFinished();
    skipped := finished;
    assert t in t.Repr && t.state == before[t];
    thrown := false;
    if !finished {
      thrown := SequenceTask.Execute(t, delta, clock, work, before);
      if thrown {
        ThrowsKept(t);
      } else {
        finished := t.IsFinished();
      }
    }
  }

  /** Whether `t` throws, and whether it is finished, depend on the states of its objects only. */
  twostate lemma ThrowsKept(t: Task)
    requires t.Structure() && forall o | o in t.Repr :: o.state == old(o.state)
    ensures old(SequenceTask.Throws(t)) == SequenceTask.Throws(t)
    ensures old(t.IsFinished()) == t.IsFinished()
  {
  }

  /** A pass that ended early stopped at a task that was not finished and threw. */
  ghost predicate Stopped(before: seq<Task>, pass: seq<Visit>)
    requires forall t | t in before :: t.Structure()
    reads ReprOf(before)`state
  {
    |pass| < |before| ==> Throwing(before[|pass|])
  }

  /** `t` is not finished and its `execute` throws. */
  ghost predicate Throwing(t: Task)
    requires t.Structure()
    reads t.Repr`state
  {
    !t.IsFinished() && SequenceTask.Throws(t)
  }

  /** The calls of the executor's hooks a task has received. */
  datatype Calls = Calls(added: nat, removed: nat, create: nat, dispose: nat)

  function CallsOf(o: Task): Calls
    reads o`addedCalls, o`removedCalls, o`createCalls, o`disposeCalls
  {
    Calls(o.addedCalls, o.removedCalls, o.createCalls, o.disposeCalls)
  }

  /**
   * `c` after `removed` removals and `added` additions of a task of kind
   * `kind`: onDispose and onCreate are AbstractTask's, a sequence has neither.
   */
  function Bumped(c: Calls, kind: Kind, removed: nat, added: nat): Calls
  {
    Calls(c.added + added, c.removed + removed,
          c.create + (if kind.IsLeaf() then added else 0), c.dispose + (if kind.IsLeaf() then removed else 0))
  }

  ghost function CallsSnap(s: set<Task>): map<Task, Calls>
    reads s`addedCalls, s`removedCalls, s`createCalls, s`disposeCalls
  {
    map o | o in s :: CallsOf(o)
  }

  ghost function Elems(ts: seq<Task>): set<Task>
  {
    set t | t in ts
  }

  /**
   * One turn of a pass, as the lemmas about it see it: the snapshot, the
   * successors, hook counters and task states the pass started from, its
   * arguments, the position `i` in the snapshot and `k` in the collection,
   * and the visits so far.
   */
  datatype Step = Step(snapshot: seq<Task>, next0: map<Task, Successor>, succ0: set<Task>,
                       calls0: map<Task, Calls>, initial: map<Task, TaskState>, delta: real,
                       work: Task -> UserStep, i: nat, k: nat, pass: seq<Visit>)

  /** A completed pass: what it started from, its arguments and its visits. */
  datatype PassRecord = PassRecord(before: seq<Task>, next0: map<Task, Successor>, calls0: map<Task, Calls>,
                                   initial: map<Task, TaskState>, pass: seq<Visit>, delta: real,
                                   work: Task -> UserStep)

  /** The objects of every task of `snapshot` but those of entry `i`. */
  ghost function Others(snapshot: seq<Task>, i: int): set<Task>
    requires 0 <= i < |snapshot|
  {
    ReprOf(snapshot) - snapshot[i].Repr
  }

  /** The successor of `t`, as a frame. */
  ghost function NextOf(t: Task): set<Task>
    reads t`next
  {
    if t.GetNext() == null then {} else {t.GetNext() as Task}
  }

  class SingleThreadTaskExecutor {
    var tasks: seq<Task>
    /** The clock reading at the end of the last completed pass; 0 before any. */
    var lastUpdate: int
    /** The duration of the last completed pass in nanoseconds. */
    var lastExecutionTime: int
    /** The source of System.nanoTime() readings. */
    const clock: Clock
    /** The clock reading at the start of the last completed pass. */
    ghost var lastStart: int

    ghost predicate Valid()
      reads this`tasks, this`lastUpdate, this`lastExecutionTime, this`lastStart, clock
    {
      && (forall t | t in tasks :: t.Structure())
      && 0 <= lastExecutionTime <= lastUpdate <= clock.now
      && lastStart == lastUpdate - lastExecutionTime
    }

    ghost function Elements(): set<Task>
      reads this`tasks
    {
      set t | t in tasks
    }

    /** The successors of the held tasks. */
    ghost function Successors(): set<Task>
      reads this`tasks, Elements()
    {
      set t | t in tasks && t.GetNext() != null :: t.GetNext() as Task
    }

    constructor (clock: Clock)
      ensures Valid() && this.clock == clock
      ensures tasks == [] && lastUpdate == 0 && lastExecutionTime == 0
    {
      this.clock := clock;
      tasks := [];
      lastUpdate := 0;
      lastExecutionTime := 0;
      lastStart := 0;
    }

    /** add: the task is told it was added (onCreate), then appended. */
    method Add(t: Task)
      requires Valid() && t.Structure()
      modifies this`tasks, t`addedCalls, t`createCalls
      ensures Valid()
      ensures tasks == old(tasks) + [t]
      ensures t.addedCalls == old(t.addedCalls) + 1
      ensures t.createCalls == old(t.createCalls) + (if t.kind.IsLeaf() then 1 else 0)
    {
      t.Added();
      tasks := tasks + [t];
    }

    /** remove: the first occurrence leaves the collection; the task is told in any case. */
    method Remove(t: Task)
      requires Valid()
      modifies this`tasks, t`removedCalls, t`disposeCalls
      ensures Valid()
      ensures tasks == RemoveFirst(old(tasks), t)
      ensures t.removedCalls == old(t.removedCalls) + 1
      ensures t.disposeCalls == old(t.disposeCalls) + (if t.kind.IsLeaf() then 1 else 0)
    {
      tasks := RemoveFirst(tasks, t);
      t.Removed();
    }

    /**
     * One step of the pass loop on the task at position `k`: execute it
     * unless it is finished; if it is finished afterwards, take it out
     * (iterator.remove), tell it (removed) and add its successor.
     */
    method VisitAt(t: Task, k: nat, delta: real, work: Task -> UserStep, ghost before: map<Task, TaskState>,
                   ghost watched: set<Task>, ghost others: set<Task>, ghost fixed: set<Task>)
      returns (v: Visit, thrown: bool)
      requires Valid() && k < |tasks| && tasks[k] == t && SequenceTask.Current(t, before) && others !! t.Repr
      modifies this`tasks, clock, t`removedCalls, t`disposeCalls,
               NextOf(t)`addedCalls, NextOf(t)`createCalls,
               t.Repr`state
      ensures Valid() && v.task == t && v.now == old(clock.now) && clock.now >= old(clock.now)
      ensures v.skipped ==> v.finished
      ensures v.successor == if v.finished then v.task.GetNext() else null
      ensures thrown ==> tasks == old(tasks) && SequenceTask.Current(v.task, before) && clock.now == old(clock.now)
      ensures thrown ==> !v.finished
      ensures thrown ==> Throwing(v.task)
      // the objects of other tasks, and every successor link, are left alone
      ensures unchanged(others`state)
      ensures unchanged(fixed`next)
      ensures !thrown ==> VisitEffect(v, before, delta, work)
      ensures !thrown ==> tasks == old(tasks[..k]) + (if v.finished then [] else [v.task]) + old(tasks[k + 1..])
                                   + (if v.finished && v.successor != null then [v.successor] else [])
      // hook calls: removed() on the task and added() on its successor when it finished
      ensures forall o | o in watched ::
        CallsOf(o) == Bumped(old(CallsOf(o)), o.kind, if !thrown && v.finished && o == v.task then 1 else 0,
                             if !thrown && v.finished && o == v.successor then 1 else 0)
    {
      v := Visit(t, false, false, null, clock.now);
      assert tasks[k] in tasks;
      var skipped, finished;
      skipped, finished, thrown := ExecuteUnlessFinished(t, delta, clock, work, before);
      if thrown {
        return;
      }
      var successor: Successor := if finished then t.GetNext() else null;
      v := Visit(t, skipped, finished, successor, v.now);
      if finished {
        Retire(t, k, watched);
        assert old(tasks[..k]) + [] == old(tasks[..k]);
      } else {
        assert tasks == tasks[..k] + [tasks[k]] + tasks[k + 1..];
      }
    }

    /**
     * The second half of a visit to a finished task: iterator.remove, then
     * removed(), then add(successor) when there is one.
     */
    method Retire(t: Task, k: nat, ghost watched: set<Task>)
      requires Valid() && k < |tasks| && tasks[k] == t
      modifies this`tasks, t`removedCalls, t`disposeCalls, NextOf(t)`addedCalls, NextOf(t)`createCalls
      ensures Valid()
      ensures tasks == old(tasks[..k]) + old(tasks[k + 1..]) + (if t.GetNext() != null then [t.GetNext() as Task] else [])
      ensures forall o | o in watched ::
        CallsOf(o) == Bumped(old(CallsOf(o)), o.kind, if o == t then 1 else 0, if o == t.GetNext() then 1 else 0)
    {
      assert tasks[k] in tasks;
      tasks := tasks[..k] + tasks[k + 1..];
      assert forall x | x in tasks :: x in old(tasks);
      t.Removed();
      var successor := t.GetNext();
      if successor != null {
        Add(successor);
      }
    }

    /** The successor of each held task, as a map. */
    ghost function NextMap(): (m: map<Task, Successor>)
      reads this`tasks, Elements()`next
      ensures forall t | t in tasks :: t in m && m[t] == t.GetNext()
    {
      map t | t in tasks :: t.GetNext()
    }

    /**
     * What a pass over `before` did, given the successors `next0`, the hook
     * counters `calls0` and the task states `initial` it started from: it
     * visited a prefix of `before` (all of it unless a visit threw); the
     * tasks still unfinished stay in order, the finished ones leave and
     * their successors are appended; removed() and added() were called once
     * per departure and per successor; a task that shares no object with
     * the others was skipped and left untouched or executed once, and one
     * not reached is as it was.
     */
    ghost predicate PassOutcome(before: seq<Task>, next0: map<Task, Successor>, calls0: map<Task, Calls>,
                                initial: map<Task, TaskState>, pass: seq<Visit>, delta: real,
                                work: Task -> UserStep, thrown: bool)
      reads this`tasks, calls0.Keys`addedCalls, calls0.Keys`removedCalls, calls0.Keys`createCalls,
            calls0.Keys`disposeCalls, ReprOf(before)`state
    {
      && |pass| <= |before| && (thrown <==> |pass| < |before|)
      && (forall j | 0 <= j < |pass| :: pass[j].task == before[j])
      && tasks == Kept(pass) + before[|pass|..] + Chained(pass)
      && (forall j | 0 <= j < |pass| :: pass[j].skipped ==> pass[j].finished)
      && (forall j | 0 <= j < |pass| ::
            before[j] in next0 && pass[j].successor == if pass[j].finished then next0[before[j]] else null)
      && (forall o | o in calls0 ::
            CallsOf(o) == Bumped(calls0[o], o.kind, multiset(Disposed(pass))[o], multiset(Chained(pass))[o]))
      && PassEffects(before, |pass|, pass, initial, delta, work)
      && Stopped(before, pass)
    }

    /**
     * Where a pass stands after visiting the first `i` tasks of `snapshot`,
     * `k` of which are still held: the collection and the visits so far.
     */
    ghost predicate PassShape(snapshot: seq<Task>, next0: map<Task, Successor>, i: int, k: int, pass: seq<Visit>)
      reads this`tasks
    {
      && 0 <= i <= |snapshot| && |pass| == i
      && k == |Kept(pass)|
      && tasks == Kept(pass) + snapshot[i..] + Chained(pass)
      && (forall t | t in tasks :: t.Structure())
      && (forall t | t in snapshot :: t in next0)
      && (forall j | 0 <= j < i :: pass[j].task == snapshot[j])
      && (forall j | 0 <= j < i :: pass[j].skipped ==> pass[j].finished)
      && (forall j | 0 <= j < i :: pass[j].successor == if pass[j].finished then next0[snapshot[j]] else null)
    }

    /** The successors of the snapshot are those recorded when the pass began. */
    ghost predicate PassNexts(snapshot: seq<Task>, next0: map<Task, Successor>, succ0: set<Task>)
      reads Elems(snapshot)`next
    {
      forall t | t in snapshot :: t in next0 && t.GetNext() == next0[t] && NextOf(t) <= succ0
    }

    /** The hook calls so far: one removed() per departure, one added() per successor. */
    ghost predicate PassCalls(pass: seq<Visit>, calls0: map<Task, Calls>)
      reads calls0.Keys`addedCalls, calls0.Keys`removedCalls, calls0.Keys`createCalls, calls0.Keys`disposeCalls
    {
      forall o | o in calls0 ::
        CallsOf(o) == Bumped(calls0[o], o.kind, multiset(Disposed(pass))[o], multiset(Chained(pass))[o])
    }

    /** The isolated tasks: visited ones as the visit left them, the others untouched. */
    ghost predicate PassEffects(snapshot: seq<Task>, i: int, pass: seq<Visit>, initial: map<Task, TaskState>,
                                delta: real, work: Task -> UserStep)
      reads ReprOf(snapshot)`state
    {
      && 0 <= i <= |snapshot| && |pass| == i
      && (forall t | t in snapshot :: t.Structure())
      && ReprOf(snapshot) <= initial.Keys
      && (forall j | 0 <= j < i :: pass[j].task == snapshot[j])
      && (forall j | 0 <= j < i && Isolated(snapshot, j) :: VisitEffect(pass[j], initial, delta, work))
      && (forall j | i <= j < |snapshot| && Isolated(snapshot, j) :: SequenceTask.Current(snapshot[j], initial))
    }

    /** A visit that did not throw moves the collection and the visits on by one. */
    twostate lemma ShapeAfterVisit(s: Step, new v: Visit)
      requires old(PassShape(s.snapshot, s.next0, s.i, s.k, s.pass)) && s.i < |s.snapshot| && v.task == s.snapshot[s.i]
      requires v.skipped ==> v.finished
      requires v.successor == if v.finished then s.next0[v.task] else null
      requires forall t | t in tasks :: t.Structure()
      requires tasks == old(tasks[..s.k]) + (if v.finished then [] else [v.task]) + old(tasks[s.k + 1..])
                        + (if v.finished && v.successor != null then [v.successor] else [])
      ensures PassShape(s.snapshot, s.next0, s.i + 1, if v.finished then s.k else s.k + 1, s.pass + [v])
    {
      ghost var rest := s.snapshot[s.i + 1..] + Chained(s.pass);
      assert s.snapshot[s.i..] == [v.task] + s.snapshot[s.i + 1..];
      assert old(tasks) == Kept(s.pass) + [v.task] + rest;
      SplitAround(Kept(s.pass), v.task, rest);
      AppendVisit(s.pass, v);
      Regroup(Kept(s.pass), if v.finished then [] else [v.task], s.snapshot[s.i + 1..], Chained(s.pass),
              if v.finished && v.successor != null then [v.successor] else []);
      ghost var extended := s.pass + [v];
      forall j | 0 <= j < s.i + 1
        ensures extended[j].task == s.snapshot[j] && (extended[j].skipped ==> extended[j].finished)
        ensures extended[j].successor == if extended[j].finished then s.next0[s.snapshot[j]] else null
      {
        if j < s.i {
          assert extended[j] == s.pass[j];
        }
      }
    }

    /** Before the first visit the pass invariants hold of the collection as it is. */
    lemma PassAtStart()
      returns (next0: map<Task, Successor>, succ0: set<Task>, calls0: map<Task, Calls>, initial: map<Task, TaskState>)
      requires Valid()
      ensures initial == Snap(ReprOf(tasks)) && succ0 == Successors()
      ensures next0 == NextMap() && calls0 == CallsSnap(Elements() + Successors())
      ensures forall t | t in tasks :: t in next0 && next0[t] == t.GetNext()
      ensures Elems(tasks) + succ0 <= calls0.Keys
      ensures forall o | o in calls0 :: calls0[o] == CallsOf(o)
    {
      initial := Snap(ReprOf(tasks));
      next0 := NextMap();
      succ0 := Successors();
      calls0 := CallsSnap(Elements() + succ0);
    }

    /** Before the first visit the pass invariants hold. */
    lemma PassBegins(next0: map<Task, Successor>, succ0: set<Task>, calls0: map<Task, Calls>,
                     initial: map<Task, TaskState>, delta: real, work: Task -> UserStep)
      requires Valid() && initial == Snap(ReprOf(tasks)) && succ0 == Successors()
      requires forall t | t in tasks :: t in next0 && next0[t] == t.GetNext()
      requires forall o | o in calls0 :: calls0[o] == CallsOf(o)
      ensures PassShape(tasks, next0, 0, 0, []) && PassNexts(tasks, next0, succ0)
      ensures PassCalls([], calls0) && PassEffects(tasks, 0, [], initial, delta, work)
    {
      assert tasks[0..] == tasks;
      forall j | 0 <= j < |tasks|
        ensures SequenceTask.Current(tasks[j], initial)
      {
        assert tasks[j] in tasks;
      }
    }

    /** A visit that threw leaves the collection as it was. */
    twostate lemma ShapeKept(s: Step)
      requires old(PassShape(s.snapshot, s.next0, s.i, s.k, s.pass)) && tasks == old(tasks)
      ensures PassShape(s.snapshot, s.next0, s.i, s.k, s.pass)
    {
    }

    /** A visit that threw called no hook. */
    twostate lemma CallsKept(s: Step)
      requires old(PassCalls(s.pass, s.calls0))
      requires forall o | o in s.calls0 :: CallsOf(o) == Bumped(old(CallsOf(o)), o.kind, 0, 0)
      ensures PassCalls(s.pass, s.calls0)
    {
    }

    /** A visit changes the hook calls of its task and of its successor only. */
    twostate lemma CallsAfterVisit(s: Step, new v: Visit)
      requires old(PassCalls(s.pass, s.calls0))
      requires forall o | o in s.calls0 ::
        CallsOf(o) == Bumped(old(CallsOf(o)), o.kind, if v.finished && o == v.task then 1 else 0,
                             if v.finished && o == v.successor then 1 else 0)
      ensures PassCalls(s.pass + [v], s.calls0)
    {
      forall o | o in s.calls0
        ensures CallsOf(o) == Bumped(s.calls0[o], o.kind, multiset(Disposed(s.pass + [v]))[o],
                                     multiset(Chained(s.pass + [v]))[o])
      {
        CallsExtended(s.calls0[o], old(CallsOf(o)), CallsOf(o), o, s.pass, v);
      }
    }

    /** The hook calls of `o` before a pass (`c0`), before a visit (`c1`) and after it (`c2`). */
    lemma CallsExtended(c0: Calls, c1: Calls, c2: Calls, o: Task, pass: seq<Visit>, v: Visit)
      requires c1 == Bumped(c0, o.kind, multiset(Disposed(pass))[o], multiset(Chained(pass))[o])
      requires c2 == Bumped(c1, o.kind, if v.finished && o == v.task then 1 else 0,
                            if v.finished && o == v.successor then 1 else 0)
      ensures c2 == Bumped(c0, o.kind, multiset(Disposed(pass + [v]))[o], multiset(Chained(pass + [v]))[o])
    {
      AppendVisit(pass, v);
    }

    /** A visit leaves the objects of the other tasks alone. */
    twostate lemma EffectsAfterVisit(s: Step, new v: Visit)
      requires old(PassEffects(s.snapshot, s.i, s.pass, s.initial, s.delta, s.work)) && s.i < |s.snapshot| && v.task == s.snapshot[s.i]
      requires Isolated(s.snapshot, s.i) ==> VisitEffect(v, s.initial, s.delta, s.work)
      requires unchanged(Others(s.snapshot, s.i)`state)
      ensures PassEffects(s.snapshot, s.i + 1, s.pass + [v], s.initial, s.delta, s.work)
    {
      OthersKept(s);
      EffectsExtended(s.snapshot, s.i, s.pass, v, s.initial, s.delta, s.work);
    }

    /** The effects of the visits so far, extended by the effect of visit `v` to `snapshot[i]`. */
    lemma EffectsExtended(snapshot: seq<Task>, i: nat, pass: seq<Visit>, v: Visit, initial: map<Task, TaskState>,
                          delta: real, work: Task -> UserStep)
      requires i < |snapshot| && |pass| == i && v.task == snapshot[i]
      requires (forall t | t in snapshot :: t.Structure()) && ReprOf(snapshot) <= initial.Keys
      requires forall j | 0 <= j < i :: pass[j].task == snapshot[j]
      requires forall j | 0 <= j < i && Isolated(snapshot, j) :: VisitEffect(pass[j], initial, delta, work)
      requires Isolated(snapshot, i) ==> VisitEffect(v, initial, delta, work)
      requires forall j | i < j < |snapshot| && Isolated(snapshot, j) :: SequenceTask.Current(snapshot[j], initial)
      ensures PassEffects(snapshot, i + 1, pass + [v], initial, delta, work)
    {
      ghost var extended := pass + [v];
      assert forall j | 0 <= j < i :: extended[j] == pass[j];
      assert extended[i] == v;
      forall j | 0 <= j < i + 1 && Isolated(snapshot, j)
        ensures VisitEffect(extended[j], initial, delta, work)
      {
        assert snapshot[j] in snapshot;
        if j < i {
          assert VisitEffect(pass[j], initial, delta, work);
        }
      }
    }

    /** A visit that threw leaves the objects of the other tasks alone as well. */
    twostate lemma EffectsAfterThrow(s: Step)
      requires old(PassEffects(s.snapshot, s.i, s.pass, s.initial, s.delta, s.work)) && s.i < |s.snapshot|
      requires Isolated(s.snapshot, s.i) ==> SequenceTask.Current(s.snapshot[s.i], s.initial)
      requires unchanged(Others(s.snapshot, s.i)`state)
      ensures PassEffects(s.snapshot, s.i, s.pass, s.initial, s.delta, s.work)
    {
      OthersKept(s);
    }

    /** The isolated tasks other than the one at `s.i` are as the pass left them. */
    twostate lemma OthersKept(s: Step)
      requires old(PassEffects(s.snapshot, s.i, s.pass, s.initial, s.delta, s.work)) && s.i < |s.snapshot|
      requires unchanged(Others(s.snapshot, s.i)`state)
      ensures forall j | 0 <= j < s.i && Isolated(s.snapshot, j) :: VisitEffect(s.pass[j], s.initial, s.delta, s.work)
      ensures forall j | s.i < j < |s.snapshot| && Isolated(s.snapshot, j) :: SequenceTask.Current(s.snapshot[j], s.initial)
    {
      forall j | 0 <= j < s.i && Isolated(s.snapshot, j)
        ensures VisitEffect(s.pass[j], s.initial, s.delta, s.work)
      {
        assert s.snapshot[j] in s.snapshot && s.snapshot[j].Repr !! s.snapshot[s.i].Repr;
        assert old(VisitEffect(s.pass[j], s.initial, s.delta, s.work));
      }
      forall j | s.i < j < |s.snapshot| && Isolated(s.snapshot, j)
        ensures SequenceTask.Current(s.snapshot[j], s.initial)
      {
        assert s.snapshot[j] in s.snapshot && s.snapshot[j].Repr !! s.snapshot[s.i].Repr;
        assert old(SequenceTask.Current(s.snapshot[j], s.initial));
      }
    }

    /** The successors do not change while `next` does not. */
    twostate lemma NextsKept(s: Step)
      requires old(PassNexts(s.snapshot, s.next0, s.succ0)) && unchanged(Elems(s.snapshot)`next)
      ensures PassNexts(s.snapshot, s.next0, s.succ0)
    {
      forall t | t in s.snapshot
        ensures t in s.next0 && t.GetNext() == s.next0[t] && NextOf(t) <= s.succ0
      {
        assert t in Elems(s.snapshot);
        assert old(t.GetNext()) == s.next0[t] && old(NextOf(t)) <= s.succ0;
      }
    }

    /** A visit that threw leaves every pass invariant at the same position. */
    twostate lemma AfterThrow(s: Step)
      requires s.i < |s.snapshot|
      requires old(PassShape(s.snapshot, s.next0, s.i, s.k, s.pass)) && old(PassNexts(s.snapshot, s.next0, s.succ0))
      requires old(PassCalls(s.pass, s.calls0)) && old(PassEffects(s.snapshot, s.i, s.pass, s.initial, s.delta, s.work))
      requires tasks == old(tasks) && unchanged(Elems(s.snapshot)`next)
      requires forall o | o in s.calls0 :: CallsOf(o) == Bumped(old(CallsOf(o)), o.kind, 0, 0)
      requires Isolated(s.snapshot, s.i) ==> SequenceTask.Current(s.snapshot[s.i], s.initial)
      requires unchanged(Others(s.snapshot, s.i)`state)
      ensures PassShape(s.snapshot, s.next0, s.i, s.k, s.pass) && PassNexts(s.snapshot, s.next0, s.succ0)
      ensures PassCalls(s.pass, s.calls0) && PassEffects(s.snapshot, s.i, s.pass, s.initial, s.delta, s.work)
    {
      NextsKept(s);
      ShapeKept(s);
      CallsKept(s);
      EffectsAfterThrow(s);
    }

    /** A visit that did not throw moves every pass invariant on by one position. */
    twostate lemma AfterVisit(s: Step, new v: Visit)
      requires s.i < |s.snapshot| && v.task == s.snapshot[s.i]
      requires old(PassShape(s.snapshot, s.next0, s.i, s.k, s.pass)) && old(PassNexts(s.snapshot, s.next0, s.succ0))
      requires old(PassCalls(s.pass, s.calls0)) && old(PassEffects(s.snapshot, s.i, s.pass, s.initial, s.delta, s.work))
      requires unchanged(Elems(s.snapshot)`next)
      requires v.skipped ==> v.finished
      requires v.successor == if v.finished then v.task.GetNext() else null
      requires forall t | t in tasks :: t.Structure()
      requires tasks == old(tasks[..s.k]) + (if v.finished then [] else [v.task]) + old(tasks[s.k + 1..])
                        + (if v.finished && v.successor != null then [v.successor] else [])
      requires forall o | o in s.calls0 ::
        CallsOf(o) == Bumped(old(CallsOf(o)), o.kind, if v.finished && o == v.task then 1 else 0,
                             if v.finished && o == v.successor then 1 else 0)
      requires Isolated(s.snapshot, s.i) ==> VisitEffect(v, s.initial, s.delta, s.work)
      requires unchanged(Others(s.snapshot, s.i)`state)
      ensures PassShape(s.snapshot, s.next0, s.i + 1, if v.finished then s.k else s.k + 1, s.pass + [v])
      ensures PassNexts(s.snapshot, s.next0, s.succ0) && PassCalls(s.pass + [v], s.calls0)
      ensures PassEffects(s.snapshot, s.i + 1, s.pass + [v], s.initial, s.delta, s.work)
    {
      NextsKept(s);
      ShapeAfterVisit(s, v);
      CallsAfterVisit(s, v);
      EffectsAfterVisit(s, v);
    }

    /** Where the pass stands after the visit at `s.i`, whether it threw or not. */
    twostate lemma AfterVisitAt(s: Step, new v: Visit, new thrown: bool)
      requires s.i < |s.snapshot| && v.task == s.snapshot[s.i]
      requires old(PassShape(s.snapshot, s.next0, s.i, s.k, s.pass)) && old(PassNexts(s.snapshot, s.next0, s.succ0))
      requires old(PassCalls(s.pass, s.calls0)) && old(PassEffects(s.snapshot, s.i, s.pass, s.initial, s.delta, s.work))
      requires unchanged(Elems(s.snapshot)`next) && unchanged(Others(s.snapshot, s.i)`state)
      requires v.skipped ==> v.finished
      requires v.successor == if v.finished then v.task.GetNext() else null
      requires forall t | t in tasks :: t.Structure()
      requires thrown ==> tasks == old(tasks) && !v.finished
      requires thrown ==> Isolated(s.snapshot, s.i) ==> SequenceTask.Current(s.snapshot[s.i], s.initial)
      requires !thrown ==> tasks == old(tasks[..s.k]) + (if v.finished then [] else [v.task]) + old(tasks[s.k + 1..])
                                    + (if v.finished && v.successor != null then [v.successor] else [])
      requires !thrown ==> Isolated(s.snapshot, s.i) ==> VisitEffect(v, s.initial, s.delta, s.work)
      requires forall o | o in s.calls0 ::
        CallsOf(o) == Bumped(old(CallsOf(o)), o.kind, if !thrown && v.finished && o == v.task then 1 else 0,
                             if !thrown && v.finished && o == v.successor then 1 else 0)
      ensures PassNexts(s.snapshot, s.next0, s.succ0)
      ensures thrown ==> PassShape(s.snapshot, s.next0, s.i, s.k, s.pass)
      ensures thrown ==> PassCalls(s.pass, s.calls0) && PassEffects(s.snapshot, s.i, s.pass, s.initial, s.delta, s.work)
      ensures !thrown ==> PassShape(s.snapshot, s.next0, s.i + 1, if v.finished then s.k else s.k + 1, s.pass + [v])
      ensures !thrown ==> PassCalls(s.pass + [v], s.calls0)
      ensures !thrown ==> PassEffects(s.snapshot, s.i + 1, s.pass + [v], s.initial, s.delta, s.work)
    {
      if thrown {
        AfterThrow(s);
      } else {
        AfterVisit(s, v);
      }
    }

    /**
     * One turn of the pass loop: visit `snapshot[i]`, held at position `k`;
     * `s` records where the pass stands.
     */
    method PassStep(t: Task, k: nat, delta: real, work: Task -> UserStep, ghost s: Step)
      returns (k': nat, thrown: bool, v: Visit)
      requires s.i < |s.snapshot| && s.snapshot[s.i] == t && Valid()
      requires s.k == k && s.delta == delta && s.work == work
      requires PassShape(s.snapshot, s.next0, s.i, s.k, s.pass) && PassNexts(s.snapshot, s.next0, s.succ0)
      requires PassCalls(s.pass, s.calls0) && Elems(s.snapshot) + s.succ0 <= s.calls0.Keys
      requires PassEffects(s.snapshot, s.i, s.pass, s.initial, s.delta, s.work)
      modifies this`tasks, clock, t`removedCalls, t`disposeCalls,
               NextOf(t)`addedCalls, NextOf(t)`createCalls,
               t.Repr`state
      ensures Valid() && clock.now >= old(clock.now) && PassNexts(s.snapshot, s.next0, s.succ0)
      ensures thrown ==> Throwing(t)
      ensures thrown ==> PassShape(s.snapshot, s.next0, s.i, s.k, s.pass)
      ensures thrown ==> PassCalls(s.pass, s.calls0) && PassEffects(s.snapshot, s.i, s.pass, s.initial, s.delta, s.work)
      ensures !thrown ==> PassShape(s.snapshot, s.next0, s.i + 1, k', s.pass + [v]) && PassCalls(s.pass + [v], s.calls0)
      ensures !thrown ==> PassEffects(s.snapshot, s.i + 1, s.pass + [v], s.initial, s.delta, s.work)
    {
      ghost var before := if Isolated(s.snapshot, s.i) then s.initial else Snap(t.Repr);
      HeldAt(tasks, Kept(s.pass), s.snapshot, s.i, Chained(s.pass));
      v, thrown := VisitAt(t, k, delta, work, before, s.calls0.Keys, Others(s.snapshot, s.i), Elems(s.snapshot));
      AfterVisitAt(s, v, thrown);
      k' := if v.finished then k else k + 1;
    }

    /** One turn of the pass loop, stated as the loop's invariants at the next position. */
    method PassTurn(t: Task, i: nat, k: nat, delta: real, work: Task -> UserStep, ghost s: Step)
      returns (i': nat, k': nat, ghost pass': seq<Visit>, thrown: bool)
      requires s.i == i && i < |s.snapshot| && s.snapshot[i] == t && Valid()
      requires s.k == k && s.delta == delta && s.work == work
      requires PassShape(s.snapshot, s.next0, s.i, s.k, s.pass) && PassNexts(s.snapshot, s.next0, s.succ0)
      requires PassCalls(s.pass, s.calls0) && Elems(s.snapshot) + s.succ0 <= s.calls0.Keys
      requires PassEffects(s.snapshot, s.i, s.pass, s.initial, s.delta, s.work)
      modifies this`tasks, clock, t`removedCalls, t`disposeCalls,
               NextOf(t)`addedCalls, NextOf(t)`createCalls,
               t.Repr`state
      ensures Valid() && clock.now >= old(clock.now)
      ensures PassShape(s.snapshot, s.next0, i', k', pass') && PassNexts(s.snapshot, s.next0, s.succ0)
      ensures PassCalls(pass', s.calls0) && PassEffects(s.snapshot, i', pass', s.initial, s.delta, s.work)
      ensures thrown ==> i' == i && Throwing(s.snapshot[i])
      ensures !thrown ==> i' == i + 1
    {
      var v;
      k', thrown, v := PassStep(t, k, delta, work, s);
      if thrown {
        i', k', pass' := i, k, s.pass;
      } else {
        i', pass' := i + 1, s.pass + [v];
      }
    }

    /**
     * execute(delta): one pass over the tasks held when it starts. `work`
     * says what the user code of each task does in this pass. The pass ends
     * early, with `thrown`, when a SequenceTask throws out of execute.
     */
    method ExecuteDelta(delta: real, work: Task -> UserStep) returns (thrown: bool, ghost r: PassRecord)
      requires Valid()
      modifies this`lastExecutionTime, this`lastUpdate, this`lastStart,
               this`tasks, clock, Elements()`removedCalls, Elements()`disposeCalls,
               Successors()`addedCalls, Successors()`createCalls,
               ReprOf(tasks)`state
      ensures Valid()
      // the pass started from the collection, successors, hook counters and task states held on entry
      ensures r.before == old(tasks) && r.next0 == old(NextMap())
      ensures r.calls0 == old(CallsSnap(Elements() + Successors())) && r.initial == old(Snap(ReprOf(tasks)))
      ensures r.delta == delta && r.work == work
      ensures PassOutcome(r.before, r.next0, r.calls0, r.initial, r.pass, r.delta, r.work, thrown)
      // the timing of completed passes
      ensures !thrown ==> lastStart == old(clock.now) && lastUpdate == clock.now
      ensures !thrown ==> lastExecutionTime == clock.now - old(clock.now)
      ensures thrown ==> lastStart == old(lastStart) && lastUpdate == old(lastUpdate)
      ensures thrown ==> lastExecutionTime == old(lastExecutionTime)
    {
      var start := clock.now;
      thrown, r := Pass(delta, work);
      Stamp(start, thrown, r);
    }

    /**
     * execute(): a pass whose delta is the clock time since the last
     * completed pass began, in seconds (0 before the first one).
     */
    method Execute(work: Task -> UserStep) returns (thrown: bool, ghost r: PassRecord)
      requires Valid()
      modifies this`lastExecutionTime, this`lastUpdate, this`lastStart,
               this`tasks, clock, Elements()`removedCalls, Elements()`disposeCalls,
               Successors()`addedCalls, Successors()`createCalls,
               ReprOf(tasks)`state
      ensures Valid()
      ensures r.delta == SelfTimedDelta(old(lastUpdate), old(lastExecutionTime), old(clock.now)) && r.delta >= 0.0
      ensures old(lastUpdate) > 0 ==> r.delta == (old(clock.now) - old(lastStart)) as real / 1000000000.0
      ensures r.before == old(tasks) && r.next0 == old(NextMap())
      ensures r.calls0 == old(CallsSnap(Elements() + Successors())) && r.initial == old(Snap(ReprOf(tasks)))
      ensures r.work == work
      ensures PassOutcome(r.before, r.next0, r.calls0, r.initial, r.pass, r.delta, r.work, thrown)
      ensures !thrown ==> lastStart == old(clock.now) && lastUpdate == clock.now
      ensures !thrown ==> lastExecutionTime == clock.now - old(clock.now)
      ensures thrown ==> lastStart == old(lastStart) && lastUpdate == old(lastUpdate)
      ensures thrown ==> lastExecutionTime == old(lastExecutionTime)
    {
      var delta := SelfTimedDelta(lastUpdate, lastExecutionTime, clock.now);
      thrown, r := ExecuteDelta(delta, work);
    }

    /** One walk over the tasks present when it starts, and its visits. */
    method Pass(delta: real, work: Task -> UserStep) returns (thrown: bool, ghost r: PassRecord)
      requires Valid()
      modifies this`tasks, clock, Elements()`removedCalls, Elements()`disposeCalls,
               Successors()`addedCalls, Successors()`createCalls,
               ReprOf(tasks)`state
      ensures Valid() && clock.now >= old(clock.now)
      ensures r.before == old(tasks) && r.next0 == old(NextMap())
      ensures r.calls0 == old(CallsSnap(Elements() + Successors())) && r.initial == old(Snap(ReprOf(tasks)))
      ensures r.delta == delta && r.work == work
      ensures PassOutcome(r.before, r.next0, r.calls0, r.initial, r.pass, r.delta, r.work, thrown)
    {
      var snapshot := tasks;
      ghost var next0, succ0, calls0, initial := PassAtStart();
      ghost var pass;
      pass, thrown := RunPass(snapshot, delta, work, next0, succ0, calls0, initial);
      r := PassRecord(snapshot, next0, calls0, initial, pass, delta, work);
    }

    /** The end of a pass: when it completed, its duration and the time it ended. */
    method Stamp(start: nat, thrown: bool, ghost r: PassRecord)
      requires Valid() && start <= clock.now
      requires PassOutcome(r.before, r.next0, r.calls0, r.initial, r.pass, r.delta, r.work, thrown)
      modifies this`lastExecutionTime, this`lastUpdate, this`lastStart
      ensures Valid() && PassOutcome(r.before, r.next0, r.calls0, r.initial, r.pass, r.delta, r.work, thrown)
      ensures !thrown ==> lastStart == start && lastUpdate == clock.now && lastExecutionTime == clock.now - start
      ensures thrown ==> lastStart == old(lastStart) && lastUpdate == old(lastUpdate)
      ensures thrown ==> lastExecutionTime == old(lastExecutionTime)
    {
      if !thrown {
        lastExecutionTime := clock.now - start;
        lastUpdate := clock.now;
        lastStart := start;
        OutcomeKept(r, thrown);
      }
    }

    /** Writing the executor's own timing fields does not change what the pass did. */
    twostate lemma OutcomeKept(r: PassRecord, new thrown: bool)
      requires old(PassOutcome(r.before, r.next0, r.calls0, r.initial, r.pass, r.delta, r.work, thrown))
      requires unchanged(this`tasks) && unchanged(ReprOf(r.before)) && unchanged(r.calls0.Keys)
      ensures PassOutcome(r.before, r.next0, r.calls0, r.initial, r.pass, r.delta, r.work, thrown)
    {
    }

    /** The loop of execute(delta) over the snapshot of the collection. */
    method RunPass(snapshot: seq<Task>, delta: real, work: Task -> UserStep, ghost next0: map<Task, Successor>,
                   ghost succ0: set<Task>, ghost calls0: map<Task, Calls>, ghost initial: map<Task, TaskState>)
      returns (ghost pass: seq<Visit>, thrown: bool)
      requires Valid() && snapshot == tasks && initial == Snap(ReprOf(tasks)) && succ0 == Successors()
      requires forall t | t in tasks :: t in next0 && next0[t] == t.GetNext()
      requires Elems(tasks) + succ0 <= calls0.Keys
      requires forall o | o in calls0 :: calls0[o] == CallsOf(o)
      modifies this`tasks, clock, Elems(snapshot)`removedCalls, Elems(snapshot)`disposeCalls,
               succ0`addedCalls, succ0`createCalls,
               ReprOf(snapshot)`state
      ensures Valid() && clock.now >= old(clock.now)
      ensures PassOutcome(snapshot, next0, calls0, initial, pass, delta, work, thrown)
    {
      PassBegins(next0, succ0, calls0, initial, delta, work);
      pass := [];
      thrown := false;
      var i, k := 0, 0;
      while i < |snapshot| && !thrown
        invariant Valid() && clock.now >= old(clock.now)
        invariant PassShape(snapshot, next0, i, k, pass) && PassNexts(snapshot, next0, succ0)
        invariant PassCalls(pass, calls0) && PassEffects(snapshot, i, pass, initial, delta, work)
        invariant thrown ==> i < |snapshot| && Throwing(snapshot[i])
        decreases |snapshot| - i + (if thrown then 0 else 1)
      {
        assert snapshot[i] in Elems(snapshot) && snapshot[i].Repr <= ReprOf(snapshot);
        i, k, pass, thrown := PassTurn(snapshot[i], i, k, delta, work,
                                       Step(snapshot, next0, succ0, calls0, initial, delta, work, i, k, pass));
      }
      PassEnds(snapshot, next0, calls0, initial, pass, delta, work, thrown);
    }

    /** The loop invariants at the end of the pass, whether it completed or stopped, are its outcome. */
    lemma PassEnds(snapshot: seq<Task>, next0: map<Task, Successor>, calls0: map<Task, Calls>,
                   initial: map<Task, TaskState>, pass: seq<Visit>, delta: real, work: Task -> UserStep, thrown: bool)
      requires PassShape(snapshot, next0, |pass|, |Kept(pass)|, pass) && PassCalls(pass, calls0)
      requires PassEffects(snapshot, |pass|, pass, initial, delta, work)
      requires thrown <==> |pass| < |snapshot|
      requires thrown ==> Throwing(snapshot[|pass|])
      ensures PassOutcome(snapshot, next0, calls0, initial, pass, delta, work, thrown)
    {
    }

    /**
     * After a pass, a visited task that was finished when the pass began (and
     * shares no object with the others) was not executed, is untouched, and
     * left the collection with a removed() call; a visited task left
     * unfinished is still held.
     */
    lemma VisitedFate(before: seq<Task>, next0: map<Task, Successor>, calls0: map<Task, Calls>,
                      initial: map<Task, TaskState>, pass: seq<Visit>, delta: real, work: Task -> UserStep,
                      thrown: bool, j: nat)
      requires PassOutcome(before, next0, calls0, initial, pass, delta, work, thrown)
      requires j < |pass| && Isolated(before, j)
      ensures FinishedIn(before[j].kind, initial[before[j]]) ==>
        pass[j].skipped && SequenceTask.Current(before[j], initial) && before[j] in Disposed(pass)
      ensures !pass[j].finished ==> before[j] in tasks
      ensures before[j] in calls0 && pass[j].finished ==>
        multiset(Disposed(pass))[before[j]] > 0 && CallsOf(before[j]).removed > calls0[before[j]].removed
    {
      assert pass[j].task == before[j] && VisitEffect(pass[j], initial, delta, work);
      if pass[j].finished {
        DisposedHolds(pass, j);
      } else {
        KeptHolds(pass, j);
        assert tasks == Kept(pass) + before[|pass|..] + Chained(pass);
      }
    }

    method Size() returns (n: int)
      ensures n == |tasks|
    {
      n := |tasks|;
    }

    /** clear: every held task leaves the collection and is told once per occurrence. */
    method Clear()
      requires Valid()
      modifies this`tasks, Elements()`removedCalls, Elements()`disposeCalls
      ensures Valid() && tasks == []
      ensures forall o | o in old(tasks) :: o.removedCalls == old(o.removedCalls) + multiset(old(tasks))[o]
      ensures forall o | o in old(tasks) ::
        o.disposeCalls == old(o.disposeCalls) + (if o.kind.IsLeaf() then multiset(old(tasks))[o] else 0)
    {
      ghost var held := tasks;
      var i := 0;
      while tasks != []
        invariant 0 <= i <= |held| && tasks == held[i..]
        invariant Valid()
        invariant forall o | o in held :: o.removedCalls == old(o.removedCalls) + multiset(held[..i])[o]
        invariant forall o | o in held ::
          o.disposeCalls == old(o.disposeCalls) + (if o.kind.IsLeaf() then multiset(held[..i])[o] else 0)
        decreases |tasks|
      {
        var t := tasks[0];
        forall o | o in held
          ensures multiset(held[..i + 1])[o] == multiset(held[..i])[o] + (if o == t then 1 else 0)
        {
          assert held[..i + 1] == held[..i] + [t];
        }
        tasks := tasks[1..];
        t.Removed();
        i := i + 1;
      }
      assert held[..i] == held;
    }
  }
}
