/**
 * Many ticks of one task held by the executor: on each pass the executor
 * skips the task when it is finished and executes it otherwise (TurnOf,
 * tied to the executor's pass by VisitIsTurnOf and PassVisitIsTurn). The
 * lemmas here add up what the single steps promise over a whole lifetime:
 * how often doProcess runs, when the task finishes, and how the measured
 * time grows.
 */
module Lifetimes {
  import opened Tasks
  import AbstractTask
  import Run
  import SequenceTask
  import Executor

  /** The inputs of one tick: the executor's delta, the clock when the task's turn comes, the user code. */
  datatype Moment = Moment(delta: real, now: nat, work: UserStep)

  /**
   * One visit of the executor's loop to `t`, on the object states `st`:
   * nothing if `t` is finished, one `execute` otherwise.
   */
  ghost function TurnOf(t: Task, st: map<Task, TaskState>, delta: real, now: nat, work: Task -> UserStep)
    : (r: map<Task, TaskState>)
    requires t.Structure() && t.Repr <= st.Keys
    ensures r.Keys == st.Keys
  {
    if FinishedIn(t.kind, st[t]) then st else SequenceTask.Stepped(t, st, delta, now, work).states
  }

  /** What the executor's visit did to a task is one TurnOf from the states it started from. */
  lemma VisitIsTurnOf(t: Task, skipped: bool, finished: bool, now: nat, before: map<Task, TaskState>,
                      delta: real, work: Task -> UserStep)
    requires t.Structure() && t.Repr <= before.Keys
    requires Executor.Visited(t, skipped, finished, now, before, delta, work)
    ensures forall o | o in t.Repr :: o.state == TurnOf(t, before, delta, now, work)[o]
    ensures finished == FinishedIn(t.kind, TurnOf(t, before, delta, now, work)[t])
  {
    assert t in t.Repr;
  }

  /**
   * After a pass, every visited task that shares no object with the others
   * holds the states of one TurnOf at the clock reading of its visit; a leaf
   * holds one Turn.
   */
  lemma PassVisitIsTurn(e: Executor.SingleThreadTaskExecutor, before: seq<Task>, next0: map<Task, Successor>,
                        calls0: map<Task, Executor.Calls>, initial: map<Task, TaskState>, pass: seq<Executor.Visit>,
                        delta: real, work: Task -> UserStep, thrown: bool, j: nat)
    requires e.PassOutcome(before, next0, calls0, initial, pass, delta, work, thrown)
    requires j < |pass| && Executor.Isolated(before, j)
    ensures before[j].Structure() && before[j].Repr <= initial.Keys
    ensures forall o | o in before[j].Repr :: o.state == TurnOf(before[j], initial, delta, pass[j].now, work)[o]
    ensures before[j].kind.IsLeaf() ==>
      before[j].state == Turn(before[j].kind, initial[before[j]], Moment(delta, pass[j].now, work(before[j])))
  {
    var t := before[j];
    assert pass[j].task == t && t in before;
    assert Executor.VisitEffect(pass[j], initial, delta, work);
    VisitIsTurnOf(t, pass[j].skipped, pass[j].finished, pass[j].now, initial, delta, work);
    if t.kind.IsLeaf() {
      LeafTurn(t, initial, Moment(delta, pass[j].now, work(t)), work);
      assert t in t.Repr;
    }
  }

  /** One visit of the executor's loop to a leaf task: skipped if finished, executed otherwise. */
  function Turn(kind: Kind, s: TaskState, m: Moment): TaskState
    requires kind.IsLeaf()
  {
    if s.finished then s else AbstractTask.Tick(kind, s, m.delta, m.now, m.work).state
  }

  /** On a leaf, TurnOf changes only the leaf's own state, as Turn says. */
  lemma LeafTurn(t: Task, st: map<Task, TaskState>, m: Moment, work: Task -> UserStep)
    requires t.Structure() && t.kind.IsLeaf() && t in st && work(t) == m.work
    ensures t.Repr <= st.Keys && TurnOf(t, st, m.delta, m.now, work) == st[t := Turn(t.kind, st[t], m)]
  {
  }

  /** The state after one visit per moment, in order. */
  function Lifetime(kind: Kind, s: TaskState, ms: seq<Moment>): TaskState
    requires kind.IsLeaf()
    decreases |ms|
  {
    if ms == [] then s else Lifetime(kind, Turn(kind, s, ms[0]), ms[1..])
  }

  /** The user code never throws and takes no clock time. */
  predicate AllQuiet(ms: seq<Moment>)
  {
    forall i | 0 <= i < |ms| :: ms[i].work == Quiet
  }

  /** The clock readings never go back, and none is before `from`. */
  predicate Ascending(ms: seq<Moment>, from: int)
  {
    && (forall i | 0 <= i < |ms| :: from <= ms[i].now)
    && (forall i, j | 0 <= i <= j < |ms| :: ms[i].now <= ms[j].now)
  }

  /** After the first reading, the rest still ascend, from that reading on. */
  lemma AscendingTail(ms: seq<Moment>, from: int)
    requires ms != [] && Ascending(ms, from)
    ensures Ascending(ms[1..], ms[0].now) && forall i | 0 <= i < |ms[1..]| :: ms[1..][i] == ms[i + 1]
  {
  }

  function Min(a: int, b: int): int
  {
    if a <= b then a else b
  }

  /** The sum of the deltas. */
  function Deltas(ms: seq<Moment>): real
    decreases |ms|
  {
    if ms == [] then 0.0 else ms[0].delta + Deltas(ms[1..])
  }

  /** How many of the clock readings are before `limit`. */
  function Below(ms: seq<Moment>, limit: int): (n: nat)
    ensures n <= |ms|
    decreases |ms|
  {
    if ms == [] then 0 else (if ms[0].now < limit then 1 else 0) + Below(ms[1..], limit)
  }

  /** The kinds that never mark themselves finished. */
  predicate Endless(kind: Kind)
  {
    kind.MultipleRun? || kind.SimpleTime? || kind.SimpleRepeat? || kind.PreciseTime? || kind.PreciseRepeat?
  }

  /** A finished task is never touched again. */
  lemma {:induction false} FinishedStays(kind: Kind, s: TaskState, ms: seq<Moment>)
    requires kind.IsLeaf() && s.finished
    ensures Lifetime(kind, s, ms) == s
    decreases |ms|
  {
    if ms != [] {
      FinishedStays(kind, s, ms[1..]);
    }
  }

  /**
   * MaxRunTask(n) with calm user code: unfinished until the count reaches
   * `n`, finished on that tick, and doProcess runs once per tick until then.
   */
  lemma {:induction false} MaxRunLifetime(n: int, s: TaskState, ms: seq<Moment>)
    requires 0 <= s.timesProcessed < n && !s.finished && AllQuiet(ms)
    ensures var r := Lifetime(MaxRun(n), s, ms);
      && r.processCalls == s.processCalls + Min(|ms|, n - s.timesProcessed)
      && r.timesProcessed == s.timesProcessed + Min(|ms|, n - s.timesProcessed)
      && (r.finished <==> |ms| >= n - s.timesProcessed)
    decreases |ms|
  {
    if ms != [] {
      assert ms[0].work == Quiet;
      var s1 := Turn(MaxRun(n), s, ms[0]);
      assert forall i | 0 <= i < |ms[1..]| :: ms[1..][i] == ms[i + 1];
      if s1.timesProcessed < n {
        MaxRunLifetime(n, s1, ms[1..]);
      } else {
        FinishedStays(MaxRun(n), s1, ms[1..]);
      }
    }
  }

  /** SingleRunTask with calm user code: one tick processes it once and finishes it. */
  lemma {:induction false} SingleRunLifetime(s: TaskState, ms: seq<Moment>)
    requires !s.finished && |ms| >= 1 && ms[0].work == Quiet
    ensures Lifetime(SingleRun, s, ms).processCalls == s.processCalls + 1
    ensures Lifetime(SingleRun, s, ms).finished
  {
    FinishedStays(SingleRun, Turn(SingleRun, s, ms[0]), ms[1..]);
  }

  /** MultipleRunTask with calm user code: one count and one doProcess per tick, never finished. */
  lemma {:induction false} MultipleRunLifetime(s: TaskState, ms: seq<Moment>)
    requires !s.finished && AllQuiet(ms)
    ensures Lifetime(MultipleRun, s, ms).processCalls == s.processCalls + |ms|
    ensures Lifetime(MultipleRun, s, ms).timesProcessed == s.timesProcessed + |ms|
    ensures !Lifetime(MultipleRun, s, ms).finished
    decreases |ms|
  {
    if ms != [] {
      assert ms[0].work == Quiet;
      assert forall i | 0 <= i < |ms[1..]| :: ms[1..][i] == ms[i + 1];
      MultipleRunLifetime(Turn(MultipleRun, s, ms[0]), ms[1..]);
    }
  }

  /**
   * A MultipleRunTask that is marked finished after `|before|` calm ticks
   * has run doProcess exactly `|before|` times, however many ticks follow.
   */
  lemma StoppedAfter(s: TaskState, before: seq<Moment>, after: seq<Moment>)
    requires !s.finished && AllQuiet(before)
    ensures Lifetime(MultipleRun, Lifetime(MultipleRun, s, before).(finished := true), after).processCalls
            == s.processCalls + |before|
  {
    MultipleRunLifetime(s, before);
    FinishedStays(MultipleRun, Lifetime(MultipleRun, s, before).(finished := true), after);
  }

  /** The kinds without a finishing rule stay unfinished whatever the user code does. */
  lemma {:induction false} EndlessLifetime(kind: Kind, s: TaskState, ms: seq<Moment>)
    requires Endless(kind) && !s.finished
    ensures !Lifetime(kind, s, ms).finished
    decreases |ms|
  {
    if ms != [] {
      EndlessLifetime(kind, Turn(kind, s, ms[0]), ms[1..]);
    }
  }

  /**
   * A wait task (simple or precise) runs doProcess at most once until it is
   * reset, whatever the clock and the user code do: the tick that processes
   * finishes it first.
   */
  lemma {:induction false} WaitLifetime(kind: Kind, s: TaskState, ms: seq<Moment>)
    requires kind.SimpleWait? || kind.PreciseWait?
    ensures s.processCalls <= Lifetime(kind, s, ms).processCalls <= s.processCalls + (if s.finished then 0 else 1)
    decreases |ms|
  {
    if ms != [] {
      var s1 := Turn(kind, s, ms[0]);
      if s1.processCalls > s.processCalls {
        FinishedStays(kind, s1, ms[1..]);
      } else {
        WaitLifetime(kind, s1, ms[1..]);
      }
    }
  }

  /**
   * SimpleTimeTask with user code whose beforeProcess does not throw: the
   * deltas add up, and doProcess runs on every tick, with that tick's delta.
   */
  lemma {:induction false} SimpleTimeLifetime(s: TaskState, ms: seq<Moment>)
    requires !s.finished && forall i | 0 <= i < |ms| :: !ms[i].work.beforeFails
    ensures Lifetime(SimpleTime, s, ms).timePassed == s.timePassed + Deltas(ms)
    ensures Lifetime(SimpleTime, s, ms).processCalls == s.processCalls + |ms|
    ensures |ms| > 0 ==> Lifetime(SimpleTime, s, ms).lastProcessDelta == ms[|ms| - 1].delta
    decreases |ms|
  {
    if ms != [] {
      var s1 := Turn(SimpleTime, s, ms[0]);
      assert !ms[0].work.beforeFails;
      assert forall i | 0 <= i < |ms[1..]| :: ms[1..][i] == ms[i + 1];
      EndlessLifetime(SimpleTime, s, ms[..1]);
      assert !s1.finished;
      SimpleTimeLifetime(s1, ms[1..]);
    }
  }

  /**
   * PreciseTimeTask with calm user code and a clock that does not go back:
   * doProcess runs on every tick, and the measured time grows by exactly the
   * clock time between the first recorded reading and the last one.
   */
  lemma {:induction false} PreciseTimeLifetime(s: TaskState, ms: seq<Moment>)
    requires !s.finished && s.lastUpdate > 0 && AllQuiet(ms) && Ascending(ms, s.lastUpdate)
    ensures var r := Lifetime(PreciseTime, s, ms);
      && r.processCalls == s.processCalls + |ms|
      && r.timePassedNs - r.lastUpdate == s.timePassedNs - s.lastUpdate
      && r.lastUpdate == if ms == [] then s.lastUpdate else ms[|ms| - 1].now
    decreases |ms|
  {
    if ms != [] {
      assert ms[0].work == Quiet;
      var s1 := Turn(PreciseTime, s, ms[0]);
      assert s1.lastUpdate == ms[0].now > 0;
      AscendingTail(ms, s.lastUpdate);
      PreciseTimeLifetime(s1, ms[1..]);
    }
  }

  /**
   * PreciseMaxTimeTask with calm user code and a clock that does not go
   * back: doProcess runs on exactly the ticks whose clock reading is before
   * the moment its measured time reaches the maximum, and the task is
   * finished after them if any tick came later.
   */
  lemma {:induction false} PreciseMaxLifetime(maxTimeNs: int, s: TaskState, ms: seq<Moment>)
    requires !s.finished && s.lastUpdate > 0 && AllQuiet(ms) && Ascending(ms, s.lastUpdate)
    ensures var limit := s.lastUpdate - s.timePassedNs + maxTimeNs;
      var r := Lifetime(PreciseMax(maxTimeNs), s, ms);
      && r.processCalls == s.processCalls + Below(ms, limit)
      && (r.finished <==> Below(ms, limit) < |ms|)
    decreases |ms|
  {
    var limit := s.lastUpdate - s.timePassedNs + maxTimeNs;
    if ms != [] {
      assert ms[0].work == Quiet;
      var s1 := Turn(PreciseMax(maxTimeNs), s, ms[0]);
      AscendingTail(ms, s.lastUpdate);
      if ms[0].now < limit {
        assert s1.lastUpdate == ms[0].now && s1.lastUpdate - s1.timePassedNs == s.lastUpdate - s.timePassedNs;
        PreciseMaxLifetime(maxTimeNs, s1, ms[1..]);
      } else {
        assert s1.finished && s1.processCalls == s.processCalls;
        FinishedStays(PreciseMax(maxTimeNs), s1, ms[1..]);
        NoneBelow(ms[1..], limit, ms[0].now);
      }
    }
  }

  /**
   * PreciseWaitTimeTask with calm user code and a clock that does not go
   * back: doProcess runs once, on the first tick whose reading reaches the
   * moment its measured time reaches the wait time, and never otherwise.
   */
  lemma {:induction false} PreciseWaitLifetime(waitTimeNs: int, s: TaskState, ms: seq<Moment>)
    requires !s.finished && s.lastUpdate > 0 && AllQuiet(ms) && Ascending(ms, s.lastUpdate)
    ensures var limit := s.lastUpdate - s.timePassedNs + waitTimeNs;
      var r := Lifetime(PreciseWait(waitTimeNs), s, ms);
      && r.processCalls == s.processCalls + (if Below(ms, limit) < |ms| then 1 else 0)
      && (r.finished <==> Below(ms, limit) < |ms|)
    decreases |ms|
  {
    var limit := s.lastUpdate - s.timePassedNs + waitTimeNs;
    if ms != [] {
      assert ms[0].work == Quiet;
      var s1 := Turn(PreciseWait(waitTimeNs), s, ms[0]);
      AscendingTail(ms, s.lastUpdate);
      if ms[0].now < limit {
        assert s1.lastUpdate == ms[0].now && s1.lastUpdate - s1.timePassedNs == s.lastUpdate - s.timePassedNs;
        PreciseWaitLifetime(waitTimeNs, s1, ms[1..]);
      } else {
        assert s1.finished && s1.processCalls == s.processCalls + 1;
        FinishedStays(PreciseWait(waitTimeNs), s1, ms[1..]);
        NoneBelow(ms[1..], limit, ms[0].now);
      }
    }
  }

  /** Readings that are all at least `first`, itself at least `limit`, are never before `limit`. */
  lemma {:induction false} NoneBelow(ms: seq<Moment>, limit: int, first: int)
    requires limit <= first && Ascending(ms, first)
    ensures Below(ms, limit) == 0
    decreases |ms|
  {
    if ms != [] {
      AscendingTail(ms, first);
      NoneBelow(ms[1..], limit, ms[0].now);
    }
  }

  /**
   * The first execute of a precise task after construction or reset
   * measures no time: a positive wait time is not reached, a positive
   * maximum is not reached, and the reading becomes the reference.
   */
  lemma FirstPreciseTick(kind: Kind, s: TaskState, m: Moment)
    requires kind.IsPreciseTime() && s == AbstractTask.ResetLeaf(kind, s) && m.work == Quiet
    ensures var r := Turn(kind, s, m);
      && r.timePassedNs == 0 && r.lastUpdate == m.now
      && (kind.PreciseWait? && kind.waitTimeNs > 0 ==> r.processCalls == s.processCalls && !r.finished)
      && (kind.PreciseMax? && kind.maxTimeNs > 0 ==> r.processCalls == s.processCalls + 1 && !r.finished)
      && (kind.PreciseTime? ==> r.processCalls == s.processCalls + 1 && r.lastProcessDelta == 0.0)
  {
  }

  /** The user code of every task does `w`. */
  function Everywhere(w: UserStep): Task -> UserStep
  {
    _ => w
  }

  /** The object states of `t` after one visit per moment, in order; in each moment all user code does the same. */
  ghost function LifetimeOf(t: Task, st: map<Task, TaskState>, ms: seq<Moment>): (r: map<Task, TaskState>)
    requires t.Structure() && t.Repr <= st.Keys
    ensures r.Keys == st.Keys
    decreases |ms|
  {
    if ms == [] then st
    else
      var last := ms[|ms| - 1];
      TurnOf(t, LifetimeOf(t, st, ms[..|ms| - 1]), last.delta, last.now, Everywhere(last.work))
  }

  /**
   * SequenceTask(rounds, members...) whose members are distinct
   * MaxRunTask(n) objects, as in the library's sequence test.
   */
  ghost predicate SequenceOfMaxRuns(t: Task, rounds: nat, n: nat)
  {
    && t.Structure() && t.kind == Kind.Sequence(rounds) && |t.members| >= 1 && n >= 1
    && (forall i | 0 <= i < |t.members| :: t.members[i].kind == MaxRun(n))
    && (forall i, j | 0 <= i < j < |t.members| :: t.members[i] != t.members[j])
  }

  /** Where a sequence stands: completed rounds, the member under the cursor, and that member's runs. */
  datatype Position = Position(round: nat, member: nat, run: nat)

  /** The position one tick later, for `count` members that run `n` times each. */
  function NextPosition(q: Position, count: nat, n: nat): Position
  {
    if q.run + 1 < n then q.(run := q.run + 1)
    else if q.member + 1 < count then Position(q.round, q.member + 1, 0)
    else Position(q.round + 1, 0, 0)
  }

  /** The position after `k` ticks from the start. */
  function PositionAt(k: nat, count: nat, n: nat): Position
  {
    if k == 0 then Position(0, 0, 0) else NextPosition(PositionAt(k - 1, count, n), count, n)
  }

  /** a * b as repeated addition, so that the counting below stays in linear arithmetic. */
  function Times(a: nat, b: nat): nat
  {
    if a == 0 then 0 else Times(a - 1, b) + b
  }

  lemma {:induction false} TimesIsProduct(a: nat, b: nat)
    ensures Times(a, b) == a * b
  {
    if a > 0 {
      TimesIsProduct(a - 1, b);
      assert (a - 1) * b + b == a * b;
    }
  }

  lemma {:induction false} TimesAdd(a: nat, b: nat, c: nat)
    ensures Times(a + b, c) == Times(a, c) + Times(b, c)
    decreases b
  {
    if b > 0 {
      TimesAdd(a, b - 1, c);
    }
  }

  lemma TimesMono(a: nat, b: nat, c: nat)
    ensures a <= b ==> Times(a, c) <= Times(b, c)
  {
    if a <= b {
      TimesAdd(a, b - a, c);
    }
  }

  lemma {:induction false} TimesAssoc(a: nat, b: nat, c: nat)
    ensures Times(Times(a, b), c) == Times(a, Times(b, c))
    decreases a
  {
    if a > 0 {
      TimesAssoc(a - 1, b, c);
      TimesAdd(Times(a - 1, b), b, c);
    }
  }

  /** The ticks spent to reach position `q`: (round * count + member) * n + run. */
  function TicksAt(q: Position, count: nat, n: nat): nat
  {
    Times(Times(q.round, count) + q.member, n) + q.run
  }

  /** The position after `k` ticks is `k` written with the digits `count` and `n`. */
  lemma {:induction false} PositionAtTicks(k: nat, count: nat, n: nat)
    requires count >= 1 && n >= 1
    ensures var q := PositionAt(k, count, n);
      q.member < count && q.run < n && TicksAt(q, count, n) == k
  {
    if k > 0 {
      PositionAtTicks(k - 1, count, n);
      var q := PositionAt(k - 1, count, n);
      var base := Times(q.round, count);
      if q.run + 1 >= n && q.member + 1 < count {
        assert Times(base + q.member + 1, n) == Times(base + q.member, n) + n;
      } else if q.run + 1 >= n {
        assert Times(q.round + 1, count) == base + q.member + 1;
        assert Times(base + q.member + 1, n) == Times(base + q.member, n) + n;
      }
    }
  }

  /** A position within its digits whose tick count is below `rounds` whole rounds is in an earlier round. */
  lemma RoundBelow(q: Position, count: nat, n: nat, rounds: nat)
    requires q.member < count && q.run < n
    requires TicksAt(q, count, n) < Times(Times(rounds, count), n)
    ensures q.round < rounds
  {
    TimesAdd(Times(q.round, count), q.member, n);
    TimesMono(rounds, q.round, count);
    TimesMono(Times(rounds, count), Times(q.round, count), n);
  }

  /** The digits below the round add up to less than one round. */
  lemma DigitsBelow(member: nat, run: nat, count: nat, n: nat)
    requires member < count && run < n
    ensures Times(member, n) + run < Times(count, n)
  {
    assert Times(member + 1, n) == Times(member, n) + n;
    TimesMono(member + 1, count, n);
  }

  /** Whole rounds plus less than one more round determine the rounds and the rest. */
  lemma WholeRounds(a: nat, b: nat, size: nat, d: nat)
    requires d < size && Times(a, size) + d == Times(b, size)
    ensures a == b && d == 0
  {
    assert Times(a + 1, size) == Times(a, size) + size;
    assert Times(b + 1, size) == Times(b, size) + size;
    TimesMono(a + 1, b, size);
    TimesMono(b + 1, a, size);
  }

  /** The only position within its digits at exactly `rounds` whole rounds is the start of round `rounds`. */
  lemma RoundAt(q: Position, count: nat, n: nat, rounds: nat)
    requires q.member < count && q.run < n && n >= 1
    requires TicksAt(q, count, n) == Times(Times(rounds, count), n)
    ensures q == Position(rounds, 0, 0)
  {
    TimesAdd(Times(q.round, count), q.member, n);
    TimesAssoc(q.round, count, n);
    TimesAssoc(rounds, count, n);
    DigitsBelow(q.member, q.run, count, n);
    WholeRounds(q.round, rounds, Times(count, n), Times(q.member, n) + q.run);
    assert Times(1, n) == n;
    TimesMono(1, q.member, n);
  }

  /**
   * The states of a sequence of MaxRunTask(n) members at position `q`,
   * against the states `st0` it started from: the cursor and the completed
   * rounds are the position's; no member is finished; the current member has
   * run `q.run` times since its reset, the others none; every member has run
   * doProcess `n` times per completed round, plus `n` in this round if the
   * cursor has passed it, or `q.run` if it is the current one.
   */
  ghost predicate Phase(t: Task, n: nat, st0: map<Task, TaskState>, st: map<Task, TaskState>, q: Position)
  {
    && t in st && st[t].currentTask == q.member && st[t].timesRan == q.round
    && forall i | 0 <= i < |t.members| :: MemberPhase(t.members[i], i, n, st0, st, q)
  }

  ghost predicate MemberPhase(m: Task, i: nat, n: nat, st0: map<Task, TaskState>, st: map<Task, TaskState>, q: Position)
  {
    && m in st && m in st0 && !st[m].finished
    && st[m].timesProcessed == (if i == q.member then q.run else 0)
    && st[m].processCalls == st0[m].processCalls + Times(q.round, n) + (if i < q.member then n else if i == q.member then q.run else 0)
  }

  /** One calm tick of an unfinished sequence of MaxRunTask(n) members moves it to the next position. */
  lemma PhaseStep(t: Task, rounds: nat, n: nat, st0: map<Task, TaskState>, st: map<Task, TaskState>, q: Position, mo: Moment)
    requires SequenceOfMaxRuns(t, rounds, n) && t.Repr <= st.Keys && mo.work == Quiet
    requires Phase(t, n, st0, st, q) && q.round < rounds && q.member < |t.members| && q.run < n
    ensures Phase(t, n, st0, TurnOf(t, st, mo.delta, mo.now, Everywhere(mo.work)), NextPosition(q, |t.members|, n))
  {
    var count := |t.members|;
    var work := Everywhere(mo.work);
    var c := q.member;
    var m := t.members[c];
    assert m in t.members && m.Structure() && m.Repr == {m} && t != m;
    assert MemberPhase(m, c, n, st0, st, q);
    var e := AbstractTask.Tick(m.kind, st[m], mo.delta, mo.now, work(m));
    assert work(m) == Quiet;
    assert AbstractTask.DoExecuteStep(m.kind, st[m], mo.delta, mo.now, Quiet) == Run.MaxRunStep(n, st[m], mo.now, Quiet);
    assert e.state.processCalls == st[m].processCalls + 1 && e.state.timesProcessed == q.run + 1;
    assert e.state.finished <==> q.run + 1 >= n;
    var r := SequenceTask.Stepped(m, st, mo.delta, mo.now, work);
    assert r.states == st[m := e.state];
    var after := TurnOf(t, st, mo.delta, mo.now, work);
    var q' := NextPosition(q, count, n);
    if q.run + 1 < n {
      assert after == r.states;
      forall i | 0 <= i < count
        ensures MemberPhase(t.members[i], i, n, st0, after, q')
      {
        assert MemberPhase(t.members[i], i, n, st0, st, q);
      }
    } else {
      var reset := r.states[m := SequenceTask.ResetState(m.kind, r.states[m])];
      assert after == reset[t := SequenceTask.Advance(reset[t], count)];
      assert after[m].processCalls == st0[m].processCalls + Times(q.round, n) + n;
      assert Times(q.round + 1, n) == Times(q.round, n) + n;
      forall i | 0 <= i < count
        ensures MemberPhase(t.members[i], i, n, st0, after, q')
      {
        assert MemberPhase(t.members[i], i, n, st0, st, q);
      }
    }
  }

  /** A sequence with its cursor and all its members at the start is at position 0. */
  lemma PhaseStart(t: Task, rounds: nat, n: nat, st: map<Task, TaskState>)
    requires SequenceOfMaxRuns(t, rounds, n) && t.Repr <= st.Keys
    requires st[t].currentTask == 0 && st[t].timesRan == 0
    requires forall i | 0 <= i < |t.members| :: st[t.members[i]].timesProcessed == 0 && !st[t.members[i]].finished
    ensures Phase(t, n, st, st, Position(0, 0, 0))
  {
    forall i | 0 <= i < |t.members| ensures MemberPhase(t.members[i], i, n, st, st, Position(0, 0, 0)) {
      assert t.members[i] in t.Repr;
    }
  }

  /** Up to the finishing tick, a calm lifetime of the sequence is at the position of its tick count. */
  lemma {:induction false} SequenceTicks(t: Task, rounds: nat, n: nat, st: map<Task, TaskState>, ms: seq<Moment>)
    requires SequenceOfMaxRuns(t, rounds, n) && t.Repr <= st.Keys && AllQuiet(ms)
    requires Phase(t, n, st, st, Position(0, 0, 0))
    requires |ms| <= Times(Times(rounds, |t.members|), n)
    ensures Phase(t, n, st, LifetimeOf(t, st, ms), PositionAt(|ms|, |t.members|, n))
    decreases |ms|
  {
    if ms != [] {
      var k := |ms| - 1;
      var init := ms[..k];
      assert AllQuiet(init) by {
        forall i | 0 <= i < |init| ensures init[i].work == Quiet { assert init[i] == ms[i]; }
      }
      SequenceTicks(t, rounds, n, st, init);
      var q := PositionAt(k, |t.members|, n);
      PositionAtTicks(k, |t.members|, n);
      RoundBelow(q, |t.members|, n, rounds);
      assert ms[k].work == Quiet;
      PhaseStep(t, rounds, n, st, LifetimeOf(t, st, init), q, ms[k]);
    }
  }

  /** A finished task is left alone by every later visit. */
  lemma {:induction false} FinishedStaysOf(t: Task, st: map<Task, TaskState>, ms: seq<Moment>, k: nat)
    requires t.Structure() && t.Repr <= st.Keys && k <= |ms|
    requires FinishedIn(t.kind, LifetimeOf(t, st, ms[..k])[t])
    ensures LifetimeOf(t, st, ms) == LifetimeOf(t, st, ms[..k])
    decreases |ms|
  {
    if |ms| > k {
      var init := ms[..|ms| - 1];
      assert init[..k] == ms[..k];
      FinishedStaysOf(t, st, init, k);
    } else {
      assert ms[..k] == ms;
    }
  }

  /**
   * SequenceTask(rounds, members...) of distinct, fresh MaxRunTask(n)
   * members with calm user code, held by the executor: before the tick count
   * reaches rounds * count * n (Times spells the products out) the sequence is
   * not finished and stands at the position whose tick count is the number
   * of ticks so far, with every member's doProcess calls as Phase says; from
   * that tick on it is finished at the start of round `rounds`.
   */
  lemma SequenceLifetime(t: Task, rounds: nat, n: nat, st: map<Task, TaskState>, ms: seq<Moment>)
    requires SequenceOfMaxRuns(t, rounds, n) && t.Repr <= st.Keys && AllQuiet(ms)
    requires st[t].currentTask == 0 && st[t].timesRan == 0
    requires forall i | 0 <= i < |t.members| :: st[t.members[i]].timesProcessed == 0 && !st[t.members[i]].finished
    ensures var total := Times(Times(rounds, |t.members|), n);
      var r := LifetimeOf(t, st, ms);
      var q := PositionAt(|ms|, |t.members|, n);
      && (FinishedIn(t.kind, r[t]) <==> |ms| >= total)
      && (|ms| < total ==>
            && q.round < rounds && q.member < |t.members| && q.run < n
            && TicksAt(q, |t.members|, n) == |ms|
            && Phase(t, n, st, r, q))
      && (|ms| >= total ==> Phase(t, n, st, r, Position(rounds, 0, 0)))
  {
    var count := |t.members|;
    var total := Times(Times(rounds, count), n);
    PhaseStart(t, rounds, n, st);
    var k := if |ms| < total then |ms| else total;
    var init := ms[..k];
    assert AllQuiet(init) by {
      forall i | 0 <= i < |init| ensures init[i].work == Quiet { assert init[i] == ms[i]; }
    }
    SequenceTicks(t, rounds, n, st, init);
    var q := PositionAt(k, count, n);
    PositionAtTicks(k, count, n);
    if k < total {
      assert ms[..k] == ms;
      RoundBelow(q, count, n, rounds);
      assert LifetimeOf(t, st, ms)[t].timesRan == q.round != rounds;
    } else {
      RoundAt(q, count, n, rounds);
      assert LifetimeOf(t, st, init)[t].timesRan == rounds;
      FinishedStaysOf(t, st, ms, k);
    }
  }

  /**
   * The same sequence in plain products: unfinished for its first
   * rounds * count * n ticks, finished from then on, when every member has
   * run doProcess exactly rounds * n times and is back unfinished with no
   * runs counted.
   */
  lemma SequenceRuns(t: Task, rounds: nat, n: nat, st: map<Task, TaskState>, ms: seq<Moment>)
    requires SequenceOfMaxRuns(t, rounds, n) && t.Repr <= st.Keys && AllQuiet(ms)
    requires st[t].currentTask == 0 && st[t].timesRan == 0
    requires forall i | 0 <= i < |t.members| :: st[t.members[i]].timesProcessed == 0 && !st[t.members[i]].finished
    ensures var r := LifetimeOf(t, st, ms);
      && (FinishedIn(t.kind, r[t]) <==> |ms| >= rounds * |t.members| * n)
      && (|ms| >= rounds * |t.members| * n ==>
            forall i | 0 <= i < |t.members| ::
              && r[t.members[i]].processCalls == st[t.members[i]].processCalls + rounds * n
              && r[t.members[i]].timesProcessed == 0 && !r[t.members[i]].finished)
  {
    var r := LifetimeOf(t, st, ms);
    SequenceLifetime(t, rounds, n, st, ms);
    TimesIsProduct(rounds, |t.members|);
    TimesIsProduct(rounds * |t.members|, n);
    TimesIsProduct(rounds, n);
    if |ms| >= rounds * |t.members| * n {
      forall i | 0 <= i < |t.members|
        ensures r[t.members[i]].processCalls == st[t.members[i]].processCalls + rounds * n
        ensures r[t.members[i]].timesProcessed == 0 && !r[t.members[i]].finished
      {
        assert MemberPhase(t.members[i], i, n, st, r, Position(rounds, 0, 0));
      }
    }
  }
}
