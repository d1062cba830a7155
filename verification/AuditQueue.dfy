// The audit log's queue as a protocol: appenders, writer tasks, the cleaner and flushers, step by step.
module AuditQueue {
  import opened Wrappers

  const MAX_PENDING_WRITES: nat := 512

  // Where an accepted entry stands. `Counted` is before its task exists; from `Writing` to `Notified`
  // the task holds the write lock.
  datatype Stage = Counted | Spawned | Writing | Written | Subtracted | Notified | Done

  // The entry still counts as pending.
  predicate Unfinished(s: Stage) { s.Counted? || s.Spawned? || s.Writing? || s.Written? }

  // The task's call to `notify_waiters` is still to come.
  predicate WillNotify(s: Stage) { Unfinished(s) || s.Subtracted? }

  predicate Holds(s: Stage) { s.Writing? || s.Written? || s.Subtracted? || s.Notified? }

  // The entry has been written, or failed to be.
  predicate Attempted(s: Stage) { s.Written? || s.Subtracted? || s.Notified? || s.Done? }

  // A flusher registers before it looks at the count; `woken` once a notification has come since.
  // `owed` is how many entries had been accepted when `flush` was called.
  datatype Flusher = Armed(owed: nat, woken: bool) | Waiting(owed: nat, woken: bool) | Returned(owed: nat)

  datatype Holder = Nobody | Writer(task: nat) | Cleaner

  // Tasks in the order their entries were accepted; dropped entries leave only a count.
  datatype State = State(
    pending: nat, tasks: seq<Stage>, lock: Holder, flushers: map<nat, Flusher>, dropped: nat)

  const EMPTY := State(0, [], Nobody, map[], 0)

  datatype Step =
    | Append                      // `fetch_update`: accept and count, or drop
    | Spawn(task: nat)
    | Lock(task: nat)
    | Write(task: nat)            // success or failure alike
    | Subtract(task: nat)
    | Notify(task: nat)
    | Unlock(task: nat)
    | CleanerLock
    | CleanerUnlock
    | Flush(flusher: nat)         // `flush` is called: register first
    | Load(flusher: nat)          // look at the count
    | Wake(flusher: nat)          // the wait ends, register again

  function Woken(f: Flusher): Flusher {
    match f
    case Armed(owed, _) => Armed(owed, true)
    case Waiting(owed, _) => Waiting(owed, true)
    case Returned(_) => f
  }

  function Move(s: State, task: nat, from: Stage, to: Stage): Option<State> {
    if task < |s.tasks| && s.tasks[task] == from then Some(s.(tasks := s.tasks[task := to])) else None
  }

  function Next(s: State, step: Step): Option<State> {
    match step
    case Append =>
      Some(if s.pending < MAX_PENDING_WRITES then s.(pending := s.pending + 1, tasks := s.tasks + [Counted])
           else s.(dropped := s.dropped + 1))
    case Spawn(t) => Move(s, t, Counted, Spawned)
    case Lock(t) => if s.lock != Nobody then None else Move(s.(lock := Writer(t)), t, Spawned, Writing)
    case Write(t) => Move(s, t, Writing, Written)
    case Subtract(t) => if s.pending == 0 then None else Move(s.(pending := s.pending - 1), t, Written, Subtracted)
    case Notify(t) =>
      Move(s.(flushers := map f | f in s.flushers :: Woken(s.flushers[f])), t, Subtracted, Notified)
    case Unlock(t) => Move(s.(lock := Nobody), t, Notified, Done)
    case CleanerLock => if s.lock != Nobody then None else Some(s.(lock := Cleaner))
    case CleanerUnlock => if s.lock != Cleaner then None else Some(s.(lock := Nobody))
    case Flush(f) => if f in s.flushers then None else Some(s.(flushers := s.flushers[f := Armed(|s.tasks|, false)]))
    case Load(f) =>
      if f !in s.flushers || !s.flushers[f].Armed? then None
      else Some(s.(flushers := s.flushers[f :=
        if s.pending == 0 then Returned(s.flushers[f].owed) else Waiting(s.flushers[f].owed, s.flushers[f].woken)]))
    case Wake(f) =>
      if f !in s.flushers || !s.flushers[f].Waiting? || !s.flushers[f].woken then None
      else Some(s.(flushers := s.flushers[f := Armed(s.flushers[f].owed, false)]))
  }

  function Run(s: State, steps: seq<Step>): Option<State>
    decreases |steps|
  {
    if steps == [] then Some(s)
    else match Next(s, steps[0])
      case None => None
      case Some(t) => Run(t, steps[1..])
  }

  function UnfinishedCount(tasks: seq<Stage>): nat
    decreases |tasks|
  {
    if tasks == [] then 0 else UnfinishedCount(tasks[..|tasks| - 1]) + if Unfinished(tasks[|tasks| - 1]) then 1 else 0
  }

  lemma {:induction false} CountUpdate(tasks: seq<Stage>, t: nat, to: Stage)
    requires t < |tasks|
    ensures UnfinishedCount(tasks[t := to]) + (if Unfinished(tasks[t]) then 1 else 0)
            == UnfinishedCount(tasks) + (if Unfinished(to) then 1 else 0)
    decreases |tasks|
  {
    var init := tasks[..|tasks| - 1];
    if t == |tasks| - 1 {
      assert tasks[t := to][..t] == init;
    } else {
      assert tasks[t := to][..|tasks| - 1] == init[t := to];
      CountUpdate(init, t, to);
    }
  }

  lemma CountPush(tasks: seq<Stage>, s: Stage)
    ensures UnfinishedCount(tasks + [s]) == UnfinishedCount(tasks) + if Unfinished(s) then 1 else 0
  {
    assert (tasks + [s])[..|tasks|] == tasks;
  }

  lemma {:induction false} CountPositive(tasks: seq<Stage>)
    ensures UnfinishedCount(tasks) > 0 <==> exists t :: 0 <= t < |tasks| && Unfinished(tasks[t])
    decreases |tasks|
  {
    if tasks != [] {
      var init := tasks[..|tasks| - 1];
      CountPositive(init);
      if UnfinishedCount(init) > 0 {
        var t :| 0 <= t < |init| && Unfinished(init[t]);
        assert Unfinished(tasks[t]);
      }
      if Unfinished(tasks[|tasks| - 1]) { assert Unfinished(tasks[|tasks| - 1]); }
      forall t | 0 <= t < |tasks| && Unfinished(tasks[t]) ensures UnfinishedCount(tasks) > 0 {
        if t < |init| { assert Unfinished(init[t]); }
      }
    }
  }

  // ---- what every reachable state keeps ----

  // The count is the number of unfinished accepted writes.
  ghost predicate CountIsExact(s: State) { s.pending == UnfinishedCount(s.tasks) && s.pending <= MAX_PENDING_WRITES }

  // Only the holder of the lock is past the lock.
  ghost predicate LockIsExclusive(s: State) {
    && (forall t :: 0 <= t < |s.tasks| && Holds(s.tasks[t]) ==> s.lock == Writer(t))
    && (s.lock.Writer? ==> s.lock.task < |s.tasks| && Holds(s.tasks[s.lock.task]))
  }

  // A sleeper has a notification coming.
  ghost predicate NoLostWakeUp(s: State) {
    forall f :: f in s.flushers && s.flushers[f].Waiting? && !s.flushers[f].woken ==>
      exists t :: 0 <= t < |s.tasks| && WillNotify(s.tasks[t])
  }

  // A flush that has returned left nothing behind that was accepted before its call.
  ghost predicate FlushesAreComplete(s: State) {
    && (forall f :: f in s.flushers ==> s.flushers[f].owed <= |s.tasks|)
    && (forall f, t :: f in s.flushers && s.flushers[f].Returned? && 0 <= t < s.flushers[f].owed ==> Attempted(s.tasks[t]))
  }

  ghost predicate Safe(s: State) { CountIsExact(s) && LockIsExclusive(s) && NoLostWakeUp(s) && FlushesAreComplete(s) }

  lemma CountKept(s: State, step: Step)
    requires CountIsExact(s) && Next(s, step).Some?
    ensures CountIsExact(Next(s, step).value)
  {
    match step {
      case Append => CountPush(s.tasks, Counted);
      case Spawn(t) => CountUpdate(s.tasks, t, Spawned);
      case Lock(t) => CountUpdate(s.tasks, t, Writing);
      case Write(t) => CountUpdate(s.tasks, t, Written);
      case Subtract(t) => CountUpdate(s.tasks, t, Subtracted);
      case Notify(t) => CountUpdate(s.tasks, t, Notified);
      case Unlock(t) => CountUpdate(s.tasks, t, Done);
      case _ =>
    }
  }

  lemma LockKept(s: State, step: Step)
    requires LockIsExclusive(s) && Next(s, step).Some?
    ensures LockIsExclusive(Next(s, step).value)
  {
  }

  lemma WakeUpKept(s: State, step: Step)
    requires NoLostWakeUp(s) && CountIsExact(s) && Next(s, step).Some?
    ensures NoLostWakeUp(Next(s, step).value)
  {
    var n := Next(s, step).value;
    CountPositive(s.tasks);
    hide UnfinishedCount;
    forall f | f in n.flushers && n.flushers[f].Waiting? && !n.flushers[f].woken
      ensures exists t :: 0 <= t < |n.tasks| && WillNotify(n.tasks[t])
    {
      var t :| 0 <= t < |s.tasks| && WillNotify(s.tasks[t]);
      assert WillNotify(n.tasks[t]);
    }
  }

  lemma AttemptsStay(s: State, step: Step, t: nat)
    requires Next(s, step).Some? && t < |s.tasks| && Attempted(s.tasks[t])
    ensures t < |Next(s, step).value.tasks| && Attempted(Next(s, step).value.tasks[t])
  {
  }

  lemma FlushesKept(s: State, step: Step)
    requires FlushesAreComplete(s) && CountIsExact(s) && Next(s, step).Some?
    ensures FlushesAreComplete(Next(s, step).value)
  {
    var n := Next(s, step).value;
    CountPositive(s.tasks);
    hide UnfinishedCount;
    assert |s.tasks| <= |n.tasks|;
    assert forall f :: f in n.flushers ==> n.flushers[f].owed <= |n.tasks|;
    forall f, t | f in n.flushers && n.flushers[f].Returned? && 0 <= t < n.flushers[f].owed ensures Attempted(n.tasks[t]) {
      if f in s.flushers && s.flushers[f].Returned? {
        hide Attempted;
        assert Attempted(s.tasks[t]);
        AttemptsStay(s, step, t);
      } else {
        assert step == Load(f) && n.tasks == s.tasks && !Unfinished(s.tasks[t]);
      }
    }
  }

  lemma {:induction false} SafeAlways(s: State, steps: seq<Step>)
    requires Safe(s) && Run(s, steps).Some?
    ensures Safe(Run(s, steps).value)
    decreases |steps|
  {
    if steps != [] {
      CountKept(s, steps[0]);
      LockKept(s, steps[0]);
      WakeUpKept(s, steps[0]);
      FlushesKept(s, steps[0]);
      hide Next, CountIsExact, LockIsExclusive, NoLostWakeUp, FlushesAreComplete;
      SafeAlways(Next(s, steps[0]).value, steps[1..]);
    }
  }

  // In every interleaving: the count is exact and bounded, writes never overlap, nobody sleeps with no
  // wake-up to come, and a finished flush has seen every earlier accepted entry attempted.
  lemma {:induction false} AuditQueueIsSafe(steps: seq<Step>)
    requires Run(EMPTY, steps).Some?
    ensures var s := Run(EMPTY, steps).value;
            && s.pending == UnfinishedCount(s.tasks) <= MAX_PENDING_WRITES
            && (forall t, u :: 0 <= t < u < |s.tasks| ==> !(Holds(s.tasks[t]) && Holds(s.tasks[u])))
            && (forall t :: 0 <= t < |s.tasks| && s.tasks[t].Writing? ==> s.lock == Writer(t))
            && NoLostWakeUp(s) && FlushesAreComplete(s)
  {
    SafeAlways(EMPTY, steps);
  }

  // ---- a sleeper's wake-up does come ----

  predicate OfWriter(step: Step) {
    step.Spawn? || step.Lock? || step.Write? || step.Subtract? || step.Notify? || step.Unlock? || step.CleanerUnlock?
  }

  function Rank(s: Stage): nat {
    match s
    case Counted => 6
    case Spawned => 5
    case Writing => 4
    case Written => 3
    case Subtracted => 2
    case Notified => 1
    case Done => 0
  }

  function TotalRank(tasks: seq<Stage>): nat
    decreases |tasks|
  {
    if tasks == [] then 0 else TotalRank(tasks[..|tasks| - 1]) + Rank(tasks[|tasks| - 1])
  }

  function WorkLeft(s: State): nat { TotalRank(s.tasks) + if s.lock.Cleaner? then 1 else 0 }

  lemma {:induction false} RankUpdate(tasks: seq<Stage>, t: nat, to: Stage)
    requires t < |tasks|
    ensures TotalRank(tasks[t := to]) + Rank(tasks[t]) == TotalRank(tasks) + Rank(to)
    decreases |tasks|
  {
    var init := tasks[..|tasks| - 1];
    if t == |tasks| - 1 {
      assert tasks[t := to][..t] == init;
    } else {
      assert tasks[t := to][..|tasks| - 1] == init[t := to];
      RankUpdate(init, t, to);
    }
  }

  // Writers always get closer to the end.
  lemma WriterStepsDecrease(s: State, step: Step)
    requires LockIsExclusive(s) && OfWriter(step) && Next(s, step).Some?
    ensures WorkLeft(Next(s, step).value) < WorkLeft(s)
  {
    match step {
      case Spawn(t) => RankUpdate(s.tasks, t, Spawned);
      case Lock(t) => RankUpdate(s.tasks, t, Writing);
      case Write(t) => RankUpdate(s.tasks, t, Written);
      case Subtract(t) => RankUpdate(s.tasks, t, Subtracted);
      case Notify(t) => RankUpdate(s.tasks, t, Notified);
      case Unlock(t) => RankUpdate(s.tasks, t, Done);
      case CleanerUnlock =>
    }
  }

  // While a flusher sleeps some writer (or the cleaner) can take a step, so with no new entries the
  // notification comes after finitely many.
  lemma SleepersAreNotStuck(s: State, f: nat) returns (step: Step)
    requires Safe(s) && f in s.flushers && s.flushers[f].Waiting? && !s.flushers[f].woken
    ensures OfWriter(step) && Next(s, step).Some? && WorkLeft(Next(s, step).value) < WorkLeft(s)
  {
    CountPositive(s.tasks);
    var t :| 0 <= t < |s.tasks| && WillNotify(s.tasks[t]);
    var task := if s.lock.Writer? then s.lock.task else t;
    match s.tasks[task] {
      case Counted => step := Spawn(task);
      case Spawned => step := if s.lock.Cleaner? then CleanerUnlock else Lock(task);
      case Writing => step := Write(task);
      case Written => step := Subtract(task);
      case Subtracted => step := Notify(task);
      case Notified => step := Unlock(task);
      case Done =>
    }
    WriterStepsDecrease(s, step);
  }

  // When every task is done, a flusher returns in at most two steps.
  lemma FlushReturns(s: State, f: nat) returns (steps: seq<Step>)
    requires Safe(s) && f in s.flushers && forall t :: 0 <= t < |s.tasks| ==> s.tasks[t].Done?
    ensures |steps| <= 2 && Run(s, steps).Some? && f in Run(s, steps).value.flushers
            && Run(s, steps).value.flushers[f].Returned?
  {
    CountPositive(s.tasks);
    hide UnfinishedCount;
    match s.flushers[f] {
      case Returned(_) => steps := [];
      case Armed(_, _) =>
        steps := [Load(f)];
        assert Run(Next(s, Load(f)).value, steps[1..]) == Next(s, Load(f));
      case Waiting(_, _) =>
        steps := [Wake(f), Load(f)];
        var t := Next(s, Wake(f)).value;
        assert steps[1..] == [Load(f)] && [Load(f)][1..] == [];
        assert Run(t, [Load(f)]) == Run(Next(t, Load(f)).value, []);
    }
  }
}

// The throttle on error logs: a compare-and-swap on the second of the last one.
module ErrorThrottle {
  import opened Wrappers

  const THROTTLE_SECONDS: nat := 60

  // A call of `log_io_error` in its loop, past its swap but still to report, or finished.
  datatype Call = Looping(now: nat, previous: nat) | Won(now: nat) | Logged | Suppressed

  // `logged` holds the clock readings of the logs made, `reported` the sum of what they reported.
  datatype State = State(last: nat, suppressed: nat, calls: seq<Call>, logged: seq<nat>, reported: nat)

  const START := State(0, 0, [], [], 0)

  datatype Step = Enter(now: nat) | Suppress(call: nat) | Swap(call: nat) | SwapFails(call: nat) | Report(call: nat)

  function SaturatingSub(a: nat, b: nat): nat { if a < b then 0 else a - b }

  predicate Throttled(now: nat, previous: nat) { previous != 0 && SaturatingSub(now, previous) < THROTTLE_SECONDS }

  function Next(s: State, step: Step): Option<State> {
    match step
    case Enter(now) => Some(s.(calls := s.calls + [Looping(now, s.last)]))
    case Suppress(c) =>
      if c >= |s.calls| || !s.calls[c].Looping? || !Throttled(s.calls[c].now, s.calls[c].previous) then None
      else Some(s.(suppressed := s.suppressed + 1, calls := s.calls[c := Suppressed]))
    case Swap(c) =>
      if c >= |s.calls| || !s.calls[c].Looping? || Throttled(s.calls[c].now, s.calls[c].previous) || s.last != s.calls[c].previous
      then None
      else Some(s.(last := s.calls[c].now, logged := s.logged + [s.calls[c].now], calls := s.calls[c := Won(s.calls[c].now)]))
    case SwapFails(c) =>  // also spuriously: the swap is the weak one
      if c >= |s.calls| || !s.calls[c].Looping? || Throttled(s.calls[c].now, s.calls[c].previous) then None
      else Some(s.(calls := s.calls[c := Looping(s.calls[c].now, s.last)]))
    case Report(c) =>
      if c >= |s.calls| || !s.calls[c].Won? then None
      else Some(s.(reported := s.reported + s.suppressed, suppressed := 0, calls := s.calls[c := Logged]))
  }

  function Run(s: State, steps: seq<Step>): Option<State>
    decreases |steps|
  {
    if steps == [] then Some(s)
    else match Next(s, steps[0])
      case None => None
      case Some(t) => Run(t, steps[1..])
  }

  function SuppressedCalls(calls: seq<Call>): nat
    decreases |calls|
  {
    if calls == [] then 0 else SuppressedCalls(calls[..|calls| - 1]) + if calls[|calls| - 1].Suppressed? then 1 else 0
  }

  lemma {:induction false} SuppressedUpdate(calls: seq<Call>, c: nat, to: Call)
    requires c < |calls|
    ensures SuppressedCalls(calls[c := to]) + (if calls[c].Suppressed? then 1 else 0)
            == SuppressedCalls(calls) + (if to.Suppressed? then 1 else 0)
    decreases |calls|
  {
    var init := calls[..|calls| - 1];
    if c == |calls| - 1 {
      assert calls[c := to][..c] == init;
    } else {
      assert calls[c := to][..|calls| - 1] == init[c := to];
      SuppressedUpdate(init, c, to);
    }
  }

  ghost predicate Spaced(logged: seq<nat>) {
    forall i, j :: 0 <= i < j < |logged| && j == i + 1 && logged[i] != 0 ==> logged[j] >= logged[i] + THROTTLE_SECONDS
  }

  ghost predicate Consistent(s: State) {
    && s.last == (if s.logged == [] then 0 else s.logged[|s.logged| - 1])
    && Spaced(s.logged) && SuppressedCalls(s.calls) == s.suppressed + s.reported
  }

  lemma StepKeeps(s: State, step: Step)
    requires Consistent(s) && Next(s, step).Some?
    ensures Consistent(Next(s, step).value)
  {
    match step {
      case Enter(now) => assert (s.calls + [Looping(now, s.last)])[..|s.calls|] == s.calls;
      case Suppress(c) => SuppressedUpdate(s.calls, c, Suppressed);
      case Swap(c) => SuppressedUpdate(s.calls, c, Won(s.calls[c].now));
      case SwapFails(c) => SuppressedUpdate(s.calls, c, Looping(s.calls[c].now, s.last));
      case Report(c) => SuppressedUpdate(s.calls, c, Logged);
    }
  }

  lemma {:induction false} RunKeeps(s: State, steps: seq<Step>)
    requires Consistent(s) && Run(s, steps).Some?
    ensures Consistent(Run(s, steps).value)
    decreases |steps|
  {
    if steps != [] {
      StepKeeps(s, steps[0]);
      hide Next, Consistent;
      RunKeeps(Next(s, steps[0]).value, steps[1..]);
    }
  }

  // Whatever the interleaving and the clock: a log follows another by a minute at least, unless the
  // earlier one read the clock as 0; and every suppressed call is reported once or still counted.
  lemma {:induction false} ThrottleIsSafe(steps: seq<Step>, s: State)
    requires Run(START, steps) == Some(s)
    ensures Spaced(s.logged) && SuppressedCalls(s.calls) == s.suppressed + s.reported
  {
    StartIsConsistent();
    hide *;
    RunKeeps(START, steps);
    ConsistentMeans(s);
  }

  lemma StartIsConsistent()
    ensures Consistent(START)
  {
  }

  lemma ConsistentMeans(s: State)
    requires Consistent(s)
    ensures Spaced(s.logged) && SuppressedCalls(s.calls) == s.suppressed + s.reported
  {
  }

  // ---- exactly which logs are possible ----

  // The logs of some run.
  ghost predicate Possible(logged: seq<nat>) {
    exists steps :: Run(START, steps).Some? && Run(START, steps).value.logged == logged
  }

  // The calls one after the other, each logging before the next comes.
  function OneByOne(logged: seq<nat>): seq<Step>
    decreases |logged|
  {
    if logged == [] then [] else OneByOne(logged[..|logged| - 1]) + [Enter(logged[|logged| - 1]), Swap(|logged| - 1)]
  }

  lemma {:induction false} RunConcat(s: State, x: seq<Step>, y: seq<Step>)
    requires Run(s, x).Some?
    ensures Run(s, x + y) == Run(Run(s, x).value, y)
    decreases |x|
  {
    hide Next;
    if x == [] {
      assert x + y == y;
    } else {
      assert (x + y)[0] == x[0] && (x + y)[1..] == x[1..] + y;
      RunConcat(Next(s, x[0]).value, x[1..], y);
    }
  }

  // A call that finds nobody else at work logs when it is not throttled.
  lemma LogsAlone(s: State, now: nat)
    requires !Throttled(now, s.last)
    ensures Run(s, [Enter(now), Swap(|s.calls|)])
            == Some(s.(last := now, logged := s.logged + [now], calls := s.calls + [Won(now)]))
  {
    var entered := s.(calls := s.calls + [Looping(now, s.last)]);
    var done := s.(last := now, logged := s.logged + [now], calls := s.calls + [Won(now)]);
    assert Next(s, Enter(now)) == Some(entered);
    assert entered.calls[|s.calls| := Won(now)] == done.calls;
    assert Next(entered, Swap(|s.calls|)) == Some(done);
    hide Next;
    assert [Enter(now), Swap(|s.calls|)][1..] == [Swap(|s.calls|)] && [Swap(|s.calls|)][1..] == [];
    assert Run(entered, [Swap(|s.calls|)]) == Run(done, []);
  }

  lemma {:induction false} OneByOneRuns(logged: seq<nat>)
    requires Spaced(logged)
    ensures Run(START, OneByOne(logged)).Some?
    ensures var s := Run(START, OneByOne(logged)).value;
            s.logged == logged && |s.calls| == |logged| && s.last == if logged == [] then 0 else logged[|logged| - 1]
    decreases |logged|
  {
    if logged != [] {
      var init, now := logged[..|logged| - 1], logged[|logged| - 1];
      assert Spaced(init);
      OneByOneRuns(init);
      var s := Run(START, OneByOne(init)).value;
      assert !Throttled(now, s.last) by {
        if init != [] { assert logged[|init| - 1] == s.last; }
      }
      LogsAlone(s, now);
      hide Run, Spaced, Throttled;
      RunConcat(START, OneByOne(init), [Enter(now), Swap(|init|)]);
      assert init + [now] == logged;
    }
  }

  // The readings of the logs some run makes are exactly those that follow each other by a minute at
  // least, except after a reading of 0: such a log leaves no mark, so the next may follow at once.
  lemma PossibleExactly(logged: seq<nat>)
    ensures Possible(logged) <==> Spaced(logged)
  {
    if Spaced(logged) { OneByOneRuns(logged); }
    hide Spaced, Run;
    if Possible(logged) {
      var steps :| Run(START, steps).Some? && Run(START, steps).value.logged == logged;
      ThrottleIsSafe(steps, Run(START, steps).value);
    }
  }

  // What the throttle is for, of every pair of logs.
  ghost predicate MinuteApart(logged: seq<nat>) {
    forall i, j :: 0 <= i < j < |logged| && j == i + 1 ==> logged[j] >= logged[i] + THROTTLE_SECONDS
  }

  ghost predicate Reads(steps: seq<Step>, clock: iset<nat>) { forall i :: 0 <= i < |steps| && steps[i].Enter? ==> steps[i].now in clock }

  // With a clock that may read any of `clock`, all runs keep a minute between logs if and only if it
  // never reads 0.
  lemma MinuteApartExactly(clock: iset<nat>)
    ensures (forall steps :: Reads(steps, clock) && Run(START, steps).Some? ==> MinuteApart(Run(START, steps).value.logged))
            <==> 0 !in clock
  {
    if 0 in clock {
      OneByOneRuns([0, 0]);
      TwoAtZero();
      assert Reads(OneByOne([0, 0]), clock) && !MinuteApart(Run(START, OneByOne([0, 0])).value.logged);
    } else {
      forall steps | Reads(steps, clock) && Run(START, steps).Some? ensures MinuteApart(Run(START, steps).value.logged) {
        var s := Run(START, steps).value;
        ThrottleIsSafe(steps, s);
        StartFromClock(clock);
        LogsFromClock(START, steps, clock);
        hide Run;
      }
    }
  }

  lemma TwoAtZero()
    ensures OneByOne([0, 0]) == [Enter(0), Swap(0), Enter(0), Swap(1)]
  {
    assert [0, 0][..1] == [0] && [0][..0] == [];
    assert OneByOne([0]) == OneByOne([]) + [Enter(0), Swap(0)];
  }

  ghost predicate FromClock(s: State, clock: iset<nat>) {
    && (forall i :: 0 <= i < |s.logged| ==> s.logged[i] in clock)
    && (forall i :: 0 <= i < |s.calls| && s.calls[i].Looping? ==> s.calls[i].now in clock)
  }

  lemma StartFromClock(clock: iset<nat>)
    ensures FromClock(START, clock)
  {
  }

  lemma {:induction false} LogsFromClock(s: State, steps: seq<Step>, clock: iset<nat>)
    requires FromClock(s, clock) && Reads(steps, clock) && Run(s, steps).Some?
    ensures FromClock(Run(s, steps).value, clock)
    decreases |steps|
  {
    if steps != [] {
      assert FromClock(Next(s, steps[0]).value, clock);
      assert Reads(steps[1..], clock);
      hide Next, FromClock, Reads;
      LogsFromClock(Next(s, steps[0]).value, steps[1..], clock);
    }
  }

  // Two logs five seconds apart, the first with the clock at 0.
  lemma ClockAtZero()
    ensures Possible([0, 5]) && !MinuteApart([0, 5])
  {
    var logged := [0, 5];
    assert logged[0] == 0 && logged[1] == 5;
    PossibleExactly(logged);
    hide Possible;
  }
}
