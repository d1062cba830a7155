// What a run of the audit queue did with each entry, told from its steps.
module AuditRuns {
  import opened Wrappers
  import opened AuditQueue

  lemma {:induction false} RunConcat(s: State, a: seq<Step>, b: seq<Step>)
    ensures Run(s, a + b) == match Run(s, a) case None => None case Some(t) => Run(t, b)
    decreases |a|
  {
    hide Next;
    if a == [] {
      assert a + b == b;
    } else {
      assert (a + b)[0] == a[0] && (a + b)[1..] == a[1..] + b;
      if Next(s, a[0]).Some? { RunConcat(Next(s, a[0]).value, a[1..], b); }
    }
  }

  // The state after the first `n` steps.
  lemma UpTo(steps: seq<Step>, n: nat)
    requires n <= |steps| && Run(EMPTY, steps).Some?
    ensures Run(EMPTY, steps[..n]).Some?
    ensures n > 0 ==>
              Run(EMPTY, steps[..n - 1]).Some? && Run(EMPTY, steps[..n]) == Next(Run(EMPTY, steps[..n - 1]).value, steps[n - 1])
  {
    hide Next;
    assert steps == steps[..n] + steps[n..];
    RunConcat(EMPTY, steps[..n], steps[n..]);
    if n > 0 {
      var init, last := steps[..n - 1], [steps[n - 1]];
      assert steps[..n] == init + last;
      RunConcat(EMPTY, init, last);
      var s := Run(EMPTY, init).value;
      if Next(s, steps[n - 1]).Some? { assert Run(Next(s, steps[n - 1]).value, last[1..]) == Next(s, steps[n - 1]); }
    }
  }

  function At(steps: seq<Step>, n: nat): (s: State)
    requires n <= |steps| && Run(EMPTY, steps).Some?
  {
    UpTo(steps, n);
    Run(EMPTY, steps[..n]).value
  }

  function Appends(steps: seq<Step>): nat
    decreases |steps|
  {
    if steps == [] then 0 else Appends(steps[..|steps| - 1]) + if steps[|steps| - 1] == Append then 1 else 0
  }

  // ---- accepted or dropped ----

  // Every append is accepted or counted as dropped, and no entry comes from elsewhere.
  lemma {:induction false} AppendsAreConserved(steps: seq<Step>, n: nat)
    requires n <= |steps| && Run(EMPTY, steps).Some?
    ensures |At(steps, n).tasks| + At(steps, n).dropped == Appends(steps[..n])
    decreases n
  {
    if n > 0 {
      UpTo(steps, n);
      AppendsAreConserved(steps, n - 1);
      assert steps[..n][..n - 1] == steps[..n - 1];
      hide Run, UnfinishedCount;
    }
  }

  // An entry joins the tasks if and only if fewer than 512 of them are unfinished when it comes.
  lemma AcceptedExactly(steps: seq<Step>, i: nat)
    requires i < |steps| && Run(EMPTY, steps).Some? && steps[i] == Append
    ensures var before, after := At(steps, i), At(steps, i + 1);
            && (after.tasks == before.tasks + [Counted] <==> UnfinishedCount(before.tasks) < 512)
            && (after.tasks == before.tasks <==> UnfinishedCount(before.tasks) == 512)
            && after.flushers == before.flushers && after.lock == before.lock
  {
    UpTo(steps, i + 1);
    SafeAlways(EMPTY, steps[..i]);
    hide Run, UnfinishedCount, LockIsExclusive, NoLostWakeUp, FlushesAreComplete;
  }

  // The queue is full when the step at `i` wants to append.
  ghost predicate FullAt(steps: seq<Step>, i: nat)
    requires Run(EMPTY, steps).Some?
  {
    i < |steps| && steps[i] == Append && UnfinishedCount(At(steps, i).tasks) == 512
  }

  // Something was dropped if and only if an append found exactly 512 unfinished writes.
  lemma {:induction false} DropsExactly(steps: seq<Step>, n: nat)
    requires n <= |steps| && Run(EMPTY, steps).Some?
    ensures At(steps, n).dropped > 0 <==> exists i :: 0 <= i < n && FullAt(steps, i)
    decreases n
  {
    if n > 0 {
      UpTo(steps, n);
      DropsExactly(steps, n - 1);
      SafeAlways(EMPTY, steps[..n - 1]);
      var before, after := At(steps, n - 1), At(steps, n);
      hide Run, At, UnfinishedCount, LockIsExclusive, NoLostWakeUp, FlushesAreComplete;
      assert after.dropped == before.dropped + if FullAt(steps, n - 1) then 1 else 0;
      if before.dropped > 0 {
        var i :| 0 <= i < n - 1 && FullAt(steps, i);
      }
    }
  }

  lemma {:induction false} CountIsBounded(tasks: seq<Stage>)
    ensures UnfinishedCount(tasks) <= |tasks|
    decreases |tasks|
  {
    if tasks != [] { CountIsBounded(tasks[..|tasks| - 1]); }
  }

  lemma {:induction false} AppendsGrow(steps: seq<Step>, i: nat)
    requires i < |steps| && steps[i] == Append
    ensures Appends(steps[..i]) < Appends(steps)
    decreases |steps|
  {
    var init := steps[..|steps| - 1];
    if i < |init| {
      assert init[..i] == steps[..i];
      AppendsGrow(init, i);
    }
  }

  // So 512 entries are always taken, whatever the interleaving.
  lemma FewAreNeverDropped(steps: seq<Step>)
    requires Run(EMPTY, steps).Some? && Appends(steps) <= 512
    ensures Run(EMPTY, steps).value.dropped == 0 && |Run(EMPTY, steps).value.tasks| == Appends(steps)
  {
    assert steps[..|steps|] == steps;
    DropsExactly(steps, |steps|);
    AppendsAreConserved(steps, |steps|);
    forall i | 0 <= i < |steps| ensures !FullAt(steps, i) {
      if FullAt(steps, i) {
        AppendsAreConserved(steps, i);
        CountIsBounded(At(steps, i).tasks);
        AppendsGrow(steps, i);
      }
    }
  }

  // ---- the life of an entry ----

  predicate Of(step: Step, t: nat) {
    (step.Spawn? || step.Lock? || step.Write? || step.Subtract? || step.Notify? || step.Unlock?) && step.task == t
  }

  function StepsOf(steps: seq<Step>, t: nat): seq<Step>
    decreases |steps|
  {
    if steps == [] then []
    else StepsOf(steps[..|steps| - 1], t) + if Of(steps[|steps| - 1], t) then [steps[|steps| - 1]] else []
  }

  function Life(t: nat): seq<Step> { [Spawn(t), Lock(t), Write(t), Subtract(t), Notify(t), Unlock(t)] }

  function Age(s: Stage): (n: nat)
    ensures n <= 6
  {
    match s
    case Counted => 0
    case Spawned => 1
    case Writing => 2
    case Written => 3
    case Subtracted => 4
    case Notified => 5
    case Done => 6
  }

  // A step takes its own task one stage further and leaves every other where it is.
  lemma OneStageFurther(s: State, step: Step, t: nat)
    requires Next(s, step).Some?
    ensures var n := Next(s, step).value;
            if Of(step, t) then
              t < |s.tasks| <= |n.tasks| && Age(n.tasks[t]) == Age(s.tasks[t]) + 1 && step == Life(t)[Age(s.tasks[t])]
            else
              |s.tasks| <= |n.tasks| && (t < |n.tasks| ==> n.tasks[t] == if t < |s.tasks| then s.tasks[t] else Counted)
  {
  }

  // What a run did with a task is a beginning of its life: spawned, locked, written once, subtracted, notified, unlocked.
  lemma {:induction false} TaskLives(steps: seq<Step>, n: nat, t: nat)
    requires n <= |steps| && Run(EMPTY, steps).Some?
    ensures StepsOf(steps[..n], t)
            == if t < |At(steps, n).tasks| then Life(t)[..Age(At(steps, n).tasks[t])] else []
    decreases n
  {
    if n > 0 {
      UpTo(steps, n);
      TaskLives(steps, n - 1, t);
      OneStageFurther(At(steps, n - 1), steps[n - 1], t);
      var before, after := At(steps, n - 1), At(steps, n);
      assert Next(before, steps[n - 1]) == Some(after);
      assert steps[..n][..n - 1] == steps[..n - 1];
      assert StepsOf(steps[..n], t) == StepsOf(steps[..n - 1], t) + if Of(steps[n - 1], t) then [steps[n - 1]] else [];
      hide Run, Next, Of, StepsOf, Age, At;
      if Of(steps[n - 1], t) {
        var life, age := Life(t), Age(before.tasks[t]);
        assert life[..age] + [life[age]] == life[..age + 1];
      }
    }
  }

  lemma {:induction false} StepsOfAreSteps(steps: seq<Step>, t: nat)
    ensures forall step :: step in StepsOf(steps, t) ==> step in steps
    decreases |steps|
  {
    if steps != [] { StepsOfAreSteps(steps[..|steps| - 1], t); }
  }

  // ---- flush ----

  lemma OwedKept(s: State, step: Step, f: nat)
    requires f in s.flushers && Next(s, step).Some?
    ensures f in Next(s, step).value.flushers && Next(s, step).value.flushers[f].owed == s.flushers[f].owed
  {
  }

  lemma {:induction false} OwedSince(steps: seq<Step>, i: nat, n: nat, f: nat)
    requires i < n <= |steps| && Run(EMPTY, steps).Some? && steps[i] == Flush(f)
    ensures f in At(steps, n).flushers && At(steps, n).flushers[f].owed == |At(steps, i).tasks|
    decreases n
  {
    UpTo(steps, n);
    if n - 1 > i {
      OwedSince(steps, i, n - 1, f);
      hide Run, Next;
      OwedKept(At(steps, n - 1), steps[n - 1], f);
    }
  }

  // A flush called at `i` that has returned: every entry accepted before the call has been written by then.
  lemma FlushSawAll(steps: seq<Step>, i: nat, f: nat, t: nat)
    requires i < |steps| && Run(EMPTY, steps).Some? && steps[i] == Flush(f)
    requires f in Run(EMPTY, steps).value.flushers && Run(EMPTY, steps).value.flushers[f].Returned?
    requires t < |At(steps, i).tasks|
    ensures Write(t) in steps
  {
    assert steps[..|steps|] == steps;
    OwedSince(steps, i, |steps|, f);
    SafeAlways(EMPTY, steps);
    TaskLives(steps, |steps|, t);
    StepsOfAreSteps(steps, t);
    hide Run, At, UnfinishedCount, LockIsExclusive, NoLostWakeUp;
    assert Life(t)[2] in StepsOf(steps, t);
  }
}
