/**
How far the stuck count can really go. The header of `apps/cli/src/bounded_run.rs`
says stuck children never exceed `MAX_RUNS` in all. A failed reaper hand-off gives
its permit back before it stops counting as stuck, so the count can go past it:
`RunProtocol.BudgetIsExact` bounds it by `MAX_RUNS + LINGERING_MAX - 1`, here is a run
of the protocol that gets there, and the exact count on every run.
*/
module RunStuckBound {
  import opened RunProtocol
  import opened RunRegistry
  import opened RunState

  /** Steps from any state, not only the initial one. */
  ghost predicate Path(b: seq<System>, steps: seq<Step>) {
    && |b| == |steps| + 1
    && forall i {:trigger steps[i]} :: 0 <= i < |steps| ==> Next(b[i], b[i + 1], steps[i])
  }

  ghost predicate Leads(s: System, t: System) {
    exists b, steps :: Path(b, steps) && b[0] == s && b[|b| - 1] == t
  }

  lemma LeadsHere(s: System)
    ensures Leads(s, s)
  {
    assert Path([s], []);
  }

  lemma LeadsOn(s: System, t: System, step: Step)
    requires Leads(s, t) && Enabled(t, step)
    ensures Leads(s, Apply(t, step))
  {
    var b, steps :| Path(b, steps) && b[0] == s && b[|b| - 1] == t;
    var longer, more := b + [Apply(t, step)], steps + [step];
    assert Path(longer, more);
    assert longer[0] == s && longer[|longer| - 1] == Apply(t, step);
  }

  type Small = r: nat | r < 100

  function FreshRun(): Run { Run(Admitted, 2, false, false, false, false, {}, false) }
  /** A run whose child ignored the kill and was not reaped in time. */
  function StuckRun(r: Small, pc: Pc): Run {
    Run(pc, 2 + r, false, true, true, false, {KillGroup(2 + r), KillChild(2 + r)}, false)
  }

  /** Runs without a reaper thread first, then stuck ones, then admitted ones. */
  function Stage(orphans: Small, stuck: Small, waiting: Small): System
    requires orphans + stuck + waiting <= 99
  {
    System(BudgetState(stuck + waiting, orphans + stuck),
           RegistryState(false, map[], 0),
           map r: nat | r < orphans + stuck + waiting ::
             if r < orphans then StuckRun(r, Orphaned) else if r < orphans + stuck then StuckRun(r, HandingOff) else FreshRun(),
           map[], {})
  }

  function EndedRun(r: Small): Run { Run(Ended(false), 2 + r, false, true, true, false, {}, false) }

  /** An admitted run spawns its child, registers it and stops waiting for it. */
  lemma DriveToEnd(s: System, t: System, r: Small)
    requires Leads(s, t) && r in t.runs && t.runs[r] == FreshRun()
    requires !t.registry.closed && t.registry.groups == map[] && PidFree(t, 2 + r)
    ensures Leads(s, t.(runs := t.runs[r := EndedRun(r)], registry := t.registry.(groups := map[2 + r := false])))
  {
    LeadsOn(s, t, BeginSpawn(r));
    var t1 := Apply(t, BeginSpawn(r));
    LeadsOn(s, t1, Spawn(r, 2 + r, false));
    var t2 := Apply(t1, Spawn(r, 2 + r, false));
    LeadsOn(s, t2, Register(r));
    var t3 := Apply(t2, Register(r));
    LeadsOn(s, t3, EndWait(r, false));
    assert Apply(t3, EndWait(r, false)).runs == t.runs[r := EndedRun(r)];
  }

  lemma HitsOnly(runs: map<RunId, Run>, r: RunId, signals: set<Signal>)
    requires r in runs && Unreaped(runs[r]) && forall x :: x in signals ==> x.pid == runs[r].pid
    requires forall q :: q in runs && q != r && Unreaped(runs[q]) ==> runs[q].pid != runs[r].pid
    ensures Signalled(runs, signals) == runs[r := runs[r].(got := runs[r].got + signals)]
  {
    forall q | q in runs && q != r ensures Hit(runs[q], signals) == runs[q] {
      assert runs[q].got + {} == runs[q].got;
      assert Unreaped(runs[q]) ==> (set x | x in signals && x.pid == runs[q].pid) == {};
    }
    assert (set x | x in signals && x.pid == runs[r].pid) == signals;
  }

  /** The run kills its own child and nobody else. */
  lemma KillSticks(t: System, r: Small)
    requires r in t.runs && t.runs[r] == EndedRun(r) && t.strays == {}
    requires forall q :: q in t.runs && q != r && Unreaped(t.runs[q]) ==> t.runs[q].pid != 2 + r
    ensures Apply(t, Kill(r)) == t.(runs := t.runs[r := StuckRun(r, Killed)])
  {
    var signals := KillSignals(2 + r, false);
    HitsOnly(t.runs, r, signals);
    assert !PidFree(t, 2 + r);
    assert SignalAll(t, signals).strays == {};
    assert {} + signals == {KillGroup(2 + r), KillChild(2 + r)};
  }

  /** An admitted run whose child cannot be reaped is driven into the hand-off. */
  lemma Drive(s: System, t: System, r: Small)
    requires Leads(s, t) && r in t.runs && t.runs[r] == FreshRun()
    requires !t.registry.closed && t.registry.groups == map[] && t.strays == {}
    requires PidFree(t, 2 + r)
    ensures Leads(s, t.(runs := t.runs[r := StuckRun(r, HandingOff)], budget := WithStuck(t.budget)))
  {
    DriveToEnd(s, t, r);
    var t4 := t.(runs := t.runs[r := EndedRun(r)], registry := t.registry.(groups := map[2 + r := false]));
    LeadsOn(s, t4, Kill(r));
    var t5 := Apply(t4, Kill(r));
    KillSticks(t4, r);
    assert t5 == t4.(runs := t.runs[r := StuckRun(r, Killed)]);
    LeadsOn(s, t5, Unregister(r));
    var t6 := Apply(t5, Unregister(r));
    assert t6 == t.(runs := t.runs[r := StuckRun(r, OffRegistry)]);
    LeadsOn(s, t6, HandOff(r));
  }

  lemma {:induction false} ReachOrphans(n: Small)
    requires n < LINGERING_MAX
    ensures Leads(Initial, Stage(n, 0, 0))
  {
    if n == 0 {
      assert Stage(0, 0, 0) == Initial;
      LeadsHere(Initial);
    } else {
      ReachOrphans(n - 1);
      var s := Stage(n - 1, 0, 0);
      LeadsOn(Initial, s, Admit(n - 1));
      var t := Apply(s, Admit(n - 1));
      Drive(Initial, t, n - 1);
      var u := t.(runs := t.runs[n - 1 := StuckRun(n - 1, HandingOff)], budget := WithStuck(t.budget));
      LeadsOn(Initial, u, StartReaper(n - 1, false));
      assert Apply(u, StartReaper(n - 1, false)) == Stage(n, 0, 0);
    }
  }

  lemma {:induction false} ReachAdmitted(n: Small)
    requires n <= MAX_RUNS
    ensures Leads(Initial, Stage(LINGERING_MAX - 1, 0, n))
  {
    if n == 0 {
      ReachOrphans(LINGERING_MAX - 1);
    } else {
      ReachAdmitted(n - 1);
      var s := Stage(LINGERING_MAX - 1, 0, n - 1);
      var r := LINGERING_MAX + n - 2;
      LeadsOn(Initial, s, Admit(r));
      var t, u := Apply(s, Admit(r)), Stage(LINGERING_MAX - 1, 0, n);
      assert t.runs == s.runs[r := FreshRun()];
      assert t.runs.Keys == u.runs.Keys;
      assert t.runs == u.runs;
    }
  }

  lemma {:induction false} ReachStuck(n: Small)
    requires n <= MAX_RUNS
    ensures Leads(Initial, Stage(LINGERING_MAX - 1, n, MAX_RUNS - n))
  {
    if n == 0 {
      ReachAdmitted(MAX_RUNS);
    } else {
      ReachStuck(n - 1);
      var s := Stage(LINGERING_MAX - 1, n - 1, MAX_RUNS - (n - 1));
      var r := LINGERING_MAX + n - 2;
      Drive(Initial, s, r);
      assert s.(runs := s.runs[r := StuckRun(r, HandingOff)], budget := WithStuck(s.budget))
          == Stage(LINGERING_MAX - 1, n, MAX_RUNS - n);
    }
  }

  /**
  The bound of `BudgetIsExact` is reached: with `LINGERING_MAX - 1` failed
  hand-offs under way, all `MAX_RUNS` admitted runs can still get stuck.
  */
  lemma StuckExceedsMaxRuns()
    ensures exists b: seq<System>, steps :: Behaviour(b, steps) && b[|b| - 1].budget.stuck == MAX_RUNS + LINGERING_MAX - 1 > MAX_RUNS
  {
    ReachStuck(MAX_RUNS);
    var b, steps :| Path(b, steps) && b[0] == Initial && b[|b| - 1] == Stage(LINGERING_MAX - 1, MAX_RUNS, 0);
    assert Behaviour(b, steps);
  }

  // --------------------------------------------------- when the bound is passed

  /** The stuck run still has its permit. */
  predicate StuckHolder(pc: Pc) { CountsStuck(pc) && HoldsPermit(pc) }

  /** The hand-off of `r` failed for want of a thread, and it still counts as stuck. */
  predicate FailedHandOff(steps: seq<Step>, i: nat, r: RunId)
    requires i <= |steps|
  {
    exists k :: 0 <= k < i && steps[k] == StartReaper(r, false) && forall m :: k < m < i ==> steps[m] != Uncount(r)
  }

  predicate IsOrphan(s: System, r: RunId) { r in s.runs && s.runs[r].pc.Orphaned? }

  lemma OrphanStep(s: System, step: Step, r: RunId)
    requires Enabled(s, step)
    ensures IsOrphan(Apply(s, step), r) <==> step == StartReaper(r, false) || (IsOrphan(s, r) && step != Uncount(r))
  {
    if !step.Shutdown? && !step.ShutdownReturn? { StepKeepsOthers(s, step); }
  }

  lemma FailedStep(steps: seq<Step>, i: nat, r: RunId)
    requires i < |steps|
    ensures FailedHandOff(steps, i + 1, r)
       <==> steps[i] == StartReaper(r, false) || (FailedHandOff(steps, i, r) && steps[i] != Uncount(r))
  {
    if FailedHandOff(steps, i + 1, r) {
      var k :| 0 <= k < i + 1 && steps[k] == StartReaper(r, false) && forall m :: k < m < i + 1 ==> steps[m] != Uncount(r);
      if k < i { assert FailedHandOff(steps, i, r); }
    }
    if steps[i] != Uncount(r) && FailedHandOff(steps, i, r) {
      var k :| 0 <= k < i && steps[k] == StartReaper(r, false) && forall m :: k < m < i ==> steps[m] != Uncount(r);
      assert forall m :: k < m < i + 1 ==> steps[m] != Uncount(r);
    }
  }

  lemma {:induction false} OrphansFailed(b: seq<System>, steps: seq<Step>, i: nat, r: RunId)
    requires Behaviour(b, steps) && i < |b|
    ensures IsOrphan(b[i], r) <==> FailedHandOff(steps, i, r)
    decreases i
  {
    if i > 0 {
      OrphansFailed(b, steps, i - 1, r);
      assert Next(b[i - 1], b[i], steps[i - 1]);
      OrphanStep(b[i - 1], steps[i - 1], r);
      FailedStep(steps, i - 1, r);
    }
  }

  lemma StuckSplits(runs: map<RunId, Run>)
    ensures Count(runs, CountsStuck) == Count(runs, StuckHolder) + Count(runs, CountsOrphaned)
  {
    var holders, orphans := Where(runs, StuckHolder), Where(runs, CountsOrphaned);
    assert Where(runs, CountsStuck) == holders + orphans;
    assert holders !! orphans;
  }

  /** The runs whose hand-off failed and that still count as stuck. */
  function FailedRuns(s: System, steps: seq<Step>, i: nat): set<RunId>
    requires i <= |steps|
  {
    set r | r in s.runs && FailedHandOff(steps, i, r)
  }

  lemma FailedAreOrphans(b: seq<System>, steps: seq<Step>, i: nat)
    requires Behaviour(b, steps) && i < |b|
    ensures FailedRuns(b[i], steps, i) == Where(b[i].runs, CountsOrphaned)
  {
    forall r | r in b[i].runs ensures FailedHandOff(steps, i, r) <==> CountsOrphaned(b[i].runs[r].pc) {
      OrphansFailed(b, steps, i, r);
    }
  }

  /**
  The stuck count on every run: the permit holders that are stuck plus the failed hand-offs
  not yet uncounted. So it passes `MAX_RUNS` exactly when those failed hand-offs outnumber
  the permits that are free or held by runs that are not stuck.
  */
  lemma StuckIs(b: seq<System>, steps: seq<Step>, i: nat)
    requires Behaviour(b, steps) && i < |b|
    ensures b[i].budget.stuck == Count(b[i].runs, StuckHolder) + |FailedRuns(b[i], steps, i)|
    ensures Count(b[i].runs, StuckHolder) <= b[i].budget.held <= MAX_RUNS
    ensures b[i].budget.stuck > MAX_RUNS <==> |FailedRuns(b[i], steps, i)| > MAX_RUNS - Count(b[i].runs, StuckHolder)
  {
    BudgetIsExact(b, steps, i);
    FailedAreOrphans(b, steps, i);
    StuckSplits(b[i].runs);
    CountCovered(b[i].runs, StuckHolder, HoldsPermit, pc => false);
    assert Where(b[i].runs, pc => false) == {};
  }

  /** While no hand-off has failed, no more children are stuck than runs are allowed. */
  lemma StuckWithinMaxRuns(b: seq<System>, steps: seq<Step>, i: nat)
    requires Behaviour(b, steps) && i < |b|
    requires forall k, r :: 0 <= k < i ==> steps[k] != StartReaper(r, false)
    ensures b[i].budget.stuck <= MAX_RUNS
  {
    StuckIs(b, steps, i);
    assert FailedRuns(b[i], steps, i) == {};
  }
}
