/**
Every interleaving of the threads that use bounded runs (`apps/cli/src/bounded_run.rs`,
Linux): admission, spawn tickets, the process registry, shutdown, the one exit path and the
hand-off to a reaper. A step is one critical section, taken with the functions that specify
`RunRegistry`'s methods.
*/
module RunProtocol {
  import opened Common
  import opened RunRegistry
  import opened RunState

  // --------------------------------------------------------------- protocol

  datatype KillerPc = Waiting | Drained | TimedOut

  /**
  `strays` collects pids that were signalled while no unreaped child of ours had
  them: a kill that could have hit a stranger.
  */
  datatype System = System(budget: BudgetState, registry: RegistryState, runs: map<RunId, Run>,
                           killers: map<KillerId, KillerPc>, strays: set<Pid>)

  datatype Step =
    | Admit(r: RunId)
    | BeginSpawn(r: RunId)
    | GiveUpTicket(r: RunId)          // cancelled, late, or the spawn failed
    | Spawn(r: RunId, pid: Pid, guard: bool)
    | Register(r: RunId)
    | Exit(r: RunId)                  // the child exits, whatever the reason
    | EndWait(r: RunId, exitSeen: bool)
    | Kill(r: RunId)                  // the run kills its own child
    | Unregister(r: RunId)
    | Reap(r: RunId)
    | HandOff(r: RunId)               // `stuck += 1`
    | StartReaper(r: RunId, started: bool)
    | ReaperReap(r: RunId)
    | Uncount(r: RunId)               // `stuck -= 1`
    | DropPermit(r: RunId)
    | Shutdown(k: KillerId)           // the locked half of `kill_all_in`
    | ShutdownReturn(k: KillerId, drained: bool)

  predicate PidFree(s: System, pid: Pid) {
    forall r :: r in s.runs && Unreaped(s.runs[r]) ==> s.runs[r].pid != pid
  }

  predicate Enabled(s: System, step: Step) {
    match step
    case Admit(r) => r !in s.runs && Admits(s.budget)
    case BeginSpawn(r) => r in s.runs && s.runs[r].pc.Admitted?
    case GiveUpTicket(r) => r in s.runs && s.runs[r].pc.Ticketed?
    case Spawn(r, pid, guard) => r in s.runs && s.runs[r].pc.Ticketed? && PidFree(s, pid)
    case Register(r) => r in s.runs && s.runs[r].pc.Spawned?
    case Exit(r) => r in s.runs && Unreaped(s.runs[r])
    case EndWait(r, exitSeen) => r in s.runs && s.runs[r].pc.Live? && (exitSeen ==> s.runs[r].exited)
    case Kill(r) => r in s.runs && s.runs[r].pc.Ended?
    case Unregister(r) => r in s.runs && s.runs[r].pc.Killed?
    case Reap(r) => r in s.runs && s.runs[r].pc.OffRegistry? && s.runs[r].exited
    case HandOff(r) => r in s.runs && s.runs[r].pc.OffRegistry?
    case StartReaper(r, _) => r in s.runs && s.runs[r].pc.HandingOff?
    case ReaperReap(r) => r in s.runs && s.runs[r].pc.Lingering? && s.runs[r].exited
    case Uncount(r) => r in s.runs && (s.runs[r].pc.ReapedStuck? || s.runs[r].pc.Orphaned?)
    case DropPermit(r) => r in s.runs && s.runs[r].pc.Leaving?
    case Shutdown(k) => k !in s.killers
    case ShutdownReturn(k, drained) =>
      k in s.killers && s.killers[k].Waiting? && (drained ==> s.registry.spawning == 0)
  }

  function SetRun(s: System, r: RunId, run: Run): System { s.(runs := s.runs[r := run]) }
  function SetPc(s: System, r: RunId, pc: Pc): System
    requires r in s.runs
  {
    SetRun(s, r, s.runs[r].(pc := pc))
  }

  /** Send these signals: whoever owns a pid now is hit. */
  function SignalAll(s: System, signals: set<Signal>): System {
    s.(runs := Signalled(s.runs, signals),
       strays := s.strays + set x | x in signals && PidFree(s, x.pid) :: x.pid)
  }

  function Apply(s: System, step: Step): System
    requires Enabled(s, step)
  {
    match step
    case Admit(r) =>
      SetRun(s, r, Run(Admitted, 2, false, false, false, false, {}, false)).(budget := WithPermit(s.budget))
    case BeginSpawn(r) =>
      if s.registry.closed then SetPc(s, r, Leaving)
      else SetPc(s, r, Ticketed).(registry := WithTicket(s.registry))
    case GiveUpTicket(r) => SetPc(s, r, Leaving).(registry := WithoutTicket(s.registry))
    case Spawn(r, pid, guard) =>
      SetRun(s, r, s.runs[r].(pc := Spawned, pid := pid, guard := guard, spawned := true))
    case Register(r) =>
      var run := s.runs[r];
      if s.registry.closed then
        SetPc(SignalAll(s, KillSignals(run.pid, run.guard)), r, Live).(registry := WithoutTicket(s.registry))
      else
        SetRun(s, r, run.(pc := Live, registered := true))
        .(registry := WithGroup(WithoutTicket(s.registry), run.pid, run.guard))
    case Exit(r) => SetRun(s, r, s.runs[r].(exited := true))
    case EndWait(r, exitSeen) => SetPc(s, r, Ended(exitSeen))
    case Kill(r) =>
      // A launch guard that exited by itself is not signalled.
      if s.runs[r].guard && s.runs[r].pc.exitSeen then SetPc(s, r, Killed)
      else SetPc(SignalAll(s, KillSignals(s.runs[r].pid, s.runs[r].guard)), r, Killed)
    case Unregister(r) => SetPc(s, r, OffRegistry).(registry := WithoutGroup(s.registry, s.runs[r].pid))
    case Reap(r) => SetRun(s, r, s.runs[r].(pc := Leaving, reaped := true))
    case HandOff(r) => SetPc(s, r, HandingOff).(budget := WithStuck(s.budget))
    case StartReaper(r, started) =>
      if started then SetPc(s, r, Lingering)
      // The closure, and the permit in it, is dropped before `stuck` goes down.
      else SetPc(s, r, Orphaned).(budget := WithoutPermit(s.budget))
    case ReaperReap(r) => SetRun(s, r, s.runs[r].(pc := ReapedStuck, reaped := true))
    case Uncount(r) =>
      SetPc(s, r, if s.runs[r].pc.Orphaned? then Abandoned else Leaving).(budget := WithoutStuck(s.budget))
    case DropPermit(r) => SetPc(s, r, Done).(budget := WithoutPermit(s.budget))
    case Shutdown(k) =>
      SignalAll(s, KillAllSignals(s.registry.groups)).(registry := Closed(s.registry), killers := s.killers[k := Waiting])
    case ShutdownReturn(k, drained) => s.(killers := s.killers[k := if drained then Drained else TimedOut])
  }

  const Initial: System := System(BudgetState(0, 0), RegistryState(false, map[], 0), map[], map[], {})

  predicate Next(s: System, t: System, step: Step) { Enabled(s, step) && t == Apply(s, step) }

  /** `b` is a run of the protocol that takes `steps`. */
  ghost predicate Behaviour(b: seq<System>, steps: seq<Step>) {
    && |b| == |steps| + 1
    && b[0] == Initial
    && forall i {:trigger steps[i]} :: 0 <= i < |steps| ==> Next(b[i], b[i + 1], steps[i])
  }

  // ------------------------------------------------------------- invariant

  /** The counters mean what they say, and the permits without a thread stay few. */
  ghost predicate Counted(s: System) {
    && s.budget.held == Count(s.runs, HoldsPermit)
    && s.budget.stuck == Count(s.runs, CountsStuck)
    && s.registry.spawning == Count(s.runs, HoldsTicket)
    && s.budget.held <= MAX_RUNS
    && s.budget.held + Count(s.runs, CountsOrphaned) <= MAX_RUNS + LINGERING_MAX - 1
  }

  /** The run has passed its own kill. */
  predicate PastKill(run: Run) { run.spawned && !run.pc.Spawned? && !run.pc.Live? && !run.pc.Ended? }

  /** What the position of one run says about its child. */
  predicate RunOk(run: Run, closed: bool) {
    && (run.pc.Admitted? || run.pc.Ticketed? ==> !run.spawned)
    && (!run.spawned ==> run.pc.Admitted? || run.pc.Ticketed? || run.pc.Leaving? || run.pc.Done?)
    && (run.reaped ==> run.pc.ReapedStuck? || run.pc.Leaving? || run.pc.Done?)
    && (run.pc.ReapedStuck? ==> run.reaped)
    && (run.spawned && (run.pc.Leaving? || run.pc.Done?) ==> run.reaped)
    && (run.pc.Ended? && run.pc.exitSeen ==> run.exited)
    && (run.spawned && !run.pc.Spawned? && (closed || !Tracked(run) || run.pc.Killed?) ==> Settled(run))
    && (run.spawned && !run.pc.Spawned? && !run.registered ==> closed)
    && (run.registered ==> run.spawned && !run.pc.Spawned?)
    && (PastKill(run) && !run.guard ==> ToldToEnd(run))
  }

  ghost predicate RunsOk(s: System) {
    forall r :: r in s.runs ==> RunOk(s.runs[r], s.registry.closed)
  }

  predicate Clash(a: Run, b: Run) { Unreaped(a) && Unreaped(b) && a.pid == b.pid }

  /** No two unreaped children share a pid. */
  ghost predicate PidsDistinct(s: System) {
    forall q, r :: q in s.runs && r in s.runs && Clash(s.runs[q], s.runs[r]) ==> q == r
  }

  /** `pid` is the pid of a registered run that has not unregistered, a launch guard or not. */
  ghost predicate NamesTracked(s: System, pid: Pid) {
    exists r :: r in s.runs && Tracked(s.runs[r]) && s.runs[r].pid == pid
  }

  predicate Listed(groups: map<Pid, bool>, run: Run) { run.pid in groups && groups[run.pid] == run.guard }

  /** The registry lists exactly the tracked runs until it is closed, then none. */
  ghost predicate RegistryOk(s: System) {
    && (forall pid :: pid in s.registry.groups ==> NamesTracked(s, pid))
    && (!s.registry.closed ==> forall r :: r in s.runs && Tracked(s.runs[r]) ==> Listed(s.registry.groups, s.runs[r]))
    && (s.registry.closed ==> s.registry.groups == map[])
  }

  ghost predicate KillersOk(s: System) {
    && (s.killers != map[] ==> s.registry.closed)
    && (forall k :: k in s.killers && s.killers[k].Drained? ==> s.registry.spawning == 0)
  }

  ghost predicate Inv(s: System) {
    Counted(s) && RunsOk(s) && PidsDistinct(s) && RegistryOk(s) && KillersOk(s) && s.strays == {}
  }

  /** A run that holds something is counted, so no counter is at zero when it lets go. */
  predicate Slots(s: System, r: RunId) {
    r in s.runs ==>
      && (HoldsPermit(s.runs[r].pc) ==> s.budget.held > 0)
      && (CountsStuck(s.runs[r].pc) ==> s.budget.stuck > 0)
      && (HoldsTicket(s.runs[r].pc) ==> s.registry.spawning > 0)
  }

  lemma NothingSaturates(s: System, r: RunId)
    requires Counted(s)
    ensures Slots(s, r)
  {
    WhereSplit(s.runs, r, HoldsPermit);
    WhereSplit(s.runs, r, CountsStuck);
    WhereSplit(s.runs, r, HoldsTicket);
  }

  /** The budget moved by what run `r` took and gave back. */
  predicate BudgetBalanced(s: System, t: System, r: RunId)
    requires r in t.runs
  {
    && t.budget.held == s.budget.held - Bit(r in s.runs && HoldsPermit(s.runs[r].pc)) + Bit(HoldsPermit(t.runs[r].pc))
    && t.budget.stuck == s.budget.stuck - Bit(r in s.runs && CountsStuck(s.runs[r].pc)) + Bit(CountsStuck(t.runs[r].pc))
  }

  predicate TicketsBalanced(s: System, t: System, r: RunId)
    requires r in t.runs
  {
    t.registry.spawning == s.registry.spawning - Bit(r in s.runs && HoldsTicket(s.runs[r].pc)) + Bit(HoldsTicket(t.runs[r].pc))
  }

  /** Permits come from admission, and a run without a reaper thread gave its own back. */
  predicate PermitsFlow(s: System, t: System, r: RunId)
    requires r in t.runs
  {
    && (r !in s.runs ==> Admits(s.budget) && !CountsOrphaned(t.runs[r].pc))
    && (r in s.runs && !CountsOrphaned(s.runs[r].pc) && CountsOrphaned(t.runs[r].pc) ==>
          HoldsPermit(s.runs[r].pc) && !HoldsPermit(t.runs[r].pc))
    && (r in s.runs && !HoldsPermit(s.runs[r].pc) ==> !HoldsPermit(t.runs[r].pc))
  }

  lemma StepBalancesBudget(s: System, step: Step)
    requires !step.Shutdown? && !step.ShutdownReturn? && Enabled(s, step) && Slots(s, step.r)
    ensures BudgetBalanced(s, Apply(s, step), step.r)
  {
    if TouchesBudget(step) { BudgetStepBalances(s, step); } else { QuietStepBalances(s, step); }
  }

  predicate TouchesBudget(step: Step) {
    step.Admit? || step.HandOff? || step.StartReaper? || step.Uncount? || step.DropPermit?
  }

  lemma BudgetStepBalances(s: System, step: Step)
    requires TouchesBudget(step) && Enabled(s, step) && Slots(s, step.r)
    ensures BudgetBalanced(s, Apply(s, step), step.r)
  {
  }

  lemma QuietStepBalances(s: System, step: Step)
    requires !step.Shutdown? && !step.ShutdownReturn? && !TouchesBudget(step) && Enabled(s, step)
    ensures BudgetBalanced(s, Apply(s, step), step.r)
  {
  }

  lemma StepBalancesTickets(s: System, step: Step)
    requires !step.Shutdown? && !step.ShutdownReturn? && Enabled(s, step) && Slots(s, step.r)
    ensures TicketsBalanced(s, Apply(s, step), step.r)
    ensures PermitsFlow(s, Apply(s, step), step.r)
  {
  }

  /** Balanced counters stay exact, and within their bounds. */
  lemma BalanceCounts(s: System, t: System, r: RunId, base: map<RunId, Run>)
    requires Counted(s) && r in t.runs && BudgetBalanced(s, t, r) && TicketsBalanced(s, t, r) && PermitsFlow(s, t, r)
    requires base == s.runs || exists signals :: base == SignalAll(s, signals).runs
    requires t.runs == base[r := t.runs[r]]
    ensures Counted(t)
  {
    if base != s.runs {
      var signals :| base == SignalAll(s, signals).runs;
      CountSignals(s, signals);
    }
    assert r in base <==> r in s.runs;
    assert r in base ==> base[r].pc == s.runs[r].pc;
    CountMoves(base, r, t.runs[r]);
    OrphansAreStuck(s.runs);
  }

  lemma CountsFollow(s: System, step: Step)
    requires Counted(s) && Enabled(s, step)
    ensures Counted(Apply(s, step))
  {
    var t := Apply(s, step);
    if step.Shutdown? {
      CountSignals(s, KillAllSignals(s.registry.groups));
    } else if !step.ShutdownReturn? {
      var r := step.r;
      NothingSaturates(s, r);
      StepBalancesBudget(s, step);
      StepBalancesTickets(s, step);
      if Signals(s, step) {
        BalanceCounts(s, t, r, SignalAll(s, KillSignals(s.runs[r].pid, s.runs[r].guard)).runs);
      } else {
        BalanceCounts(s, t, r, s.runs);
      }
    }
  }

  /** The steps in which a run's own pid is signalled. */
  predicate Signals(s: System, step: Step)
    requires Enabled(s, step)
  {
    || (step.Register? && s.registry.closed)
    || (step.Kill? && !(s.runs[step.r].guard && s.runs[step.r].pc.exitSeen))
  }

  lemma CountSignals(s: System, signals: set<Signal>)
    ensures var t := SignalAll(s, signals);
            && Count(t.runs, HoldsPermit) == Count(s.runs, HoldsPermit)
            && Count(t.runs, HoldsTicket) == Count(s.runs, HoldsTicket)
            && Count(t.runs, CountsStuck) == Count(s.runs, CountsStuck)
            && Count(t.runs, CountsOrphaned) == Count(s.runs, CountsOrphaned)
  {
    SignalsMoveNobody(s.runs, signals, HoldsPermit);
    SignalsMoveNobody(s.runs, signals, HoldsTicket);
    SignalsMoveNobody(s.runs, signals, CountsStuck);
    SignalsMoveNobody(s.runs, signals, CountsOrphaned);
  }

  lemma CountMoves(runs: map<RunId, Run>, r: RunId, run: Run)
    ensures var after := runs[r := run];
            && Count(after, HoldsPermit) == Count(runs, HoldsPermit) - Bit(r in runs && HoldsPermit(runs[r].pc)) + Bit(HoldsPermit(run.pc))
            && Count(after, HoldsTicket) == Count(runs, HoldsTicket) - Bit(r in runs && HoldsTicket(runs[r].pc)) + Bit(HoldsTicket(run.pc))
            && Count(after, CountsStuck) == Count(runs, CountsStuck) - Bit(r in runs && CountsStuck(runs[r].pc)) + Bit(CountsStuck(run.pc))
            && Count(after, CountsOrphaned) == Count(runs, CountsOrphaned) - Bit(r in runs && CountsOrphaned(runs[r].pc)) + Bit(CountsOrphaned(run.pc))
  {
    CountMove(runs, r, run, HoldsPermit);
    CountMove(runs, r, run, HoldsTicket);
    CountMove(runs, r, run, CountsStuck);
    CountMove(runs, r, run, CountsOrphaned);
  }

  lemma OrphansAreStuck(runs: map<RunId, Run>)
    ensures Count(runs, CountsOrphaned) <= Count(runs, CountsStuck)
  {
    CountCovered(runs, CountsOrphaned, CountsStuck, pc => false);
    assert Where(runs, pc => false) == {};
  }

  // ------------------------------------------------- preserving the invariant

  /** No run but `r` changes, except that it may be signalled. */
  predicate OthersKept(s: System, t: System, r: RunId) {
    && r in t.runs
    && t.runs.Keys == s.runs.Keys + {r}
    && forall q :: q in s.runs && q != r ==>
         t.runs[q] == s.runs[q].(got := t.runs[q].got) && s.runs[q].got <= t.runs[q].got
  }

  lemma StepKeepsOthers(s: System, step: Step)
    requires !step.Shutdown? && !step.ShutdownReturn? && Enabled(s, step)
    ensures OthersKept(s, Apply(s, step), step.r)
    ensures Apply(s, step).registry.closed == s.registry.closed
    ensures Apply(s, step).killers == s.killers
  {
    if Signals(s, step) {
      SignalKeepsOthers(s, KillSignals(s.runs[step.r].pid, s.runs[step.r].guard));
    } else {
      assert Apply(s, step).runs == s.runs[step.r := Apply(s, step).runs[step.r]];
    }
  }

  lemma SignalKeepsOthers(s: System, signals: set<Signal>)
    ensures var t := SignalAll(s, signals);
            && t.runs.Keys == s.runs.Keys
            && forall q :: q in s.runs ==> t.runs[q] == s.runs[q].(got := t.runs[q].got) && s.runs[q].got <= t.runs[q].got
  {
  }

  lemma StepKeepsRunsOk(s: System, step: Step)
    requires RunsOk(s) && RegistryOk(s) && Enabled(s, step)
    ensures RunsOk(Apply(s, step))
  {
    var t := Apply(s, step);
    if step.Shutdown? {
      ShutdownKeepsRunsOk(s, KillAllSignals(s.registry.groups));
    } else if !step.ShutdownReturn? {
      StepKeepsOthers(s, step);
      StepKeepsOwnRun(s, step);
      OthersStayOk(s, t, step.r);
    }
  }

  lemma OthersStayOk(s: System, t: System, r: RunId)
    requires RunsOk(s) && OthersKept(s, t, r) && t.registry.closed == s.registry.closed
    ensures forall q :: q in t.runs && q != r ==> RunOk(t.runs[q], t.registry.closed)
  {
    forall q | q in t.runs && q != r ensures RunOk(t.runs[q], t.registry.closed) {
      assert RunOk(s.runs[q], s.registry.closed);
    }
  }

  lemma ShutdownKeepsRunsOk(s: System, signals: set<Signal>)
    requires RunsOk(s) && RegistryOk(s) && signals == KillAllSignals(s.registry.groups)
    ensures forall q :: q in s.runs ==> RunOk(SignalAll(s, signals).runs[q], true)
  {
    forall q | q in s.runs ensures RunOk(SignalAll(s, signals).runs[q], true) {
      assert RunOk(s.runs[q], s.registry.closed);
      if !s.registry.closed && Tracked(s.runs[q]) { KilledWithAll(s, q); }
    }
  }

  /** A listed run gets the signals of its kill when all are killed. */
  lemma KilledWithAll(s: System, q: RunId)
    requires q in s.runs && Listed(s.registry.groups, s.runs[q]) && Unreaped(s.runs[q])
    ensures ToldToEnd(SignalAll(s, KillAllSignals(s.registry.groups)).runs[q])
  {
    KillsThese({}, s.registry.groups);
  }

  lemma StepKeepsOwnRun(s: System, step: Step)
    requires Enabled(s, step) && !step.Shutdown? && !step.ShutdownReturn?
    requires step.r in s.runs ==> RunOk(s.runs[step.r], s.registry.closed)
    ensures RunOk(Apply(s, step).runs[step.r], s.registry.closed)
  {
    if Signals(s, step) { SignalledRunOk(s, step); }
  }

  /** The run that is signalled gets the signals of its kill, and only moves on. */
  lemma SignalledRun(s: System, step: Step, run: Run)
    requires Enabled(s, step) && Signals(s, step) && Unreaped(s.runs[step.r]) && run == Apply(s, step).runs[step.r]
    ensures ToldToEnd(run) && run == s.runs[step.r].(pc := run.pc, got := run.got)
    ensures run.pc == if step.Kill? then Killed else Live
    ensures Apply(s, step).budget == s.budget
  {
  }

  lemma SignalledRunOk(s: System, step: Step)
    requires Enabled(s, step) && Signals(s, step) && RunOk(s.runs[step.r], s.registry.closed)
    ensures RunOk(Apply(s, step).runs[step.r], s.registry.closed)
  {
    SignalledRun(s, step, Apply(s, step).runs[step.r]);
  }

  lemma StepKeepsPids(s: System, step: Step)
    requires RunsOk(s) && PidsDistinct(s) && Enabled(s, step)
    ensures PidsDistinct(Apply(s, step))
  {
    var t := Apply(s, step);
    if !step.Shutdown? && !step.ShutdownReturn? {
      StepKeepsOthers(s, step);
      OwnPid(s, step);
      MovedPids(s, t, step.r);
    } else {
      forall p, q | p in t.runs && q in t.runs && Clash(t.runs[p], t.runs[q]) ensures p == q {
        assert Clash(s.runs[p], s.runs[q]);
      }
    }
  }

  /** The moved run keeps its pid, or has one no unreaped child had. */
  predicate OwnPidOk(s: System, t: System, r: RunId)
    requires r in t.runs
  {
    Unreaped(t.runs[r]) ==>
      || PidFree(s, t.runs[r].pid)
      || (r in s.runs && Unreaped(s.runs[r]) && s.runs[r].pid == t.runs[r].pid)
  }

  lemma MovedPids(s: System, t: System, r: RunId)
    requires PidsDistinct(s) && OthersKept(s, t, r) && OwnPidOk(s, t, r)
    ensures PidsDistinct(t)
  {
    forall p, q | p in t.runs && q in t.runs && Clash(t.runs[p], t.runs[q]) ensures p == q {
      if p != r && q != r {
        assert Clash(s.runs[p], s.runs[q]);
      }
    }
  }

  lemma OwnPid(s: System, step: Step)
    requires Enabled(s, step) && !step.Shutdown? && !step.ShutdownReturn?
    requires step.r in s.runs ==> RunOk(s.runs[step.r], s.registry.closed)
    ensures OwnPidOk(s, Apply(s, step), step.r)
  {
  }

  /** Whoever the registry names owns its pid and nobody else does. */
  lemma TrackedOwns(s: System, pid: Pid)
    requires RunsOk(s) && NamesTracked(s, pid)
    ensures !PidFree(s, pid)
  {
    var r :| r in s.runs && Tracked(s.runs[r]) && s.runs[r].pid == pid;
    assert RunOk(s.runs[r], s.registry.closed);
    assert Unreaped(s.runs[r]);
  }

  lemma NoStrays(s: System, signals: set<Signal>)
    requires s.strays == {} && forall x :: x in signals ==> !PidFree(s, x.pid)
    ensures SignalAll(s, signals).strays == {}
  {
  }

  lemma StepKeepsStrays(s: System, step: Step)
    requires RunsOk(s) && RegistryOk(s) && s.strays == {} && Enabled(s, step)
    ensures Apply(s, step).strays == {}
  {
    if step.Shutdown? {
      forall x | x in KillAllSignals(s.registry.groups) ensures !PidFree(s, x.pid) { TrackedOwns(s, x.pid); }
      NoStrays(s, KillAllSignals(s.registry.groups));
    } else if Signals(s, step) {
      assert RunOk(s.runs[step.r], s.registry.closed) && Unreaped(s.runs[step.r]);
      NoStrays(s, KillSignals(s.runs[step.r].pid, s.runs[step.r].guard));
    }
  }

  /** A run's step leaves the shutdowns alone, and a closed registry with no tickets stays so. */
  lemma StepLeavesKillers(s: System, step: Step)
    requires Enabled(s, step) && !step.Shutdown? && !step.ShutdownReturn? && Slots(s, step.r)
    ensures Apply(s, step).killers == s.killers
    ensures s.registry.closed ==> Apply(s, step).registry.closed
    ensures s.registry.closed && s.registry.spawning == 0 ==> Apply(s, step).registry.spawning == 0
  {
  }

  lemma StepKeepsKillers(s: System, step: Step)
    requires KillersOk(s) && Counted(s) && Enabled(s, step)
    ensures KillersOk(Apply(s, step))
  {
    if !step.Shutdown? && !step.ShutdownReturn? {
      NothingSaturates(s, step.r);
      StepLeavesKillers(s, step);
    }
  }

  /** What a step does to the registry's entries: nothing, record its run, or forget it. */
  predicate GroupsMove(s: System, t: System, r: RunId)
    requires r in t.runs
  {
    var wasTracked := r in s.runs && Tracked(s.runs[r]);
    || (&& t.registry.groups == s.registry.groups
        && wasTracked == Tracked(t.runs[r])
        && (wasTracked ==> s.runs[r].pid == t.runs[r].pid && s.runs[r].guard == t.runs[r].guard))
    || (&& !s.registry.closed && r in s.runs && Unreaped(s.runs[r]) && !wasTracked && Tracked(t.runs[r])
        && s.runs[r].pid == t.runs[r].pid
        && t.registry.groups == s.registry.groups[t.runs[r].pid := t.runs[r].guard])
    || (&& r in s.runs && Unreaped(s.runs[r]) && !Tracked(t.runs[r])
        && t.registry.groups == s.registry.groups - {s.runs[r].pid})
  }

  lemma StepMovesGroups(s: System, step: Step)
    requires Enabled(s, step) && !step.Shutdown? && !step.ShutdownReturn?
    requires step.r in s.runs ==> RunOk(s.runs[step.r], s.registry.closed)
    ensures GroupsMove(s, Apply(s, step), step.r)
  {
  }

  lemma MovedGroupsNameTracked(s: System, t: System, r: RunId, pid: Pid)
    requires RunsOk(s) && RegistryOk(s) && OthersKept(s, t, r) && GroupsMove(s, t, r)
    requires pid in t.registry.groups
    ensures NamesTracked(t, pid)
  {
    if pid in s.registry.groups {
      var q :| q in s.runs && Tracked(s.runs[q]) && s.runs[q].pid == pid;
      assert q in t.runs && Tracked(t.runs[q]) && t.runs[q].pid == pid;
    } else {
      assert Tracked(t.runs[r]) && t.runs[r].pid == pid;
    }
  }

  lemma MovedTrackedAreGrouped(s: System, t: System, r: RunId, q: RunId)
    requires RunsOk(s) && RegistryOk(s) && PidsDistinct(s) && OthersKept(s, t, r) && GroupsMove(s, t, r)
    requires !s.registry.closed && q in t.runs && Tracked(t.runs[q])
    ensures Listed(t.registry.groups, t.runs[q])
  {
    if q != r {
      assert RunOk(s.runs[q], s.registry.closed) && Tracked(s.runs[q]) && s.runs[q].pid == t.runs[q].pid;
      assert r in s.runs && Unreaped(s.runs[r]) ==> !Clash(s.runs[q], s.runs[r]);
    }
  }

  lemma StepKeepsRegistry(s: System, step: Step)
    requires RunsOk(s) && PidsDistinct(s) && RegistryOk(s) && Enabled(s, step)
    ensures RegistryOk(Apply(s, step))
  {
    var t := Apply(s, step);
    if step.ShutdownReturn? {
      assert forall pid :: NamesTracked(s, pid) ==> NamesTracked(t, pid);
    } else if !step.Shutdown? {
      StepKeepsOthers(s, step);
      StepMovesGroups(s, step);
      forall pid | pid in t.registry.groups ensures NamesTracked(t, pid) {
        MovedGroupsNameTracked(s, t, step.r, pid);
      }
      forall q | !t.registry.closed && q in t.runs && Tracked(t.runs[q]) ensures Listed(t.registry.groups, t.runs[q]) {
        MovedTrackedAreGrouped(s, t, step.r, q);
      }
    }
  }

  /** Every step keeps the invariant. */
  lemma StepKeepsInv(s: System, step: Step)
    requires Inv(s) && Enabled(s, step)
    ensures Inv(Apply(s, step))
  {
    CountsFollow(s, step);
    StepKeepsRunsOk(s, step);
    StepKeepsPids(s, step);
    StepKeepsRegistry(s, step);
    StepKeepsKillers(s, step);
    StepKeepsStrays(s, step);
  }

  lemma {:induction false} Reachable(b: seq<System>, steps: seq<Step>, i: nat)
    requires Behaviour(b, steps) && i < |b|
    ensures Inv(b[i])
  {
    if i > 0 {
      Reachable(b, steps, i - 1);
      assert Next(b[i - 1], b[i], steps[i - 1]);
      StepKeepsInv(b[i - 1], steps[i - 1]);
    }
  }

  // ------------------------------------------------------------ main results

  function SpawnedRuns(s: System): set<RunId> { set r | r in s.runs && s.runs[r].spawned }

  /** The registry is closed and nobody is between the shutdown check and registration. */
  predicate Quiesced(s: System) { s.registry.closed && s.registry.spawning == 0 }

  lemma NobodySpawning(s: System)
    requires Counted(s) && s.registry.spawning == 0
    ensures forall r :: r in s.runs ==> !HoldsTicket(s.runs[r].pc)
  {
    forall r | r in s.runs ensures !HoldsTicket(s.runs[r].pc) { NothingSaturates(s, r); }
  }

  /** The run a step moves is spawned only if it held a ticket. */
  lemma SpawnNeedsTicket(s: System, step: Step)
    requires Enabled(s, step) && !step.Shutdown? && !step.ShutdownReturn?
    requires step.r in s.runs ==> !HoldsTicket(s.runs[step.r].pc)
    ensures step.r in Apply(s, step).runs
    ensures Apply(s, step).runs[step.r].spawned == (step.r in s.runs && s.runs[step.r].spawned)
  {
    if step.Kill? {
      assert Apply(s, step).runs[step.r].pc == Killed;
    } else if step.r in s.runs {
      assert Apply(s, step).runs == s.runs[step.r := Apply(s, step).runs[step.r]];
    }
  }

  lemma QuiescedStays(s: System, step: Step)
    requires Enabled(s, step) && !step.Shutdown? && !step.ShutdownReturn?
    requires (step.r in s.runs ==> !HoldsTicket(s.runs[step.r].pc)) && Quiesced(s)
    ensures Quiesced(Apply(s, step))
  {
  }

  lemma ShutdownSpawnsNothing(s: System, step: Step)
    requires Enabled(s, step) && (step.Shutdown? || step.ShutdownReturn?)
    ensures SpawnedRuns(Apply(s, step)) == SpawnedRuns(s) && (Quiesced(s) ==> Quiesced(Apply(s, step)))
  {
  }

  lemma QuiescedStep(s: System, step: Step)
    requires Quiesced(s) && Enabled(s, step)
    requires forall r :: r in s.runs ==> !HoldsTicket(s.runs[r].pc)
    ensures Quiesced(Apply(s, step))
    ensures SpawnedRuns(Apply(s, step)) == SpawnedRuns(s)
  {
    if step.Shutdown? || step.ShutdownReturn? {
      ShutdownSpawnsNothing(s, step);
    } else {
      QuiescedStays(s, step);
      SpawnNeedsTicket(s, step);
      StepKeepsOthers(s, step);
    }
  }

  lemma CountsReachable(b: seq<System>, steps: seq<Step>, i: nat)
    requires Behaviour(b, steps) && i < |b|
    ensures Counted(b[i])
  {
    Reachable(b, steps, i);
  }

  lemma {:induction false} QuiescedForever(b: seq<System>, steps: seq<Step>, i: nat, j: nat)
    requires Behaviour(b, steps) && i <= j < |b| && Quiesced(b[i])
    ensures Quiesced(b[j]) && SpawnedRuns(b[j]) == SpawnedRuns(b[i])
  {
    if i < j {
      QuiescedForever(b, steps, i, j - 1);
      CountsReachable(b, steps, j - 1);
      assert Next(b[j - 1], b[j], steps[j - 1]);
      NobodySpawning(b[j - 1]);
      QuiescedStep(b[j - 1], steps[j - 1]);
    }
  }

  /**
  Shutdown safety. Once some `kill_all_in` has returned because nothing was
  mid-spawn, every child ever spawned has exited, or was told to end: a launch guard by
  SIGTERM, any other by SIGKILL to its group and to itself. Nothing is spawned from then on.
  */
  lemma ShutdownLeavesNothingRunning(b: seq<System>, steps: seq<Step>, i: nat, j: nat, k: KillerId)
    requires Behaviour(b, steps) && i <= j < |b|
    requires k in b[i].killers && b[i].killers[k].Drained?
    ensures SpawnedRuns(b[j]) == SpawnedRuns(b[i])
    ensures forall r :: r in SpawnedRuns(b[j]) ==>
              var run := b[j].runs[r];
              || run.exited
              || (run.guard && TermGuard(run.pid) in run.got)
              || (!run.guard && KillGroup(run.pid) in run.got && KillChild(run.pid) in run.got)
  {
    Reachable(b, steps, i);
    QuiescedForever(b, steps, i, j);
    Reachable(b, steps, j);
    NobodySpawning(b[j]);
    forall r | r in SpawnedRuns(b[j]) ensures Settled(b[j].runs[r]) {
      assert RunOk(b[j].runs[r], b[j].registry.closed);
    }
  }

  /**
  No group is left behind: before a child is reaped, handed to a reaper or given up, its whole
  group was sent SIGKILL, also when the child itself had exited; a launch guard, which ends
  its own session, has exited or was sent SIGTERM.
  */
  lemma GroupKilledFirst(b: seq<System>, steps: seq<Step>, i: nat, r: RunId)
    requires Behaviour(b, steps) && i < |b| && r in b[i].runs && b[i].runs[r].spawned
    requires b[i].runs[r].reaped || CountsStuck(b[i].runs[r].pc) || b[i].runs[r].pc.Abandoned?
    ensures var run := b[i].runs[r];
            if run.guard then run.exited || TermGuard(run.pid) in run.got
            else KillGroup(run.pid) in run.got && KillChild(run.pid) in run.got
  {
    Reachable(b, steps, i);
    assert RunOk(b[i].runs[r], b[i].registry.closed);
  }

  /**
  Pid safety. The registry only names pids of children that are not reaped, a
  registration never overwrites another run's entry, and neither the registry nor a
  run's own kill ever signalled a pid that was not an unreaped child's.
  */
  lemma PidsAreOurs(b: seq<System>, steps: seq<Step>, i: nat)
    requires Behaviour(b, steps) && i < |b|
    ensures b[i].strays == {}
    ensures forall pid :: pid in b[i].registry.groups ==>
              exists r :: r in b[i].runs && Unreaped(b[i].runs[r]) && b[i].runs[r].registered && b[i].runs[r].pid == pid
    ensures i < |steps| && steps[i].Register? ==>
              steps[i].r in b[i].runs && b[i].runs[steps[i].r].pid !in b[i].registry.groups
  {
    Reachable(b, steps, i);
    var s := b[i];
    forall pid | pid in s.registry.groups
      ensures exists r :: r in s.runs && Unreaped(s.runs[r]) && s.runs[r].registered && s.runs[r].pid == pid
    {
      var r :| r in s.runs && Tracked(s.runs[r]) && s.runs[r].pid == pid;
      assert RunOk(s.runs[r], s.registry.closed) && Unreaped(s.runs[r]);
    }
    if i < |steps| && steps[i].Register? {
      assert Next(b[i], b[i + 1], steps[i]);
      var r := steps[i].r;
      assert RunOk(s.runs[r], s.registry.closed) && Unreaped(s.runs[r]);
      forall q | q in s.runs && Tracked(s.runs[q]) ensures s.runs[q].pid != s.runs[r].pid {
        assert RunOk(s.runs[q], s.registry.closed) && !Clash(s.runs[q], s.runs[r]);
      }
    }
  }

  /**
  Budget accounting. The counters are the numbers of outstanding permits, stuck
  children and unredeemed tickets; the permits never exceed `MAX_RUNS`; and no
  saturating subtraction is ever applied to zero.
  */
  lemma BudgetIsExact(b: seq<System>, steps: seq<Step>, i: nat)
    requires Behaviour(b, steps) && i < |b|
    ensures b[i].budget.held == |Where(b[i].runs, HoldsPermit)| <= MAX_RUNS
    ensures b[i].budget.stuck == |Where(b[i].runs, CountsStuck)|
    ensures b[i].registry.spawning == |Where(b[i].runs, HoldsTicket)|
    ensures b[i].budget.stuck <= MAX_RUNS + LINGERING_MAX - 1
    ensures forall r :: r in b[i].runs ==> Slots(b[i], r)
  {
    Reachable(b, steps, i);
    forall r | r in b[i].runs ensures Slots(b[i], r) { NothingSaturates(b[i], r); }
    StuckBound(b[i].runs);
  }

  /** A run is admitted exactly while fewer than 64 hold a permit and fewer than 8 are stuck. */
  lemma AdmittedIff(b: seq<System>, steps: seq<Step>, i: nat, r: RunId)
    requires Behaviour(b, steps) && i < |b| && r !in b[i].runs
    ensures Enabled(b[i], Admit(r)) <==> |Where(b[i].runs, HoldsPermit)| < 64 && |Where(b[i].runs, CountsStuck)| < 8
  {
    BudgetIsExact(b, steps, i);
  }

  /** A stuck run holds a permit or has no reaper thread. */
  lemma StuckBound(runs: map<RunId, Run>)
    ensures Count(runs, CountsStuck) <= Count(runs, HoldsPermit) + Count(runs, CountsOrphaned)
  {
    CountCovered(runs, CountsStuck, HoldsPermit, CountsOrphaned);
  }

  /** Neither finished nor forgotten: in flight, or counted as stuck. */
  predicate Engaged(pc: Pc) { HoldsPermit(pc) || CountsStuck(pc) }
  predicate InFlight(pc: Pc) { HoldsPermit(pc) && !CountsStuck(pc) }

  /** While the stuck children fill the allowance, no run becomes engaged or gets a permit. */
  lemma NobodyJoins(s: System, step: Step)
    requires Enabled(s, step) && s.budget.stuck >= LINGERING_MAX && !step.Shutdown? && !step.ShutdownReturn?
    requires step.r in Apply(s, step).runs
    ensures HoldsPermit(Apply(s, step).runs[step.r].pc) ==> step.r in s.runs && HoldsPermit(s.runs[step.r].pc)
    ensures Engaged(Apply(s, step).runs[step.r].pc) ==> step.r in s.runs && Engaged(s.runs[step.r].pc)
  {
  }

  lemma FullStep(s: System, step: Step)
    requires Enabled(s, step) && s.budget.stuck >= LINGERING_MAX
    ensures Where(Apply(s, step).runs, Engaged) <= Where(s.runs, Engaged)
  {
    if !step.Shutdown? && !step.ShutdownReturn? {
      StepKeepsOthers(s, step);
      NobodyJoins(s, step);
    }
  }

  lemma PermitStep(s: System, step: Step)
    requires Enabled(s, step) && s.budget.stuck >= LINGERING_MAX
    ensures Where(Apply(s, step).runs, HoldsPermit) <= Where(s.runs, HoldsPermit)
  {
    if !step.Shutdown? && !step.ShutdownReturn? {
      StepKeepsOthers(s, step);
      NobodyJoins(s, step);
    }
  }

  lemma {:induction false} FullStretch(b: seq<System>, steps: seq<Step>, i: nat, j: nat)
    requires Behaviour(b, steps) && i <= j < |b|
    requires forall k :: i <= k < j ==> b[k].budget.stuck >= LINGERING_MAX
    ensures Where(b[j].runs, Engaged) <= Where(b[i].runs, Engaged)
  {
    if i < j {
      FullStretch(b, steps, i, j - 1);
      assert Next(b[j - 1], b[j], steps[j - 1]);
      FullStep(b[j - 1], steps[j - 1]);
    }
  }

  /**
  While `LINGERING_MAX` children are stuck nothing is admitted, so the stuck
  count rises above what it was by at most the runs that were in flight.
  */
  lemma StuckCap(b: seq<System>, steps: seq<Step>, i: nat, j: nat)
    requires Behaviour(b, steps) && i <= j < |b|
    requires forall k :: i <= k < j ==> b[k].budget.stuck >= LINGERING_MAX
    ensures Where(b[j].runs, HoldsPermit) <= Where(b[i].runs, HoldsPermit)
    ensures b[j].budget.stuck <= b[i].budget.stuck + |Where(b[i].runs, InFlight)|
    decreases j - i
  {
    Reachable(b, steps, i);
    Reachable(b, steps, j);
    FullStretch(b, steps, i, j);
    StuckWereEngaged(b[i].runs, b[j].runs);
    PermitsOnlyGo(b, steps, i, j);
  }

  /** Runs that are stuck later were in flight or stuck before. */
  lemma StuckWereEngaged(runs: map<RunId, Run>, later: map<RunId, Run>)
    requires Where(later, Engaged) <= Where(runs, Engaged)
    ensures Count(later, CountsStuck) <= Count(runs, CountsStuck) + Count(runs, InFlight)
  {
    var before, now := Where(runs, Engaged), Where(later, CountsStuck);
    assert now <= Where(later, Engaged);
    assert before == now + (before - now);
    CountCovered(runs, Engaged, CountsStuck, InFlight);
  }

  lemma {:induction false} PermitsOnlyGo(b: seq<System>, steps: seq<Step>, i: nat, j: nat)
    requires Behaviour(b, steps) && i <= j < |b|
    requires forall k :: i <= k < j ==> b[k].budget.stuck >= LINGERING_MAX
    ensures Where(b[j].runs, HoldsPermit) <= Where(b[i].runs, HoldsPermit)
  {
    if i < j {
      PermitsOnlyGo(b, steps, i, j - 1);
      assert Next(b[j - 1], b[j], steps[j - 1]);
      PermitStep(b[j - 1], steps[j - 1]);
    }
  }
}
