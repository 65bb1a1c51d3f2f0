/**
The two mutex-guarded objects of bounded runs (`apps/cli/src/bounded_run.rs`, Linux), updated
in place: `Budget` holds the admission permits, `Registry` the processes and spawn tickets.
Each method is one critical section and is specified by a function on values.
*/
module RunRegistry {
  import opened RunState

  const LINGERING_MAX: nat := 8
  const MAX_RUNS: nat := 64

  // ---------------------------------------------------------------- budget

  datatype BudgetState = BudgetState(held: nat, stuck: nat)

  function SaturatingPred(x: nat): nat { if x == 0 then 0 else x - 1 }

  predicate Admits(b: BudgetState) {
    b.stuck < LINGERING_MAX && b.held < MAX_RUNS
  }

  function WithPermit(b: BudgetState): BudgetState { b.(held := b.held + 1) }
  function WithoutPermit(b: BudgetState): BudgetState { b.(held := SaturatingPred(b.held)) }
  function WithStuck(b: BudgetState): BudgetState { b.(stuck := b.stuck + 1) }
  function WithoutStuck(b: BudgetState): BudgetState { b.(stuck := SaturatingPred(b.stuck)) }

  class Budget {
    var held: nat
    var stuck: nat

    function Value(): BudgetState reads this { BudgetState(held, stuck) }

    constructor ()
      ensures Value() == BudgetState(0, 0)
    {
      held, stuck := 0, 0;
    }

    /** `admit_in`: reserve a permit, or refuse. */
    method Admit() returns (permit: bool)
      modifies this
      ensures permit == Admits(old(Value()))
      ensures Value() == if permit then WithPermit(old(Value())) else old(Value())
    {
      if stuck >= LINGERING_MAX || held >= MAX_RUNS {
        return false;
      }
      held := held + 1;
      return true;
    }

    /** Dropping a permit. */
    method Release()
      modifies this
      ensures Value() == WithoutPermit(old(Value()))
    {
      held := SaturatingPred(held);
    }

    method AddStuck()
      modifies this
      ensures Value() == WithStuck(old(Value()))
    {
      stuck := stuck + 1;
    }

    method RemoveStuck()
      modifies this
      ensures Value() == WithoutStuck(old(Value()))
    {
      stuck := SaturatingPred(stuck);
    }
  }

  // -------------------------------------------------------------- registry

  /** `groups` maps each live run's pid to whether it leads a launch guard's session. */
  datatype RegistryState = RegistryState(closed: bool, groups: map<Pid, bool>, spawning: nat)

  function WithTicket(g: RegistryState): RegistryState { g.(spawning := g.spawning + 1) }
  function WithoutTicket(g: RegistryState): RegistryState { g.(spawning := SaturatingPred(g.spawning)) }
  function WithGroup(g: RegistryState, pid: Pid, guard: bool): RegistryState {
    g.(groups := g.groups[pid := guard])
  }
  function WithoutGroup(g: RegistryState, pid: Pid): RegistryState {
    g.(groups := g.groups - {pid})
  }
  function Closed(g: RegistryState): RegistryState { g.(closed := true, groups := map[]) }

  /** A run is killed as its group and the child itself; a launch guard ends its own session. */
  function KillSignals(pid: Pid, guard: bool): set<Signal> {
    if guard then {TermGuard(pid)} else {KillGroup(pid), KillChild(pid)}
  }

  function KillAllSignals(groups: map<Pid, bool>): set<Signal> {
    set pid, x | pid in groups && x in KillSignals(pid, groups[pid]) :: x
  }

  /**
  From `before` to `after` exactly the runs of `groups` are killed: SIGTERM to each launch guard
  among them, SIGKILL to the group and the child of every other, and nothing else to anyone.
  */
  ghost predicate Kills(before: set<Signal>, after: set<Signal>, groups: map<Pid, bool>) {
    forall pid: Pid ::
      && (TermGuard(pid) in after <==> TermGuard(pid) in before || (pid in groups && groups[pid]))
      && (KillGroup(pid) in after <==> KillGroup(pid) in before || (pid in groups && !groups[pid]))
      && (KillChild(pid) in after <==> KillChild(pid) in before || (pid in groups && !groups[pid]))
  }

  lemma KillsThese(before: set<Signal>, groups: map<Pid, bool>)
    ensures Kills(before, before + KillAllSignals(groups), groups)
  {
    forall pid: Pid | pid in groups
      ensures if groups[pid] then TermGuard(pid) in KillAllSignals(groups)
              else KillGroup(pid) in KillAllSignals(groups) && KillChild(pid) in KillAllSignals(groups)
    {
      assert KillSignals(pid, groups[pid]) <= KillAllSignals(groups);
    }
  }

  /** The signals sent through the kernel, in no particular order. */
  class Kernel {
    var signalled: set<Signal>

    constructor ()
      ensures signalled == {}
    {
      signalled := {};
    }

    /** `kill_run` */
    method KillRun(pid: Pid, guard: bool)
      modifies this
      ensures signalled == old(signalled) + KillSignals(pid, guard)
      ensures Kills(old(signalled), signalled, map[pid := guard])
    {
      if guard {
        signalled := signalled + {TermGuard(pid)};
        return;
      }
      signalled := signalled + {KillGroup(pid)};
      signalled := signalled + {KillChild(pid)};
    }
  }

  lemma OneMoreKilled(groups: map<Pid, bool>, left: set<Pid>, pid: Pid)
    requires pid in groups && pid in left
    ensures KillAllSignals(groups - (left - {pid})) == KillAllSignals(groups - left) + KillSignals(pid, groups[pid])
  {
    var more, fewer := groups - (left - {pid}), groups - left;
    forall x ensures x in KillAllSignals(more) <==> x in KillAllSignals(fewer) + KillSignals(pid, groups[pid]) {
      if x in KillAllSignals(more) {
        var p :| p in more && x in KillSignals(p, more[p]);
        assert p != pid ==> p in fewer;
      }
      if x in KillAllSignals(fewer) {
        var p :| p in fewer && x in KillSignals(p, fewer[p]);
        assert p in more;
      }
      assert pid in more && more[pid] == groups[pid];
    }
  }

  class Registry {
    var closed: bool
    var groups: map<Pid, bool>
    var spawning: nat

    function Value(): RegistryState reads this { RegistryState(closed, groups, spawning) }

    constructor ()
      ensures Value() == RegistryState(false, map[], 0)
    {
      closed, groups, spawning := false, map[], 0;
    }

    /** `begin_spawn_in`: the shutdown check, before anything is spawned. */
    method BeginSpawn() returns (ticket: bool)
      modifies this
      ensures ticket == !old(closed)
      ensures Value() == if ticket then WithTicket(old(Value())) else old(Value())
    {
      if closed {
        return false;
      }
      spawning := spawning + 1;
      return true;
    }

    /** `redeem`, and the drop of an unredeemed ticket. */
    method EndTicket()
      modifies this
      ensures Value() == WithoutTicket(old(Value()))
    {
      spawning := SaturatingPred(spawning);
    }

    /** `register_in`: redeem the ticket, then record the run or kill it. */
    method Register(pid: Pid, guard: bool, kernel: Kernel) returns (registered: bool)
      modifies this, kernel
      ensures registered == !old(closed)
      ensures Value() == if registered then WithGroup(WithoutTicket(old(Value())), pid, guard)
                         else WithoutTicket(old(Value()))
      ensures kernel.signalled == old(kernel.signalled) + (if registered then {} else KillSignals(pid, guard))
      ensures Kills(old(kernel.signalled), kernel.signalled, if registered then map[] else map[pid := guard])
    {
      EndTicket();
      if closed {
        kernel.KillRun(pid, guard);
        return false;
      }
      groups := groups[pid := guard];
      return true;
    }

    method Unregister(pid: Pid)
      modifies this
      ensures Value() == WithoutGroup(old(Value()), pid)
    {
      groups := groups - {pid};
    }

    /** The locked half of `kill_all_in`: close, empty the registry, kill every run in it. */
    method CloseAndKill(kernel: Kernel)
      modifies this, kernel
      ensures Value() == Closed(old(Value()))
      ensures kernel.signalled == old(kernel.signalled) + KillAllSignals(old(groups))
      ensures Kills(old(kernel.signalled), kernel.signalled, old(groups))
    {
      closed := true;
      var taken := groups;
      groups := map[];
      var left := taken.Keys;
      while left != {}
        invariant left <= taken.Keys
        invariant Value() == Closed(old(Value()))
        invariant kernel.signalled == old(kernel.signalled) + KillAllSignals(taken - left)
        decreases |left|
      {
        var pid :| pid in left;
        kernel.KillRun(pid, taken[pid]);
        OneMoreKilled(taken, left, pid);
        left := left - {pid};
      }
      assert taken - left == taken;
      KillsThese(old(kernel.signalled), taken);
    }
  }
}
