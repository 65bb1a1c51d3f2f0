/**
One bounded run (`apps/cli/src/bounded_run.rs`): where it stands, what it holds there, its
child process, and how many runs stand where a predicate holds.
*/
module RunState {
  import opened Common

  /** The ids the kernel gives a child: positive, not init, and an `i32`. */
  type Pid = p: int | 1 < p < 0x8000_0000 witness 2
  type RunId = nat
  type KillerId = nat

  /** Where one call of `run_inner` stands. */
  datatype Pc =
    | Admitted      // permit held
    | Ticketed      // permit and spawn ticket held
    | Spawned       // the child exists; not registered yet
    | Live          // past `register`
    | Ended(exitSeen: bool)  // `wait_for_exit` returned
    | Killed        // the run's own kill was sent (or was not needed)
    | OffRegistry   // unregistered
    | HandingOff    // not reaped in time: counted as stuck
    | Lingering     // a reaper thread waits for the child
    | ReapedStuck   // the reaper reaped it; still counted as stuck
    | Orphaned      // no reaper thread: permit released, still counted as stuck
    | Leaving       // only the permit is left to drop
    | Done
    | Abandoned     // no reaper thread, and no longer counted

  predicate HoldsPermit(pc: Pc) { !pc.Orphaned? && !pc.Done? && !pc.Abandoned? }
  predicate HoldsTicket(pc: Pc) { pc.Ticketed? || pc.Spawned? }
  predicate CountsStuck(pc: Pc) { pc.HandingOff? || pc.Lingering? || pc.ReapedStuck? || pc.Orphaned? }
  predicate CountsOrphaned(pc: Pc) { pc.Orphaned? }

  /** What a kill sends: SIGKILL to a group or to one process, or SIGTERM to a launch guard. */
  datatype Signal = KillGroup(pid: Pid) | KillChild(pid: Pid) | TermGuard(pid: Pid)

  /** One call and its child process. `pid` means something once `spawned`; `got` is what was sent to it. */
  datatype Run = Run(pc: Pc, pid: Pid, guard: bool, spawned: bool, registered: bool,
                     exited: bool, got: set<Signal>, reaped: bool)

  /** The process still owns its pid: not reaped, so the kernel cannot reuse it. */
  predicate Unreaped(run: Run) { run.spawned && !run.reaped }

  /** The child was told to end: a launch guard by SIGTERM, any other with its group by SIGKILL. */
  predicate ToldToEnd(run: Run) {
    if run.guard then TermGuard(run.pid) in run.got
    else KillGroup(run.pid) in run.got && KillChild(run.pid) in run.got
  }

  predicate Settled(run: Run) { run.exited || ToldToEnd(run) }

  /** A registered run that has not unregistered. */
  predicate Tracked(run: Run) { run.registered && (run.pc.Live? || run.pc.Ended? || run.pc.Killed?) }

  // ------------------------------------------------------------- counting

  /** The runs that stand where `p` holds. */
  function Where(runs: map<RunId, Run>, p: Pc -> bool): set<RunId> {
    set r | r in runs && p(runs[r].pc)
  }

  function Count(runs: map<RunId, Run>, p: Pc -> bool): nat { |Where(runs, p)| }

  lemma WhereSplit(runs: map<RunId, Run>, r: RunId, p: Pc -> bool)
    ensures Count(runs, p) == Count(runs - {r}, p) + Bit(r in runs && p(runs[r].pc))
  {
    var rest := Where(runs - {r}, p);
    if r in runs && p(runs[r].pc) {
      assert Where(runs, p) == rest + {r};
    } else {
      assert Where(runs, p) == rest;
    }
  }

  /** Moving one run changes each count by that run alone. */
  lemma CountMove(runs: map<RunId, Run>, r: RunId, run: Run, p: Pc -> bool)
    ensures Count(runs[r := run], p) == Count(runs, p) - Bit(r in runs && p(runs[r].pc)) + Bit(p(run.pc))
  {
    WhereSplit(runs, r, p);
    WhereSplit(runs[r := run], r, p);
    assert runs[r := run] - {r} == runs - {r};
  }

  /** Runs counted by `p` are counted by `q` or by `o`. */
  lemma CountCovered(runs: map<RunId, Run>, p: Pc -> bool, q: Pc -> bool, o: Pc -> bool)
    requires forall pc: Pc :: p(pc) ==> q(pc) || o(pc)
    ensures Count(runs, p) <= Count(runs, q) + Count(runs, o)
  {
    var x, a, b := Where(runs, p), Where(runs, q), Where(runs, o);
    assert a + b == x + (a + b - x);
  }

  /** One run after these signals: what names its pid reaches its child while that is not reaped. */
  function Hit(run: Run, signals: set<Signal>): Run {
    if Unreaped(run) then run.(got := run.got + set x | x in signals && x.pid == run.pid) else run
  }

  /** The runs after these signals: whoever owns a pid now is hit. */
  function Signalled(runs: map<RunId, Run>, signals: set<Signal>): map<RunId, Run> {
    map r | r in runs :: Hit(runs[r], signals)
  }

  lemma SignalsMoveNobody(runs: map<RunId, Run>, signals: set<Signal>, p: Pc -> bool)
    ensures Where(Signalled(runs, signals), p) == Where(runs, p)
  {
    forall r | r in runs ensures Signalled(runs, signals)[r].pc == runs[r].pc { }
  }
}
