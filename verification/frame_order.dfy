/**
What the teardown does to the order of command statuses, exactly. Everything on the
wire is in order on every run; a status still deferred is overtaken exactly when a
teardown sends newer ones past it; and a connection that never registered carries a
frame exactly when its teardown sends one.
*/
module FrameOrder {
  import opened Common
  import opened FrameGate

  /** The step is a teardown's emission, and the socket takes some of it. */
  predicate SendsAtClose(step: Step) { step.CloseEmit? && step.n > 0 && step.accepted > 0 }

  predicate Below(ids: seq<nat>, made: nat) { forall p :: 0 <= p < |ids| ==> ids[p] < made }

  /**
  The ids on the wire: those sent on registered connections first, then a teardown's,
  which are newer than every status still deferred.
  */
  predicate Tail(registered: seq<nat>, wire: seq<nat>, deferred: seq<nat>, made: nat) {
    && registered <= wire && Increasing(wire) && Below(wire, made)
    && (forall p, q :: |registered| <= p < |wire| && 0 <= q < |deferred| ==> deferred[q] < wire[p])
  }

  /** Statuses are sent by the teardown of the last session only. */
  ghost predicate LateOk(d: Daemon) {
    && Tail(RegisteredIds(d.out.wire), WireIds(d.out.wire), CommandIds(d.out.deferred), d.made)
    && (d.shutdown ==> d.pc.Teardown? || d.pc.Stopped?)
    && (!d.shutdown ==> WireIds(d.out.wire) == RegisteredIds(d.out.wire))
  }

  lemma TailGrows(registered: seq<nat>, wire: seq<nat>, deferred: seq<nat>, ids: seq<nat>, made: nat, n: nat)
    requires Tail(registered, wire, deferred, made) && NewIds(ids, made, n)
    requires Below(deferred, made)
    ensures Tail(registered, wire + ids, deferred, made + n)
  {
  }

  lemma DeferredAreOld(d: Daemon)
    requires OrderOk(d)
    ensures Below(CommandIds(d.out.deferred), d.made)
  {
    var sent, ids := RegisteredIds(d.out.wire), CommandIds(d.out.deferred);
    forall q | 0 <= q < |ids| ensures ids[q] < d.made {
      assert (sent + ids)[|sent| + q] == ids[q];
    }
  }

  /** What a teardown's emission does to the ids, `k` of its frames being taken. */
  lemma CloseIds(d: Daemon, e: Daemon, step: Step, k: nat, ids: seq<nat>)
    requires PhaseOk(d) && Next(d, e, step) && step.CloseEmit? && k == Min(step.accepted, step.n)
    requires ids == CommandIds(Fresh(d, step.cls, step.n)[..k])
    ensures WireIds(e.out.wire) == WireIds(d.out.wire) + ids
    ensures RegisteredIds(e.out.wire) == RegisteredIds(d.out.wire)
    ensures e.out.deferred == d.out.deferred && e.made == d.made + step.n
    ensures e.pc == d.pc && e.shutdown == (d.shutdown || step.cls == Command) && d.pc.Teardown?
    ensures NewIds(ids, d.made, step.n)
    ensures |ids| == if step.cls == Command then k else 0
  {
    CloseCount(d, step.cls, step.n, k);
    var first := Fresh(d, step.cls, step.n)[..k];
    SendsFirst(d, step.cls, step.n, step.accepted, k);
    WireIdsConcat(d.out.wire, first, d.out.conn, d.out.phase);
    RegisteredIdsConcat(d.out.wire, first, d.out.conn, d.out.phase);
    FreshAreNew(d, step.cls, step.n, k);
  }

  /** How many of a teardown's command statuses go out. */
  lemma CloseCount(d: Daemon, cls: Class, n: nat, k: nat)
    requires k <= n
    ensures |CommandIds(Fresh(d, cls, n)[..k])| == if cls == Command then k else 0
  {
    assert Fresh(d, cls, n)[..k] == Fresh(d, cls, k);
    if cls == Command { FreshIds(d, k); } else { FreshFacts(d, cls, k); }
  }

  lemma CloseKeepsLate(d: Daemon, e: Daemon, step: Step)
    requires Inv(d) && LateOk(d) && Next(d, e, step) && step.CloseEmit?
    ensures LateOk(e)
  {
    var k := Min(step.accepted, step.n);
    var ids := CommandIds(Fresh(d, step.cls, step.n)[..k]);
    CloseIds(d, e, step, k, ids);
    DeferredAreOld(d);
    TailGrows(RegisteredIds(d.out.wire), WireIds(d.out.wire), CommandIds(d.out.deferred), ids, d.made, step.n);
    if step.cls != Command { assert WireIds(d.out.wire) + [] == WireIds(d.out.wire); }
  }

  lemma OrderGivesTail(e: Daemon)
    requires OrderOk(e) && WireIds(e.out.wire) == RegisteredIds(e.out.wire)
    ensures Tail(RegisteredIds(e.out.wire), WireIds(e.out.wire), CommandIds(e.out.deferred), e.made)
  {
    var sent, ids := RegisteredIds(e.out.wire), CommandIds(e.out.deferred);
    assert forall p :: 0 <= p < |sent| ==> (sent + ids)[p] == sent[p];
  }

  /** A shutdown is recorded by a teardown's command statuses and by nothing else. */
  lemma ShutdownStep(d: Daemon, e: Daemon, step: Step)
    requires Next(d, e, step)
    ensures e.shutdown <==> d.shutdown || ClosingCommands(step)
    ensures d.pc.Teardown? || d.pc.Stopped? ==> step.CloseEmit? || step.Leave?
    ensures step.Leave? ==> e.pc.Stopped? || !d.shutdown
  {
  }

  lemma OpenKeepsLate(d: Daemon, e: Daemon, step: Step)
    requires Inv(d) && LateOk(d) && Next(d, e, step) && !step.CloseEmit? && !step.Leave?
    ensures LateOk(e)
  {
    RegisteredStep(d, step);
    StepKeepsInv(d, step);
    ShutdownStep(d, e, step);
    OrderGivesTail(e);
  }

  lemma StepKeepsLate(d: Daemon, e: Daemon, step: Step)
    requires Inv(d) && LateOk(d) && Next(d, e, step)
    ensures LateOk(e)
  {
    if step.CloseEmit? {
      CloseKeepsLate(d, e, step);
    } else if step.Leave? {
      PlainStepFrame(d, step);
      ShutdownStep(d, e, step);
    } else {
      OpenKeepsLate(d, e, step);
    }
  }

  lemma LateAt(b: seq<Daemon>, steps: seq<Step>, i: nat)
    requires Behaviour(b, steps) && i < |steps| && LateOk(b[i])
    ensures LateOk(b[i + 1])
  {
    Reachable(b, steps, i);
    StepKeepsLate(b[i], b[i + 1], steps[i]);
  }

  lemma {:induction false} LateReachable(b: seq<Daemon>, steps: seq<Step>, i: nat)
    requires Behaviour(b, steps) && i < |b|
    ensures LateOk(b[i])
  {
    if i > 0 {
      LateReachable(b, steps, i - 1);
      LateAt(b, steps, i - 1);
    }
  }

  // --------------------------------------------------------------- overtaking

  /** The teardown sends command statuses past older ones that are still deferred. */
  predicate Overtakes(d: Daemon, step: Step) {
    SendsAtClose(step) && step.cls == Command && d.out.deferred != []
  }

  /** Something is still deferred, and a teardown's statuses are on the wire. */
  predicate IsOvertaken(d: Daemon) {
    d.out.deferred != [] && |RegisteredIds(d.out.wire)| < |WireIds(d.out.wire)|
  }

  lemma OvertakenStep(d: Daemon, e: Daemon, step: Step)
    requires Inv(d) && LateOk(d) && Next(d, e, step)
    ensures IsOvertaken(e) <==> IsOvertaken(d) || Overtakes(d, step)
  {
    StepKeepsLate(d, e, step);
    if step.CloseEmit? {
      var k := Min(step.accepted, step.n);
      CloseIds(d, e, step, k, CommandIds(Fresh(d, step.cls, step.n)[..k]));
    } else if step.Leave? {
      PlainStepFrame(d, step);
    } else {
      ShutdownStep(d, e, step);
    }
  }

  /** Some step before `i` let a teardown overtake. */
  predicate OvertookBefore(b: seq<Daemon>, steps: seq<Step>, i: nat)
    requires i < |b| == |steps| + 1
  {
    exists k {:trigger steps[k]} :: 0 <= k < i && Overtakes(b[k], steps[k])
  }

  lemma OvertakenAt(b: seq<Daemon>, steps: seq<Step>, i: nat)
    requires Behaviour(b, steps) && i < |steps|
    ensures IsOvertaken(b[i + 1]) <==> IsOvertaken(b[i]) || Overtakes(b[i], steps[i])
  {
    Reachable(b, steps, i);
    LateReachable(b, steps, i);
    OvertakenStep(b[i], b[i + 1], steps[i]);
  }

  lemma {:induction false} OvertakenSince(b: seq<Daemon>, steps: seq<Step>, i: nat)
    requires Behaviour(b, steps) && i < |b|
    ensures IsOvertaken(b[i]) <==> OvertookBefore(b, steps, i)
  {
    if i > 0 {
      OvertakenSince(b, steps, i - 1);
      OvertakenAt(b, steps, i - 1);
    }
  }

  lemma {:induction false} DeferredHaveIds(frames: seq<Frame>)
    requires forall i :: 0 <= i < |frames| ==> frames[i].cls == Command
    ensures |CommandIds(frames)| == |frames|
  {
    if frames != [] { DeferredHaveIds(frames[..|frames| - 1]); }
  }

  lemma OrderedUnlessOvertaken(d: Daemon)
    requires Inv(d) && LateOk(d)
    ensures Increasing(WireIds(d.out.wire) + CommandIds(d.out.deferred)) <==> !IsOvertaken(d)
  {
    var wire, ids := WireIds(d.out.wire), CommandIds(d.out.deferred);
    DeferredHaveIds(d.out.deferred);
    if IsOvertaken(d) {
      assert (wire + ids)[|wire| - 1] == wire[|wire| - 1] && (wire + ids)[|wire|] == ids[0];
    } else if d.out.deferred == [] {
      assert wire + ids == wire;
    } else {
      assert wire == RegisteredIds(d.out.wire);
    }
  }

  /**
  On every run the command statuses on the wire are in the order they were made, and
  all come before the deferred ones unless, and only if not, some teardown sent
  statuses while older ones were still deferred.
  */
  lemma WireInOrder(b: seq<Daemon>, steps: seq<Step>, i: nat)
    requires Behaviour(b, steps) && i < |b|
    ensures Increasing(WireIds(b[i].out.wire))
    ensures Increasing(WireIds(b[i].out.wire) + CommandIds(b[i].out.deferred))
       <==> !OvertookBefore(b, steps, i)
  {
    Reachable(b, steps, i);
    LateReachable(b, steps, i);
    OvertakenSince(b, steps, i);
    OrderedUnlessOvertaken(b[i]);
  }

  // ------------------------------------------- connections that never registered

  /** Some frame went out on connection `c`. */
  predicate Carries(wire: seq<Sent>, c: nat) { exists p :: 0 <= p < |wire| && wire[p].conn == c }

  lemma CarriesMore(wire: seq<Sent>, frames: seq<Frame>, conn: nat, phase: Phase, c: nat)
    ensures Carries(wire + Stamped(frames, conn, phase), c) <==> Carries(wire, c) || (frames != [] && conn == c)
  {
    var more := wire + Stamped(frames, conn, phase);
    if Carries(wire, c) {
      var p :| 0 <= p < |wire| && wire[p].conn == c;
      assert more[p].conn == c;
    }
    if frames != [] { assert more[|wire|].conn == conn; }
  }

  predicate Registers(d: Daemon, c: nat) { d.out.conn == c && d.out.phase == Registered }

  lemma CarriesStep(d: Daemon, e: Daemon, step: Step, c: nat)
    requires PhaseOk(d) && Next(d, e, step) && !Registers(d, c)
    ensures Carries(e.out.wire, c) <==> Carries(d.out.wire, c) || (SendsAtClose(step) && d.out.conn == c)
  {
    if step.Emit? || step.CloseEmit? {
      var frames := Fresh(d, step.cls, step.n);
      var first := frames[..Min(step.accepted, |frames|)];
      CarriesMore(d.out.wire, first, d.out.conn, d.out.phase, c);
    } else if step.Flush? && d.out.phase == Registered {
      var pending := d.out.deferred + d.out.held;
      CarriesMore(d.out.wire, pending[..Min(step.accepted, |pending|)], d.out.conn, d.out.phase, c);
    }
  }

  /** The teardown of connection `c` sent a frame before `i`. */
  predicate ClosedWithFrames(b: seq<Daemon>, steps: seq<Step>, i: nat, c: nat)
    requires i < |b| == |steps| + 1
  {
    exists k {:trigger steps[k]} :: 0 <= k < i && SendsAtClose(steps[k]) && b[k].out.conn == c
  }

  lemma CarriesAt(b: seq<Daemon>, steps: seq<Step>, i: nat, c: nat)
    requires Behaviour(b, steps) && i < |steps| && !Registers(b[i], c)
    ensures Carries(b[i + 1].out.wire, c) <==> Carries(b[i].out.wire, c) || (SendsAtClose(steps[i]) && b[i].out.conn == c)
  {
    PhaseReachable(b, steps, i);
    CarriesStep(b[i], b[i + 1], steps[i], c);
  }

  /** A connection that has not registered carries a frame exactly when its teardown sent one. */
  lemma {:induction false} UnregisteredCarries(b: seq<Daemon>, steps: seq<Step>, i: nat, c: nat)
    requires Behaviour(b, steps) && i < |b|
    requires forall k {:trigger Registers(b[k], c)} :: 0 <= k < i ==> !Registers(b[k], c)
    ensures Carries(b[i].out.wire, c) <==> ClosedWithFrames(b, steps, i, c)
  {
    if i > 0 {
      UnregisteredCarries(b, steps, i - 1, c);
      CarriesAt(b, steps, i - 1, c);
    }
  }

  // ---------------------------------------------------------- one hello a connection

  /** The connection was registered: it is, or it is over. */
  predicate WasRegistered(d: Daemon) { d.out.phase == Registered || d.out.phase == Closing }

  lemma RegisteredOnce(d: Daemon, e: Daemon, step: Step)
    requires PhaseOk(d) && WasRegistered(d) && Next(d, e, step) && !step.Connect?
    ensures WasRegistered(e)
  {
  }

  lemma {:induction false} StaysRegistered(b: seq<Daemon>, steps: seq<Step>, i: nat, j: nat)
    requires Behaviour(b, steps) && i <= j < |b| && WasRegistered(b[i])
    requires forall k {:trigger steps[k]} :: i <= k < j ==> !steps[k].Connect?
    ensures WasRegistered(b[j])
    decreases j - i
  {
    if i < j {
      StaysRegistered(b, steps, i, j - 1);
      FrameGate.Reachable(b, steps, j - 1);
      RegisteredOnce(b[j - 1], b[j], steps[j - 1]);
    }
  }

  /** A second acknowledgement of the hello on one connection ends its session, and no write follows from it. */
  lemma SecondHelloEnds(b: seq<Daemon>, steps: seq<Step>, i: nat, j: nat)
    requires Behaviour(b, steps) && i < j < |steps| && steps[i] == Read(true) && steps[j] == Read(true)
    requires forall k {:trigger steps[k]} :: i < k < j ==> !steps[k].Connect?
    ensures b[j + 1] == b[j].(pc := Broken)
  {
    FrameGate.Reachable(b, steps, i);
    FrameGate.Reachable(b, steps, j);
    assert Next(b[i], b[i + 1], steps[i]);
    StaysRegistered(b, steps, i + 1, j);
    assert Next(b[j], b[j + 1], steps[j]);
  }
}
