/**
Which node frames go out on which connection (`apps/cli/src/daemon.rs`: `gate`,
`emit`, the session loop and its teardown, `NodeLink`), over whole runs with
reconnects.

A frame's `id` is its place in the order frames are made, and `conn` the connection
whose session made it. How many writes a socket still takes is an input of each send.
*/
module FrameGate {
  import opened Common

  datatype Phase = PreHello | AwaitingHelloOk | Registered | Closing

  datatype Class = Periodic | NodeState | SessionScoped | Command

  datatype Gate = Send | Hold | Defer | Discard

  /** The one policy for node frames by session phase. */
  function GateFor(phase: Phase, cls: Class): Gate {
    match (phase, cls)
    case (Registered, _) => Send
    case (_, Periodic) => Discard
    case (PreHello, NodeState) => Discard
    case (Closing, NodeState) => Discard
    case (AwaitingHelloOk, NodeState) => Hold
    case (Closing, SessionScoped) => Send
    case (Closing, Command) => Send
    case (_, SessionScoped) => Hold
    case (_, Command) => Defer
  }

  datatype Frame = Frame(id: nat, cls: Class, conn: nat)

  /** A frame on the wire: the connection and the phase it went out in. */
  datatype Sent = Sent(frame: Frame, conn: nat, phase: Phase)

  /** What a session and its link hold, as far as frames go. */
  datatype Outbox = Outbox(phase: Phase, conn: nat, held: seq<Frame>, deferred: seq<Frame>, wire: seq<Sent>)

  function Stamped(frames: seq<Frame>, conn: nat, phase: Phase): seq<Sent> {
    seq(|frames|, i requires 0 <= i < |frames| => Sent(frames[i], conn, phase))
  }

  /** `send_outbound_frames` on a socket that takes `accepted` more writes. */
  function SendAll(o: Outbox, frames: seq<Frame>, accepted: nat): Outbox {
    o.(wire := o.wire + Stamped(frames[..Min(accepted, |frames|)], o.conn, o.phase))
  }

  function Emitted(o: Outbox, cls: Class, frames: seq<Frame>, accepted: nat): Outbox {
    match GateFor(o.phase, cls)
    case Send => SendAll(o, frames, accepted)
    case Hold => o.(held := o.held + frames)
    case Defer => o.(deferred := o.deferred + frames)
    case Discard => o
  }

  /** A write was refused: the session ends. */
  predicate WriteFails(o: Outbox, cls: Class, frames: seq<Frame>, accepted: nat) {
    GateFor(o.phase, cls) == Send && accepted < |frames|
  }

  /** The top of the loop: deferred command statuses first, then this session's held frames. */
  function Flushed(o: Outbox, accepted: nat): Outbox {
    SendAll(o, o.deferred + o.held, accepted).(deferred := [], held := [])
  }

  /** The session's frame state, updated in place. */
  class Session {
    var phase: Phase
    var conn: nat
    var held: seq<Frame>
    var deferred: seq<Frame>
    var wire: seq<Sent>

    function Value(): Outbox reads this { Outbox(phase, conn, held, deferred, wire) }

    constructor (conn: nat, deferred: seq<Frame>, wire: seq<Sent>)
      ensures Value() == Outbox(PreHello, conn, [], deferred, wire)
    {
      phase, held := PreHello, [];
      this.conn, this.deferred, this.wire := conn, deferred, wire;
    }

    method SendOutbound(frames: seq<Frame>, accepted: nat) returns (ok: bool)
      modifies this`wire
      ensures Value() == SendAll(old(Value()), frames, accepted)
      ensures ok == (|frames| <= accepted)
    {
      var i := 0;
      while i < |frames|
        invariant 0 <= i <= |frames| && i <= accepted
        invariant wire == old(wire) + Stamped(frames[..i], conn, phase)
      {
        if i == accepted {
          return false;
        }
        wire := wire + [Sent(frames[i], conn, phase)];
        assert Stamped(frames[..i + 1], conn, phase) == Stamped(frames[..i], conn, phase) + [Sent(frames[i], conn, phase)];
        i := i + 1;
      }
      assert frames[..i] == frames;
      return true;
    }

    method Emit(cls: Class, frames: seq<Frame>, accepted: nat) returns (ok: bool)
      modifies this
      ensures Value() == Emitted(old(Value()), cls, frames, accepted)
      ensures ok == !WriteFails(old(Value()), cls, frames, accepted)
      ensures old(phase) == Registered || (old(phase) == Closing && (cls == SessionScoped || cls == Command)) ==>
                && wire == old(wire) + Stamped(frames[..Min(accepted, |frames|)], conn, phase)
                && ok == (|frames| <= accepted) && held == old(held) && deferred == old(deferred)
      ensures old(phase) == PreHello || old(phase) == AwaitingHelloOk ==>
                && ok && wire == old(wire)
                && deferred == old(deferred) + (if cls == Command then frames else [])
                && held == old(held) + (if cls == SessionScoped || (cls == NodeState && old(phase) == AwaitingHelloOk) then frames else [])
    {
      if frames == [] {
        assert frames[..0] == [] && old(wire) + Stamped([], conn, phase) == old(wire);
        assert held + frames == held && deferred + frames == deferred;
        return true;
      }
      match GateFor(phase, cls)
      case Send => ok := SendOutbound(frames, accepted);
      case Hold => held, ok := held + frames, true;
      case Defer => deferred, ok := deferred + frames, true;
      case Discard => ok := true;
    }

    method Flush(accepted: nat) returns (ok: bool)
      modifies this
      ensures Value() == Flushed(old(Value()), accepted)
      ensures ok == (|old(deferred + held)| <= accepted)
    {
      var pending, mine := deferred, held;
      deferred, held := [], [];
      ok := SendOutbound(pending, accepted);
      if !ok {
        assert (pending + mine)[..accepted] == pending[..accepted];
        return;
      }
      ghost var first := Stamped(pending, conn, phase);
      assert pending[..|pending|] == pending;
      ok := SendOutbound(mine, accepted - |pending|);
      var k := Min(accepted - |pending|, |mine|);
      assert (pending + mine)[..|pending| + k] == pending + mine[..k];
      assert Stamped(pending + mine[..k], conn, phase) == first + Stamped(mine[..k], conn, phase);
    }
  }

  // -------------------------------------------------------------- whole runs

  /** Where the session loop stands. */
  datatype Pc =
    | Offline   // between connections
    | Setup     // before the hello went out
    | Top       // about to flush
    | Body      // polling, applying changes and reading
    | Broken    // the loop ended
    | Teardown
    | Stopped   // the daemon exits

  /**
  The daemon: its outbox, how many frames it made, the ids of the command statuses
  among them, and those that a refused write lost.
  */
  datatype Daemon = Daemon(pc: Pc, out: Outbox, made: nat, commands: multiset<nat>, lost: multiset<nat>, shutdown: bool)

  datatype Step =
    | CommandsEnd(n: nat)                        // offline: results are kept for the next connection
    | Connect
    | SetupFails                                 // an early return: the session is dropped
    | HelloGoes
    | Emit(cls: Class, n: nat, accepted: nat)
    | Flush(accepted: nat)
    | Read(helloOk: bool)
    | LoopEnds                                   // a socket error, a fault, or a shutdown signal
    | Close
    | CloseEmit(cls: Class, n: nat, accepted: nat)
    | Leave(stop: bool)

  /** The next `n` frames of a class. */
  function Fresh(d: Daemon, cls: Class, n: nat): seq<Frame> {
    seq(n, i requires 0 <= i < n => Frame(d.made + i, cls, d.out.conn))
  }

  /** The ids of the command statuses among `frames`. */
  function CommandIds(frames: seq<Frame>): seq<nat> {
    if frames == [] then []
    else
      var f := frames[|frames| - 1];
      CommandIds(frames[..|frames| - 1]) + (if f.cls == Command then [f.id] else [])
  }

  function Bag(ids: seq<nat>): multiset<nat> { multiset(ids) }

  function IdsOf(frames: seq<Frame>): multiset<nat> { Bag(CommandIds(frames)) }

  predicate Enabled(d: Daemon, step: Step) {
    match step
    case CommandsEnd(_) => d.pc.Offline?
    case Connect => d.pc.Offline?
    case SetupFails => d.pc.Setup?
    case HelloGoes => d.pc.Setup?
    case Emit(_, _, _) => d.pc.Setup? || d.pc.Body?
    case Flush(_) => d.pc.Top?
    case Read(_) => d.pc.Body?
    case LoopEnds => d.pc.Top? || d.pc.Body?
    case Close => d.pc.Broken?
    case CloseEmit(cls, _, _) => d.pc.Teardown? && (cls.SessionScoped? || cls.Command?)
    case Leave(stop) => d.pc.Teardown? && (d.shutdown ==> stop)
  }

  /** The frames of one emission are made, then gated. */
  function EmitFrames(d: Daemon, cls: Class, n: nat, accepted: nat): Daemon {
    var frames := Fresh(d, cls, n);
    d.(out := Emitted(d.out, cls, frames, accepted),
       made := d.made + n,
       commands := d.commands + IdsOf(frames),
       lost := d.lost + (if WriteFails(d.out, cls, frames, accepted) then IdsOf(frames[accepted..]) else multiset{}))
  }

  function FlushPending(d: Daemon, accepted: nat): Daemon {
    var pending := d.out.deferred + d.out.held;
    d.(out := Flushed(d.out, accepted),
       lost := d.lost + (if accepted < |pending| then IdsOf(pending[accepted..]) else multiset{}))
  }

  /** New commands that are deferred. */
  function Deferring(d: Daemon, n: nat): Daemon {
    var frames := Fresh(d, Command, n);
    d.(out := d.out.(deferred := d.out.deferred + frames), made := d.made + n, commands := d.commands + IdsOf(frames))
  }

  function Apply(d: Daemon, step: Step): Daemon
    requires Enabled(d, step)
  {
    match step
    case CommandsEnd(n) => Deferring(d, n)
    case Connect => d.(pc := Setup, out := d.out.(phase := PreHello, conn := d.out.conn + 1, held := []))
    case SetupFails => d.(pc := Offline, out := d.out.(held := []))
    case HelloGoes => d.(pc := Top, out := d.out.(phase := AwaitingHelloOk))
    case Emit(cls, n, accepted) =>
      EmitFrames(d, cls, n, accepted)
      .(pc := if WriteFails(d.out, cls, Fresh(d, cls, n), accepted) then Broken else d.pc)
    case Flush(accepted) =>
      if d.out.phase == Registered then
        FlushPending(d, accepted).(pc := if accepted < |d.out.deferred + d.out.held| then Broken else Body)
      else d.(pc := Body)
    case Read(helloOk) =>
      if !helloOk then d.(pc := Top)
      else if d.out.phase == Registered then d.(pc := Broken)
      else d.(pc := Top, out := d.out.(phase := Registered))
    case LoopEnds => d.(pc := Broken)
    case Close => d.(pc := Teardown, out := d.out.(phase := Closing))
    case CloseEmit(cls, n, accepted) =>
      // Interrupted commands are reported here only on a shutdown.
      EmitFrames(d, cls, n, accepted).(shutdown := d.shutdown || cls.Command?)
    case Leave(stop) => d.(pc := if stop then Stopped else Offline, out := d.out.(held := []))
  }

  const Initial: Daemon := Daemon(Offline, Outbox(Closing, 0, [], [], []), 0, multiset{}, multiset{}, false)

  predicate Next(d: Daemon, e: Daemon, step: Step) { Enabled(d, step) && e == Apply(d, step) }

  ghost predicate Behaviour(b: seq<Daemon>, steps: seq<Step>) {
    && |b| == |steps| + 1
    && b[0] == Initial
    && forall i {:trigger steps[i]} :: 0 <= i < |steps| ==> Next(b[i], b[i + 1], steps[i])
  }

  // --------------------------------------------------------------- invariant

  /** The ids of command statuses sent on registered connections, in the order they went out. */
  function RegisteredIds(wire: seq<Sent>): seq<nat> {
    if wire == [] then []
    else
      var s := wire[|wire| - 1];
      RegisteredIds(wire[..|wire| - 1]) + (if s.frame.cls == Command && s.phase == Registered then [s.frame.id] else [])
  }

  /** The ids of all command statuses on the wire. */
  function WireIds(wire: seq<Sent>): seq<nat> {
    if wire == [] then []
    else
      var s := wire[|wire| - 1];
      WireIds(wire[..|wire| - 1]) + (if s.frame.cls == Command then [s.frame.id] else [])
  }

  predicate Increasing(ids: seq<nat>) { forall i, j :: 0 <= i < j < |ids| ==> ids[i] < ids[j] }

  /** Nothing goes out before registration, and only commands leave their connection. */
  predicate SentOk(s: Sent) {
    && (s.phase == Registered || (s.phase == Closing && (s.frame.cls == SessionScoped || s.frame.cls == Command)))
    && (s.frame.cls != Command ==> s.frame.conn == s.conn)
  }

  ghost predicate WireOk(o: Outbox) {
    && (forall i :: 0 <= i < |o.wire| ==> SentOk(o.wire[i]))
    && (forall i :: 0 <= i < |o.held| ==> o.held[i].cls != Command && o.held[i].conn == o.conn)
    && (forall i :: 0 <= i < |o.deferred| ==> o.deferred[i].cls == Command)
  }

  ghost predicate PhaseOk(d: Daemon) {
    && (d.pc.Setup? ==> d.out.phase == PreHello)
    && (d.pc.Top? || d.pc.Body? ==> d.out.phase == AwaitingHelloOk || d.out.phase == Registered)
    && (d.pc.Teardown? ==> d.out.phase == Closing)
    && (d.pc.Body? && d.out.phase == Registered ==> d.out.deferred == [])
  }

  /** Deferred statuses come after all those already sent on registered connections. */
  predicate Ordered(sent: seq<nat>, deferred: seq<nat>, made: nat) {
    Increasing(sent + deferred) && forall i :: 0 <= i < |sent + deferred| ==> (sent + deferred)[i] < made
  }

  ghost predicate OrderOk(d: Daemon) {
    Ordered(RegisteredIds(d.out.wire), CommandIds(d.out.deferred), d.made)
  }

  /** Every command status made is, exactly once, on the wire, deferred, or lost to a refused write. */
  ghost predicate Conserved(d: Daemon) {
    && Bag(WireIds(d.out.wire)) + Bag(CommandIds(d.out.deferred)) + d.lost == d.commands
    && OnceEach(d.commands, d.made)
  }

  ghost predicate OnceEach(commands: multiset<nat>, made: nat) {
    forall id :: id in commands ==> id < made && commands[id] == 1
  }

  ghost predicate Inv(d: Daemon) {
    WireOk(d.out) && PhaseOk(d) && OrderOk(d) && Conserved(d)
  }

  // ------------------------------------------------------ ids of concatenations

  lemma {:induction false} CommandIdsConcat(a: seq<Frame>, b: seq<Frame>)
    ensures CommandIds(a + b) == CommandIds(a) + CommandIds(b)
  {
    if b == [] {
      assert a + b == a;
    } else {
      var front := b[..|b| - 1];
      CommandIdsConcat(a, front);
      assert (a + b)[..|a + b| - 1] == a + front;
    }
  }

  lemma {:induction false} WireIdsConcat(wire: seq<Sent>, frames: seq<Frame>, conn: nat, phase: Phase)
    ensures WireIds(wire + Stamped(frames, conn, phase)) == WireIds(wire) + CommandIds(frames)
  {
    var more := wire + Stamped(frames, conn, phase);
    if frames == [] {
      assert more == wire;
    } else {
      var front := frames[..|frames| - 1];
      WireIdsConcat(wire, front, conn, phase);
      assert more[..|more| - 1] == wire + Stamped(front, conn, phase);
    }
  }

  lemma {:induction false} RegisteredIdsConcat(wire: seq<Sent>, frames: seq<Frame>, conn: nat, phase: Phase)
    ensures RegisteredIds(wire + Stamped(frames, conn, phase))
         == RegisteredIds(wire) + (if phase == Registered then CommandIds(frames) else [])
  {
    var more := wire + Stamped(frames, conn, phase);
    if frames == [] {
      assert more == wire;
    } else {
      var front := frames[..|frames| - 1];
      RegisteredIdsConcat(wire, front, conn, phase);
      assert more[..|more| - 1] == wire + Stamped(front, conn, phase);
    }
  }

  lemma {:induction false} NoCommandIds(frames: seq<Frame>)
    requires forall i :: 0 <= i < |frames| ==> frames[i].cls != Command
    ensures CommandIds(frames) == []
  {
    if frames != [] {
      NoCommandIds(frames[..|frames| - 1]);
    }
  }

  lemma {:induction false} FreshIds(d: Daemon, n: nat)
    ensures CommandIds(Fresh(d, Command, n)) == seq(n, i requires 0 <= i < n => d.made + i)
  {
    if n > 0 {
      FreshIds(d, n - 1);
      assert Fresh(d, Command, n)[..n - 1] == Fresh(d, Command, n - 1);
    }
  }

  /** New frames bring new ids, in order, if they are command statuses. */
  lemma FreshFacts(d: Daemon, cls: Class, n: nat)
    ensures var ids := CommandIds(Fresh(d, cls, n));
            && Increasing(ids)
            && (forall i :: 0 <= i < |ids| ==> d.made <= ids[i] < d.made + n)
            && (cls != Command ==> ids == [])
  {
    if cls == Command {
      FreshIds(d, n);
    } else {
      NoCommandIds(Fresh(d, cls, n));
    }
  }

  /** Ids in increasing order occur once. */
  lemma {:induction false} IncreasingOnce(ids: seq<nat>, id: nat)
    requires Increasing(ids)
    ensures Bag(ids)[id] <= 1
  {
    if ids != [] {
      var front := ids[..|ids| - 1];
      IncreasingOnce(front, id);
      assert ids == front + [ids[|ids| - 1]];
      if id == ids[|ids| - 1] {
        assert id !in front;
      }
    }
  }

  // ----------------------------------------------------- preserving the invariant

  /** Ids that are new, in order and below `made + n`. */
  predicate NewIds(ids: seq<nat>, made: nat, n: nat) {
    Increasing(ids) && forall i :: 0 <= i < |ids| ==> made <= ids[i] < made + n
  }

  lemma OrderedDefer(sent: seq<nat>, deferred: seq<nat>, ids: seq<nat>, made: nat, n: nat)
    requires Ordered(sent, deferred, made) && NewIds(ids, made, n)
    ensures Ordered(sent, deferred + ids, made + n)
  {
    assert sent + (deferred + ids) == (sent + deferred) + ids;
  }

  lemma OrderedSend(sent: seq<nat>, ids: seq<nat>, made: nat, n: nat)
    requires Ordered(sent, [], made) && NewIds(ids, made, n)
    ensures Ordered(sent + ids, [], made + n)
  {
    assert sent + [] == sent && (sent + ids) + [] == sent + ids;
  }

  lemma OrderedPrefix(sent: seq<nat>, deferred: seq<nat>, first: seq<nat>, made: nat)
    requires Ordered(sent, deferred, made) && first <= deferred
    ensures Ordered(sent + first, [], made)
  {
    assert (sent + first) + [] == (sent + deferred)[..|sent| + |first|];
  }

  lemma OrderedLater(sent: seq<nat>, deferred: seq<nat>, made: nat, n: nat)
    requires Ordered(sent, deferred, made)
    ensures Ordered(sent, deferred, made + n)
  {
  }

  lemma FreshAreNew(d: Daemon, cls: Class, n: nat, k: nat)
    requires k <= n
    ensures NewIds(CommandIds(Fresh(d, cls, n)[..k]), d.made, n)
    ensures NewIds(CommandIds(Fresh(d, cls, n)), d.made, n)
  {
    assert Fresh(d, cls, n)[..k] == Fresh(d, cls, k);
    FreshFacts(d, cls, k);
    FreshFacts(d, cls, n);
  }

  /** The count with the ids of `n` new frames added to it. */
  lemma CountNew(commands: multiset<nat>, ids: seq<nat>, made: nat, n: nat)
    requires OnceEach(commands, made) && NewIds(ids, made, n)
    ensures OnceEach(commands + Bag(ids), made + n)
  {
    forall id | id in commands + Bag(ids) ensures id < made + n && (commands + Bag(ids))[id] == 1 {
      IncreasingOnce(ids, id);
      assert id in Bag(ids) <==> id in ids;
    }
  }

  lemma SplitIds(frames: seq<Frame>, k: nat)
    requires k <= |frames|
    ensures CommandIds(frames) == CommandIds(frames[..k]) + CommandIds(frames[k..])
  {
    CommandIdsConcat(frames[..k], frames[k..]);
    assert frames[..k] + frames[k..] == frames;
  }

  lemma BagConcat(a: seq<nat>, b: seq<nat>)
    ensures Bag(a + b) == Bag(a) + Bag(b)
  {
  }

  lemma DeferKeeps(d: Daemon, n: nat)
    requires OrderOk(d) && Conserved(d)
    ensures OrderOk(Deferring(d, n)) && Conserved(Deferring(d, n))
  {
    var ids := CommandIds(Fresh(d, Command, n));
    FreshAreNew(d, Command, n, n);
    CommandIdsConcat(d.out.deferred, Fresh(d, Command, n));
    OrderedDefer(RegisteredIds(d.out.wire), CommandIds(d.out.deferred), ids, d.made, n);
    BagConcat(CommandIds(d.out.deferred), ids);
    CountNew(d.commands, ids, d.made, n);
  }

  /** What an emission that goes out leaves behind, `k` of its frames being taken. */
  lemma SendsFirst(d: Daemon, cls: Class, n: nat, accepted: nat, k: nat)
    requires GateFor(d.out.phase, cls) == Send && k == Min(accepted, n)
    ensures var e, frames := EmitFrames(d, cls, n, accepted), Fresh(d, cls, n);
            && e.out.wire == d.out.wire + Stamped(frames[..k], d.out.conn, d.out.phase)
            && e.out.deferred == d.out.deferred && e.made == d.made + n
            && e.commands == d.commands + IdsOf(frames) && e.lost == d.lost + IdsOf(frames[k..])
  {
    if accepted >= n {
      assert Fresh(d, cls, n)[k..] == [];
    }
  }

  lemma SendKeepsOrder(d: Daemon, cls: Class, n: nat, accepted: nat)
    requires OrderOk(d) && GateFor(d.out.phase, cls) == Send
    requires d.out.phase == Registered ==> d.out.deferred == []
    ensures OrderOk(EmitFrames(d, cls, n, accepted))
  {
    var k := Min(accepted, n);
    var first := Fresh(d, cls, n)[..k];
    SendsFirst(d, cls, n, accepted, k);
    FreshAreNew(d, cls, n, k);
    RegisteredIdsConcat(d.out.wire, first, d.out.conn, d.out.phase);
    if d.out.phase == Registered {
      OrderedSend(RegisteredIds(d.out.wire), CommandIds(first), d.made, n);
    } else {
      assert RegisteredIds(d.out.wire) + [] == RegisteredIds(d.out.wire);
      OrderedLater(RegisteredIds(d.out.wire), CommandIds(d.out.deferred), d.made, n);
    }
  }

  /** Frames taken move to the wire and the rest is lost: the total follows what was made. */
  lemma TotalFollows(w: multiset<nat>, kept: multiset<nat>, lost: multiset<nat>, commands: multiset<nat>,
                     taken: multiset<nat>, refused: multiset<nat>)
    requires w + kept + lost == commands
    ensures (w + taken) + kept + (lost + refused) == commands + (taken + refused)
  {
  }

  lemma SendKeepsCount(d: Daemon, cls: Class, n: nat, accepted: nat)
    requires Conserved(d) && GateFor(d.out.phase, cls) == Send
    ensures Conserved(EmitFrames(d, cls, n, accepted))
  {
    var frames, k := Fresh(d, cls, n), Min(accepted, n);
    var taken, refused := CommandIds(frames[..k]), CommandIds(frames[k..]);
    SendsFirst(d, cls, n, accepted, k);
    SplitIds(frames, k);
    BagConcat(taken, refused);
    WireIdsConcat(d.out.wire, frames[..k], d.out.conn, d.out.phase);
    BagConcat(WireIds(d.out.wire), taken);
    TotalFollows(Bag(WireIds(d.out.wire)), Bag(CommandIds(d.out.deferred)), d.lost, d.commands, Bag(taken), Bag(refused));
    FreshAreNew(d, cls, n, n);
    CountNew(d.commands, CommandIds(frames), d.made, n);
  }

  /** Frames that are not command statuses and do not go out change neither order nor count. */
  lemma QuietKeeps(d: Daemon, e: Daemon, cls: Class, n: nat)
    requires OrderOk(d) && Conserved(d) && cls != Command
    requires e.out.wire == d.out.wire && e.out.deferred == d.out.deferred && e.lost == d.lost
    requires e.made == d.made + n && e.commands == d.commands + IdsOf(Fresh(d, cls, n))
    ensures OrderOk(e) && Conserved(e)
  {
    FreshFacts(d, cls, n);
    OrderedLater(RegisteredIds(d.out.wire), CommandIds(d.out.deferred), d.made, n);
    CountNew(d.commands, [], d.made, n);
  }

  lemma EmitKeepsWire(d: Daemon, cls: Class, n: nat, accepted: nat)
    requires WireOk(d.out)
    ensures WireOk(EmitFrames(d, cls, n, accepted).out)
  {
    var frames := Fresh(d, cls, n);
    if GateFor(d.out.phase, cls) == Send {
      var sent := Stamped(frames[..Min(accepted, n)], d.out.conn, d.out.phase);
      assert forall i :: 0 <= i < |sent| ==> SentOk(sent[i]);
    }
  }

  lemma EmitDefers(d: Daemon, cls: Class, n: nat, accepted: nat)
    requires GateFor(d.out.phase, cls) == Defer
    ensures EmitFrames(d, cls, n, accepted) == Deferring(d, n)
  {
  }

  lemma EmitStaysQuiet(d: Daemon, cls: Class, n: nat, accepted: nat)
    requires GateFor(d.out.phase, cls) == Hold || GateFor(d.out.phase, cls) == Discard
    ensures var e := EmitFrames(d, cls, n, accepted);
            && cls != Command && e.out.wire == d.out.wire && e.out.deferred == d.out.deferred && e.lost == d.lost
            && e.made == d.made + n && e.commands == d.commands + IdsOf(Fresh(d, cls, n))
  {
  }

  lemma EmitKeeps(d: Daemon, e: Daemon, cls: Class, n: nat, accepted: nat)
    requires OrderOk(d) && Conserved(d) && e == EmitFrames(d, cls, n, accepted)
    requires d.out.phase == Registered ==> d.out.deferred == []
    ensures OrderOk(e) && Conserved(e)
  {
    var gate := GateFor(d.out.phase, cls);
    if gate == Send {
      SendKeepsOrder(d, cls, n, accepted);
      SendKeepsCount(d, cls, n, accepted);
    } else if gate == Defer {
      EmitDefers(d, cls, n, accepted);
      DeferKeeps(d, n);
    } else {
      EmitStaysQuiet(d, cls, n, accepted);
      QuietKeeps(d, e, cls, n);
    }
  }

  lemma FlushKeepsWire(d: Daemon, accepted: nat)
    requires WireOk(d.out) && d.out.phase == Registered
    ensures WireOk(FlushPending(d, accepted).out)
  {
    var pending := d.out.deferred + d.out.held;
    var sent := Stamped(pending[..Min(accepted, |pending|)], d.out.conn, d.out.phase);
    assert forall i :: 0 <= i < |sent| ==> SentOk(sent[i]);
  }

  lemma FlushSendsFirst(d: Daemon, accepted: nat, k: nat)
    requires k == Min(accepted, |d.out.deferred + d.out.held|)
    ensures var e, pending := FlushPending(d, accepted), d.out.deferred + d.out.held;
            && e.out.wire == d.out.wire + Stamped(pending[..k], d.out.conn, d.out.phase)
            && e.out.deferred == [] && e.made == d.made && e.commands == d.commands
            && e.lost == d.lost + IdsOf(pending[k..])
  {
    if accepted >= |d.out.deferred + d.out.held| {
      assert (d.out.deferred + d.out.held)[k..] == [];
    }
  }

  /** The ids waiting are the deferred ones: held frames are no command statuses. */
  lemma PendingIds(o: Outbox, k: nat)
    requires WireOk(o) && k <= |o.deferred + o.held|
    ensures var pending := o.deferred + o.held;
            CommandIds(o.deferred) == CommandIds(pending[..k]) + CommandIds(pending[k..])
  {
    CommandIdsConcat(o.deferred, o.held);
    NoCommandIds(o.held);
    assert CommandIds(o.deferred) + [] == CommandIds(o.deferred);
    SplitIds(o.deferred + o.held, k);
  }

  lemma FlushKeepsOrder(d: Daemon, accepted: nat)
    requires WireOk(d.out) && OrderOk(d) && d.out.phase == Registered
    ensures OrderOk(FlushPending(d, accepted))
  {
    var pending := d.out.deferred + d.out.held;
    var k := Min(accepted, |pending|);
    FlushSendsFirst(d, accepted, k);
    PendingIds(d.out, k);
    RegisteredIdsConcat(d.out.wire, pending[..k], d.out.conn, d.out.phase);
    OrderedPrefix(RegisteredIds(d.out.wire), CommandIds(d.out.deferred), CommandIds(pending[..k]), d.made);
  }

  lemma TotalStays(w: multiset<nat>, lost: multiset<nat>, commands: multiset<nat>, taken: multiset<nat>, refused: multiset<nat>)
    requires w + (taken + refused) + lost == commands
    ensures (w + taken) + multiset{} + (lost + refused) == commands
  {
  }

  lemma FlushKeepsCount(d: Daemon, accepted: nat)
    requires WireOk(d.out) && Conserved(d)
    ensures Conserved(FlushPending(d, accepted))
  {
    var pending := d.out.deferred + d.out.held;
    var k := Min(accepted, |pending|);
    var taken, refused := CommandIds(pending[..k]), CommandIds(pending[k..]);
    FlushSendsFirst(d, accepted, k);
    PendingIds(d.out, k);
    BagConcat(taken, refused);
    WireIdsConcat(d.out.wire, pending[..k], d.out.conn, d.out.phase);
    BagConcat(WireIds(d.out.wire), taken);
    TotalStays(Bag(WireIds(d.out.wire)), d.lost, d.commands, Bag(taken), Bag(refused));
  }

  predicate Plain(d: Daemon, step: Step) {
    !step.CommandsEnd? && !step.Emit? && !step.CloseEmit? && !(step.Flush? && d.out.phase == Registered)
  }

  /** A step that makes and sends nothing moves no frame, and may only drop the held ones. */
  lemma PlainStepFrame(d: Daemon, step: Step)
    requires Enabled(d, step) && Plain(d, step)
    ensures var e := Apply(d, step);
            && e.out.wire == d.out.wire && e.out.deferred == d.out.deferred
            && e.made == d.made && e.commands == d.commands && e.lost == d.lost
            && (e.out.held == [] || (e.out.held == d.out.held && e.out.conn == d.out.conn))
  {
  }

  lemma PlainStepPhase(d: Daemon, step: Step)
    requires PhaseOk(d) && Enabled(d, step) && Plain(d, step)
    ensures PhaseOk(Apply(d, step))
  {
  }

  lemma PlainStepKeeps(d: Daemon, step: Step)
    requires Inv(d) && Enabled(d, step) && Plain(d, step)
    ensures Inv(Apply(d, step))
  {
    PlainStepFrame(d, step);
    PlainStepPhase(d, step);
    SameFrames(d, Apply(d, step));
  }

  lemma SameFrames(d: Daemon, e: Daemon)
    requires WireOk(d.out) && OrderOk(d) && Conserved(d)
    requires e.out.wire == d.out.wire && e.out.deferred == d.out.deferred
    requires e.made == d.made && e.commands == d.commands && e.lost == d.lost
    requires e.out.held == [] || (e.out.held == d.out.held && e.out.conn == d.out.conn)
    ensures WireOk(e.out) && OrderOk(e) && Conserved(e)
  {
  }

  /** An emission changes the phase of nothing; a refused write ends the loop. */
  lemma EmitStepPhase(d: Daemon, step: Step)
    requires PhaseOk(d) && Enabled(d, step) && (step.Emit? || step.CloseEmit?)
    ensures PhaseOk(Apply(d, step))
    ensures var e, f := EmitFrames(d, step.cls, step.n, step.accepted), Apply(d, step);
            f.out == e.out && f.made == e.made && f.commands == e.commands && f.lost == e.lost
    ensures d.out.phase == Registered ==> d.out.deferred == []
  {
  }

  lemma EmitStepKeeps(d: Daemon, step: Step)
    requires Inv(d) && Enabled(d, step) && (step.Emit? || step.CloseEmit?)
    ensures Inv(Apply(d, step))
  {
    var e := EmitFrames(d, step.cls, step.n, step.accepted);
    EmitStepPhase(d, step);
    EmitKeepsWire(d, step.cls, step.n, step.accepted);
    EmitKeeps(d, e, step.cls, step.n, step.accepted);
    SameFrames(e, Apply(d, step));
  }

  lemma FlushStepKeeps(d: Daemon, step: Step)
    requires Inv(d) && Enabled(d, step) && step.Flush? && d.out.phase == Registered
    ensures Inv(Apply(d, step))
  {
    FlushKeepsWire(d, step.accepted);
    FlushKeepsOrder(d, step.accepted);
    FlushKeepsCount(d, step.accepted);
    var e, f := FlushPending(d, step.accepted), Apply(d, step);
    assert f == e.(pc := f.pc);
    assert PhaseOk(f);
  }

  lemma DeferStepKeeps(d: Daemon, step: Step)
    requires Inv(d) && Enabled(d, step) && step.CommandsEnd?
    ensures Inv(Apply(d, step))
  {
    DeferKeeps(d, step.n);
    assert WireOk(Deferring(d, step.n).out);
  }

  lemma StepKeepsInv(d: Daemon, step: Step)
    requires Inv(d) && Enabled(d, step)
    ensures Inv(Apply(d, step))
  {
    if step.CommandsEnd? {
      DeferStepKeeps(d, step);
    } else if step.Emit? || step.CloseEmit? {
      EmitStepKeeps(d, step);
    } else if step.Flush? && d.out.phase == Registered {
      FlushStepKeeps(d, step);
    } else {
      PlainStepKeeps(d, step);
    }
  }

  lemma {:induction false} Reachable(b: seq<Daemon>, steps: seq<Step>, i: nat)
    requires Behaviour(b, steps) && i < |b|
    ensures Inv(b[i])
  {
    if i > 0 {
      Reachable(b, steps, i - 1);
      assert Next(b[i - 1], b[i], steps[i - 1]);
      StepKeepsInv(b[i - 1], steps[i - 1]);
    }
  }

  // ------------------------------------------------------------ main results

  /**
  No frame that passes the gate goes out before registration, and a frame of a
  session's own work goes out on its own connection or not at all.
  */
  lemma NothingBeforeHello(b: seq<Daemon>, steps: seq<Step>, i: nat, k: nat)
    requires Behaviour(b, steps) && i < |b| && k < |b[i].out.wire|
    ensures var s := b[i].out.wire[k];
            && s.phase != PreHello && s.phase != AwaitingHelloOk
            && (s.phase == Closing ==> s.frame.cls == SessionScoped || s.frame.cls == Command)
            && (s.frame.cls != Command ==> s.frame.conn == s.conn)
  {
    Reachable(b, steps, i);
    assert SentOk(b[i].out.wire[k]);
  }

  /** The step tries a write that the socket refuses. */
  predicate Refused(d: Daemon, step: Step) {
    || ((step.Emit? || step.CloseEmit?) && WriteFails(d.out, step.cls, Fresh(d, step.cls, step.n), step.accepted))
    || (step.Flush? && d.out.phase == Registered && step.accepted < |d.out.deferred + d.out.held|)
  }

  /** Only a refused write loses a command status. */
  lemma {:induction false} LostOnlyByWrites(b: seq<Daemon>, steps: seq<Step>, i: nat)
    requires Behaviour(b, steps) && i < |b|
    requires forall k :: 0 <= k < i ==> !Refused(b[k], steps[k])
    ensures b[i].lost == multiset{}
  {
    if i > 0 {
      LostOnlyByWrites(b, steps, i - 1);
      assert Next(b[i - 1], b[i], steps[i - 1]);
      assert !Refused(b[i - 1], steps[i - 1]);
    }
  }

  /**
  A daemon that has stopped takes no further step: the statuses that never went out are
  those a refused write lost and those still deferred, which end with the process.
  */
  lemma StoppedKeepsNothing(b: seq<Daemon>, steps: seq<Step>, i: nat)
    requires Behaviour(b, steps) && i < |b| && b[i].pc.Stopped?
    ensures i == |steps|
    ensures b[i].commands - Bag(WireIds(b[i].out.wire)) == b[i].lost + Bag(CommandIds(b[i].out.deferred))
    ensures (forall k :: 0 <= k < i ==> !Refused(b[k], steps[k])) ==>
              b[i].commands - Bag(WireIds(b[i].out.wire)) == Bag(CommandIds(b[i].out.deferred))
  {
    Reachable(b, steps, i);
    assert i < |steps| ==> Enabled(b[i], steps[i]);
    if forall k :: 0 <= k < i ==> !Refused(b[k], steps[k]) { LostOnlyByWrites(b, steps, i); }
  }

  /** Command statuses that the teardown sends. */
  predicate ClosingCommands(step: Step) { step.CloseEmit? && step.cls == Command }

  /** Sending these frames adds only registered command statuses, if it adds any. */
  lemma RegisteredSend(wire: seq<Sent>, frames: seq<Frame>, conn: nat, phase: Phase)
    requires WireIds(wire) == RegisteredIds(wire)
    requires phase == Registered || forall i :: 0 <= i < |frames| ==> frames[i].cls != Command
    ensures var longer := wire + Stamped(frames, conn, phase); WireIds(longer) == RegisteredIds(longer)
  {
    WireIdsConcat(wire, frames, conn, phase);
    RegisteredIdsConcat(wire, frames, conn, phase);
    if phase != Registered {
      NoCommandIds(frames);
    }
  }

  lemma RegisteredStep(d: Daemon, step: Step)
    requires PhaseOk(d) && Enabled(d, step) && !ClosingCommands(step)
    requires WireIds(d.out.wire) == RegisteredIds(d.out.wire)
    ensures WireIds(Apply(d, step).out.wire) == RegisteredIds(Apply(d, step).out.wire)
  {
    if step.Emit? || step.CloseEmit? {
      var frames := Fresh(d, step.cls, step.n);
      if GateFor(d.out.phase, step.cls) == Send {
        RegisteredSend(d.out.wire, frames[..Min(step.accepted, |frames|)], d.out.conn, d.out.phase);
      }
    } else if step.Flush? && d.out.phase == Registered {
      var pending := d.out.deferred + d.out.held;
      RegisteredSend(d.out.wire, pending[..Min(step.accepted, |pending|)], d.out.conn, d.out.phase);
    }
  }

  lemma PhaseReachable(b: seq<Daemon>, steps: seq<Step>, i: nat)
    requires Behaviour(b, steps) && i < |b|
    ensures PhaseOk(b[i])
  {
    Reachable(b, steps, i);
  }

  lemma {:induction false} AllRegistered(b: seq<Daemon>, steps: seq<Step>, i: nat)
    requires Behaviour(b, steps) && i < |b|
    requires forall k :: 0 <= k < i ==> !ClosingCommands(steps[k])
    ensures WireIds(b[i].out.wire) == RegisteredIds(b[i].out.wire)
  {
    if i > 0 {
      AllRegistered(b, steps, i - 1);
      PhaseReachable(b, steps, i - 1);
      assert Next(b[i - 1], b[i], steps[i - 1]);
      RegisteredStep(b[i - 1], steps[i - 1]);
    }
  }

  /**
  Command statuses across reconnects. Each status made is exactly once on the wire,
  deferred for the next connection, or lost to a refused write; those sent on
  registered connections go out in the order they were made, before all that are
  still deferred; and unless a teardown sent statuses of its own, those are all the
  statuses on the wire.
  */
  lemma CommandsOnceInOrder(b: seq<Daemon>, steps: seq<Step>, i: nat)
    requires Behaviour(b, steps) && i < |b|
    ensures Bag(WireIds(b[i].out.wire)) + Bag(CommandIds(b[i].out.deferred)) + b[i].lost == b[i].commands
    ensures forall id :: id in b[i].commands ==> b[i].commands[id] == 1
    ensures Increasing(RegisteredIds(b[i].out.wire) + CommandIds(b[i].out.deferred))
    ensures (forall k :: 0 <= k < i ==> !ClosingCommands(steps[k])) ==>
              Increasing(WireIds(b[i].out.wire) + CommandIds(b[i].out.deferred))
    ensures (forall k :: 0 <= k < i ==> !Refused(b[k], steps[k])) ==> b[i].lost == multiset{}
  {
    Reachable(b, steps, i);
    if forall k :: 0 <= k < i ==> !ClosingCommands(steps[k]) {
      AllRegistered(b, steps, i);
    }
    if forall k :: 0 <= k < i ==> !Refused(b[k], steps[k]) {
      LostOnlyByWrites(b, steps, i);
    }
  }

  // A command ends while disconnected; the next session is shut down before it registers.
  const Early: Frame := Frame(0, Command, 0)
  const Late: Frame := Frame(1, Command, 1)

  function WithEarly(pc: Pc, phase: Phase, conn: nat): Daemon {
    Daemon(pc, Outbox(phase, conn, [], [Early], []), 1, Bag([0]), multiset{}, false)
  }

  function Overtaken(): Daemon {
    Daemon(Teardown, Outbox(Closing, 1, [], [Early], [Sent(Late, 1, Closing)]), 2, Bag([0]) + Bag([1]), multiset{}, true)
  }

  lemma EarlyIsDeferred()
    ensures Next(Initial, WithEarly(Offline, Closing, 0), CommandsEnd(1))
  {
    var frames := Fresh(Initial, Command, 1);
    assert frames == [Early] && frames[..0] == [] && CommandIds(frames) == [0];
  }

  lemma LateIsSent()
    ensures Next(WithEarly(Teardown, Closing, 1), Overtaken(), CloseEmit(Command, 1, 1))
  {
    var frames := Fresh(WithEarly(Teardown, Closing, 1), Command, 1);
    assert frames == [Late] && frames[..1] == frames && frames[..0] == [] && CommandIds(frames) == [1];
    assert Stamped(frames, 1, Closing) == [Sent(Late, 1, Closing)];
  }

  lemma SessionEndsEarly()
    ensures Next(WithEarly(Offline, Closing, 0), WithEarly(Setup, PreHello, 1), Connect)
    ensures Next(WithEarly(Setup, PreHello, 1), WithEarly(Top, AwaitingHelloOk, 1), HelloGoes)
    ensures Next(WithEarly(Top, AwaitingHelloOk, 1), WithEarly(Broken, AwaitingHelloOk, 1), LoopEnds)
    ensures Next(WithEarly(Broken, AwaitingHelloOk, 1), WithEarly(Teardown, Closing, 1), Close)
  {
  }

  ghost predicate NeverRegistered(b: seq<Daemon>) { forall i :: 0 <= i < |b| ==> b[i].out.phase != Registered }

  lemma Extend(b: seq<Daemon>, steps: seq<Step>, e: Daemon, step: Step) returns (longer: seq<Daemon>, more: seq<Step>)
    requires Behaviour(b, steps) && NeverRegistered(b) && Next(b[|b| - 1], e, step) && e.out.phase != Registered
    ensures Behaviour(longer, more) && NeverRegistered(longer) && longer[|longer| - 1] == e
  {
    longer, more := b + [e], steps + [step];
  }

  /**
  The teardown is the exception: it sends statuses on a connection that never
  registered, past older ones that are still deferred.
  */
  lemma TeardownOvertakes() returns (b: seq<Daemon>, steps: seq<Step>)
    ensures Behaviour(b, steps)
    ensures b[|b| - 1].out.wire == [Sent(Late, 1, Closing)] && b[|b| - 1].out.deferred == [Early]
    ensures forall i :: 0 <= i < |b| ==> b[i].out.phase != Registered
  {
    EarlyIsDeferred();
    SessionEndsEarly();
    LateIsSent();
    b, steps := Extend([Initial], [], WithEarly(Offline, Closing, 0), CommandsEnd(1));
    b, steps := Extend(b, steps, WithEarly(Setup, PreHello, 1), Connect);
    b, steps := Extend(b, steps, WithEarly(Top, AwaitingHelloOk, 1), HelloGoes);
    b, steps := Extend(b, steps, WithEarly(Broken, AwaitingHelloOk, 1), LoopEnds);
    b, steps := Extend(b, steps, WithEarly(Teardown, Closing, 1), Close);
    b, steps := Extend(b, steps, Overtaken(), CloseEmit(Command, 1, 1));
  }
}
