/**
What becomes of every node frame, of every class, over whole runs with reconnects: it is exactly
once on the wire, held, deferred, refused by a socket or dropped with its session, unless it
was one that nobody wants before registration.
*/
module FrameFates {
  import opened Common
  import opened FrameGate

  // ------------------------------------------------------------------- all ids

  function Ids(frames: seq<Frame>): seq<nat> { seq(|frames|, i requires 0 <= i < |frames| => frames[i].id) }

  function SentIds(wire: seq<Sent>): seq<nat> { seq(|wire|, i requires 0 <= i < |wire| => wire[i].frame.id) }

  function Span(from: nat, n: nat): seq<nat> { seq(n, i requires 0 <= i < n => from + i) }

  /** How many frames a step makes. */
  function MadeBy(step: Step): nat {
    match step
    case CommandsEnd(n) => n
    case Emit(_, n, _) => n
    case CloseEmit(_, n, _) => n
    case _ => 0
  }

  /** A sample before registration, or a state report before the hello: made for nobody. */
  predicate Unwanted(d: Daemon, step: Step) {
    step.Emit? && ((step.cls == Periodic && d.out.phase != Registered) || (step.cls == NodeState && d.out.phase == PreHello))
  }

  /** A frame made now goes out now: on a registered session, and in a teardown. */
  predicate GoesNow(d: Daemon, step: Step) { (step.Emit? && d.out.phase == Registered) || step.CloseEmit? }

  /** The ids of the frames that a socket refuses in this step. */
  function RefusedIds(d: Daemon, step: Step): seq<nat> {
    var pending := d.out.deferred + d.out.held;
    if GoesNow(d, step) && step.accepted < step.n then Span(d.made + step.accepted, step.n - step.accepted)
    else if step.Flush? && d.out.phase == Registered && step.accepted < |pending| then Ids(pending[step.accepted..])
    else []
  }

  /** The ids of the held frames that end with their session in this step. */
  function DroppedIds(d: Daemon, step: Step): seq<nat> {
    if step.Connect? || step.SetupFails? || step.Leave? then Ids(d.out.held) else []
  }

  function UnwantedIds(d: Daemon, step: Step): seq<nat> {
    if Unwanted(d, step) then Span(d.made, MadeBy(step)) else []
  }

  // --------------------------------------------------------------- one emission

  /** What becomes of newly made frames, by the phase and the class alone. */
  predicate Goes(d: Daemon, p: Outbox, step: Step, frames: seq<Frame>)
    requires step.Emit? || step.CloseEmit?
  {
    var o := d.out;
    if GoesNow(d, step) then
      && p.wire == o.wire + Stamped(frames[..Min(step.accepted, |frames|)], o.conn, o.phase)
      && p.held == o.held && p.deferred == o.deferred
    else if Unwanted(d, step) then p == o
    else if step.cls == Command then p.deferred == o.deferred + frames && p.held == o.held && p.wire == o.wire
    else p.held == o.held + frames && p.deferred == o.deferred && p.wire == o.wire
  }

  lemma EmitGoes(d: Daemon, step: Step, frames: seq<Frame>)
    requires PhaseOk(d) && Enabled(d, step) && (step.Emit? || step.CloseEmit?) && frames == Fresh(d, step.cls, step.n)
    ensures Goes(d, Apply(d, step).out, step, frames)
  {
    assert Apply(d, step).out == Emitted(d.out, step.cls, frames, step.accepted);
    EmittedGoes(d, step, frames);
  }

  lemma EmittedGoes(d: Daemon, step: Step, frames: seq<Frame>)
    requires if step.Emit? then d.out.phase != Closing
             else step.CloseEmit? && d.out.phase == Closing && (step.cls == SessionScoped || step.cls == Command)
    ensures Goes(d, Emitted(d.out, step.cls, frames, step.accepted), step, frames)
  {
  }

  /** A registered session puts frames of every class on the wire at once, as many as the socket takes. */
  lemma RegisteredSends(d: Daemon, cls: Class, n: nat, accepted: nat)
    requires Enabled(d, Emit(cls, n, accepted)) && d.out.phase == Registered
    ensures Apply(d, Emit(cls, n, accepted)).out.wire
         == d.out.wire + Stamped(Fresh(d, cls, n)[..Min(accepted, n)], d.out.conn, Registered)
  {
  }

  // ---------------------------------------------------------------- the account

  /** How often an id occurs. */
  function Times(ids: seq<nat>, id: nat): nat {
    if ids == [] then 0 else Times(ids[..|ids| - 1], id) + Bit(ids[|ids| - 1] == id)
  }

  lemma {:induction false} TimesConcat(a: seq<nat>, b: seq<nat>, id: nat)
    ensures Times(a + b, id) == Times(a, id) + Times(b, id)
    decreases |b|
  {
    if b == [] {
      assert a + b == a;
    } else {
      var n := |b| - 1;
      assert (a + b)[..|a| + n] == a + b[..n];
      TimesConcat(a, b[..n], id);
    }
  }

  lemma {:induction false} TimesSpan(from: nat, n: nat, id: nat)
    ensures Times(Span(from, n), id) == Bit(from <= id < from + n)
  {
    if n > 0 {
      assert Span(from, n)[..n - 1] == Span(from, n - 1);
      TimesSpan(from, n - 1, id);
    }
  }

  function Sends(wire: seq<Sent>, id: nat): nat { Times(SentIds(wire), id) }

  function Among(frames: seq<Frame>, id: nat): nat { Times(Ids(frames), id) }

  lemma AmongConcat(a: seq<Frame>, b: seq<Frame>, id: nat)
    ensures Among(a + b, id) == Among(a, id) + Among(b, id)
  {
    assert Ids(a + b) == Ids(a) + Ids(b);
    TimesConcat(Ids(a), Ids(b), id);
  }

  lemma SendsConcat(wire: seq<Sent>, frames: seq<Frame>, conn: nat, phase: Phase, id: nat)
    ensures Sends(wire + Stamped(frames, conn, phase), id) == Sends(wire, id) + Among(frames, id)
  {
    assert SentIds(wire + Stamped(frames, conn, phase)) == SentIds(wire) + Ids(frames);
    TimesConcat(SentIds(wire), Ids(frames), id);
  }

  /** In how many places a frame is. */
  function Places(o: Outbox, id: nat): nat { Sends(o.wire, id) + Among(o.held, id) + Among(o.deferred, id) }

  /** How often a step sends a frame nowhere: refused, dropped or unwanted. */
  function Gone(d: Daemon, step: Step, id: nat): nat {
    Times(RefusedIds(d, step), id) + Times(DroppedIds(d, step), id) + Times(UnwantedIds(d, step), id)
  }

  /** The step made the frame with this id. */
  predicate Makes(d: Daemon, step: Step, id: nat) { d.made <= id < d.made + MadeBy(step) }

  predicate Moved(d: Daemon, e: Daemon, step: Step, id: nat) {
    Places(e.out, id) + Gone(d, step, id) == Places(d.out, id) + Bit(Makes(d, step, id))
  }

  /** Frames that are sent at once, as far as the socket takes them. */
  lemma SendMoves(o: Outbox, p: Outbox, first: seq<Frame>, made: nat, n: nat, k: nat, id: nat)
    requires p.wire == o.wire + Stamped(first, o.conn, o.phase) && p.held == o.held && p.deferred == o.deferred
    requires k <= n && Ids(first) == Span(made, k)
    ensures Places(p, id) + Times(Span(made + k, n - k), id) == Places(o, id) + Bit(made <= id < made + n)
  {
    SendsConcat(o.wire, first, o.conn, o.phase, id);
    TimesSpan(made, k, id);
    TimesSpan(made + k, n - k, id);
  }

  /** Frames that are held or deferred. */
  lemma KeepMoves(o: Outbox, p: Outbox, frames: seq<Frame>, made: nat, n: nat, id: nat)
    requires p.wire == o.wire && Ids(frames) == Span(made, n)
    requires || (p.held == o.held + frames && p.deferred == o.deferred)
             || (p.held == o.held && p.deferred == o.deferred + frames)
    ensures Places(p, id) == Places(o, id) + Bit(made <= id < made + n)
  {
    AmongConcat(o.held, frames, id);
    AmongConcat(o.deferred, frames, id);
    TimesSpan(made, n, id);
  }

  /** What an emission counts as gone. */
  lemma EmitGone(d: Daemon, step: Step, id: nat)
    requires step.Emit? || step.CloseEmit?
    ensures var k := Min(step.accepted, step.n);
            Gone(d, step, id) == (if GoesNow(d, step) then Times(Span(d.made + k, step.n - k), id) else 0)
                                 + (if Unwanted(d, step) then Bit(d.made <= id < d.made + step.n) else 0)
  {
    var k := Min(step.accepted, step.n);
    TimesSpan(d.made, step.n, id);
    assert DroppedIds(d, step) == [];
    assert step.accepted >= step.n ==> Span(d.made + k, step.n - k) == [];
  }

  lemma EmitMoves(d: Daemon, e: Daemon, step: Step, id: nat)
    requires PhaseOk(d) && Next(d, e, step) && (step.Emit? || step.CloseEmit?)
    ensures Moved(d, e, step, id)
  {
    var frames, k := Fresh(d, step.cls, step.n), Min(step.accepted, step.n);
    EmitGoes(d, step, frames);
    assert Ids(frames[..k]) == Span(d.made, k) && Ids(frames) == Span(d.made, step.n);
    EmitMovesTo(d, e.out, step, frames, k, id);
  }

  lemma EmitMovesTo(d: Daemon, p: Outbox, step: Step, frames: seq<Frame>, k: nat, id: nat)
    requires step.Emit? || step.CloseEmit?
    requires k == Min(step.accepted, step.n) <= |frames| && Ids(frames[..k]) == Span(d.made, k) && Ids(frames) == Span(d.made, step.n)
    requires Goes(d, p, step, frames)
    ensures Places(p, id) + Gone(d, step, id) == Places(d.out, id) + Bit(Makes(d, step, id))
  {
    EmitGone(d, step, id);
    if GoesNow(d, step) {
      SendMoves(d.out, p, frames[..k], d.made, step.n, k, id);
    } else if !Unwanted(d, step) {
      KeepMoves(d.out, p, frames, d.made, step.n, id);
    }
  }

  /** What waited goes out in order: the deferred ones, then the held ones, as far as the socket takes them. */
  lemma FlushMoves(d: Daemon, e: Daemon, step: Step, id: nat)
    requires Next(d, e, step) && step.Flush? && d.out.phase == Registered
    ensures Moved(d, e, step, id) && e.out.held == [] && e.out.deferred == []
  {
    var pending := d.out.deferred + d.out.held;
    var k := Min(step.accepted, |pending|);
    AmongConcat(d.out.deferred, d.out.held, id);
    AmongConcat(pending[..k], pending[k..], id);
    assert pending[..k] + pending[k..] == pending;
    SendsConcat(d.out.wire, pending[..k], d.out.conn, d.out.phase, id);
  }

  lemma DeferMoves(d: Daemon, e: Daemon, step: Step, id: nat)
    requires Next(d, e, step) && step.CommandsEnd?
    ensures Moved(d, e, step, id)
  {
    var frames := Fresh(d, Command, step.n);
    assert Ids(frames) == Span(d.made, step.n);
    KeepMoves(d.out, e.out, frames, d.made, step.n, id);
  }

  lemma PlainMoves(d: Daemon, e: Daemon, step: Step, id: nat)
    requires Next(d, e, step) && Plain(d, step)
    ensures Moved(d, e, step, id)
  {
    PlainStepFrame(d, step);
  }

  /** A step puts each new frame in one place and moves the others; what it sends nowhere is counted. */
  lemma StepMoves(d: Daemon, e: Daemon, step: Step, id: nat)
    requires PhaseOk(d) && Next(d, e, step)
    ensures Moved(d, e, step, id)
  {
    if step.CommandsEnd? {
      DeferMoves(d, e, step, id);
    } else if step.Emit? || step.CloseEmit? {
      EmitMoves(d, e, step, id);
    } else if step.Flush? && d.out.phase == Registered {
      FlushMoves(d, e, step, id);
    } else {
      PlainMoves(d, e, step, id);
    }
  }

  // ------------------------------------------------------------------ whole runs

  function Total(counts: seq<nat>): nat {
    if counts == [] then 0 else Total(counts[..|counts| - 1]) + counts[|counts| - 1]
  }

  lemma {:induction false} TotalsAdd(a: seq<nat>, b: seq<nat>, c: seq<nat>)
    requires |a| == |b| == |c| && forall i :: 0 <= i < |a| ==> c[i] == a[i] + b[i]
    ensures Total(c) == Total(a) + Total(b)
    decreases |a|
  {
    if a != [] {
      var n := |a| - 1;
      TotalsAdd(a[..n], b[..n], c[..n]);
    }
  }

  /** Nothing but entry `k` counts. */
  lemma {:induction false} TotalOne(counts: seq<nat>, k: nat)
    requires k < |counts| && forall i :: 0 <= i < |counts| && i != k ==> counts[i] == 0
    ensures Total(counts) == counts[k]
    decreases |counts|
  {
    var n := |counts| - 1;
    if k == n { TotalNone(counts[..n]); } else { TotalOne(counts[..n], k); }
  }

  lemma {:induction false} TotalNone(counts: seq<nat>)
    requires forall i :: 0 <= i < |counts| ==> counts[i] == 0
    ensures Total(counts) == 0
    decreases |counts|
  {
    if counts != [] { TotalNone(counts[..|counts| - 1]); }
  }

  // ------------------------------------------------------------- one frame's fate

  /** How often each of the first `n` steps makes, refuses, drops, or does not want a frame. */
  function MadeAlong(b: seq<Daemon>, steps: seq<Step>, n: nat, id: nat): seq<nat>
    requires n <= |steps| < |b|
  {
    seq(n, i requires 0 <= i < n => Bit(Makes(b[i], steps[i], id)))
  }

  function RefusedAlong(b: seq<Daemon>, steps: seq<Step>, n: nat, id: nat): seq<nat>
    requires n <= |steps| < |b|
  {
    seq(n, i requires 0 <= i < n => Times(RefusedIds(b[i], steps[i]), id))
  }

  function DroppedAlong(b: seq<Daemon>, steps: seq<Step>, n: nat, id: nat): seq<nat>
    requires n <= |steps| < |b|
  {
    seq(n, i requires 0 <= i < n => Times(DroppedIds(b[i], steps[i]), id))
  }

  function UnwantedAlong(b: seq<Daemon>, steps: seq<Step>, n: nat, id: nat): seq<nat>
    requires n <= |steps| < |b|
  {
    seq(n, i requires 0 <= i < n => Times(UnwantedIds(b[i], steps[i]), id))
  }

  function GoneAlong(b: seq<Daemon>, steps: seq<Step>, n: nat, id: nat): seq<nat>
    requires n <= |steps| < |b|
  {
    seq(n, i requires 0 <= i < n => Gone(b[i], steps[i], id))
  }

  lemma MovesAt(b: seq<Daemon>, steps: seq<Step>, i: nat, id: nat)
    requires Behaviour(b, steps) && i < |steps|
    ensures Places(b[i + 1].out, id) + Gone(b[i], steps[i], id) == Places(b[i].out, id) + Bit(Makes(b[i], steps[i], id))
  {
    PhaseReachable(b, steps, i);
    StepMoves(b[i], b[i + 1], steps[i], id);
  }

  lemma AlongMore(b: seq<Daemon>, steps: seq<Step>, i: nat, id: nat)
    requires i < |steps| < |b|
    ensures Total(GoneAlong(b, steps, i + 1, id)) == Total(GoneAlong(b, steps, i, id)) + Gone(b[i], steps[i], id)
    ensures Total(MadeAlong(b, steps, i + 1, id)) == Total(MadeAlong(b, steps, i, id)) + Bit(Makes(b[i], steps[i], id))
  {
    assert GoneAlong(b, steps, i + 1, id)[..i] == GoneAlong(b, steps, i, id);
    assert MadeAlong(b, steps, i + 1, id)[..i] == MadeAlong(b, steps, i, id);
  }

  lemma InitialPlaces(id: nat)
    ensures Places(Initial.out, id) == 0
  {
  }

  lemma Adds(before: nat, after: nat, gone: nat, made: nat, total: nat, sum: nat)
    requires before + total == sum && after + gone == before + made
    ensures after + (total + gone) == sum + made
  {
  }

  /** What is somewhere and what is gone add up to what was made. */
  lemma {:induction false} PlacesAdd(b: seq<Daemon>, steps: seq<Step>, i: nat, id: nat)
    requires Behaviour(b, steps) && i < |b|
    ensures Places(b[i].out, id) + Total(GoneAlong(b, steps, i, id)) == Total(MadeAlong(b, steps, i, id))
  {
    if i == 0 {
      InitialPlaces(id);
    } else {
      PlacesAdd(b, steps, i - 1, id);
      MovesAt(b, steps, i - 1, id);
      AlongMore(b, steps, i - 1, id);
      Adds(Places(b[i - 1].out, id), Places(b[i].out, id), Gone(b[i - 1], steps[i - 1], id),
           Bit(Makes(b[i - 1], steps[i - 1], id)), Total(GoneAlong(b, steps, i - 1, id)), Total(MadeAlong(b, steps, i - 1, id)));
    }
  }

  /** The number of frames made goes up by those each step makes. */
  ghost predicate Numbered(b: seq<Daemon>, steps: seq<Step>) {
    |b| == |steps| + 1 && forall i {:trigger steps[i]} :: 0 <= i < |steps| ==> b[i + 1].made == b[i].made + MadeBy(steps[i])
  }

  lemma MadeStep(d: Daemon, e: Daemon, step: Step)
    requires Next(d, e, step)
    ensures e.made == d.made + MadeBy(step)
  {
  }

  lemma RunNumbered(b: seq<Daemon>, steps: seq<Step>)
    requires Behaviour(b, steps)
    ensures Numbered(b, steps)
  {
    forall i {:trigger steps[i]} | 0 <= i < |steps| ensures b[i + 1].made == b[i].made + MadeBy(steps[i]) {
      MadeStep(b[i], b[i + 1], steps[i]);
    }
  }

  lemma {:induction false} MadeGrows(b: seq<Daemon>, steps: seq<Step>, i: nat, j: nat)
    requires Numbered(b, steps) && i < j < |b|
    ensures b[i].made + MadeBy(steps[i]) <= b[j].made
    decreases j - i
  {
    if i < j - 1 {
      MadeGrows(b, steps, i, j - 1);
      assert b[j].made == b[j - 1].made + MadeBy(steps[j - 1]);
    }
  }

  /** Only one step makes a frame. */
  lemma MadeOnce(b: seq<Daemon>, steps: seq<Step>, k: nat, i: nat, id: nat)
    requires Numbered(b, steps) && k < |steps| && i < |steps| && i != k && Makes(b[k], steps[k], id)
    ensures !Makes(b[i], steps[i], id)
  {
    if i < k { MadeGrows(b, steps, i, k); } else { MadeGrows(b, steps, k, i); }
  }

  lemma UnwantedCount(d: Daemon, step: Step, id: nat)
    ensures Times(UnwantedIds(d, step), id) == Bit(Unwanted(d, step) && Makes(d, step, id))
  {
    TimesSpan(d.made, MadeBy(step), id);
  }

  lemma MadeTotal(b: seq<Daemon>, steps: seq<Step>, k: nat, n: nat, id: nat)
    requires Numbered(b, steps) && k < n <= |steps| && Makes(b[k], steps[k], id)
    ensures Total(MadeAlong(b, steps, n, id)) == 1
    ensures Total(UnwantedAlong(b, steps, n, id)) == Bit(Unwanted(b[k], steps[k]))
  {
    forall i | 0 <= i < n && i != k
      ensures MadeAlong(b, steps, n, id)[i] == 0 && UnwantedAlong(b, steps, n, id)[i] == 0
    {
      MadeOnce(b, steps, k, i, id);
      UnwantedCount(b[i], steps[i], id);
    }
    UnwantedCount(b[k], steps[k], id);
    TotalOne(MadeAlong(b, steps, n, id), k);
    TotalOne(UnwantedAlong(b, steps, n, id), k);
  }

  lemma GoneSplits(b: seq<Daemon>, steps: seq<Step>, n: nat, id: nat)
    requires n <= |steps| < |b|
    ensures Total(GoneAlong(b, steps, n, id))
         == Total(RefusedAlong(b, steps, n, id)) + Total(DroppedAlong(b, steps, n, id)) + Total(UnwantedAlong(b, steps, n, id))
  {
    var refused, dropped, unwanted := RefusedAlong(b, steps, n, id), DroppedAlong(b, steps, n, id), UnwantedAlong(b, steps, n, id);
    var both := seq(n, i requires 0 <= i < n => refused[i] + dropped[i]);
    TotalsAdd(refused, dropped, both);
    TotalsAdd(both, unwanted, GoneAlong(b, steps, n, id));
  }

  /**
  Every frame's fate. A frame of any class is, at any later time, exactly once on the wire, held by
  its session, deferred, refused by a socket, or dropped with a session that had not flushed it;
  only a sample made before registration and a state report made before the hello are nowhere.
  */
  lemma FrameFate(b: seq<Daemon>, steps: seq<Step>, k: nat, i: nat, id: nat)
    requires Behaviour(b, steps) && k < i < |b| && Makes(b[k], steps[k], id)
    ensures Sends(b[i].out.wire, id) + Among(b[i].out.held, id) + Among(b[i].out.deferred, id)
            + Total(RefusedAlong(b, steps, i, id)) + Total(DroppedAlong(b, steps, i, id))
         == 1 - Bit(Unwanted(b[k], steps[k]))
  {
    PlacesAdd(b, steps, i, id);
    RunNumbered(b, steps);
    MadeTotal(b, steps, k, i, id);
    GoneSplits(b, steps, i, id);
  }
}
