/**
The credit window never blocks a request body: from every state of every run in which nobody
gave up, some step brings the upload nearer to its end, and a bounded number of them reach it.
*/
module BodyProgress {
  import opened Common
  import opened BodyStreams
  import opened BodyMachine
  import opened BodySteps
  import opened BodyFlow
  import opened BodyReasons

  /** The request is cancelled or over, the reader stops, or the HTTP client drops the body. */
  predicate GivesUp(step: Step) { step.Stop? || step.Retire? || step.DropBody? }

  /** Nothing is left to do: the body has ended, or it was all read to be rewritten, or is too large to count. */
  predicate Settled(q: Request, f: Flow) {
    || f.outcome != NoEnd
    || (f.stage.Over? && q.plan.Expand?)
    || (f.stage.Over? && q.plan.CountFirst? && (q.plan.expand.Some? || |Flat(q.body)| > q.plan.cap))
  }

  /** As long as nobody gave up. */
  ghost predicate Steady(q: Request, f: Flow) {
    && Inv(q, f) && Calm(q, f) && f.live
    && (f.stage.Streaming? ==> f.stage.consumer)
    && (f.stage.Buffering? && f.stage.source.Local? ==> q.plan.CountFirst? && q.plan.expand.Some?)
    && (f.stage.Over? ==> Settled(q, f))
  }

  lemma CreditLands(f: Flow, g: Flow)
    requires f.stage.Buffering? && f.stage.holding.Some? && g == CreditStep(f)
    ensures g.live == f.live && (g.stage.Streaming? ==> g.stage.consumer)
    ensures g.stage.Buffering? && g.stage.source.Local? ==>
              f.stage.source.Local? || (f.stage.plan.CountFirst? && f.stage.plan.expand.Some?)
  {
  }

  lemma CreditSettles(q: Request, f: Flow, g: Flow)
    requires WellFormed(q) && f.stage.Buffering? && BufferOk(q, f, f.stage) && Next(q, f, g, Credit) && g.stage.Over?
    requires f.stage.source.Local? ==> q.plan.CountFirst? && q.plan.expand.Some?
    ensures Settled(q, g)
  {
    CreditDecides(f, g, CapOf(f.stage.plan));
    GotWithin(q, f);
  }

  lemma CreditKeepsSteady(q: Request, f: Flow, g: Flow)
    requires WellFormed(q) && Steady(q, f) && Next(q, f, g, Credit)
    ensures g.live && (g.stage.Streaming? ==> g.stage.consumer) && (g.stage.Over? ==> Settled(q, g))
    ensures g.stage.Buffering? && g.stage.source.Local? ==> q.plan.CountFirst? && q.plan.expand.Some?
  {
    assert BufferOk(q, f, f.stage);
    CreditLands(f, g);
    if g.stage.Over? { CreditSettles(q, f, g); }
  }

  lemma GotWithin(q: Request, f: Flow)
    requires f.stage.Buffering? && BufferOk(q, f, f.stage) && f.stage.holding.Some?
    ensures |Flat(GotAll(f))| <= |Flat(q.body)|
  {
    var feed := Feed(q, f.stage.source);
    assert GotAll(f) == feed[..f.stage.taken];
    FlatTake(feed, f.stage.taken);
    FlatFeed(q, f.stage.source);
  }

  lemma StepKeepsSteady(q: Request, f: Flow, g: Flow, step: Step)
    requires WellFormed(q) && Steady(q, f) && Next(q, f, g, step) && !GivesUp(step)
    ensures Steady(q, g)
  {
    StepKeepsInv(q, f, step);
    StepKeepsCalm(q, f, g, step);
    match step
    case Credit => CreditKeepsSteady(q, f, g);
    case Deliver => if Intact(f) { DeliverFits(q, f); }
    case PollBody => PollFrame(f.stage);
    case _ =>
  }

  lemma {:induction false} StaysSteady(q: Request, b: seq<Flow>, steps: seq<Step>, i: nat)
    requires Behaviour(q, b, steps) && i < |b| && forall k {:trigger steps[k]} :: 0 <= k < i ==> !GivesUp(steps[k])
    ensures Steady(q, b[i])
  {
    if i == 0 {
      InitialInv(q);
    } else {
      StaysSteady(q, b, steps, i - 1);
      StepKeepsSteady(q, b[i - 1], b[i], steps[i - 1]);
    }
  }

  // ----------------------------------------------------------- what to do next

  /** The reader waits for a chunk: let one come nearer. */
  function Feeding(f: Flow): Step { if f.down != [] then Deliver else if f.acks > 0 then AckArrives else Send }

  function Helpful(f: Flow): Step
    requires !f.stage.Over?
  {
    match f.stage
    case Buffering(_, source, _, _, holding) =>
      if holding.Some? then Credit else if SourceHead(f, source).Some? then Take else Feeding(f)
    case Streaming(source, _, _, bridge, slot, state, wrapper, _) =>
      if state == Ended || slot.Some? || (wrapper.Prefixed? && wrapper.prefix != []) then PollBody
      else match bridge
        case Acking(_) => Ack
        case Holding(_) => HandOver
        case _ => if SourceHead(f, source).Some? then Take else Feeding(f)
  }

  /** The reader waits: its source has nothing for it. */
  predicate Waits(f: Flow) {
    || (f.stage.Buffering? && f.stage.holding.None? && SourceHead(f, f.stage.source).None?)
    || (f.stage.Streaming? && f.stage.bridge.Idle? && SourceHead(f, f.stage.source).None?)
  }

  /** A reader that waits reads the server's chunks, and the server can send one if none is on its way. */
  lemma WaitingIsFed(q: Request, f: Flow)
    requires WellFormed(q) && Steady(q, f) && Waits(f)
    ensures f.stage.source.Ingress? && Intact(f) && Enabled(q, f, Feeding(f))
  {
    var feed := Feed(q, f.stage.source);
    assert SourceOk(q, f, f.stage.source, f.stage.taken) && f.stage.taken < |feed|;
    assert InWindow(f) == q.window && f.arrived == f.sent - |f.down|;
    assert |f.queue| == f.arrived - f.stage.taken;
  }

  lemma HelpfulEnabled(q: Request, f: Flow)
    requires WellFormed(q) && Steady(q, f) && f.outcome == NoEnd && !f.stage.Over?
    ensures Enabled(q, f, Helpful(f)) && !GivesUp(Helpful(f)) && !Helpful(f).AckLost?
    ensures Helpful(f) == Feeding(f) ==> Intact(f)
  {
    if Waits(f) { WaitingIsFed(q, f); }
  }

  // -------------------------------------------------------------- how far it is

  function StageWork(stage: Stage): nat {
    match stage
    case Buffering(plan, source, _, got, holding) =>
      5 * LocalPending(stage) + 4 * Bit(holding.Some?) + |got| + 20 * Bit(plan.CountFirst?)
    case Streaming(source, _, _, bridge, slot, _, wrapper, _) =>
      5 * LocalPending(stage) + (match bridge case Holding(_) => 4 case Acking(_) => 2 case _ => 0) + Bit(slot.Some?)
      + if wrapper.Prefixed? then |wrapper.prefix| else 0
    case Over => 0
  }

  /** How many steps are left at most: each chunk on its way, by how far it has come. */
  function Work(q: Request, f: Flow): nat
    requires f.sent <= |q.body|
  {
    7 * (|q.body| - f.sent) + 6 * |f.down| + 5 * |f.queue| + f.acks + StageWork(f.stage) + 1
  }

  lemma CreditShrinksStage(f: Flow, g: Flow)
    requires f.stage.Buffering? && f.stage.holding.Some? && !f.stage.plan.Sized? && g == CreditStep(f)
    ensures StageWork(g.stage) + 2 <= StageWork(f.stage)
  {
    CreditDecides(f, g, CapOf(f.stage.plan));
    assert |GotAll(f)| == |f.stage.got| + 1;
  }

  lemma CreditWorks(q: Request, f: Flow, g: Flow)
    requires f.sent <= |q.body| && f.stage.Buffering? && !f.stage.plan.Sized? && Next(q, f, g, Credit)
    ensures g.sent == f.sent && Work(q, g) < Work(q, f)
  {
    CreditShrinksStage(f, g);
    CreditMovesOn(f, g);
  }

  lemma CreditMovesOn(f: Flow, g: Flow)
    requires f.stage.Buffering? && f.stage.holding.Some? && g == CreditStep(f)
    ensures g.sent == f.sent && g.down == f.down && g.acks == f.acks + 1 && |g.queue| <= |f.queue|
  {
  }

  lemma PollWorks(q: Request, f: Flow, g: Flow)
    requires WellFormed(q) && Steady(q, f) && f.outcome == NoEnd && Next(q, f, g, PollBody) && Helpful(f) == PollBody
    ensures g.outcome != NoEnd || (g.sent == f.sent <= |q.body| && Work(q, g) < Work(q, f))
  {
    PollFrame(f.stage);
    PollAnswers(f, g, q);
  }

  lemma FeedingWorks(q: Request, f: Flow, g: Flow)
    requires WellFormed(q) && Steady(q, f) && Intact(f) && Next(q, f, g, Feeding(f))
    ensures f.sent <= g.sent <= |q.body| && Work(q, g) < Work(q, f)
  {
    if f.down != [] { DeliverFits(q, f); }
  }

  lemma TakeWorks(q: Request, f: Flow, g: Flow)
    requires f.sent <= |q.body| && Next(q, f, g, Take)
    ensures g.sent == f.sent && Work(q, g) < Work(q, f)
  {
    if f.stage.source.Local? { assert LocalPending(g.stage) == LocalPending(f.stage) - 1; }
  }

  lemma HandOverWorks(q: Request, f: Flow, g: Flow)
    requires f.sent <= |q.body| && Next(q, f, g, HandOver)
    ensures g.sent == f.sent && Work(q, g) < Work(q, f)
  {
  }

  lemma AckWorks(q: Request, f: Flow, g: Flow)
    requires f.sent <= |q.body| && Next(q, f, g, Ack)
    ensures g.sent == f.sent && Work(q, g) < Work(q, f)
  {
  }

  lemma HelpfulWorks(q: Request, f: Flow, g: Flow)
    requires WellFormed(q) && Steady(q, f) && f.outcome == NoEnd && !f.stage.Over? && Next(q, f, g, Helpful(f))
    requires Helpful(f) == Feeding(f) ==> Intact(f)
    ensures g.outcome != NoEnd || (f.sent <= g.sent <= |q.body| && Work(q, g) < Work(q, f))
  {
    match Helpful(f)
    case Credit => CreditWorks(q, f, g);
    case PollBody => PollWorks(q, f, g);
    case Take => TakeWorks(q, f, g);
    case HandOver => HandOverWorks(q, f, g);
    case Ack => AckWorks(q, f, g);
    case _ => FeedingWorks(q, f, g);
  }

  // -------------------------------------------------------------------- whole runs

  /** No deadlock: wherever a run stands that is not settled, a step is enabled in which nobody gives up. */
  lemma NeverBlocked(q: Request, b: seq<Flow>, steps: seq<Step>)
    requires Behaviour(q, b, steps) && forall k {:trigger steps[k]} :: 0 <= k < |steps| ==> !GivesUp(steps[k])
    requires !Settled(q, b[|b| - 1])
    ensures exists step :: Enabled(q, b[|b| - 1], step) && !GivesUp(step) && !step.AckLost?
  {
    StaysSteady(q, b, steps, |b| - 1);
    HelpfulEnabled(q, b[|b| - 1]);
  }

  /** One helpful step. */
  lemma Help(q: Request, f: Flow) returns (step: Step, g: Flow)
    requires WellFormed(q) && Steady(q, f) && !Settled(q, f)
    ensures Next(q, f, g, step) && !GivesUp(step) && !step.AckLost? && Steady(q, g)
    ensures g.outcome != NoEnd || Work(q, g) < Work(q, f)
  {
    HelpfulEnabled(q, f);
    step := Helpful(f);
    g := Apply(q, f, step);
    StepKeepsSteady(q, f, g, step);
    HelpfulWorks(q, f, g);
  }

  /** `steps` lead from `f` through the states `c`. */
  ghost predicate Path(q: Request, f: Flow, c: seq<Flow>, steps: seq<Step>)
    decreases |c|
  {
    && |c| == |steps|
    && (c != [] ==> Next(q, f, c[0], steps[0]) && Path(q, c[0], c[1..], steps[1..]))
  }

  function Last(f: Flow, c: seq<Flow>): Flow { if c == [] then f else c[|c| - 1] }

  predicate NobodyGivesUp(steps: seq<Step>) { forall k :: 0 <= k < |steps| ==> !GivesUp(steps[k]) && !steps[k].AckLost? }

  /** Helpful steps until the request is settled. */
  lemma {:induction false} Finish(q: Request, f: Flow, work: nat) returns (c: seq<Flow>, more: seq<Step>)
    requires WellFormed(q) && Steady(q, f) && work == Work(q, f)
    ensures Path(q, f, c, more) && NobodyGivesUp(more) && |more| <= work
    ensures Settled(q, Last(f, c))
    decreases work
  {
    c, more := [], [];
    if !Settled(q, f) {
      var step, g := Help(q, f);
      c, more := [g], [step];
      if g.outcome == NoEnd {
        c, more := Finish(q, g, Work(q, g));
        Prepend(q, f, g, step, c, more);
        c, more := [g] + c, [step] + more;
      }
    }
  }

  lemma Prepend(q: Request, f: Flow, g: Flow, step: Step, c: seq<Flow>, more: seq<Step>)
    requires Next(q, f, g, step) && Path(q, g, c, more) && NobodyGivesUp(more) && !GivesUp(step) && !step.AckLost?
    ensures Path(q, f, [g] + c, [step] + more) && NobodyGivesUp([step] + more)
    ensures Last(f, [g] + c) == Last(g, c)
  {
    assert ([g] + c)[1..] == c && ([step] + more)[1..] == more;
  }

  lemma {:induction false} FollowPath(q: Request, b: seq<Flow>, steps: seq<Step>, c: seq<Flow>, more: seq<Step>)
    requires Behaviour(q, b, steps) && Path(q, b[|b| - 1], c, more)
    ensures Behaviour(q, b + c, steps + more)
    decreases |c|
  {
    if c == [] {
      assert b + c == b && steps + more == steps;
    } else {
      Extends(q, b, steps, c[0], more[0]);
      FollowPath(q, b + [c[0]], steps + [more[0]], c[1..], more[1..]);
      assert b + [c[0]] + c[1..] == b + c && steps + [more[0]] + more[1..] == steps + more;
    }
  }

  lemma Extends(q: Request, b: seq<Flow>, steps: seq<Step>, g: Flow, step: Step)
    requires Behaviour(q, b, steps) && Next(q, b[|b| - 1], g, step)
    ensures Behaviour(q, b + [g], steps + [step])
  {
    var c, all := b + [g], steps + [step];
    forall i {:trigger all[i]} | 0 <= i < |all| ensures Next(q, c[i], c[i + 1], all[i]) {
      if i < |steps| { assert all[i] == steps[i] && Next(q, b[i], b[i + 1], steps[i]); }
    }
  }

  /** How a request whose reader nobody stopped has ended. */
  lemma SettledHow(q: Request, f: Flow)
    requires WellFormed(q) && Steady(q, f) && Settled(q, f)
    ensures q.plan.Sized? ==> f.outcome == if q.plan.length == |Flat(q.body)| then Clean else Failed
    ensures q.plan.Unsized? ==> f.outcome == Clean
    ensures q.plan.CountFirst? && q.plan.expand.None? && |Flat(q.body)| <= q.plan.cap ==> f.outcome == Clean
  {
  }

  /**
  Every run in which nobody gave up can go on to its end without anybody giving up, in as many
  steps as `Work` says or fewer: the upstream is then given the whole body and a clean end,
  when it is streamed with its own length or without one, or counted first within the cap.
  */
  lemma AlwaysFinishes(q: Request, b: seq<Flow>, steps: seq<Step>) returns (c: seq<Flow>, more: seq<Step>)
    requires Behaviour(q, b, steps) && forall k {:trigger steps[k]} :: 0 <= k < |steps| ==> !GivesUp(steps[k])
    ensures Behaviour(q, b + c, steps + more) && NobodyGivesUp(more)
    ensures b[|b| - 1].sent <= |q.body| && |more| <= Work(q, b[|b| - 1])
    ensures var end := Last(b[|b| - 1], c);
            && Settled(q, end)
            && (q.plan.Sized? ==> end.outcome == if q.plan.length == |Flat(q.body)| then Clean else Failed)
            && (q.plan.Unsized? ==> end.outcome == Clean)
            && (q.plan.CountFirst? && q.plan.expand.None? && |Flat(q.body)| <= q.plan.cap ==> end.outcome == Clean)
            && (end.outcome == Clean ==> end.yielded == Flat(q.body))
  {
    var f := b[|b| - 1];
    StaysSteady(q, b, steps, |b| - 1);
    c, more := Finish(q, f, Work(q, f));
    FollowPath(q, b, steps, c, more);
    assert Last(f, c) == (b + c)[|b + c| - 1];
    BodyFaithful(q, b + c, steps + more, |b + c| - 1);
    StaysSteady(q, b + c, steps + more, |b + c| - 1);
    SettledHow(q, Last(f, c));
  }
}
