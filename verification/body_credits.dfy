/**
The exact account of a request's credit window: what is in it, plus every credit lost on the
way, is the window and one more if a count-first worker's second reader took the buffered body.
*/
module BodyCredits {
  import opened Common
  import opened BodyMachine
  import opened BodySteps
  import opened BodyFlow

  /** The step takes the buffered body from the count-first worker's own channel. */
  predicate TakesAgain(f: Flow, step: Step) {
    step.Take? && (f.stage.Buffering? || f.stage.Streaming?) && f.stage.source.Local?
  }

  /** What is queued when the reader stops receiving. */
  function Abandoned(f: Flow, after: Stage): nat {
    if Receiving(f.stage) && !Receiving(after) then |f.queue| else 0
  }

  /**
  The credits a step loses: of a chunk that nobody receives, of an acknowledgement past the
  window or of a retired request, and of what a reader that ends holds or has queued.
  */
  function Lost(q: Request, f: Flow, step: Step): nat
    requires Enabled(q, f, step)
  {
    match step
    case Deliver => Bit(!Intact(f))
    case AckArrives => Bit(f.credits >= q.window)
    case AckLost => 1
    case Credit => Abandoned(f, Apply(q, f, step).stage)
    case Ack => Abandoned(f, Apply(q, f, step).stage)
    case Stop => Unacked(f.stage) + Abandoned(f, Over)
    case _ => 0
  }

  lemma TakeCounts(q: Request, f: Flow)
    requires Enabled(q, f, Take)
    ensures InWindow(TakeStep(f)) == InWindow(f) + Bit(TakesAgain(f, Take))
  {
    var g := TakeStep(f);
    assert Unacked(g.stage) == 1 && Unacked(f.stage) == 0;
  }

  /** Letting go of the receiver loses what was queued, if it was received from. */
  lemma LettingGo(f: Flow, stage: Stage)
    requires !Receiving(stage)
    ensures InWindow(WithoutReceiver(f, stage)) + Unacked(f.stage) + Abandoned(f, stage) == InWindow(f) + Unacked(stage)
  {
  }

  /** Whatever the reader finds, it returns one credit; it stops receiving or nothing is dropped. */
  lemma CreditShape(f: Flow, g: Flow)
    requires f.stage.Buffering? && f.stage.holding.Some? && g == CreditStep(f)
    ensures g.credits == f.credits && g.down == f.down && g.acks == f.acks + 1 && Unacked(g.stage) == 0
    ensures g.queue == f.queue || (g.queue == [] && Receiving(f.stage) && !Receiving(g.stage))
    ensures Receiving(f.stage) && !Receiving(g.stage) ==> g.queue == []
  {
    match ProgressOf(f.stage.plan, GotAll(f))
    case More =>
    case Enough =>
    case TooMuch =>
    case Complete =>
  }

  lemma CreditCounts(q: Request, f: Flow, g: Flow)
    requires Next(q, f, g, Credit)
    ensures InWindow(g) + Lost(q, f, Credit) == InWindow(f)
  {
    CreditShape(f, g);
  }

  lemma AckCounts(q: Request, f: Flow, g: Flow)
    requires Next(q, f, g, Ack)
    ensures InWindow(g) + Lost(q, f, Ack) == InWindow(f)
  {
    var stage := f.stage.(bridge := Gone);
    if f.stage.bridge.last { LettingGo(f.(acks := f.acks + 1), stage); }
  }

  lemma StopCounts(q: Request, f: Flow, g: Flow)
    requires Next(q, f, g, Stop)
    ensures InWindow(g) + Lost(q, f, Stop) == InWindow(f)
  {
    LettingGo(f, if f.stage.Streaming? then f.stage.(bridge := Gone) else Over);
  }

  lemma DeliverCounts(q: Request, f: Flow, g: Flow)
    requires WellFormed(q) && WindowOk(q, f) && Next(q, f, g, Deliver)
    ensures InWindow(g) + Lost(q, f, Deliver) == InWindow(f)
  {
    if Intact(f) { DeliverFits(q, f); }
  }

  /** An acknowledgement that comes back is clamped to the window. */
  lemma SettleCounts(q: Request, f: Flow, g: Flow, step: Step)
    requires WindowOk(q, f) && Next(q, f, g, step)
    requires step.Send? || step.AckArrives? || step.AckLost? || step.Retire? || step.HandOver? || step.DropBody?
    ensures InWindow(g) + Lost(q, f, step) == InWindow(f)
  {
  }

  /** What one step does to the account. */
  lemma StepCounts(q: Request, f: Flow, g: Flow, step: Step)
    requires WellFormed(q) && WindowOk(q, f) && Next(q, f, g, step)
    ensures InWindow(g) + Lost(q, f, step) == InWindow(f) + Bit(TakesAgain(f, step))
  {
    match step
    case Deliver => DeliverCounts(q, f, g);
    case Take => TakeCounts(q, f);
    case Credit => CreditCounts(q, f, g);
    case Ack => AckCounts(q, f, g);
    case Stop => StopCounts(q, f, g);
    case PollBody => PollFrame(f.stage);
    case _ => SettleCounts(q, f, g, step);
  }

  /** How often the buffered body can have been taken from the worker's own channel. */
  predicate AgainOk(stage: Stage, taken: nat) {
    if stage.Over? then taken <= 1
    else if stage.source.Ingress? then taken == 0
    else taken + |stage.source.pending| == 1
  }

  lemma CreditAgain(q: Request, f: Flow, g: Flow, taken: nat)
    requires StageOk(q, f) && Next(q, f, g, Credit) && AgainOk(f.stage, taken)
    ensures AgainOk(g.stage, taken)
  {
    assert BufferOk(q, f, f.stage);
    match ProgressOf(f.stage.plan, GotAll(f))
    case More =>
    case Enough =>
    case TooMuch =>
    case Complete =>
  }

  lemma StepAgain(q: Request, f: Flow, g: Flow, step: Step, taken: nat)
    requires StageOk(q, f) && Next(q, f, g, step) && AgainOk(f.stage, taken)
    ensures AgainOk(g.stage, taken + Bit(TakesAgain(f, step)))
  {
    match step
    case Credit => CreditAgain(q, f, g, taken);
    case PollBody => PollFrame(f.stage);
    case _ =>
  }

  // -------------------------------------------------------------------- whole runs

  /** The credits lost by the first `i` steps. */
  ghost function LostBefore(q: Request, b: seq<Flow>, steps: seq<Step>, i: nat): nat
    requires Behaviour(q, b, steps) && i < |b|
  {
    if i == 0 then 0
    else
      assert Next(q, b[i - 1], b[i], steps[i - 1]);
      LostBefore(q, b, steps, i - 1) + Lost(q, b[i - 1], steps[i - 1])
  }

  /** How many of the first `i` steps took the buffered body again. */
  ghost function TakenAgain(q: Request, b: seq<Flow>, steps: seq<Step>, i: nat): nat
    requires Behaviour(q, b, steps) && i < |b|
  {
    if i == 0 then 0 else TakenAgain(q, b, steps, i - 1) + Bit(TakesAgain(b[i - 1], steps[i - 1]))
  }

  lemma CountsAt(q: Request, b: seq<Flow>, steps: seq<Step>, i: nat, taken: nat)
    requires Behaviour(q, b, steps) && i < |steps| && AgainOk(b[i].stage, taken)
    ensures Next(q, b[i], b[i + 1], steps[i])
    ensures InWindow(b[i + 1]) + Lost(q, b[i], steps[i]) == InWindow(b[i]) + Bit(TakesAgain(b[i], steps[i]))
    ensures AgainOk(b[i + 1].stage, taken + Bit(TakesAgain(b[i], steps[i])))
  {
    Reachable(q, b, steps, i);
    StepCounts(q, b[i], b[i + 1], steps[i]);
    StepAgain(q, b[i], b[i + 1], steps[i], taken);
  }

  /** The account of the window, on every run. */
  lemma {:induction false} WindowAccount(q: Request, b: seq<Flow>, steps: seq<Step>, i: nat)
    requires Behaviour(q, b, steps) && i < |b|
    ensures InWindow(b[i]) + LostBefore(q, b, steps, i) == q.window + TakenAgain(q, b, steps, i)
    ensures AgainOk(b[i].stage, TakenAgain(q, b, steps, i)) && TakenAgain(q, b, steps, i) <= 1
  {
    if i > 0 {
      WindowAccount(q, b, steps, i - 1);
      CountsAt(q, b, steps, i - 1, TakenAgain(q, b, steps, i - 1));
    }
  }

  ghost predicate TookAgain(b: seq<Flow>, steps: seq<Step>, i: nat)
    requires i < |b| == |steps| + 1
  {
    exists k {:trigger steps[k]} :: 0 <= k < i && TakesAgain(b[k], steps[k])
  }

  lemma {:induction false} TakenAgainIff(q: Request, b: seq<Flow>, steps: seq<Step>, i: nat)
    requires Behaviour(q, b, steps) && i < |b|
    ensures TakenAgain(q, b, steps, i) > 0 <==> TookAgain(b, steps, i)
  {
    if i > 0 { TakenAgainIff(q, b, steps, i - 1); }
  }

  ghost predicate NothingLost(q: Request, b: seq<Flow>, steps: seq<Step>, i: nat)
    requires Behaviour(q, b, steps) && i < |b|
  {
    forall k {:trigger steps[k]} :: 0 <= k < i ==> Next(q, b[k], b[k + 1], steps[k]) && Lost(q, b[k], steps[k]) == 0
  }

  lemma {:induction false} NothingLostIff(q: Request, b: seq<Flow>, steps: seq<Step>, i: nat)
    requires Behaviour(q, b, steps) && i < |b|
    ensures LostBefore(q, b, steps, i) == 0 <==> NothingLost(q, b, steps, i)
  {
    if i > 0 { NothingLostIff(q, b, steps, i - 1); }
  }

  /**
  One credit above the window is in it exactly when the second reader has taken the buffered
  body and no step has lost a credit; the server gets it back, now or when the acknowledgements
  arrive, exactly when that reader has also acknowledged.
  */
  lemma ExtraCredit(q: Request, b: seq<Flow>, steps: seq<Step>, i: nat)
    requires Behaviour(q, b, steps) && i < |b|
    ensures InWindow(b[i]) == q.window + 1 <==> TookAgain(b, steps, i) && NothingLost(q, b, steps, i)
    ensures b[i].credits + b[i].acks == q.window + 1
       <==> TookAgain(b, steps, i) && NothingLost(q, b, steps, i) && Unacked(b[i].stage) == 0
  {
    WindowAccount(q, b, steps, i);
    TakenAgainIff(q, b, steps, i);
    NothingLostIff(q, b, steps, i);
    WindowConserved(q, b, steps, i);
  }
}
