/**
Why a request body ends the way it does, over whole runs: which bodies are streamed and which
are sent whole, that an upload fails only for a reason, and that a cut one never ends quietly.
*/
module BodyReasons {
  import opened Common
  import opened BodyStreams
  import opened BodyMachine
  import opened BodySteps
  import opened BodyFlow

  // -------------------------------------------------------------- within the cap

  function CapOf(plan: Plan): nat {
    match plan
    case Sized(_) => 0
    case Unsized(cap) => cap
    case Expand(cap) => cap
    case CountFirst(cap, _) => cap
  }

  /** The bytes of all chunks but the last. */
  function BeforeLast(q: Request): nat
    requires q.body != []
  {
    |Flat(q.body[..|q.body| - 1])|
  }

  predicate FromLocal(stage: Stage) { !stage.Over? && stage.source.Local? }

  ghost predicate Caps(q: Request, f: Flow)
    requires q.body != []
  {
    && (f.stage.Buffering? ==> |Flat(f.stage.got)| <= CapOf(f.stage.plan))
    && (q.plan.Unsized? ==>
          && !FromLocal(f.stage)
          && (f.stage.Streaming? ==> f.stage.taken <= |q.body| && |Flat(q.body[..f.stage.taken])| > q.plan.cap)
          && (f.stage.Streaming? ==> BeforeLast(q) > q.plan.cap)
          && (f.stage.Over? && f.outcome == Clean ==> BeforeLast(q) <= q.plan.cap))
    && (q.plan.CountFirst? ==>
          && (f.stage.Streaming? ==> FromLocal(f.stage))
          && (FromLocal(f.stage) ==> |Flat(q.body)| <= q.plan.cap))
  }

  lemma FlatGrows(chunks: seq<Chunk>, n: nat, m: nat)
    requires n <= m <= |chunks|
    ensures |Flat(chunks[..n])| <= |Flat(chunks[..m])|
  {
    FlatTake(chunks[..m], n);
    assert chunks[..m][..n] == chunks[..n];
  }

  /** What a buffering reader decides when it returns a credit, by the bytes it has and whether the body has ended. */
  lemma CreditDecides(f: Flow, g: Flow, cap: nat)
    requires f.stage.Buffering? && f.stage.holding.Some? && g == CreditStep(f)
    requires !f.stage.plan.Sized? && cap == CapOf(f.stage.plan)
    ensures var size, last := |Flat(GotAll(f))|, f.stage.holding.value.last;
            if f.stage.plan.Unsized? then
              && (last ==> g.stage.Over? && g.yielded == Flat(GotAll(f)) && g.outcome == Clean)
              && (!last && size > cap ==> g.stage == StreamFrom(f.stage.source, f.stage.taken, Prefixed(GotAll(f))))
              && (!last && size <= cap ==> g.stage == f.stage.(got := GotAll(f), holding := None))
              && (!last ==> g.yielded == f.yielded && g.outcome == f.outcome)
            else
              && g.yielded == f.yielded && g.outcome == f.outcome
              && (size > cap ==> g.stage.Over?)
              && (size <= cap && !last ==> g.stage == f.stage.(got := GotAll(f), holding := None))
              && (size <= cap && last && f.stage.plan.Expand? ==> g.stage.Over?)
              && (size <= cap && last && f.stage.plan.CountFirst? ==>
                    FromLocal(g.stage) && g.stage.source.pending == [Chunk(Flat(GotAll(f)), true)]
                    && (g.stage.Buffering? ==> g.stage.got == [] && g.stage.plan.Expand?)
                    && (g.stage.Streaming? ==> g.stage == StreamFrom(g.stage.source, 0, Lengthed(Exact(size, 0, false)))))
  {
    var got := GotAll(f);
    assert got[..|got|] == got && got[|got| - 1] == f.stage.holding.value;
    MoreIff(got, |got|, cap);
  }

  /** How much a buffering reader has, with the chunk it holds and without it. */
  lemma GotSizes(q: Request, f: Flow)
    requires WellFormed(q) && SocketOk(q, f) && f.stage.Buffering? && BufferOk(q, f, f.stage) && f.stage.holding.Some?
    ensures var n, feed := f.stage.taken, Feed(q, f.stage.source);
            0 < n <= |feed| && GotAll(f) == feed[..n] && f.stage.got == feed[..n - 1]
            && (f.stage.holding.value.last <==> n == |feed|)
    ensures f.stage.holding.value.last ==> |Flat(GotAll(f))| == |Flat(q.body)|
  {
    var feed := Feed(q, f.stage.source);
    assert GotAll(f) == feed[..f.stage.taken];
    if f.stage.holding.value.last {
      FlatFeed(q, f.stage.source);
      assert feed[..|feed|] == feed;
    }
  }

  /** Where the reader of a body of unknown length stands after a credit, as `CreditDecides` says. */
  ghost predicate Lands(f: Flow, g: Flow, cap: nat)
    requires f.stage.Buffering? && f.stage.holding.Some?
  {
    if f.stage.holding.value.last then g.stage.Over?
    else if |Flat(GotAll(f))| > cap then g.stage == StreamFrom(f.stage.source, f.stage.taken, Prefixed(GotAll(f)))
    else g.stage == f.stage.(got := GotAll(f), holding := None)
  }

  lemma UnsizedLands(q: Request, f: Flow, g: Flow)
    requires WellFormed(q) && q.plan.Unsized? && SocketOk(q, f) && Caps(q, f)
    requires f.stage.Buffering? && BufferOk(q, f, f.stage) && f.stage.holding.Some? && Lands(f, g, q.plan.cap)
    ensures Caps(q, g)
  {
    GotSizes(q, f);
    if f.stage.taken < |q.body| { FlatGrows(q.body, f.stage.taken, |q.body| - 1); }
  }

  lemma UnsizedKeepsCaps(q: Request, f: Flow, g: Flow)
    requires WellFormed(q) && q.plan.Unsized? && SocketOk(q, f) && Caps(q, f)
    requires f.stage.Buffering? && BufferOk(q, f, f.stage) && f.stage.holding.Some? && g == CreditStep(f)
    ensures Caps(q, g)
  {
    CreditDecides(f, g, q.plan.cap);
    UnsizedLands(q, f, g);
  }

  lemma WholeKeepsCaps(q: Request, f: Flow, g: Flow)
    requires WellFormed(q) && !q.plan.Unsized? && SocketOk(q, f) && Caps(q, f)
    requires f.stage.Buffering? && BufferOk(q, f, f.stage) && f.stage.holding.Some? && g == CreditStep(f)
    ensures Caps(q, g)
  {
    GotSizes(q, f);
    CreditDecides(f, g, CapOf(f.stage.plan));
  }

  lemma CreditKeepsCaps(q: Request, f: Flow, g: Flow)
    requires WellFormed(q) && Inv(q, f) && Caps(q, f) && Next(q, f, g, Credit)
    ensures Caps(q, g)
  {
    if q.plan.Unsized? { UnsizedKeepsCaps(q, f, g); } else { WholeKeepsCaps(q, f, g); }
  }

  lemma TakeKeepsCaps(q: Request, f: Flow, g: Flow)
    requires WellFormed(q) && Inv(q, f) && Caps(q, f) && Next(q, f, g, Take)
    ensures Caps(q, g)
  {
    TakeFromSource(q, f);
    if f.stage.Streaming? && f.stage.source.Ingress? { FlatGrows(q.body, f.stage.taken, f.stage.taken + 1); }
  }

  lemma StepKeepsCaps(q: Request, f: Flow, g: Flow, step: Step)
    requires WellFormed(q) && Inv(q, f) && Caps(q, f) && Next(q, f, g, step)
    ensures Caps(q, g)
  {
    match step
    case Take => TakeKeepsCaps(q, f, g);
    case Credit => CreditKeepsCaps(q, f, g);
    case PollBody => PollFrame(f.stage);
    case _ => assert g.outcome == f.outcome;
  }

  lemma CapsAt(q: Request, b: seq<Flow>, steps: seq<Step>, i: nat)
    requires Behaviour(q, b, steps) && i < |steps| && Caps(q, b[i])
    ensures Caps(q, b[i + 1])
  {
    Reachable(q, b, steps, i);
    StepKeepsCaps(q, b[i], b[i + 1], steps[i]);
  }

  lemma {:induction false} CapsHold(q: Request, b: seq<Flow>, steps: seq<Step>, i: nat)
    requires Behaviour(q, b, steps) && i < |b|
    ensures Caps(q, b[i])
  {
    if i > 0 {
      CapsHold(q, b, steps, i - 1);
      CapsAt(q, b, steps, i - 1);
    }
  }

  /**
  A body without a declared length is streamed only once more than the cap was taken, and only
  if what comes before its last chunk passes the cap; otherwise it can end cleanly only whole.
  A body that is buffered whole to count or to rewrite it goes on only within its cap.
  */
  lemma StreamedOnlyPastCap(q: Request, b: seq<Flow>, steps: seq<Step>, i: nat)
    requires Behaviour(q, b, steps) && i < |b|
    ensures q.plan.Unsized? && b[i].stage.Streaming? ==>
              && b[i].stage.taken <= |q.body| && |Flat(q.body[..b[i].stage.taken])| > q.plan.cap
              && BeforeLast(q) > q.plan.cap
    ensures q.plan.Unsized? && b[i].outcome == Clean && b[i].stage.Over? ==> BeforeLast(q) <= q.plan.cap
    ensures q.plan.Unsized? && b[i].stage.Buffering? ==> |Flat(b[i].stage.got)| <= q.plan.cap
    ensures q.plan.CountFirst? && b[i].yielded != [] ==> |Flat(q.body)| <= q.plan.cap
  {
    CapsHold(q, b, steps, i);
    Reachable(q, b, steps, i);
    if q.plan.CountFirst? { QuietUntilLocal(q, b, steps, i); }
  }

  /** Nothing is yielded before the count-first worker streams its own channel. */
  lemma {:induction false} QuietUntilLocal(q: Request, b: seq<Flow>, steps: seq<Step>, i: nat)
    requires Behaviour(q, b, steps) && i < |b| && q.plan.CountFirst?
    ensures b[i].yielded != [] ==> b[i].stage.Streaming?
  {
    if i > 0 {
      QuietUntilLocal(q, b, steps, i - 1);
      Reachable(q, b, steps, i - 1);
      QuietStep(q, b[i - 1], b[i], steps[i - 1]);
    }
  }

  lemma QuietStep(q: Request, f: Flow, g: Flow, step: Step)
    requires q.plan.CountFirst? && Inv(q, f) && Next(q, f, g, step) && (f.yielded != [] ==> f.stage.Streaming?)
    ensures g.yielded != [] ==> g.stage.Streaming?
  {
    match step
    case Credit =>
      assert BufferOk(q, f, f.stage);
      CreditDecides(f, g, CapOf(f.stage.plan));
    case PollBody => PollFrame(f.stage);
    case _ =>
  }

  // ------------------------------------------------------------ only for a reason

  /** The declared length is not the body's. */
  predicate Mismatch(q: Request) { q.plan.Sized? && q.plan.length != |Flat(q.body)| }

  /** As long as nothing stopped the reader: a bridge that is gone handed everything over, and nothing is cut. */
  ghost predicate Calm(q: Request, f: Flow) {
    && (f.outcome == Failed ==> Mismatch(q))
    && (f.stage.Streaming? ==>
          var feed := Feed(q, f.stage.source);
          && (f.stage.bridge.Gone? ==> f.stage.handed == |feed|)
          && (f.stage.consumer && f.stage.handed == |feed| && f.stage.state == Open ==> f.stage.slot.Some?)
          && f.stage.state != Truncated
          && (f.stage.wrapper.Lengthed? && !q.plan.Sized? ==> f.stage.wrapper.exact.length == |Flat(q.body)|))
  }

  /** What is handed over lies within the declared length. */
  lemma SlotFits(q: Request, f: Flow)
    requires Inv(q, f) && f.stage.Streaming? && f.stage.consumer && f.outcome == NoEnd
    ensures |f.yielded| + |Ahead(f.stage)| <= |Flat(q.body)|
    ensures f.stage.state == Ended ==> |f.yielded| == |Flat(q.body)|
  {
    var feed := Feed(q, f.stage.source);
    FlatFeed(q, f.stage.source);
    FlatTake(feed, f.stage.handed);
    assert f.yielded + Ahead(f.stage) == Flat(feed[..f.stage.handed]);
    if f.stage.state == Ended { assert Ahead(f.stage) == [] && feed[..|feed|] == feed; }
  }

  /**
  One poll of the body, by what is there for it: a buffered chunk first; then the chunk in the
  slot, unless it passes the declared length; nothing yet while the bridge is at work; an error
  when the bridge is gone before the last chunk; and at the end a clean one if the length fits.
  */
  lemma PollAnswers(f: Flow, g: Flow, q: Request)
    requires Inv(q, f) && Next(q, f, g, PollBody) && f.outcome == NoEnd
    ensures var stage := f.stage;
            var over := stage.wrapper.Lengthed? && stage.slot.Some?
                        && |f.yielded| + |stage.slot.value.data| > stage.wrapper.exact.length;
            if stage.wrapper.Prefixed? && stage.wrapper.prefix != [] then
              g.yielded == f.yielded + stage.wrapper.prefix[0].data && g.outcome == NoEnd
            else if stage.state == Open && stage.slot.Some? then
              if over then g.yielded == f.yielded && g.outcome == Failed
              else g.yielded == f.yielded + stage.slot.value.data && g.outcome == NoEnd && g.stage.slot.None?
            else if stage.state == Open && !stage.bridge.Gone? then
              g.yielded == f.yielded && g.outcome == NoEnd && g.stage == stage
            else if stage.state == Open then g.yielded == f.yielded && g.outcome == Failed
            else
              && g.yielded == f.yielded
              && g.outcome == if stage.wrapper.Lengthed? && stage.wrapper.exact.length != |f.yielded| then Failed else Clean
  {
  }

  lemma PollKeepsCalm(q: Request, f: Flow, g: Flow)
    requires WellFormed(q) && Inv(q, f) && Calm(q, f) && Next(q, f, g, PollBody)
    ensures Calm(q, g)
  {
    PollFrame(f.stage);
    if f.outcome == NoEnd {
      SlotFits(q, f);
      PollAnswers(f, g, q);
      PollStates(q, f, g);
    } else {
      PollAfterEnd(q, f, g);
    }
  }

  /** The state a poll leaves: only an open stream without a chunk and without a bridge is cut. */
  lemma PollStates(q: Request, f: Flow, g: Flow)
    requires WellFormed(q) && Inv(q, f) && Calm(q, f) && Next(q, f, g, PollBody) && f.outcome == NoEnd
    ensures g.stage.Streaming? && g.stage.state != Truncated
    ensures g.stage.consumer && g.stage.handed == |Feed(q, g.stage.source)| && g.stage.state == Open ==> g.stage.slot.Some?
    ensures g.stage.wrapper.Lengthed? == f.stage.wrapper.Lengthed?
    ensures g.stage.wrapper.Lengthed? ==> g.stage.wrapper.exact.length == f.stage.wrapper.exact.length
  {
  }

  lemma PollAfterEnd(q: Request, f: Flow, g: Flow)
    requires WellFormed(q) && Inv(q, f) && Calm(q, f) && Next(q, f, g, PollBody) && f.outcome != NoEnd
    ensures Calm(q, g)
  {
    PollFrame(f.stage);
  }

  lemma CreditKeepsCalm(q: Request, f: Flow, g: Flow)
    requires WellFormed(q) && Inv(q, f) && Calm(q, f) && Next(q, f, g, Credit)
    ensures Calm(q, g)
  {
    assert BufferOk(q, f, f.stage);
    CreditDecides(f, g, CapOf(f.stage.plan));
    GotSizes(q, f);
  }

  lemma AckKeepsCalm(q: Request, f: Flow, g: Flow)
    requires WellFormed(q) && Inv(q, f) && Calm(q, f) && Next(q, f, g, Ack)
    ensures Calm(q, g)
  {
  }

  lemma StepKeepsCalm(q: Request, f: Flow, g: Flow, step: Step)
    requires WellFormed(q) && Inv(q, f) && Calm(q, f) && Next(q, f, g, step) && !step.Stop?
    ensures Calm(q, g)
  {
    match step
    case Credit => CreditKeepsCalm(q, f, g);
    case Ack => AckKeepsCalm(q, f, g);
    case PollBody => PollKeepsCalm(q, f, g);
    case _ =>
  }

  lemma CalmAt(q: Request, b: seq<Flow>, steps: seq<Step>, i: nat)
    requires Behaviour(q, b, steps) && i < |steps| && Calm(q, b[i]) && !steps[i].Stop?
    ensures Calm(q, b[i + 1])
  {
    Reachable(q, b, steps, i);
    StepKeepsCalm(q, b[i], b[i + 1], steps[i]);
  }

  lemma {:induction false} StaysCalm(q: Request, b: seq<Flow>, steps: seq<Step>, i: nat)
    requires Behaviour(q, b, steps) && i < |b| && forall k {:trigger steps[k]} :: 0 <= k < i ==> !steps[k].Stop?
    ensures Calm(q, b[i])
  {
    if i > 0 {
      StaysCalm(q, b, steps, i - 1);
      CalmAt(q, b, steps, i - 1);
    }
  }

  /** An upload fails only when its reader was stopped or its declared length is not the body's. */
  lemma FailsOnlyForAReason(q: Request, b: seq<Flow>, steps: seq<Step>, i: nat)
    requires Behaviour(q, b, steps) && i < |b| && b[i].outcome == Failed
    ensures Mismatch(q) || exists k :: 0 <= k < i && steps[k].Stop?
  {
    if forall k {:trigger steps[k]} :: 0 <= k < i ==> !steps[k].Stop? { StaysCalm(q, b, steps, i); }
  }

  /**
  A chunk that comes when the queue is full is the protocol error: the request leaves the live
  table and the queue stays as it was. Any other chunk for a reader is queued, in order.
  */
  lemma OverCreditFaults(q: Request, f: Flow, g: Flow)
    requires Next(q, f, g, Deliver) && Intact(f) && !f.faulted
    ensures if |f.queue| < q.window then !g.faulted && g.live && g.queue == f.queue + [f.down[0]]
            else g.faulted && !g.live && g.queue == f.queue
  {
  }
}
