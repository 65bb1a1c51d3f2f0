/**
Every step of a request body's way keeps the window, the socket's order, the reader's state
and the bytes yielded consistent.
*/
module BodySteps {
  import opened Common
  import opened BodyStreams
  import opened BodyMachine

  /** A step that creates no credit and no work for a second channel. */
  predicate WindowKept(q: Request, f: Flow, g: Flow) {
    && g.faulted == f.faulted
    && g.sent <= |q.body|
    && InWindow(g) <= InWindow(f)
    && InWindow(g) + LocalPending(g.stage) <= InWindow(f) + LocalPending(f.stage)
    && LocalPending(g.stage) <= LocalPending(f.stage)
    && (AllIn(q, f) ==> AllIn(q, g))
    && (Receiving(g.stage) ==> Receiving(f.stage))
    && (!Receiving(g.stage) ==> g.queue == [])
    && (Intact(g) ==> Intact(f) && InWindow(g) == InWindow(f))
  }

  lemma KeptWindowOk(q: Request, f: Flow, g: Flow)
    requires WindowOk(q, f) && WindowKept(q, f, g)
    ensures WindowOk(q, g)
  {
  }

  /** A step that leaves the reader and what it yielded alone. */
  lemma SameStageOk(q: Request, f: Flow, g: Flow)
    requires StageOk(q, f) && BytesOk(q, f)
    requires g.stage == f.stage && g.yielded == f.yielded && g.outcome == f.outcome
    requires g.queue == f.queue && g.arrived == f.arrived
    ensures StageOk(q, g) && BytesOk(q, g)
  {
  }

  lemma SendKeeps(q: Request, f: Flow)
    requires WellFormed(q) && Inv(q, f) && Enabled(q, f, Send)
    ensures Inv(q, Apply(q, f, Send))
  {
    var g := Apply(q, f, Send);
    SameStageOk(q, f, g);
    KeptWindowOk(q, f, g);
  }

  /** A chunk that arrives on a credit finds room in the queue. */
  lemma DeliverFits(q: Request, f: Flow)
    requires WellFormed(q) && WindowOk(q, f) && Enabled(q, f, Deliver) && Intact(f)
    ensures |f.queue| < q.window
    ensures WindowOk(q, DeliverStep(q, f))
  {
    var g := DeliverStep(q, f);
    assert InWindow(g) == InWindow(f);
    KeptWindowOk(q, f, g);
  }

  lemma DeliverKeeps(q: Request, f: Flow)
    requires WellFormed(q) && Inv(q, f) && Enabled(q, f, Deliver)
    ensures Inv(q, Apply(q, f, Deliver))
  {
    var g := Apply(q, f, Deliver);
    if Intact(f) {
      DeliverFits(q, f);
      DeliverGrowsQueue(q, f);
    } else {
      SameStageOk(q, f, g);
      KeptWindowOk(q, f, g);
    }
  }

  lemma DeliverGrowsQueue(q: Request, f: Flow)
    requires WellFormed(q) && SocketOk(q, f) && StageOk(q, f) && BytesOk(q, f) && Enabled(q, f, Deliver) && Intact(f)
    requires |f.queue| < q.window
    ensures var g := DeliverStep(q, f); SocketOk(q, g) && StageOk(q, g) && BytesOk(q, g)
  {
    var g := DeliverStep(q, f);
    assert f.down[0] == q.body[f.arrived];
    assert SourceOk(q, g, g.stage.source, g.stage.taken);
  }

  lemma SettleKeeps(q: Request, f: Flow, step: Step)
    requires WellFormed(q) && Inv(q, f) && Enabled(q, f, step)
    requires step.AckArrives? || step.AckLost? || step.Retire?
    ensures Inv(q, Apply(q, f, step))
  {
    var g := Apply(q, f, step);
    SameStageOk(q, f, g);
    KeptWindowOk(q, f, g);
  }

  /** The next chunk of a source is the next chunk of its feed. */
  lemma TakeFromSource(q: Request, f: Flow)
    requires f.stage.Buffering? || f.stage.Streaming?
    requires SourceOk(q, f, f.stage.source, f.stage.taken) && SourceHead(f, f.stage.source).Some?
    ensures f.stage.taken < |Feed(q, f.stage.source)|
    ensures SourceHead(f, f.stage.source).value == Feed(q, f.stage.source)[f.stage.taken]
    ensures var g := TakeStep(f);
            && g.stage.source.Ingress? == f.stage.source.Ingress?
            && SourceOk(q, g, g.stage.source, f.stage.taken + 1)
  {
    var source, taken := f.stage.source, f.stage.taken;
    if source.Ingress? {
      assert f.queue[0] == q.body[taken] && f.queue[1..] == q.body[taken + 1..f.arrived];
    }
  }

  lemma TakeKeepsWindow(q: Request, f: Flow)
    requires WindowOk(q, f) && SocketOk(q, f) && Enabled(q, f, Take)
    requires f.stage.source.Ingress? ==> Receiving(f.stage)
    ensures WindowOk(q, TakeStep(f)) && SocketOk(q, TakeStep(f))
  {
    var g := TakeStep(f);
    assert Receiving(g.stage) == Receiving(f.stage);
    assert Unacked(g.stage) == 1 && Unacked(f.stage) == 0;
    assert |g.queue| + LocalPending(g.stage) + 1 == |f.queue| + LocalPending(f.stage);
    if f.stage.source.Ingress? {
      KeptWindowOk(q, f, g);
    }
  }

  lemma TakeKeeps(q: Request, f: Flow)
    requires WellFormed(q) && Inv(q, f) && Enabled(q, f, Take)
    ensures Inv(q, Apply(q, f, Take))
  {
    TakeFromSource(q, f);
    TakeKeepsWindow(q, f);
    TakeKeepsStage(q, f);
  }

  lemma TakeKeepsStage(q: Request, f: Flow)
    requires StageOk(q, f) && Enabled(q, f, Take)
    requires f.stage.taken < |Feed(q, f.stage.source)|
    requires SourceHead(f, f.stage.source).value == Feed(q, f.stage.source)[f.stage.taken]
    requires var g := TakeStep(f);
             && g.stage.source.Ingress? == f.stage.source.Ingress?
             && SourceOk(q, g, g.stage.source, f.stage.taken + 1)
    ensures StageOk(q, TakeStep(f))
  {
  }

  /** A reader that took the last chunk took every chunk. */
  lemma LastIsAll(q: Request, f: Flow)
    requires WellFormed(q) && SocketOk(q, f) && f.stage.Buffering? && BufferOk(q, f, f.stage)
    requires f.stage.holding.Some? && f.stage.holding.value.last
    ensures f.stage.got + [f.stage.holding.value] == Feed(q, f.stage.source)
    ensures f.stage.source.Ingress? ==> AllIn(q, f)
    ensures LocalPending(f.stage) == 0
  {
    assert Feed(q, f.stage.source)[..f.stage.taken] == f.stage.got + [f.stage.holding.value];
  }

  lemma FlatFeed(q: Request, source: Source)
    ensures Flat(Feed(q, source)) == Flat(q.body)
  {
    if source.Local? {
      FlatAppend([], Chunk(Flat(q.body), true));
      assert [] + [Chunk(Flat(q.body), true)] == Feed(q, source);
    }
  }

  ghost predicate CreditDue(q: Request, f: Flow) {
    WellFormed(q) && Inv(q, f) && f.stage.Buffering? && f.stage.holding.Some?
  }

  function GotAll(f: Flow): seq<Chunk>
    requires f.stage.Buffering? && f.stage.holding.Some?
  {
    f.stage.got + [f.stage.holding.value]
  }

  /** The credit goes back, and the reader reads on. */
  lemma MoreKept(q: Request, f: Flow, g: Flow, stage: Stage)
    requires f.stage.Buffering? && f.stage.holding.Some? && g == f.(acks := f.acks + 1, stage := stage)
    requires Unacked(stage) == 0 && LocalPending(stage) == LocalPending(f.stage) && Receiving(stage) == Receiving(f.stage)
    requires WindowOk(q, f) && SocketOk(q, f)
    ensures WindowOk(q, g) && SocketOk(q, g)
  {
    assert InWindow(g) == InWindow(f);
    KeptWindowOk(q, f, g);
  }

  lemma CreditMoreKeeps(q: Request, f: Flow)
    requires CreditDue(q, f) && ProgressOf(f.stage.plan, GotAll(f)) == More
    ensures Inv(q, CreditStep(f))
  {
    var stage := f.stage.(got := GotAll(f), holding := None);
    MoreKept(q, f, CreditStep(f), stage);
    MoreBuffered(q, f, stage);
  }

  /** Not having it all, the reader has taken a proper prefix. */
  lemma MoreBuffered(q: Request, f: Flow, stage: Stage)
    requires CreditDue(q, f) && ProgressOf(f.stage.plan, GotAll(f)) == More
    requires stage == f.stage.(got := GotAll(f), holding := None)
    ensures BufferOk(q, f.(acks := f.acks + 1, stage := stage), stage)
  {
    assert GotAll(f) == Feed(q, f.stage.source)[..f.stage.taken];
  }

  lemma CreditEnoughKeeps(q: Request, f: Flow)
    requires CreditDue(q, f) && ProgressOf(f.stage.plan, GotAll(f)) == Enough
    ensures Inv(q, CreditStep(f))
  {
    var stage := StreamFrom(f.stage.source, f.stage.taken, Prefixed(GotAll(f)));
    MoreKept(q, f, CreditStep(f), stage);
    EnoughStreams(q, f, stage);
  }

  /** What was buffered goes ahead of the stream that takes over. */
  lemma EnoughStreams(q: Request, f: Flow, stage: Stage)
    requires CreditDue(q, f) && ProgressOf(f.stage.plan, GotAll(f)) == Enough
    requires stage == StreamFrom(f.stage.source, f.stage.taken, Prefixed(GotAll(f)))
    ensures BridgeOk(q, f.(acks := f.acks + 1, stage := stage), stage)
    ensures YieldOk(Feed(q, stage.source), f.yielded, f.outcome, stage) && LengthOk(q.plan, f.yielded, f.outcome, stage)
  {
    var got := GotAll(f);
    assert got == Feed(q, f.stage.source)[..f.stage.taken];
    assert [] + (Flat(got) + []) == Flat(got);
  }

  /** The credit goes back and nobody reads the server's chunks any more. */
  lemma OverKept(q: Request, f: Flow, g: Flow)
    requires f.stage.Buffering? && f.stage.holding.Some? && WindowOk(q, f) && SocketOk(q, f)
    requires g == WithoutReceiver(f.(acks := f.acks + 1), Over).(yielded := g.yielded, outcome := g.outcome)
    ensures WindowOk(q, g) && SocketOk(q, g)
  {
    assert Unacked(g.stage) == 0 && LocalPending(g.stage) == 0;
    assert InWindow(g) <= InWindow(f);
    KeptWindowOk(q, f, g);
  }

  /** The reader is done with the server's chunks: over the cap, or the body went whole elsewhere. */
  lemma CreditEndsKeeps(q: Request, f: Flow)
    requires CreditDue(q, f)
    requires var p := ProgressOf(f.stage.plan, GotAll(f)); p == TooMuch || (p == Complete && !f.stage.plan.CountFirst?)
    ensures Inv(q, CreditStep(f))
  {
    OverKept(q, f, CreditStep(f));
    EndsBytes(q, f);
    assert BufferOk(q, f, f.stage);
  }

  /** A body that was buffered whole is yielded whole; one over its cap is not yielded. */
  lemma EndsBytes(q: Request, f: Flow)
    requires CreditDue(q, f)
    requires var p := ProgressOf(f.stage.plan, GotAll(f)); p == TooMuch || (p == Complete && !f.stage.plan.CountFirst?)
    ensures CreditStep(f).stage.Over? && BytesOk(q, CreditStep(f))
  {
    if f.stage.holding.value.last {
      LastIsAll(q, f);
      FlatFeed(q, f.stage.source);
    }
  }

  /** The count-first worker starts over on a channel of its own that holds the whole body. */
  lemma CreditAgainKeeps(q: Request, f: Flow)
    requires CreditDue(q, f) && ProgressOf(f.stage.plan, GotAll(f)) == Complete && f.stage.plan.CountFirst?
    ensures Inv(q, CreditStep(f))
  {
    LastIsAll(q, f);
    var g := CreditStep(f);
    assert f.stage.source.Ingress? && GotAll(f) == q.body;
    assert g.queue == [] && LocalPending(g.stage) == 1 && InWindow(g) == InWindow(f);
    assert Flat(Feed(q, g.stage.source)[..0]) == [];
  }

  lemma CreditKeeps(q: Request, f: Flow)
    requires WellFormed(q) && Inv(q, f) && Enabled(q, f, Credit)
    ensures Inv(q, Apply(q, f, Credit))
  {
    match ProgressOf(f.stage.plan, GotAll(f))
    case More => CreditMoreKeeps(q, f);
    case Enough => CreditEnoughKeeps(q, f);
    case TooMuch => CreditEndsKeeps(q, f);
    case Complete =>
      if f.stage.plan.CountFirst? {
        CreditAgainKeeps(q, f);
      } else {
        CreditEndsKeeps(q, f);
      }
  }

  lemma FlatSnoc(chunks: seq<Chunk>, n: nat)
    requires n < |chunks|
    ensures Flat(chunks[..n + 1]) == Flat(chunks[..n]) + chunks[n].data
  {
    FlatAppend(chunks[..n], chunks[n]);
    assert chunks[..n] + [chunks[n]] == chunks[..n + 1];
  }

  lemma HandOverKeepsYield(feed: seq<Chunk>, yielded: seq<byte>, outcome: Outcome, stage: Stage)
    requires stage.Streaming? && YieldOk(feed, yielded, outcome, stage)
    requires stage.bridge.Holding? && stage.slot.None? && stage.handed < |feed| && stage.bridge.chunk == feed[stage.handed]
    ensures YieldOk(feed, yielded, outcome, HandedOver(stage))
  {
    FlatSnoc(feed, stage.handed);
    assert yielded + Ahead(HandedOver(stage)) == (yielded + Ahead(stage)) + stage.bridge.chunk.data;
  }

  lemma HandOverKeeps(q: Request, f: Flow)
    requires WellFormed(q) && Inv(q, f) && Enabled(q, f, HandOver)
    ensures Inv(q, Apply(q, f, HandOver))
  {
    HandOverKeepsYield(Feed(q, f.stage.source), f.yielded, f.outcome, f.stage);
    KeptWindowOk(q, f, Apply(q, f, HandOver));
  }

  lemma AckKeeps(q: Request, f: Flow)
    requires WellFormed(q) && Inv(q, f) && Enabled(q, f, Ack)
    ensures Inv(q, Apply(q, f, Ack))
  {
    var feed := Feed(q, f.stage.source);
    var g := Apply(q, f, Ack);
    assert YieldOk(feed, g.yielded, g.outcome, g.stage);
    if f.stage.bridge.last {
      assert f.stage.handed == |feed|;
    } else {
      assert f.stage.handed < |feed|;
    }
    KeptWindowOk(q, f, g);
  }

  lemma StopKeeps(q: Request, f: Flow)
    requires WellFormed(q) && Inv(q, f) && Enabled(q, f, Stop)
    ensures Inv(q, Apply(q, f, Stop))
  {
    KeptWindowOk(q, f, Apply(q, f, Stop));
  }

  lemma DropKeeps(q: Request, f: Flow)
    requires WellFormed(q) && Inv(q, f) && Enabled(q, f, DropBody)
    ensures Inv(q, Apply(q, f, DropBody))
  {
    KeptWindowOk(q, f, Apply(q, f, DropBody));
  }

  /** A poll touches only the adapters and the slot, which it may empty. */
  lemma PollFrame(stage: Stage)
    requires stage.Streaming?
    ensures var after := PollStage(stage).0;
            && after.Streaming?
            && after == stage.(state := after.state, slot := after.slot, wrapper := after.wrapper)
            && (after.slot == stage.slot || after.slot.None?)
  {
  }

  lemma PollKeepsWindow(q: Request, f: Flow)
    requires WindowOk(q, f) && SocketOk(q, f) && f.stage.Streaming? && BridgeOk(q, f, f.stage)
    ensures WindowOk(q, PollStep(f)) && SocketOk(q, PollStep(f)) && PollStep(f).stage.Streaming?
    ensures BridgeOk(q, PollStep(f), PollStep(f).stage)
  {
    PollFrame(f.stage);
    var g := PollStep(f);
    assert Unacked(g.stage) == Unacked(f.stage) && LocalPending(g.stage) == LocalPending(f.stage);
    KeptWindowOk(q, f, g);
  }

  lemma PollKeepsLength(plan: Plan, yielded: seq<byte>, outcome: Outcome, stage: Stage)
    requires stage.Streaming? && LengthOk(plan, yielded, outcome, stage)
    ensures var (after, p) := PollStage(stage);
            LengthOk(plan, Yielded(yielded, p), OutcomeAfter(outcome, p), after)
  {
  }

  lemma {:induction false} FlatHead(chunks: seq<Chunk>)
    requires chunks != []
    ensures Flat(chunks) == chunks[0].data + Flat(chunks[1..])
  {
    if |chunks| == 1 {
      assert chunks == [] + [chunks[0]];
      FlatAppend([], chunks[0]);
    } else {
      var front, c := chunks[..|chunks| - 1], chunks[|chunks| - 1];
      FlatHead(front);
      FlatAppend(front[1..], c);
      assert chunks[1..] == front[1..] + [c];
      assert front[0].data + Flat(front[1..]) + c.data == front[0].data + (Flat(front[1..]) + c.data);
    }
  }

  predicate LastAtEnd(feed: seq<Chunk>) {
    forall i :: 0 <= i < |feed| ==> (feed[i].last <==> i == |feed| - 1)
  }

  lemma PollPrefixKeepsYield(feed: seq<Chunk>, yielded: seq<byte>, outcome: Outcome, stage: Stage)
    requires stage.Streaming? && YieldOk(feed, yielded, outcome, stage)
    requires stage.wrapper.Prefixed? && stage.wrapper.prefix != []
    ensures var (after, p) := PollStage(stage);
            YieldOk(feed, Yielded(yielded, p), OutcomeAfter(outcome, p), after)
  {
    var (after, p) := PollStage(stage);
    FlatHead(stage.wrapper.prefix);
    assert yielded + Ahead(stage) == Yielded(yielded, p) + Ahead(after);
  }

  lemma PollKeepsYield(feed: seq<Chunk>, yielded: seq<byte>, outcome: Outcome, stage: Stage)
    requires stage.Streaming? && YieldOk(feed, yielded, outcome, stage) && LastAtEnd(feed)
    requires stage.slot.Some? ==> stage.handed > 0 && stage.slot.value == feed[stage.handed - 1]
    requires stage.wrapper.Prefixed? ==> stage.wrapper.prefix == []
    requires stage.wrapper.Lengthed? ==> (stage.wrapper.exact.done <==> outcome != NoEnd)
    ensures var (after, p) := PollStage(stage);
            YieldOk(feed, Yielded(yielded, p), OutcomeAfter(outcome, p), after)
  {
    var (after, p) := PollStage(stage);
    if stage.state == Open && stage.slot.Some? {
      assert after == stage || (Ahead(stage) == stage.slot.value.data && Ahead(after) == []);
      assert p.Yield? ==> Yielded(yielded, p) + Ahead(after) == yielded + Ahead(stage);
    }
  }

  /** What the stream has yielded is a prefix of the body, and all of it at a clean end. */
  lemma YieldGivesBytes(q: Request, source: Source, yielded: seq<byte>, outcome: Outcome, stage: Stage)
    requires stage.Streaming? && stage.consumer && YieldOk(Feed(q, source), yielded, outcome, stage) && outcome != Failed
    ensures yielded <= Flat(q.body)
    ensures outcome == Clean ==> yielded == Flat(q.body)
  {
    var feed := Feed(q, source);
    FlatFeed(q, source);
    FlatTake(feed, stage.handed);
    if outcome == Clean {
      assert Ahead(stage) == [];
      assert feed[..|feed|] == feed;
    }
  }

  lemma {:induction false} FlatTake(chunks: seq<Chunk>, n: nat)
    requires n <= |chunks|
    ensures Flat(chunks[..n]) <= Flat(chunks)
  {
    if n == |chunks| {
      assert chunks[..n] == chunks;
    } else {
      var front := chunks[..|chunks| - 1];
      FlatTake(front, n);
      assert front[..n] == chunks[..n];
      assert Flat(front) <= Flat(chunks);
    }
  }

  lemma PollKeeps(q: Request, f: Flow)
    requires WellFormed(q) && Inv(q, f) && Enabled(q, f, PollBody)
    ensures Inv(q, Apply(q, f, PollBody))
  {
    var feed, stage := Feed(q, f.stage.source), f.stage;
    PollFrame(stage);
    PollKeepsWindow(q, f);
    PollKeepsLength(q.plan, f.yielded, f.outcome, stage);
    if stage.wrapper.Prefixed? && stage.wrapper.prefix != [] {
      PollPrefixKeepsYield(feed, f.yielded, f.outcome, stage);
    } else {
      PollKeepsYield(feed, f.yielded, f.outcome, stage);
    }
    PollKeepsBytes(q, f);
  }

  /** A poll that fails yields nothing; any other leaves a prefix of the body. */
  lemma PollKeepsBytes(q: Request, f: Flow)
    requires BytesOk(q, f) && Enabled(q, f, PollBody)
    requires YieldOk(Feed(q, f.stage.source), f.yielded, f.outcome, f.stage)
    requires LengthOk(q.plan, f.yielded, f.outcome, f.stage)
    requires var g := PollStep(f);
             g.stage.Streaming? && g.stage.consumer && g.stage.source == f.stage.source
             && YieldOk(Feed(q, f.stage.source), g.yielded, g.outcome, g.stage)
    ensures BytesOk(q, PollStep(f))
  {
    var g := PollStep(f);
    if g.outcome != Failed {
      YieldGivesBytes(q, f.stage.source, g.yielded, g.outcome, g.stage);
    } else {
      assert g.yielded == f.yielded;
    }
  }

  lemma StepKeepsInv(q: Request, f: Flow, step: Step)
    requires WellFormed(q) && Inv(q, f) && Enabled(q, f, step)
    ensures Inv(q, Apply(q, f, step))
  {
    match step
    case Send => SendKeeps(q, f);
    case Deliver => DeliverKeeps(q, f);
    case AckArrives => SettleKeeps(q, f, step);
    case AckLost => SettleKeeps(q, f, step);
    case Retire => SettleKeeps(q, f, step);
    case Take => TakeKeeps(q, f);
    case Credit => CreditKeeps(q, f);
    case HandOver => HandOverKeeps(q, f);
    case Ack => AckKeeps(q, f);
    case Stop => StopKeeps(q, f);
    case PollBody => PollKeeps(q, f);
    case DropBody => DropKeeps(q, f);
  }
}
