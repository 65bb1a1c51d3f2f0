/**
One relayed request body from the server's credits to the upstream request
(`apps/cli/src/daemon.rs`): the credit window, the websocket, the bounded ingress
queue, the bridge thread or the buffering reader, the one-slot handoff, the stream
adapters, and the acknowledgements on their way back.

The threads, the socket and the HTTP client interleave freely; each step below is
one thing one of them does.
*/
module BodyMachine {
  import opened Common
  import opened BodyStreams

  /** How the worker reads the body. */
  datatype Plan =
    | Sized(length: nat)                     // a declared length: stream it
    | Unsized(cap: nat)                      // buffer up to a cap, stream the rest
    | Expand(cap: nat)                       // buffer it whole and rewrite it
    | CountFirst(cap: nat, expand: Option<nat>)  // buffer it whole, count, then forward the buffer

  /** The request as the server sends it: `window` credits and the chunks of its body. */
  datatype Request = Request(window: nat, body: seq<Chunk>, plan: Plan)

  predicate WellFormed(q: Request) {
    && q.window >= 1
    && |q.body| >= 1
    && forall i :: 0 <= i < |q.body| ==> (q.body[i].last <==> i == |q.body| - 1)
  }

  /** Where chunks come from: the ingress queue, or the count-first worker's own channel. */
  datatype Source = Ingress | Local(pending: seq<Chunk>)

  datatype Bridge =
    | Idle
    | Holding(chunk: Chunk)   // received, not handed over
    | Acking(last: bool)      // handed over, credit not returned
    | Gone

  datatype Wrapper = Lengthed(exact: Exact) | Prefixed(prefix: seq<Chunk>)

  /** `taken` and `handed` count the chunks that left the source and reached the handoff. */
  datatype Stage =
    | Buffering(plan: Plan, source: Source, taken: nat, got: seq<Chunk>, holding: Option<Chunk>)
    | Streaming(source: Source, taken: nat, handed: nat, bridge: Bridge, slot: Option<Chunk>,
                state: BodyState, wrapper: Wrapper, consumer: bool)
    | Over

  /** How the upstream body ended, as its first end was reported. */
  datatype Outcome = NoEnd | Clean | Failed

  datatype Flow = Flow(
    sent: nat,            // chunks the server has sent
    credits: nat,         // what the server may still send
    down: seq<Chunk>,     // on the socket to the node
    arrived: nat,         // chunks the ingress queue accepted
    queue: seq<Chunk>,    // the ingress queue
    acks: nat,            // credits on their way back
    stage: Stage,
    live: bool,           // the request is in the live table
    faulted: bool,        // answered with the over-credit protocol error
    yielded: seq<byte>,   // what the upstream request was given
    outcome: Outcome)

  function StreamFrom(source: Source, taken: nat, wrapper: Wrapper): Stage {
    Streaming(source, taken, taken, Idle, None, Open, wrapper, true)
  }

  function FirstStage(plan: Plan): Stage {
    match plan
    case Sized(length) => StreamFrom(Ingress, 0, Lengthed(Exact(length, 0, false)))
    case _ => Buffering(plan, Ingress, 0, [], None)
  }

  function Initial(q: Request): Flow {
    Flow(0, q.window, [], 0, [], 0, FirstStage(q.plan), true, false, [], NoEnd)
  }

  // ------------------------------------------------------------------- steps

  datatype Step =
    | Send        // the server sends the next chunk on a credit
    | Deliver     // the main loop routes a chunk (`handle_binary`, `deliver_body_chunk`)
    | AckArrives  // the server gets a credit back
    | AckLost     // an acknowledgement of a retired request is suppressed
    | Retire      // cancelled, faulted or finished
    | Take        // the reader receives a chunk
    | Credit      // a buffering reader returns the credit and looks at what it has
    | HandOver    // the bridge's `blocking_send`
    | Ack         // the bridge returns the credit
    | Stop        // the reader gives up (cancelled, disconnected, or a channel is gone)
    | PollBody    // the HTTP client polls the body
    | DropBody    // the HTTP client drops the body

  /** Someone still receives from the ingress queue. */
  predicate Receiving(stage: Stage) {
    match stage
    case Buffering(_, source, _, _, _) => source.Ingress?
    case Streaming(source, _, _, bridge, _, _, _, _) => source.Ingress? && !bridge.Gone?
    case Over => false
  }

  function SourceHead(f: Flow, source: Source): Option<Chunk> {
    match source
    case Ingress => if f.queue == [] then None else Some(f.queue[0])
    case Local(pending) => if pending == [] then None else Some(pending[0])
  }

  predicate Enabled(q: Request, f: Flow, step: Step) {
    match step
    case Send => f.credits > 0 && f.sent < |q.body|
    case Deliver => f.down != []
    case AckArrives => f.acks > 0
    case AckLost => f.acks > 0 && !f.live
    case Retire => true
    case Take =>
      || (f.stage.Buffering? && f.stage.holding.None? && SourceHead(f, f.stage.source).Some?)
      || (f.stage.Streaming? && f.stage.bridge.Idle? && SourceHead(f, f.stage.source).Some?)
    case Credit => f.stage.Buffering? && f.stage.holding.Some?
    case HandOver => f.stage.Streaming? && f.stage.bridge.Holding? && f.stage.consumer && f.stage.slot.None?
    case Ack => f.stage.Streaming? && f.stage.bridge.Acking?
    case Stop => !f.stage.Over?
    case PollBody => f.stage.Streaming? && f.stage.consumer
    case DropBody => f.stage.Streaming? && f.stage.consumer
  }

  /** The reader lets go of its receiver: what was queued for it is gone. */
  function WithoutReceiver(f: Flow, stage: Stage): Flow {
    f.(stage := stage, queue := if Receiving(f.stage) then [] else f.queue)
  }

  function Drop(f: Flow): Flow
    requires f.down != []
  {
    f.(down := f.down[1..])
  }

  function DeliverStep(q: Request, f: Flow): Flow
    requires f.down != []
  {
    if !f.live || !Receiving(f.stage) then Drop(f)
    else if |f.queue| >= q.window then Drop(f).(faulted := true, live := false)
    else Drop(f).(queue := f.queue + [f.down[0]], arrived := f.arrived + 1)
  }

  /** The source without the chunk just taken. */
  function TakeFrom(f: Flow, stage: Stage): Flow
    requires stage.Buffering? || stage.Streaming?
    requires SourceHead(f, stage.source).Some?
  {
    match stage.source
    case Ingress => f.(queue := f.queue[1..], stage := stage.(taken := stage.taken + 1))
    case Local(pending) => f.(stage := stage.(taken := stage.taken + 1, source := Local(pending[1..])))
  }

  function TakeStep(f: Flow): Flow
    requires f.stage.Buffering? || f.stage.Streaming?
    requires SourceHead(f, f.stage.source).Some?
  {
    var chunk := SourceHead(f, f.stage.source).value;
    if f.stage.Buffering? then TakeFrom(f, f.stage.(holding := Some(chunk)))
    else TakeFrom(f, f.stage.(bridge := Holding(chunk)))
  }

  /** What a buffering reader does once it has the whole of `got`. */
  function AfterBuffer(f: Flow, plan: Plan, got: seq<Chunk>): Flow {
    match plan
    case Unsized(_) => WithoutReceiver(f, Over).(yielded := Flat(got), outcome := Clean)
    case CountFirst(_, expand) =>
      var again := Local([Chunk(Flat(got), true)]);
      WithoutReceiver(f,
        if expand.Some? then Buffering(Expand(expand.value), again, 0, [], None)
        else StreamFrom(again, 0, Lengthed(Exact(|Flat(got)|, 0, false))))
    case _ => WithoutReceiver(f, Over)
  }

  function ProgressOf(plan: Plan, got: seq<Chunk>): Progress
    requires got != []
  {
    match plan
    case Sized(_) => More
    case Unsized(cap) => PrefixProgress(got, cap)
    case Expand(cap) => CollectProgress(got, cap)
    case CountFirst(cap, _) => CollectProgress(got, cap)
  }

  function CreditStep(f: Flow): Flow
    requires f.stage.Buffering? && f.stage.holding.Some?
  {
    var g := f.(acks := f.acks + 1);
    var got := f.stage.got + [f.stage.holding.value];
    match ProgressOf(f.stage.plan, got)
    case More => g.(stage := f.stage.(got := got, holding := None))
    case Complete => AfterBuffer(g, f.stage.plan, got)
    case Enough => g.(stage := StreamFrom(f.stage.source, f.stage.taken, Prefixed(got)))
    case TooMuch => WithoutReceiver(g, Over)
  }

  /** What polling the handoff channel answers now. */
  function Answer(stage: Stage): Recv
    requires stage.Streaming?
  {
    if stage.slot.Some? then Received(stage.slot.value)
    else if stage.bridge.Gone? then ChannelClosed
    else NotReady
  }

  /** What one poll of the body does to the adapters, and what it answers. */
  function PollStage(stage: Stage): (Stage, Poll)
    requires stage.Streaming?
  {
    var (state, inner) := TokioPoll(stage.state, Answer(stage));
    var slot := if stage.state == Open then None else stage.slot;
    match stage.wrapper
    case Prefixed(prefix) =>
      if prefix != [] then (stage.(wrapper := Prefixed(prefix[1..])), Yield(prefix[0].data))
      else (stage.(state := state, slot := slot), inner)
    case Lengthed(exact) =>
      if exact.done then (stage, End)
      else
        var (after, p) := ExactPoll(exact, inner);
        (stage.(state := state, slot := slot, wrapper := Lengthed(after)), p)
  }

  function Yielded(yielded: seq<byte>, p: Poll): seq<byte> {
    if p.Yield? then yielded + p.data else yielded
  }

  /** The first end counts. */
  function OutcomeAfter(outcome: Outcome, p: Poll): Outcome {
    if outcome != NoEnd then outcome
    else match p
      case Fail(_) => Failed
      case End => Clean
      case _ => NoEnd
  }

  function PollStep(f: Flow): Flow
    requires f.stage.Streaming?
  {
    var (stage, p) := PollStage(f.stage);
    f.(stage := stage, yielded := Yielded(f.yielded, p), outcome := OutcomeAfter(f.outcome, p))
  }

  function HandedOver(stage: Stage): Stage
    requires stage.Streaming? && stage.bridge.Holding?
  {
    stage.(slot := Some(stage.bridge.chunk), handed := stage.handed + 1, bridge := Acking(stage.bridge.chunk.last))
  }

  function Apply(q: Request, f: Flow, step: Step): Flow
    requires Enabled(q, f, step)
  {
    match step
    case Send => f.(sent := f.sent + 1, credits := f.credits - 1, down := f.down + [q.body[f.sent]])
    case Deliver => DeliverStep(q, f)
    case AckArrives => f.(acks := f.acks - 1, credits := Min(f.credits + 1, q.window))
    case AckLost => f.(acks := f.acks - 1)
    case Retire => f.(live := false)
    case Take => TakeStep(f)
    case Credit => CreditStep(f)
    case HandOver =>
      f.(stage := HandedOver(f.stage))
    case Ack =>
      if f.stage.bridge.last then
        WithoutReceiver(f.(acks := f.acks + 1), f.stage.(bridge := Gone))
      else
        f.(acks := f.acks + 1, stage := f.stage.(bridge := Idle))
    case Stop =>
      if f.stage.Streaming? then WithoutReceiver(f, f.stage.(bridge := Gone))
      else WithoutReceiver(f, Over)
    case PollBody => PollStep(f)
    case DropBody => f.(stage := f.stage.(consumer := false, slot := None))
  }

  predicate Next(q: Request, f: Flow, g: Flow, step: Step) { Enabled(q, f, step) && g == Apply(q, f, step) }

  ghost predicate Behaviour(q: Request, b: seq<Flow>, steps: seq<Step>) {
    && WellFormed(q)
    && |b| == |steps| + 1
    && b[0] == Initial(q)
    && forall i {:trigger steps[i]} :: 0 <= i < |steps| ==> Next(q, b[i], b[i + 1], steps[i])
  }

  // ------------------------------------------------------------- the window

  /** Chunks the reader took and has not returned the credit of. */
  function Unacked(stage: Stage): nat {
    match stage
    case Buffering(_, _, _, _, holding) => Bit(holding.Some?)
    case Streaming(_, _, _, bridge, _, _, _, _) => Bit(bridge.Holding? || bridge.Acking?)
    case Over => 0
  }

  /** Credits a count-first worker will return for its own, second, channel. */
  function LocalPending(stage: Stage): nat {
    if (stage.Buffering? || stage.Streaming?) && stage.source.Local? then |stage.source.pending| else 0
  }

  function InWindow(f: Flow): nat {
    f.credits + |f.down| + |f.queue| + Unacked(f.stage) + f.acks
  }

  /** Every chunk has been sent and taken. */
  predicate AllIn(q: Request, f: Flow) { f.sent == |q.body| && f.down == [] && f.queue == [] }

  /** Nothing was dropped and the reader still reads the server's chunks. */
  predicate Intact(f: Flow) { f.live && Receiving(f.stage) }

  ghost predicate WindowOk(q: Request, f: Flow) {
    && !f.faulted
    && f.sent <= |q.body|
    && (Intact(f) ==> InWindow(f) == q.window)
    && (InWindow(f) <= q.window || (AllIn(q, f) && InWindow(f) + LocalPending(f.stage) <= q.window + 1))
    && (if Receiving(f.stage) then InWindow(f) <= q.window else f.queue == [])
    && (LocalPending(f.stage) > 0 ==>
          AllIn(q, f) && InWindow(f) + LocalPending(f.stage) <= q.window + 1 && q.plan.CountFirst?)
    && (InWindow(f) > q.window ==> q.plan.CountFirst?)
  }

  // ---------------------------------------------------------- order and bytes

  /** The chunks a source hands out over its whole life. */
  function Feed(q: Request, source: Source): seq<Chunk> {
    if source.Ingress? then q.body else [Chunk(Flat(q.body), true)]
  }

  predicate SourceOk(q: Request, f: Flow, source: Source, taken: nat) {
    && taken <= |Feed(q, source)|
    && match source
       case Ingress => taken <= f.arrived <= |q.body| && f.queue == q.body[taken..f.arrived]
       case Local(pending) => pending == Feed(q, source)[taken..]
  }

  /** The socket is FIFO, and what it has delivered the queue accepted, until something is dropped. */
  ghost predicate SocketOk(q: Request, f: Flow) {
    && |f.down| <= f.sent <= |q.body|
    && f.down == q.body[f.sent - |f.down|..f.sent]
    && f.arrived <= f.sent - |f.down|
    && (Intact(f) ==> f.arrived == f.sent - |f.down|)
  }

  predicate BufferOk(q: Request, f: Flow, stage: Stage)
    requires stage.Buffering?
  {
    var feed := Feed(q, stage.source);
    && SourceOk(q, f, stage.source, stage.taken)
    && stage.taken == |stage.got| + Bit(stage.holding.Some?)
    && |stage.got| < |feed| && stage.got == feed[..|stage.got|]
    && (stage.holding.Some? ==> stage.holding.value == feed[stage.taken - 1])
    && !stage.plan.Sized? && !q.plan.Sized?
    && (if stage.source.Local? then stage.plan.Expand? else stage.plan == q.plan)
    && f.yielded == [] && f.outcome == NoEnd
  }

  predicate BridgeOk(q: Request, f: Flow, stage: Stage)
    requires stage.Streaming?
  {
    var feed := Feed(q, stage.source);
    && stage.handed <= |feed|
    && (!stage.bridge.Gone? ==> SourceOk(q, f, stage.source, stage.taken))
    && (stage.bridge.Idle? ==> stage.taken == stage.handed < |feed|)
    && (stage.bridge.Holding? ==> stage.taken == stage.handed + 1 && stage.bridge.chunk == feed[stage.handed])
    && (stage.bridge.Acking? ==> stage.taken == stage.handed > 0 && stage.bridge.last == feed[stage.handed - 1].last)
    && (stage.slot.Some? ==> stage.handed > 0 && stage.slot.value == feed[stage.handed - 1])
  }

  /** What the HTTP client can still get from what was handed over. */
  function Ahead(stage: Stage): seq<byte>
    requires stage.Streaming?
  {
    (if stage.wrapper.Prefixed? then Flat(stage.wrapper.prefix) else [])
    + (if stage.slot.Some? then stage.slot.value.data else [])
  }

  predicate YieldOk(feed: seq<Chunk>, yielded: seq<byte>, outcome: Outcome, stage: Stage)
    requires stage.Streaming?
  {
    && stage.handed <= |feed|
    && (stage.consumer && outcome != Failed ==> yielded + Ahead(stage) == Flat(feed[..stage.handed]))
    && (stage.state == Ended ==> stage.handed == |feed| && stage.slot.None?
                                 && (stage.wrapper.Prefixed? ==> stage.wrapper.prefix == []))
    && (stage.state == Truncated ==> outcome == Failed)
    && (outcome == Clean ==> stage.state == Ended)
    && (outcome == Failed && stage.wrapper.Prefixed? ==> stage.state == Truncated && stage.wrapper.prefix == [])
  }

  /** A declared length bounds what is yielded, and a clean end is exactly that much. */
  predicate LengthOk(plan: Plan, yielded: seq<byte>, outcome: Outcome, stage: Stage)
    requires stage.Streaming?
  {
    && (plan.Sized? ==> stage.wrapper.Lengthed? && stage.wrapper.exact.length == plan.length)
    && (stage.wrapper.Lengthed? ==>
          var x := stage.wrapper.exact;
          && (x.done <==> outcome != NoEnd)
          && |yielded| <= x.length
          && (!x.done ==> x.sent == |yielded|)
          && (outcome == Clean ==> |yielded| == x.length))
  }

  ghost predicate StageOk(q: Request, f: Flow) {
    match f.stage
    case Buffering(_, _, _, _, _) => BufferOk(q, f, f.stage)
    case Streaming(source, _, _, _, _, _, _, _) =>
      && BridgeOk(q, f, f.stage)
      && YieldOk(Feed(q, source), f.yielded, f.outcome, f.stage)
      && LengthOk(q.plan, f.yielded, f.outcome, f.stage)
    case Over => !q.plan.Sized?
  }

  predicate IsPrefix(a: seq<byte>, b: seq<byte>) { a <= b }

  ghost predicate BytesOk(q: Request, f: Flow) {
    && IsPrefix(f.yielded, Flat(q.body))
    && (f.outcome == Clean ==> f.yielded == Flat(q.body))
  }

  ghost predicate Inv(q: Request, f: Flow) {
    WindowOk(q, f) && SocketOk(q, f) && StageOk(q, f) && BytesOk(q, f)
  }
}
