/**
The request-body readers and stream adapters of `apps/cli/src/daemon.rs`:
`TokioBodyStream`, `ExactLengthBody`, `PrefixedBody`, `buffer_body_prefix` and
`collect_request_body`.

What a channel answers when it is polled is an input of each poll.
*/
module BodyStreams {
  import opened Common

  /** A body chunk; the end of the body rides in band with the last one. */
  datatype Chunk = Chunk(data: seq<byte>, last: bool)

  /** The bytes of a run of chunks. */
  function Flat(chunks: seq<Chunk>): seq<byte> {
    if chunks == [] then [] else Flat(chunks[..|chunks| - 1]) + chunks[|chunks| - 1].data
  }

  lemma FlatAppend(chunks: seq<Chunk>, c: Chunk)
    ensures Flat(chunks + [c]) == Flat(chunks) + c.data
  {
    assert (chunks + [c])[..|chunks|] == chunks;
  }

  /** What polling the channel behind a stream answers. */
  datatype Recv = NotReady | Received(chunk: Chunk) | ChannelClosed

  datatype StreamError = BrokenPipe | LengthMismatch

  datatype Poll = Pending | Yield(data: seq<byte>) | Fail(error: StreamError) | End

  datatype BodyState = Open | Ended | Truncated

  /** A poll of the channel stream: an end before the last chunk is an error, never an EOF. */
  function TokioPoll(state: BodyState, recv: Recv): (BodyState, Poll) {
    if state != Open then (state, End)
    else match recv
      case NotReady => (Open, Pending)
      case Received(chunk) => (if chunk.last then Ended else Open, Yield(chunk.data))
      case ChannelClosed => (Truncated, Fail(BrokenPipe))
  }

  class TokioBodyStream {
    var state: BodyState

    constructor ()
      ensures state == Open
    {
      state := Open;
    }

    /** `recv` is what `poll_recv` answers, when it is asked. */
    method PollNext(recv: Recv) returns (p: Poll)
      modifies this
      ensures (state, p) == TokioPoll(old(state), recv)
    {
      if state != Open {
        return End;
      }
      match recv
      case NotReady => p := Pending;
      case Received(chunk) =>
        if chunk.last {
          state := Ended;
        }
        p := Yield(chunk.data);
      case ChannelClosed =>
        state := Truncated;
        p := Fail(BrokenPipe);
    }
  }

  // ----------------------------------------------------------- exact length

  datatype Exact = Exact(length: nat, sent: nat, done: bool)

  /** What an exact-length body makes of its inner stream's poll. */
  function ExactPoll(x: Exact, inner: Poll): (Exact, Poll) {
    if x.done then (x, End)
    else match inner
      case Pending => (x, Pending)
      case Yield(data) =>
        if x.sent + |data| > x.length then (x.(sent := x.sent + |data|, done := true), Fail(LengthMismatch))
        else (x.(sent := x.sent + |data|), Yield(data))
      case Fail(error) => (x.(done := true), Fail(error))
      case End =>
        if x.sent != x.length then (x.(done := true), Fail(LengthMismatch))
        else (x.(done := true), End)
  }

  class ExactLengthBody {
    const inner: TokioBodyStream
    const length: nat
    var sent: nat
    var done: bool

    function Value(): Exact reads this { Exact(length, sent, done) }

    constructor (inner: TokioBodyStream, length: nat)
      ensures this.inner == inner && Value() == Exact(length, 0, false)
    {
      this.inner := inner;
      this.length := length;
      sent, done := 0, false;
    }

    /** A body that is done no longer polls its inner stream. */
    method PollNext(recv: Recv) returns (p: Poll)
      modifies this, inner
      ensures (Value(), p) == ExactPoll(old(Value()), TokioPoll(old(inner.state), recv).1)
      ensures inner.state == if old(done) then old(inner.state) else TokioPoll(old(inner.state), recv).0
    {
      if done {
        return End;
      }
      var item := inner.PollNext(recv);
      match item {
        case Pending => return Pending;
        case Yield(data) =>
          sent := sent + |data|;
          if sent <= length {
            return Yield(data);
          }
          p := Fail(LengthMismatch);
        case Fail(error) => p := Fail(error);
        case End => p := if sent == length then End else Fail(LengthMismatch);
      }
      done := true;
    }
  }

  // --------------------------------------------------------- prefixed bodies

  class PrefixedBody {
    var prefix: seq<seq<byte>>
    const rest: TokioBodyStream

    constructor (prefix: seq<seq<byte>>, rest: TokioBodyStream)
      ensures this.prefix == prefix && this.rest == rest
    {
      this.prefix := prefix;
      this.rest := rest;
    }

    /** The chunks already read first, then the rest of the stream. */
    method PollNext(recv: Recv) returns (p: Poll)
      modifies this, rest
      ensures old(prefix) != [] ==> p == Yield(old(prefix)[0]) && prefix == old(prefix)[1..] && rest.state == old(rest.state)
      ensures old(prefix) == [] ==> prefix == [] && (rest.state, p) == TokioPoll(old(rest.state), recv)
    {
      if prefix != [] {
        p := Yield(prefix[0]);
        prefix := prefix[1..];
        return;
      }
      p := rest.PollNext(recv);
    }
  }

  // -------------------------------------------------------- buffering readers

  datatype BufferedBody = Whole(raw: seq<byte>) | Prefix(chunks: seq<Chunk>) | Aborted

  /** Where a buffering reader stands after taking one more chunk and returning its credit. */
  datatype Progress = More | Complete | Enough | TooMuch

  /** `buffer_body_prefix`: the chunk is kept, then the end and the cap are looked at. */
  function PrefixProgress(got: seq<Chunk>, cap: nat): Progress
    requires got != []
  {
    if got[|got| - 1].last then Complete
    else if |Flat(got)| > cap then Enough
    else More
  }

  /** `collect_request_body`: a chunk that would pass the cap refuses the body, last or not. */
  function CollectProgress(got: seq<Chunk>, cap: nat): Progress
    requires got != []
  {
    if |Flat(got)| > cap then TooMuch
    else if got[|got| - 1].last then Complete
    else More
  }

  /** The first `n` chunks end neither the body nor the reading: no end in the last of them, all within the cap. */
  predicate Unfinished(arrivals: seq<Chunk>, n: nat, cap: nat)
    requires n <= |arrivals|
  {
    n > 0 ==> !arrivals[n - 1].last && |Flat(arrivals[..n])| <= cap
  }

  /** Reading goes on after a chunk, in either way of buffering, exactly when nothing is finished. */
  lemma MoreIff(arrivals: seq<Chunk>, n: nat, cap: nat)
    requires 0 < n <= |arrivals|
    ensures PrefixProgress(arrivals[..n], cap) == More <==> Unfinished(arrivals, n, cap)
    ensures CollectProgress(arrivals[..n], cap) == More <==> Unfinished(arrivals, n, cap)
    ensures PrefixProgress(arrivals[..n], cap) == Complete <==> arrivals[n - 1].last
    ensures CollectProgress(arrivals[..n], cap) == TooMuch <==> |Flat(arrivals[..n])| > cap
  {
  }

  /** `credits` chunks were taken and nothing finished before the last of them. */
  ghost predicate ReadOn(arrivals: seq<Chunk>, accepted: nat, cap: nat, credits: nat) {
    && credits <= |arrivals| && credits <= accepted
    && forall n: nat :: n < credits ==> Unfinished(arrivals, n, cap)
  }

  /** What `buffer_body_prefix` returns: the whole body, a first part over the cap, or nothing when cut off. */
  ghost predicate BufferedAs(arrivals: seq<Chunk>, accepted: nat, cap: nat, b: BufferedBody, credits: nat) {
    && ReadOn(arrivals, accepted, cap, credits)
    && match b
       case Whole(raw) => credits > 0 && arrivals[credits - 1].last && raw == Flat(arrivals[..credits])
       case Prefix(chunks) =>
         credits > 0 && !arrivals[credits - 1].last && |Flat(arrivals[..credits])| > cap && chunks == arrivals[..credits]
       case Aborted => credits == Min(|arrivals|, accepted) && Unfinished(arrivals, credits, cap)
  }

  /** The body ends at chunk `n`, which comes with a credit to spare, and what comes before it is within the cap. */
  ghost predicate EndsAt(arrivals: seq<Chunk>, accepted: nat, cap: nat, n: nat) {
    && 0 < n <= |arrivals| && n <= accepted && arrivals[n - 1].last
    && forall m: nat :: m < n ==> Unfinished(arrivals, m, cap)
  }

  /** A prefix is what first passes the cap, and a body within it is always whole. */
  lemma WithinCapIsWhole(arrivals: seq<Chunk>, accepted: nat, cap: nat, b: BufferedBody, credits: nat)
    requires BufferedAs(arrivals, accepted, cap, b, credits)
    ensures b.Prefix? ==> |Flat(b.chunks)| > cap >= |Flat(b.chunks[..|b.chunks| - 1])|
    ensures forall n: nat :: EndsAt(arrivals, accepted, cap, n) ==> credits == n && b == Whole(Flat(arrivals[..n]))
  {
    if b.Prefix? {
      assert b.chunks[..credits - 1] == arrivals[..credits - 1];
      assert Unfinished(arrivals, credits - 1, cap);
    }
    forall n: nat | EndsAt(arrivals, accepted, cap, n) ensures credits == n { SameEnd(arrivals, accepted, cap, credits, n); }
  }

  /** Reading does not go past an end within the cap. */
  lemma SameEnd(arrivals: seq<Chunk>, accepted: nat, cap: nat, credits: nat, n: nat)
    requires ReadOn(arrivals, accepted, cap, credits) && EndsAt(arrivals, accepted, cap, n)
    ensures credits <= n
    ensures credits == Min(|arrivals|, accepted) || !Unfinished(arrivals, credits, cap) ==> credits == n
  {
    assert n < credits ==> Unfinished(arrivals, n, cap);
    assert credits < n ==> Unfinished(arrivals, credits, cap);
  }

  /**
  `buffer_body_prefix`. `arrivals` are the chunks the channel hands over before it
  closes, and `accepted` is how many credits the outbound channel still takes. One
  credit goes back for every chunk that is taken, before anything else is decided.
  */
  method BufferBodyPrefix(arrivals: seq<Chunk>, accepted: nat, cap: nat) returns (b: BufferedBody, credits: nat)
    ensures BufferedAs(arrivals, accepted, cap, b, credits)
    ensures b.Prefix? ==> |Flat(b.chunks)| > cap >= |Flat(b.chunks[..|b.chunks| - 1])|
    ensures forall n: nat :: EndsAt(arrivals, accepted, cap, n) ==> credits == n && b == Whole(Flat(arrivals[..n]))
  {
    b, credits := ReadPrefix(arrivals, accepted, cap);
    WithinCapIsWhole(arrivals, accepted, cap, b, credits);
  }

  method ReadPrefix(arrivals: seq<Chunk>, accepted: nat, cap: nat) returns (b: BufferedBody, credits: nat)
    ensures BufferedAs(arrivals, accepted, cap, b, credits)
  {
    var chunks: seq<Chunk>, total := [], 0;
    credits := 0;
    while credits < |arrivals|
      invariant ReadOn(arrivals, accepted, cap, credits) && Unfinished(arrivals, credits, cap)
      invariant chunks == arrivals[..credits] && total == |Flat(chunks)|
    {
      if credits == accepted {
        break;
      }
      var chunk := arrivals[credits];
      FlatAppend(chunks, chunk);
      total := total + |chunk.data|;
      chunks := chunks + [chunk];
      credits := credits + 1;
      assert chunks == arrivals[..credits];
      if chunk.last {
        return Whole(Flat(chunks)), credits;
      }
      if total > cap {
        return Prefix(chunks), credits;
      }
    }
    return Aborted, credits;
  }

  datatype CollectedBody = Body(raw: seq<byte>) | CollectAborted | CollectTooLarge

  /** What `collect_request_body` returns: a chunk that passes the cap refuses the body, last or not. */
  ghost predicate CollectedAs(arrivals: seq<Chunk>, accepted: nat, cap: nat, b: CollectedBody, credits: nat) {
    && ReadOn(arrivals, accepted, cap, credits)
    && match b
       case Body(raw) => credits > 0 && arrivals[credits - 1].last && raw == Flat(arrivals[..credits]) && |raw| <= cap
       case CollectTooLarge => credits > 0 && |Flat(arrivals[..credits])| > cap
       case CollectAborted => credits == Min(|arrivals|, accepted) && Unfinished(arrivals, credits, cap)
  }

  /** A body that ends in time is collected when it is within the cap, and refused when its last chunk passes it. */
  lemma CollectedIff(arrivals: seq<Chunk>, accepted: nat, cap: nat, b: CollectedBody, credits: nat)
    requires CollectedAs(arrivals, accepted, cap, b, credits)
    ensures forall n: nat :: EndsAt(arrivals, accepted, cap, n) ==>
              var raw := Flat(arrivals[..n]);
              credits == n && b == if |raw| <= cap then Body(raw) else CollectTooLarge
  {
    forall n: nat | EndsAt(arrivals, accepted, cap, n) ensures credits == n { SameEnd(arrivals, accepted, cap, credits, n); }
  }

  /** `collect_request_body`, with the same credit rule. */
  method CollectRequestBody(arrivals: seq<Chunk>, accepted: nat, cap: nat) returns (b: CollectedBody, credits: nat)
    ensures CollectedAs(arrivals, accepted, cap, b, credits)
    ensures forall n: nat :: EndsAt(arrivals, accepted, cap, n) ==>
              var raw := Flat(arrivals[..n]);
              credits == n && b == if |raw| <= cap then Body(raw) else CollectTooLarge
  {
    b, credits := ReadWhole(arrivals, accepted, cap);
    CollectedIff(arrivals, accepted, cap, b, credits);
  }

  method ReadWhole(arrivals: seq<Chunk>, accepted: nat, cap: nat) returns (b: CollectedBody, credits: nat)
    ensures CollectedAs(arrivals, accepted, cap, b, credits)
  {
    var buffer: seq<byte> := [];
    credits := 0;
    while credits < |arrivals|
      invariant ReadOn(arrivals, accepted, cap, credits) && Unfinished(arrivals, credits, cap)
      invariant buffer == Flat(arrivals[..credits])
    {
      if credits == accepted {
        break;
      }
      var chunk := arrivals[credits];
      FlatAppend(arrivals[..credits], chunk);
      assert arrivals[..credits] + [chunk] == arrivals[..credits + 1];
      credits := credits + 1;
      if |buffer| + |chunk.data| > cap {
        return CollectTooLarge, credits;
      }
      buffer := buffer + chunk.data;
      if chunk.last {
        return Body(buffer), credits;
      }
    }
    return CollectAborted, credits;
  }
}
