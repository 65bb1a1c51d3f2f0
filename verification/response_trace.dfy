/**
The relay worker's response (`apps/cli/src/daemon.rs`): headers, numbered body chunks, the
final empty chunk and `relay.complete`, or one `relay.error`, on the plain and on the
count-first path. Acknowledgements of request body chunks are left out of the trace.

What the upstream does, whether the request is cancelled, and whether each send to the
session succeeds are inputs.
*/
module ResponseTrace {
  import opened Common

  const CHUNK_MAX := 1024 * 1024

  datatype Frame =
    | Headers
    | Chunk(id: nat, bytes: seq<byte>, isFinal: bool)
    | Complete
    | Error
    | CountResult
    | CountError
    | Finished

  datatype Phase = Requesting | Streaming | BodyEnded | Completed

  /** How the body of the upstream's response ended. */
  datatype Ending = EndOfBody | ReadFailed | CancelledReading

  /** How the request itself went. */
  datatype Request = NoResponse | SentNothing | MediaRefused | Responded

  /** What the count-first step found. */
  datatype CountFirst = Aborted | TooLarge | CancelledEarly | NotCounted | Unparsable | CountFailed | Counted(over: bool)

  // ------------------------------------------------------------------ the trace

  predicate Bounded(pieces: seq<seq<byte>>) {
    forall k :: 0 <= k < |pieces| ==> 0 < |pieces[k]| <= CHUNK_MAX
  }

  /** Body chunks numbered from `first` on. */
  function Numbered(pieces: seq<seq<byte>>, first: nat): seq<Frame> {
    seq(|pieces|, k requires 0 <= k < |pieces| => Chunk(first + k, pieces[k], false))
  }

  /** What went out by the end of a phase, with these body chunks. */
  function Sent(phase: Phase, pieces: seq<seq<byte>>): seq<Frame> {
    match phase
    case Requesting => []
    case Streaming => [Headers] + Numbered(pieces, 0)
    case BodyEnded => [Headers] + Numbered(pieces, 0) + [Chunk(|pieces|, [], true)]
    case Completed => [Headers] + Numbered(pieces, 0) + [Chunk(|pieces|, [], true), Complete]
  }

  /** The body chunks carry a prefix of what was read, and all of it once the body has ended. */
  predicate Carries(phase: Phase, pieces: seq<seq<byte>>, body: seq<byte>) {
    && Bounded(pieces) && Joined(pieces) <= body
    && (phase == BodyEnded || phase == Completed ==> Joined(pieces) == body)
  }

  /** Everything that was read went out: to the end when the body ended, and no further otherwise. */
  predicate Whole(phase: Phase, pieces: seq<seq<byte>>, chunks: seq<seq<byte>>, ending: Ending) {
    Joined(pieces) == Joined(chunks) && phase == if ending == EndOfBody then Completed else Streaming
  }

  /** The trace of a request when every send succeeds. */
  predicate FullTrace(request: Request, chunks: seq<seq<byte>>, ending: Ending, cancelled: bool,
                      phase: Phase, pieces: seq<seq<byte>>, failed: bool) {
    match request
    case NoResponse => phase == Requesting && failed == !cancelled
    case SentNothing => phase == Requesting && !failed
    case MediaRefused => phase == Requesting && failed
    case Responded => Whole(phase, pieces, chunks, ending) && failed == (ending == ReadFailed && !cancelled)
  }

  /** The count lets the request go on. */
  predicate GoesOn(first: CountFirst) {
    first.NotCounted? || first.Unparsable? || first.CountFailed? || first == Counted(false)
  }

  /** The count ends the request with an error. */
  predicate Refuses(first: CountFirst) { first.TooLarge? || first == Counted(true) }

  /** The frame that tells the server the count, or that there is none. */
  function CountFrames(first: CountFirst): seq<Frame> {
    match first
    case Unparsable => [CountError]
    case CountFailed => [CountError]
    case Counted(_) => [CountResult]
    case _ => []
  }

  /** A worker's trace: an optional error ends it unless it completed, then `Finished` if that could be sent. */
  predicate TraceOf(t: seq<Frame>, phase: Phase, pieces: seq<seq<byte>>, failed: bool, finished: bool, body: seq<byte>) {
    && Carries(phase, pieces, body) && (failed ==> phase != Completed)
    && t == Sent(phase, pieces) + (if failed then [Error] else []) + (if finished then [Finished] else [])
  }

  // ----------------------------------------------------------------- the worker

  lemma NumberedConcat(a: seq<seq<byte>>, b: seq<seq<byte>>, first: nat)
    ensures Numbered(a + b, first) == Numbered(a, first) + Numbered(b, first + |a|)
  { }

  class Worker {
    /** Whether send number `n` succeeds. */
    const fate: nat -> bool
    var tries: nat
    var sent: seq<Frame>

    constructor (fate: nat -> bool)
      ensures this.fate == fate && sent == []
    {
      this.fate := fate;
      tries, sent := 0, [];
    }

    /** Every send from here on succeeds. */
    ghost predicate AllGo()
      reads this
    {
      forall n: nat :: tries <= n ==> fate(n)
    }

    method Send(f: Frame) returns (ok: bool)
      modifies this
      ensures ok == fate(old(tries)) && tries == old(tries) + 1
      ensures sent == old(sent) + if ok then [f] else []
    {
      ok, tries := fate(tries), tries + 1;
      if ok {
        sent := sent + [f];
      }
    }

    /** `relay_response_chunk`: one upstream chunk as bounded frames. */
    method RelayChunk(bytes: seq<byte>, index: nat) returns (ok: bool, next: nat, ghost pieces: seq<seq<byte>>)
      modifies this
      ensures Bounded(pieces) && Joined(pieces) <= bytes && (ok ==> Joined(pieces) == bytes)
      ensures next == index + |pieces| && sent == old(sent) + Numbered(pieces, index)
      ensures forall k :: 0 <= k < |pieces| - 1 ==> |pieces[k]| == 1_048_576
      ensures tries >= old(tries) && (old(AllGo()) ==> ok)
    {
      next, pieces := index, [];
      var from := 0;
      while from < |bytes|
        invariant tries >= old(tries)
        invariant forall k :: 0 <= k < |pieces| - 1 ==> |pieces[k]| == CHUNK_MAX
        invariant from < |bytes| && pieces != [] ==> |pieces[|pieces| - 1]| == CHUNK_MAX
        invariant 0 <= from <= |bytes| && Bounded(pieces) && Joined(pieces) == bytes[..from]
        invariant next == index + |pieces| && sent == old(sent) + Numbered(pieces, index)
      {
        var to := if from + CHUNK_MAX <= |bytes| then from + CHUNK_MAX else |bytes|;
        var piece := bytes[from..to];
        ok := Send(Chunk(next, piece, false));
        if !ok {
          return;
        }
        JoinedMore(pieces, piece);
        NumberedConcat(pieces, [piece], index);
        assert bytes[..from] + piece == bytes[..to];
        pieces, next, from := pieces + [piece], next + 1, to;
      }
      ok := true;
      assert bytes[..from] == bytes;
    }

    method RelayResponseBack(chunks: seq<seq<byte>>, ending: Ending)
      returns (ok: bool, phase: Phase, ghost pieces: seq<seq<byte>>)
      modifies this
      ensures Carries(phase, pieces, Joined(chunks)) && sent == old(sent) + Sent(phase, pieces)
      ensures phase == BodyEnded || phase == Completed ==> ending == EndOfBody
      ensures phase == Completed ==> ok
      ensures ok ==> phase == Completed || (phase == Streaming && ending == CancelledReading)
      ensures tries >= old(tries) && (old(AllGo()) ==> Whole(phase, pieces, chunks, ending) && ok == (ending != ReadFailed))
    {
      phase, pieces := Requesting, [];
      ok := Send(Headers);
      if !ok {
        return;
      }
      phase := Streaming;
      var index;
      ok, index, pieces := Stream(chunks);
      assert sent == old(sent) + Sent(Streaming, pieces);
      if !ok || ending != EndOfBody {
        ok := ok && ending == CancelledReading;
        return;
      }
      ok, phase := Finish(index, pieces);
      assert sent == old(sent) + Sent(phase, pieces);
    }

    /** The final empty chunk and `relay.complete`. */
    method Finish(index: nat, ghost pieces: seq<seq<byte>>) returns (ok: bool, phase: Phase)
      requires index == |pieces|
      modifies this
      ensures phase != Requesting && (ok <==> phase == Completed)
      ensures Sent(Streaming, pieces) <= Sent(phase, pieces)
      ensures sent == old(sent) + Sent(phase, pieces)[|Sent(Streaming, pieces)|..]
      ensures tries >= old(tries) && (old(AllGo()) ==> ok)
    {
      phase := Streaming;
      ok := Send(Chunk(index, [], true));
      if !ok {
        return;
      }
      phase := BodyEnded;
      ok := Send(Complete);
      if ok {
        phase := Completed;
      }
    }

    /** The read loop. */
    method Stream(chunks: seq<seq<byte>>) returns (ok: bool, index: nat, ghost pieces: seq<seq<byte>>)
      modifies this
      ensures Bounded(pieces) && Joined(pieces) <= Joined(chunks) && (ok ==> Joined(pieces) == Joined(chunks))
      ensures index == |pieces| && sent == old(sent) + Numbered(pieces, 0)
      ensures tries >= old(tries) && (old(AllGo()) ==> ok)
    {
      index, pieces, ok := 0, [], true;
      var k := 0;
      while k < |chunks|
        invariant tries >= old(tries)
        invariant 0 <= k <= |chunks| && ok && Bounded(pieces) && Joined(pieces) == Joined(chunks[..k])
        invariant index == |pieces| && sent == old(sent) + Numbered(pieces, 0)
      {
        ghost var more;
        ok, index, more := RelayChunk(chunks[k], index);
        NumberedConcat(pieces, more, 0);
        JoinedConcat(pieces, more);
        JoinedMore(chunks[..k], chunks[k]);
        assert chunks[..k] + [chunks[k]] == chunks[..k + 1];
        pieces, k := pieces + more, k + 1;
        if !ok {
          assert chunks == chunks[..k] + chunks[k..];
          JoinedConcat(chunks[..k], chunks[k..]);
          return;
        }
      }
      assert chunks[..k] == chunks;
    }

    /** The request and its response; whether it ended without an error. */
    method Execute(request: Request, chunks: seq<seq<byte>>, ending: Ending)
      returns (ok: bool, phase: Phase, ghost pieces: seq<seq<byte>>, ghost refused: bool)
      modifies this
      ensures Carries(phase, pieces, Joined(chunks))
      ensures phase == Completed ==> ok && request == Responded && ending == EndOfBody
      ensures refused ==> phase == Requesting && ok
      ensures sent == old(sent) + Sent(phase, pieces) + if refused then [Error] else []
      ensures refused ==> request == MediaRefused
      ensures request == NoResponse ==> !ok && phase == Requesting && tries == old(tries)
      ensures request == SentNothing ==> ok && phase == Requesting && tries == old(tries)
      ensures tries >= old(tries)
      ensures old(AllGo()) && request == MediaRefused ==> refused
      ensures old(AllGo()) && request == Responded ==> Whole(phase, pieces, chunks, ending) && ok == (ending != ReadFailed)
    {
      ok, phase, pieces, refused := true, Requesting, [], false;
      if request == NoResponse {
        ok := false;
      } else if request == MediaRefused {
        ok := Send(Error);
        refused := ok;
      } else if request == Responded {
        ok, phase, pieces := RelayResponseBack(chunks, ending);
      }
    }

    /** The end of a trace: the error of a request that failed, then `Finished`. */
    method Conclude(error: bool) returns (ghost failed: bool, ghost finished: bool, ghost tail: seq<Frame>)
      modifies this
      ensures failed == (error && fate(old(tries))) && finished == fate(old(tries) + if error then 1 else 0)
      ensures tail == (if failed then [Error] else []) + (if finished then [Finished] else [])
      ensures sent == old(sent) + tail
    {
      failed := false;
      if error {
        failed := Send(Error);
      }
      finished := Send(Finished);
      tail := (if failed then [Error] else []) + (if finished then [Finished] else []);
    }

    /** `run_upstream_worker`; `cancelled` is the flag as it reads once the upstream is done. */
    method RunUpstreamWorker(request: Request, chunks: seq<seq<byte>>, ending: Ending, cancelled: bool)
      returns (ghost t: seq<Frame>, ghost phase: Phase, ghost pieces: seq<seq<byte>>, ghost failed: bool, ghost finished: bool)
      modifies this
      ensures sent == old(sent) + t && TraceOf(t, phase, pieces, failed, finished, Joined(chunks))
      ensures phase == Completed ==> request == Responded && ending == EndOfBody
      ensures cancelled && request != MediaRefused ==> !failed
      ensures request == NoResponse ==> (failed <==> !cancelled && fate(old(tries)))
      ensures old(AllGo()) ==> FullTrace(request, chunks, ending, cancelled, phase, pieces, failed) && finished
    {
      var ok, reached;
      ghost var refused, tail;
      ok, reached, pieces, refused := Execute(request, chunks, ending);
      phase := reached;
      ghost var done := Sent(phase, pieces);
      failed, finished, tail := Conclude(!cancelled && !ok && reached != Completed);
      ghost var first := if refused then [Error] else [];
      t := done + first + tail;
      assert old(sent) + done + first + tail == old(sent) + t;
      if refused {
        assert done + [Error] + tail == done + [Error] + if finished then [Finished] else [];
      } else {
        assert done + [] + tail == done + (if failed then [Error] else []) + if finished then [Finished] else [];
      }
      failed := failed || refused;
    }

    /** What the count-first step sends, and whether the request goes on. */
    method CountTokens(first: CountFirst) returns (proceed: bool, ghost counted: seq<Frame>, ghost failed: bool)
      modifies this
      ensures OnlyCounts(counted) && sent == old(sent) + counted + if failed then [Error] else []
      ensures proceed ==> !failed
      ensures proceed == GoesOn(first)
      ensures tries >= old(tries)
      ensures old(AllGo()) ==> counted == CountFrames(first) && failed == Refuses(first)
    {
      var ok;
      proceed, counted, failed := true, [], false;
      if first == Aborted || first == CancelledEarly {
        proceed := false;
      } else if first == TooLarge {
        failed := Send(Error);
        proceed := false;
      } else if first == Unparsable || first == CountFailed {
        ok := Send(CountError);
        counted := if ok then [CountError] else [];
      } else if first.Counted? {
        ok := Send(CountResult);
        counted := if ok then [CountResult] else [];
        if first.over {
          failed := Send(Error);
          proceed := false;
        }
      }
    }

    /** `run_count_first_worker`: the count, then the worker's own trace unless the count ended the request. */
    method RunCountFirst(first: CountFirst, cancelled: bool, request: Request, chunks: seq<seq<byte>>,
                         ending: Ending, cancelledLater: bool)
      returns (ghost counted: seq<Frame>, ghost t: seq<Frame>, ghost phase: Phase, ghost pieces: seq<seq<byte>>,
               ghost failed: bool, ghost finished: bool)
      modifies this
      ensures OnlyCounts(counted) && sent == old(sent) + counted + t
      ensures TraceOf(t, phase, pieces, failed, finished, Joined(chunks))
      ensures phase == Completed ==> request == Responded && ending == EndOfBody
      ensures old(AllGo()) ==> counted == CountFrames(first) && finished
      ensures cancelled || !GoesOn(first) ==> phase == Requesting && (old(AllGo()) ==> failed == Refuses(first))
      ensures old(AllGo()) && !cancelled && GoesOn(first) ==>
                FullTrace(request, chunks, ending, cancelledLater, phase, pieces, failed)
    {
      var proceed;
      proceed, counted, failed := CountTokens(first);
      if cancelled || !proceed {
        phase, pieces := Requesting, [];
        finished := Send(Finished);
        t := (if failed then [Error] else []) + if finished then [Finished] else [];
        assert Sent(Requesting, []) + (if failed then [Error] else []) == if failed then [Error] else [];
        return;
      }
      t, phase, pieces, failed, finished := RunUpstreamWorker(request, chunks, ending, cancelledLater);
    }
  }

  /** At most one count frame. */
  predicate OnlyCounts(frames: seq<Frame>) {
    |frames| <= 1 && forall k :: 0 <= k < |frames| ==> frames[k] == CountResult || frames[k] == CountError
  }

  // ------------------------------------------------------- what every trace shows

  predicate IsTerminal(f: Frame) { f.Complete? || f.Error? }

  predicate IsResponse(f: Frame) { f.Headers? || f.Chunk? || IsTerminal(f) }

  lemma SentAt(phase: Phase, pieces: seq<seq<byte>>, k: nat)
    requires k < |Sent(phase, pieces)|
    ensures Sent(phase, pieces)[k]
         == if k == 0 then Headers
            else if k <= |pieces| then Chunk(k - 1, pieces[k - 1], false)
            else if k == |pieces| + 1 then Chunk(|pieces|, [], true)
            else Complete
    ensures |Sent(phase, pieces)| <= |pieces| + 3
    ensures k == |pieces| + 2 ==> phase == Completed && k == |Sent(phase, pieces)| - 1
  { }

  /** No response frame follows the first terminal frame, so there is at most one. */
  lemma TerminalEndsTrace(t: seq<Frame>, phase: Phase, pieces: seq<seq<byte>>, failed: bool, finished: bool,
                          body: seq<byte>, i: nat, j: nat)
    requires TraceOf(t, phase, pieces, failed, finished, body) && i < j < |t| && IsTerminal(t[i])
    ensures !IsResponse(t[j])
  {
    var n := |Sent(phase, pieces)|;
    if i < n { SentAt(phase, pieces, i); }
    if j < n { SentAt(phase, pieces, j); }
  }

  /** `relay.complete` comes only after the headers, all of the body in numbered chunks, and the final empty chunk. */
  lemma CompleteMeansWhole(t: seq<Frame>, phase: Phase, pieces: seq<seq<byte>>, failed: bool, finished: bool,
                           body: seq<byte>, i: nat)
    requires TraceOf(t, phase, pieces, failed, finished, body) && i < |t| && t[i] == Complete
    ensures i == |pieces| + 2 && t[0] == Headers && t[i - 1] == Chunk(|pieces|, [], true)
    ensures forall k :: 0 <= k < |pieces| ==> t[k + 1] == Chunk(k, pieces[k], false) && 0 < |pieces[k]| <= CHUNK_MAX
    ensures Joined(pieces) == body && !failed
  {
    var n := |Sent(phase, pieces)|;
    assert i < n;
    SentAt(phase, pieces, i);
    SentAt(phase, pieces, 0);
    SentAt(phase, pieces, i - 1);
    forall k | 0 <= k < |pieces| ensures t[k + 1] == Chunk(k, pieces[k], false) { SentAt(phase, pieces, k + 1); }
  }

  /** Whatever was sent of the body is a prefix of it, chunk after chunk from number 0. */
  lemma ChunksArePrefix(t: seq<Frame>, phase: Phase, pieces: seq<seq<byte>>, failed: bool, finished: bool,
                        body: seq<byte>, i: nat)
    requires TraceOf(t, phase, pieces, failed, finished, body) && i < |t| && t[i].Chunk?
    ensures t[0] == Headers && t[i].id == i - 1 && Joined(pieces) <= body
    ensures if t[i].isFinal then t[i].bytes == [] && Joined(pieces) == body else t[i].bytes == pieces[i - 1]
  {
    assert i < |Sent(phase, pieces)|;
    SentAt(phase, pieces, i);
    SentAt(phase, pieces, 0);
  }
}
