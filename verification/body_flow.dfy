/**
Whole runs of a request body's way from the server's credits to the upstream request: the
credit window is conserved, and the upstream is given the body's bytes in order.
*/
module BodyFlow {
  import opened Common
  import opened BodyStreams
  import opened BodyMachine
  import opened BodySteps

  lemma InitialInv(q: Request)
    requires WellFormed(q)
    ensures Inv(q, Initial(q))
  {
    assert Flat(q.body[..0]) == [];
  }

  lemma {:induction false} Reachable(q: Request, b: seq<Flow>, steps: seq<Step>, i: nat)
    requires Behaviour(q, b, steps) && i < |b|
    ensures Inv(q, b[i])
  {
    if i == 0 {
      InitialInv(q);
    } else {
      Reachable(q, b, steps, i - 1);
      assert Next(q, b[i - 1], b[i], steps[i - 1]);
      StepKeepsInv(q, b[i - 1], steps[i - 1]);
    }
  }

  // ------------------------------------------------------------ main results

  /**
  Credit window. On every run, whichever reader consumes the body: a server that
  sends only on its credits is never faulted; what is in its credits, on the socket,
  in the queue, with the reader and on the way back adds up to the window as long as
  the reader reads and the request is live; and it never exceeds the window before
  every chunk is in.
  */
  lemma WindowConserved(q: Request, b: seq<Flow>, steps: seq<Step>, i: nat)
    requires Behaviour(q, b, steps) && i < |b|
    ensures !b[i].faulted
    ensures Intact(b[i]) ==>
              b[i].credits + |b[i].down| + |b[i].queue| + Unacked(b[i].stage) + b[i].acks == q.window
    ensures InWindow(b[i]) > q.window ==>
              q.plan.CountFirst? && AllIn(q, b[i]) && InWindow(b[i]) == q.window + 1
    ensures i < |steps| && steps[i].Deliver? && Intact(b[i]) ==> |b[i].queue| < q.window
  {
    Reachable(q, b, steps, i);
    if i < |steps| {
      assert Next(q, b[i], b[i + 1], steps[i]);
    }
  }

  // A count-first request of one chunk over a window of one, step by step.
  const OneChunk: Chunk := Chunk([7], true)
  const CountOne: Request := Request(1, [OneChunk], CountFirst(10, None))

  function CountOneFlow(arrived: nat, down: seq<Chunk>, queue: seq<Chunk>, acks: nat, stage: Stage): Flow {
    Flow(1, 0, down, arrived, queue, acks, stage, true, false, [], NoEnd)
  }

  function CountOneStream(source: Source, handed: nat, bridge: Bridge, slot: Option<Chunk>): Stage {
    Streaming(source, 1, handed, bridge, slot, Open, Lengthed(Exact(1, 0, false)), true)
  }

  lemma CountOneIsBuffered()
    ensures var first := FirstStage(CountOne.plan);
            var f1 := CountOneFlow(0, [OneChunk], [], 0, first);
            var f2 := CountOneFlow(1, [], [OneChunk], 0, first);
            var f3 := CountOneFlow(1, [], [], 0, Buffering(CountOne.plan, Ingress, 1, [], Some(OneChunk)));
            && Next(CountOne, Initial(CountOne), f1, Send)
            && Next(CountOne, f1, f2, Deliver)
            && Next(CountOne, f2, f3, Take)
  {
  }

  lemma CountOneStartsOver()
    ensures var f3 := CountOneFlow(1, [], [], 0, Buffering(CountOne.plan, Ingress, 1, [], Some(OneChunk)));
            var f4 := CountOneFlow(1, [], [], 1, StreamFrom(Local([OneChunk]), 0, Lengthed(Exact(1, 0, false))));
            Next(CountOne, f3, f4, Credit)
  {
    FlatAppend([], OneChunk);
    assert [] + [OneChunk] == [OneChunk] && Flat([OneChunk]) == [7];
  }

  lemma CountOneIsAckedAgain()
    ensures var f4 := CountOneFlow(1, [], [], 1, StreamFrom(Local([OneChunk]), 0, Lengthed(Exact(1, 0, false))));
            var f5 := CountOneFlow(1, [], [], 1, CountOneStream(Local([]), 0, Holding(OneChunk), None));
            var f6 := CountOneFlow(1, [], [], 1, CountOneStream(Local([]), 1, Acking(true), Some(OneChunk)));
            var f7 := CountOneFlow(1, [], [], 2, CountOneStream(Local([]), 1, Gone, Some(OneChunk)));
            && Next(CountOne, f4, f5, Take)
            && Next(CountOne, f5, f6, HandOver)
            && Next(CountOne, f6, f7, Ack)
            && InWindow(f7) == CountOne.window + 1
  {
    assert [OneChunk][1..] == [];
  }

  /**
  The count-first worker returns one credit more than it was sent chunks: it feeds
  the buffered body to a second reader, which acknowledges it again.
  */
  lemma CountFirstReturnsOneMore()
    ensures exists q, b: seq<Flow>, steps :: Behaviour(q, b, steps) && InWindow(b[|b| - 1]) == q.window + 1
  {
    CountOneIsBuffered();
    CountOneStartsOver();
    CountOneIsAckedAgain();
    var b := [Initial(CountOne),
              CountOneFlow(0, [OneChunk], [], 0, FirstStage(CountOne.plan)),
              CountOneFlow(1, [], [OneChunk], 0, FirstStage(CountOne.plan)),
              CountOneFlow(1, [], [], 0, Buffering(CountOne.plan, Ingress, 1, [], Some(OneChunk))),
              CountOneFlow(1, [], [], 1, StreamFrom(Local([OneChunk]), 0, Lengthed(Exact(1, 0, false)))),
              CountOneFlow(1, [], [], 1, CountOneStream(Local([]), 0, Holding(OneChunk), None)),
              CountOneFlow(1, [], [], 1, CountOneStream(Local([]), 1, Acking(true), Some(OneChunk))),
              CountOneFlow(1, [], [], 2, CountOneStream(Local([]), 1, Gone, Some(OneChunk)))];
    var steps := [Send, Deliver, Take, Credit, Take, HandOver, Ack];
    assert Behaviour(CountOne, b, steps);
  }

  /**
  Body fidelity. For every schedule the upstream request is given a prefix of the
  body's bytes, in order; a clean end is reported only after all of them; and a
  declared length is never passed, and exactly met at a clean end.
  */
  lemma BodyFaithful(q: Request, b: seq<Flow>, steps: seq<Step>, i: nat)
    requires Behaviour(q, b, steps) && i < |b|
    ensures b[i].yielded <= Flat(q.body)
    ensures b[i].outcome == Clean ==> b[i].yielded == Flat(q.body)
    ensures q.plan.Sized? ==> |b[i].yielded| <= q.plan.length
    ensures q.plan.Sized? && b[i].outcome == Clean ==> |Flat(q.body)| == q.plan.length
  {
    Reachable(q, b, steps, i);
  }

  /** However a body is read, two clean ends gave the upstream the same bytes. */
  lemma ReadersAgree(q: Request, b: seq<Flow>, steps: seq<Step>, p: Request, c: seq<Flow>, others: seq<Step>)
    requires Behaviour(q, b, steps) && Behaviour(p, c, others) && Flat(q.body) == Flat(p.body)
    requires b[|b| - 1].outcome == Clean && c[|c| - 1].outcome == Clean
    ensures b[|b| - 1].yielded == c[|c| - 1].yielded
  {
    BodyFaithful(q, b, steps, |b| - 1);
    BodyFaithful(p, c, others, |c| - 1);
  }
}
