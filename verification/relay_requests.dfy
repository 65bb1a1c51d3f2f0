/**
The relayed requests of one session (`apps/cli/src/daemon.rs`): the live table, the
bounded ring of recently retired ids, and what the main loop sends for each event
that names a request.
*/
module RelayRequests {
  import opened Common

  const RECENT_FINISHED_CAPACITY: nat := 256

  type Id = string

  // ---------------------------------------------------------------- the ring

  datatype Ring = Ring(order: seq<Id>, ids: set<Id>)

  /** The ring after recording `id`: a known id changes nothing, the oldest is evicted when full. */
  function Recorded(ring: Ring, id: Id): Ring {
    if id in ring.ids then ring
    else
      var order := ring.order + [id];
      if |order| > RECENT_FINISHED_CAPACITY then Ring(order[1..], ring.ids + {id} - {order[0]})
      else Ring(order, ring.ids + {id})
  }

  class RecentlyFinished {
    var order: seq<Id>
    var ids: set<Id>

    function Value(): Ring reads this { Ring(order, ids) }

    constructor ()
      ensures Value() == Ring([], {})
    {
      order, ids := [], {};
    }

    method Record(id: Id)
      modifies this
      ensures Value() == Recorded(old(Value()), id)
    {
      if id !in ids {
        ids := ids + {id};
        order := order + [id];
        if |order| > RECENT_FINISHED_CAPACITY {
          var evicted := order[0];
          order := order[1..];
          ids := ids - {evicted};
        }
      }
    }

    predicate Contains(id: Id) reads this { id in ids }
  }

  /** The last entries of the insertion log, as many as the ring holds. */
  function LastEntries(log: seq<Id>): seq<Id> {
    if |log| <= 256 then log else log[|log| - 256..]
  }

  /** The queue and the set hold the same distinct ids, the last ones inserted. */
  ghost predicate RingOk(ring: Ring, log: seq<Id>) {
    && ring.order == LastEntries(log)
    && Distinct(ring.order)
    && forall id :: id in ring.ids <==> id in ring.order
  }

  /** The insertion log: an id is inserted when the ring does not know it. */
  function Logged(log: seq<Id>, ring: Ring, id: Id): seq<Id> {
    if id in ring.ids then log else log + [id]
  }

  lemma LastMore(log: seq<Id>, id: Id)
    ensures var order := LastEntries(log) + [id];
            LastEntries(log + [id]) == if |order| > 256 then order[1..] else order
  {
  }

  /** The set without the first of a distinct queue. */
  lemma WithoutFirst(order: seq<Id>, ids: set<Id>)
    requires order != [] && Distinct(order) && forall x :: x in ids <==> x in order
    ensures Distinct(order[1..]) && forall x :: x in ids - {order[0]} <==> x in order[1..]
  {
    assert order == [order[0]] + order[1..];
  }

  lemma RecordKeepsRing(ring: Ring, log: seq<Id>, id: Id)
    requires RingOk(ring, log)
    ensures RingOk(Recorded(ring, id), Logged(log, ring, id))
  {
    if id !in ring.ids {
      var order := ring.order + [id];
      LastMore(log, id);
      assert Distinct(order) && forall x :: x in ring.ids + {id} <==> x in order;
      WithoutFirst(order, ring.ids + {id});
    }
  }

  /** An inserted id stays known until as many others were inserted as the ring holds. */
  lemma StillKnown(ring: Ring, log: seq<Id>, k: nat)
    requires RingOk(ring, log) && k < |log| && |log| - k <= 256
    ensures log[k] in ring.ids
  {
    var start := |log| - |LastEntries(log)|;
    assert LastEntries(log)[k - start] == log[k];
  }

  // --------------------------------------------------------------- the table

  /** Where a live request's body stands. */
  datatype BodyKind = NoBody | OpenBody | CompleteBody

  datatype Table = Table(live: map<Id, BodyKind>, ring: Ring)

  predicate InUse(t: Table, id: Id) { id in t.live || id in t.ring.ids }

  datatype Retirement = Finished | Cancelled | Faulted

  function Retired(t: Table, id: Id): Table { Table(t.live - {id}, Recorded(t.ring, id)) }

  datatype RequestState = Live(body: BodyKind) | Past | Unknown

  function StateOf(t: Table, id: Id): RequestState {
    if id in t.live then Live(t.live[id]) else if id in t.ring.ids then Past else Unknown
  }

  class RequestTable {
    var live: map<Id, BodyKind>
    const retired: RecentlyFinished
    /** Workers told to stop. */
    var cancelled: set<Id>

    function Value(): Table reads this, retired { Table(live, retired.Value()) }

    constructor ()
      ensures Value() == Table(map[], Ring([], {})) && cancelled == {} && fresh(retired)
    {
      live, cancelled := map[], {};
      retired := new RecentlyFinished();
    }

    predicate IsLive(id: Id) reads this { id in live }

    method State(id: Id) returns (s: RequestState)
      ensures s == StateOf(Value(), id)
    {
      if id in live {
        return Live(live[id]);
      }
      var known := retired.Contains(id);
      return if known then Past else Unknown;
    }

    method Start(id: Id, body: BodyKind)
      modifies this
      ensures Value() == old(Value()).(live := old(live)[id := body]) && cancelled == old(cancelled)
    {
      live := live[id := body];
    }

    /** The one way out of the live table. */
    method Retire(id: Id, reason: Retirement) returns (wasLive: bool)
      modifies this, retired
      ensures wasLive == (id in old(live))
      ensures Value() == Retired(old(Value()), id)
      ensures cancelled == old(cancelled) + (if wasLive && reason != Finished then {id} else {})
    {
      retired.Record(id);
      if id !in live {
        assert live - {id} == live;
        return false;
      }
      live := live - {id};
      if reason != Finished {
        cancelled := cancelled + {id};
      }
      return true;
    }

    /** Session end: every worker is told to stop and nothing is recorded. */
    method AbortAll()
      modifies this
      ensures Value() == old(Value()).(live := map[])
      ensures cancelled == old(cancelled) + old(live).Keys
    {
      cancelled := cancelled + live.Keys;
      live := map[];
    }
  }

  // ----------------------------------------------------------- the main loop

  /** What offering a chunk to the worker's bounded queue answers. */
  datatype Route = Delivered | WorkerGone | OverCredit

  datatype Event =
    | Request(id: Id, hasBody: bool, served: bool)  // `served`: the runtime and path are allowed
    | BodyChunk(id: Id, last: bool, route: Route)
    | Cancel(id: Id)
    | WorkerFrame(id: Id, terminal: bool)           // `relay.complete` and `relay.error` are terminal
    | WorkerFinished(id: Id)

  /** What reaches the server, and which workers start. */
  datatype Output =
    | Started(id: Id)
    | Relayed(id: Id, terminal: bool)
    | Refused(id: Id)       // `relay.error` for a request that was not started
    | BodyFault(id: Id)     // `relay.error` for a body frame
    | CancelAck(id: Id)     // `relay.cancelled`

  /** One session: its table and the log of the ids its ring recorded. */
  datatype Session = Session(table: Table, log: seq<Id>)

  function Retire(s: Session, id: Id): Session {
    Session(Retired(s.table, id), Logged(s.log, s.table.ring, id))
  }

  function Handle(s: Session, e: Event): (Session, seq<Output>) {
    match e
    case Request(id, hasBody, served) =>
      if InUse(s.table, id) || !served then (s, [Refused(id)])
      else (s.(table := s.table.(live := s.table.live[id := if hasBody then OpenBody else NoBody])), [Started(id)])
    case BodyChunk(id, last, route) =>
      (match StateOf(s.table, id)
       case Past => (s, [])
       case Unknown => (s, [BodyFault(id)])
       case Live(CompleteBody) => (s, [])
       case Live(NoBody) => (Retire(s, id), [BodyFault(id)])
       case Live(OpenBody) =>
         if route == OverCredit then (Retire(s, id), [BodyFault(id)])
         else if last then (s.(table := s.table.(live := s.table.live[id := CompleteBody])), [])
         else (s, []))
    case Cancel(id) => (Retire(s, id), if id in s.table.live then [CancelAck(id)] else [])
    case WorkerFrame(id, terminal) => (s, if id in s.table.live then [Relayed(id, terminal)] else [])
    case WorkerFinished(id) => (Retire(s, id), [])
  }

  const Empty: Session := Session(Table(map[], Ring([], {})), [])

  /** The session after `events`. */
  function After(events: seq<Event>): Session {
    if events == [] then Empty else Handle(After(events[..|events| - 1]), events[|events| - 1]).0
  }

  /** What event `i` made the node send. */
  function Sent(events: seq<Event>, i: nat): seq<Output>
    requires i < |events|
  {
    Handle(After(events[..i]), events[i]).1
  }

  ghost predicate SessionOk(s: Session) {
    && RingOk(s.table.ring, s.log)
    && forall id :: id in s.table.live ==> id !in s.table.ring.ids
  }

  lemma RetireKeeps(s: Session, id: Id)
    requires SessionOk(s)
    ensures SessionOk(Retire(s, id))
  {
    RecordKeepsRing(s.table.ring, s.log, id);
    assert Recorded(s.table.ring, id).ids <= s.table.ring.ids + {id};
  }

  lemma HandleKeeps(s: Session, e: Event)
    requires SessionOk(s)
    ensures SessionOk(Handle(s, e).0)
    ensures s.log <= Handle(s, e).0.log
  {
    RetireKeeps(s, e.id);
  }

  /**
  On every run of a session the live and the retired ids are disjoint, and the ring's
  queue and set hold the same distinct ids: the last 256 of the insertion log.
  */
  lemma {:induction false} TableInvariant(events: seq<Event>)
    ensures SessionOk(After(events))
  {
    if events != [] {
      TableInvariant(events[..|events| - 1]);
      HandleKeeps(After(events[..|events| - 1]), events[|events| - 1]);
    }
  }

  lemma {:induction false} LogGrows(events: seq<Event>, i: nat)
    requires i <= |events|
    ensures After(events[..i]).log <= After(events).log
  {
    if i == |events| {
      assert events[..i] == events;
    } else {
      var front := events[..|events| - 1];
      LogGrows(front, i);
      assert front[..i] == events[..i];
      TableInvariant(front);
      HandleKeeps(After(front), events[|events| - 1]);
    }
  }

  /** The only thing a frame naming this id can still draw. */
  predicate OnlyRefusals(outputs: seq<Output>, id: Id) {
    forall k :: 0 <= k < |outputs| && outputs[k].id == id ==> outputs[k].Refused?
  }

  /**
  Quiescence. Once the ring recorded `id` (as entry `k` of its log), and until 256
  further ids are recorded: no worker frame for it goes out, no request starts under
  it, its late body chunks draw no fault, and a cancel of it is not acknowledged.
  */
  lemma RetiredIsQuiet(events: seq<Event>, i: nat, j: nat, k: nat)
    requires i <= j < |events|
    requires k < |After(events[..i]).log|
    requires |After(events[..j]).log| - k <= 256
    ensures var id := After(events[..i]).log[k];
            OnlyRefusals(Sent(events, j), id) && id !in After(events[..j]).table.live
  {
    var id := After(events[..i]).log[k];
    LogGrows(events[..j], i);
    assert events[..j][..i] == events[..i];
    TableInvariant(events[..j]);
    var s := After(events[..j]);
    StillKnown(s.table.ring, s.log, k);
    assert s.log[k] == id;
  }

  // ------------------------------------------------------- terminal frames

  /** Frames that settle a request at the server. */
  predicate Settles(o: Output, id: Id) {
    o.id == id && (o.CancelAck? || o.BodyFault? || (o.Relayed? && o.terminal))
  }

  /** How many settling frames for `id` went out. */
  function Settled(events: seq<Event>, id: Id): nat {
    if events == [] then 0
    else Settled(events[..|events| - 1], id) + SettledBy(Sent(events, |events| - 1), id)
  }

  function SettledBy(outputs: seq<Output>, id: Id): nat {
    if outputs == [] then 0 else (if Settles(outputs[0], id) then 1 else 0) + SettledBy(outputs[1..], id)
  }

  predicate Worker(e: Event, id: Id) { e.WorkerFrame? && e.id == id && e.terminal }

  /**
  `id` is first named by a request that starts it, at `at`; it is not asked for again;
  and its worker ends its response at most once.
  */
  ghost predicate OneLife(events: seq<Event>, id: Id, at: nat) {
    && at < |events| && events[at].Request? && events[at].id == id && events[at].served
    && (forall i :: 0 <= i < at ==> events[i].id != id)
    && (forall i :: at < i < |events| && events[i].Request? ==> events[i].id != id)
    && (forall i, j :: 0 <= i < j < |events| ==> !(Worker(events[i], id) && Worker(events[j], id)))
  }

  /** The worker's terminal frame is drained while the request is live. */
  predicate Answers(s: Session, e: Event, id: Id) { Worker(e, id) && id in s.table.live }

  /** The live request ends without its worker: cancelled, or faulted by a body frame. */
  predicate Cuts(s: Session, e: Event, id: Id) {
    && e.id == id && !e.WorkerFinished?
    && id in s.table.live && id !in Handle(s, e).0.table.live
  }

  /** A body chunk for an id the node does not know, never started or long forgotten. */
  predicate Strays(s: Session, e: Event, id: Id) { e.BodyChunk? && e.id == id && !InUse(s.table, id) }

  /** How many body chunks for `id` met a node that did not know it. */
  function StrayChunks(events: seq<Event>, id: Id): nat {
    if events == [] then 0
    else
      var front := events[..|events| - 1];
      StrayChunks(front, id) + Bit(Strays(After(front), events[|events| - 1], id))
  }

  /** The node knows exactly the live ids and the last 256 it recorded. */
  lemma KnownIff(events: seq<Event>, id: Id)
    ensures InUse(After(events).table, id)
       <==> id in After(events).table.live || id in LastEntries(After(events).log)
  {
    TableInvariant(events);
  }

  predicate Answered(events: seq<Event>, id: Id) {
    events != [] &&
    var front := events[..|events| - 1];
    Answered(front, id) || Answers(After(front), events[|events| - 1], id)
  }

  predicate Cut(events: seq<Event>, id: Id) {
    events != [] &&
    var front := events[..|events| - 1];
    Cut(front, id) || Cuts(After(front), events[|events| - 1], id)
  }

  /** What one event adds. */
  lemma SettledStep(s: Session, e: Event, id: Id)
    ensures SettledBy(Handle(s, e).1, id) == Bit(Answers(s, e, id)) + Bit(Cuts(s, e, id)) + Bit(Strays(s, e, id))
  {
    var outs := Handle(s, e).1;
    if |outs| == 1 {
      assert outs[1..] == [];
    }
  }

  /** How many events answered, and how many cut, a request with this id. */
  function AnswerCount(events: seq<Event>, id: Id): nat {
    if events == [] then 0
    else
      var front := events[..|events| - 1];
      AnswerCount(front, id) + Bit(Answers(After(front), events[|events| - 1], id))
  }

  function CutCount(events: seq<Event>, id: Id): nat {
    if events == [] then 0
    else
      var front := events[..|events| - 1];
      CutCount(front, id) + Bit(Cuts(After(front), events[|events| - 1], id))
  }

  /** On every run, also when an id is asked for again or named before it starts. */
  lemma {:induction false} SettledAlways(events: seq<Event>, id: Id)
    ensures Settled(events, id) == AnswerCount(events, id) + CutCount(events, id) + StrayChunks(events, id)
  {
    if events != [] {
      var front := events[..|events| - 1];
      SettledAlways(front, id);
      SettledStep(After(front), events[|events| - 1], id);
    }
  }

  lemma {:induction false} NotYetNamed(events: seq<Event>, id: Id)
    requires forall i :: 0 <= i < |events| ==> events[i].id != id
    ensures Settled(events, id) == StrayChunks(events, id) == 0 && !Answered(events, id) && !Cut(events, id)
    ensures !InUse(After(events).table, id)
  {
    if events != [] {
      var front := events[..|events| - 1];
      NotYetNamed(front, id);
      SettledStep(After(front), events[|events| - 1], id);
    }
  }

  lemma {:induction false} AnsweredByWorker(events: seq<Event>, id: Id) returns (i: nat)
    requires Answered(events, id)
    ensures i < |events| && Worker(events[i], id)
  {
    var front := events[..|events| - 1];
    if Answered(front, id) {
      i := AnsweredByWorker(front, id);
    } else {
      i := |events| - 1;
    }
  }

  /** How a request stands: what it drew so far, and that a cut request is live no more. */
  ghost predicate Stands(events: seq<Event>, id: Id) {
    && Settled(events, id) == Bit(Answered(events, id)) + Bit(Cut(events, id)) + StrayChunks(events, id)
    && (Cut(events, id) ==> id !in After(events).table.live)
  }

  lemma StaysEnded(s: Session, e: Event, id: Id)
    requires id !in s.table.live && (e.Request? ==> e.id != id)
    ensures id !in Handle(s, e).0.table.live
  {
  }

  lemma LifeStep(events: seq<Event>, id: Id)
    requires events != []
    requires var front, e := events[..|events| - 1], events[|events| - 1];
             && Stands(front, id) && (e.Request? ==> e.id != id)
             && (Answered(front, id) ==> !Worker(e, id))
    ensures Stands(events, id)
  {
    var front, e := events[..|events| - 1], events[|events| - 1];
    SettledStep(After(front), e, id);
    if id !in After(front).table.live {
      StaysEnded(After(front), e, id);
    }
  }

  /** The life of one request, up to any point after its start. */
  lemma {:induction false} LifeOf(events: seq<Event>, id: Id, at: nat)
    requires OneLife(events, id, at)
    ensures Stands(events, id)
  {
    var last := |events| - 1;
    var front := events[..last];
    if last == at {
      NotYetNamed(front, id);
      SettledStep(After(front), events[last], id);
    } else {
      LifeOf(front, id, at);
      if Answered(front, id) {
        var i := AnsweredByWorker(front, id);
        assert Worker(events[i], id);
      }
      LifeStep(events, id);
    }
  }

  /**
  How many settling frames one request draws on the wire: one if its worker's own
  terminal frame went out, one if a cancel or a body fault ended it, and one for each body
  chunk that came when the node had forgotten it. So without such a chunk there are at most
  two, and two exactly when it was cut after its worker answered.
  */
  lemma SettledExactly(events: seq<Event>, id: Id, at: nat)
    requires OneLife(events, id, at)
    ensures Settled(events, id) == Bit(Answered(events, id)) + Bit(Cut(events, id)) + StrayChunks(events, id)
    ensures Settled(events, id) <= 2
       <==> StrayChunks(events, id) <= 2 - Bit(Answered(events, id)) - Bit(Cut(events, id))
    ensures StrayChunks(events, id) == 0 ==> (Settled(events, id) == 2 <==> Answered(events, id) && Cut(events, id))
  {
    LifeOf(events, id, at);
  }

  /** A cancel that crosses the completion: both `relay.complete` and `relay.cancelled` go out. */
  lemma CompletedThenCancelled(id: Id)
    ensures var events := [Request(id, false, true), WorkerFrame(id, true), Cancel(id)];
            && Sent(events, 1) == [Relayed(id, true)]
            && Sent(events, 2) == [CancelAck(id)]
  {
    var events := [Request(id, false, true), WorkerFrame(id, true), Cancel(id)];
    assert events[..1] == [events[0]] && events[..1][..0] == [];
    assert events[..2][..1] == events[..1];
    assert id in After(events[..1]).table.live;
    assert id in After(events[..2]).table.live;
  }

  // -------------------------------------------------------- a request, by its history

  /** One event more. */
  lemma Then(front: seq<Event>, e: Event, events: seq<Event>, id: Id)
    requires events == front + [e]
    ensures After(events) == Handle(After(front), e).0
    ensures Settled(events, id) == Settled(front, id) + SettledBy(Handle(After(front), e).1, id)
    ensures Cut(events, id) <==> Cut(front, id) || Cuts(After(front), e, id)
    ensures Answered(events, id) <==> Answered(front, id) || Answers(After(front), e, id)
  {
    assert events[..|events| - 1] == front;
  }

  /** Event `k` ends the request: a cancel, its worker's end, or a body fault. */
  predicate EndsIt(events: seq<Event>, k: nat, id: Id)
    requires k < |events|
  {
    events[k] == Cancel(id) || events[k] == WorkerFinished(id) || BodyFault(id) in Sent(events, k)
  }

  /** It was started, at `at`, and nothing ended it since. */
  ghost predicate RunningSince(events: seq<Event>, id: Id, at: nat) {
    && at < |events| && Started(id) in Sent(events, at)
    && forall k :: at < k < |events| ==> !EndsIt(events, k, id)
  }

  ghost predicate Running(events: seq<Event>, id: Id) { exists at :: RunningSince(events, id, at) }

  /** What one event does to the live table. */
  lemma LiveStep(s: Session, e: Event, id: Id)
    ensures id in Handle(s, e).0.table.live
       <==> || Started(id) in Handle(s, e).1
            || (id in s.table.live && e != Cancel(id) && e != WorkerFinished(id) && BodyFault(id) !in Handle(s, e).1)
  {
  }

  lemma RunsOn(events: seq<Event>, id: Id, at: nat)
    requires at < |events| - 1
    ensures RunningSince(events, id, at)
       <==> RunningSince(events[..|events| - 1], id, at) && !EndsIt(events, |events| - 1, id)
  {
    var front := events[..|events| - 1];
    forall k: nat | k < |front|
      ensures Sent(front, k) == Sent(events, k) && (EndsIt(front, k, id) <==> EndsIt(events, k, id))
    {
      assert front[..k] == events[..k];
    }
  }

  lemma RunningStep(events: seq<Event>, id: Id)
    requires events != []
    ensures var last := |events| - 1;
            Running(events, id) <==> Started(id) in Sent(events, last) || (Running(events[..last], id) && !EndsIt(events, last, id))
  {
    var last := |events| - 1;
    if Started(id) in Sent(events, last) {
      assert RunningSince(events, id, last);
    } else if Running(events[..last], id) && !EndsIt(events, last, id) {
      var at :| RunningSince(events[..last], id, at);
      RunsOn(events, id, at);
    } else if Running(events, id) {
      var at :| RunningSince(events, id, at);
      RunsOn(events, id, at);
    }
  }

  /** The live requests are exactly the running ones. */
  lemma {:induction false} LiveIff(events: seq<Event>, id: Id)
    ensures id in After(events).table.live <==> Running(events, id)
  {
    if events != [] {
      var last := |events| - 1;
      LiveIff(events[..last], id);
      LiveStep(After(events[..last]), events[last], id);
      RunningStep(events, id);
    }
  }

  /**
  On every run: each frame of a running request's worker goes out, terminal or not, and no
  frame of any other worker does; a cancel is acknowledged exactly when the request runs.
  */
  lemma RelayedIffRunning(events: seq<Event>, i: nat)
    requires i < |events|
    ensures events[i].WorkerFrame? ==>
              Sent(events, i) == if Running(events[..i], events[i].id) then [Relayed(events[i].id, events[i].terminal)] else []
    ensures events[i].Cancel? ==> Sent(events, i) == if Running(events[..i], events[i].id) then [CancelAck(events[i].id)] else []
  {
    LiveIff(events[..i], events[i].id);
  }

  /**
  On every run: a request starts exactly when it is served and its id neither runs nor is one
  of the last 256 recorded; otherwise it is refused.
  */
  lemma StartedIff(events: seq<Event>, i: nat)
    requires i < |events| && events[i].Request?
    ensures var id := events[i].id;
            Sent(events, i) == if events[i].served && !Running(events[..i], id) && id !in LastEntries(After(events[..i]).log)
                               then [Started(id)] else [Refused(id)]
  {
    LiveIff(events[..i], events[i].id);
    KnownIff(events[..i], events[i].id);
  }

  /** A request that is served and new, after `before`, and what follows it. */
  function Story(before: seq<Event>, id: Id, hasBody: bool, after: seq<Event>): seq<Event> {
    before + [Request(id, hasBody, true)] + after
  }

  /** Nothing in `after` ends the request. */
  predicate Undisturbed(after: seq<Event>, id: Id, hasBody: bool) {
    forall k :: 0 <= k < |after| && after[k].id == id ==>
      && !after[k].Cancel? && !after[k].WorkerFinished?
      && (after[k].BodyChunk? ==> hasBody && after[k].route != OverCredit)
  }

  /** The last chunk of its body has come. */
  predicate LastCame(after: seq<Event>, id: Id) {
    exists k :: 0 <= k < |after| && after[k].id == id && after[k].BodyChunk? && after[k].last
  }

  function BodyNow(after: seq<Event>, id: Id, hasBody: bool): BodyKind {
    if !hasBody then NoBody else if LastCame(after, id) then CompleteBody else OpenBody
  }

  lemma BodyStep(s: Session, e: Event, id: Id, hasBody: bool)
    requires id in s.table.live && (s.table.live[id] == NoBody <==> !hasBody) && Undisturbed([e], id, hasBody)
    ensures var t := Handle(s, e).0.table.live;
            id in t && t[id] == if e.id == id && e.BodyChunk? && e.last then CompleteBody else s.table.live[id]
  {
    assert [e][0] == e;
  }

  lemma {:induction false} StaysLive(before: seq<Event>, id: Id, hasBody: bool, after: seq<Event>)
    requires (forall i :: 0 <= i < |before| ==> before[i].id != id) && Undisturbed(after, id, hasBody)
    ensures var live := After(Story(before, id, hasBody, after)).table.live;
            id in live && live[id] == BodyNow(after, id, hasBody)
    decreases |after|
  {
    if after == [] {
      NotYetNamed(before, id);
      Then(before, Request(id, hasBody, true), Story(before, id, hasBody, after), id);
    } else {
      var front, e := after[..|after| - 1], after[|after| - 1];
      assert after == front + [e];
      StaysLive(before, id, hasBody, front);
      assert Story(before, id, hasBody, after) == Story(before, id, hasBody, front) + [e];
      Then(Story(before, id, hasBody, front), e, Story(before, id, hasBody, after), id);
      BodyStep(After(Story(before, id, hasBody, front)), e, id, hasBody);
      assert LastCame(after, id) <==> LastCame(front, id) || (e.id == id && e.BodyChunk? && e.last);
    }
  }

  /**
  Said of the events alone: while nothing has ended a new request, each event that names it
  draws this answer.
  */
  lemma LiveAnswers(before: seq<Event>, id: Id, hasBody: bool, after: seq<Event>, e: Event)
    requires (forall i :: 0 <= i < |before| ==> before[i].id != id) && Undisturbed(after, id, hasBody) && e.id == id
    ensures var story := Story(before, id, hasBody, after);
            var sent := Sent(story + [e], |story|);
            && (e.WorkerFrame? ==> sent == [Relayed(id, e.terminal)])
            && (e.Cancel? ==> sent == [CancelAck(id)])
            && (e.WorkerFinished? ==> sent == [])
            && (e.Request? ==> sent == [Refused(id)])
            && (e.BodyChunk? && (!hasBody || (e.route == OverCredit && !LastCame(after, id))) ==> sent == [BodyFault(id)])
            && (e.BodyChunk? && hasBody && (e.route != OverCredit || LastCame(after, id)) ==> sent == [])
  {
    var story := Story(before, id, hasBody, after);
    StaysLive(before, id, hasBody, after);
    assert (story + [e])[..|story|] == story;
  }

  // ---------------------------------------------- a request the ring has forgotten

  /** An id longer than `id` by `k + 1`. */
  function Longer(id: Id, k: nat): Id { id + seq(k + 1, _ => 'x') }

  /** Cancels of `n` other ids. */
  function Others(id: Id, n: nat): seq<Event> { seq(n, k requires 0 <= k < n => Cancel(Longer(id, k))) }

  /** `m` body chunks for `id`. */
  function Chunks(id: Id, m: nat): seq<Event> { seq(m, _ => BodyChunk(id, false, Delivered)) }

  function Life(id: Id): seq<Event> { [Request(id, false, true), WorkerFrame(id, true), WorkerFinished(id)] }

  function LogAfter(id: Id, n: nat): seq<Id> { [id] + seq(n, k requires 0 <= k < n => Longer(id, k)) }

  lemma LifeEnds(id: Id)
    ensures After(Life(id)).log == [id] && After(Life(id)).table.live == map[]
    ensures Settled(Life(id), id) == 1 && !Cut(Life(id), id)
  {
    var e := Life(id);
    var live := Session(Table(map[id := NoBody], Ring([], {})), []);
    assert After([]) == Empty && Handle(Empty, e[0]).0 == live && Handle(live, e[1]).0 == live;
    Then([], e[0], [e[0]], id);
    Then([e[0]], e[1], [e[0], e[1]], id);
    Then([e[0], e[1]], e[2], e, id);
    SettledStep(Empty, e[0], id);
    SettledStep(live, e[1], id);
    SettledStep(live, e[2], id);
    assert map[id := NoBody] - {id} == map[];
  }

  lemma OtherIsNew(id: Id, n: nat)
    ensures Longer(id, n) !in LogAfter(id, n) && Longer(id, n) != id
    ensures LogAfter(id, n + 1) == LogAfter(id, n) + [Longer(id, n)]
  {
  }

  /** The log takes the other ids one by one; none of them was known. */
  lemma {:induction false} OthersLogged(id: Id, n: nat)
    ensures After(Life(id) + Others(id, n)).log == LogAfter(id, n)
    ensures After(Life(id) + Others(id, n)).table.live == map[]
    ensures Settled(Life(id) + Others(id, n), id) == 1 && !Cut(Life(id) + Others(id, n), id)
  {
    if n == 0 {
      LifeEnds(id);
      assert Life(id) + Others(id, 0) == Life(id) && LogAfter(id, 0) == [id];
    } else {
      var front, other := Life(id) + Others(id, n - 1), Longer(id, n - 1);
      OthersLogged(id, n - 1);
      OtherIsNew(id, n - 1);
      assert Others(id, n) == Others(id, n - 1) + [Cancel(other)];
      Then(front, Cancel(other), Life(id) + Others(id, n), id);
      OtherCancelled(front, other, id);
    }
  }

  /** A cancel of an id that is neither live nor in the log records it and draws nothing. */
  lemma OtherCancelled(front: seq<Event>, other: Id, id: Id)
    requires After(front).table.live == map[] && other !in After(front).log && other != id
    ensures var t := Handle(After(front), Cancel(other)).0;
            t.log == After(front).log + [other] && t.table.live == map[]
    ensures SettledBy(Handle(After(front), Cancel(other)).1, id) == 0 && !Cuts(After(front), Cancel(other), id)
  {
    KnownIff(front, other);
  }

  /** After 256 other retirements the id is forgotten. */
  lemma Forgotten(id: Id)
    ensures !InUse(After(Life(id) + Others(id, RECENT_FINISHED_CAPACITY)).table, id)
  {
    var events := Life(id) + Others(id, RECENT_FINISHED_CAPACITY);
    OthersLogged(id, RECENT_FINISHED_CAPACITY);
    KnownIff(events, id);
    assert id !in LogAfter(id, RECENT_FINISHED_CAPACITY)[1..];
  }

  lemma OneLifeThere(id: Id, m: nat)
    ensures OneLife(Life(id) + Others(id, RECENT_FINISHED_CAPACITY) + Chunks(id, m), id, 0)
  {
    var events := Life(id) + Others(id, RECENT_FINISHED_CAPACITY) + Chunks(id, m);
    assert events[0] == Request(id, false, true);
    forall i | 1 <= i < |events| ensures !events[i].Request? && (Worker(events[i], id) ==> i == 1) {
      var n := |Life(id)| + RECENT_FINISHED_CAPACITY;
      assert events[i] == if i < 3 then Life(id)[i] else if i < n then Others(id, n - 3)[i - 3] else Chunks(id, m)[i - n];
    }
  }

  /**
  A request that was answered, finished and never cut, then forgotten: each of its late
  body chunks draws another `relay.error`.
  */
  lemma {:induction false} ForgottenChunksSettle(id: Id, m: nat)
    ensures var events := Life(id) + Others(id, RECENT_FINISHED_CAPACITY) + Chunks(id, m);
            && OneLife(events, id, 0) && !Cut(events, id)
            && Settled(events, id) == 1 + m && !InUse(After(events).table, id)
  {
    var start := Life(id) + Others(id, RECENT_FINISHED_CAPACITY);
    var events := start + Chunks(id, m);
    if m == 0 {
      assert events == start;
      OthersLogged(id, RECENT_FINISHED_CAPACITY);
      Forgotten(id);
    } else {
      var front, chunk := start + Chunks(id, m - 1), BodyChunk(id, false, Delivered);
      ForgottenChunksSettle(id, m - 1);
      assert events == front + [chunk];
      Then(front, chunk, events, id);
      SettledStep(After(front), chunk, id);
    }
    OneLifeThere(id, m);
  }
}
