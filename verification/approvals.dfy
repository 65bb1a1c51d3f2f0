/**
Terminal approvals (`apps/cli/src/approvals.rs`): browser identities ask for approval under a
short code, and an operator approves or revokes the code.

Two files hold the state. `Store` edits them in program order; every write may fail, which
ends the operation there. A run is any sequence of operations from empty files, with the
states between two writes of one operation counted as states of the run.
*/
module Approvals {
  import opened Common

  type Code = string
  type Identity = string

  const PENDING_CAP := 64

  /** The code of an identity, and the file's key order for a set of codes. */
  datatype World = World(codeOf: Identity -> Code, sorted: set<Code> -> seq<Code>)

  ghost predicate Lists(s: seq<Code>, codes: set<Code>) {
    Distinct(s) && (forall c :: c in s <==> c in codes)
  }

  ghost predicate Sane(w: World) { forall codes: set<Code> :: Lists(w.sorted(codes), codes) }

  // ------------------------------------------------------------------- the files

  datatype Pending = Pending(entries: map<Code, Identity>, order: seq<Code>, conflicted: seq<Code>)

  datatype Files = Files(pending: Pending, approved: map<Code, Identity>)

  const EMPTY := Files(Pending(map[], [], []), map[])

  function Without(s: seq<Code>, c: Code): seq<Code> {
    if s == [] then []
    else
      var n := |s| - 1;
      Without(s[..n], c) + if s[n] == c then [] else [s[n]]
  }

  datatype Recorded = Accepted | TakenByAnother | AlreadyConflicted | NowConflicted

  function RecordOutcome(w: World, f: Files, id: Identity): Recorded {
    var c := w.codeOf(id);
    if c in f.approved && f.approved[c] != id then TakenByAnother
    else if c in f.pending.conflicted then AlreadyConflicted
    else if c in f.pending.entries && f.pending.entries[c] != id then NowConflicted
    else Accepted
  }

  /** An older file has no order; its keys are listed first. */
  function Ordered(w: World, p: Pending): Pending {
    if p.order == [] then p.(order := w.sorted(p.entries.Keys)) else p
  }

  function DropOldest(conflicted: seq<Code>): seq<Code> {
    if |conflicted| > PENDING_CAP then conflicted[1..] else conflicted
  }

  function MarkConflict(p: Pending, c: Code): Pending {
    Pending(p.entries - {c}, Without(p.order, c), DropOldest(p.conflicted + [c]))
  }

  function Evict(p: Pending): Pending
    decreases |p.order|
  {
    if |p.order| > PENDING_CAP then Evict(p.(entries := p.entries - {p.order[0]}, order := p.order[1..])) else p
  }

  function Insert(p: Pending, c: Code, id: Identity): Pending {
    Evict(p.(entries := p.entries[c := id], order := Without(p.order, c) + [c]))
  }

  /** The pending file a successful write leaves after a request. */
  function Record(w: World, f: Files, id: Identity): Pending {
    var c := w.codeOf(id);
    match RecordOutcome(w, f, id)
    case Accepted => Insert(Ordered(w, f.pending), c, id)
    case NowConflicted => MarkConflict(Ordered(w, f.pending), c)
    case TakenByAnother => f.pending
    case AlreadyConflicted => f.pending
  }

  datatype Approved = Ready(id: Identity) | Conflicted | NotFound | ApprovedForAnother

  function ApproveOutcome(f: Files, c: Code): Approved {
    if c in f.pending.conflicted then Conflicted
    else if c !in f.pending.entries then NotFound
    else if c in f.approved && f.approved[c] != f.pending.entries[c] then ApprovedForAnother
    else Ready(f.pending.entries[c])
  }

  function Forget(p: Pending, c: Code): Pending {
    p.(entries := p.entries - {c}, order := Without(p.order, c))
  }

  /** What a revocation writes to the pending file. */
  function Clear(p: Pending, c: Code): Pending {
    Forget(p, c).(conflicted := Without(p.conflicted, c))
  }

  predicate InPending(p: Pending, c: Code) { c in p.entries || c in p.conflicted }

  // ----------------------------------------------------------------- the store

  method Retain(s: seq<Code>, c: Code) returns (r: seq<Code>)
    ensures r == Without(s, c)
  {
    r := [];
    for k := 0 to |s|
      invariant r == Without(s[..k], c)
    {
      assert s[..k + 1][..k] == s[..k];
      if s[k] != c {
        r := r + [s[k]];
      }
    }
    assert s[..|s|] == s;
  }

  class Store {
    const w: World
    var entries: map<Code, Identity>
    var order: seq<Code>
    var conflicted: seq<Code>
    var approved: map<Code, Identity>

    constructor (w: World)
      ensures this.w == w && Value() == EMPTY
    {
      this.w := w;
      entries, order, conflicted, approved := map[], [], [], map[];
    }

    function Value(): Files
      reads this
    {
      Files(Pending(entries, order, conflicted), approved)
    }

    method RecordPending(id: Identity, writeOk: bool) returns (r: Recorded, done: bool)
      modifies this
      ensures r == RecordOutcome(w, old(Value()), id) && done == (r.Accepted? && writeOk)
      ensures Value() == if writeOk then old(Value()).(pending := Record(w, old(Value()), id)) else old(Value())
    {
      var code := w.codeOf(id);
      if code in approved && approved[code] != id {
        return TakenByAnother, false;
      }
      if code in conflicted {
        return AlreadyConflicted, false;
      }
      var es, os, cs := entries, order, conflicted;
      if os == [] {
        os := w.sorted(es.Keys);
      }
      if code in es && es[code] != id {
        es := es - {code};
        os := Retain(os, code);
        cs := cs + [code];
        if |cs| > PENDING_CAP {
          cs := cs[1..];
        }
        if writeOk {
          entries, order, conflicted := es, os, cs;
        }
        return NowConflicted, false;
      }
      es := es[code := id];
      os := Retain(os, code);
      os := os + [code];
      ghost var target := Evict(Pending(es, os, cs));
      while |os| > PENDING_CAP
        invariant Evict(Pending(es, os, cs)) == target
        decreases |os|
      {
        es, os := es - {os[0]}, os[1..];
      }
      if writeOk {
        entries, order, conflicted := es, os, cs;
      }
      return Accepted, writeOk;
    }

    /** `code` is nothing when it is not a well-formed code. */
    method Approve(code: Option<Code>, pendingOk: bool, approvedOk: bool) returns (r: Option<Approved>, done: bool)
      modifies this
      ensures code.None? ==> r == None && Value() == old(Value())
      ensures code.Some? ==> r == Some(ApproveOutcome(old(Value()), code.value))
      ensures done == (r.Some? && r.value.Ready? && pendingOk && approvedOk)
      ensures code.Some? ==>
        var f := old(Value());
        if !r.value.Ready? || !pendingOk then Value() == f
        else if !approvedOk then Value() == f.(pending := Forget(f.pending, code.value))
        else Value() == Files(Forget(f.pending, code.value), f.approved[code.value := r.value.id])
    {
      if code.None? {
        return None, false;
      }
      var c := code.value;
      if c in conflicted {
        return Some(Conflicted), false;
      }
      if c !in entries {
        return Some(NotFound), false;
      }
      var id, es := entries[c], entries - {c};
      if c in approved && approved[c] != id {
        return Some(ApprovedForAnother), false;
      }
      r := Some(Ready(id));
      if !pendingOk {
        return r, false;
      }
      var os := Retain(order, c);
      entries, order := es, os;
      if !approvedOk {
        return r, false;
      }
      approved := approved[c := id];
      done := true;
    }

    method Revoke(code: Option<Code>, approvedOk: bool, pendingOk: bool) returns (found: bool, done: bool)
      modifies this
      ensures code.None? ==> !found && Value() == old(Value())
      ensures code.Some? ==>
        var f, c := old(Value()), code.value;
        var half := if c in f.approved && approvedOk then f.(approved := f.approved - {c}) else f;
        && found == (c in f.approved || InPending(f.pending, c))
        && done == (found && (c in f.approved ==> approvedOk) && (InPending(f.pending, c) ==> pendingOk))
        && Value() == if (c in f.approved ==> approvedOk) && InPending(f.pending, c) && pendingOk
                      then half.(pending := Clear(f.pending, c)) else half
    {
      if code.None? {
        return false, false;
      }
      var c := code.value;
      var removedApproved, removedConflict := c in approved, c in conflicted;
      var cs := Retain(conflicted, c);
      var removedPending := c in entries || removedConflict;
      if !removedApproved && !removedPending {
        return false, false;
      }
      if removedApproved {
        if !approvedOk {
          return true, false;
        }
        approved := approved - {c};
      }
      if removedPending {
        if !pendingOk {
          return true, false;
        }
        var os := Retain(order, c);
        entries, order, conflicted := entries - {c}, os, cs;
      }
      return true, true;
    }
  }
}
