/**
What requests and approvals are answered over whole runs, and in which order pending codes are
pushed out: the one whose identity asked longest ago goes first.
*/
module ApprovalsOrder {
  import opened Approvals
  import opened ApprovalsRuns
  import opened ApprovalsOwners

  // -------------------------------------------------------------------- the answers

  /**
  In every idle state of every run a request is accepted exactly when its code stands for
  nobody or for the identity that asks; else it is told why not.
  */
  lemma RequestAnswered(w: World, b: seq<System>, steps: seq<Step>, i: nat, id: Identity)
    requires Sane(w) && Behaviour(w, b, steps) && i < |b| && b[i].phase.Idle?
    ensures var answer, owner := RecordOutcome(w, b[i].files, id), OwnerOf(b[i], w.codeOf(id));
            && (answer == Accepted <==> owner == Free || owner == Of(id))
            && (answer == AlreadyConflicted <==> owner == Contested)
            && (answer == NowConflicted <==> owner.Of? && owner.id != id && w.codeOf(id) !in b[i].files.approved)
            && (answer == TakenByAnother <==> owner.Of? && owner.id != id && w.codeOf(id) in b[i].files.approved)
  {
    AlwaysGood(w, b, steps, i);
  }

  /** And an approval finds exactly the identity its code is pending for. */
  lemma ApprovalAnswered(w: World, b: seq<System>, steps: seq<Step>, i: nat, c: Code)
    requires Sane(w) && Behaviour(w, b, steps) && i < |b|
    ensures var answer, f := ApproveOutcome(b[i].files, c), b[i].files;
            && (answer.Ready? <==> c in f.pending.entries)
            && (answer.Ready? ==> OwnerOf(b[i], c) == Of(answer.id))
            && (answer == Conflicted <==> OwnerOf(b[i], c) == Contested)
  {
    AlwaysGood(w, b, steps, i);
  }

  // ----------------------------------------------------------------------- the order

  /** Step `k` is a request under `c` that is accepted. */
  predicate Asks(w: World, b: seq<System>, steps: seq<Step>, k: nat, c: Code)
    requires k < |steps| < |b|
  {
    steps[k].RecordStep? && w.codeOf(steps[k].id) == c && RecordOutcome(w, b[k].files, steps[k].id).Accepted?
  }

  /** One more than the step that last asked for `c`, before step `i`; 0 if there was none. */
  function LastAsked(w: World, b: seq<System>, steps: seq<Step>, i: nat, c: Code): (n: nat)
    requires i <= |steps| < |b|
    ensures n <= i && (n > 0 ==> Asks(w, b, steps, n - 1, c))
    ensures forall k :: n <= k < i ==> !Asks(w, b, steps, k, c)
  {
    if i == 0 then 0 else if Asks(w, b, steps, i - 1, c) then i else LastAsked(w, b, steps, i - 1, c)
  }

  /** From the code last asked for longest ago to the most recent. */
  predicate ByAge(w: World, b: seq<System>, steps: seq<Step>, i: nat, s: seq<Code>)
    requires i <= |steps| < |b|
  {
    forall x, y :: 0 <= x < y < |s| ==> LastAsked(w, b, steps, i, s[x]) < LastAsked(w, b, steps, i, s[y])
  }

  lemma {:induction false} WithoutByAge(w: World, b: seq<System>, steps: seq<Step>, i: nat, s: seq<Code>, c: Code)
    requires i <= |steps| < |b| && ByAge(w, b, steps, i, s)
    ensures ByAge(w, b, steps, i, Without(s, c))
    decreases |s|
  {
    if s != [] {
      var n := |s| - 1;
      WithoutByAge(w, b, steps, i, s[..n], c);
      var rest := Without(s[..n], c);
      forall x | 0 <= x < |rest| ensures LastAsked(w, b, steps, i, rest[x]) < LastAsked(w, b, steps, i, s[n]) {
        WithoutHas(s[..n], c, rest[x]);
      }
    }
  }

  lemma {:induction false} EvictDrops(p: Pending) returns (k: nat)
    ensures k <= |p.order| && Evict(p).order == p.order[k..]
    decreases |p.order|
  {
    k := 0;
    if |p.order| > PENDING_CAP {
      var rest := p.(entries := p.entries - {p.order[0]}, order := p.order[1..]);
      var m := EvictDrops(rest);
      k := m + 1;
    }
  }

  /** An accepted request makes its code the most recent. */
  lemma AskedByAge(w: World, b: seq<System>, steps: seq<Step>, i: nat, c: Code, s: seq<Code>)
    requires i < |steps| < |b| && Asks(w, b, steps, i, c) && ByAge(w, b, steps, i, s) && c !in s
    ensures ByAge(w, b, steps, i + 1, s + [c])
  {
    assert forall x :: 0 <= x < |s| ==> LastAsked(w, b, steps, i + 1, s[x]) == LastAsked(w, b, steps, i, s[x]) <= i;
  }

  lemma QuietByAge(w: World, b: seq<System>, steps: seq<Step>, i: nat, s: seq<Code>)
    requires i < |steps| < |b| && ByAge(w, b, steps, i, s) && forall c :: c in s ==> !Asks(w, b, steps, i, c)
    ensures ByAge(w, b, steps, i + 1, s)
  {
    assert forall x :: 0 <= x < |s| ==> LastAsked(w, b, steps, i + 1, s[x]) == LastAsked(w, b, steps, i, s[x]);
  }

  lemma AcceptedByAge(w: World, b: seq<System>, steps: seq<Step>, i: nat)
    requires Sane(w) && Behaviour(w, b, steps) && i < |steps| && steps[i].RecordStep?
    requires RecordOutcome(w, b[i].files, steps[i].id).Accepted? && ByAge(w, b, steps, i, b[i].files.pending.order)
    ensures ByAge(w, b, steps, i + 1, b[i + 1].files.pending.order)
  {
    var p, id := b[i].files.pending, steps[i].id;
    var c := w.codeOf(id);
    Reachable(w, b, steps, i);
    OrderedAlready(w, p);
    WithoutByAge(w, b, steps, i, p.order, c);
    WithoutHas(p.order, c, c);
    AskedByAge(w, b, steps, i, c, Without(p.order, c));
    var k := EvictDrops(p.(entries := p.entries[c := id], order := Without(p.order, c) + [c]));
    assert b[i + 1].files.pending == Insert(p, c, id);
  }

  lemma OtherByAge(w: World, b: seq<System>, steps: seq<Step>, i: nat)
    requires Sane(w) && Behaviour(w, b, steps) && i < |steps|
    requires !(steps[i].RecordStep? && RecordOutcome(w, b[i].files, steps[i].id).Accepted?)
    requires ByAge(w, b, steps, i, b[i].files.pending.order)
    ensures ByAge(w, b, steps, i + 1, b[i + 1].files.pending.order)
  {
    var p, t := b[i].files.pending, b[i + 1];
    Reachable(w, b, steps, i);
    OrderedAlready(w, p);
    var c := Touched(w, b[i], steps[i]);
    assert t == Apply(w, b[i], steps[i]);
    WithoutByAge(w, b, steps, i, p.order, c);
    assert t.files.pending.order == p.order || t.files.pending.order == Without(p.order, c);
    QuietByAge(w, b, steps, i, t.files.pending.order);
  }

  /** The code a step is about. */
  function Touched(w: World, s: System, step: Step): Code {
    match step
    case RecordStep(id) => w.codeOf(id)
    case ApproveFirst(c) => c
    case RevokeFirst(c) => c
    case _ => if s.phase.Idle? then "" else s.phase.code
  }

  /** On every run the pending codes stand in the order in which they were last asked for. */
  lemma {:induction false} OrderIsByAge(w: World, b: seq<System>, steps: seq<Step>, i: nat)
    requires Sane(w) && Behaviour(w, b, steps) && i < |b|
    ensures ByAge(w, b, steps, i, b[i].files.pending.order)
    decreases i
  {
    if i > 0 {
      OrderIsByAge(w, b, steps, i - 1);
      if steps[i - 1].RecordStep? && RecordOutcome(w, b[i - 1].files, steps[i - 1].id).Accepted? {
        AcceptedByAge(w, b, steps, i - 1);
      } else {
        OtherByAge(w, b, steps, i - 1);
      }
    }
  }

  /** So the code that a new one pushes out is the pending one last asked for longest ago. */
  lemma EvictsOldest(w: World, b: seq<System>, steps: seq<Step>, i: nat, id: Identity, c: Code, d: Code)
    requires Sane(w) && Behaviour(w, b, steps) && i < |b| && Evicts(w, b[i].files, id, c)
    requires d in b[i].files.pending.entries && d != c
    ensures LastAsked(w, b, steps, i, c) < LastAsked(w, b, steps, i, d)
  {
    Reachable(w, b, steps, i);
    OrderIsByAge(w, b, steps, i);
    var order := b[i].files.pending.order;
    assert d in order;
    var y :| 0 <= y < |order| && order[y] == d;
    assert order[0] == c;
  }
}
