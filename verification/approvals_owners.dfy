/**
Which identity a code stands for over a run, and exactly when it stops doing so. The
comment in `apps/cli/src/approvals.rs` says that a code is never moved to a different identity.
No single step moves one, but a step can let a code go, and the next request takes it.
*/
module ApprovalsOwners {
  import opened Common
  import opened Approvals
  import opened ApprovalsRuns

  /** What a code stands for: nothing, one identity, or two that both asked for it. */
  datatype Owner = Free | Of(id: Identity) | Contested

  function OwnerIn(p: Pending, approved: map<Code, Identity>, phase: Phase, c: Code): Owner {
    if c in p.conflicted then Contested
    else if c in p.entries then Of(p.entries[c])
    else if phase.Approving? && phase.code == c then Of(phase.id)
    else if c in approved then Of(approved[c])
    else Free
  }

  function OwnerOf(s: System, c: Code): Owner { OwnerIn(s.files.pending, s.files.approved, s.phase, c) }

  /** A contested code is neither approved nor between two writes, and one being revoked is no longer approved. */
  ghost predicate Apart(s: System) {
    && (forall c :: c in s.files.pending.conflicted ==> c !in s.files.approved && (s.phase.Idle? || s.phase.code != c))
    && (s.phase.Revoking? ==> s.phase.code !in s.files.approved)
  }

  ghost predicate Good(w: World, s: System) { Inv(w, s) && Apart(s) }

  // ------------------------------------------------------- when a code is let go

  /** The request is accepted under a new code while 64 others are pending, `c` the oldest of them. */
  predicate Evicts(w: World, f: Files, id: Identity, c: Code) {
    && RecordOutcome(w, f, id).Accepted? && w.codeOf(id) !in f.pending.entries
    && |f.pending.order| == 64 && f.pending.order[0] == c
  }

  /** The request contests a code while 64 others are contested, `c` the oldest of them. */
  predicate PushesOut(w: World, f: Files, id: Identity, c: Code) {
    && RecordOutcome(w, f, id).NowConflicted?
    && |f.pending.conflicted| == 64 && f.pending.conflicted[0] == c
  }

  /**
  The step lets go of `c`: a revocation that leaves it nowhere, a failed second write of
  its first approval, or 64 newer requests or conflicts.
  */
  predicate LetsGo(w: World, s: System, step: Step, c: Code) {
    match step
    case RecordStep(id) => (c !in s.files.approved && Evicts(w, s.files, id, c)) || PushesOut(w, s.files, id, c)
    case ApproveFirst(_) => false
    case ApproveSecond(ok) => !ok && s.phase.Approving? && s.phase.code == c && c !in s.files.approved
    case RevokeFirst(d) => d == c && !(c in s.files.approved && c in s.files.pending.entries)
    case RevokeSecond(ok) => ok && s.phase == Revoking(c)
  }

  /** Another identity asks for a code that is pending and not approved. */
  predicate Contests(w: World, s: System, step: Step, c: Code) {
    && step.RecordStep? && w.codeOf(step.id) == c && c !in s.files.approved && c !in s.files.pending.conflicted
    && c in s.files.pending.entries && s.files.pending.entries[c] != step.id
  }

  /** An identity asks for a code that stands for nothing. */
  predicate Takes(w: World, s: System, step: Step, c: Code) {
    step.RecordStep? && w.codeOf(step.id) == c && OwnerOf(s, c).Free?
  }

  // -------------------------------------------------------- what a request changes

  lemma {:induction false} WithoutLength(s: seq<Code>, c: Code)
    requires Distinct(s)
    ensures |Without(s, c)| == |s| - if c in s then 1 else 0
    ensures c !in s ==> Without(s, c) == s
    decreases |s|
  {
    if s != [] {
      var n := |s| - 1;
      assert s == s[..n] + [s[n]];
      WithoutLength(s[..n], c);
    }
  }

  lemma InsertExact(w: World, p: Pending, c: Code, id: Identity)
    requires PendingOk(w, p)
    ensures var q := Insert(p, c, id);
            q.entries == (if c !in p.entries && |p.order| == PENDING_CAP then p.entries[c := id] - {p.order[0]}
                          else p.entries[c := id])
            && q.conflicted == p.conflicted
  {
    WithoutLength(p.order, c);
    var r := p.(entries := p.entries[c := id], order := Without(p.order, c) + [c]);
    if c !in p.entries && |p.order| == PENDING_CAP {
      assert c !in p.order;
      assert r.order[0] == p.order[0];
      var t := r.(entries := r.entries - {r.order[0]}, order := r.order[1..]);
      assert Evict(r) == Evict(t) && Evict(t) == t;
    } else {
      assert c in p.entries ==> c in p.order;
    }
  }

  lemma MarkedExact(conflicted: seq<Code>, d: Code, c: Code)
    requires Distinct(conflicted) && |conflicted| <= PENDING_CAP && d !in conflicted
    ensures c in DropOldest(conflicted + [d])
       <==> c == d || (c in conflicted && !(|conflicted| == PENDING_CAP && conflicted[0] == c))
  {
    var marked := conflicted + [d];
    assert marked[|marked| - 1] == d;
    if |conflicted| == PENDING_CAP {
      assert marked == [conflicted[0]] + marked[1..];
      assert marked[1..][|marked| - 2] == d;
      assert marked[1..] == conflicted[1..] + [d] && conflicted == [conflicted[0]] + conflicted[1..];
    }
  }

  /** What a step does to the owner of a code, said in full. */
  function OwnerAfter(w: World, s: System, step: Step, c: Code): Owner {
    if LetsGo(w, s, step, c) then Free
    else if Takes(w, s, step, c) then Of(step.id)
    else if Contests(w, s, step, c) then Contested
    else OwnerOf(s, c)
  }

  lemma AcceptedOwner(w: World, s: System, id: Identity, c: Code)
    requires Sane(w) && Good(w, s) && s.phase.Idle? && RecordOutcome(w, s.files, id).Accepted?
    ensures OwnerOf(Apply(w, s, RecordStep(id)), c) == OwnerAfter(w, s, RecordStep(id), c)
  {
    OrderedAlready(w, s.files.pending);
    InsertExact(w, s.files.pending, w.codeOf(id), id);
    if |s.files.pending.order| == PENDING_CAP { assert s.files.pending.order[0] in s.files.pending.order; }
  }

  lemma ConflictOwner(w: World, s: System, id: Identity, c: Code)
    requires Sane(w) && Good(w, s) && s.phase.Idle? && RecordOutcome(w, s.files, id).NowConflicted?
    ensures OwnerOf(Apply(w, s, RecordStep(id)), c) == OwnerAfter(w, s, RecordStep(id), c)
  {
    OrderedAlready(w, s.files.pending);
    MarkedExact(s.files.pending.conflicted, w.codeOf(id), c);
    if |s.files.pending.conflicted| == PENDING_CAP {
      assert s.files.pending.conflicted[0] in s.files.pending.conflicted;
    }
  }

  lemma ClearOwner(p: Pending, d: Code, approved: map<Code, Identity>, c: Code)
    ensures OwnerIn(Clear(p, d), approved, Idle, c)
         == if c == d then if c in approved then Of(approved[c]) else Free else OwnerIn(p, approved, Idle, c)
  {
    WithoutHas(p.conflicted, d, c);
  }

  lemma RevokeOwner(w: World, s: System, step: Step, c: Code)
    requires Good(w, s) && Enabled(s, step) && (step.RevokeFirst? || step.RevokeSecond?)
    ensures OwnerOf(Apply(w, s, step), c) == OwnerAfter(w, s, step, c)
  {
    ClearOwner(s.files.pending, if step.RevokeFirst? then step.code else s.phase.code, s.files.approved, c);
  }

  /** Every step does to every code's owner exactly what `OwnerAfter` says. */
  lemma StepOwner(w: World, s: System, step: Step, c: Code)
    requires Sane(w) && Good(w, s) && Enabled(s, step)
    ensures OwnerOf(Apply(w, s, step), c) == OwnerAfter(w, s, step, c)
  {
    match step
    case RecordStep(id) =>
      match RecordOutcome(w, s.files, id) {
        case Accepted => AcceptedOwner(w, s, id, c);
        case NowConflicted => ConflictOwner(w, s, id, c);
        case TakenByAnother =>
        case AlreadyConflicted =>
      }
    case ApproveFirst(_) =>
    case ApproveSecond(_) =>
    case RevokeFirst(_) => RevokeOwner(w, s, step, c);
    case RevokeSecond(_) => RevokeOwner(w, s, step, c);
  }

  lemma ClearApart(s: System, d: Code)
    ensures forall c :: c in Clear(s.files.pending, d).conflicted ==> c in s.files.pending.conflicted && c != d
  {
    forall c | c in Clear(s.files.pending, d).conflicted ensures c in s.files.pending.conflicted && c != d {
      WithoutHas(s.files.pending.conflicted, d, c);
    }
  }

  lemma RecordApart(w: World, s: System, id: Identity)
    requires Sane(w) && Good(w, s) && s.phase.Idle?
    ensures Apart(Apply(w, s, RecordStep(id)))
  {
    var p, d := s.files.pending, w.codeOf(id);
    OrderedAlready(w, p);
    match RecordOutcome(w, s.files, id)
    case Accepted => InsertExact(w, p, d, id);
    case NowConflicted =>
      forall c ensures c in DropOldest(p.conflicted + [d]) ==> c in p.conflicted || c == d {
        MarkedExact(p.conflicted, d, c);
      }
    case TakenByAnother =>
    case AlreadyConflicted =>
  }

  lemma StepKeepsApart(w: World, s: System, step: Step)
    requires Sane(w) && Good(w, s) && Enabled(s, step)
    ensures Apart(Apply(w, s, step))
  {
    match step
    case RecordStep(id) => RecordApart(w, s, id);
    case ApproveFirst(_) =>
    case ApproveSecond(_) =>
    case RevokeFirst(d) => ClearApart(s, d);
    case RevokeSecond(_) => ClearApart(s, s.phase.code);
  }

  lemma {:induction false} AlwaysGood(w: World, b: seq<System>, steps: seq<Step>, i: nat)
    requires Sane(w) && Behaviour(w, b, steps) && i < |b|
    ensures Good(w, b[i])
    decreases i
  {
    Reachable(w, b, steps, i);
    if i > 0 {
      AlwaysGood(w, b, steps, i - 1);
      StepKeepsApart(w, b[i - 1], steps[i - 1]);
    }
  }

  lemma OwnerNext(w: World, b: seq<System>, steps: seq<Step>, k: nat, c: Code)
    requires Sane(w) && Behaviour(w, b, steps) && k < |steps|
    ensures OwnerOf(b[k + 1], c) == OwnerAfter(w, b[k], steps[k], c)
  {
    AlwaysGood(w, b, steps, k);
    StepOwner(w, b[k], steps[k], c);
  }

  // -------------------------------------------------------------------- whole runs

  /** `c` stands for `id` from state `i` to state `j`. */
  predicate Stays(b: seq<System>, i: nat, j: nat, c: Code, id: Identity)
    requires i <= j < |b|
  {
    forall k :: i <= k <= j ==> OwnerOf(b[k], c) == Of(id)
  }

  /** Some step from state `i` to state `j` lets go of `c`. */
  predicate LetGo(w: World, b: seq<System>, steps: seq<Step>, i: nat, j: nat, c: Code)
    requires i <= j < |b| == |steps| + 1
  {
    exists k {:trigger steps[k]} :: i <= k < j && LetsGo(w, b[k], steps[k], c)
  }

  lemma OwnerStays(w: World, b: seq<System>, steps: seq<Step>, k: nat, c: Code, id: Identity)
    requires Sane(w) && Behaviour(w, b, steps) && k < |steps| && OwnerOf(b[k], c) == Of(id)
    ensures OwnerOf(b[k + 1], c) == Of(id) <==> !LetsGo(w, b[k], steps[k], c) && !Contests(w, b[k], steps[k], c)
  {
    OwnerNext(w, b, steps, k, c);
  }

  /** A code keeps its identity exactly as long as no step lets it go and no other identity contends for it. */
  lemma {:induction false} KeepsIdentity(w: World, b: seq<System>, steps: seq<Step>, i: nat, j: nat, c: Code, id: Identity)
    requires Sane(w) && Behaviour(w, b, steps) && i <= j < |b| && OwnerOf(b[i], c) == Of(id)
    ensures Stays(b, i, j, c, id)
       <==> forall k {:trigger steps[k]} :: i <= k < j ==> !LetsGo(w, b[k], steps[k], c) && !Contests(w, b[k], steps[k], c)
    decreases j - i
  {
    if i < j {
      KeepsIdentity(w, b, steps, i, j - 1, c, id);
      assert Stays(b, i, j, c, id) <==> Stays(b, i, j - 1, c, id) && OwnerOf(b[j], c) == Of(id);
      if Stays(b, i, j - 1, c, id) { OwnerStays(w, b, steps, j - 1, c, id); }
    }
  }

  /** A code that no step lets go never comes to stand for a different identity. */
  lemma {:induction false} NeverMoves(w: World, b: seq<System>, steps: seq<Step>, i: nat, j: nat, c: Code)
    requires Sane(w) && Behaviour(w, b, steps) && i <= j < |b| && OwnerOf(b[i], c).Of?
    requires !LetGo(w, b, steps, i, j, c)
    ensures OwnerOf(b[j], c) == OwnerOf(b[i], c) || OwnerOf(b[j], c).Contested?
    decreases j - i
  {
    if i < j {
      NeverMoves(w, b, steps, i, j - 1, c);
      OwnerNext(w, b, steps, j - 1, c);
      assert !LetsGo(w, b[j - 1], steps[j - 1], c);
    }
  }

  // ------------------------------------------------- a code that moves, unrevoked

  function Asked(w: World, id: Identity, phase: Phase): System {
    System(Files(Pending(map[w.codeOf(id) := id], [w.codeOf(id)], []), map[]), phase)
  }

  lemma FirstRequest(w: World, id: Identity)
    requires Sane(w)
    ensures Apply(w, System(EMPTY, Idle), RecordStep(id)) == Asked(w, id, Idle)
  {
    var c := w.codeOf(id);
    OrderedAlready(w, EMPTY.pending);
    assert Without([], c) + [c] == [c];
    assert map[][c := id] == map[c := id];
  }

  lemma FirstApproval(w: World, id: Identity)
    ensures var c := w.codeOf(id);
            && Enabled(Asked(w, id, Idle), ApproveFirst(c))
            && Apply(w, Asked(w, id, Idle), ApproveFirst(c)) == System(EMPTY, Approving(c, id))
  {
    var c := w.codeOf(id);
    assert [c][..0] == [] && Without([c], c) == [];
    assert map[c := id] - {c} == map[];
  }

  /** A failed second write of an approval frees the code, and another identity takes it: no revocation is needed. */
  lemma MovesWithoutRevocation(w: World, a: Identity, z: Identity) returns (b: seq<System>, steps: seq<Step>)
    requires Sane(w) && w.codeOf(a) == w.codeOf(z) && a != z
    ensures Behaviour(w, b, steps)
    ensures steps == [RecordStep(a), ApproveFirst(w.codeOf(a)), ApproveSecond(false), RecordStep(z)]
    ensures var c := w.codeOf(a);
            b[1].files.pending.entries == map[c := a] && b[4].files.pending.entries == map[c := z]
  {
    var c := w.codeOf(a);
    FirstRequest(w, a);
    FirstApproval(w, a);
    FirstRequest(w, z);
    b := [System(EMPTY, Idle), Asked(w, a, Idle), System(EMPTY, Approving(c, a)), System(EMPTY, Idle), Asked(w, z, Idle)];
    steps := [RecordStep(a), ApproveFirst(c), ApproveSecond(false), RecordStep(z)];
  }

  // --------------------------------------------------------- how long a mark lasts

  predicate IsRevocation(step: Step) { step.RevokeFirst? || step.RevokeSecond? }

  lemma MarkShifts(conflicted: seq<Code>, d: Code, c: Code, n: nat)
    requires n + 1 < PENDING_CAP && Marked(conflicted, c, n)
    ensures Marked(DropOldest(conflicted + [d]), c, n + 1)
  {
  }

  lemma MarkDrops(conflicted: seq<Code>, d: Code, c: Code)
    requires Distinct(conflicted) && |conflicted| == PENDING_CAP && d !in conflicted && conflicted[0] == c
    ensures c !in DropOldest(conflicted + [d])
  {
    assert c in conflicted;
    MarkedExact(conflicted, d, c);
  }

  lemma StepMovesMark(w: World, s: System, step: Step, c: Code, n: nat)
    requires Sane(w) && Inv(w, s) && Enabled(s, step) && !IsRevocation(step) && Marked(s.files.pending.conflicted, c, n)
    ensures var marks := Apply(w, s, step).files.pending.conflicted;
            if !Conflicts(w, s, step) then Marked(marks, c, n)
            else if n + 1 < PENDING_CAP then Marked(marks, c, n + 1)
            else c !in marks
  {
    if step.RecordStep? {
      var d := w.codeOf(step.id);
      OrderedAlready(w, s.files.pending);
      match RecordOutcome(w, s.files, step.id) {
        case Accepted => InsertExact(w, s.files.pending, d, step.id);
        case NowConflicted =>
          if n + 1 < PENDING_CAP {
            MarkShifts(s.files.pending.conflicted, d, c, n);
          } else {
            MarkDrops(s.files.pending.conflicted, d, c);
          }
        case TakenByAnother =>
        case AlreadyConflicted =>
      }
    }
  }

  predicate HasMark(s: System, c: Code) { c in s.files.pending.conflicted }

  /** Where the mark is after one more step: `more` newer ones after it, or gone. */
  lemma MarkNext(w: World, b: seq<System>, steps: seq<Step>, k: nat, c: Code, m: nat, more: nat)
    requires Sane(w) && Behaviour(w, b, steps) && k < |steps| && !IsRevocation(steps[k])
    requires Marked(b[k].files.pending.conflicted, c, m) && m < PENDING_CAP
    requires more == m + if Conflicts(w, b[k], steps[k]) then 1 else 0
    ensures more < PENDING_CAP ==> Marked(b[k + 1].files.pending.conflicted, c, more)
    ensures HasMark(b[k + 1], c) <==> more < PENDING_CAP
  {
    Reachable(w, b, steps, k);
    StepMovesMark(w, b[k], steps[k], c, m);
  }

  predicate StaysMarked(b: seq<System>, i: nat, j: nat, c: Code)
    requires i <= j < |b|
  {
    forall k {:trigger HasMark(b[k], c)} :: i <= k <= j ==> HasMark(b[k], c)
  }

  lemma StaysMarkedNext(b: seq<System>, i: nat, j: nat, c: Code)
    requires i < j < |b|
    ensures StaysMarked(b, i, j, c) <==> StaysMarked(b, i, j - 1, c) && HasMark(b[j], c)
  {
  }

  /** With no revocation, a mark with `n` newer ones stays exactly until there have been 64 newer in all. */
  lemma {:induction false} MarkLastsExactly(w: World, b: seq<System>, steps: seq<Step>, i: nat, j: nat, c: Code, n: nat)
    requires Sane(w) && Behaviour(w, b, steps) && i <= j < |b| && n < PENDING_CAP
    requires Marked(b[i].files.pending.conflicted, c, n)
    requires forall k {:trigger steps[k]} :: i <= k < j ==> !IsRevocation(steps[k])
    ensures StaysMarked(b, i, j, c) <==> n + Count(w, b, steps, i, j) < PENDING_CAP
    ensures StaysMarked(b, i, j, c) ==> Marked(b[j].files.pending.conflicted, c, n + Count(w, b, steps, i, j))
    decreases j - i
  {
    if i < j {
      MarkLastsExactly(w, b, steps, i, j - 1, c, n);
      StaysMarkedNext(b, i, j, c);
      var m := n + Count(w, b, steps, i, j - 1);
      if m < PENDING_CAP { MarkNext(w, b, steps, j - 1, c, m, n + Count(w, b, steps, i, j)); }
    }
  }

  /** On every run a mark stays exactly until its code is revoked or a conflict finds 63 newer marks in force. */
  lemma {:induction false} MarkLastsIff(w: World, b: seq<System>, steps: seq<Step>, i: nat, j: nat, c: Code)
    requires Sane(w) && Behaviour(w, b, steps) && i <= j < |b| && HasMark(b[i], c)
    ensures StaysMarked(b, i, j, c) <==> !LetGo(w, b, steps, i, j, c)
    decreases j - i
  {
    if i < j {
      MarkLastsIff(w, b, steps, i, j - 1, c);
      StaysMarkedNext(b, i, j, c);
      OwnerNext(w, b, steps, j - 1, c);
      assert StaysMarked(b, i, j - 1, c) ==> HasMark(b[j - 1], c);
    }
  }

  /** What lets go of a mark. */
  lemma MarkLetGoIff(w: World, s: System, step: Step, c: Code)
    requires Good(w, s) && Enabled(s, step) && HasMark(s, c)
    ensures LetsGo(w, s, step, c)
       <==> step == RevokeFirst(c) || (Conflicts(w, s, step) && Marked(s.files.pending.conflicted, c, PENDING_CAP - 1))
  {
    var marks := s.files.pending.conflicted;
    if step.RecordStep? && |marks| == PENDING_CAP {
      assert marks[|marks| - 1 - (PENDING_CAP - 1)] == marks[0];
      assert marks[0] == c || Marked(marks, c, PENDING_CAP - 1) ==> marks[0] == c;
    }
  }
}
