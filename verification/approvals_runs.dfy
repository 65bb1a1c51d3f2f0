/**
Every run of record, approve and revoke from empty files: no step moves a code from one
identity to another, and an approved identity stays until its code is revoked. When a code
that is only pending keeps its identity over a run is in `ApprovalsOwners`.
*/
module ApprovalsRuns {
  import opened Common
  import opened Approvals

  // -------------------------------------------------------------- the invariant

  predicate OwnCodes(w: World, m: map<Code, Identity>) { forall c :: c in m ==> w.codeOf(m[c]) == c }

  ghost predicate PendingOk(w: World, p: Pending) {
    && Lists(p.order, p.entries.Keys) && |p.order| <= PENDING_CAP
    && OwnCodes(w, p.entries)
    && Distinct(p.conflicted) && |p.conflicted| <= PENDING_CAP
    && (forall c :: c in p.conflicted ==> c !in p.entries)
  }

  /** A code that is both pending and approved names one identity. */
  predicate OneIdentity(a: map<Code, Identity>, b: map<Code, Identity>) {
    forall c :: c in a && c in b ==> a[c] == b[c]
  }

  ghost predicate FilesOk(w: World, f: Files) {
    PendingOk(w, f.pending) && OwnCodes(w, f.approved) && OneIdentity(f.pending.entries, f.approved)
  }

  // ------------------------------------------------------- the edits keep it

  lemma {:induction false} WithoutHas(s: seq<Code>, c: Code, d: Code)
    ensures d in Without(s, c) <==> d in s && d != c
    decreases |s|
  {
    if s != [] {
      var n := |s| - 1;
      assert s == s[..n] + [s[n]];
      WithoutHas(s[..n], c, d);
    }
  }

  lemma {:induction false} WithoutDistinct(s: seq<Code>, c: Code)
    requires Distinct(s)
    ensures Distinct(Without(s, c)) && |Without(s, c)| <= |s|
    decreases |s|
  {
    if s != [] {
      var n := |s| - 1;
      WithoutDistinct(s[..n], c);
      WithoutHas(s[..n], c, s[n]);
    }
  }

  lemma WithoutLists(s: seq<Code>, c: Code, codes: set<Code>)
    requires Lists(s, codes)
    ensures Lists(Without(s, c), codes - {c}) && |Without(s, c)| <= |s|
  {
    WithoutDistinct(s, c);
    forall d ensures d in Without(s, c) <==> d in s && d != c { WithoutHas(s, c, d); }
  }

  /** `t` holds part of what `m` holds. */
  predicate PartOf(t: map<Code, Identity>, m: map<Code, Identity>) { forall c :: c in t ==> c in m && t[c] == m[c] }

  lemma {:induction false} EvictKeeps(p: Pending)
    requires Lists(p.order, p.entries.Keys)
    ensures var q := Evict(p);
            && Lists(q.order, q.entries.Keys) && |q.order| <= PENDING_CAP
            && PartOf(q.entries, p.entries) && q.conflicted == p.conflicted
    decreases |p.order|
  {
    if |p.order| > PENDING_CAP {
      var q := p.(entries := p.entries - {p.order[0]}, order := p.order[1..]);
      assert p.order == [p.order[0]] + p.order[1..];
      assert Lists(q.order, q.entries.Keys);
      EvictKeeps(q);
    }
  }

  lemma FirstIn(s: seq<Code>)
    requires s != []
    ensures exists c :: c in s
  {
    assert s[0] in s;
  }

  lemma OrderedAlready(w: World, p: Pending)
    requires Sane(w) && Lists(p.order, p.entries.Keys)
    ensures Ordered(w, p) == p
  {
    if p.order == [] {
      var keys := w.sorted(p.entries.Keys);
      assert Lists(keys, p.entries.Keys);
      if keys != [] { FirstIn(keys); }
    }
  }

  lemma InsertKeeps(w: World, p: Pending, id: Identity)
    requires PendingOk(w, p) && w.codeOf(id) !in p.conflicted
    ensures var q := Insert(p, w.codeOf(id), id);
            && PendingOk(w, q) && q.conflicted == p.conflicted
            && PartOf(q.entries, p.entries[w.codeOf(id) := id])
  {
    var c := w.codeOf(id);
    WithoutLists(p.order, c, p.entries.Keys);
    var r := p.(entries := p.entries[c := id], order := Without(p.order, c) + [c]);
    assert Lists(r.order, r.entries.Keys);
    EvictKeeps(r);
  }

  lemma ForgetKeeps(w: World, p: Pending, c: Code)
    requires PendingOk(w, p)
    ensures PendingOk(w, Forget(p, c)) && PartOf(Forget(p, c).entries, p.entries)
  {
    WithoutLists(p.order, c, p.entries.Keys);
    assert (p.entries - {c}).Keys == p.entries.Keys - {c};
  }

  lemma ClearKeeps(w: World, p: Pending, c: Code)
    requires PendingOk(w, p)
    ensures PendingOk(w, Clear(p, c)) && PartOf(Clear(p, c).entries, p.entries) && !InPending(Clear(p, c), c)
  {
    ForgetKeeps(w, p, c);
    WithoutDistinct(p.conflicted, c);
    forall d ensures d in Without(p.conflicted, c) <==> d in p.conflicted && d != c { WithoutHas(p.conflicted, c, d); }
  }

  lemma MarkKeeps(w: World, p: Pending, c: Code)
    requires PendingOk(w, p) && c !in p.conflicted
    ensures PendingOk(w, MarkConflict(p, c)) && PartOf(MarkConflict(p, c).entries, p.entries)
    ensures c in MarkConflict(p, c).conflicted && c !in MarkConflict(p, c).entries
  {
    ForgetKeeps(w, p, c);
    var marked := p.conflicted + [c];
    assert marked[|marked| - 1] == c;
    assert DropOldest(marked)[|DropOldest(marked)| - 1] == c;
  }

  lemma RecordKeeps(w: World, f: Files, id: Identity)
    requires Sane(w) && FilesOk(w, f)
    ensures FilesOk(w, f.(pending := Record(w, f, id)))
  {
    OrderedAlready(w, f.pending);
    match RecordOutcome(w, f, id)
    case Accepted => InsertKeeps(w, f.pending, id);
    case NowConflicted => MarkKeeps(w, f.pending, w.codeOf(id));
    case TakenByAnother =>
    case AlreadyConflicted =>
  }

  // ------------------------------------------------------------------- the runs

  /** Between operations, or between the two writes of one. */
  datatype Phase = Idle | Approving(code: Code, id: Identity) | Revoking(code: Code)

  datatype System = System(files: Files, phase: Phase)

  /** One file write each; a write that fails as the first of its operation changes nothing. */
  datatype Step =
    | RecordStep(id: Identity)
    | ApproveFirst(code: Code)
    | ApproveSecond(ok: bool)
    | RevokeFirst(code: Code)
    | RevokeSecond(ok: bool)

  predicate Enabled(s: System, step: Step) {
    match step
    case RecordStep(_) => s.phase.Idle?
    case ApproveFirst(c) => s.phase.Idle? && ApproveOutcome(s.files, c).Ready?
    case ApproveSecond(_) => s.phase.Approving?
    case RevokeFirst(c) => s.phase.Idle? && (c in s.files.approved || InPending(s.files.pending, c))
    case RevokeSecond(_) => s.phase.Revoking?
  }

  function Apply(w: World, s: System, step: Step): System
    requires Enabled(s, step)
  {
    var f := s.files;
    match step
    case RecordStep(id) => s.(files := f.(pending := Record(w, f, id)))
    case ApproveFirst(c) =>
      System(f.(pending := Forget(f.pending, c)), Approving(c, ApproveOutcome(f, c).id))
    case ApproveSecond(ok) =>
      System(if ok then f.(approved := f.approved[s.phase.code := s.phase.id]) else f, Idle)
    case RevokeFirst(c) =>
      if c in f.approved then
        System(f.(approved := f.approved - {c}), if InPending(f.pending, c) then Revoking(c) else Idle)
      else System(f.(pending := Clear(f.pending, c)), Idle)
    case RevokeSecond(ok) =>
      System(if ok then f.(pending := Clear(f.pending, s.phase.code)) else f, Idle)
  }

  ghost predicate Inv(w: World, s: System) {
    && FilesOk(w, s.files)
    && (s.phase.Approving? ==>
          && w.codeOf(s.phase.id) == s.phase.code
          && s.phase.code !in s.files.pending.entries
          && (s.phase.code in s.files.approved ==> s.files.approved[s.phase.code] == s.phase.id))
  }

  lemma StepKeepsInv(w: World, s: System, step: Step)
    requires Sane(w) && Inv(w, s) && Enabled(s, step)
    ensures Inv(w, Apply(w, s, step))
  {
    match step
    case RecordStep(id) => RecordKeeps(w, s.files, id);
    case ApproveFirst(c) => ForgetKeeps(w, s.files.pending, c);
    case ApproveSecond(_) =>
    case RevokeFirst(c) => ClearKeeps(w, s.files.pending, c);
    case RevokeSecond(_) => if s.phase.Revoking? { ClearKeeps(w, s.files.pending, s.phase.code); }
  }

  ghost predicate Behaviour(w: World, b: seq<System>, steps: seq<Step>) {
    && |b| == |steps| + 1 && b[0] == System(EMPTY, Idle)
    && forall i {:trigger steps[i]} :: 0 <= i < |steps| ==> Enabled(b[i], steps[i]) && b[i + 1] == Apply(w, b[i], steps[i])
  }

  /** In every state of every run, also between two writes. */
  lemma {:induction false} Reachable(w: World, b: seq<System>, steps: seq<Step>, i: nat)
    requires Sane(w) && Behaviour(w, b, steps) && i < |b|
    ensures Inv(w, b[i])
    decreases i
  {
    if i > 0 {
      Reachable(w, b, steps, i - 1);
      StepKeepsInv(w, b[i - 1], steps[i - 1]);
    }
  }

  /** In no state of any run is a code found approved for another identity than the pending one. */
  lemma NeverApprovedForAnother(w: World, b: seq<System>, steps: seq<Step>, i: nat, c: Code)
    requires Sane(w) && Behaviour(w, b, steps) && i < |b|
    ensures ApproveOutcome(b[i].files, c) != ApprovedForAnother
  {
    Reachable(w, b, steps, i);
  }

  /** No step gives a code, pending or approved, to a different identity. */
  lemma StepNeverMoves(w: World, s: System, step: Step)
    requires Sane(w) && Inv(w, s) && Enabled(s, step)
    ensures var t := Apply(w, s, step);
            && OneIdentity(s.files.pending.entries, t.files.pending.entries)
            && OneIdentity(s.files.approved, t.files.approved)
            && (forall c :: c in s.files.approved && step != RevokeFirst(c) ==> c in t.files.approved)
  {
    match step
    case RecordStep(id) =>
      OrderedAlready(w, s.files.pending);
      match RecordOutcome(w, s.files, id) {
        case Accepted => InsertKeeps(w, s.files.pending, id);
        case NowConflicted => MarkKeeps(w, s.files.pending, w.codeOf(id));
        case TakenByAnother =>
        case AlreadyConflicted =>
      }
    case ApproveFirst(c) => ForgetKeeps(w, s.files.pending, c);
    case ApproveSecond(_) =>
    case RevokeFirst(c) => ClearKeeps(w, s.files.pending, c);
    case RevokeSecond(_) => if s.phase.Revoking? { ClearKeeps(w, s.files.pending, s.phase.code); }
  }

  /** An approved code keeps its identity until that code is revoked. */
  lemma {:induction false} ApprovedUntilRevoked(w: World, b: seq<System>, steps: seq<Step>, i: nat, j: nat, c: Code)
    requires Sane(w) && Behaviour(w, b, steps) && i <= j < |b| && c in b[i].files.approved
    requires forall k :: i <= k < j ==> steps[k] != RevokeFirst(c)
    ensures c in b[j].files.approved && b[j].files.approved[c] == b[i].files.approved[c]
    decreases j - i
  {
    if i < j {
      ApprovedUntilRevoked(w, b, steps, i, j - 1, c);
      Reachable(w, b, steps, j - 1);
      StepNeverMoves(w, b[j - 1], steps[j - 1]);
    }
  }

  // ------------------------------------------------------ what approval rests on

  /** Only an identity that asked is ever pending, about to be approved, or approved. */
  lemma {:induction false} OnlyWhoAsked(w: World, b: seq<System>, steps: seq<Step>, i: nat, id: Identity)
    requires Sane(w) && Behaviour(w, b, steps) && i < |b| && Known(b[i], id)
    ensures exists k :: 0 <= k < i && steps[k] == RecordStep(id)
    decreases i
  {
    if i > 0 {
      Reachable(w, b, steps, i - 1);
      if steps[i - 1] != RecordStep(id) {
        StepAddsNobody(w, b[i - 1], steps[i - 1], id);
        OnlyWhoAsked(w, b, steps, i - 1, id);
      }
    }
  }

  predicate Known(s: System, id: Identity) {
    || id in s.files.approved.Values || id in s.files.pending.entries.Values
    || (s.phase.Approving? && s.phase.id == id)
  }

  lemma StepAddsNobody(w: World, s: System, step: Step, id: Identity)
    requires Sane(w) && Inv(w, s) && Enabled(s, step) && step != RecordStep(id)
    ensures Known(Apply(w, s, step), id) ==> Known(s, id)
  {
    match step
    case RecordStep(other) =>
      OrderedAlready(w, s.files.pending);
      match RecordOutcome(w, s.files, other) {
        case Accepted => InsertKeeps(w, s.files.pending, other);
        case NowConflicted => MarkKeeps(w, s.files.pending, w.codeOf(other));
        case TakenByAnother =>
        case AlreadyConflicted =>
      }
    case ApproveFirst(c) => ForgetKeeps(w, s.files.pending, c);
    case ApproveSecond(_) =>
    case RevokeFirst(c) => ClearKeeps(w, s.files.pending, c);
    case RevokeSecond(_) => if s.phase.Revoking? { ClearKeeps(w, s.files.pending, s.phase.code); }
  }

  /**
  While a code stays pending for one identity, every other identity that asked under it was
  turned away because the code was already approved for the pending one.
  */
  lemma RivalEndsPending(w: World, b: seq<System>, steps: seq<Step>, k: nat, c: Code, rival: Identity)
    requires Sane(w) && Behaviour(w, b, steps) && k < |steps| && steps[k] == RecordStep(rival)
    requires w.codeOf(rival) == c && c in b[k].files.pending.entries && b[k].files.pending.entries[c] != rival
    ensures c in b[k + 1].files.pending.entries
       <==> c in b[k].files.approved && b[k].files.approved[c] == b[k].files.pending.entries[c]
    ensures c !in b[k + 1].files.pending.entries ==> ApproveOutcome(b[k + 1].files, c) == Conflicted
  {
    Reachable(w, b, steps, k);
    OrderedAlready(w, b[k].files.pending);
    if RecordOutcome(w, b[k].files, rival).NowConflicted? { MarkKeeps(w, b[k].files.pending, c); }
  }

  // ------------------------------------------------------- how long a mark lasts

  /** `c` is marked, with `n` newer marks. */
  predicate Marked(s: seq<Code>, c: Code, n: nat) { n < |s| && s[|s| - 1 - n] == c }

  predicate Conflicts(w: World, s: System, step: Step) {
    step.RecordStep? && RecordOutcome(w, s.files, step.id).NowConflicted?
  }

  function Count(w: World, b: seq<System>, steps: seq<Step>, i: nat, j: nat): nat
    requires i <= j <= |steps| < |b|
    decreases j - i
  {
    if i == j then 0 else Count(w, b, steps, i, j - 1) + if Conflicts(w, b[j - 1], steps[j - 1]) then 1 else 0
  }

  lemma {:induction false} WithoutMarked(s: seq<Code>, c: Code, d: Code, n: nat) returns (m: nat)
    requires Marked(s, c, n) && c != d
    ensures m <= n && Marked(Without(s, d), c, m)
    decreases |s|
  {
    var last := |s| - 1;
    if n == 0 {
      m := 0;
    } else {
      var k := WithoutMarked(s[..last], c, d, n - 1);
      m := if s[last] == d then k else k + 1;
    }
  }

  lemma StepKeepsMark(w: World, s: System, step: Step, c: Code, n: nat) returns (m: nat)
    requires Sane(w) && Inv(w, s) && Enabled(s, step) && Marked(s.files.pending.conflicted, c, n)
    requires s.phase != Revoking(c) && step != RevokeFirst(c)
    requires n + (if Conflicts(w, s, step) then 1 else 0) < PENDING_CAP
    ensures m <= n + (if Conflicts(w, s, step) then 1 else 0)
    ensures var t := Apply(w, s, step);
            Marked(t.files.pending.conflicted, c, m) && t.phase != Revoking(c)
  {
    m := n;
    match step
    case RecordStep(id) =>
      OrderedAlready(w, s.files.pending);
      match RecordOutcome(w, s.files, id) {
        case Accepted => InsertKeeps(w, s.files.pending, id);
        case NowConflicted => m := n + 1;
        case TakenByAnother =>
        case AlreadyConflicted =>
      }
    case ApproveFirst(_) =>
    case ApproveSecond(_) =>
    case RevokeFirst(d) =>
      if d !in s.files.approved { m := WithoutMarked(s.files.pending.conflicted, c, d, n); }
    case RevokeSecond(ok) =>
      if ok { m := WithoutMarked(s.files.pending.conflicted, c, s.phase.code, n); }
  }

  /** A mark outlasts everything but its own revocation, until 64 newer conflicts have pushed it out. */
  lemma {:induction false} MarkLasts(w: World, b: seq<System>, steps: seq<Step>, i: nat, j: nat, c: Code, n: nat)
    returns (m: nat)
    requires Sane(w) && Behaviour(w, b, steps) && i <= j < |b|
    requires Marked(b[i].files.pending.conflicted, c, n) && b[i].phase != Revoking(c)
    requires forall k :: i <= k < j ==> steps[k] != RevokeFirst(c)
    requires n + Count(w, b, steps, i, j) < PENDING_CAP
    ensures m <= n + Count(w, b, steps, i, j) && Marked(b[j].files.pending.conflicted, c, m)
    ensures b[j].phase != Revoking(c) && ApproveOutcome(b[j].files, c) == Conflicted
    decreases j - i
  {
    m := n;
    if i < j {
      var k := MarkLasts(w, b, steps, i, j - 1, c, n);
      Reachable(w, b, steps, j - 1);
      m := StepKeepsMark(w, b[j - 1], steps[j - 1], c, k);
    }
  }
}
