/**
The daemon's trust (`apps/cli/src/startup.rs`, `apps/cli/src/daemon.rs`): one 64-bit word
holding the Full control bit and the number of lowerings, the local commands and reloads
that change it, and the looks that end what a lowering revoked.
*/
module Trust {
  import opened Common

  const WORD := 0x1_0000_0000_0000_0000
  /** The lowering count is kept in the upper 63 bits. */
  const COUNT := 0x8000_0000_0000_0000

  type Word = x: nat | x < WORD witness 0

  predicate Full(word: Word) { word % 2 == 1 }

  function Lowerings(word: Word): nat { word / 2 }

  /** `((word >> 1) + 1) << 1`: Relay only and one more lowering; the top bit falls out. */
  function Lowered(word: Word): Word { ((word / 2 + 1) * 2) % WORD }

  /** `word | 1` */
  function Raised(word: Word): Word { if Full(word) then word else word + 1 }

  lemma LoweredWord(word: Word)
    ensures !Full(Lowered(word)) && Lowerings(Lowered(word)) == (Lowerings(word) + 1) % COUNT
  { }

  lemma RaisedWord(word: Word)
    ensures Full(Raised(word)) && Lowerings(Raised(word)) == Lowerings(word)
  { }

  // ----------------------------------------------- other threads between two looks

  /** A change of the word by another thread. */
  datatype Write = ByLower | ByRaise

  /** What happens between reading the word and one attempt to swap it; a weak swap may fail for no reason. */
  datatype Round = Round(writes: seq<Write>, spurious: bool)

  function After(word: Word, writes: seq<Write>): Word {
    if writes == [] then word
    else
      var before := After(word, writes[..|writes| - 1]);
      if writes[|writes| - 1].ByLower? then Lowered(before) else Raised(before)
  }

  /** The writes of other threads that come before the swap succeeds; it does once a round leaves the word alone. */
  function Before(word: Word, rounds: seq<Round>): seq<Write>
    decreases |rounds|
  {
    if rounds == [] then []
    else
      var now := After(word, rounds[0].writes);
      rounds[0].writes + if now == word && !rounds[0].spurious then [] else Before(now, rounds[1..])
  }

  /** The word that the swap replaces. */
  function Found(word: Word, rounds: seq<Round>): Word
    decreases |rounds|
  {
    if rounds == [] then word
    else
      var now := After(word, rounds[0].writes);
      if now == word && !rounds[0].spurious then word else Found(now, rounds[1..])
  }

  /** Every write of the first `n` rounds. */
  function Writes(rounds: seq<Round>, n: nat): seq<Write>
    requires n <= |rounds|
  {
    if n == 0 then [] else Writes(rounds, n - 1) + rounds[n - 1].writes
  }

  /** Round `n` leaves the word as it is when the round begins, and its swap does not fail for no reason. */
  predicate Clear(word: Word, rounds: seq<Round>, n: nat)
    requires n < |rounds|
  {
    After(word, Writes(rounds, n + 1)) == After(word, Writes(rounds, n)) && !rounds[n].spurious
  }

  lemma {:induction false} WritesTail(rounds: seq<Round>, n: nat)
    requires 0 < n <= |rounds|
    ensures Writes(rounds, n) == rounds[0].writes + Writes(rounds[1..], n - 1)
  {
    if n == 1 {
      assert [] + rounds[0].writes == rounds[0].writes + [];
    } else {
      WritesTail(rounds, n - 1);
    }
  }

  lemma ClearTail(word: Word, rounds: seq<Round>, n: nat)
    requires 0 < n < |rounds|
    ensures Clear(word, rounds, n) <==> Clear(After(word, rounds[0].writes), rounds[1..], n - 1)
  {
    WritesTail(rounds, n);
    WritesTail(rounds, n + 1);
    AfterConcat(word, rounds[0].writes, Writes(rounds[1..], n - 1));
    AfterConcat(word, rounds[0].writes, Writes(rounds[1..], n));
  }

  /** The swap comes in the first clear round, the last of the first `n`, or when the rounds are over. */
  predicate SwapsAfter(word: Word, rounds: seq<Round>, n: nat) {
    && n <= |rounds| && (forall m :: 0 <= m < n - 1 ==> !Clear(word, rounds, m))
    && (n < |rounds| ==> n > 0 && Clear(word, rounds, n - 1))
  }

  /** Nothing written until the swap is lost. */
  lemma {:induction false} BeforeIs(word: Word, rounds: seq<Round>) returns (n: nat)
    ensures SwapsAfter(word, rounds, n) && Before(word, rounds) == Writes(rounds, n)
    decreases |rounds|
  {
    if rounds == [] {
      n := 0;
    } else {
      var now, writes := After(word, rounds[0].writes), rounds[0].writes;
      assert Writes(rounds, 0) == [] && Writes(rounds, 1) == [] + writes == writes;
      if now == word && !rounds[0].spurious {
        n := 1;
      } else {
        assert !Clear(word, rounds, 0);
        var k := BeforeIs(now, rounds[1..]);
        n := k + 1;
        WritesTail(rounds, n);
        forall m | 0 < m < |rounds| ensures Clear(word, rounds, m) <==> Clear(now, rounds[1..], m - 1) {
          ClearTail(word, rounds, m);
        }
      }
    }
  }

  function LowerWrites(writes: seq<Write>): nat {
    if writes == [] then 0
    else LowerWrites(writes[..|writes| - 1]) + if writes[|writes| - 1].ByLower? then 1 else 0
  }

  lemma {:induction false} AfterConcat(word: Word, a: seq<Write>, b: seq<Write>)
    ensures After(word, a + b) == After(After(word, a), b)
    decreases |b|
  {
    if b == [] {
      assert a + b == a;
    } else {
      assert (a + b)[..|a + b| - 1] == a + b[..|b| - 1];
      AfterConcat(word, a, b[..|b| - 1]);
    }
  }

  lemma {:induction false} FoundIs(word: Word, rounds: seq<Round>)
    ensures Found(word, rounds) == After(word, Before(word, rounds))
    decreases |rounds|
  {
    if rounds != [] {
      var now, writes := After(word, rounds[0].writes), rounds[0].writes;
      if now == word && !rounds[0].spurious {
        assert writes + [] == writes;
      } else {
        FoundIs(now, rounds[1..]);
        AfterConcat(word, writes, Before(now, rounds[1..]));
      }
    }
  }

  /** No lowering is lost, whoever makes it: the count is what it was plus all of them. */
  lemma {:induction false} AfterCounts(word: Word, writes: seq<Write>)
    ensures Lowerings(After(word, writes)) == (Lowerings(word) + LowerWrites(writes)) % COUNT
    decreases |writes|
  {
    if writes != [] {
      var n := |writes| - 1;
      AfterCounts(word, writes[..n]);
      LoweredWord(After(word, writes[..n]));
      RaisedWord(After(word, writes[..n]));
      ModMore(Lowerings(word) + LowerWrites(writes[..n]));
    }
  }

  lemma ModMore(n: nat)
    ensures (n % COUNT + 1) % COUNT == (n + 1) % COUNT
  { }

  /** Failed attempts with nobody else writing. */
  function Alone(spurious: nat): seq<Round> { seq(spurious, _ => Round([], true)) }

  lemma {:induction false} AloneWrites(word: Word, spurious: nat)
    ensures Before(word, Alone(spurious)) == []
  {
    if spurious > 0 {
      assert Alone(spurious)[1..] == Alone(spurious - 1);
      AloneWrites(word, spurious - 1);
    }
  }

  // --------------------------------------------------------------- the authority

  class TrustAuthority {
    var state: Word

    constructor (full: bool)
      ensures state == if full then 1 else 0
    {
      state := if full then 1 else 0;
    }

    /** Another thread's changes. */
    method Interfere(writes: seq<Write>)
      modifies this
      ensures state == After(old(state), writes)
    {
      for k := 0 to |writes|
        invariant state == After(old(state), writes[..k])
      {
        assert writes[..k + 1][..k] == writes[..k];
        state := if writes[k].ByLower? then Lowered(state) else Raised(state);
      }
      assert writes[..|writes|] == writes;
    }

    /** The compare-and-swap loop: one step, right after the last change another thread got in. */
    method Lower(rounds: seq<Round>) returns (wasFull: bool)
      modifies this
      ensures var found := After(old(state), Before(old(state), rounds));
              state == Lowered(found) && wasFull == Full(found)
      ensures exists n :: SwapsAfter(old(state), rounds, n) && state == Lowered(After(old(state), Writes(rounds, n)))
    {
      FoundIs(state, rounds);
      ghost var _ := BeforeIs(state, rounds);
      var previous := state;
      var k := 0;
      while k < |rounds|
        invariant 0 <= k <= |rounds| && previous == state
        invariant Found(previous, rounds[k..]) == Found(old(state), rounds)
      {
        assert rounds[k..][1..] == rounds[k + 1..];
        Interfere(rounds[k].writes);
        if state == previous && !rounds[k].spurious {
          break;
        }
        previous := state;
        k := k + 1;
      }
      state := Lowered(previous);
      return Full(previous);
    }

    method Raise() returns (changed: bool)
      modifies this
      ensures state == Raised(old(state)) && changed == !Full(old(state))
    {
      changed := !Full(state);
      state := Raised(state);
    }
  }

  // ------------------------------------------------------------ the operations

  /** The word, and the lowering count last applied. */
  datatype State = State(word: Word, applied: nat)

  datatype Step =
    | TrustFull(allowed: bool, persisted: bool)     // the peer check and the write
    | TrustRelay(persisted: bool)                   // `wsmp trust relay`, or `trust.lower` from the server
    | Reload(fileSaysFull: bool, persisted: bool)   // a changed config file, or `Reload`
    | Look                                          // online in `apply_node_changes`, offline while waiting

  /** Whether the step lowers: a failed write does not matter. */
  predicate Lowers(s: State, step: Step) {
    step.TrustRelay? || (step.Reload? && Full(s.word) && !step.fileSaysFull)
  }

  predicate Raises(s: State, step: Step) {
    step.TrustFull? && step.allowed && step.persisted && !Full(s.word)
  }

  function Apply(s: State, step: Step): State {
    if Lowers(s, step) then s.(word := Lowered(s.word))
    else if Raises(s, step) then s.(word := Raised(s.word))
    else if step.Look? then s.(applied := Lowerings(s.word))
    else s
  }

  /** A look finds a lowering to apply, and ends what it revoked. */
  predicate Fires(s: State, step: Step) { step.Look? && Lowerings(s.word) != s.applied }

  class Daemon {
    const trust: TrustAuthority
    var applied: nat

    constructor (trust: TrustAuthority)
      ensures this.trust == trust && applied == Lowerings(trust.state)
    {
      this.trust := trust;
      applied := Lowerings(trust.state);
    }

    function Value(): State
      reads this, trust
    {
      State(trust.state, applied)
    }

    /** `apply_lower`: the latch holds even when writing fails. */
    method ApplyLower(persisted: bool, spurious: nat) returns (changed: Option<bool>)
      modifies trust
      ensures Value() == old(Value()).(word := Lowered(old(Value()).word))
      ensures changed == if persisted then Some(Full(old(Value()).word)) else None
    {
      AloneWrites(trust.state, spurious);
      var wasFull := trust.Lower(Alone(spurious));
      return if persisted then Some(wasFull) else None;
    }

    method TakeLowering() returns (fired: bool)
      modifies this
      ensures fired == Fires(old(Value()), Look) && Value() == Apply(old(Value()), Look)
    {
      var now := Lowerings(trust.state);
      if now == applied {
        return false;
      }
      applied := now;
      return true;
    }

    /** Whether the reload reports a change of trust. */
    method ReloadConfig(fileSaysFull: bool, persisted: bool, spurious: nat) returns (lowered: bool)
      modifies trust
      ensures lowered == Lowers(old(Value()), Reload(fileSaysFull, persisted))
      ensures Value() == Apply(old(Value()), Reload(fileSaysFull, persisted))
    {
      if Full(trust.state) && !fileSaysFull {
        var _ := ApplyLower(persisted, spurious);
        return true;
      }
      return false;
    }

    method AnswerTrustRelay(persisted: bool, spurious: nat) returns (changed: bool, answer: Option<bool>)
      modifies trust
      ensures Value() == Apply(old(Value()), TrustRelay(persisted))
      ensures changed == Full(old(Value()).word) && answer == if persisted then Some(changed) else None
    {
      changed := Full(trust.state);
      answer := ApplyLower(persisted, spurious);
    }

    method AnswerTrustFull(allowed: bool, persisted: bool) returns (changed: bool)
      modifies trust
      ensures Value() == Apply(old(Value()), TrustFull(allowed, persisted))
      ensures changed == Raises(old(Value()), TrustFull(allowed, persisted))
    {
      if !allowed || Full(trust.state) || !persisted {
        return false;
      }
      var _ := trust.Raise();
      return true;
    }
  }

  // ------------------------------------------------------------------- the runs

  ghost predicate Behaviour(b: seq<State>, steps: seq<Step>) {
    && |b| == |steps| + 1 && b[0].applied == Lowerings(b[0].word)
    && forall i {:trigger steps[i]} :: 0 <= i < |steps| ==> b[i + 1] == Apply(b[i], steps[i])
  }

  /** The lowerings among steps `i` to `j`. */
  function Count(b: seq<State>, steps: seq<Step>, i: nat, j: nat): nat
    requires i <= j <= |steps| < |b|
    decreases j - i
  {
    if i == j then 0 else Count(b, steps, i, j - 1) + if Lowers(b[j - 1], steps[j - 1]) then 1 else 0
  }

  lemma OneStep(s: State, step: Step)
    ensures Lowerings(Apply(s, step).word) == (Lowerings(s.word) + if Lowers(s, step) then 1 else 0) % COUNT
    ensures Full(Apply(s, step).word) <==> Raises(s, step) || (Full(s.word) && !Lowers(s, step))
  {
    LoweredWord(s.word);
    RaisedWord(s.word);
  }

  /** A step that gives Full control, and one that takes it back. */
  predicate Grants(step: Step) { step == TrustFull(true, true) }

  predicate Withdraws(step: Step) { step.TrustRelay? || (step.Reload? && !step.fileSaysFull) }

  /** Full control was given, at the start or in a step, and not taken back since. */
  ghost predicate Granted(full: bool, steps: seq<Step>, j: nat)
    requires j <= |steps|
  {
    || (full && forall m :: 0 <= m < j ==> !Withdraws(steps[m]))
    || exists k :: 0 <= k < j && Grants(steps[k]) && forall m :: k < m < j ==> !Withdraws(steps[m])
  }

  lemma GrantedNext(full: bool, steps: seq<Step>, j: nat)
    requires j < |steps|
    ensures Granted(full, steps, j + 1) <==> Grants(steps[j]) || (Granted(full, steps, j) && !Withdraws(steps[j]))
  {
    if Granted(full, steps, j) && !Withdraws(steps[j]) && !(full && forall m :: 0 <= m < j ==> !Withdraws(steps[m])) {
      var k :| 0 <= k < j && Grants(steps[k]) && forall m :: k < m < j ==> !Withdraws(steps[m]);
      assert Grants(steps[k]) && forall m :: k < m < j + 1 ==> !Withdraws(steps[m]);
    }
  }

  /**
  By the history alone: trust is Full exactly when it was given and not taken back since. A
  write that fails does not stop a withdrawal, and keeps a grant from happening.
  */
  lemma {:induction false} FullIffGranted(b: seq<State>, steps: seq<Step>, j: nat)
    requires Behaviour(b, steps) && j < |b|
    ensures Full(b[j].word) <==> Granted(Full(b[0].word), steps, j)
  {
    if j > 0 {
      FullIffGranted(b, steps, j - 1);
      OneStep(b[j - 1], steps[j - 1]);
      GrantedNext(Full(b[0].word), steps, j - 1);
    }
  }

  /** And a step counts as a lowering exactly when it is a `TrustRelay`, or a reload that takes Full control back. */
  lemma LowersIff(b: seq<State>, steps: seq<Step>, j: nat)
    requires Behaviour(b, steps) && j < |steps|
    ensures Lowerings(b[j + 1].word) == (Lowerings(b[j].word) + Bit(Lowers(b[j], steps[j]))) % COUNT
    ensures Lowers(b[j], steps[j])
       <==> steps[j].TrustRelay? || (steps[j].Reload? && !steps[j].fileSaysFull && Granted(Full(b[0].word), steps, j))
  {
    OneStep(b[j], steps[j]);
    FullIffGranted(b, steps, j);
  }

  /** Trust rises only in a `TrustFull` whose peer check and write succeeded. */
  lemma {:induction false} RisesOnlyByTrustFull(b: seq<State>, steps: seq<Step>, i: nat, j: nat) returns (k: nat)
    requires Behaviour(b, steps) && i <= j < |b| && !Full(b[i].word) && Full(b[j].word)
    ensures i <= k < j && steps[k] == TrustFull(true, true)
    decreases j - i
  {
    OneStep(b[j - 1], steps[j - 1]);
    if Full(b[j - 1].word) { k := RisesOnlyByTrustFull(b, steps, i, j - 1); } else { k := j - 1; }
  }

  lemma {:induction false} CountedLowerings(b: seq<State>, steps: seq<Step>, i: nat, j: nat)
    requires Behaviour(b, steps) && i <= j < |b|
    ensures Lowerings(b[j].word) == (Lowerings(b[i].word) + Count(b, steps, i, j)) % COUNT
    decreases j - i
  {
    if i < j {
      CountedLowerings(b, steps, i, j - 1);
      OneStep(b[j - 1], steps[j - 1]);
      ModMore(Lowerings(b[i].word) + Count(b, steps, i, j - 1));
    }
  }

  lemma {:induction false} AppliedKept(b: seq<State>, steps: seq<Step>, i: nat, j: nat)
    requires Behaviour(b, steps) && i <= j < |b| && forall k :: i <= k < j ==> !steps[k].Look?
    ensures b[j].applied == b[i].applied
    decreases j - i
  {
    if i < j {
      AppliedKept(b, steps, i, j - 1);
      assert !steps[j - 1].Look?;
    }
  }

  lemma SameMod(a: nat, n: nat)
    requires a < COUNT
    ensures (a + n) % COUNT == a <==> n % COUNT == 0
  {
    var q, r := n / COUNT, n % COUNT;
    assert n == q * COUNT + r;
    if a + r < COUNT {
      assert a + n == q * COUNT + (a + r);
    } else {
      assert a + n == (q + 1) * COUNT + (a + r - COUNT);
    }
  }

  /** `i` is where the lowerings were last applied: the start, or just after a look. */
  predicate JustLooked(steps: seq<Step>, i: nat) { i == 0 || (i <= |steps| && steps[i - 1].Look?) }

  /**
  A look fires if and only if trust was lowered since the look before it (or the start),
  raised again since or not, written or not; unless the count came round to where it was,
  after a multiple of 2^63 lowerings.
  */
  lemma FiresIffLowered(b: seq<State>, steps: seq<Step>, i: nat, j: nat)
    requires Behaviour(b, steps) && i <= j < |steps| && JustLooked(steps, i) && steps[j].Look?
    requires forall k :: i <= k < j ==> !steps[k].Look?
    ensures Fires(b[j], steps[j]) <==> Count(b, steps, i, j) % COUNT != 0
  {
    assert b[i].applied == Lowerings(b[i].word);
    AppliedKept(b, steps, i, j);
    CountedLowerings(b, steps, i, j);
    SameMod(Lowerings(b[i].word), Count(b, steps, i, j));
  }

  lemma {:induction false} CountPositive(b: seq<State>, steps: seq<Step>, i: nat, j: nat, k: nat)
    requires |b| == |steps| + 1 && i <= k < j <= |steps| && Lowers(b[k], steps[k])
    ensures Count(b, steps, i, j) > 0
    decreases j - i
  {
    if k < j - 1 { CountPositive(b, steps, i, j - 1, k); }
  }

  /** Without a lowering, what was applied stays the whole of it. */
  lemma {:induction false} StaysApplied(b: seq<State>, steps: seq<Step>, i: nat, j: nat)
    requires Behaviour(b, steps) && i <= j < |b| && Count(b, steps, i, j) == 0 && b[i].applied == Lowerings(b[i].word)
    ensures b[j].applied == Lowerings(b[j].word)
    decreases j - i
  {
    if i < j {
      StaysApplied(b, steps, i, j - 1);
      RaisedWord(b[j - 1].word);
    }
  }

  /** The effects come at the very next look, and no later look repeats them until trust is lowered again. */
  lemma EffectsOnce(b: seq<State>, steps: seq<Step>, i: nat, k: nat, j: nat, later: nat)
    requires Behaviour(b, steps) && i <= k < j < |steps| && JustLooked(steps, i) && steps[j].Look?
    requires (forall n :: i <= n < j ==> !steps[n].Look?) && Lowers(b[k], steps[k])
    requires Count(b, steps, i, j) < COUNT
    requires j < later < |steps| && Count(b, steps, j, later) == 0
    ensures Fires(b[j], steps[j]) && !Fires(b[later], steps[later])
  {
    FiresIffLowered(b, steps, i, j);
    CountPositive(b, steps, i, j, k);
    QuietAfter(b, steps, j, later);
  }

  lemma QuietAfter(b: seq<State>, steps: seq<Step>, j: nat, later: nat)
    requires Behaviour(b, steps) && j < later < |steps| && steps[j].Look? && Count(b, steps, j, later) == 0
    ensures !Fires(b[later], steps[later])
  {
    CountSplit(b, steps, j, j + 1, later);
    StaysApplied(b, steps, j + 1, later);
  }

  lemma {:induction false} CountSplit(b: seq<State>, steps: seq<Step>, i: nat, m: nat, j: nat)
    requires |b| == |steps| + 1 && i <= m <= j <= |steps|
    ensures Count(b, steps, i, j) == Count(b, steps, i, m) + Count(b, steps, m, j)
    decreases j - m
  {
    if m < j { CountSplit(b, steps, i, m, j - 1); }
  }

  /** `TrustWatch::revoked` for a watch that saw `lowerings`. */
  predicate Revoked(s: State, lowerings: nat) { !Full(s.word) || Lowerings(s.word) != lowerings }

  /** Work started under Full control stays granted if and only if no lowering came since. */
  lemma {:induction false} GrantedUntilLowered(b: seq<State>, steps: seq<Step>, i: nat, j: nat)
    requires Behaviour(b, steps) && i <= j < |b| && Full(b[i].word) && Count(b, steps, i, j) < COUNT
    ensures Revoked(b[j], Lowerings(b[i].word)) <==> Count(b, steps, i, j) > 0
    decreases j - i
  {
    CountedLowerings(b, steps, i, j);
    SameMod(Lowerings(b[i].word), Count(b, steps, i, j));
    if Count(b, steps, i, j) == 0 { FullKept(b, steps, i, j); }
  }

  lemma {:induction false} FullKept(b: seq<State>, steps: seq<Step>, i: nat, j: nat)
    requires Behaviour(b, steps) && i <= j < |b| && Full(b[i].word) && Count(b, steps, i, j) == 0
    ensures Full(b[j].word)
    decreases j - i
  {
    if i < j {
      FullKept(b, steps, i, j - 1);
      OneStep(b[j - 1], steps[j - 1]);
    }
  }
}
