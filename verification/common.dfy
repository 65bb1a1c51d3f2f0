/** Small shared vocabulary: optional values and facts about sequences. */
module Common {

  datatype Option<+T> = None | Some(value: T)

  type byte = x: int | 0 <= x < 256

  function Min(a: nat, b: nat): nat { if a <= b then a else b }

  function Bit(b: bool): nat { if b then 1 else 0 }

  predicate Distinct<T(==)>(s: seq<T>) { forall i, j :: 0 <= i < j < |s| ==> s[i] != s[j] }

  /** `text` occurs in `source` at index `i`. */
  predicate At<T(==)>(source: seq<T>, i: nat, text: seq<T>) {
    i + |text| <= |source| && source[i..i + |text|] == text
  }

  /** Reading a concatenation at `i` is reading its parts one after the other. */
  lemma AtConcat<T>(source: seq<T>, i: nat, first: seq<T>, second: seq<T>)
    ensures At(source, i, first + second) <==> At(source, i, first) && At(source, i + |first|, second)
  {
    if At(source, i, first + second) {
      assert source[i..i + |first|] == source[i..i + |first + second|][..|first|];
      assert source[i + |first|..i + |first| + |second|] == source[i..i + |first + second|][|first|..];
    }
    if At(source, i, first) && At(source, i + |first|, second) {
      assert source[i..i + |first + second|] == source[i..i + |first|] + source[i + |first|..i + |first| + |second|];
    }
  }

  /** The characters of `text` are those of `source` from `i` on. */
  lemma AtIndex<T>(source: seq<T>, i: nat, text: seq<T>, k: nat)
    requires At(source, i, text) && k < |text|
    ensures source[i + k] == text[k]
  {
    assert source[i..i + |text|][k] == source[i + k];
  }

  /** Text placed between a prefix and a suffix is found right after the prefix. */
  lemma AtMiddle<T>(prefix: seq<T>, text: seq<T>, suffix: seq<T>)
    ensures At(prefix + text + suffix, |prefix|, text)
  {
    assert (prefix + text + suffix)[|prefix|..|prefix| + |text|] == text;
  }

  /** Concatenations whose first parts are as long are equal part by part. */
  lemma Halves<T>(a: seq<T>, b: seq<T>, c: seq<T>, d: seq<T>)
    requires |a| == |c|
    ensures a + b == c + d <==> a == c && b == d
  {
    if a + b == c + d {
      assert a == (a + b)[..|a|] && b == (a + b)[|a|..];
      assert c == (c + d)[..|c|] && d == (c + d)[|c|..];
    }
  }

  function Joined<T>(pieces: seq<seq<T>>): seq<T> {
    if pieces == [] then [] else pieces[0] + Joined(pieces[1..])
  }

  lemma {:induction false} JoinedConcat<T>(a: seq<seq<T>>, b: seq<seq<T>>)
    ensures Joined(a + b) == Joined(a) + Joined(b)
    decreases |a|
  {
    if a == [] {
      assert a + b == b;
    } else {
      assert (a + b)[1..] == a[1..] + b;
      JoinedConcat(a[1..], b);
    }
  }

  lemma JoinedMore<T>(pieces: seq<seq<T>>, piece: seq<T>)
    ensures Joined(pieces + [piece]) == Joined(pieces) + piece
  {
    JoinedConcat(pieces, [piece]);
    assert [piece][1..] == [];
    assert Joined([piece]) == piece + Joined([]) == piece;
  }
}
