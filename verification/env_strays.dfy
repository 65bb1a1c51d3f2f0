/**
Literals of which the scanner reads something else than what is written: a string before a
ternary's colon, a hidden key whose name a stray one replaces, and a shorthand name.
*/
module EnvStrays {
  import opened Common
  import opened EnvScanner
  import opened EnvGrammar
  import opened EnvLiterals
  import opened EnvKeys
  import opened EnvItems

  // ------------------------------------------------------------ pieces of literals

  lemma {:induction false} CodePrints(text: string)
    ensures PrintAll(CodeOf(text)) == text
    decreases |text|
  {
    if text != "" {
      assert CodeOf(text)[1..] == CodeOf(text[1..]);
      CodePrints(text[1..]);
      assert [text[0]] + text[1..] == text;
    }
  }

  lemma {:induction false} IdentIsCode(text: string, last: Option<char>)
    requires forall k :: 0 <= k < |text| ==> IdentPart(text[k])
    ensures PiecesOk(CodeOf(text), last, true) && PiecesOk(CodeOf(text), last, false) && !HasDots(CodeOf(text))
    decreases |text|
  {
    if text != "" {
      assert CodeOf(text)[1..] == CodeOf(text[1..]);
      assert IdentPart(text[0]);
      IdentIsCode(text[1..], LastOf(last, CodeOf(text)[0]));
    }
  }

  lemma OnePiece(p: Piece, last: Option<char>)
    requires PieceOk(p, last, true)
    ensures PiecesOk([p], last, true) && PrintAll([p]) == Print(p)
  {
    assert [p][1..] == [] && Print(p) + "" == Print(p);
  }

  lemma MorePieces(p: Piece, rest: seq<Piece>, last: Option<char>)
    requires PieceOk(p, last, true) && PiecesOk(rest, LastOf(last, p), true)
    ensures PiecesOk([p] + rest, last, true) && PrintAll([p] + rest) == Print(p) + PrintAll(rest)
  {
    assert ([p] + rest)[1..] == rest;
  }

  lemma LastField(f: Field, last: Option<char>)
    requires PiecesOk(f.pieces, last, true) && f.mark == '}'
    ensures FieldsOk([f], last) && PrintFields([f]) == PrintField(f) && (HasSpread([f]) <==> HasDots(f.pieces))
  {
    assert [f][1..] == [];
    assert PrintField(f) + "" == PrintField(f);
  }

  lemma MoreFields(f: Field, rest: seq<Field>, last: Option<char>)
    requires PiecesOk(f.pieces, last, true) && f.mark == ':' && FieldsOk(rest, Some(':'))
    ensures FieldsOk([f] + rest, last) && PrintFields([f] + rest) == PrintField(f) + PrintFields(rest)
    ensures HasSpread([f] + rest) <==> HasDots(f.pieces) || HasSpread(rest)
  {
    assert ([f] + rest)[1..] == rest;
  }

  // ---------------------------------------------------------------- shorthand names

  function Shorthand(x: string): seq<Item> { [Short([], x, [])] }

  lemma ShorthandOk(x: string)
    requires IsIdent(x)
    ensures LiteralOk(Shorthand(x)) && PrintItems(Shorthand(x)) == x + "}"
    ensures !HasSpread(Fields(Shorthand(x)))
  {
    var f := Field(CodeOf(x), '}');
    assert [] + CodeOf(x) + [] == CodeOf(x) && Fields(Shorthand(x)) == [f];
    IdentIsCode(x, Some('{'));
    CodePrints(x);
    LastField(f, Some('{'));
  }

  /** A shorthand name is written and never read. */
  lemma ShorthandUnread(prefix: string, x: string, suffix: string)
    requires IsIdent(x)
    ensures ItemNames(Shorthand(x)) == [x]
    ensures var o := ObjectEntries(prefix + ("{" + (x + "}")) + suffix, |prefix|);
            o.ok && o.reader.entries == [] && !o.reader.spread
  {
    ShorthandOk(x);
    ReadsItems(prefix, Shorthand(x), suffix);
    ScansExactly(prefix, Fields(Shorthand(x)), suffix);
    assert [Some(x)][1..] == [];
    OneItem(Short([], x, []));
  }

  // -------------------------------------------------------------- colons in values

  const NAME_B: Piece := Text('"', [Plain('B')])
  const NAME_A: Piece := Text('"', [Plain('A')])
  const COMMENT: Piece := BlockComment("c")

  /** `x?"B":y` and `x?"A":y` */
  function Ternary(p: Piece): seq<seq<Piece>> { [[Code('x'), Code('?'), p], [Code('y')]] }

  /** `{A:x?"B":y}` */
  const STRAY: seq<Item> := [Keyed(Bare([], "A", []), Ternary(NAME_B))]

  /** `{"A"/*c*/:x?"A":y}` */
  const REPLACED: seq<Item> := [Keyed(Quoted([], '"', [Plain('A')], [COMMENT]), Ternary(NAME_A))]

  lemma TextPieces(c: char, last: Option<char>)
    requires c == 'A' || c == 'B'
    ensures var p := Text('"', [Plain(c)]);
            PieceOk(p, last, true) && Print(p) == ['"', c, '"'] && PrintUnits(p.units) == [c] && IsIdent([c])
  {
    assert [Plain(c)][1..] == [] && PrintUnits([]) == "";
    assert [c] + "" == [c] && ['"'] + [c] + ['"'] == ['"', c, '"'];
  }

  lemma TernaryFirst(c: char)
    requires c == 'A' || c == 'B'
    ensures var ps := [Code('x'), Code('?'), Text('"', [Plain(c)])];
            PiecesOk(ps, Some(':'), true) && PrintAll(ps) == ['x', '?', '"', c, '"']
  {
    var p := Text('"', [Plain(c)]);
    TextPieces(c, Some('?'));
    OnePiece(p, Some('?'));
    MorePieces(Code('?'), [p], Some('x'));
    MorePieces(Code('x'), [Code('?'), p], Some(':'));
    assert [Code('?')] + [p] == [Code('?'), p] && [Code('x')] + [Code('?'), p] == [Code('x'), Code('?'), p];
  }

  lemma TernaryFields(c: char)
    requires c == 'A' || c == 'B'
    ensures var fs := Stretches(Ternary(Text('"', [Plain(c)])), '}');
            FieldsOk(fs, Some(':')) && PrintFields(fs) == ['x', '?', '"', c, '"', ':', 'y', '}']
  {
    var p := Text('"', [Plain(c)]);
    var first, last := Field([Code('x'), Code('?'), p], ':'), Field([Code('y')], '}');
    TernaryFirst(c);
    OnePiece(Code('y'), Some(':'));
    LastField(last, Some(':'));
    MoreFields(first, [last], Some(':'));
    assert Ternary(p)[1..] == [[Code('y')]];
    assert Stretches(Ternary(p), '}') == [first] + [last];
  }

  lemma TernaryStraysOne(c: char)
    requires c == 'A' || c == 'B'
    ensures Strays(Ternary(Text('"', [Plain(c)]))) == [[c]]
  {
    var p := Text('"', [Plain(c)]);
    TextPieces(c, Some('?'));
    QuotedMore([Code('x'), Code('?')], p);
    assert [Code('x'), Code('?')] + [p] == Ternary(p)[0];
    assert |Ternary(p)[1..]| == 1;
  }

  /** What a literal of one item writes and gives. */
  lemma OneItem(item: Item)
    ensures Fields([item]) == ItemFields(item, '}') && ReadNames([item]) == ItemReads(item)
    ensures ItemNames([item]) == NamesIn(ItemTags(item)) && (AllRead([item]) <==> ItemRead(item))
  {
    assert [item][1..] == [] && Tags([]) == [] && ReadNames([]) == [];
    assert ItemTags(item) + [] == ItemTags(item) && ItemReads(item) + [] == ItemReads(item);
    AllReadSplits([item]);
  }

  lemma {:induction false} NoBlankNames(n: nat)
    ensures NamesIn(Blank(n)) == []
  {
    if n > 0 {
      assert Blank(n)[1..] == Blank(n - 1);
      NoBlankNames(n - 1);
    }
  }

  lemma KeyedNames(key: Key, value: seq<seq<Piece>>)
    ensures NamesIn(ItemTags(Keyed(key, value))) == [KeyName(key)]
  {
    assert ([Some(KeyName(key))] + Blank(|value|))[1..] == Blank(|value|);
    NoBlankNames(|value|);
  }

  lemma StrayText()
    ensures "A" + [':'] + ['x', '?', '"', 'B', '"', ':', 'y', '}'] == "A:x?\"B\":y}"
  {
  }

  lemma ReplacedText()
    ensures ['"', 'A', '"'] + "/*c*/" + [':'] + ['x', '?', '"', 'A', '"', ':', 'y', '}'] == "\"A\"/*c*/:x?\"A\":y}"
    ensures "/*" + "c" + "*/" == "/*c*/"
  {
  }

  lemma StrayOk()
    ensures LiteralOk(STRAY) && PrintItems(STRAY) == "A:x?\"B\":y}"
  {
    var first := Field([Code('A')], ':');
    assert [] + CodeOf("A") + [] == [Code('A')];
    TernaryFields('B');
    OneItem(STRAY[0]);
    OnePiece(Code('A'), Some('{'));
    MoreFields(first, Stretches(Ternary(NAME_B), '}'), Some('{'));
    StrayText();
  }

  /** The string before a ternary's colon is read as a key. */
  lemma TernaryStrays(prefix: string, suffix: string)
    ensures LiteralOk(STRAY) && ItemNames(STRAY) == ["A"]
    ensures KeyNames(ObjectEntries(prefix + ("{" + "A:x?\"B\":y}") + suffix, |prefix|).reader.entries) == ["A", "B"]
  {
    StrayOk();
    OneItem(STRAY[0]);
    KeyedNames(STRAY[0].key, STRAY[0].value);
    TernaryStraysOne('B');
    ReadsItems(prefix, STRAY, suffix);
  }

  lemma ReplacedOk()
    ensures LiteralOk(REPLACED) && PrintItems(REPLACED) == "\"A\"/*c*/:x?\"A\":y}"
  {
    var ps := [NAME_A, COMMENT];
    var first := Field(ps, ':');
    TextPieces('A', Some('{'));
    OnePiece(COMMENT, Some('"'));
    MorePieces(NAME_A, [COMMENT], Some('{'));
    assert [] + [NAME_A] + [COMMENT] == ps && [NAME_A] + [COMMENT] == ps;
    TernaryFields('A');
    OneItem(REPLACED[0]);
    MoreFields(first, Stretches(Ternary(NAME_A), '}'), Some('{'));
    ReplacedText();
  }

  /** A hidden key and a stray one can give the right names by accident: the places of their values tell. */
  lemma NamesAloneDoNotTell(prefix: string, suffix: string)
    ensures LiteralOk(REPLACED) && !AllRead(REPLACED) && ItemNames(REPLACED) == ["A"]
    ensures KeyNames(ObjectEntries(prefix + ("{" + "\"A\"/*c*/:x?\"A\":y}") + suffix, |prefix|).reader.entries) == ["A"]
  {
    ReplacedOk();
    OneItem(REPLACED[0]);
    KeyedNames(REPLACED[0].key, REPLACED[0].value);
    TextPieces('A', Some('{'));
    assert !Spaces([COMMENT]) by { assert [COMMENT][0].BlockComment?; }
    TernaryStraysOne('A');
    ReadsItems(prefix, REPLACED, suffix);
  }
}
