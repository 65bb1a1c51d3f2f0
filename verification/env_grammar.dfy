/**
Object literals as the env schema files write them, a printer for them, and the proof
that the scanner (`scripts/lib/env-schema.ts`) reads back exactly the printed keys.

Values are made of code characters, strings with escapes, both comment forms, regex
literals in value position, and nested brackets.
*/
module EnvGrammar {
  import opened Common
  import opened EnvScanner

  /** One character of a string or of a regex literal, or an escaped one. */
  datatype Unit = Plain(c: char) | Esc(c: char)

  datatype Piece =
    | Code(c: char)
    | Text(quote: char, units: seq<Unit>)
    | LineComment(text: string)     // ends with its newline
    | BlockComment(text: string)
    | Regex(units: seq<Unit>)
    | Group(open: char, close: char, inner: seq<Piece>)

  // ----------------------------------------------------------------- printing

  function PrintUnit(u: Unit): string { if u.Plain? then [u.c] else ['\\', u.c] }

  function PrintUnits(units: seq<Unit>): string {
    if units == [] then "" else PrintUnit(units[0]) + PrintUnits(units[1..])
  }

  function Print(p: Piece): string
    decreases p, 1
  {
    match p
    case Code(c) => [c]
    case Text(quote, units) => [quote] + PrintUnits(units) + [quote]
    case LineComment(text) => "//" + text + "\n"
    case BlockComment(text) => "/*" + text + "*/"
    case Regex(units) => "/" + PrintUnits(units) + "/"
    case Group(open, close, inner) => [open] + PrintAll(inner) + [close]
  }

  function PrintAll(ps: seq<Piece>): string
    decreases ps, 0
  {
    if ps == [] then "" else Print(ps[0]) + PrintAll(ps[1..])
  }

  // ----------------------------------------------------------- well-formedness

  predicate StringUnits(units: seq<Unit>, quote: char) {
    forall k :: 0 <= k < |units| && units[k].Plain? ==> units[k].c != quote && units[k].c != '\\'
  }

  /** The body of a regex literal; a `/` may stand only inside a class. */
  predicate RegexUnits(units: seq<Unit>, inClass: bool)
    decreases |units|
  {
    if units == [] then !inClass
    else match units[0]
      case Esc(_) => RegexUnits(units[1..], inClass)
      case Plain(c) =>
        && c != '\\' && c != '\n' && (c == '/' ==> inClass)
        && RegexUnits(units[1..], if c == '[' then true else if c == ']' then false else inClass)
  }

  /** Not empty, and not the start of a comment. */
  predicate RegexOk(units: seq<Unit>) {
    units != [] && units[0] != Plain('*') && RegexUnits(units, false)
  }

  predicate NoCommentEnd(text: string) {
    forall k :: 0 <= k < |text| - 1 ==> !(text[k] == '*' && text[k + 1] == '/')
  }

  predicate Matches(open: char, close: char) {
    (open == '{' && close == '}') || (open == '[' && close == ']') || (open == '(' && close == ')')
  }

  /** A character with no meaning of its own; `atKeys` when it stands among the object's keys. */
  predicate CodeChar(c: char, atKeys: bool) {
    && !IsQuote(c) && !IsOpener(c) && !IsCloser(c) && c != '/'
    && (atKeys ==> c != ',' && c != ':')
  }

  /** The last significant character after a piece. */
  function LastOf(last: Option<char>, p: Piece): Option<char> {
    match p
    case Code(c) => if IsSpace(c) then last else Some(c)
    case Text(quote, _) => Some(quote)
    case LineComment(_) => last
    case BlockComment(_) => last
    case Regex(_) => Some('/')
    case Group(_, close, _) => Some(close)
  }

  function LastOfAll(last: Option<char>, ps: seq<Piece>): Option<char>
    decreases ps
  {
    if ps == [] then last else LastOfAll(LastOf(last, ps[0]), ps[1..])
  }

  predicate PieceOk(p: Piece, last: Option<char>, atKeys: bool)
    decreases p, 1
  {
    match p
    case Code(c) => CodeChar(c, atKeys)
    case Text(quote, units) => IsQuote(quote) && StringUnits(units, quote)
    case LineComment(text) => '\n' !in text
    case BlockComment(text) => NoCommentEnd(text)
    case Regex(units) => BeforeRegex(last) && RegexOk(units)
    case Group(open, close, inner) => Matches(open, close) && PiecesOk(inner, Some(open), false)
  }

  predicate PiecesOk(ps: seq<Piece>, last: Option<char>, atKeys: bool)
    decreases ps, 0
  {
    ps == [] || (PieceOk(ps[0], last, atKeys) && PiecesOk(ps[1..], LastOf(last, ps[0]), atKeys))
  }

  // -------------------------------------------------------- what a skip skips

  /** A bracketed body: its two ends, and the body right after the first. */
  lemma Between(source: string, i: nat, open: char, body: string, close: char)
    requires At(source, i, [open] + body + [close])
    ensures i + |body| + 1 < |source| && source[i] == open && source[i + 1 + |body|] == close
    ensures At(source, i + 1, body)
  {
    AtConcat(source, i, [open] + body, [close]);
    AtConcat(source, i, [open], body);
    AtIndex(source, i, [open], 0);
    AtIndex(source, i + 1 + |body|, [close], 0);
  }

  lemma {:induction false} SkipsUnits(source: string, i: nat, units: seq<Unit>, quote: char)
    requires At(source, i, PrintUnits(units)) && StringUnits(units, quote) && quote != '\\'
    ensures StringEnd(source, i, quote) == StringEnd(source, i + |PrintUnits(units)|, quote)
    decreases |units|
  {
    if units != [] {
      AtConcat(source, i, PrintUnit(units[0]), PrintUnits(units[1..]));
      AtIndex(source, i, PrintUnit(units[0]), 0);
      SkipsUnits(source, i + |PrintUnit(units[0])|, units[1..], quote);
    }
  }

  lemma {:induction false} SkipsRegex(source: string, i: nat, units: seq<Unit>, inClass: bool, j: nat)
    requires At(source, i, PrintUnits(units)) && RegexUnits(units, inClass) && j == i + |PrintUnits(units)|
    ensures RegexEnd(source, i, inClass) == RegexEnd(source, j, false)
    decreases |units|
  {
    if units != [] {
      AtConcat(source, i, PrintUnit(units[0]), PrintUnits(units[1..]));
      AtIndex(source, i, PrintUnit(units[0]), 0);
      var c := units[0].c;
      var after := if units[0].Esc? then inClass else if c == '[' then true else if c == ']' then false else inClass;
      SkipsRegex(source, i + |PrintUnit(units[0])|, units[1..], after, j);
    }
  }

  lemma {:induction false} SkipsLine(source: string, i: nat, text: string)
    requires At(source, i, text) && '\n' !in text
    ensures LineEnd(source, i) == LineEnd(source, i + |text|)
    decreases |text|
  {
    if text != [] {
      assert text == [text[0]] + text[1..];
      AtConcat(source, i, [text[0]], text[1..]);
      AtIndex(source, i, text, 0);
      SkipsLine(source, i + 1, text[1..]);
    }
  }

  lemma {:induction false} SkipsBlock(source: string, i: nat, text: string)
    requires At(source, i, text + "*/") && NoCommentEnd(text)
    ensures BlockEnd(source, i) == i + |text|
    decreases |text|
  {
    AtIndex(source, i, text + "*/", 0);
    AtIndex(source, i, text + "*/", 1);
    if text != [] {
      assert text + "*/" == [text[0]] + (text[1..] + "*/");
      AtConcat(source, i, [text[0]], text[1..] + "*/");
      SkipsBlock(source, i + 1, text[1..]);
    }
  }

  // -------------------------------------------------- one step over one piece

  lemma TwoAt(source: string, i: nat, a: char, b: char)
    requires At(source, i, [a, b])
    ensures i + 1 < |source| && source[i] == a && source[i + 1] == b
  {
    AtIndex(source, i, [a, b], 0);
    AtIndex(source, i, [a, b], 1);
  }

  /** A `/` followed by anything but `/` and `*` begins no comment. */
  lemma NoComment(source: string, i: nat)
    requires i < |source| && (source[i] != '/' || (i + 1 < |source| && source[i + 1] != '/' && source[i + 1] != '*'))
    ensures !LineAt(source, i) && !BlockAt(source, i)
  {
    if LineAt(source, i) { TwoAt(source, i, '/', '/'); }
    if BlockAt(source, i) { TwoAt(source, i, '/', '*'); }
  }

  /** A quoted body ends at its own closing quote. */
  lemma QuotedExtent(source: string, i: nat, quote: char, body: string)
    requires At(source, i, [quote] + body + [quote]) && quote != '\\'
    requires StringEnd(source, i + 1, quote) == StringEnd(source, i + 1 + |body|, quote)
    ensures i + |body| + 1 < |source| && source[i] == quote
    ensures StringEnd(source, i + 1, quote) == i + 1 + |body|
    ensures BodyOf(source, i, i + 1 + |body|) == body
  {
    Between(source, i, quote, body, quote);
  }

  lemma TextExtent(source: string, i: nat, quote: char, units: seq<Unit>, body: string)
    requires body == PrintUnits(units) && At(source, i, [quote] + body + [quote])
    requires IsQuote(quote) && StringUnits(units, quote)
    ensures i + |body| + 1 < |source| && source[i] == quote
    ensures StringEnd(source, i + 1, quote) == i + 1 + |body|
    ensures BodyOf(source, i, i + 1 + |body|) == body
  {
    Between(source, i, quote, body, quote);
    SkipsUnits(source, i + 1, units, quote);
    QuotedExtent(source, i, quote, body);
  }

  lemma StepText(source: string, i: nat, depth: int, last: Option<char>, r: Reader, quote: char, units: seq<Unit>)
    requires At(source, i, Print(Text(quote, units))) && IsQuote(quote) && StringUnits(units, quote)
    ensures i < |source|
    ensures Step(source, i, depth, last, r)
         == On(i + |PrintUnits(units)| + 2, depth, Some(quote), OnString(r, PrintUnits(units), i, depth))
  {
    TextExtent(source, i, quote, units, PrintUnits(units));
    NoComment(source, i);
  }

  lemma StepLine(source: string, i: nat, depth: int, last: Option<char>, r: Reader, text: string)
    requires At(source, i, Print(LineComment(text))) && '\n' !in text
    ensures i < |source|
    ensures Step(source, i, depth, last, r) == On(i + |text| + 3, depth, last, r)
  {
    AtConcat(source, i, "//" + text, "\n");
    AtConcat(source, i, "//", text);
    AtIndex(source, i + 2 + |text|, "\n", 0);
    assert '\n' !in "//" + text;
    SkipsLine(source, i, "//" + text);
  }

  lemma StepBlock(source: string, i: nat, depth: int, last: Option<char>, r: Reader, text: string)
    requires At(source, i, Print(BlockComment(text))) && NoCommentEnd(text)
    ensures i < |source|
    ensures Step(source, i, depth, last, r) == On(i + |text| + 4, depth, last, r)
  {
    assert Print(BlockComment(text)) == "/*" + (text + "*/");
    AtConcat(source, i, "/*", text + "*/");
    AtIndex(source, i, "/*", 1);
    if LineAt(source, i) { AtIndex(source, i, "//", 1); }
    SkipsBlock(source, i + 2, text);
  }

  lemma RegexExtent(source: string, i: nat, units: seq<Unit>, body: string)
    requires body == PrintUnits(units) && At(source, i, "/" + body + "/") && RegexOk(units)
    ensures i + |body| + 1 < |source| && source[i] == '/'
    ensures source[i + 1] != '/' && source[i + 1] != '*'
    ensures RegexEnd(source, i + 1, false) == i + 1 + |body|
  {
    Between(source, i, '/', body, '/');
    SkipsRegex(source, i + 1, units, false, i + 1 + |body|);
    assert body[0] == PrintUnit(units[0])[0];
    AtIndex(source, i + 1, body, 0);
  }

  lemma StepRegex(source: string, i: nat, depth: int, last: Option<char>, r: Reader, units: seq<Unit>)
    requires At(source, i, Print(Regex(units))) && BeforeRegex(last) && RegexOk(units)
    ensures i < |source|
    ensures Step(source, i, depth, last, r) == On(i + |PrintUnits(units)| + 2, depth, Some('/'), r)
  {
    RegexExtent(source, i, units, PrintUnits(units));
    NoComment(source, i);
  }

  /** A character that is no quote and no `/` is handed to the reader. */
  lemma StepChar(source: string, i: nat, depth: int, last: Option<char>, r: Reader, c: char)
    requires At(source, i, [c]) && !IsQuote(c) && c != '/' && !Stops(depth, c)
    ensures i < |source| && source[i] == c
    ensures Step(source, i, depth, last, r)
         == On(i + 1, DepthAfter(depth, c), LastAfter(last, c), OnChar(source, r, i, DepthAfter(depth, c)))
  {
    AtIndex(source, i, [c], 0);
    NoComment(source, i);
  }

  // --------------------------------------------------- inside nested brackets

  /** A piece that is no bracket, anywhere below the keys: passed over in one turn. */
  lemma DeepLeaf(source: string, i: nat, depth: int, last: Option<char>, r: Reader, p: Piece)
    requires depth >= 2 && !p.Group? && At(source, i, Print(p)) && PieceOk(p, last, false)
    ensures i < |source|
    ensures Step(source, i, depth, last, r) == On(i + |Print(p)|, depth, LastOf(last, p), r)
  {
    match p
    case Code(c) => StepChar(source, i, depth, last, r, c);
    case Text(quote, units) => StepText(source, i, depth, last, r, quote, units);
    case LineComment(text) => StepLine(source, i, depth, last, r, text);
    case BlockComment(text) => StepBlock(source, i, depth, last, r, text);
    case Regex(units) => StepRegex(source, i, depth, last, r, units);
  }

  lemma FirstPiece(source: string, i: nat, last: Option<char>, ps: seq<Piece>, atKeys: bool)
    requires ps != [] && At(source, i, PrintAll(ps)) && PiecesOk(ps, last, atKeys)
    ensures At(source, i, Print(ps[0])) && PieceOk(ps[0], last, atKeys)
    ensures At(source, i + |Print(ps[0])|, PrintAll(ps[1..])) && PiecesOk(ps[1..], LastOf(last, ps[0]), atKeys)
    ensures |PrintAll(ps)| == |Print(ps[0])| + |PrintAll(ps[1..])|
    ensures LastOfAll(last, ps) == LastOfAll(LastOf(last, ps[0]), ps[1..])
  {
    AtConcat(source, i, Print(ps[0]), PrintAll(ps[1..]));
  }

  lemma GroupParts(source: string, i: nat, p: Piece)
    requires p.Group? && At(source, i, Print(p))
    ensures |Print(p)| == |PrintAll(p.inner)| + 2
    ensures At(source, i, [p.open]) && At(source, i + 1, PrintAll(p.inner))
    ensures At(source, i + 1 + |PrintAll(p.inner)|, [p.close])
  {
    AtConcat(source, i, [p.open] + PrintAll(p.inner), [p.close]);
    AtConcat(source, i, [p.open], PrintAll(p.inner));
  }

  /** What nested brackets hold never reaches the reader, and the depth comes back. */
  lemma {:induction false} DeepPieces(source: string, i: nat, depth: int, last: Option<char>, r: Reader,
                                      ps: seq<Piece>, end: nat)
    requires depth >= 2 && At(source, i, PrintAll(ps)) && PiecesOk(ps, last, false)
    requires end == i + |PrintAll(ps)|
    ensures Walk(source, i, depth, last, r) == Walk(source, end, depth, LastOfAll(last, ps), r)
    decreases ps, 0
  {
    if ps != [] {
      FirstPiece(source, i, last, ps, false);
      var next := i + |Print(ps[0])|;
      DeepPiece(source, i, depth, last, r, ps[0], next);
      DeepPieces(source, next, depth, LastOf(last, ps[0]), r, ps[1..], end);
    }
  }

  lemma {:induction false} DeepPiece(source: string, i: nat, depth: int, last: Option<char>, r: Reader,
                                     p: Piece, end: nat)
    requires depth >= 2 && At(source, i, Print(p)) && PieceOk(p, last, false)
    requires end == i + |Print(p)|
    ensures Walk(source, i, depth, last, r) == Walk(source, end, depth, LastOf(last, p), r)
    decreases p, 1
  {
    if p.Group? {
      GroupParts(source, i, p);
      DeepGroup(source, i, depth, last, r, p.open, p.inner, p.close, end);
    } else {
      DeepLeaf(source, i, depth, last, r, p);
    }
  }

  lemma {:induction false} DeepGroup(source: string, i: nat, depth: int, last: Option<char>, r: Reader,
                                     open: char, inner: seq<Piece>, close: char, end: nat)
    requires depth >= 2 && IsOpener(open) && IsCloser(close) && PiecesOk(inner, Some(open), false)
    requires end == i + 2 + |PrintAll(inner)|
    requires At(source, i, [open]) && At(source, i + 1, PrintAll(inner)) && At(source, end - 1, [close])
    ensures Walk(source, i, depth, last, r) == Walk(source, end, depth, Some(close), r)
    decreases inner, 3
  {
    Inside(source, i, depth, last, r, open, inner, end - 1);
    Closes(source, end - 1, depth + 1, LastOfAll(Some(open), inner), r, close);
  }

  lemma Opens(source: string, i: nat, depth: int, last: Option<char>, r: Reader, open: char)
    requires depth >= 1 && At(source, i, [open]) && IsOpener(open)
    ensures Walk(source, i, depth, last, r) == Walk(source, i + 1, depth + 1, Some(open), r)
  {
    StepChar(source, i, depth, last, r, open);
  }

  lemma Closes(source: string, i: nat, depth: int, last: Option<char>, r: Reader, close: char)
    requires depth >= 3 && At(source, i, [close]) && IsCloser(close)
    ensures Walk(source, i, depth, last, r) == Walk(source, i + 1, depth - 1, Some(close), r)
  {
    StepChar(source, i, depth, last, r, close);
  }

  /** From an opening bracket to just before its closer. */
  lemma {:induction false} Inside(source: string, i: nat, depth: int, last: Option<char>, r: Reader,
                                  open: char, inner: seq<Piece>, end: nat)
    requires depth >= 1 && IsOpener(open) && PiecesOk(inner, Some(open), false)
    requires At(source, i, [open]) && At(source, i + 1, PrintAll(inner))
    requires end == i + 1 + |PrintAll(inner)|
    ensures Walk(source, i, depth, last, r) == Walk(source, end, depth + 1, LastOfAll(Some(open), inner), r)
    decreases inner, 2
  {
    Opens(source, i, depth, last, r, open);
    DeepPieces(source, i + 1, depth + 1, Some(open), r, inner, end);
  }
}
