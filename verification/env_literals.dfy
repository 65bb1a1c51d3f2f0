/**
What `objectEntries` reads from any well-formed object literal.

A literal's body is cut at its own commas and colons into fields. The scanner reports a
key at exactly those colons whose field reads as a key, whatever strings, comments,
regexes and nested objects hold.
*/
module EnvLiterals {
  import opened Common
  import opened EnvScanner
  import opened EnvGrammar

  // ------------------------------------------------------- what reads as a key

  predicate IsComment(p: Piece) { p.LineComment? || p.BlockComment? }

  /** The quoted identifier that ends the field, spaces aside. */
  function QuotedOf(field: seq<Piece>): Option<string> {
    if field == [] then None
    else
      var p := field[|field| - 1];
      if p.Code? && IsSpace(p.c) then QuotedOf(field[..|field| - 1])
      else if p.Text? && IsIdent(PrintUnits(p.units)) then Some(PrintUnits(p.units))
      else None
  }

  /** The code characters after the field's last bracket. */
  function KeyText(field: seq<Piece>): string {
    if field == [] then ""
    else
      var rest := field[..|field| - 1];
      match field[|field| - 1]
      case Code(c) => KeyText(rest) + [c]
      case Group(_, _, _) => ""
      case Text(_, _) => KeyText(rest)
      case LineComment(_) => KeyText(rest)
      case BlockComment(_) => KeyText(rest)
      case Regex(_) => KeyText(rest)
  }

  function KeyOf(field: seq<Piece>): Option<string> {
    if QuotedOf(field).Some? then QuotedOf(field)
    else if IsIdent(Trim(KeyText(field))) then Some(Trim(KeyText(field)))
    else None
  }

  predicate StartsDots(ps: seq<Piece>) {
    |ps| >= 3 && ps[0] == Code('.') && ps[1] == Code('.') && ps[2] == Code('.')
  }

  predicate HasDots(ps: seq<Piece>) {
    ps != [] && (StartsDots(ps) || HasDots(ps[1..]))
  }

  // ------------------------------------------------------------------- fields

  /** A stretch of the literal's own level and the `:`, `,` or `}` that ends it. */
  datatype Field = Field(pieces: seq<Piece>, mark: char)

  predicate FieldsOk(fs: seq<Field>, last: Option<char>)
    decreases |fs|
  {
    && fs != []
    && PiecesOk(fs[0].pieces, last, true)
    && if |fs| == 1 then fs[0].mark == '}'
       else (fs[0].mark == ':' || fs[0].mark == ',') && FieldsOk(fs[1..], Some(fs[0].mark))
  }

  function PrintField(f: Field): string { PrintAll(f.pieces) + [f.mark] }

  function PrintFields(fs: seq<Field>): string {
    if fs == [] then "" else PrintField(fs[0]) + PrintFields(fs[1..])
  }

  predicate HasSpread(fs: seq<Field>) {
    fs != [] && (HasDots(fs[0].pieces) || HasSpread(fs[1..]))
  }

  /** The entry a field gives when the index after its mark is `next`. */
  function EntryOf(source: string, f: Field, next: nat): seq<Entry> {
    var key := KeyOf(f.pieces);
    if f.mark == ':' && key.Some? then [Entry(key.value, SkipSpace(source, next))] else []
  }

  /** The entries the literal should give when its fields start at index `i`. */
  function EntriesOf(source: string, i: nat, fs: seq<Field>): seq<Entry>
    decreases |fs|
  {
    if fs == [] then []
    else
      var next := i + |PrintField(fs[0])|;
      EntryOf(source, fs[0], next) + EntriesOf(source, next, fs[1..])
  }

  // ----------------------------------------------- the reader within one field

  /** The key that a colon at `i` would take from the pending string. */
  function PendingKey(source: string, r: Reader, i: nat): Option<string>
    requires i <= |source|
  {
    if r.pending.QuotedKey? && Adjoins(source, r.pending.end, i) then Some(r.pending.name) else None
  }

  /** The reader at `i`, after the pieces `done` of the current field. */
  predicate Reads(source: string, r: Reader, i: nat, done: seq<Piece>) {
    && r.open < i <= |source|
    && r.token == KeyText(done)
    && (r.pending.QuotedKey? ==> r.pending.end <= i)
    && PendingKey(source, r, i) == QuotedOf(done)
  }

  predicate SameEntries(r: Reader, s: Reader) { r.open == s.open && r.entries == s.entries }

  lemma QuotedMore(done: seq<Piece>, p: Piece)
    ensures QuotedOf(done + [p])
         == if p.Code? && IsSpace(p.c) then QuotedOf(done)
            else if p.Text? && IsIdent(PrintUnits(p.units)) then Some(PrintUnits(p.units))
            else None
  {
    assert (done + [p])[..|done|] == done;
  }

  lemma TextMore(done: seq<Piece>, p: Piece)
    ensures KeyText(done + [p])
         == if p.Code? then KeyText(done) + [p.c] else if p.Group? then "" else KeyText(done)
  {
    assert (done + [p])[..|done|] == done;
  }

  lemma SpaceMore(source: string, e: nat, i: nat)
    requires e <= i < |source|
    ensures AllSpace(source[e..i + 1]) <==> AllSpace(source[e..i]) && IsSpace(source[i])
  {
    assert source[e..i + 1] == source[e..i] + [source[i]];
    assert source[e..i + 1][i - e] == source[i];
    forall k | 0 <= k < i - e ensures source[e..i + 1][k] == source[e..i][k] { }
  }

  /** A pending key survives a step exactly when only whitespace was stepped over. */
  lemma StillPending(source: string, r: Reader, i: nat, j: nat)
    requires i < j <= |source| && (r.pending.QuotedKey? ==> r.pending.end <= i)
    ensures !IsSpace(source[i]) ==> PendingKey(source, r, j) == None
    ensures IsSpace(source[i]) && j == i + 1 ==> PendingKey(source, r, j) == PendingKey(source, r, i)
  {
    if r.pending.QuotedKey? {
      var e := r.pending.end;
      assert source[e..j][i - e] == source[i];
      SpaceMore(source, e, i);
    }
  }

  // ------------------------------------------- the walk across one field's pieces

  /** The reader after one piece of the literal's own level, met at index `i`. */
  function Absorb(source: string, i: nat, r: Reader, p: Piece): Reader
    requires i < |source|
  {
    match p
    case Code(_) => OnChar(source, r, i, 1)
    case Text(_, units) => OnString(r, PrintUnits(units), i, 1)
    case Group(_, _, _) => Reset(r)
    case LineComment(_) => r
    case BlockComment(_) => r
    case Regex(_) => r
  }

  function AbsorbAll(source: string, i: nat, r: Reader, ps: seq<Piece>): Reader
    decreases |ps|
  {
    if ps == [] || i >= |source| then r
    else AbsorbAll(source, i + |Print(ps[0])|, Absorb(source, i, r, ps[0]), ps[1..])
  }

  lemma OpenKept(source: string, i: nat, r: Reader, p: Piece)
    requires i < |source|
    ensures Absorb(source, i, r, p).open == r.open
  { }

  lemma WalkLeaf(source: string, i: nat, last: Option<char>, r: Reader, p: Piece)
    requires !p.Group? && At(source, i, Print(p)) && PieceOk(p, last, true)
    ensures i < |source|
    ensures Step(source, i, 1, last, r) == On(i + |Print(p)|, 1, LastOf(last, p), Absorb(source, i, r, p))
  {
    match p
    case Code(c) => StepChar(source, i, 1, last, r, c);
    case Text(quote, units) => StepText(source, i, 1, last, r, quote, units);
    case LineComment(text) => StepLine(source, i, 1, last, r, text);
    case BlockComment(text) => StepBlock(source, i, 1, last, r, text);
    case Regex(units) => StepRegex(source, i, 1, last, r, units);
  }

  lemma WalkCloser(source: string, i: nat, last: Option<char>, r: Reader, close: char)
    requires r.open < i && At(source, i, [close]) && IsCloser(close)
    ensures Walk(source, i, 2, last, r) == Walk(source, i + 1, 1, Some(close), Reset(r))
  {
    StepChar(source, i, 2, last, r, close);
  }

  lemma WalkPiece(source: string, i: nat, last: Option<char>, r: Reader, p: Piece, end: nat)
    requires r.open < i && At(source, i, Print(p)) && PieceOk(p, last, true) && end == i + |Print(p)|
    ensures i < |source|
    ensures Walk(source, i, 1, last, r) == Walk(source, end, 1, LastOf(last, p), Absorb(source, i, r, p))
  {
    if p.Group? {
      GroupParts(source, i, p);
      WalkGroup(source, i, last, r, p.open, p.inner, p.close, end);
    } else {
      WalkLeaf(source, i, last, r, p);
    }
  }

  lemma WalkGroup(source: string, i: nat, last: Option<char>, r: Reader, open: char, inner: seq<Piece>, close: char, end: nat)
    requires r.open < i && IsOpener(open) && IsCloser(close) && PiecesOk(inner, Some(open), false)
    requires end == i + 2 + |PrintAll(inner)|
    requires At(source, i, [open]) && At(source, i + 1, PrintAll(inner)) && At(source, end - 1, [close])
    ensures Walk(source, i, 1, last, r) == Walk(source, end, 1, Some(close), Reset(r))
  {
    Inside(source, i, 1, last, r, open, inner, end - 1);
    WalkCloser(source, end - 1, LastOfAll(Some(open), inner), r, close);
  }

  lemma {:induction false} WalkPieces(source: string, i: nat, last: Option<char>, r: Reader,
                                      ps: seq<Piece>, end: nat)
    requires r.open < i && At(source, i, PrintAll(ps)) && PiecesOk(ps, last, true) && end == i + |PrintAll(ps)|
    ensures Walk(source, i, 1, last, r) == Walk(source, end, 1, LastOfAll(last, ps), AbsorbAll(source, i, r, ps))
    decreases |ps|
  {
    if ps != [] {
      FirstPiece(source, i, last, ps, true);
      var next := i + |Print(ps[0])|;
      WalkPiece(source, i, last, r, ps[0], next);
      OpenKept(source, i, r, ps[0]);
      WalkPieces(source, next, LastOf(last, ps[0]), Absorb(source, i, r, ps[0]), ps[1..], end);
    }
  }

  // -------------------------------------------------- what the reader has read

  lemma ReadCode(source: string, i: nat, r: Reader, done: seq<Piece>, c: char)
    requires Reads(source, r, i, done) && At(source, i, [c]) && CodeChar(c, true)
    ensures i < |source|
    ensures var s := OnChar(source, r, i, 1);
            && Reads(source, s, i + 1, done + [Code(c)]) && SameEntries(r, s)
            && s.spread == (r.spread || DotsAt(source, i))
  {
    AtIndex(source, i, [c], 0);
    QuotedMore(done, Code(c));
    TextMore(done, Code(c));
    StillPending(source, r, i, i + 1);
  }

  /** Comments and regexes leave the reader as it is, and end a pending key. */
  lemma ReadSkipped(source: string, i: nat, r: Reader, done: seq<Piece>, p: Piece)
    requires Reads(source, r, i, done) && At(source, i, Print(p)) && (IsComment(p) || p.Regex?)
    ensures Reads(source, r, i + |Print(p)|, done + [p])
  {
    AtIndex(source, i, Print(p), 0);
    StillPending(source, r, i, i + |Print(p)|);
    QuotedMore(done, p);
    TextMore(done, p);
  }

  lemma ReadText(source: string, i: nat, r: Reader, done: seq<Piece>, p: Piece)
    requires Reads(source, r, i, done) && p.Text? && At(source, i, Print(p))
    ensures Reads(source, OnString(r, PrintUnits(p.units), i, 1), i + |Print(p)|, done + [p])
  {
    QuotedMore(done, p);
    TextMore(done, p);
  }

  lemma ReadPiece(source: string, i: nat, last: Option<char>, r: Reader, done: seq<Piece>, p: Piece)
    requires Reads(source, r, i, done) && At(source, i, Print(p)) && PieceOk(p, last, true)
    ensures i < |source|
    ensures var s := Absorb(source, i, r, p);
            && Reads(source, s, i + |Print(p)|, done + [p]) && SameEntries(r, s)
            && s.spread == (r.spread || (p.Code? && DotsAt(source, i)))
  {
    if p.Code? {
      ReadCode(source, i, r, done, p.c);
    } else if p.Text? {
      ReadText(source, i, r, done, p);
    } else if p.Group? {
      QuotedMore(done, p);
      TextMore(done, p);
    } else {
      ReadSkipped(source, i, r, done, p);
    }
  }

  // ---------------------------------------------------------------- spread dots

  /** The character at a field's start is a dot only when its first piece is one. */
  lemma DotAt(source: string, i: nat, last: Option<char>, ps: seq<Piece>, end: nat)
    requires At(source, i, PrintAll(ps)) && PiecesOk(ps, last, true)
    requires end == i + |PrintAll(ps)| < |source| && source[end] != '.'
    ensures source[i] == '.' <==> ps != [] && ps[0] == Code('.')
  {
    if ps != [] {
      FirstPiece(source, i, last, ps, true);
      AtIndex(source, i, Print(ps[0]), 0);
    }
  }

  lemma ThreeDots(source: string, i: nat)
    ensures DotsAt(source, i)
       <==> i + 2 < |source| && source[i] == '.' && source[i + 1] == '.' && source[i + 2] == '.'
  {
    if i + 2 < |source| { assert source[i..i + 3] == [source[i], source[i + 1], source[i + 2]]; }
  }

  lemma DotsRead(source: string, i: nat, last: Option<char>, ps: seq<Piece>, end: nat)
    requires At(source, i, PrintAll(ps)) && PiecesOk(ps, last, true)
    requires end == i + |PrintAll(ps)| < |source| && source[end] != '.'
    ensures DotsAt(source, i) <==> StartsDots(ps)
  {
    ThreeDots(source, i);
    DotAt(source, i, last, ps, end);
    if ps != [] && ps[0] == Code('.') {
      FirstPiece(source, i, last, ps, true);
      DotAt(source, i + 1, Some('.'), ps[1..], end);
      if |ps| > 1 && ps[1] == Code('.') {
        FirstPiece(source, i + 1, Some('.'), ps[1..], true);
        DotAt(source, i + 2, Some('.'), ps[2..], end);
      }
    }
  }

  // ------------------------------------------------------------ a whole field

  lemma ReadFirst(source: string, i: nat, last: Option<char>, r: Reader,
                  done: seq<Piece>, ps: seq<Piece>, end: nat)
    requires ps != [] && Reads(source, r, i, done) && At(source, i, PrintAll(ps)) && PiecesOk(ps, last, true)
    requires end == i + |PrintAll(ps)| < |source| && source[end] != '.'
    ensures var s := Absorb(source, i, r, ps[0]);
            && Reads(source, s, i + |Print(ps[0])|, done + [ps[0]]) && SameEntries(r, s)
            && s.spread == (r.spread || StartsDots(ps))
  {
    FirstPiece(source, i, last, ps, true);
    DotsRead(source, i, last, ps, end);
    ReadPiece(source, i, last, r, done, ps[0]);
  }

  lemma {:induction false} ReadPieces(source: string, i: nat, last: Option<char>, r: Reader,
                                      done: seq<Piece>, ps: seq<Piece>, all: seq<Piece>, end: nat)
    requires Reads(source, r, i, done) && At(source, i, PrintAll(ps)) && PiecesOk(ps, last, true)
    requires end == i + |PrintAll(ps)| < |source| && source[end] != '.' && all == done + ps
    ensures var s := AbsorbAll(source, i, r, ps);
            && Reads(source, s, end, all) && SameEntries(r, s)
            && s.spread == (r.spread || HasDots(ps))
    decreases |ps|
  {
    if ps == [] {
      assert all == done;
    } else {
      FirstPiece(source, i, last, ps, true);
      ReadFirst(source, i, last, r, done, ps, end);
      var next := i + |Print(ps[0])|;
      assert all == done + [ps[0]] + ps[1..];
      ReadPieces(source, next, LastOf(last, ps[0]), Absorb(source, i, r, ps[0]), done + [ps[0]], ps[1..], all, end);
    }
  }

  lemma ReadColon(source: string, i: nat, last: Option<char>, r: Reader, done: seq<Piece>) returns (s: Reader)
    requires Reads(source, r, i, done) && At(source, i, ":")
    ensures Walk(source, i, 1, last, r) == Walk(source, i + 1, 1, Some(':'), s)
    ensures Reads(source, s, i + 1, []) && s.open == r.open && s.spread == r.spread
    ensures s.entries
         == r.entries + match KeyOf(done) { case Some(key) => [Entry(key, SkipSpace(source, i + 1))] case None => [] }
  {
    StepChar(source, i, 1, last, r, ':');
    s := OnColon(source, r, i);
  }

  lemma ReadComma(source: string, i: nat, last: Option<char>, r: Reader) returns (s: Reader)
    requires r.open < i && At(source, i, ",")
    ensures Walk(source, i, 1, last, r) == Walk(source, i + 1, 1, Some(','), s)
    ensures Reads(source, s, i + 1, []) && SameEntries(r, s) && s.spread == r.spread
  {
    StepChar(source, i, 1, last, r, ',');
    s := Reset(r);
  }

  lemma ReadEnd(source: string, i: nat, last: Option<char>, r: Reader)
    requires At(source, i, "}")
    ensures Walk(source, i, 1, last, r) == Outcome(true, i + 1, r)
  {
    AtIndex(source, i, "}", 0);
    NoComment(source, i);
  }

  // --------------------------------------------------------- the whole literal

  lemma FieldParts(source: string, i: nat, last: Option<char>, fs: seq<Field>)
    requires FieldsOk(fs, last) && At(source, i, PrintFields(fs))
    ensures At(source, i, PrintAll(fs[0].pieces)) && At(source, i + |PrintAll(fs[0].pieces)|, [fs[0].mark])
    ensures i + |PrintAll(fs[0].pieces)| < |source| && source[i + |PrintAll(fs[0].pieces)|] != '.'
    ensures At(source, i + |PrintField(fs[0])|, PrintFields(fs[1..]))
    ensures |PrintFields(fs)| == |PrintField(fs[0])| + |PrintFields(fs[1..])|
  {
    AtConcat(source, i, PrintField(fs[0]), PrintFields(fs[1..]));
    AtConcat(source, i, PrintAll(fs[0].pieces), [fs[0].mark]);
    AtIndex(source, i + |PrintAll(fs[0].pieces)|, [fs[0].mark], 0);
  }

  lemma ReadMark(source: string, i: nat, last: Option<char>, r: Reader, f: Field) returns (s: Reader)
    requires Reads(source, r, i, f.pieces) && At(source, i, [f.mark]) && (f.mark == ':' || f.mark == ',')
    ensures Walk(source, i, 1, last, r) == Walk(source, i + 1, 1, Some(f.mark), s)
    ensures Reads(source, s, i + 1, []) && s.open == r.open && s.spread == r.spread
    ensures s.entries == r.entries + EntryOf(source, f, i + 1)
  {
    if f.mark == ':' {
      s := ReadColon(source, i, last, r, f.pieces);
    } else {
      s := ReadComma(source, i, last, r);
    }
  }

  /** The pieces of one field, up to its mark at `at`. */
  lemma ReadBody(source: string, i: nat, last: Option<char>, r: Reader, ps: seq<Piece>, at: nat)
    returns (l: Option<char>, s: Reader)
    requires At(source, i, PrintAll(ps)) && PiecesOk(ps, last, true) && Reads(source, r, i, [])
    requires at == i + |PrintAll(ps)| < |source| && source[at] != '.'
    ensures Walk(source, i, 1, last, r) == Walk(source, at, 1, l, s)
    ensures Reads(source, s, at, ps) && SameEntries(r, s) && s.spread == (r.spread || HasDots(ps))
  {
    l, s := LastOfAll(last, ps), AbsorbAll(source, i, r, ps);
    ReadPieces(source, i, last, r, [], ps, ps, at);
    WalkPieces(source, i, last, r, ps, at);
  }

  lemma ReadField(source: string, i: nat, last: Option<char>, r: Reader, f: Field, at: nat) returns (s: Reader)
    requires At(source, i, PrintAll(f.pieces)) && PiecesOk(f.pieces, last, true) && Reads(source, r, i, [])
    requires at == i + |PrintAll(f.pieces)| < |source| && source[at] != '.'
    requires At(source, at, [f.mark]) && (f.mark == ':' || f.mark == ',')
    ensures Walk(source, i, 1, last, r) == Walk(source, at + 1, 1, Some(f.mark), s)
    ensures Reads(source, s, at + 1, []) && s.spread == (r.spread || HasDots(f.pieces))
    ensures s.entries == r.entries + EntryOf(source, f, at + 1)
  {
    var l, q := ReadBody(source, i, last, r, f.pieces, at);
    s := ReadMark(source, at, l, q, f);
  }

  /** The outcome for the fields `fs` when `found` and `spread` were read before them. */
  predicate Read(source: string, i: nat, fs: seq<Field>, found: seq<Entry>, spread: bool, o: Outcome) {
    && o.ok && o.end == i + |PrintFields(fs)|
    && o.reader.entries == found + EntriesOf(source, i, fs)
    && o.reader.spread == (spread || HasSpread(fs))
  }

  lemma ReadPrepend(source: string, i: nat, fs: seq<Field>, found: seq<Entry>, spread: bool, o: Outcome)
    requires fs != []
    requires var next := i + |PrintField(fs[0])|;
             Read(source, next, fs[1..], found + EntryOf(source, fs[0], next), spread || HasDots(fs[0].pieces), o)
    ensures Read(source, i, fs, found, spread, o)
  {
    var next := i + |PrintField(fs[0])|;
    assert found + EntryOf(source, fs[0], next) + EntriesOf(source, next, fs[1..])
        == found + (EntryOf(source, fs[0], next) + EntriesOf(source, next, fs[1..]));
  }

  lemma ReadLast(source: string, i: nat, last: Option<char>, r: Reader, fs: seq<Field>)
    requires |fs| == 1 && FieldsOk(fs, last) && At(source, i, PrintFields(fs)) && Reads(source, r, i, [])
    ensures Read(source, i, fs, r.entries, r.spread, Walk(source, i, 1, last, r))
  {
    FieldParts(source, i, last, fs);
    var at := i + |PrintAll(fs[0].pieces)|;
    var l, q := ReadBody(source, i, last, r, fs[0].pieces, at);
    ReadEnd(source, at, l, q);
    OneField(source, i, fs, r.entries);
  }

  lemma OneField(source: string, i: nat, fs: seq<Field>, found: seq<Entry>)
    requires |fs| == 1 && fs[0].mark == '}'
    ensures |PrintFields(fs)| == |PrintAll(fs[0].pieces)| + 1 && found + EntriesOf(source, i, fs) == found
    ensures HasSpread(fs) == HasDots(fs[0].pieces)
  {
    assert fs[1..] == [];
  }

  /** The first of several fields, with its mark. */
  lemma ReadNext(source: string, i: nat, last: Option<char>, r: Reader, fs: seq<Field>, next: nat) returns (s: Reader)
    requires |fs| > 1 && FieldsOk(fs, last) && At(source, i, PrintFields(fs)) && Reads(source, r, i, [])
    requires next == i + |PrintField(fs[0])|
    ensures Walk(source, i, 1, last, r) == Walk(source, next, 1, Some(fs[0].mark), s)
    ensures Reads(source, s, next, []) && s.spread == (r.spread || HasDots(fs[0].pieces))
    ensures s.entries == r.entries + EntryOf(source, fs[0], next)
    ensures FieldsOk(fs[1..], Some(fs[0].mark)) && At(source, next, PrintFields(fs[1..]))
  {
    FieldParts(source, i, last, fs);
    s := ReadField(source, i, last, r, fs[0], next - 1);
  }

  lemma {:induction false} ReadFields(source: string, i: nat, last: Option<char>, r: Reader, fs: seq<Field>, o: Outcome)
    requires FieldsOk(fs, last) && At(source, i, PrintFields(fs)) && Reads(source, r, i, [])
    requires o == Walk(source, i, 1, last, r)
    ensures Read(source, i, fs, r.entries, r.spread, o)
    decreases |fs|
  {
    if |fs| == 1 {
      ReadLast(source, i, last, r, fs);
    } else {
      var next := i + |PrintField(fs[0])|;
      var s := ReadNext(source, i, last, r, fs, next);
      ReadFields(source, next, Some(fs[0].mark), s, fs[1..], o);
      ReadPrepend(source, i, fs, r.entries, r.spread, o);
    }
  }

  /**
  For every well-formed literal, wherever it stands in the file: the scan succeeds, ends
  just past the literal, and its entries are those of the literal's fields, in order.
  */
  lemma ScansExactly(prefix: string, fs: seq<Field>, suffix: string)
    requires FieldsOk(fs, Some('{'))
    ensures var source := prefix + ("{" + PrintFields(fs)) + suffix;
            var o := ObjectEntries(source, |prefix|);
            && o.ok && o.end == |prefix| + 1 + |PrintFields(fs)|
            && o.reader.entries == EntriesOf(source, |prefix| + 1, fs)
            && o.reader.spread == HasSpread(fs)
  {
    var source := prefix + ("{" + PrintFields(fs)) + suffix;
    var open := |prefix|;
    AtMiddle(prefix, "{" + PrintFields(fs), suffix);
    AtConcat(source, open, "{", PrintFields(fs));
    Enters(source, open);
    ReadFields(source, open + 1, Some('{'), Fresh(open), fs, ObjectEntries(source, open));
  }

  lemma Enters(source: string, open: nat)
    requires At(source, open, "{")
    ensures ObjectEntries(source, open) == Walk(source, open + 1, 1, Some('{'), Fresh(open))
    ensures Reads(source, Fresh(open), open + 1, [])
  {
    StepChar(source, open, 0, None, Fresh(open), '{');
    assert Walk(source, open, 0, None, Fresh(open)) == Walk(source, open + 1, 1, Some('{'), Fresh(open));
  }
}
