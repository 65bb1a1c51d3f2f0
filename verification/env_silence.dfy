/**
What the scan of `scripts/lib/env-schema.ts` passes over without an issue: exactly the sections
that are shorthand, bracketed, quoted with a comment before the colon, or not written as an
object literal.
*/
module EnvSilence {
  import opened Common
  import opened EnvScanner
  import opened EnvGrammar
  import opened EnvLiterals
  import opened EnvKeys
  import opened EnvItems
  import opened EnvSections
  import opened EnvStrays

  // ------------------------------------------------------- the items of a config

  function NameOf(item: Item): Option<string> {
    match item
    case Keyed(key, _) => Some(KeyName(key))
    case Short(_, name, _) => Some(name)
    case Nameless(_) => None
  }

  /** The item gives a section, whatever its value is. */
  predicate GivesSection(item: Item) { NameOf(item).Some? && NameOf(item).value in VAR_SECTIONS }

  /** How many fields come before item `k`. */
  function FieldIndex(items: seq<Item>, k: nat): nat
    requires k <= |items|
  {
    if k == 0 then 0 else |ItemTags(items[0])| + FieldIndex(items[1..], k - 1)
  }

  /** What the first field of a named item is: its key and colon, or the shorthand. */
  predicate Heads(item: Item, fs: seq<Field>, j: nat) {
    match item
    case Keyed(key, value) =>
      j + 1 < |fs| && fs[j] == Field(KeyPieces(key), ':') && value != [] && fs[j + 1].pieces == value[0]
    case Short(_, _, _) => j < |fs| && fs[j].mark != ':'
    case Nameless(_) => true
  }

  predicate HasValue(item: Item) { item.Keyed? ==> item.value != [] }

  lemma FirstHeads(item: Item, mark: char, rest: seq<Field>)
    requires HasValue(item) && mark != ':'
    ensures Heads(item, ItemFields(item, mark) + rest, 0) && |ItemFields(item, mark)| == |ItemTags(item)|
  {
    if item.Nameless? { StretchesRead(item.parts, mark); }
    if item.Keyed? {
      StretchesRead(item.value, mark);
      assert (ItemFields(item, mark) + rest)[1] == Stretches(item.value, mark)[0];
    }
  }

  lemma HeadsLater(item: Item, first: seq<Field>, rest: seq<Field>, j: nat)
    requires Heads(item, rest, j)
    ensures Heads(item, first + rest, |first| + j)
  {
  }

  lemma {:induction false} ItemHeads(items: seq<Item>, k: nat)
    requires k < |items| && forall n :: 0 <= n < |items| ==> HasValue(items[n])
    ensures Heads(items[k], Fields(items), FieldIndex(items, k))
    decreases k
  {
    var mark := if |items| == 1 then '}' else ',';
    var first, rest := ItemFields(items[0], mark), if |items| == 1 then [] else Fields(items[1..]);
    FirstHeads(items[0], mark, rest);
    assert Fields(items) == first + rest;
    if k > 0 {
      ItemHeads(items[1..], k - 1);
      HeadsLater(items[k], first, rest, FieldIndex(items[1..], k - 1));
    }
  }

  lemma NamedField(items: seq<Item>, k: nat)
    requires ItemsOk(items) && k < |items| && NameOf(items[k]).Some?
    ensures var j, fs, item := FieldIndex(items, k), Fields(items), items[k];
            && j < |fs|
            && (ReadTags(fs)[j] == if item.Keyed? && Visible(item.key) then NameOf(item) else None)
            && (item.Keyed? ==> j + 1 < |fs| && fs[j].mark == ':' && fs[j + 1].pieces == item.value[0])
  {
    forall n | 0 <= n < |items| ensures HasValue(items[n]) { assert ItemOk(items[n]); }
    ItemHeads(items, k);
    assert ItemOk(items[k]);
    if items[k].Keyed? { KeyReads(items[k].key); }
  }

  // --------------------------------------------------------- where a value starts

  /** The stretch starts with an opening brace, spaces aside. */
  predicate Opens(ps: seq<Piece>) {
    ps != [] && if ps[0].Code? && IsSpace(ps[0].c) then Opens(ps[1..]) else ps[0].Group? && ps[0].open == '{'
  }

  lemma FirstChar(p: Piece, last: Option<char>)
    requires PieceOk(p, last, true)
    ensures Print(p) != "" && (IsSpace(Print(p)[0]) <==> p.Code? && IsSpace(p.c))
    ensures Print(p)[0] == '{' <==> p.Group? && p.open == '{'
  {
  }

  lemma {:induction false} ValueOpens(source: string, v: nat, ps: seq<Piece>, mark: char, last: Option<char>)
    requires At(source, v, PrintAll(ps) + [mark]) && PiecesOk(ps, last, true) && !IsSpace(mark) && mark != '{'
    ensures SkipSpace(source, v) < |source| && (source[SkipSpace(source, v)] == '{' <==> Opens(ps))
    decreases |ps|
  {
    if ps == [] {
      assert PrintAll(ps) + [mark] == [mark];
      AtIndex(source, v, [mark], 0);
    } else {
      FirstChar(ps[0], last);
      var rest := PrintAll(ps[1..]) + [mark];
      assert PrintAll(ps) + [mark] == Print(ps[0]) + rest;
      AtIndex(source, v, Print(ps[0]) + rest, 0);
      if ps[0].Code? && IsSpace(ps[0].c) {
        AtConcat(source, v, Print(ps[0]), rest);
        ValueOpens(source, v + 1, ps[1..], mark, LastOf(last, ps[0]));
      }
    }
  }

  lemma {:induction false} FieldAt(source: string, i: nat, fs: seq<Field>, last: Option<char>, j: nat)
    requires Printed(source, i, fs) && FieldsOk(fs, last) && j < |fs|
    ensures At(source, FieldStart(i, fs, j), PrintField(fs[j])) && !IsSpace(fs[j].mark) && fs[j].mark != '{'
    ensures exists l :: PiecesOk(fs[j].pieces, l, true)
    decreases j
  {
    if j > 0 { FieldAt(source, i + |PrintField(fs[0])|, fs[1..], Some(fs[0].mark), j - 1); }
  }

  /** The value after a colon starts with a brace when the next stretch does. */
  lemma ValueAt(source: string, i: nat, fs: seq<Field>, last: Option<char>, j: nat)
    requires Printed(source, i, fs) && FieldsOk(fs, last) && j + 1 < |fs| && fs[j].mark == ':'
    ensures var v := PlaceOf(source, i, fs, j); v < |source| && (source[v] == '{' <==> Opens(fs[j + 1].pieces))
  {
    FieldAt(source, i, fs, last, j + 1);
    var l :| PiecesOk(fs[j + 1].pieces, l, true);
    ValueOpens(source, FieldStart(i, fs, j + 1), fs[j + 1].pieces, fs[j + 1].mark, l);
  }

  // ------------------------------------------------------------- silent sections

  /** The entry that the scanner would have for item `k` of the config literal at `|prefix|`. */
  function OwnEntry(prefix: string, items: seq<Item>, suffix: string, k: nat): Entry
    requires k < |items| && NameOf(items[k]).Some? && FieldIndex(items, k) < |Fields(items)|
  {
    Entry(NameOf(items[k]).value,
          PlaceOf(Around(prefix, items, suffix), |prefix| + 1, Fields(items), FieldIndex(items, k)))
  }

  /** The section is read: the variables of its literal are taken, and nothing else is in it. */
  predicate SectionRead(source: string, e: Entry) {
    IsSection(source, e) && ObjectEntries(source, e.valueStart).ok && !ObjectEntries(source, e.valueStart).reader.spread
  }

  /** The scan leaves the section that item `k` gives unread. */
  predicate Unread(prefix: string, items: seq<Item>, suffix: string, k: nat)
    requires k < |items| && NameOf(items[k]).Some? && FieldIndex(items, k) < |Fields(items)|
  {
    var source, e := Around(prefix, items, suffix), OwnEntry(prefix, items, suffix, k);
    !(e in ObjectEntries(source, |prefix|).reader.entries && SectionRead(source, e))
  }

  /** The item is shorthand, bracketed, quoted with a comment before its colon, or its value is no object literal. */
  predicate PassedOver(item: Item)
    requires item.Keyed? ==> item.value != []
  {
    || item.Short?
    || (item.Keyed? && item.key.Bracketed?)
    || (item.Keyed? && item.key.Quoted? && !Spaces(item.key.after))
    || (item.Keyed? && !Opens(item.value[0]))
  }

  lemma OwnEntryIff(prefix: string, items: seq<Item>, suffix: string, k: nat)
    requires LiteralOk(items) && k < |items| && NameOf(items[k]).Some?
    ensures FieldIndex(items, k) < |Fields(items)|
    ensures OwnEntry(prefix, items, suffix, k) in ObjectEntries(Around(prefix, items, suffix), |prefix|).reader.entries
       <==> items[k].Keyed? && Visible(items[k].key)
  {
    var source, fs, i := Around(prefix, items, suffix), Fields(items), |prefix| + 1;
    NamedField(items, k);
    ScansExactly(prefix, fs, suffix);
    EntriesRead(source, i, fs);
    LiteralPrinted(prefix, items, suffix);
    EntryAt(source, i, fs, ReadTags(fs), FieldIndex(items, k), NameOf(items[k]).value);
  }

  lemma OwnValueOpens(prefix: string, items: seq<Item>, suffix: string, k: nat)
    requires LiteralOk(items) && k < |items| && items[k].Keyed?
    ensures FieldIndex(items, k) < |Fields(items)|
    ensures var source, e := Around(prefix, items, suffix), OwnEntry(prefix, items, suffix, k);
            e.valueStart < |source| && (source[e.valueStart] == '{' <==> Opens(items[k].value[0]))
  {
    var source := Around(prefix, items, suffix);
    NamedField(items, k);
    LiteralPrinted(prefix, items, suffix);
    ValueAt(source, |prefix| + 1, Fields(items), Some('{'), FieldIndex(items, k));
  }

  lemma SectionIsIdent(name: string)
    requires name in VAR_SECTIONS
    ensures IsIdent(name)
  {
  }

  /**
  A scan without issues leaves a section of a scanned call unread if and only if the section is
  shorthand, bracketed, quoted with a comment before its colon, or its value does not start with
  a brace.
  */
  lemma SilentIff(prefix: string, items: seq<Item>, suffix: string, s: Scan, k: nat)
    requires LiteralOk(items) && k < |items| && GivesSection(items[k])
    requires var source := Around(prefix, items, suffix); Scanned(source, 0, |prefix|) && ScanFrom(source, 0, s).issues == []
    ensures FieldIndex(items, k) < |Fields(items)|
    ensures Unread(prefix, items, suffix, k) <==> PassedOver(items[k])
  {
    var source, item := Around(prefix, items, suffix), items[k];
    OwnEntryIff(prefix, items, suffix, k);
    SectionIsIdent(NameOf(item).value);
    if item.Keyed? && Visible(item.key) {
      OwnValueOpens(prefix, items, suffix, k);
      CleanScan(source, s, |prefix|, OwnEntry(prefix, items, suffix, k));
    }
  }

  // -------------------------------------------------------------- silent files

  /** A file of one call with this config literal. */
  function CallWith(items: seq<Item>): string { Around(CALL, items, ")") }

  lemma CallFirst(source: string)
    requires At(source, 0, CALL + "{") && ObjectEntries(source, |CALL|).ok
    ensures NextConfig(source, 0) == Config(|CALL|, ObjectEntries(source, |CALL|).end)
  {
    AtConcat(source, 0, CALL, "{");
    forall k: nat | k < |CALL| ensures !At(source, k, "{") {
      AtIndex(source, 0, CALL, k);
      if At(source, k, "{") { AtIndex(source, k, "{", 0); }
    }
    assert IndexOf(source, CALL, 0) == Some(0);
    var open := IndexOf(source, "{", 0);
    assert open.Some? && open.value <= |CALL|;
  }

  /** The scan of such a file is what its config adds. */
  lemma OneCall(items: seq<Item>, s: Scan)
    requires LiteralOk(items)
    ensures ScanFrom(CallWith(items), 0, s) == AddConfig(CallWith(items), |CALL|, s)
    ensures Scanned(CallWith(items), 0, |CALL|)
  {
    var source := CallWith(items);
    ScansExactly(CALL, Fields(items), ")");
    assert source[..|CALL| + 1] == CALL + "{";
    CallFirst(source);
    assert NextConfig(source, ObjectEntries(source, |CALL|).end) == NoCall;
  }

  lemma AddsNothing(source: string, entries: seq<Entry>, s: Scan)
    requires forall e :: e in entries ==> SectionNames(source, e) == [] && SectionIssues(source, e) == []
    ensures AddSections(source, entries, s) == s
    decreases |entries|
  {
    if entries != [] {
      var n := |entries| - 1;
      assert entries == entries[..n] + [entries[n]];
      AddsNothing(source, entries[..n], s);
    }
  }

  /** A config from which no key is read and that has no spread adds nothing and reports nothing. */
  lemma UnreadConfigIsSilent(items: seq<Item>, s: Scan)
    requires LiteralOk(items) && ReadNames(items) == [] && !HasSpread(Fields(items))
    ensures ScanFrom(CallWith(items), 0, s) == s
  {
    OneCall(items, s);
    ReadsItems(CALL, items, ")");
    ScansExactly(CALL, Fields(items), ")");
  }

  lemma OneKey(entries: seq<Entry>, x: string, e: Entry)
    requires KeyNames(entries) == [x] && e in entries
    ensures entries == [e]
  {
    assert |KeyNames(entries[1..])| == 0;
    assert entries[1..] == [];
  }

  /** A file whose one call gives one section, in a way that is passed over: nothing is found and nothing reported. */
  lemma PassedOverIsSilent(item: Item, s: Scan)
    requires LiteralOk([item]) && GivesSection(item) && HasValue(item) && PassedOver(item)
    requires (item.Keyed? ==> Strays(item.value) == []) && !HasSpread(Fields([item]))
    ensures ScanFrom(CallWith([item]), 0, s) == s
  {
    OneItem(item);
    if item.Keyed? && Visible(item.key) {
      var source := CallWith([item]);
      var e := OwnEntryOf(item);
      OneCall([item], s);
      ReadsItems(CALL, [item], ")");
      ScansExactly(CALL, Fields([item]), ")");
      OneKey(ObjectEntries(source, |CALL|).reader.entries, KeyName(item.key), e);
      AddsNothing(source, [e], s);
    } else {
      UnreadConfigIsSilent([item], s);
    }
  }

  /** The entry of a visible key whose value is no object literal. */
  lemma OwnEntryOf(item: Item) returns (e: Entry)
    requires LiteralOk([item]) && GivesSection(item) && item.Keyed? && Visible(item.key) && PassedOver(item)
    ensures e in ObjectEntries(CallWith([item]), |CALL|).reader.entries
    ensures SectionNames(CallWith([item]), e) == [] && SectionIssues(CallWith([item]), e) == []
  {
    assert ItemOk([item][0]);
    OwnEntryIff(CALL, [item], ")", 0);
    OwnValueOpens(CALL, [item], ")", 0);
    e := OwnEntry(CALL, [item], ")", 0);
  }

  /** A shorthand section, for every section name. */
  lemma ShorthandIsSilent(section: string, s: Scan)
    requires section in VAR_SECTIONS
    ensures ScanFrom(CALL + ("{" + (section + "}")) + ")", 0, s) == s
  {
    SectionIsIdent(section);
    ShorthandOk(section);
    PassedOverIsSilent(Short([], section, []), s);
  }

  lemma ServerShorthand(s: Scan)
    ensures ScanFrom("createEnv({server})", 0, s) == s
  {
    assert CALL + ("{" + ("server" + "}")) + ")" == "createEnv({server})";
    ShorthandIsSilent("server", s);
  }

  /** `section:` and a stretch of code. */
  lemma KeyedOk(section: string, ps: seq<Piece>)
    requires IsIdent(section) && PiecesOk(ps, Some(':'), true) && !HasDots(ps)
    ensures var items := [Keyed(Bare([], section, []), [ps])];
            && LiteralOk(items) && !HasSpread(Fields(items))
            && PrintItems(items) == section + ":" + (PrintAll(ps) + "}")
  {
    var item := Keyed(Bare([], section, []), [ps]);
    var first, last := Field(CodeOf(section), ':'), Field(ps, '}');
    assert [] + CodeOf(section) + [] == CodeOf(section);
    OneItem(item);
    IdentIsCode(section, Some('{'));
    CodePrints(section);
    LastField(last, Some(':'));
    MoreFields(first, [last], Some('{'));
    assert ItemFields(item, '}') == [first] + [last];
  }

  /** A section given by name, for every section and name. */
  lemma NamedSectionIsSilent(section: string, value: string, s: Scan)
    requires section in VAR_SECTIONS && IsIdent(value)
    ensures ScanFrom(CALL + ("{" + (section + ":" + (value + "}"))) + ")", 0, s) == s
  {
    SectionIsIdent(section);
    IdentIsCode(value, Some(':'));
    CodePrints(value);
    KeyedOk(section, CodeOf(value));
    assert !Opens(CodeOf(value)) by { assert CodeOf(value)[0] == Code(value[0]) && IdentStart(value[0]); }
    PassedOverIsSilent(Keyed(Bare([], section, []), [CodeOf(value)]), s);
  }

  lemma ServerByName(s: Scan)
    ensures ScanFrom("createEnv({server:base})", 0, s) == s
  {
    assert CALL + ("{" + ("server" + ":" + ("base" + "}"))) + ")" == "createEnv({server:base})";
    NamedSectionIsSilent("server", "base", s);
  }

  function PlainUnits(text: string): seq<Unit> { seq(|text|, k requires 0 <= k < |text| => Plain(text[k])) }

  lemma {:induction false} PlainPrints(text: string)
    ensures PrintUnits(PlainUnits(text)) == text
    decreases |text|
  {
    if text != "" {
      assert PlainUnits(text)[1..] == PlainUnits(text[1..]);
      PlainPrints(text[1..]);
      assert [text[0]] + text[1..] == text;
    }
  }

  /** `"section"/*c*/` */
  function CommentedKey(section: string): Key { Quoted([], '"', PlainUnits(section), [COMMENT]) }

  lemma CommentedKeyOk(section: string)
    requires IsIdent(section)
    ensures var ps := KeyPieces(CommentedKey(section));
            && PiecesOk(ps, Some('{'), true) && PrintAll(ps) == "\"" + section + "\"" + "/*c*/" && !HasDots(ps)
  {
    var text := Text('"', PlainUnits(section));
    PlainPrints(section);
    assert StringUnits(text.units, '"');
    OnePiece(COMMENT, Some('"'));
    MorePieces(text, [COMMENT], Some('{'));
    assert [] + [text] + [COMMENT] == [text] + [COMMENT] && ([text] + [COMMENT])[1..] == [COMMENT];
    assert [COMMENT][1..] == [] && !HasDots([COMMENT]);
    assert "/*" + "c" + "*/" == "/*c*/" && ['"'] == "\"";
  }

  /** A section quoted with a comment before its colon, whatever its value. */
  lemma CommentedSectionIsSilent(section: string, ps: seq<Piece>, s: Scan)
    requires section in VAR_SECTIONS && PiecesOk(ps, Some(':'), true) && !HasDots(ps)
    ensures ScanFrom(CALL + ("{" + ("\"" + section + "\"" + "/*c*/" + ":" + (PrintAll(ps) + "}"))) + ")", 0, s) == s
  {
    var item := Keyed(CommentedKey(section), [ps]);
    var first, last := Field(KeyPieces(item.key), ':'), Field(ps, '}');
    SectionIsIdent(section);
    PlainPrints(section);
    CommentedKeyOk(section);
    OneItem(item);
    LastField(last, Some(':'));
    MoreFields(first, [last], Some('{'));
    assert ItemFields(item, '}') == [first] + [last];
    assert !Spaces([COMMENT]) by { assert [COMMENT][0].BlockComment?; }
    assert Trivia([COMMENT]);
    PassedOverIsSilent(item, s);
  }

  // ------------------------------------------------------- a variable by shorthand

  function Braced(text: string): seq<Piece> { [Group('{', '}', CodeOf(text))] }

  /** Text that is code inside brackets. */
  predicate Inner(text: string) { PiecesOk(CodeOf(text), Some('{'), false) }

  lemma BracedOk(x: string)
    requires Inner(x)
    ensures PiecesOk(Braced(x), Some(':'), true) && PrintAll(Braced(x)) == "{" + (x + "}") && !HasDots(Braced(x))
  {
    CodePrints(x);
    OnePiece(Braced(x)[0], Some(':'));
    assert Braced(x)[1..] == [] && "{" + x + "}" == "{" + (x + "}");
  }

  /** The one entry of `createEnv({section:{x}})`, and the literal it points at. */
  lemma BracedEntry(section: string, x: string) returns (e: Entry)
    requires section in VAR_SECTIONS && Inner(x)
    ensures var items := [Keyed(Bare([], section, []), [Braced(x)])];
            && LiteralOk(items) && !HasSpread(Fields(items))
            && ObjectEntries(CallWith(items), |CALL|).reader.entries == [e] && e.key == section
            && e.valueStart == |CALL| + 1 + |section| + 1
            && CallWith(items) == CALL + ("{" + (section + ":" + ("{" + (x + "}") + "}"))) + ")"
  {
    var item := Keyed(Bare([], section, []), [Braced(x)]);
    SectionIsIdent(section);
    BracedOk(x);
    KeyedOk(section, Braced(x));
    OneItem(item);
    OwnEntryIff(CALL, [item], ")", 0);
    e := OwnEntry(CALL, [item], ")", 0);
    ReadsItems(CALL, [item], ")");
    OneKey(ObjectEntries(CallWith([item]), |CALL|).reader.entries, section, e);
    BracedPlace(section, x, CallWith([item]));
  }

  lemma BracedPlace(section: string, x: string, source: string)
    requires IsIdent(section) && source == CALL + ("{" + (section + ":" + ("{" + (x + "}") + "}"))) + ")"
    ensures var fs := Fields([Keyed(Bare([], section, []), [Braced(x)])]);
            fs != [] && PlaceOf(source, |CALL| + 1, fs, 0) == |CALL| + 1 + |section| + 1
  {
    var item, v := Keyed(Bare([], section, []), [Braced(x)]), |CALL| + 1 + |section| + 1;
    var fs := Fields([item]);
    OneItem(item);
    CodePrints(section);
    assert [] + CodeOf(section) + [] == CodeOf(section) && |PrintField(fs[0])| == |section| + 1;
    PlaceSteps(source, |CALL| + 1, fs, 0);
    assert source[v] == '{';
  }

  /** A variable given by shorthand in a section is neither found nor reported, for every section and name. */
  lemma ShorthandVariableIsSilent(section: string, x: string, s: Scan)
    requires section in VAR_SECTIONS && IsIdent(x)
    ensures ScanFrom(CALL + ("{" + (section + ":" + ("{" + (x + "}") + "}"))) + ")", 0, s) == s
  {
    IdentIsCode(x, Some('{'));
    var e := BracedEntry(section, x);
    var items := [Keyed(Bare([], section, []), [Braced(x)])];
    var source := CallWith(items);
    ScansExactly(CALL, Fields(items), ")");
    OneCall(items, s);
    BracedLiteral(section, x, source);
    AddsNothing(source, [e], s);
  }

  lemma BracedLiteral(section: string, x: string, source: string)
    requires IsIdent(x) && source == CALL + ("{" + (section + ":" + ("{" + (x + "}") + "}"))) + ")"
    ensures var o := ObjectEntries(source, |CALL| + 1 + |section| + 1);
            o.ok && o.reader.entries == [] && !o.reader.spread
  {
    var prefix, suffix := CALL + ("{" + (section + ":")), "}" + ")";
    assert source == prefix + ("{" + (x + "}")) + suffix;
    ShorthandUnread(prefix, x, suffix);
  }
}
