/**
The scanner's characters and names spelled out: which texts it reads as keys, which of those are
variables, and what the scan of a whole file finds, with every character and option by name.
*/
module EnvNames {
  import opened Common
  import opened EnvScanner
  import opened EnvGrammar
  import opened EnvLiterals
  import opened EnvKeys
  import opened EnvItems
  import opened EnvSections
  import opened EnvStrays
  import opened EnvSilence

  // --------------------------------------------------------------- the characters

  const UPPER := "ABCDEFGHIJKLMNOPQRSTUVWXYZ"
  const LOWER := "abcdefghijklmnopqrstuvwxyz"
  const DIGITS := "0123456789"
  const BLANKS :=
    " \t\n\r\U{B}\U{C}\U{A0}\U{1680}\U{2000}\U{2001}\U{2002}\U{2003}\U{2004}\U{2005}\U{2006}\U{2007}\U{2008}\U{2009}\U{200A}\U{2028}\U{2029}\U{202F}\U{205F}\U{3000}\U{FEFF}"
  const MARKS := "\"'`{}[]()/,:"
  const REGEX_PRECEDERS := "(,=:[!&|?{};"

  predicate NameStart(c: char) { c in UPPER || c in LOWER || c == '_' || c == '$' }

  /** A name as it is written: a letter, `_` or `$`, then letters, digits, `_` and `$`. */
  predicate WrittenName(name: string) {
    name != "" && NameStart(name[0]) && forall k :: 0 <= k < |name| ==> NameStart(name[k]) || name[k] in DIGITS
  }

  /** A variable's name: a capital, then capitals, digits and `_`. */
  predicate WrittenVariable(name: string) {
    name != "" && name[0] in UPPER && forall k :: 0 <= k < |name| ==> name[k] in UPPER || name[k] in DIGITS || name[k] == '_'
  }

  lemma Upper(c: char)
    ensures 'A' <= c <= 'Z' <==> c in UPPER
  {
  }

  lemma Lower(c: char)
    ensures 'a' <= c <= 'z' <==> c in LOWER
  {
  }

  lemma Digits(c: char)
    ensures '0' <= c <= '9' <==> c in DIGITS
  {
  }

  lemma Characters(c: char)
    ensures IdentStart(c) <==> NameStart(c)
    ensures IdentPart(c) <==> NameStart(c) || c in DIGITS
    ensures IsSpace(c) <==> c in BLANKS
    ensures CodeChar(c, true) <==> c !in MARKS
    ensures BeforeRegex(Some(c)) <==> c in REGEX_PRECEDERS
  {
    Upper(c);
    Lower(c);
    Digits(c);
  }

  /** What is read as a key, and as a variable, is what is written as one. */
  lemma NameIff(name: string)
    ensures IsIdent(name) <==> WrittenName(name)
    ensures IsVariable(name) <==> WrittenVariable(name)
  {
    forall k | 0 <= k < |name|
      ensures IdentStart(name[k]) == NameStart(name[k]) && IdentPart(name[k]) == (NameStart(name[k]) || name[k] in DIGITS)
      ensures 'A' <= name[k] <= 'Z' <==> name[k] in UPPER
      ensures '0' <= name[k] <= '9' <==> name[k] in DIGITS
    {
      Characters(name[k]);
      Upper(name[k]);
      Digits(name[k]);
    }
  }

  // ---------------------------------------------------------------- one key

  predicate AllIn(text: string, chars: string) { forall k :: 0 <= k < |text| ==> text[k] in chars }

  predicate NoneIn(text: string, chars: string) { forall k :: 0 <= k < |text| ==> text[k] !in chars }

  lemma BlankChar(c: char)
    requires c in BLANKS
    ensures IsSpace(c) && c !in MARKS && c != '.'
  {
    Characters(c);
    assert CodeChar(c, true);
  }

  lemma BlanksAreSpace(text: string)
    requires AllIn(text, BLANKS)
    ensures AllSpace(text) && NoneIn(text, MARKS) && '.' !in text
  {
    forall k | 0 <= k < |text| ensures IsSpace(text[k]) && text[k] !in MARKS && text[k] != '.' { BlankChar(text[k]); }
  }

  lemma {:induction false} TextIsCode(text: string, last: Option<char>)
    requires NoneIn(text, MARKS)
    ensures PiecesOk(CodeOf(text), last, true)
    decreases |text|
  {
    if text != "" {
      assert CodeOf(text)[1..] == CodeOf(text[1..]);
      Characters(text[0]);
      TextIsCode(text[1..], LastOf(last, CodeOf(text)[0]));
    }
  }

  lemma {:induction false} NoDots(text: string)
    requires '.' !in text
    ensures !HasDots(CodeOf(text))
    decreases |text|
  {
    if text != "" {
      assert CodeOf(text)[1..] == CodeOf(text[1..]);
      NoDots(text[1..]);
    }
  }

  lemma {:induction false} CodeNotQuoted(text: string)
    ensures QuotedOf(CodeOf(text)) == None
    decreases |text|
  {
    if text != "" {
      var n := |text| - 1;
      assert CodeOf(text) == CodeOf(text[..n]) + [Code(text[n])];
      QuotedMore(CodeOf(text[..n]), Code(text[n]));
      CodeNotQuoted(text[..n]);
    }
  }

  /** Text that neither starts nor ends with a blank. */
  predicate Tight(name: string) { name != "" ==> name[0] !in BLANKS && name[|name| - 1] !in BLANKS }

  lemma TightEnds(name: string)
    requires Tight(name)
    ensures name != "" ==> !IsSpace(name[0]) && !IsSpace(name[|name| - 1])
  {
    if name != "" {
      Characters(name[0]);
      Characters(name[|name| - 1]);
    }
  }

  lemma Trims(before: string, name: string, after: string)
    requires AllSpace(before) && AllSpace(after) && (name != "" ==> !IsSpace(name[0]) && !IsSpace(name[|name| - 1]))
    ensures Trim(before + name + after) == name
  {
    if name == "" {
      assert before + name + after == (before + after) + "";
      TrimLeftBlank(before + after, "");
    } else {
      assert before + name + after == before + (name + after);
      assert (name + after)[0] == name[0];
      TrimLeftBlank(before, name + after);
      TrimRightBlank(name, after);
    }
  }

  lemma TextKey(before: string, name: string, after: string)
    requires AllIn(before, BLANKS) && AllIn(after, BLANKS) && Tight(name)
    ensures KeyOf(CodeOf(before + name + after)) == if WrittenName(name) then Some(name) else None
  {
    var text := before + name + after;
    CodeNotQuoted(text);
    TextOfCode([], text);
    assert [] + CodeOf(text) == CodeOf(text) && "" + text == text;
    BlanksAreSpace(before);
    BlanksAreSpace(after);
    TightEnds(name);
    Trims(before, name, after);
    NameIff(name);
  }

  function KeyField(text: string): seq<Field> { [Field(CodeOf(text), ':'), Field([Code('z')], '}')] }

  lemma KeyFieldOk(text: string)
    requires NoneIn(text, MARKS)
    ensures FieldsOk(KeyField(text), Some('{')) && PrintFields(KeyField(text)) == text + ":z}"
    ensures '.' !in text ==> !HasSpread(KeyField(text))
  {
    var first, last := Field(CodeOf(text), ':'), Field([Code('z')], '}');
    TextIsCode(text, Some('{'));
    CodePrints(text);
    OnePiece(Code('z'), Some(':'));
    LastField(last, Some(':'));
    MoreFields(first, [last], Some('{'));
    assert KeyField(text) == [first] + [last];
    assert text + [':'] + "z}" == text + ":z}";
    if '.' !in text { NoDots(text); }
    assert [Code('z')][1..] == [];
  }

  lemma NameChar(c: char)
    requires IdentPart(c)
    ensures c !in MARKS && c !in BLANKS && c != '.' && CodeChar(c, false)
  {
    assert CodeChar(c, true) && !IsSpace(c);
    Characters(c);
  }

  lemma NameHasNoMarks(name: string)
    requires IsIdent(name)
    ensures NoneIn(name, MARKS) && Tight(name) && '.' !in name
  {
    forall k | 0 <= k < |name| ensures name[k] !in MARKS && name[k] !in BLANKS && name[k] != '.' { NameChar(name[k]); }
  }

  /**
  One text before a colon: with any blanks around it, it is read as a key exactly when it is a
  name as written, and otherwise gives none.
  */
  lemma KeyScans(prefix: string, before: string, name: string, after: string, suffix: string)
    requires AllIn(before, BLANKS) && AllIn(after, BLANKS) && NoneIn(name, MARKS) && Tight(name)
    ensures var o := ObjectEntries(prefix + ("{" + (before + name + after + ":z}")) + suffix, |prefix|);
            && o.ok && KeyNames(o.reader.entries) == (if WrittenName(name) then [name] else [])
            && (WrittenName(name) ==> !o.reader.spread)
  {
    var text := before + name + after;
    BlanksAreSpace(before);
    BlanksAreSpace(after);
    NameIff(name);
    if WrittenName(name) { NameHasNoMarks(name); }
    KeyFieldOk(text);
    KeysScanned(prefix, KeyField(text), suffix);
    ScansExactly(prefix, KeyField(text), suffix);
    TextKey(before, name, after);
    OneFieldKey(text);
  }

  lemma OneFieldKey(text: string)
    ensures KeysOf(KeyField(text)) == FieldKey(Field(CodeOf(text), ':'))
  {
    var fs := KeyField(text);
    assert fs[1..] == [fs[1]] && [fs[1]][1..] == [] && KeysOf([]) == [];
    assert KeysOf([fs[1]]) == [] + [] == [];
    assert KeysOf(fs) == FieldKey(fs[0]) + [];
  }

  // ---------------------------------------------------------------- one file

  predicate SectionName(name: string) { name == "server" || name == "client" || name == "shared" }

  predicate OptionName(name: string) {
    || name == "runtimeEnv" || name == "runtimeEnvStrict" || name == "experimental__runtimeEnv" || name == "clientPrefix"
    || name == "isServer" || name == "skipValidation" || name == "emptyStringAsUndefined" || name == "extends"
    || name == "onValidationError" || name == "onInvalidAccess" || name == "createFinalSchema"
  }

  lemma OptionNames(name: string)
    ensures SectionName(name) <==> name in VAR_SECTIONS
    ensures OptionName(name) <==> name in NON_VAR_OPTIONS
  {
  }

  lemma {:induction false} InnerCode(text: string, last: Option<char>)
    requires forall k :: 0 <= k < |text| ==> CodeChar(text[k], false)
    ensures PiecesOk(CodeOf(text), last, false)
    decreases |text|
  {
    if text != "" {
      assert CodeOf(text)[1..] == CodeOf(text[1..]);
      assert CodeChar(text[0], false);
      InnerCode(text[1..], LastOf(last, CodeOf(text)[0]));
    }
  }

  lemma NameInside(name: string)
    requires WrittenName(name)
    ensures Inner(name + ":z")
  {
    NameIff(name);
    var text := name + ":z";
    forall k | 0 <= k < |text| ensures CodeChar(text[k], false) {
      if k < |name| { NameChar(name[k]); assert text[k] == name[k]; }
    }
    InnerCode(text, Some('{'));
  }

  lemma OneName(keys: seq<string>, name: string)
    ensures AddNames(keys, [name]) == if IsVariable(name) && name !in keys then keys + [name] else keys
  {
    assert [name][..0] == [] && AddNames(keys, []) == keys;
  }

  lemma OneSection(source: string, e: Entry, s: Scan)
    ensures AddSections(source, [e], s) == Scan(AddNames(s.keys, SectionNames(source, e)), s.issues + SectionIssues(source, e))
  {
    assert [e][..0] == [] && AddSections(source, [], s) == s;
  }

  /** A file with one call, one section and one key: the key is found exactly when it is a variable's name. */
  lemma VariableFound(section: string, name: string, s: Scan)
    requires SectionName(section) && WrittenName(name)
    ensures ScanFrom(CALL + ("{" + (section + ":" + ("{" + (name + ":z" + "}") + "}"))) + ")", 0, s)
         == if WrittenVariable(name) && name !in s.keys then s.(keys := s.keys + [name]) else s
  {
    var text, items := name + ":z", [Keyed(Bare([], section, []), [Braced(name + ":z")])];
    OptionNames(section);
    NameInside(name);
    var e := BracedEntry(section, text);
    var source := CallWith(items);
    ScansExactly(CALL, Fields(items), ")");
    OneCall(items, s);
    SectionScans(section, name, source);
    NameIff(name);
    OneName(s.keys, name);
    OneSection(source, e, s);
    assert s.issues + [] == s.issues;
  }

  lemma SectionText(call: string, section: string, name: string)
    ensures call + ("{" + (section + ":" + ("{" + (name + ":z" + "}") + "}"))) + ")"
         == call + ("{" + (section + ":")) + ("{" + (name + ":z" + "}")) + ("}" + ")")
    ensures "" + name + "" + ":z}" == name + ":z" + "}"
  {
  }

  lemma SectionScans(section: string, name: string, source: string)
    requires WrittenName(name) && source == CALL + ("{" + (section + ":" + ("{" + (name + ":z" + "}") + "}"))) + ")"
    ensures var v := |CALL| + 1 + |section| + 1;
            var o := ObjectEntries(source, v);
            && v < |source| && source[v] == '{' && o.ok && KeyNames(o.reader.entries) == [name] && !o.reader.spread
  {
    var prefix, suffix := CALL + ("{" + (section + ":")), "}" + ")";
    NameIff(name);
    NameHasNoMarks(name);
    SectionText(CALL, section, name);
    KeyScans(prefix, "", name, "", suffix);
  }

  lemma DatabaseUrl()
    ensures ScanFrom("createEnv({server:{DATABASE_URL:z}})", 0, Scan([], [])) == Scan(["DATABASE_URL"], [])
  {
    DatabaseUrlText();
    DatabaseUrlName();
    VariableFound("server", "DATABASE_URL", Scan([], []));
    assert [] + ["DATABASE_URL"] == ["DATABASE_URL"];
  }

  lemma DatabaseUrlText()
    ensures CALL + ("{" + ("server" + ":" + ("{" + ("DATABASE_URL" + ":z" + "}") + "}"))) + ")" == "createEnv({server:{DATABASE_URL:z}})"
  {
  }

  lemma DatabaseUrlName()
    ensures WrittenName("DATABASE_URL") && WrittenVariable("DATABASE_URL")
  {
  }

  /** The one entry of a config that gives one option a name as its value. */
  lemma OptionEntry(x: string) returns (e: Entry)
    requires IsIdent(x)
    ensures var items := [Keyed(Bare([], x, []), [CodeOf("y")])];
            && LiteralOk(items) && !HasSpread(Fields(items)) && PrintItems(items) == x + ":" + ("y" + "}")
            && ObjectEntries(CallWith(items), |CALL|).reader.entries == [e] && e.key == x
            && e.valueStart < |CallWith(items)| && CallWith(items)[e.valueStart] != '{'
  {
    var item := Keyed(Bare([], x, []), [CodeOf("y")]);
    IdentIsCode("y", Some(':'));
    CodePrints("y");
    KeyedOk(x, CodeOf("y"));
    OneItem(item);
    assert Strays([CodeOf("y")]) == [];
    ReadsItems(CALL, [item], ")");
    OwnEntryIff(CALL, [item], ")", 0);
    OwnValueOpens(CALL, [item], ")", 0);
    assert !EnvSilence.Opens(CodeOf("y")) by { assert CodeOf("y")[0] == Code('y'); }
    e := OwnEntry(CALL, [item], ")", 0);
    OneKey(ObjectEntries(CallWith([item]), |CALL|).reader.entries, x, e);
  }

  lemma OptionIssues(source: string, e: Entry)
    requires e.valueStart < |source| && source[e.valueStart] != '{'
    ensures SectionNames(source, e) == []
    ensures SectionIssues(source, e) == if SectionName(e.key) || OptionName(e.key) then [] else [UnknownOption(e.key)]
  {
    OptionNames(e.key);
  }

  /** An option that is neither a section nor one of the known ones is reported, and only such a one. */
  lemma OptionReported(x: string, s: Scan)
    requires WrittenName(x)
    ensures ScanFrom(CALL + ("{" + (x + ":" + ("y" + "}"))) + ")", 0, s)
         == if SectionName(x) || OptionName(x) then s else s.(issues := s.issues + [UnknownOption(x)])
  {
    var items := [Keyed(Bare([], x, []), [CodeOf("y")])];
    NameIff(x);
    var e := OptionEntry(x);
    OneEntry(items, e, s);
    OptionIssues(CallWith(items), e);
    assert s.issues + [] == s.issues && AddNames(s.keys, []) == s.keys;
  }

  lemma OneEntry(items: seq<Item>, e: Entry, s: Scan)
    requires LiteralOk(items) && !HasSpread(Fields(items)) && ObjectEntries(CallWith(items), |CALL|).reader.entries == [e]
    ensures ScanFrom(CallWith(items), 0, s)
         == Scan(AddNames(s.keys, SectionNames(CallWith(items), e)), s.issues + SectionIssues(CallWith(items), e))
  {
    OneCall(items, s);
    ScansExactly(CALL, Fields(items), ")");
    OneSection(CallWith(items), e, s);
  }

  // ------------------------------------------------------------- a wrong closer

  /** Neither brackets nor what starts a string, a comment or a regex. */
  predicate Quiet(text: string) {
    forall k :: 0 <= k < |text| ==> text[k] !in {'{', '}', '[', ']', '(', ')', '"', '\'', '`', '/'}
  }

  lemma {:induction false} QuietEndsOpen(source: string, i: nat, last: Option<char>, r: Reader)
    requires i <= |source| && Quiet(source[i..])
    ensures !Walk(source, i, 0, last, r).ok
    decreases |source| - i
  {
    if i < |source| {
      assert source[i..][0] == source[i] && source[i..][1..] == source[i + 1..];
      NotAt(source, i, "//");
      NotAt(source, i, "/*");
      assert Step(source, i, 0, last, r).On?;
      QuietEndsOpen(source, i + 1, LastAfter(last, source[i]), OnChar(source, r, i, 0));
    }
  }

  lemma NotAt(source: string, i: nat, mark: string)
    requires i < |source| && |mark| > 0 && source[i] != mark[0]
    ensures !At(source, i, mark)
  {
    if i + |mark| <= |source| { assert source[i..i + |mark|][0] == source[i]; }
  }

  /** A `]` does not close an object: the scan of one goes on past it, and fails when nothing else closes it. */
  lemma SquareDoesNotClose(text: string)
    requires Quiet(text)
    ensures !ObjectEntries("{]" + text, 0).ok
  {
    var source := "{]" + text;
    assert source[0] == '{' && source[1] == ']' && source[2..] == text;
    NotAt(source, 0, "//");
    NotAt(source, 0, "/*");
    NotAt(source, 1, "//");
    NotAt(source, 1, "/*");
    var first := OnChar(source, Fresh(0), 0, 1);
    assert Walk(source, 0, 0, None, Fresh(0)) == Walk(source, 1, 1, Some('{'), first);
    var second := OnChar(source, first, 1, 0);
    assert Walk(source, 1, 1, Some('{'), first) == Walk(source, 2, 0, Some(']'), second);
    QuietEndsOpen(source, 2, Some(']'), second);
  }

  // ---------------------------------------------------------------- every call

  /** `open` is the first brace at or after `k`. */
  predicate FirstBrace(source: string, k: nat, open: nat) {
    k <= open < |source| && source[open] == '{' && forall j :: k <= j < open ==> source[j] != '{'
  }

  /** `k` lies inside the config object of some scanned call. */
  ghost predicate InsideScanned(source: string, from: nat, k: nat) {
    exists open: nat :: Scanned(source, from, open) && open < k < ObjectEntries(source, open).end
  }

  /** The call at `k` is scanned, lies inside one that is, or has no brace after it. */
  ghost predicate CallCovered(source: string, from: nat, k: nat) {
    || (exists open: nat :: Scanned(source, from, open) && FirstBrace(source, k, open))
    || InsideScanned(source, from, k)
    || (forall j :: k <= j < |source| ==> source[j] != '{')
  }

  lemma BraceAt(source: string, j: nat)
    requires j < |source|
    ensures At(source, j, "{") <==> source[j] == '{'
  {
    if source[j] == '{' { assert source[j..j + 1] == "{"; }
    if At(source, j, "{") { AtIndex(source, j, "{", 0); }
  }

  lemma CoveredLater(source: string, from: nat, end: nat, k: nat)
    requires CallCovered(source, end, k) && forall open: nat :: Scanned(source, end, open) ==> Scanned(source, from, open)
    ensures CallCovered(source, from, k)
  {
  }

  lemma NextBrace(source: string, call: nat, k: nat, open: nat)
    requires call <= k <= open && IndexOf(source, "{", call) == Some(open)
    ensures FirstBrace(source, k, open)
  {
    BraceAt(source, open);
    forall j | k <= j < open ensures source[j] != '{' { BraceAt(source, j); }
  }

  /** No call is skipped: on a scan that did not stop at an unclosed object, every `createEnv(` is covered. */
  lemma {:induction false} EveryCallScanned(source: string, from: nat, k: nat)
    requires from <= k && At(source, k, CALL) && !EndsBroken(source, from)
    ensures CallCovered(source, from, k)
    decreases |source| - from
  {
    var call := IndexOf(source, CALL, from);
    assert call.Some? && call.value <= k;
    var brace := IndexOf(source, "{", call.value);
    match NextConfig(source, from)
    case NoObject(after) =>
      forall j | k <= j < |source| ensures source[j] != '{' { BraceAt(source, j); }
    case Config(open, end) =>
      assert Scanned(source, from, open);
      if k <= open {
        NextBrace(source, call.value, k, open);
      } else if k >= end {
        EveryCallScanned(source, end, k);
        CoveredLater(source, from, end, k);
      }
    case _ =>
  }
}
