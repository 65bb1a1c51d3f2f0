/**
The section logic of `scanSchemaKeys` (`scripts/lib/env-schema.ts`) on one file's text: which
variables the `createEnv({…})` calls declare, and what makes the scan refuse.
*/
module EnvSections {
  import opened Common
  import opened EnvScanner
  import opened EnvLiterals
  import opened EnvKeys
  import opened EnvItems

  const VAR_SECTIONS: set<string> := { "server", "client", "shared" }

  const NON_VAR_OPTIONS: set<string> :=
    { "runtimeEnv", "runtimeEnvStrict", "experimental__runtimeEnv", "clientPrefix", "isServer", "skipValidation",
      "emptyStringAsUndefined", "extends", "onValidationError", "onInvalidAccess", "createFinalSchema" }

  const CALL := "createEnv("

  datatype Issue =
    | Unbalanced
    | ConfigSpread
    | UnknownOption(key: string)
    | SectionUnparsed(key: string)
    | SectionSpread(key: string)

  datatype Scan = Scan(keys: seq<string>, issues: seq<Issue>)

  /** `/^[A-Z][A-Z0-9_]*$/` */
  predicate IsVariable(name: string) {
    && |name| > 0 && 'A' <= name[0] <= 'Z'
    && forall k :: 0 <= k < |name| ==> 'A' <= name[k] <= 'Z' || '0' <= name[k] <= '9' || name[k] == '_'
  }

  // ------------------------------------------------------------------ one section

  /** The variables of an option's value, when it is a section written as an object literal. */
  predicate IsSection(source: string, e: Entry) {
    e.key in VAR_SECTIONS && e.valueStart < |source| && source[e.valueStart] == '{'
  }

  function SectionNames(source: string, e: Entry): seq<string> {
    if IsSection(source, e) && ObjectEntries(source, e.valueStart).ok
    then KeyNames(ObjectEntries(source, e.valueStart).reader.entries) else []
  }

  function SectionIssues(source: string, e: Entry): seq<Issue> {
    if e.key !in VAR_SECTIONS then if e.key in NON_VAR_OPTIONS then [] else [UnknownOption(e.key)]
    else if !IsSection(source, e) then []
    else
      var o := ObjectEntries(source, e.valueStart);
      if !o.ok then [SectionUnparsed(e.key)] else if o.reader.spread then [SectionSpread(e.key)] else []
  }

  function AddNames(keys: seq<string>, names: seq<string>): seq<string> {
    if names == [] then keys
    else
      var before, name := AddNames(keys, names[..|names| - 1]), names[|names| - 1];
      if IsVariable(name) && name !in before then before + [name] else before
  }

  lemma {:induction false} AddNamesHas(keys: seq<string>, names: seq<string>, x: string)
    ensures x in AddNames(keys, names) <==> x in keys || (x in names && IsVariable(x))
    decreases |names|
  {
    if names != [] {
      assert names == names[..|names| - 1] + [names[|names| - 1]];
      AddNamesHas(keys, names[..|names| - 1], x);
    }
  }

  // ------------------------------------------------------------------ one config

  function AddSections(source: string, entries: seq<Entry>, s: Scan): Scan {
    if entries == [] then s
    else
      var e, before := entries[|entries| - 1], AddSections(source, entries[..|entries| - 1], s);
      Scan(AddNames(before.keys, SectionNames(source, e)), before.issues + SectionIssues(source, e))
  }

  function AddConfig(source: string, open: nat, s: Scan): Scan {
    var o := ObjectEntries(source, open);
    AddSections(source, o.reader.entries, if o.reader.spread then s.(issues := s.issues + [ConfigSpread]) else s)
  }

  lemma {:induction false} SectionsHave(source: string, entries: seq<Entry>, s: Scan, x: string)
    ensures x in AddSections(source, entries, s).keys
       <==> x in s.keys || (IsVariable(x) && exists e :: e in entries && x in SectionNames(source, e))
    decreases |entries|
  {
    if entries != [] {
      var n := |entries| - 1;
      assert entries == entries[..n] + [entries[n]];
      SectionsHave(source, entries[..n], s, x);
      AddNamesHas(AddSections(source, entries[..n], s).keys, SectionNames(source, entries[n]), x);
    }
  }

  lemma {:induction false} SectionsReport(source: string, entries: seq<Entry>, s: Scan, issue: Issue)
    ensures issue in AddSections(source, entries, s).issues
       <==> issue in s.issues || exists e :: e in entries && issue in SectionIssues(source, e)
    decreases |entries|
  {
    if entries != [] {
      var n := |entries| - 1;
      assert entries == entries[..n] + [entries[n]];
      SectionsReport(source, entries[..n], s, issue);
    }
  }

  // -------------------------------------------------------------------- one file

  /** `indexOf` */
  function IndexOf(source: string, text: string, from: nat): (r: Option<nat>)
    ensures r.Some? ==> from <= r.value && At(source, r.value, text)
    ensures r.Some? ==> forall k: nat :: from <= k < r.value ==> !At(source, k, text)
    ensures r.None? ==> forall k: nat :: from <= k ==> !At(source, k, text)
    decreases |source| - from
  {
    if At(source, from, text) then Some(from)
    else if from >= |source| then None
    else IndexOf(source, text, from + 1)
  }

  lemma {:induction false} WalkGoesOn(source: string, i: nat, depth: int, last: Option<char>, r: Reader)
    ensures Walk(source, i, depth, last, r).ok ==> Walk(source, i, depth, last, r).end > i
    decreases |source| - i
  {
    if i < |source| {
      var t := Step(source, i, depth, last, r);
      if t.On? { WalkGoesOn(source, t.i, t.depth, t.last, t.reader); }
    }
  }

  /** The next call at or after an index, and its config object. */
  datatype Next = NoCall | NoObject(after: nat) | Broken | Config(open: nat, end: nat)

  function NextConfig(source: string, from: nat): (n: Next)
    ensures n.NoObject? ==> n.after > from && from < |source|
    ensures n.Config? ==> n.end > n.open >= from && from < |source|
  {
    var call := IndexOf(source, CALL, from);
    if call.None? then NoCall
    else
      var open := IndexOf(source, "{", call.value);
      if open.None? then NoObject(call.value + |CALL|)
      else if !ObjectEntries(source, open.value).ok then Broken
      else
        WalkGoesOn(source, open.value, 0, None, Fresh(open.value));
        Config(open.value, ObjectEntries(source, open.value).end)
  }

  function ScanFrom(source: string, from: nat, s: Scan): Scan
    decreases |source| - from
  {
    match NextConfig(source, from)
    case NoCall => s
    case NoObject(after) => ScanFrom(source, after, s)
    case Broken => s.(issues := s.issues + [Unbalanced])
    case Config(open, end) => ScanFrom(source, end, AddConfig(source, open, s))
  }

  // ------------------------------------------------------------------ the scanner

  method FindText(source: string, text: string, from: nat) returns (r: Option<nat>)
    ensures r == IndexOf(source, text, from)
  {
    var i := from;
    while !At(source, i, text) && i < |source|
      invariant IndexOf(source, text, i) == IndexOf(source, text, from)
      decreases |source| - i
    {
      i := i + 1;
    }
    return if At(source, i, text) then Some(i) else None;
  }

  method CollectNames(keys: seq<string>, names: seq<string>) returns (r: seq<string>)
    ensures r == AddNames(keys, names)
  {
    r := keys;
    for k := 0 to |names|
      invariant r == AddNames(keys, names[..k])
    {
      assert names[..k + 1][..k] == names[..k];
      if IsVariable(names[k]) && names[k] !in r {
        r := r + [names[k]];
      }
    }
    assert names[..|names|] == names;
  }

  method ScanSection(source: string, e: Entry, s: Scan) returns (r: Scan)
    ensures r == Scan(AddNames(s.keys, SectionNames(source, e)), s.issues + SectionIssues(source, e))
  {
    if e.key !in VAR_SECTIONS {
      return if e.key in NON_VAR_OPTIONS then s else s.(issues := s.issues + [UnknownOption(e.key)]);
    }
    if e.valueStart >= |source| || source[e.valueStart] != '{' {
      return s;
    }
    var end := MatchBrace(source, e.valueStart);
    if end.None? {
      return s.(issues := s.issues + [SectionUnparsed(e.key)]);
    }
    var entries, spread, _ := ReadEntries(source, e.valueStart);
    var keys := CollectNames(s.keys, KeyNames(entries));
    r := Scan(keys, if spread then s.issues + [SectionSpread(e.key)] else s.issues);
  }

  method ScanConfig(source: string, open: nat, s: Scan) returns (r: Scan)
    ensures r == AddConfig(source, open, s)
  {
    var entries, spread, _ := ReadEntries(source, open);
    ghost var start := if spread then s.(issues := s.issues + [ConfigSpread]) else s;
    r := if spread then s.(issues := s.issues + [ConfigSpread]) else s;
    for k := 0 to |entries|
      invariant r == AddSections(source, entries[..k], start)
    {
      assert entries[..k + 1][..k] == entries[..k];
      r := ScanSection(source, entries[k], r);
    }
    assert entries[..|entries|] == entries;
  }

  method FindConfig(source: string, from: nat) returns (n: Next)
    ensures n == NextConfig(source, from)
  {
    var call := FindText(source, CALL, from);
    if call.None? {
      return NoCall;
    }
    var open := FindText(source, "{", call.value);
    if open.None? {
      return NoObject(call.value + |CALL|);
    }
    var end := MatchBrace(source, open.value);
    return if end.None? then Broken else Config(open.value, end.value);
  }

  /** `scanSchemaKeys` on one file. */
  method ScanFile(source: string, s: Scan) returns (r: Scan)
    ensures r == ScanFrom(source, 0, s)
  {
    r := s;
    var from: nat := 0;
    while true
      invariant ScanFrom(source, from, r) == ScanFrom(source, 0, s)
      decreases |source| - from
    {
      var next := FindConfig(source, from);
      match next {
        case NoCall => return;
        case Broken =>
          r := r.(issues := r.issues + [Unbalanced]);
          return;
        case NoObject(after) => from := after;
        case Config(open, end) =>
          r := ScanConfig(source, open, r);
          from := end;
      }
    }
  }

  // ------------------------------------------------------------ what a scan means

  /** `open` is where the config object of a scanned call begins. */
  predicate Scanned(source: string, from: nat, open: nat)
    decreases |source| - from
  {
    match NextConfig(source, from)
    case NoCall => false
    case Broken => false
    case NoObject(after) => Scanned(source, after, open)
    case Config(o, end) => open == o || Scanned(source, end, open)
  }

  /** The config object at `open` declares the variable. */
  ghost predicate Declares(source: string, open: nat, x: string) {
    IsVariable(x) && exists e :: e in ObjectEntries(source, open).reader.entries && x in SectionNames(source, e)
  }

  ghost predicate DeclaredFrom(source: string, from: nat, x: string) {
    exists open :: Scanned(source, from, open) && Declares(source, open, x)
  }

  lemma ConfigHas(source: string, open: nat, s: Scan, x: string)
    ensures x in AddConfig(source, open, s).keys <==> x in s.keys || Declares(source, open, x)
  {
    var o := ObjectEntries(source, open);
    SectionsHave(source, o.reader.entries, if o.reader.spread then s.(issues := s.issues + [ConfigSpread]) else s, x);
  }

  lemma DeclaredNext(source: string, from: nat, open: nat, end: nat, x: string)
    requires NextConfig(source, from) == Config(open, end)
    ensures DeclaredFrom(source, from, x) <==> Declares(source, open, x) || DeclaredFrom(source, end, x)
  {
    if Declares(source, open, x) { assert Scanned(source, from, open); }
    if DeclaredFrom(source, end, x) {
      var o :| Scanned(source, end, o) && Declares(source, o, x);
      assert Scanned(source, from, o);
    }
    if DeclaredFrom(source, from, x) {
      var o :| Scanned(source, from, o) && Declares(source, o, x);
      assert o == open || Scanned(source, end, o);
    }
  }

  lemma DeclaredLater(source: string, from: nat, after: nat, x: string)
    requires NextConfig(source, from) == NoObject(after)
    ensures DeclaredFrom(source, from, x) <==> DeclaredFrom(source, after, x)
  {
    if DeclaredFrom(source, after, x) {
      var o :| Scanned(source, after, o) && Declares(source, o, x);
      assert Scanned(source, from, o);
    }
    if DeclaredFrom(source, from, x) {
      var o :| Scanned(source, from, o) && Declares(source, o, x);
      assert Scanned(source, after, o);
    }
  }

  /** The scan reports exactly the variables that some scanned call declares. */
  lemma {:induction false} ScanIsExact(source: string, from: nat, s: Scan, x: string)
    ensures x in ScanFrom(source, from, s).keys <==> x in s.keys || DeclaredFrom(source, from, x)
    decreases |source| - from
  {
    match NextConfig(source, from)
    case NoCall => assert !DeclaredFrom(source, from, x);
    case Broken => assert !DeclaredFrom(source, from, x);
    case NoObject(after) =>
      DeclaredLater(source, from, after, x);
      ScanIsExact(source, after, s, x);
    case Config(open, end) =>
      DeclaredNext(source, from, open, end, x);
      ConfigHas(source, open, s, x);
      ScanIsExact(source, end, AddConfig(source, open, s), x);
  }

  /** The config object at `open` has this wrong with it. */
  ghost predicate Wrong(source: string, open: nat, issue: Issue) {
    || (issue == ConfigSpread && ObjectEntries(source, open).reader.spread)
    || exists e :: e in ObjectEntries(source, open).reader.entries && issue in SectionIssues(source, e)
  }

  lemma ConfigReports(source: string, open: nat, s: Scan, issue: Issue)
    ensures issue in AddConfig(source, open, s).issues <==> issue in s.issues || Wrong(source, open, issue)
  {
    var o := ObjectEntries(source, open);
    SectionsReport(source, o.reader.entries, if o.reader.spread then s.(issues := s.issues + [ConfigSpread]) else s, issue);
  }

  lemma {:induction false} IssuesKept(source: string, from: nat, s: Scan, issue: Issue)
    requires issue in s.issues
    ensures issue in ScanFrom(source, from, s).issues
    decreases |source| - from
  {
    match NextConfig(source, from)
    case NoCall =>
    case Broken =>
    case NoObject(after) => IssuesKept(source, after, s, issue);
    case Config(open, end) =>
      ConfigReports(source, open, s, issue);
      IssuesKept(source, end, AddConfig(source, open, s), issue);
  }

  /** The scan stops at a config object that never closes. */
  predicate EndsBroken(source: string, from: nat)
    decreases |source| - from
  {
    match NextConfig(source, from)
    case NoCall => false
    case Broken => true
    case NoObject(after) => EndsBroken(source, after)
    case Config(_, end) => EndsBroken(source, end)
  }

  /** What a scanned config object has wrong with it is reported. */
  lemma {:induction false} IssuesReported(source: string, from: nat, s: Scan, open: nat, issue: Issue)
    requires Scanned(source, from, open) && Wrong(source, open, issue)
    ensures issue in ScanFrom(source, from, s).issues
    decreases |source| - from
  {
    match NextConfig(source, from)
    case NoObject(after) => IssuesReported(source, after, s, open, issue);
    case Config(o, end) =>
      if o == open {
        ConfigReports(source, open, s, issue);
        IssuesKept(source, end, AddConfig(source, open, s), issue);
      } else {
        IssuesReported(source, end, AddConfig(source, o, s), open, issue);
      }
  }

  lemma {:induction false} BrokenReported(source: string, from: nat, s: Scan)
    requires EndsBroken(source, from)
    ensures Unbalanced in ScanFrom(source, from, s).issues
    decreases |source| - from
  {
    match NextConfig(source, from)
    case Broken =>
    case NoObject(after) => BrokenReported(source, after, s);
    case Config(open, end) => BrokenReported(source, end, AddConfig(source, open, s));
  }

  lemma {:induction false} NothingElseReported(source: string, from: nat, s: Scan, issue: Issue)
    requires issue in ScanFrom(source, from, s).issues && issue !in s.issues
    ensures || (issue == Unbalanced && EndsBroken(source, from))
            || exists open :: Scanned(source, from, open) && Wrong(source, open, issue)
    decreases |source| - from
  {
    match NextConfig(source, from)
    case Broken =>
    case NoObject(after) =>
      NothingElseReported(source, after, s, issue);
      if o :| Scanned(source, after, o) && Wrong(source, o, issue) { assert Scanned(source, from, o); }
    case Config(open, end) =>
      assert Scanned(source, from, open);
      ConfigReports(source, open, s, issue);
      if issue !in AddConfig(source, open, s).issues {
        NothingElseReported(source, end, AddConfig(source, open, s), issue);
        if o :| Scanned(source, end, o) && Wrong(source, o, issue) { assert Scanned(source, from, o); }
      }
  }

  /** The scan reports exactly what is wrong with some scanned config object, and an unclosed one. */
  lemma ScanReportsExactly(source: string, from: nat, s: Scan, issue: Issue)
    ensures issue in ScanFrom(source, from, s).issues
       <==> || issue in s.issues || (issue == Unbalanced && EndsBroken(source, from))
            || exists open :: Scanned(source, from, open) && Wrong(source, open, issue)
  {
    if issue in ScanFrom(source, from, s).issues && issue !in s.issues {
      NothingElseReported(source, from, s, issue);
    }
    if issue in s.issues { IssuesKept(source, from, s, issue); }
    if issue == Unbalanced && EndsBroken(source, from) { BrokenReported(source, from, s); }
    if open :| Scanned(source, from, open) && Wrong(source, open, issue) {
      IssuesReported(source, from, s, open, issue);
    }
  }

  /** A scan without issues has seen no spread, no unknown option and no section it could not read. */
  lemma CleanScan(source: string, s: Scan, open: nat, e: Entry)
    requires ScanFrom(source, 0, s).issues == [] && Scanned(source, 0, open)
    requires e in ObjectEntries(source, open).reader.entries
    ensures !ObjectEntries(source, open).reader.spread && (e.key in VAR_SECTIONS || e.key in NON_VAR_OPTIONS)
    ensures IsSection(source, e) ==>
              ObjectEntries(source, e.valueStart).ok && !ObjectEntries(source, e.valueStart).reader.spread
  {
    if ObjectEntries(source, open).reader.spread { IssuesReported(source, 0, s, open, ConfigSpread); }
    if SectionIssues(source, e) != [] { IssuesReported(source, 0, s, open, SectionIssues(source, e)[0]); }
  }

  /**
  From a section literal of a scanned call exactly the names read from its items are taken:
  every variable among them is reported, which is every variable written there when all its
  items are read; and a spread in it is an issue.
  */
  lemma WrittenVariablesFound(prefix: string, items: seq<Item>, suffix: string, s: Scan, open: nat, e: Entry, x: string)
    requires LiteralOk(items)
    requires var source := Around(prefix, items, suffix);
             Scanned(source, 0, open) && e in ObjectEntries(source, open).reader.entries
    requires e.key in VAR_SECTIONS && e.valueStart == |prefix|
    ensures SectionNames(Around(prefix, items, suffix), e) == ReadNames(items)
    ensures var r := ScanFrom(Around(prefix, items, suffix), 0, s);
            && (IsVariable(x) && x in ReadNames(items) ==> x in r.keys)
            && (IsVariable(x) && x in ItemNames(items) && AllRead(items) ==> x in r.keys)
            && (HasSpread(Fields(items)) ==> SectionSpread(e.key) in r.issues)
  {
    var source := Around(prefix, items, suffix);
    assert source[|prefix|] == '{';
    ScansExactly(prefix, Fields(items), suffix);
    ReadsItems(prefix, items, suffix);
    ScanIsExact(source, 0, s, x);
    if HasSpread(Fields(items)) { IssuesReported(source, 0, s, open, SectionSpread(e.key)); }
  }
}
