/**
The env-schema tokenizer (`scripts/lib/env-schema.ts`): `walk`, `matchBrace` and
`objectEntries`.

`Walk` and the reader functions specify the scanner by recursion on the source index;
`KeyReader` holds the callbacks' state and `RunWalk` is the loop itself. Both callers
pass the end of the source as the end of the walk, so it is not a parameter here.
*/
module EnvScanner {
  import opened Common

  // -------------------------------------------------------------- characters

  /** JavaScript's `\s`. */
  predicate IsSpace(c: char) {
    || c == ' ' || c == '\t' || c == '\n' || c == '\r' || c == '\U{B}' || c == '\U{C}'
    || c == '\U{A0}' || c == '\U{FEFF}' || c == '\U{1680}' || '\U{2000}' <= c <= '\U{200A}'
    || c == '\U{2028}' || c == '\U{2029}' || c == '\U{202F}' || c == '\U{205F}' || c == '\U{3000}'
  }

  predicate AllSpace(s: string) { forall k :: 0 <= k < |s| ==> IsSpace(s[k]) }

  predicate IsQuote(c: char) { c == '"' || c == '\'' || c == '`' }
  predicate IsOpener(c: char) { c == '{' || c == '[' || c == '(' }
  predicate IsCloser(c: char) { c == '}' || c == ']' || c == ')' }

  predicate IdentStart(c: char) { 'A' <= c <= 'Z' || 'a' <= c <= 'z' || c == '_' || c == '$' }
  predicate IdentPart(c: char) { IdentStart(c) || '0' <= c <= '9' }

  predicate IsIdent(s: string) {
    |s| > 0 && IdentStart(s[0]) && forall k :: 0 <= k < |s| ==> IdentPart(s[k])
  }

  /** A `/` after one of these begins a regex literal. */
  predicate BeforeRegex(last: Option<char>) {
    last.Some? && var c := last.value;
    || c == '(' || c == ',' || c == '=' || c == ':' || c == '[' || c == '!' || c == '&'
    || c == '|' || c == '?' || c == '{' || c == '}' || c == ';'
  }

  function TrimLeft(s: string): string {
    if s != [] && IsSpace(s[0]) then TrimLeft(s[1..]) else s
  }

  function TrimRight(s: string): string {
    if s != [] && IsSpace(s[|s| - 1]) then TrimRight(s[..|s| - 1]) else s
  }

  function Trim(s: string): string { TrimRight(TrimLeft(s)) }

  // ---------------------------------------------------- where skipped parts end

  function LineEnd(source: string, i: nat): (e: nat)
    ensures e >= i
    decreases |source| - i
  {
    if i < |source| && source[i] != '\n' then LineEnd(source, i + 1) else i
  }

  predicate BlockEndsAt(source: string, i: nat) {
    i + 1 < |source| && source[i] == '*' && source[i + 1] == '/'
  }

  function BlockEnd(source: string, i: nat): (e: nat)
    ensures e >= i
    decreases |source| - i
  {
    if i < |source| && !BlockEndsAt(source, i) then BlockEnd(source, i + 1) else i
  }

  function RegexEnd(source: string, i: nat, inClass: bool): (e: nat)
    ensures e >= i
    decreases |source| - i
  {
    if i >= |source| then i
    else if source[i] == '\\' then RegexEnd(source, i + 2, inClass)
    else if source[i] == '[' then RegexEnd(source, i + 1, true)
    else if source[i] == ']' then RegexEnd(source, i + 1, false)
    else if (source[i] == '/' && !inClass) || source[i] == '\n' then i
    else RegexEnd(source, i + 1, inClass)
  }

  function StringEnd(source: string, i: nat, quote: char): (e: nat)
    ensures e >= i
    decreases |source| - i
  {
    if i >= |source| then i
    else if source[i] == '\\' then StringEnd(source, i + 2, quote)
    else if source[i] == quote then i
    else StringEnd(source, i + 1, quote)
  }

  function SkipSpace(source: string, v: nat): (e: nat)
    ensures e >= v
    decreases |source| - v
  {
    if v < |source| && IsSpace(source[v]) then SkipSpace(source, v + 1) else v
  }

  // ------------------------------------------------------------- the callbacks

  datatype Entry = Entry(key: string, valueStart: nat)

  /** A quoted key at the object's own depth, waiting for its `:`. */
  datatype Pending = NoKey | QuotedKey(name: string, end: nat)

  /** What `objectEntries` keeps between callbacks. `open` is the object's own `{`. */
  datatype Reader = Reader(open: nat, entries: seq<Entry>, spread: bool, token: string, pending: Pending)

  function Fresh(open: nat): Reader { Reader(open, [], false, "", NoKey) }

  function Reset(r: Reader): Reader { r.(token := "", pending := NoKey) }

  predicate DotsAt(source: string, i: nat) { At(source, i, "...") }

  /** Nothing but whitespace between a quoted key and the colon. */
  predicate Adjoins(source: string, end: nat, index: nat)
    requires index <= |source|
  {
    end <= index ==> AllSpace(source[end..index])
  }

  function OnColon(source: string, r: Reader, index: nat): Reader
    requires index < |source|
  {
    var found := Entry("", SkipSpace(source, index + 1));
    if r.pending.QuotedKey? && Adjoins(source, r.pending.end, index) then
      Reset(r).(entries := r.entries + [found.(key := r.pending.name)])
    else if IsIdent(Trim(r.token)) then
      Reset(r).(entries := r.entries + [found.(key := Trim(r.token))])
    else
      Reset(r)
  }

  function OnChar(source: string, r: Reader, index: nat, depth: int): Reader
    requires index < |source|
  {
    var ch := source[index];
    if depth != 1 || index == r.open then r
    else if ch == ',' || ch == '}' || ch == ')' || ch == ']' then Reset(r)
    else if ch == ':' then OnColon(source, r, index)
    else r.(spread := r.spread || DotsAt(source, index),
            pending := if IsSpace(ch) then r.pending else NoKey,
            token := r.token + [ch])
  }

  function OnString(r: Reader, value: string, index: nat, depth: int): Reader {
    if depth != 1 then r
    else r.(pending := if IsIdent(value) then QuotedKey(value, index + |value| + 2) else NoKey)
  }

  // ------------------------------------------------------------------ the walk

  datatype Outcome = Outcome(ok: bool, end: nat, reader: Reader)

  predicate LineAt(source: string, i: nat) { At(source, i, "//") }
  predicate BlockAt(source: string, i: nat) { At(source, i, "/*") }

  function DepthAfter(depth: int, ch: char): int {
    if IsOpener(ch) then depth + 1 else if IsCloser(ch) then depth - 1 else depth
  }

  /** The closer of the outermost bracket ends the walk; a `]` alone does not. */
  predicate Stops(depth: int, ch: char) {
    (ch == '}' || ch == ')') && depth - 1 == 0
  }

  function LastAfter(last: Option<char>, ch: char): Option<char> {
    if IsSpace(ch) then last else Some(ch)
  }

  /** One turn of the loop: where it goes on, or the end of the walk. */
  datatype Turn =
    | On(i: nat, depth: int, last: Option<char>, reader: Reader)
    | Done(end: nat, reader: Reader)

  function BodyOf(source: string, open: nat, e: nat): string
    requires open < |source| && open < e
  {
    source[open + 1..if e <= |source| then e else |source|]
  }

  function Step(source: string, i: nat, depth: int, last: Option<char>, r: Reader): (t: Turn)
    requires i < |source|
    ensures t.On? ==> t.i > i
  {
    var ch := source[i];
    if LineAt(source, i) then On(LineEnd(source, i) + 1, depth, last, r)
    else if BlockAt(source, i) then On(BlockEnd(source, i + 2) + 2, depth, last, r)
    else if ch == '/' && BeforeRegex(last) then On(RegexEnd(source, i + 1, false) + 1, depth, Some('/'), r)
    else if IsQuote(ch) then
      var e := StringEnd(source, i + 1, ch);
      On(e + 1, depth, Some(ch), OnString(r, BodyOf(source, i, e), i, depth))
    else
      var after := DepthAfter(depth, ch);
      var seen := OnChar(source, r, i, after);
      if Stops(depth, ch) then Done(i + 1, seen) else On(i + 1, after, LastAfter(last, ch), seen)
  }

  function Walk(source: string, i: nat, depth: int, last: Option<char>, r: Reader): Outcome
    decreases |source| - i, 1
  {
    if i >= |source| then Outcome(false, i, r) else Advance(source, i, depth, last, r)
  }

  function Advance(source: string, i: nat, depth: int, last: Option<char>, r: Reader): Outcome
    requires i < |source|
    decreases |source| - i, 0
  {
    match Step(source, i, depth, last, r)
    case Done(end, reader) => Outcome(true, end, reader)
    case On(next, deeper, then_, reader) => Walk(source, next, deeper, then_, reader)
  }

  /** `objectEntries`: the walk of the object whose `{` is at `open`. */
  function ObjectEntries(source: string, open: nat): Outcome {
    Walk(source, open, 0, None, Fresh(open))
  }

  // --------------------------------------------------------- the running scanner

  /** The callbacks of `objectEntries` and the variables they share. */
  class KeyReader {
    const source: string
    const open: nat
    var entries: seq<Entry>
    var spread: bool
    var token: string
    var pending: Pending

    function Value(): Reader reads this { Reader(open, entries, spread, token, pending) }

    constructor (source: string, open: nat)
      ensures this.source == source && Value() == Fresh(open)
    {
      this.source, this.open := source, open;
      entries, spread, token, pending := [], false, "", NoKey;
    }

    method Push(key: string, index: nat)
      requires index < |source|
      modifies this`entries
      ensures entries == old(entries) + [Entry(key, SkipSpace(source, index + 1))]
    {
      var v := index + 1;
      while v < |source| && IsSpace(source[v])
        invariant index < v <= |source|
        invariant SkipSpace(source, v) == SkipSpace(source, index + 1)
      {
        v := v + 1;
      }
      entries := entries + [Entry(key, v)];
    }

    method SeeChar(index: nat, depth: int)
      requires index < |source|
      modifies this
      ensures Value() == OnChar(source, old(Value()), index, depth)
    {
      var ch := source[index];
      if depth != 1 || index == open {
        return;
      }
      if ch == ',' || ch == '}' || ch == ')' || ch == ']' {
        token, pending := "", NoKey;
        return;
      }
      if ch == ':' {
        var quoted := pending;
        pending := NoKey;
        if quoted.QuotedKey? && Adjoins(source, quoted.end, index) {
          Push(quoted.name, index);
          token := "";
          return;
        }
        var name := Trim(token);
        if IsIdent(name) {
          Push(name, index);
        }
        token := "";
        return;
      }
      if DotsAt(source, index) {
        spread := true;
      }
      if !IsSpace(ch) {
        pending := NoKey;
      }
      token := token + [ch];
    }

    method SeeString(value: string, index: nat, depth: int)
      modifies this
      ensures Value() == OnString(old(Value()), value, index, depth)
    {
      if depth != 1 {
        return;
      }
      pending := if IsIdent(value) then QuotedKey(value, index + |value| + 2) else NoKey;
    }
  }

  method SkipLine(source: string, from: nat) returns (i: nat)
    ensures i == LineEnd(source, from)
  {
    i := from;
    while i < |source| && source[i] != '\n'
      invariant LineEnd(source, i) == LineEnd(source, from)
    {
      i := i + 1;
    }
  }

  method SkipBlock(source: string, from: nat) returns (i: nat)
    ensures i == BlockEnd(source, from)
  {
    i := from;
    while i < |source| && !BlockEndsAt(source, i)
      invariant BlockEnd(source, i) == BlockEnd(source, from)
    {
      i := i + 1;
    }
  }

  method SkipRegex(source: string, from: nat) returns (i: nat)
    ensures i == RegexEnd(source, from, false)
  {
    i := from;
    var inClass := false;
    while i < |source|
      invariant RegexEnd(source, i, inClass) == RegexEnd(source, from, false)
    {
      var r := source[i];
      if r == '\\' {
        i := i + 2;
        continue;
      }
      if r == '[' {
        inClass := true;
      } else if r == ']' {
        inClass := false;
      } else if (r == '/' && !inClass) || r == '\n' {
        break;
      }
      i := i + 1;
    }
  }

  method SkipString(source: string, from: nat, quote: char) returns (i: nat)
    requires quote != '\\'
    ensures i == StringEnd(source, from, quote)
  {
    i := from;
    while i < |source| && source[i] != quote
      invariant StringEnd(source, i, quote) == StringEnd(source, from, quote)
    {
      i := if source[i] == '\\' then i + 2 else i + 1;
    }
  }

  /** The body of the loop of `walk`; `reader` receives the callbacks when there is one. */
  method TakeTurn(source: string, i: nat, depth: int, last: Option<char>, reader: KeyReader?, ghost r: Reader)
    returns (stop: bool, next: nat, deeper: int, newLast: Option<char>, ghost seen: Reader)
    requires i < |source|
    requires reader != null ==> reader.source == source && reader.Value() == r
    modifies reader
    ensures Step(source, i, depth, last, r) == if stop then Done(next, seen) else On(next, deeper, newLast, seen)
    ensures reader != null ==> reader.Value() == seen
  {
    var ch := source[i];
    stop, deeper, newLast, seen := false, depth, last, r;
    if LineAt(source, i) {
      next := SkipLine(source, i);
      next := next + 1;
    } else if BlockAt(source, i) {
      next := SkipBlock(source, i + 2);
      next := next + 2;
    } else if ch == '/' && BeforeRegex(last) {
      next := SkipRegex(source, i + 1);
      next, newLast := next + 1, Some('/');
    } else if IsQuote(ch) {
      next := SkipString(source, i + 1, ch);
      var body := BodyOf(source, i, next);
      seen := OnString(r, body, i, depth);
      if reader != null {
        reader.SeeString(body, i, depth);
      }
      next, newLast := next + 1, Some(ch);
    } else {
      stop, deeper := Stops(depth, ch), DepthAfter(depth, ch);
      seen := OnChar(source, r, i, deeper);
      if reader != null {
        reader.SeeChar(i, deeper);
      }
      next, newLast := i + 1, LastAfter(last, ch);
    }
  }

  method RunWalk(source: string, from: nat, reader: KeyReader?) returns (ok: bool, end: nat)
    requires reader != null ==> reader.source == source && reader.Value() == Fresh(from)
    modifies reader
    ensures ok == ObjectEntries(source, from).ok && end == ObjectEntries(source, from).end
    ensures reader != null ==> reader.Value() == ObjectEntries(source, from).reader
  {
    var depth: int, last: Option<char>, i := 0, None, from;
    ghost var r := Fresh(from);
    while i < |source|
      invariant Walk(source, i, depth, last, r) == ObjectEntries(source, from)
      invariant reader != null ==> reader.source == source && reader.Value() == r
      decreases |source| - i
    {
      var stop;
      stop, i, depth, last, r := TakeTurn(source, i, depth, last, reader, r);
      if stop {
        return true, i;
      }
    }
    return false, i;
  }

  /** `matchBrace`: just past the matching closer, or nothing. */
  method MatchBrace(source: string, open: nat) returns (end: Option<nat>)
    ensures end == if ObjectEntries(source, open).ok then Some(ObjectEntries(source, open).end) else None
  {
    var ok, e := RunWalk(source, open, null);
    return if ok then Some(e) else None;
  }

  method ReadEntries(source: string, open: nat) returns (entries: seq<Entry>, spread: bool, ok: bool)
    ensures var o := ObjectEntries(source, open);
            entries == o.reader.entries && spread == o.reader.spread && ok == o.ok
  {
    var reader := new KeyReader(source, open);
    var end;
    ok, end := RunWalk(source, open, reader);
    entries, spread := reader.entries, reader.spread;
  }
}
