/**
Usage recovery from a response's last bytes (`apps/cli/src/daemon.rs`): the bounded tail
buffer, the scanner that finds the end of a JSON object, and the search for the last usable
`"usage"` member. What parses as a usage object is a parameter.
*/
module UsageTail {
  import opened Common

  const LIMIT := 256 * 1024

  // ------------------------------------------------------------- the tail buffer

  /** The last bytes, at most `limit` of them. */
  function Last(bytes: seq<byte>, limit: nat): seq<byte> {
    if |bytes| <= limit then bytes else bytes[|bytes| - limit..]
  }

  lemma LastTwice(a: seq<byte>, b: seq<byte>, limit: nat)
    ensures Last(Last(a, limit) + b, limit) == Last(a + b, limit)
  {
    if |a| > limit {
      var cut := |a| - limit;
      assert Last(a, limit) + b == (a + b)[cut..];
    }
  }

  class TailBuffer {
    var tail: seq<byte>

    constructor ()
      ensures tail == []
    {
      tail := [];
    }

    /** `append_usage_tail` */
    method Append(chunk: seq<byte>)
      modifies this
      ensures tail == Last(old(tail) + chunk, LIMIT)
    {
      if |chunk| >= LIMIT {
        tail := chunk[|chunk| - LIMIT..];
        return;
      }
      if |tail| + |chunk| > LIMIT {
        tail := tail[|tail| + |chunk| - LIMIT..];
      }
      tail := tail + chunk;
    }
  }

  /** After any chunks, the buffer is exactly the last min(total, limit) bytes of the response. */
  method CollectTail(chunks: seq<seq<byte>>) returns (tail: seq<byte>)
    ensures tail == Last(Joined(chunks), 262_144)
  {
    var buffer := new TailBuffer();
    for k := 0 to |chunks|
      invariant buffer.tail == Last(Joined(chunks[..k]), LIMIT)
    {
      assert chunks[..k + 1] == chunks[..k] + [chunks[k]];
      JoinedMore(chunks[..k], chunks[k]);
      LastTwice(Joined(chunks[..k]), chunks[k], LIMIT);
      buffer.Append(chunks[k]);
    }
    assert chunks[..|chunks|] == chunks;
    return buffer.tail;
  }

  // ------------------------------------------------------------ where objects end

  const QUOTE: byte := 34
  const BACKSLASH: byte := 92
  const OPEN: byte := 123
  const CLOSE: byte := 125
  const COLON: byte := 58

  datatype Mode = Outside | InString | Escaped

  function NextMode(mode: Mode, b: byte): Mode {
    match mode
    case Escaped => InString
    case InString => if b == BACKSLASH then Escaped else if b == QUOTE then Outside else InString
    case Outside => if b == QUOTE then InString else Outside
  }

  function NextDepth(mode: Mode, depth: int, b: byte): int {
    if mode != Outside then depth else if b == OPEN then depth + 1 else if b == CLOSE then depth - 1 else depth
  }

  /** Just past the byte that brings the depth to zero. */
  function EndFrom(bytes: seq<byte>, i: nat, depth: nat, mode: Mode): (e: Option<nat>)
    ensures e.Some? ==> i < e.value <= |bytes|
    decreases |bytes| - i, 1
  {
    if i >= |bytes| then None else EndAt(bytes, i, depth, mode)
  }

  function EndAt(bytes: seq<byte>, i: nat, depth: nat, mode: Mode): (e: Option<nat>)
    requires i < |bytes|
    ensures e.Some? ==> i < e.value <= |bytes|
    decreases |bytes| - i, 0
  {
    if mode == Outside && bytes[i] == CLOSE && depth <= 1 then if depth == 1 then Some(i + 1) else None
    else EndFrom(bytes, i + 1, NextDepth(mode, depth, bytes[i]), NextMode(mode, bytes[i]))
  }

  function ObjectEnd(bytes: seq<byte>, start: nat): (e: Option<nat>)
    ensures e.Some? ==> start < e.value <= |bytes|
  {
    if start < |bytes| && bytes[start] == OPEN then EndFrom(bytes, start, 0, Outside) else None
  }

  /** `json_object_end`; the depth stays within the bytes read, so a 32-bit counter holds it. */
  method JsonObjectEnd(bytes: seq<byte>, start: nat) returns (end: Option<nat>)
    ensures end == ObjectEnd(bytes, start)
  {
    if start >= |bytes| || bytes[start] != OPEN {
      return None;
    }
    var depth: nat, inString, escaped := 0, false, false;
    ghost var mode := Outside;
    for i := start to |bytes|
      invariant depth <= i - start
      invariant inString == (mode != Outside) && escaped == (mode == Escaped)
      invariant EndFrom(bytes, i, depth, mode) == ObjectEnd(bytes, start)
    {
      var b := bytes[i];
      ghost var next := NextMode(mode, b);
      if inString {
        if escaped {
          escaped := false;
        } else if b == BACKSLASH {
          escaped := true;
        } else if b == QUOTE {
          inString := false;
        }
        mode := next;
        continue;
      }
      if b == QUOTE {
        inString := true;
      } else if b == OPEN {
        depth := depth + 1;
      } else if b == CLOSE {
        if depth == 0 {
          return None;
        }
        depth := depth - 1;
        if depth == 0 {
          return Some(i + 1);
        }
      }
      mode := next;
    }
    return None;
  }

  // ------------------------------------------------------------------- JSON texts

  datatype Unit = Plain(b: byte) | Esc(b: byte)

  /** JSON values with the white space around their parts. */
  datatype Json =
    | Scalar(text: seq<byte>)                 // a number, true, false or null
    | Text(units: seq<Unit>)
    | List(pad: seq<byte>, items: seq<Padded>)
    | Object(pad: seq<byte>, members: seq<Member>)

  datatype Padded = Padded(before: seq<byte>, value: Json, after: seq<byte>)
  datatype Member = Member(before: seq<byte>, key: seq<Unit>, gap: seq<byte>, value: Padded)

  /** Neither quotes (34) nor braces (123 and 125). */
  predicate Inert(text: seq<byte>) { forall k :: 0 <= k < |text| ==> text[k] != 34 && text[k] != 123 && text[k] != 125 }

  /** A plain unit is neither a quote nor a backslash (92). */
  predicate UnitsOk(units: seq<Unit>) {
    forall k :: 0 <= k < |units| && units[k].Plain? ==> units[k].b != 34 && units[k].b != 92
  }

  predicate JsonOk(v: Json)
    decreases v, 2
  {
    match v
    case Scalar(text) => Inert(text)
    case Text(units) => UnitsOk(units)
    case List(pad, items) => Inert(pad) && forall k :: 0 <= k < |items| ==> PaddedOk(items[k])
    case Object(pad, members) => Inert(pad) && forall k :: 0 <= k < |members| ==> MemberOk(members[k])
  }

  predicate PaddedOk(p: Padded)
    decreases p, 0
  {
    Inert(p.before) && JsonOk(p.value) && Inert(p.after)
  }

  predicate MemberOk(m: Member)
    decreases m, 1
  {
    Inert(m.before) && UnitsOk(m.key) && Inert(m.gap) && PaddedOk(m.value)
  }

  function PrintUnits(units: seq<Unit>): seq<byte> {
    if units == [] then []
    else (if units[0].Plain? then [units[0].b] else [92, units[0].b]) + PrintUnits(units[1..])
  }

  function PrintText(units: seq<Unit>): seq<byte> { [34] + PrintUnits(units) + [34] }

  function Print(v: Json): seq<byte>
    decreases v, 2
  {
    match v
    case Scalar(text) => text
    case Text(units) => PrintText(units)
    case List(pad, items) => [91] + pad + PrintItems(items) + [93]
    case Object(pad, members) => [123] + pad + PrintMembers(members) + [125]
  }

  function PrintPadded(p: Padded): seq<byte>
    decreases p, 0
  {
    p.before + Print(p.value) + p.after
  }

  function PrintItems(items: seq<Padded>): seq<byte>
    decreases items, 0
  {
    if items == [] then []
    else if |items| == 1 then PrintPadded(items[0])
    else PrintPadded(items[0]) + [44] + PrintItems(items[1..])
  }

  function PrintMember(m: Member): seq<byte>
    decreases m, 1
  {
    m.before + PrintText(m.key) + m.gap + [58] + PrintPadded(m.value)
  }

  function PrintMembers(members: seq<Member>): seq<byte>
    decreases members, 0
  {
    if members == [] then []
    else if |members| == 1 then PrintMember(members[0])
    else PrintMember(members[0]) + [44] + PrintMembers(members[1..])
  }

  // ----------------------------------------------------- the scanner over a value

  lemma {:induction false} PassInert(bytes: seq<byte>, i: nat, text: seq<byte>, j: nat, depth: nat)
    requires At(bytes, i, text) && Inert(text) && j == i + |text|
    ensures EndFrom(bytes, i, depth, Outside) == EndFrom(bytes, j, depth, Outside)
    decreases |text|
  {
    if text != [] {
      assert text == [text[0]] + text[1..];
      AtConcat(bytes, i, [text[0]], text[1..]);
      AtIndex(bytes, i, text, 0);
      PassInert(bytes, i + 1, text[1..], j, depth);
    }
  }

  lemma {:induction false} PassUnits(bytes: seq<byte>, i: nat, units: seq<Unit>, j: nat, depth: nat)
    requires At(bytes, i, PrintUnits(units)) && UnitsOk(units) && j == i + |PrintUnits(units)|
    ensures EndFrom(bytes, i, depth, InString) == EndFrom(bytes, j, depth, InString)
    decreases |units|
  {
    if units != [] {
      var first := if units[0].Plain? then [units[0].b] else [BACKSLASH, units[0].b];
      AtConcat(bytes, i, first, PrintUnits(units[1..]));
      AtIndex(bytes, i, first, 0);
      PassUnits(bytes, i + |first|, units[1..], j, depth);
      if units[0].Esc? {
        AtIndex(bytes, i, first, 1);
        assert EndFrom(bytes, i + 1, depth, Escaped) == EndFrom(bytes, i + 2, depth, InString);
      }
    }
  }

  lemma PassText(bytes: seq<byte>, i: nat, units: seq<Unit>, j: nat, depth: nat)
    requires At(bytes, i, PrintText(units)) && UnitsOk(units) && j == i + |PrintText(units)|
    ensures EndFrom(bytes, i, depth, Outside) == EndFrom(bytes, j, depth, Outside)
  {
    AtConcat(bytes, i, [QUOTE] + PrintUnits(units), [QUOTE]);
    AtConcat(bytes, i, [QUOTE], PrintUnits(units));
    AtIndex(bytes, i, [QUOTE], 0);
    AtIndex(bytes, j - 1, [QUOTE], 0);
    PassUnits(bytes, i + 1, units, j - 1, depth);
  }

  lemma {:induction false} PassPadded(bytes: seq<byte>, i: nat, p: Padded, j: nat, depth: nat)
    requires depth >= 1 && At(bytes, i, PrintPadded(p)) && PaddedOk(p) && j == i + |PrintPadded(p)|
    ensures EndFrom(bytes, i, depth, Outside) == EndFrom(bytes, j, depth, Outside)
    decreases p, 0
  {
    AtConcat(bytes, i, p.before + Print(p.value), p.after);
    AtConcat(bytes, i, p.before, Print(p.value));
    var a, b := i + |p.before|, i + |p.before| + |Print(p.value)|;
    PassInert(bytes, i, p.before, a, depth);
    PassJson(bytes, a, p.value, b, depth);
    PassInert(bytes, b, p.after, j, depth);
  }

  lemma CommaParts(bytes: seq<byte>, i: nat, first: seq<byte>, rest: seq<byte>)
    requires At(bytes, i, first + [44] + rest)
    ensures At(bytes, i, first) && At(bytes, i + |first|, [44]) && At(bytes, i + |first| + 1, rest)
  {
    AtConcat(bytes, i, first + [44], rest);
    AtConcat(bytes, i, first, [44]);
  }

  lemma ItemsParts(bytes: seq<byte>, i: nat, items: seq<Padded>)
    requires |items| > 1 && At(bytes, i, PrintItems(items))
    ensures At(bytes, i, PrintPadded(items[0])) && At(bytes, i + |PrintPadded(items[0])|, [44])
    ensures At(bytes, i + |PrintPadded(items[0])| + 1, PrintItems(items[1..]))
    ensures |PrintItems(items)| == |PrintPadded(items[0])| + 1 + |PrintItems(items[1..])|
  {
    CommaParts(bytes, i, PrintPadded(items[0]), PrintItems(items[1..]));
  }

  lemma {:induction false} PassItems(bytes: seq<byte>, i: nat, items: seq<Padded>, j: nat, depth: nat)
    requires depth >= 1 && At(bytes, i, PrintItems(items)) && j == i + |PrintItems(items)|
    requires forall k :: 0 <= k < |items| ==> PaddedOk(items[k])
    ensures EndFrom(bytes, i, depth, Outside) == EndFrom(bytes, j, depth, Outside)
    decreases items, 0
  {
    if |items| == 1 {
      PassPadded(bytes, i, items[0], j, depth);
    } else if |items| > 1 {
      var a := i + |PrintPadded(items[0])|;
      ItemsParts(bytes, i, items);
      PassPadded(bytes, i, items[0], a, depth);
      PassInert(bytes, a, [44], a + 1, depth);
      PassItems(bytes, a + 1, items[1..], j, depth);
    }
  }

  lemma FiveParts(bytes: seq<byte>, i: nat, a: seq<byte>, b: seq<byte>, c: seq<byte>, d: seq<byte>, e: seq<byte>)
    requires At(bytes, i, a + b + c + d + e)
    ensures At(bytes, i, a) && At(bytes, i + |a|, b) && At(bytes, i + |a| + |b|, c)
    ensures At(bytes, i + |a| + |b| + |c|, d) && At(bytes, i + |a| + |b| + |c| + |d|, e)
  {
    AtConcat(bytes, i, a + b + c + d, e);
    AtConcat(bytes, i, a + b + c, d);
    AtConcat(bytes, i, a + b, c);
    AtConcat(bytes, i, a, b);
  }

  /** A member's key, up to its colon. */
  lemma PassKey(bytes: seq<byte>, i: nat, before: seq<byte>, key: seq<Unit>, gap: seq<byte>, j: nat, depth: nat)
    requires At(bytes, i, before) && At(bytes, i + |before|, PrintText(key))
    requires At(bytes, i + |before| + |PrintText(key)|, gap) && j == i + |before| + |PrintText(key)| + |gap|
    requires Inert(before) && UnitsOk(key) && Inert(gap)
    ensures EndFrom(bytes, i, depth, Outside) == EndFrom(bytes, j, depth, Outside)
  {
    var a := i + |before|;
    var b := a + |PrintText(key)|;
    PassInert(bytes, i, before, a, depth);
    PassText(bytes, a, key, b, depth);
    PassInert(bytes, b, gap, j, depth);
  }

  lemma MemberSplit(bytes: seq<byte>, i: nat, m: Member, c: nat)
    requires At(bytes, i, PrintMember(m)) && c == i + |m.before| + |PrintText(m.key)| + |m.gap|
    ensures At(bytes, i, m.before) && At(bytes, i + |m.before|, PrintText(m.key))
    ensures At(bytes, i + |m.before| + |PrintText(m.key)|, m.gap) && At(bytes, c, [COLON])
    ensures At(bytes, c + 1, PrintPadded(m.value)) && i + |PrintMember(m)| == c + 1 + |PrintPadded(m.value)|
  {
    FiveParts(bytes, i, m.before, PrintText(m.key), m.gap, [COLON], PrintPadded(m.value));
  }

  lemma {:induction false} PassMember(bytes: seq<byte>, i: nat, m: Member, j: nat, depth: nat)
    requires depth >= 1 && At(bytes, i, PrintMember(m)) && MemberOk(m) && j == i + |PrintMember(m)|
    ensures EndFrom(bytes, i, depth, Outside) == EndFrom(bytes, j, depth, Outside)
    decreases m, 1
  {
    var c := i + |m.before| + |PrintText(m.key)| + |m.gap|;
    MemberSplit(bytes, i, m, c);
    PassKey(bytes, i, m.before, m.key, m.gap, c, depth);
    PassInert(bytes, c, [COLON], c + 1, depth);
    PassPadded(bytes, c + 1, m.value, j, depth);
  }

  lemma MembersParts(bytes: seq<byte>, i: nat, members: seq<Member>)
    requires |members| > 1 && At(bytes, i, PrintMembers(members))
    ensures At(bytes, i, PrintMember(members[0])) && At(bytes, i + |PrintMember(members[0])|, [44])
    ensures At(bytes, i + |PrintMember(members[0])| + 1, PrintMembers(members[1..]))
    ensures |PrintMembers(members)| == |PrintMember(members[0])| + 1 + |PrintMembers(members[1..])|
  {
    CommaParts(bytes, i, PrintMember(members[0]), PrintMembers(members[1..]));
  }

  lemma {:induction false} PassMembers(bytes: seq<byte>, i: nat, members: seq<Member>, j: nat, depth: nat)
    requires depth >= 1 && At(bytes, i, PrintMembers(members)) && j == i + |PrintMembers(members)|
    requires forall k :: 0 <= k < |members| ==> MemberOk(members[k])
    ensures EndFrom(bytes, i, depth, Outside) == EndFrom(bytes, j, depth, Outside)
    decreases members, 0
  {
    if |members| == 1 {
      PassMember(bytes, i, members[0], j, depth);
    } else if |members| > 1 {
      var a := i + |PrintMember(members[0])|;
      MembersParts(bytes, i, members);
      PassMember(bytes, i, members[0], a, depth);
      PassInert(bytes, a, [44], a + 1, depth);
      PassMembers(bytes, a + 1, members[1..], j, depth);
    }
  }

  /** From an object's brace to just before its closing one. */
  lemma {:induction false} PassInside(bytes: seq<byte>, i: nat, v: Json, j: nat, depth: nat)
    requires v.Object? && JsonOk(v) && At(bytes, i, Print(v)) && j == i + |Print(v)| - 1
    ensures j < |bytes| && bytes[i] == OPEN && bytes[j] == CLOSE
    ensures EndFrom(bytes, i, depth, Outside) == EndFrom(bytes, j, depth + 1, Outside)
    decreases v, 1
  {
    AtConcat(bytes, i, [OPEN] + v.pad + PrintMembers(v.members), [CLOSE]);
    AtConcat(bytes, i, [OPEN] + v.pad, PrintMembers(v.members));
    AtConcat(bytes, i, [OPEN], v.pad);
    AtIndex(bytes, i, [OPEN], 0);
    AtIndex(bytes, j, [CLOSE], 0);
    var a := i + 1 + |v.pad|;
    PassInert(bytes, i + 1, v.pad, a, depth + 1);
    PassMembers(bytes, a, v.members, j, depth + 1);
  }

  lemma {:induction false} PassList(bytes: seq<byte>, i: nat, v: Json, j: nat, depth: nat)
    requires depth >= 1 && v.List? && JsonOk(v) && At(bytes, i, Print(v)) && j == i + |Print(v)|
    ensures EndFrom(bytes, i, depth, Outside) == EndFrom(bytes, j, depth, Outside)
    decreases v, 1
  {
    ListParts(bytes, i, v);
    var a := i + 1 + |v.pad|;
    PassInert(bytes, i, [91], i + 1, depth);
    PassInert(bytes, i + 1, v.pad, a, depth);
    PassItems(bytes, a, v.items, j - 1, depth);
    PassInert(bytes, j - 1, [93], j, depth);
  }

  lemma ListParts(bytes: seq<byte>, i: nat, v: Json)
    requires v.List? && At(bytes, i, Print(v))
    ensures At(bytes, i, [91]) && At(bytes, i + 1, v.pad) && At(bytes, i + 1 + |v.pad|, PrintItems(v.items))
    ensures |Print(v)| == |v.pad| + |PrintItems(v.items)| + 2 && At(bytes, i + |Print(v)| - 1, [93])
  {
    AtConcat(bytes, i, [91] + v.pad + PrintItems(v.items), [93]);
    AtConcat(bytes, i, [91] + v.pad, PrintItems(v.items));
    AtConcat(bytes, i, [91], v.pad);
  }

  lemma {:induction false} PassJson(bytes: seq<byte>, i: nat, v: Json, j: nat, depth: nat)
    requires depth >= 1 && JsonOk(v) && At(bytes, i, Print(v)) && j == i + |Print(v)|
    ensures EndFrom(bytes, i, depth, Outside) == EndFrom(bytes, j, depth, Outside)
    decreases v, 2
  {
    match v
    case Scalar(text) => PassInert(bytes, i, text, j, depth);
    case Text(units) => PassText(bytes, i, units, j, depth);
    case List(_, _) => PassList(bytes, i, v, j, depth);
    case Object(_, _) =>
      PassInside(bytes, i, v, j - 1, depth);
      assert EndFrom(bytes, j - 1, depth + 1, Outside) == EndFrom(bytes, j, depth, Outside);
  }

  /** For every JSON object text, whatever stands before and after it: its end is found exactly. */
  lemma ObjectEndExact(prefix: seq<byte>, v: Json, suffix: seq<byte>)
    requires v.Object? && JsonOk(v)
    ensures ObjectEnd(prefix + Print(v) + suffix, |prefix|) == Some(|prefix| + |Print(v)|)
  {
    AtMiddle(prefix, Print(v), suffix);
    PassInside(prefix + Print(v) + suffix, |prefix|, v, |prefix| + |Print(v)| - 1, 0);
  }

  // ------------------------------------------------------- the last usable usage

  const USAGE_KEY: seq<byte> := [34, 117, 115, 97, 103, 101, 34]

  predicate IsSpace(b: byte) { b == 32 || b == 9 || b == 10 || b == 12 || b == 13 }

  function SkipSpace(bytes: seq<byte>, i: nat): (e: nat)
    ensures e >= i
    decreases |bytes| - i
  {
    if i < |bytes| && IsSpace(bytes[i]) then SkipSpace(bytes, i + 1) else i
  }

  /** Where the object lies after a key that ends at `i`: blanks, a colon, blanks, the object. */
  function ObjectAfter(bytes: seq<byte>, i: nat): (r: Option<(nat, nat)>)
    ensures r.Some? ==> i < r.value.0 < r.value.1 <= |bytes|
  {
    var colon := SkipSpace(bytes, i);
    if colon >= |bytes| || bytes[colon] != COLON then None
    else
      var start := SkipSpace(bytes, colon + 1);
      var end := ObjectEnd(bytes, start);
      if end.None? then None else Some((start, end.value))
  }

  predicate KeyAt(bytes: seq<byte>, k: nat) { At(bytes, k, USAGE_KEY) }

  function Parsed<U>(bytes: seq<byte>, o: Option<(nat, nat)>, parse: seq<byte> -> Option<U>): Option<U>
    requires o.Some? ==> o.value.0 <= o.value.1 <= |bytes|
  {
    if o.None? then None else parse(bytes[o.value.0..o.value.1])
  }

  function UsageAt<U>(bytes: seq<byte>, k: nat, parse: seq<byte> -> Option<U>): Option<U> {
    if KeyAt(bytes, k) then Parsed(bytes, ObjectAfter(bytes, k + |USAGE_KEY|), parse) else None
  }

  function UsageIn<U>(bytes: seq<byte>, parse: seq<byte> -> Option<U>): nat -> Option<U> {
    (k: nat) => UsageAt(bytes, k, parse)
  }

  /** The last index below `n` that gives something. */
  function LastHit<U>(f: nat -> Option<U>, n: nat): (r: Option<nat>)
    ensures r.Some? ==> r.value < n && f(r.value).Some? && forall k: nat :: r.value < k < n ==> f(k).None?
    ensures r.None? ==> forall k: nat :: k < n ==> f(k).None?
  {
    if n == 0 then None else if f(n - 1).Some? then Some(n - 1) else LastHit(f, n - 1)
  }

  function HitValue<U>(f: nat -> Option<U>, n: nat): Option<U> {
    match LastHit(f, n)
    case Some(k) => f(k)
    case None => None
  }

  function LastUsage<U>(bytes: seq<byte>, parse: seq<byte> -> Option<U>): Option<nat> {
    LastHit(UsageIn(bytes, parse), |bytes|)
  }

  /** The usage of the last `"usage"` member that has one. */
  function Usage<U>(bytes: seq<byte>, parse: seq<byte> -> Option<U>): Option<U> {
    HitValue(UsageIn(bytes, parse), |bytes|)
  }

  method SkipSpaces(bytes: seq<byte>, from: nat) returns (i: nat)
    ensures i == SkipSpace(bytes, from)
  {
    i := from;
    while i < |bytes| && IsSpace(bytes[i])
      invariant SkipSpace(bytes, i) == SkipSpace(bytes, from)
    {
      i := i + 1;
    }
  }

  method ReadUsage<U>(bytes: seq<byte>, k: nat, parse: seq<byte> -> Option<U>) returns (r: Option<U>)
    requires KeyAt(bytes, k)
    ensures r == UsageAt(bytes, k, parse)
  {
    var i := SkipSpaces(bytes, k + |USAGE_KEY|);
    if i >= |bytes| || bytes[i] != COLON {
      return None;
    }
    i := SkipSpaces(bytes, i + 1);
    var end := JsonObjectEnd(bytes, i);
    if end.None? {
      return None;
    }
    return parse(bytes[i..end.value]);
  }

  /** `terminal_usage_from_json_tail`: the windows from the last to the first. */
  method TerminalUsage<U>(bytes: seq<byte>, parse: seq<byte> -> Option<U>) returns (r: Option<U>)
    ensures r == Usage(bytes, parse)
  {
    var n: nat := |bytes|;
    while n > 0
      invariant n <= |bytes| && LastHit(UsageIn(bytes, parse), n) == LastUsage(bytes, parse)
    {
      n := n - 1;
      assert UsageIn(bytes, parse)(n) == UsageAt(bytes, n, parse);
      if KeyAt(bytes, n) {
        r := ReadUsage(bytes, n, parse);
        if r.Some? {
          return;
        }
      }
    }
    return None;
  }

  // ------------------------------------------------------ cutting off the beginning

  function Back(o: Option<nat>, c: nat): Option<int> { if o.None? then None else Some(o.value - c) }

  lemma {:induction false} EndShifts(bytes: seq<byte>, c: nat, i: nat, depth: nat, mode: Mode)
    requires c <= i && c <= |bytes|
    ensures EndFrom(bytes[c..], i - c, depth, mode) == Back(EndFrom(bytes, i, depth, mode), c)
    decreases |bytes| - i
  {
    if i < |bytes| {
      assert bytes[c..][i - c] == bytes[i];
      if !(mode == Outside && bytes[i] == CLOSE && depth <= 1) {
        EndShifts(bytes, c, i + 1, NextDepth(mode, depth, bytes[i]), NextMode(mode, bytes[i]));
      }
    }
  }

  lemma {:induction false} SpaceShifts(bytes: seq<byte>, c: nat, i: nat)
    requires c <= i && c <= |bytes|
    ensures SkipSpace(bytes[c..], i - c) == SkipSpace(bytes, i) - c
    decreases |bytes| - i
  {
    if i < |bytes| {
      assert bytes[c..][i - c] == bytes[i];
      if IsSpace(bytes[i]) { SpaceShifts(bytes, c, i + 1); }
    }
  }

  lemma ObjectShifts(bytes: seq<byte>, c: nat, i: nat)
    requires c <= i && c <= |bytes|
    ensures var o, t := ObjectAfter(bytes, i), ObjectAfter(bytes[c..], i - c);
            && t.Some? == o.Some?
            && (o.Some? ==> t.value.0 == o.value.0 - c && t.value.1 == o.value.1 - c)
  {
    SpaceShifts(bytes, c, i);
    var colon := SkipSpace(bytes, i);
    if colon < |bytes| {
      assert bytes[c..][colon - c] == bytes[colon];
      SpaceShifts(bytes, c, colon + 1);
      var start := SkipSpace(bytes, colon + 1);
      if start < |bytes| { assert bytes[c..][start - c] == bytes[start]; }
      EndShifts(bytes, c, start, 0, Outside);
    }
  }

  lemma KeyShifts(bytes: seq<byte>, c: nat, k: nat)
    requires c <= k && c <= |bytes|
    ensures KeyAt(bytes, k) <==> KeyAt(bytes[c..], k - c)
  {
    if k + |USAGE_KEY| <= |bytes| {
      assert bytes[c..][k - c..k - c + |USAGE_KEY|] == bytes[k..k + |USAGE_KEY|];
    }
  }

  lemma ParsedShifts<U>(bytes: seq<byte>, c: nat, o: Option<(nat, nat)>, t: Option<(nat, nat)>, parse: seq<byte> -> Option<U>)
    requires c <= |bytes| && (o.Some? ==> c <= o.value.0 <= o.value.1 <= |bytes|)
    requires t == if o.Some? then Some((o.value.0 - c, o.value.1 - c)) else None
    ensures Parsed(bytes[c..], t, parse) == Parsed(bytes, o, parse)
  {
    if o.Some? { assert bytes[c..][o.value.0 - c..o.value.1 - c] == bytes[o.value.0..o.value.1]; }
  }

  lemma UsageShifts<U>(bytes: seq<byte>, c: nat, k: nat, parse: seq<byte> -> Option<U>)
    requires c <= k && c <= |bytes|
    ensures UsageAt(bytes[c..], k - c, parse) == UsageAt(bytes, k, parse)
  {
    KeyShifts(bytes, c, k);
    if KeyAt(bytes, k) { FoundShifts(bytes, c, k + |USAGE_KEY|, parse); }
  }

  lemma FoundShifts<U>(bytes: seq<byte>, c: nat, i: nat, parse: seq<byte> -> Option<U>)
    requires c <= i && c <= |bytes|
    ensures Parsed(bytes[c..], ObjectAfter(bytes[c..], i - c), parse) == Parsed(bytes, ObjectAfter(bytes, i), parse)
  {
    ObjectShifts(bytes, c, i);
    ParsedShifts(bytes, c, ObjectAfter(bytes, i), ObjectAfter(bytes[c..], i - c), parse);
  }

  lemma InShifts<U>(bytes: seq<byte>, c: nat, parse: seq<byte> -> Option<U>)
    requires c <= |bytes|
    ensures forall k: nat :: c <= k < |bytes| ==> UsageIn(bytes[c..], parse)(k - c) == UsageIn(bytes, parse)(k)
  {
    forall k: nat | c <= k < |bytes| ensures UsageIn(bytes[c..], parse)(k - c) == UsageIn(bytes, parse)(k) {
      UsageShifts(bytes, c, k, parse);
    }
  }

  lemma {:induction false} HitShifts<U>(f: nat -> Option<U>, g: nat -> Option<U>, c: nat, n: nat)
    requires c <= n && forall k: nat :: c <= k < n ==> g(k - c) == f(k)
    ensures LastHit(g, n - c) == if LastHit(f, n).Some? && LastHit(f, n).value >= c then Some(LastHit(f, n).value - c) else None
    ensures HitValue(g, n - c) == if LastHit(f, n).Some? && LastHit(f, n).value >= c then HitValue(f, n) else None
    decreases n
  {
    if n > c {
      assert g(n - 1 - c) == f(n - 1);
      if f(n - 1).None? { HitShifts(f, g, c, n - 1); }
    }
  }

  /**
  Cutting off a prefix leaves the usage found as it was when the last usable `"usage"` member
  stays whole, and leaves nothing to find otherwise.
  */
  lemma CutKeepsUsage<U>(bytes: seq<byte>, c: nat, parse: seq<byte> -> Option<U>)
    requires c <= |bytes|
    ensures var k := LastUsage(bytes, parse);
            Usage(bytes[c..], parse) == if k.Some? && k.value >= c then Usage(bytes, parse) else None
  {
    InShifts(bytes, c, parse);
    HitShifts(UsageIn(bytes, parse), UsageIn(bytes[c..], parse), c, |bytes|);
  }

  /** ASCII white space: tab, line feed, form feed, carriage return and space. */
  const BLANKS: set<byte> := {9, 10, 12, 13, 32}

  predicate Blank(text: seq<byte>) { forall k :: 0 <= k < |text| ==> text[k] in BLANKS }

  lemma {:induction false} SkippedIsBlank(bytes: seq<byte>, i: nat)
    requires i <= |bytes|
    ensures SkipSpace(bytes, i) <= |bytes| && Blank(bytes[i..SkipSpace(bytes, i)])
    ensures SkipSpace(bytes, i) < |bytes| ==> bytes[SkipSpace(bytes, i)] !in BLANKS
    decreases |bytes| - i
  {
    if i < |bytes| && IsSpace(bytes[i]) {
      SkippedIsBlank(bytes, i + 1);
      var j := SkipSpace(bytes, i + 1);
      assert bytes[i..j] == [bytes[i]] + bytes[i + 1..j];
    }
  }

  /**
  A member is read only where it is written: what is found after a key follows blanks, a
  colon and blanks, and is a braced text up to its own end.
  */
  lemma FoundOnlyThere(bytes: seq<byte>, i: nat) returns (colon: nat)
    requires i <= |bytes| && ObjectAfter(bytes, i).Some?
    ensures var (start, end) := ObjectAfter(bytes, i).value;
            && i <= colon < start < end <= |bytes|
            && Blank(bytes[i..colon]) && bytes[colon] == 58 && Blank(bytes[colon + 1..start])
            && bytes[start] == 123 && bytes[end - 1] == 125
  {
    colon := SkipSpace(bytes, i);
    SkippedIsBlank(bytes, i);
    SkippedIsBlank(bytes, colon + 1);
    var start := SkipSpace(bytes, colon + 1);
    EndsClosed(bytes, start, 0, Outside);
  }

  /** The scanner stops just past a closing brace. */
  lemma {:induction false} EndsClosed(bytes: seq<byte>, i: nat, depth: nat, mode: Mode)
    requires EndFrom(bytes, i, depth, mode).Some?
    ensures bytes[EndFrom(bytes, i, depth, mode).value - 1] == 125
    decreases |bytes| - i
  {
    if !(mode == Outside && bytes[i] == CLOSE && depth <= 1) {
      EndsClosed(bytes, i + 1, NextDepth(mode, depth, bytes[i]), NextMode(mode, bytes[i]));
    }
  }

  lemma {:induction false} SkipsBlank(bytes: seq<byte>, i: nat, text: seq<byte>, j: nat)
    requires At(bytes, i, text) && Blank(text) && j == i + |text| && (j < |bytes| ==> bytes[j] !in BLANKS)
    ensures SkipSpace(bytes, i) == j
    decreases |text|
  {
    if text != [] {
      assert text == [text[0]] + text[1..];
      AtConcat(bytes, i, [text[0]], text[1..]);
      AtIndex(bytes, i, text, 0);
      SkipsBlank(bytes, i + 1, text[1..], j);
    }
  }

  /** The member as it is printed: key, colon, object, with blanks between. */
  function UsageMember(gap: seq<byte>, before: seq<byte>, v: Json): seq<byte> {
    USAGE_KEY + gap + [58] + before + Print(v)
  }

  lemma ObjectFound(bytes: seq<byte>, i: nat, gap: seq<byte>, before: seq<byte>, v: Json, start: nat)
    requires v.Object? && JsonOk(v) && Blank(gap) && Blank(before) && start == i + |gap| + 1 + |before|
    requires At(bytes, i, gap) && At(bytes, i + |gap|, [COLON]) && At(bytes, i + |gap| + 1, before)
    requires At(bytes, start, Print(v))
    ensures ObjectAfter(bytes, i) == Some((start, start + |Print(v)|))
  {
    var colon := i + |gap|;
    AtIndex(bytes, colon, [COLON], 0);
    SkipsBlank(bytes, i, gap, colon);
    PassInside(bytes, start, v, start + |Print(v)| - 1, 0);
    SkipsBlank(bytes, colon + 1, before, start);
  }

  lemma MemberParts(bytes: seq<byte>, k: nat, gap: seq<byte>, before: seq<byte>, v: Json, start: nat)
    requires v.Object? && JsonOk(v) && Blank(gap) && Blank(before) && start == k + |USAGE_KEY| + |gap| + 1 + |before|
    requires At(bytes, k, UsageMember(gap, before, v))
    ensures KeyAt(bytes, k) && At(bytes, start, Print(v))
    ensures ObjectAfter(bytes, k + |USAGE_KEY|) == Some((start, start + |Print(v)|))
  {
    FiveParts(bytes, k, USAGE_KEY, gap, [COLON], before, Print(v));
    ObjectFound(bytes, k + |USAGE_KEY|, gap, before, v, start);
  }

  lemma MemberRead<U>(bytes: seq<byte>, k: nat, gap: seq<byte>, before: seq<byte>, v: Json, parse: seq<byte> -> Option<U>)
    requires v.Object? && JsonOk(v) && Blank(gap) && Blank(before) && At(bytes, k, UsageMember(gap, before, v))
    ensures UsageAt(bytes, k, parse) == parse(Print(v))
  {
    MemberParts(bytes, k, gap, before, v, k + |USAGE_KEY| + |gap| + 1 + |before|);
  }

  lemma MemberFound<U>(prefix: seq<byte>, gap: seq<byte>, before: seq<byte>, v: Json, suffix: seq<byte>,
                       parse: seq<byte> -> Option<U>)
    requires v.Object? && JsonOk(v) && Blank(gap) && Blank(before)
    ensures UsageAt(prefix + UsageMember(gap, before, v) + suffix, |prefix|, parse) == parse(Print(v))
  {
    AtMiddle(prefix, UsageMember(gap, before, v), suffix);
    MemberRead(prefix + UsageMember(gap, before, v) + suffix, |prefix|, gap, before, v, parse);
  }

  /**
  From end to end: when the response's last usable `"usage"` member and what follows it fit
  the buffer, the tail of the response gives exactly that member's usage, however the
  response was split into chunks.
  */
  lemma TailGivesUsage<U>(chunks: seq<seq<byte>>, prefix: seq<byte>, gap: seq<byte>, before: seq<byte>, v: Json,
                          suffix: seq<byte>, parse: seq<byte> -> Option<U>)
    requires v.Object? && JsonOk(v) && Blank(gap) && Blank(before) && parse(Print(v)).Some?
    requires Joined(chunks) == prefix + UsageMember(gap, before, v) + suffix
    requires forall k: nat :: |prefix| < k < |Joined(chunks)| ==> UsageAt(Joined(chunks), k, parse).None?
    requires |UsageMember(gap, before, v)| + |suffix| <= 262_144
    ensures Usage(Last(Joined(chunks), 262_144), parse) == parse(Print(v))
  {
    var bytes := Joined(chunks);
    MemberFound(prefix, gap, before, v, suffix, parse);
    LastIs(bytes, |prefix|, parse);
    TailKeepsUsage(bytes, |prefix|, parse);
  }

  lemma TailKeepsUsage<U>(bytes: seq<byte>, k: nat, parse: seq<byte> -> Option<U>)
    requires LastUsage(bytes, parse) == Some(k) && |bytes| - k <= LIMIT
    ensures Usage(Last(bytes, LIMIT), parse) == Usage(bytes, parse)
  {
    var c := if |bytes| > LIMIT then |bytes| - LIMIT else 0;
    assert Last(bytes, LIMIT) == bytes[c..];
    CutKeepsUsage(bytes, c, parse);
  }

  lemma LastIs<U>(bytes: seq<byte>, k: nat, parse: seq<byte> -> Option<U>)
    requires k < |bytes| && UsageAt(bytes, k, parse).Some?
    requires forall n: nat :: k < n < |bytes| ==> UsageAt(bytes, n, parse).None?
    ensures LastUsage(bytes, parse) == Some(k) && Usage(bytes, parse) == UsageAt(bytes, k, parse)
  {
    var f := UsageIn(bytes, parse);
    assert f(k) == UsageAt(bytes, k, parse);
    forall n: nat | k < n < |bytes| ensures f(n).None? { assert f(n) == UsageAt(bytes, n, parse); }
  }
}
