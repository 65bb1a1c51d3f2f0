/**
Object literals as lists of items: a bare, quoted or bracketed key with its value, a shorthand
name, or something without a name (a spread, a method, any other computed key). Which of the
names written the scanner reads, said of the items alone.
*/
module EnvItems {
  import opened Common
  import opened EnvScanner
  import opened EnvGrammar
  import opened EnvLiterals
  import opened EnvKeys

  // ------------------------------------------------------------------- the items

  /** A key with the spaces and comments around it. */
  datatype Key =
    | Bare(before: seq<Piece>, name: string, after: seq<Piece>)
    | Quoted(before: seq<Piece>, quote: char, units: seq<Unit>, after: seq<Piece>)
    | Bracketed(before: seq<Piece>, left: seq<Piece>, quote: char, units: seq<Unit>, right: seq<Piece>, after: seq<Piece>)

  /** A value is cut at its own colons, as in a ternary, into stretches. */
  datatype Item =
    | Keyed(key: Key, value: seq<seq<Piece>>)
    | Short(before: seq<Piece>, name: string, after: seq<Piece>)
    | Nameless(parts: seq<seq<Piece>>)

  function KeyPieces(key: Key): seq<Piece> {
    match key
    case Bare(before, name, after) => before + CodeOf(name) + after
    case Quoted(before, quote, units, after) => before + [Text(quote, units)] + after
    case Bracketed(before, left, quote, units, right, after) =>
      before + [Group('[', ']', left + [Text(quote, units)] + right)] + after
  }

  /** A quoted or bracketed key is named by its text as written. */
  function KeyName(key: Key): string { if key.Bare? then key.name else PrintUnits(key.units) }

  predicate KeyOk(key: Key) { Trivia(key.before) && Trivia(key.after) && (key.Bare? ==> IsIdent(key.name))
                           && (key.Bracketed? ==> Trivia(key.left) && Trivia(key.right)) }

  /** The first stretch is a key, or a shorthand name. */
  ghost predicate Nameable(parts: seq<seq<Piece>>)
    requires parts != []
  {
    exists key :: KeyOk(key) && KeyPieces(key) == parts[0] && (!key.Bare? ==> |parts| > 1)
  }

  ghost predicate ItemOk(item: Item) {
    match item
    case Keyed(key, value) => KeyOk(key) && value != []
    case Short(before, name, after) => KeyOk(Bare(before, name, after))
    case Nameless(parts) => parts != [] && !Nameable(parts)
  }

  ghost predicate ItemsOk(items: seq<Item>) {
    items != [] && forall k :: 0 <= k < |items| ==> ItemOk(items[k])
  }

  // ------------------------------------------------------------ printed as fields

  function Stretches(parts: seq<seq<Piece>>, mark: char): seq<Field> {
    if parts == [] then []
    else if |parts| == 1 then [Field(parts[0], mark)]
    else [Field(parts[0], ':')] + Stretches(parts[1..], mark)
  }

  function ItemFields(item: Item, mark: char): seq<Field> {
    match item
    case Keyed(key, value) => [Field(KeyPieces(key), ':')] + Stretches(value, mark)
    case Short(before, name, after) => [Field(KeyPieces(Bare(before, name, after)), mark)]
    case Nameless(parts) => Stretches(parts, mark)
  }

  /** Commas between the items and the closing brace after the last. */
  function Fields(items: seq<Item>): seq<Field> {
    if items == [] then []
    else if |items| == 1 then ItemFields(items[0], '}')
    else ItemFields(items[0], ',') + Fields(items[1..])
  }

  function PrintItems(items: seq<Item>): string { PrintFields(Fields(items)) }

  ghost predicate LiteralOk(items: seq<Item>) { ItemsOk(items) && FieldsOk(Fields(items), Some('{')) }

  // --------------------------------------------------------- every literal is one

  lemma {:induction false} FirstParts(fs: seq<Field>, last: Option<char>)
    returns (parts: seq<seq<Piece>>, mark: char, rest: seq<Field>)
    requires FieldsOk(fs, last)
    ensures parts != [] && fs == Stretches(parts, mark) + rest && |rest| < |fs|
    ensures if mark == '}' then rest == [] else mark == ',' && FieldsOk(rest, Some(','))
    decreases |fs|
  {
    if fs[0].mark == ':' {
      var more;
      more, mark, rest := FirstParts(fs[1..], Some(':'));
      parts := [fs[0].pieces] + more;
      assert parts[1..] == more && Stretches(parts, mark) == [fs[0]] + Stretches(more, mark);
      assert fs == [fs[0]] + (Stretches(more, mark) + rest);
    } else {
      parts, mark, rest := [fs[0].pieces], fs[0].mark, fs[1..];
    }
  }

  lemma ItemFor(parts: seq<seq<Piece>>, mark: char) returns (item: Item)
    requires parts != []
    ensures ItemOk(item) && ItemFields(item, mark) == Stretches(parts, mark)
  {
    if key :| KeyOk(key) && KeyPieces(key) == parts[0] && (!key.Bare? ==> |parts| > 1) {
      item := if |parts| == 1 then Short(key.before, key.name, key.after) else Keyed(key, parts[1..]);
      assert |parts| == 1 ==> Bare(key.before, key.name, key.after) == key;
    } else {
      item := Nameless(parts);
    }
  }

  /** Every literal of the grammar is a list of items. */
  lemma {:induction false} ItemsCover(fs: seq<Field>, last: Option<char>) returns (items: seq<Item>)
    requires FieldsOk(fs, last)
    ensures ItemsOk(items) && Fields(items) == fs
    decreases |fs|
  {
    var parts, mark, rest := FirstParts(fs, last);
    var item := ItemFor(parts, mark);
    items := [item];
    if mark == ',' {
      var more := ItemsCover(rest, Some(','));
      items := [item] + more;
      assert items[1..] == more;
    }
  }

  // ------------------------------------------------------ entries and their places

  /** The index after a field's mark; the value of a key starts at the first character there that is no space. */
  function Place(source: string, f: Field, next: nat): nat {
    if f.mark == ':' then SkipSpace(source, next) else next
  }

  /** Where field `j` starts when the first starts at `i`. */
  function FieldStart(i: nat, fs: seq<Field>, j: nat): nat
    requires j <= |fs|
    decreases j
  {
    if j == 0 then i else FieldStart(i + |PrintField(fs[0])|, fs[1..], j - 1)
  }

  function PlaceOf(source: string, i: nat, fs: seq<Field>, j: nat): nat
    requires j < |fs|
  {
    Place(source, fs[j], FieldStart(i, fs, j + 1))
  }

  lemma PlaceSteps(source: string, i: nat, fs: seq<Field>, j: nat)
    requires j < |fs|
    ensures var next := i + |PrintField(fs[0])|;
            PlaceOf(source, i, fs, j) == if j == 0 then Place(source, fs[0], next) else PlaceOf(source, next, fs[1..], j - 1)
  {
    var next := i + |PrintField(fs[0])|;
    assert FieldStart(i, fs, j + 1) == FieldStart(next, fs[1..], j);
    if j == 0 { assert FieldStart(next, fs[1..], 0) == next; }
  }

  /** The entries of the fields that carry a name. */
  function Entries(source: string, i: nat, fs: seq<Field>, tags: seq<Option<string>>): seq<Entry>
    requires |tags| == |fs|
    decreases |fs|
  {
    if fs == [] then []
    else
      var next := i + |PrintField(fs[0])|;
      (if tags[0].Some? then [Entry(tags[0].value, Place(source, fs[0], next))] else [])
      + Entries(source, next, fs[1..], tags[1..])
  }

  /** The fields' marks are in the source where they are printed. */
  predicate Printed(source: string, i: nat, fs: seq<Field>)
    decreases |fs|
  {
    fs != [] ==>
      && !IsSpace(fs[0].mark) && At(source, i, PrintField(fs[0]))
      && Printed(source, i + |PrintField(fs[0])|, fs[1..])
  }

  lemma {:induction false} PrintsFields(source: string, i: nat, fs: seq<Field>, last: Option<char>)
    requires At(source, i, PrintFields(fs)) && FieldsOk(fs, last)
    ensures Printed(source, i, fs)
    decreases |fs|
  {
    AtConcat(source, i, PrintField(fs[0]), PrintFields(fs[1..]));
    if |fs| > 1 {
      PrintsFields(source, i + |PrintField(fs[0])|, fs[1..], Some(fs[0].mark));
    }
  }

  lemma {:induction false} SkipStops(source: string, v: nat, m: nat)
    requires v <= m < |source| && !IsSpace(source[m])
    ensures v <= SkipSpace(source, v) <= m && !IsSpace(source[SkipSpace(source, v)])
    decreases m - v
  {
    if v < m && IsSpace(source[v]) { SkipStops(source, v + 1, m); }
  }

  /** The place of a field's entry lies after its mark and not after the next field's. */
  lemma PlaceWithin(source: string, f: Field, next: nat, rest: seq<Field>)
    requires Printed(source, next, rest)
    ensures next <= Place(source, f, next)
    ensures rest != [] ==> Place(source, f, next) < next + |PrintField(rest[0])|
  {
    if rest != [] {
      var text := PrintField(rest[0]);
      AtIndex(source, next, text, |text| - 1);
      SkipStops(source, next, next + |text| - 1);
    }
  }

  lemma {:induction false} EntriesAfter(source: string, i: nat, fs: seq<Field>, tags: seq<Option<string>>, e: Entry)
    requires |tags| == |fs| && Printed(source, i, fs) && e in Entries(source, i, fs, tags)
    ensures fs != [] && e.valueStart >= i + |PrintField(fs[0])|
    decreases |fs|
  {
    var next := i + |PrintField(fs[0])|;
    PlaceWithin(source, fs[0], next, fs[1..]);
    if e in Entries(source, next, fs[1..], tags[1..]) { EntriesAfter(source, next, fs[1..], tags[1..], e); }
  }

  /** Each field has a place of its own. */
  lemma {:induction false} EntryAt(source: string, i: nat, fs: seq<Field>, tags: seq<Option<string>>, j: nat, x: string)
    requires |tags| == |fs| && j < |fs| && Printed(source, i, fs)
    ensures Entry(x, PlaceOf(source, i, fs, j)) in Entries(source, i, fs, tags) <==> tags[j] == Some(x)
    decreases |fs|
  {
    var next, e := i + |PrintField(fs[0])|, Entry(x, PlaceOf(source, i, fs, j));
    var rest := Entries(source, next, fs[1..], tags[1..]);
    var head := if tags[0].Some? then [Entry(tags[0].value, Place(source, fs[0], next))] else [];
    assert Entries(source, i, fs, tags) == head + rest;
    PlaceWithin(source, fs[0], next, fs[1..]);
    PlaceSteps(source, i, fs, j);
    if j == 0 {
      if e in rest { EntriesAfter(source, next, fs[1..], tags[1..], e); }
    } else {
      PlaceAfter(source, next, fs[1..], j - 1);
      EntryAt(source, next, fs[1..], tags[1..], j - 1, x);
    }
  }

  lemma {:induction false} PlaceAfter(source: string, i: nat, fs: seq<Field>, j: nat)
    requires j < |fs| && Printed(source, i, fs)
    ensures PlaceOf(source, i, fs, j) >= i + |PrintField(fs[0])|
    decreases |fs|
  {
    var next := i + |PrintField(fs[0])|;
    PlaceSteps(source, i, fs, j);
    if j == 0 {
      PlaceWithin(source, fs[0], next, fs[1..]);
    } else {
      PlaceAfter(source, next, fs[1..], j - 1);
    }
  }

  /** The entries tell which fields carry which names. */
  lemma EntriesTell(source: string, i: nat, fs: seq<Field>, a: seq<Option<string>>, b: seq<Option<string>>)
    requires |a| == |b| == |fs| && Printed(source, i, fs)
    ensures Entries(source, i, fs, a) == Entries(source, i, fs, b) <==> a == b
  {
    if Entries(source, i, fs, a) == Entries(source, i, fs, b) {
      forall j | 0 <= j < |fs| ensures a[j] == b[j] {
        if a[j].Some? { EntryAt(source, i, fs, a, j, a[j].value); EntryAt(source, i, fs, b, j, a[j].value); }
        if b[j].Some? { EntryAt(source, i, fs, a, j, b[j].value); EntryAt(source, i, fs, b, j, b[j].value); }
      }
    }
  }

  // ------------------------------------------------- names written and names read

  function Blank(n: nat): seq<Option<string>> { seq(n, _ => None) }

  /** The name written at each field of an item: at its key, or at the shorthand. */
  function ItemTags(item: Item): seq<Option<string>> {
    match item
    case Keyed(key, value) => [Some(KeyName(key))] + Blank(|value|)
    case Short(_, name, _) => [Some(name)]
    case Nameless(parts) => Blank(|parts|)
  }

  function Tags(items: seq<Item>): seq<Option<string>> {
    if items == [] then [] else ItemTags(items[0]) + Tags(items[1..])
  }

  /** The key the scanner reads at each field. */
  function ReadTags(fs: seq<Field>): seq<Option<string>> {
    seq(|fs|, k requires 0 <= k < |fs| => if fs[k].mark == ':' then KeyOf(fs[k].pieces) else None)
  }

  /** The names among the tags. */
  function NamesIn(tags: seq<Option<string>>): seq<string> {
    if tags == [] then [] else (if tags[0].Some? then [tags[0].value] else []) + NamesIn(tags[1..])
  }

  /** The names written in a literal. */
  function ItemNames(items: seq<Item>): seq<string> { NamesIn(Tags(items)) }

  /** The scanner sees the key: a quoted one when it is an identifier with nothing but spaces before its colon. */
  predicate Visible(key: Key) { key.Bare? || (key.Quoted? && IsIdent(PrintUnits(key.units)) && Spaces(key.after)) }

  /** The keys the scanner takes from before the colons of a value. */
  function Strays(parts: seq<seq<Piece>>): seq<string> {
    if |parts| <= 1 then []
    else (if KeyOf(parts[0]).Some? then [KeyOf(parts[0]).value] else []) + Strays(parts[1..])
  }

  function ItemReads(item: Item): seq<string> {
    match item
    case Keyed(key, value) => (if Visible(key) then [KeyName(key)] else []) + Strays(value)
    case Short(_, _, _) => []
    case Nameless(parts) => Strays(parts)
  }

  /** The names read from a literal: those of its visible keys, and the strays of its values. */
  function ReadNames(items: seq<Item>): seq<string> {
    if items == [] then [] else ItemReads(items[0]) + ReadNames(items[1..])
  }

  /** The scanner reads the item's name, and nothing else, as a key. */
  predicate ItemRead(item: Item) {
    match item
    case Keyed(key, value) => Visible(key) && Strays(value) == []
    case Short(_, _, _) => false
    case Nameless(parts) => Strays(parts) == []
  }

  predicate AllRead(items: seq<Item>) { forall k :: 0 <= k < |items| ==> ItemRead(items[k]) }

  // ------------------------------------------------------------------ item by item

  /** Nothing is read as a key when a bracket stands before the colon. */
  lemma BracketUnread(before: seq<Piece>, p: Piece, after: seq<Piece>)
    requires p.Group? && Trivia(after)
    ensures KeyOf(before + [p] + after) == None
  {
    NotQuoted(before, p, after);
    var blank := TextOfTrivia(before + [p], after);
    TextMore(before, p);
    assert "" + blank == blank;
    TrimsBlank(blank, "", "");
    assert blank + "" + "" == blank;
  }

  lemma KeyReads(key: Key)
    requires KeyOk(key)
    ensures KeyOf(KeyPieces(key)) == if Visible(key) then Some(KeyName(key)) else None
  {
    match key
    case Bare(before, name, after) => BareKeyReads(before, name, after);
    case Quoted(before, quote, units, after) => QuotedKeyReads(before, quote, units, after);
    case Bracketed(before, left, quote, units, right, after) =>
      BracketUnread(before, Group('[', ']', left + [Text(quote, units)] + right), after);
  }

  lemma ReadConcat(a: seq<Field>, b: seq<Field>)
    ensures ReadTags(a + b) == ReadTags(a) + ReadTags(b)
  {
  }

  lemma {:induction false} NamesConcat(a: seq<Option<string>>, b: seq<Option<string>>)
    ensures NamesIn(a + b) == NamesIn(a) + NamesIn(b)
    decreases |a|
  {
    if a == [] {
      assert a + b == b;
    } else {
      assert (a + b)[1..] == a[1..] + b;
      NamesConcat(a[1..], b);
    }
  }

  lemma {:induction false} StretchesRead(parts: seq<seq<Piece>>, mark: char)
    requires mark != ':'
    ensures |Stretches(parts, mark)| == |parts|
    ensures NamesIn(ReadTags(Stretches(parts, mark))) == Strays(parts)
    ensures ReadTags(Stretches(parts, mark)) == Blank(|parts|) <==> Strays(parts) == []
    decreases |parts|
  {
    if |parts| > 1 {
      var first, rest := Field(parts[0], ':'), Stretches(parts[1..], mark);
      StretchesRead(parts[1..], mark);
      ReadConcat([first], rest);
      assert Blank(|parts|) == [None] + Blank(|parts| - 1);
      assert ReadTags([first]) == [KeyOf(parts[0])];
      assert ([KeyOf(parts[0])] + ReadTags(rest))[1..] == ReadTags(rest);
      Halves([KeyOf(parts[0])], ReadTags(rest), [None], Blank(|parts| - 1));
    } else if |parts| == 1 {
      assert ReadTags(Stretches(parts, mark)) == Blank(1) && Blank(1)[1..] == Blank(0) == [];
    }
  }

  lemma KeyedReads(key: Key, value: seq<seq<Piece>>, mark: char)
    requires KeyOk(key) && mark != ':'
    ensures ReadTags([Field(KeyPieces(key), ':')] + Stretches(value, mark))
         == [if Visible(key) then Some(KeyName(key)) else None] + ReadTags(Stretches(value, mark))
  {
    KeyReads(key);
    ReadConcat([Field(KeyPieces(key), ':')], Stretches(value, mark));
  }

  /** What the scanner takes from one item, and when that is what is written. */
  lemma ItemReadsExactly(item: Item, mark: char)
    requires ItemOk(item) && mark != ':'
    ensures |ItemFields(item, mark)| == |ItemTags(item)|
    ensures NamesIn(ReadTags(ItemFields(item, mark))) == ItemReads(item)
    ensures ReadTags(ItemFields(item, mark)) == ItemTags(item) <==> ItemRead(item)
  {
    match item
    case Keyed(key, value) =>
      var seen := if Visible(key) then Some(KeyName(key)) else None;
      var rest := ReadTags(Stretches(value, mark));
      StretchesRead(value, mark);
      KeyedReads(key, value, mark);
      assert ([seen] + rest)[1..] == rest;
      Halves([seen], rest, [Some(KeyName(key))], Blank(|value|));
    case Short(before, name, after) =>
      assert ReadTags(ItemFields(item, mark)) == Blank(1) && Blank(1)[1..] == Blank(0) == [];
    case Nameless(parts) => StretchesRead(parts, mark);
  }

  lemma {:induction false} ItemsReadExactly(items: seq<Item>)
    requires ItemsOk(items)
    ensures |Fields(items)| == |Tags(items)|
    ensures NamesIn(ReadTags(Fields(items))) == ReadNames(items)
    ensures ReadTags(Fields(items)) == Tags(items) <==> AllRead(items)
    decreases |items|
  {
    var first, mark := items[0], if |items| == 1 then '}' else ',';
    var fs := ItemFields(first, mark);
    ItemReadsExactly(first, mark);
    if |items| == 1 {
      assert items[1..] == [] && ItemTags(first) + [] == ItemTags(first) && ItemReads(first) + [] == ItemReads(first);
    } else {
      var rest := Fields(items[1..]);
      ItemsReadExactly(items[1..]);
      ReadConcat(fs, rest);
      NamesConcat(ReadTags(fs), ReadTags(rest));
      Halves(ReadTags(fs), ReadTags(rest), ItemTags(first), Tags(items[1..]));
      AllReadSplits(items);
    }
  }

  lemma AllReadSplits(items: seq<Item>)
    requires items != []
    ensures AllRead(items) <==> ItemRead(items[0]) && AllRead(items[1..])
  {
    if ItemRead(items[0]) && AllRead(items[1..]) {
      forall k | 0 <= k < |items| ensures ItemRead(items[k]) { if k > 0 { assert ItemRead(items[1..][k - 1]); } }
    }
  }

  // ------------------------------------------------------------------ main results

  lemma {:induction false} EntriesRead(source: string, i: nat, fs: seq<Field>)
    ensures EntriesOf(source, i, fs) == Entries(source, i, fs, ReadTags(fs))
    decreases |fs|
  {
    if fs != [] {
      assert ReadTags(fs)[1..] == ReadTags(fs[1..]);
      EntriesRead(source, i + |PrintField(fs[0])|, fs[1..]);
    }
  }

  lemma {:induction false} NamesOfEntries(source: string, i: nat, fs: seq<Field>, tags: seq<Option<string>>)
    requires |tags| == |fs|
    ensures KeyNames(Entries(source, i, fs, tags)) == NamesIn(tags)
    decreases |fs|
  {
    if fs != [] {
      var next := i + |PrintField(fs[0])|;
      NamesOfEntries(source, next, fs[1..], tags[1..]);
      OneKeyFirst(if tags[0].Some? then [Entry(tags[0].value, Place(source, fs[0], next))] else [],
                  Entries(source, next, fs[1..], tags[1..]));
    }
  }

  /** The literal between any texts. */
  function Around(prefix: string, items: seq<Item>, suffix: string): string {
    prefix + ("{" + PrintItems(items)) + suffix
  }

  lemma LiteralPrinted(prefix: string, items: seq<Item>, suffix: string)
    requires LiteralOk(items)
    ensures Printed(Around(prefix, items, suffix), |prefix| + 1, Fields(items))
  {
    var source := Around(prefix, items, suffix);
    AtMiddle(prefix, "{" + PrintItems(items), suffix);
    AtConcat(source, |prefix|, "{", PrintItems(items));
    PrintsFields(source, |prefix| + 1, Fields(items), Some('{'));
  }

  /**
  The round trip. The keys read are those of the visible keys and the strays, in order; and
  the entries read, each a name and where its value starts, are those written if and only if
  no item is shorthand, no key is bracketed or hidden, and no value strays.
  */
  lemma ReadsItems(prefix: string, items: seq<Item>, suffix: string)
    requires LiteralOk(items)
    ensures |Tags(items)| == |Fields(items)|
    ensures var source := Around(prefix, items, suffix);
            var entries := ObjectEntries(source, |prefix|).reader.entries;
            && KeyNames(entries) == ReadNames(items)
            && (entries == Entries(source, |prefix| + 1, Fields(items), Tags(items)) <==> AllRead(items))
            && (AllRead(items) ==> KeyNames(entries) == ItemNames(items))
  {
    var source, fs, i := Around(prefix, items, suffix), Fields(items), |prefix| + 1;
    ScansExactly(prefix, fs, suffix);
    ItemsReadExactly(items);
    EntriesRead(source, i, fs);
    LiteralPrinted(prefix, items, suffix);
    EntriesTell(source, i, fs, ReadTags(fs), Tags(items));
    NamesOfEntries(source, i, fs, ReadTags(fs));
  }
}
