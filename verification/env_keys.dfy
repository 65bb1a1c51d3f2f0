/**
Which keys a literal gives, said of the literal alone: when bare and quoted keys read back as
written, and that nothing inside comments, other strings, regexes or nested brackets matters.
*/
module EnvKeys {
  import opened Common
  import opened EnvScanner
  import opened EnvGrammar
  import opened EnvLiterals

  function KeyNames(entries: seq<Entry>): seq<string> {
    if entries == [] then [] else [entries[0].key] + KeyNames(entries[1..])
  }

  function FieldKey(f: Field): seq<string> {
    if f.mark == ':' && KeyOf(f.pieces).Some? then [KeyOf(f.pieces).value] else []
  }

  /** The keys of the colon-ended fields. */
  function KeysOf(fs: seq<Field>): seq<string> {
    if fs == [] then [] else FieldKey(fs[0]) + KeysOf(fs[1..])
  }

  lemma OneKeyFirst(first: seq<Entry>, rest: seq<Entry>)
    requires |first| <= 1
    ensures KeyNames(first + rest) == KeyNames(first) + KeyNames(rest)
  {
    if first == [] {
      assert first + rest == rest;
    } else {
      assert (first + rest)[1..] == rest && first[1..] == [];
    }
  }

  lemma EntryCarriesKey(source: string, f: Field, next: nat)
    ensures |EntryOf(source, f, next)| <= 1 && KeyNames(EntryOf(source, f, next)) == FieldKey(f)
  {
    var e := EntryOf(source, f, next);
    if e != [] { assert e[1..] == []; }
  }

  lemma {:induction false} EntriesCarryKeys(source: string, i: nat, fs: seq<Field>)
    ensures KeyNames(EntriesOf(source, i, fs)) == KeysOf(fs)
    decreases |fs|
  {
    if fs != [] {
      var next := i + |PrintField(fs[0])|;
      EntriesCarryKeys(source, next, fs[1..]);
      EntryCarriesKey(source, fs[0], next);
      OneKeyFirst(EntryOf(source, fs[0], next), EntriesOf(source, next, fs[1..]));
    }
  }

  // ------------------------------------------------------------- printed keys

  function CodeOf(text: string): seq<Piece> {
    seq(|text|, k requires 0 <= k < |text| => Code(text[k]))
  }

  /** Spaces and comments. */
  predicate Trivia(ps: seq<Piece>) {
    forall k :: 0 <= k < |ps| ==> IsComment(ps[k]) || (ps[k].Code? && IsSpace(ps[k].c))
  }

  predicate Spaces(ps: seq<Piece>) {
    forall k :: 0 <= k < |ps| ==> ps[k].Code? && IsSpace(ps[k].c)
  }

  lemma {:induction false} TextOfTrivia(done: seq<Piece>, ps: seq<Piece>) returns (blank: string)
    requires Trivia(ps)
    ensures AllSpace(blank) && KeyText(done + ps) == KeyText(done) + blank
  {
    if ps == [] {
      blank := "";
      assert done + ps == done;
    } else {
      var p := ps[|ps| - 1];
      var b := TextOfTrivia(done, ps[..|ps| - 1]);
      assert done + ps == done + ps[..|ps| - 1] + [p];
      TextMore(done + ps[..|ps| - 1], p);
      blank := b;
      if p.Code? {
        blank := b + [p.c];
        assert KeyText(done) + b + [p.c] == KeyText(done) + blank;
      }
    }
  }

  lemma {:induction false} TextOfCode(done: seq<Piece>, text: string)
    ensures KeyText(done + CodeOf(text)) == KeyText(done) + text
    decreases |text|
  {
    if text == [] {
      assert done + CodeOf(text) == done;
    } else {
      var n := |text| - 1;
      assert text == text[..n] + [text[n]];
      assert done + CodeOf(text) == done + CodeOf(text[..n]) + [Code(text[n])];
      TextMore(done + CodeOf(text[..n]), Code(text[n]));
      TextOfCode(done, text[..n]);
    }
  }

  lemma {:induction false} TrimLeftBlank(blank: string, rest: string)
    requires AllSpace(blank) && (rest != "" ==> !IsSpace(rest[0]))
    ensures TrimLeft(blank + rest) == rest
    decreases |blank|
  {
    if blank == "" {
      assert blank + rest == rest;
    } else {
      assert (blank + rest)[1..] == blank[1..] + rest;
      assert IsSpace(blank[0]);
      TrimLeftBlank(blank[1..], rest);
    }
  }

  lemma {:induction false} TrimRightBlank(rest: string, blank: string)
    requires AllSpace(blank) && (rest != "" ==> !IsSpace(rest[|rest| - 1]))
    ensures TrimRight(rest + blank) == rest
    decreases |blank|
  {
    if blank == "" {
      assert rest + blank == rest;
    } else {
      var n := |rest + blank| - 1;
      assert (rest + blank)[..n] == rest + blank[..|blank| - 1];
      assert (rest + blank)[n] == blank[|blank| - 1];
      TrimRightBlank(rest, blank[..|blank| - 1]);
    }
  }

  lemma TrimsBlank(before: string, name: string, after: string)
    requires AllSpace(before) && AllSpace(after) && (name == "" || IsIdent(name))
    ensures Trim(before + name + after) == name
  {
    if name == "" {
      assert before + name + after == (before + after) + "";
      TrimLeftBlank(before + after, "");
    } else {
      assert before + name + after == before + (name + after);
      assert (name + after)[0] == name[0];
      TrimLeftBlank(before, name + after);
      TrimRightBlank(name, after);
    }
  }

  lemma NotQuoted(ps: seq<Piece>, p: Piece, after: seq<Piece>)
    requires Trivia(after) && (p.Text? ==> !Spaces(after))
    requires p.Code? ==> !IsSpace(p.c)
    ensures QuotedOf(ps + [p] + after) == None
    decreases |after|
  {
    var field := ps + [p] + after;
    if after != [] {
      var last := after[|after| - 1];
      assert field == ps + [p] + after[..|after| - 1] + [last];
      QuotedMore(ps + [p] + after[..|after| - 1], last);
      if !IsComment(last) { NotQuoted(ps, p, after[..|after| - 1]); }
    } else {
      assert field == ps + [p];
      QuotedMore(ps, p);
    }
  }

  lemma BareText(before: seq<Piece>, name: string, after: seq<Piece>)
    requires Trivia(before) && Trivia(after) && IsIdent(name)
    ensures Trim(KeyText(before + CodeOf(name) + after)) == name
  {
    var b := TextOfTrivia([], before);
    assert [] + before == before && "" + b == b;
    TextOfCode(before, name);
    var a := TextOfTrivia(before + CodeOf(name), after);
    TrimsBlank(b, name, a);
  }

  lemma BareNotQuoted(before: seq<Piece>, name: string, after: seq<Piece>)
    requires Trivia(after) && IsIdent(name)
    ensures QuotedOf(before + CodeOf(name) + after) == None
  {
    var n := |name| - 1;
    assert CodeOf(name) == CodeOf(name[..n]) + [Code(name[n])];
    assert before + CodeOf(name) + after == (before + CodeOf(name[..n])) + [Code(name[n])] + after;
    NotQuoted(before + CodeOf(name[..n]), Code(name[n]), after);
  }

  /** A bare key reads back, whatever spaces and comments stand around it. */
  lemma BareKeyReads(before: seq<Piece>, name: string, after: seq<Piece>)
    requires Trivia(before) && Trivia(after) && IsIdent(name)
    ensures KeyOf(before + CodeOf(name) + after) == Some(name)
  {
    BareText(before, name, after);
    BareNotQuoted(before, name, after);
  }

  lemma {:induction false} QuotedThenSpaces(field: seq<Piece>, after: seq<Piece>)
    requires Spaces(after)
    ensures QuotedOf(field + after) == QuotedOf(field)
    decreases |after|
  {
    if after == [] {
      assert field + after == field;
    } else {
      var last := after[|after| - 1];
      assert field + after == field + after[..|after| - 1] + [last];
      QuotedMore(field + after[..|after| - 1], last);
      QuotedThenSpaces(field, after[..|after| - 1]);
    }
  }

  lemma BlankBefore(before: seq<Piece>, p: Piece) returns (blank: string)
    requires Trivia(before) && p.Text?
    ensures AllSpace(blank) && KeyText(before + [p]) == blank
  {
    blank := TextOfTrivia([], before);
    assert [] + before == before && "" + blank == blank;
    TextMore(before, p);
  }

  lemma BlankText(before: seq<Piece>, p: Piece, after: seq<Piece>)
    requires Trivia(before) && Trivia(after) && p.Text?
    ensures Trim(KeyText(before + [p] + after)) == ""
  {
    var b := BlankBefore(before, p);
    var a := TextOfTrivia(before + [p], after);
    TrimsBlank(b, "", a);
    assert b + "" + a == b + a;
  }

  /**
  A quoted key, with any spaces and comments around it, reads back exactly when it is an
  identifier and no comment stands between it and its colon; otherwise it gives no key.
  */
  lemma QuotedKeyReads(before: seq<Piece>, quote: char, units: seq<Unit>, after: seq<Piece>)
    requires Trivia(before) && Trivia(after)
    ensures KeyOf(before + [Text(quote, units)] + after)
         == if IsIdent(PrintUnits(units)) && Spaces(after) then Some(PrintUnits(units)) else None
  {
    var p := Text(quote, units);
    BlankText(before, p, after);
    if Spaces(after) {
      QuotedThenSpaces(before + [p], after);
      QuotedMore(before, p);
    } else {
      NotQuoted(before, p, after);
    }
  }

  // -------------------------------------------------- what the keys depend on

  /** Equal but for the insides of comments, strings, regexes and nested brackets. */
  predicate Alike(p: Piece, q: Piece) {
    match p
    case Code(_) => q == p
    case Text(_, _) => q.Text?
    case Group(_, _, _) => q.Group?
    case Regex(_) => q.Regex? || IsComment(q)
    case LineComment(_) => q.Regex? || IsComment(q)
    case BlockComment(_) => q.Regex? || IsComment(q)
  }

  predicate AlikeAll(ps: seq<Piece>, qs: seq<Piece>) {
    |ps| == |qs| && forall k :: 0 <= k < |ps| ==> Alike(ps[k], qs[k])
  }

  /** Alike, with the same quoted key or none in both. */
  predicate AlikeField(f: Field, g: Field) {
    f.mark == g.mark && AlikeAll(f.pieces, g.pieces) && (f.mark == ':' ==> QuotedOf(f.pieces) == QuotedOf(g.pieces))
  }

  lemma {:induction false} AlikeText(ps: seq<Piece>, qs: seq<Piece>)
    requires AlikeAll(ps, qs)
    ensures KeyText(ps) == KeyText(qs)
    decreases |ps|
  {
    if ps != [] {
      var n := |ps| - 1;
      AlikeText(ps[..n], qs[..n]);
      assert Alike(ps[n], qs[n]);
    }
  }

  lemma {:induction false} AlikeKeys(fs: seq<Field>, gs: seq<Field>)
    requires |fs| == |gs| && forall k :: 0 <= k < |fs| ==> AlikeField(fs[k], gs[k])
    ensures KeysOf(fs) == KeysOf(gs)
    decreases |fs|
  {
    if fs != [] {
      assert AlikeField(fs[0], gs[0]);
      AlikeText(fs[0].pieces, gs[0].pieces);
      AlikeKeys(fs[1..], gs[1..]);
    }
  }

  /** Changing what comments, other strings, regexes and nested brackets hold never changes the keys read. */
  lemma InsidesDoNotMatter(prefix: string, fs: seq<Field>, suffix: string,
                           prefix': string, gs: seq<Field>, suffix': string)
    requires FieldsOk(fs, Some('{')) && FieldsOk(gs, Some('{'))
    requires |fs| == |gs| && forall k :: 0 <= k < |fs| ==> AlikeField(fs[k], gs[k])
    ensures KeyNames(ObjectEntries(prefix + ("{" + PrintFields(fs)) + suffix, |prefix|).reader.entries)
         == KeyNames(ObjectEntries(prefix' + ("{" + PrintFields(gs)) + suffix', |prefix'|).reader.entries)
  {
    KeysScanned(prefix, fs, suffix);
    KeysScanned(prefix', gs, suffix');
    AlikeKeys(fs, gs);
  }

  lemma KeysScanned(prefix: string, fs: seq<Field>, suffix: string)
    requires FieldsOk(fs, Some('{'))
    ensures KeyNames(ObjectEntries(prefix + ("{" + PrintFields(fs)) + suffix, |prefix|).reader.entries) == KeysOf(fs)
  {
    ScansExactly(prefix, fs, suffix);
    EntriesCarryKeys(prefix + ("{" + PrintFields(fs)) + suffix, |prefix| + 1, fs);
  }
}
