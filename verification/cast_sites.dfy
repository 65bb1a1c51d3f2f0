/**
Which declaration each name refers to, as the visitor scopes names and as the language does.
Every lookup of a program finds the same declaration either way if and only if the program is
clean, a condition on its syntax tree alone.
*/
module CastSites {
  import opened Common
  import opened CastPolicy
  import opened CastReference
  import opened CastNames

  /** The declarations in scope, each named by its place in the tree. */
  type Sites = map<string, Path>

  function SiteOf(e: Sites, x: string): Option<Path> { if x in e then Some(e[x]) else None }

  function SitesOf(e: Sites, names: seq<string>): seq<Option<Path>> {
    seq(|names|, k requires 0 <= k < |names| => SiteOf(e, names[k]))
  }

  /** All of these names are declared at `p`. */
  function Mark(names: set<string>, p: Path, e: Sites): Sites {
    map x | x in e.Keys + names :: if x in names then p else e[x]
  }

  /** Names that only the language binds. */
  function MarkUnseen(names: set<string>, p: Path, e: Sites, r: Rules): Sites {
    if r.Lexical? then Mark(names, p, e) else e
  }

  // ----------------------------------------------------------- the two resolvers

  function SitesAfter(n: Node, p: Path, e: Sites, r: Rules): Sites
    decreases Weight(n), 0
  {
    match n
    case Block(_) => e
    case Ident(_) => e
    case Func(naming, _, _, _) => if r.Lexical? then Mark(DeclaredName(naming), p, e) else e
    case Import(defaults) => Mark(SetOf(defaults), p, e)
    case Declare(_, ds) => SitesIn(ds, p, 0, e, r)
    case Class(naming, parts) =>
      if r.Lexical? then Mark(DeclaredName(naming), p, e) else SitesAll(parts, p, 0, e, r)
    case Scoped(parts) => if r.Lexical? then e else SitesAll(parts, p, 0, e, r)
    case Bare(_, body) => if r.Lexical? then e else SitesAfter(body, p + [0], e, r)
    case _ => SitesAll(Kids(n), p, 0, e, r)
  }

  function SitesAll(ns: seq<Node>, p: Path, k: nat, e: Sites, r: Rules): Sites
    decreases WeightAll(ns), 1
  {
    if ns == [] then e else SitesAll(ns[1..], p, k + 1, SitesAfter(ns[0], p + [k], e, r), r)
  }

  function SitesIn(ds: seq<Declarator>, p: Path, k: nat, e: Sites, r: Rules): Sites
    decreases WeightIn(ds), 2
  {
    if ds == [] then e
    else
      var after := SitesInit(ds[0], p + [k], e, r);
      SitesIn(ds[1..], p, k + 1, Mark(SetOf(Names(ds[0].target)), p + [k], after), r)
  }

  function SitesInit(d: Declarator, p: Path, e: Sites, r: Rules): Sites
    decreases WeightOf(d), 1
  {
    if d.init.Some? then SitesAfter(d.init.value, p, e, r) else e
  }

  /** The declaration found at each lookup, in order: every name used, and every name that decides what a const holds. */
  function Lookups(n: Node, p: Path, e: Sites, r: Rules): seq<Option<Path>>
    decreases Weight(n), 0
  {
    match n
    case Ident(x) => [SiteOf(e, x)]
    case Block(statements) => LookupsAll(statements, p, 0, e, r)
    case Import(_) => []
    case Declare(isConst, ds) => LookupsIn(ds, isConst, p, 0, e, r)
    case Func(naming, params, missed, body) =>
      Lookups(body, p + [0], Mark(SetOf(NamesAll(params)), p, MarkUnseen(Unseen(naming, missed), p, e, r)), r)
    case Class(naming, parts) => LookupsAll(parts, p, 0, MarkUnseen(OwnName(naming), p, e, r), r)
    case Scoped(parts) => LookupsAll(parts, p, 0, e, r)
    case Bare(params, body) => Lookups(body, p + [0], if r.Lexical? then Mark(SetOf(NamesAll(params)), p, e) else e, r)
    case _ => LookupsAll(Kids(n), p, 0, e, r)
  }

  function LookupsAll(ns: seq<Node>, p: Path, k: nat, e: Sites, r: Rules): seq<Option<Path>>
    decreases WeightAll(ns), 1
  {
    if ns == [] then []
    else Lookups(ns[0], p + [k], e, r) + LookupsAll(ns[1..], p, k + 1, SitesAfter(ns[0], p + [k], e, r), r)
  }

  function LookupsIn(ds: seq<Declarator>, isConst: bool, p: Path, k: nat, e: Sites, r: Rules): seq<Option<Path>>
    decreases WeightIn(ds), 2
  {
    if ds == [] then []
    else
      var after := SitesInit(ds[0], p + [k], e, r);
      LookupsOf(ds[0], isConst, p + [k], e, r)
      + LookupsIn(ds[1..], isConst, p, k + 1, Mark(SetOf(Names(ds[0].target)), p + [k], after), r)
  }

  function LookupsOf(d: Declarator, isConst: bool, p: Path, e: Sites, r: Rules): seq<Option<Path>>
    decreases WeightOf(d), 1
  {
    if d.init.None? then []
    else
      Lookups(d.init.value, p, e, r)
      + if isConst then SitesOf(SitesInit(d, p, e, r), Consulted(d.init.value)) else []
  }

  // ------------------------------------------------- as many lookups either way

  lemma {:induction false} SameCount(n: Node, p: Path, e: Sites, f: Sites)
    ensures |Lookups(n, p, e, AsVisited)| == |Lookups(n, p, f, Lexical)|
    decreases Weight(n), 0
  {
    match n
    case Ident(_) =>
    case Import(_) =>
    case Block(statements) => SameCountAll(statements, p, 0, e, f);
    case Declare(isConst, ds) => SameCountIn(ds, isConst, p, 0, e, f);
    case Func(naming, params, missed, body) =>
      var names := SetOf(NamesAll(params));
      SameCount(body, p + [0], Mark(names, p, e), Mark(names, p, MarkUnseen(Unseen(naming, missed), p, f, Lexical)));
    case Class(naming, parts) => SameCountAll(parts, p, 0, e, MarkUnseen(OwnName(naming), p, f, Lexical));
    case Scoped(parts) => SameCountAll(parts, p, 0, e, f);
    case Bare(params, body) => SameCount(body, p + [0], e, Mark(SetOf(NamesAll(params)), p, f));
    case _ => SameCountAll(Kids(n), p, 0, e, f);
  }

  lemma {:induction false} SameCountAll(ns: seq<Node>, p: Path, k: nat, e: Sites, f: Sites)
    ensures |LookupsAll(ns, p, k, e, AsVisited)| == |LookupsAll(ns, p, k, f, Lexical)|
    decreases WeightAll(ns), 1
  {
    if ns != [] {
      SameCount(ns[0], p + [k], e, f);
      SameCountAll(ns[1..], p, k + 1, SitesAfter(ns[0], p + [k], e, AsVisited), SitesAfter(ns[0], p + [k], f, Lexical));
    }
  }

  lemma {:induction false} SameCountIn(ds: seq<Declarator>, isConst: bool, p: Path, k: nat, e: Sites, f: Sites)
    ensures |LookupsIn(ds, isConst, p, k, e, AsVisited)| == |LookupsIn(ds, isConst, p, k, f, Lexical)|
    decreases WeightIn(ds), 1
  {
    if ds != [] {
      var d, names := ds[0], SetOf(Names(ds[0].target));
      if d.init.Some? {
        assert WeightIn(ds) >= WeightOf(d) > Weight(d.init.value);
        SameCount(d.init.value, p + [k], e, f);
      }
      SameCountIn(ds[1..], isConst, p, k + 1, Mark(names, p + [k], SitesInit(d, p + [k], e, AsVisited)),
                  Mark(names, p + [k], SitesInit(d, p + [k], f, Lexical)));
    }
  }

  // ------------------------------------------------------- where new sites lie

  /** No declaration in scope lies at or below `p`. */
  ghost predicate Outside(e: Sites, p: Path) { forall x :: x in e ==> !Below(p, e[x]) }

  /** No declaration in scope lies at or below child `k` of `p` or a later child. */
  ghost predicate Untouched(e: Sites, p: Path, k: nat) {
    forall x, j: nat :: x in e && j >= k ==> !Below(p + [j], e[x])
  }

  /** What is new in `f` lies at or below `p`. */
  ghost predicate Grew(e: Sites, f: Sites, p: Path) {
    forall x :: x in f ==> (x in e && f[x] == e[x]) || Below(p, f[x])
  }

  lemma GrewTwice(e: Sites, f: Sites, g: Sites, p: Path, k: nat)
    requires Grew(e, f, p + [k]) && Grew(f, g, p)
    ensures Grew(e, g, p)
  {
    forall q | Below(p + [k], q) ensures Below(p, q) { }
  }

  lemma GrewMarked(e: Sites, f: Sites, p: Path, names: set<string>)
    requires Grew(e, f, p)
    ensures Grew(e, Mark(names, p, f), p)
  {
  }

  lemma {:induction false} Grow(n: Node, p: Path, e: Sites, r: Rules)
    ensures Grew(e, SitesAfter(n, p, e, r), p)
    decreases Weight(n), 0
  {
    match n
    case Block(_) =>
    case Ident(_) =>
    case Func(_, _, _, _) =>
    case Import(_) =>
    case Declare(_, ds) => GrowIn(ds, p, 0, e, r);
    case Class(_, parts) => GrowAll(parts, p, 0, e, r);
    case Scoped(parts) => GrowAll(parts, p, 0, e, r);
    case Bare(_, body) =>
      Grow(body, p + [0], e, r);
      forall q | Below(p + [0], q) ensures Below(p, q) { }
    case _ => GrowAll(Kids(n), p, 0, e, r);
  }

  lemma {:induction false} GrowAll(ns: seq<Node>, p: Path, k: nat, e: Sites, r: Rules)
    ensures Grew(e, SitesAll(ns, p, k, e, r), p)
    decreases WeightAll(ns), 1
  {
    if ns != [] {
      var f := SitesAfter(ns[0], p + [k], e, r);
      Grow(ns[0], p + [k], e, r);
      GrowAll(ns[1..], p, k + 1, f, r);
      GrewTwice(e, f, SitesAll(ns, p, k, e, r), p, k);
    }
  }

  lemma {:induction false} GrowIn(ds: seq<Declarator>, p: Path, k: nat, e: Sites, r: Rules)
    ensures Grew(e, SitesIn(ds, p, k, e, r), p)
    decreases WeightIn(ds), 2
  {
    if ds != [] {
      GrowOf(ds[0], p + [k], e, r);
      var f := Mark(SetOf(Names(ds[0].target)), p + [k], SitesInit(ds[0], p + [k], e, r));
      GrowIn(ds[1..], p, k + 1, f, r);
      GrewTwice(e, f, SitesIn(ds, p, k, e, r), p, k);
    }
  }

  lemma {:induction false} GrowOf(d: Declarator, p: Path, e: Sites, r: Rules)
    ensures Grew(e, SitesInit(d, p, e, r), p)
    ensures Grew(e, Mark(SetOf(Names(d.target)), p, SitesInit(d, p, e, r)), p)
    decreases WeightOf(d), 0
  {
    if d.init.Some? { Grow(d.init.value, p, e, r); }
    GrewMarked(e, SitesInit(d, p, e, r), p, SetOf(Names(d.target)));
  }

  lemma ChildOutside(e: Sites, p: Path, k: nat)
    requires Untouched(e, p, k)
    ensures Outside(e, p + [k])
  {
  }

  lemma LaterUntouched(e: Sites, f: Sites, p: Path, k: nat)
    requires Untouched(e, p, k) && Grew(e, f, p + [k])
    ensures Untouched(f, p, k + 1)
  {
    forall x, j: nat | x in f && j >= k + 1 ensures !Below(p + [j], f[x]) { OneChild(p, j, k, f[x]); }
  }

  lemma InsideUntouched(e: Sites, p: Path, names: set<string>)
    requires Outside(e, p)
    ensures Untouched(e, p, 0) && Untouched(Mark(names, p, e), p, 0)
  {
    forall q, j: nat | Below(p + [j], q) ensures Below(p, q) && q != p { }
  }

  // --------------------------------------------------- what the visitor leaves bound

  /** From `e` to `f` exactly these names are bound anew, below `p`. */
  ghost predicate Rebinds(e: Sites, f: Sites, names: set<string>, p: Path) {
    forall x: string :: if x in names then x in f && Below(p, f[x]) && f[x] != p else SiteOf(f, x) == SiteOf(e, x)
  }

  /** The same, at `p` or below it. */
  ghost predicate RebindsAt(e: Sites, f: Sites, names: set<string>, p: Path) {
    forall x: string :: if x in names then x in f && Below(p, f[x]) else SiteOf(f, x) == SiteOf(e, x)
  }

  lemma RebindsChild(e: Sites, f: Sites, names: set<string>, p: Path, k: nat)
    requires RebindsAt(e, f, names, p + [k])
    ensures Rebinds(e, f, names, p)
  {
    forall q | Below(p + [k], q) ensures Below(p, q) && q != p { }
  }

  lemma {:induction false} BoundSites(n: Node, p: Path, e: Sites)
    ensures RebindsAt(e, SitesAfter(n, p, e, AsVisited), Bound(n), p)
    decreases Weight(n), 0
  {
    match n
    case Block(_) =>
    case Ident(_) =>
    case Func(_, _, _, _) =>
    case Import(_) =>
    case Declare(_, ds) => BoundSitesIn(ds, p, 0, e);
    case Class(_, parts) => BoundSitesAll(parts, p, 0, e);
    case Scoped(parts) => BoundSitesAll(parts, p, 0, e);
    case Bare(_, body) =>
      BoundSites(body, p + [0], e);
      RebindsChild(e, SitesAfter(body, p + [0], e, AsVisited), Bound(body), p, 0);
    case _ => BoundSitesAll(Kids(n), p, 0, e);
  }

  lemma {:induction false} BoundSitesAll(ns: seq<Node>, p: Path, k: nat, e: Sites)
    ensures Rebinds(e, SitesAll(ns, p, k, e, AsVisited), BoundAll(ns), p)
    decreases WeightAll(ns), 1
  {
    if ns != [] {
      var f := SitesAfter(ns[0], p + [k], e, AsVisited);
      BoundSites(ns[0], p + [k], e);
      RebindsChild(e, f, Bound(ns[0]), p, k);
      BoundSitesAll(ns[1..], p, k + 1, f);
    }
  }

  lemma {:induction false} BoundSitesIn(ds: seq<Declarator>, p: Path, k: nat, e: Sites)
    ensures Rebinds(e, SitesIn(ds, p, k, e, AsVisited), BoundIn(ds), p)
    decreases WeightIn(ds), 2
  {
    if ds != [] {
      BoundSitesOf(ds[0], p + [k], e);
      var f := Mark(SetOf(Names(ds[0].target)), p + [k], SitesInit(ds[0], p + [k], e, AsVisited));
      RebindsChild(e, f, BoundOf(ds[0]), p, k);
      BoundSitesIn(ds[1..], p, k + 1, f);
    }
  }

  lemma {:induction false} BoundSitesOf(d: Declarator, p: Path, e: Sites)
    ensures RebindsAt(e, Mark(SetOf(Names(d.target)), p, SitesInit(d, p, e, AsVisited)), BoundOf(d), p)
    decreases WeightOf(d), 0
  {
    if d.init.Some? { BoundSites(d.init.value, p, e); }
  }

  // --------------------------------------------------------- stale means different

  /** The stale names are exactly those that the two resolvers place differently. */
  ghost predicate Apart(v: Sites, l: Sites, stale: set<string>) {
    forall x: string :: x in stale <==> SiteOf(v, x) != SiteOf(l, x)
  }

  lemma MarkBoth(v: Sites, l: Sites, stale: set<string>, names: set<string>, p: Path)
    requires Apart(v, l, stale)
    ensures Apart(Mark(names, p, v), Mark(names, p, l), stale - names)
  {
  }

  lemma MarkOne(v: Sites, l: Sites, stale: set<string>, names: set<string>, p: Path)
    requires Apart(v, l, stale) && Outside(v, p)
    ensures Apart(v, Mark(names, p, l), stale + names)
  {
    assert Below(p, p);
  }

  /** A scope that the visitor does not close. */
  lemma LeakApart(v: Sites, w: Sites, bound: set<string>, l: Sites, declared: set<string>, stale: set<string>, p: Path)
    requires Apart(v, l, stale) && Outside(v, p) && Outside(l, p) && Rebinds(v, w, bound, p)
    ensures Apart(w, Mark(declared, p, l), stale + bound + declared)
  {
    assert Below(p, p);
  }

  lemma MarkNobody(l: Sites, p: Path)
    ensures Mark({}, p, l) == l
  {
  }

  lemma {:induction false} Track(n: Node, p: Path, v: Sites, l: Sites, stale: set<string>)
    requires Apart(v, l, stale) && Outside(v, p) && Outside(l, p)
    ensures Apart(SitesAfter(n, p, v, AsVisited), SitesAfter(n, p, l, Lexical), StaleAfter(n, stale))
    decreases Weight(n), 0
  {
    InsideUntouched(v, p, {});
    InsideUntouched(l, p, {});
    MarkNobody(l, p);
    match n
    case Block(_) =>
    case Ident(_) =>
    case Func(naming, _, _, _) => MarkOne(v, l, stale, DeclaredName(naming), p);
    case Import(defaults) => MarkBoth(v, l, stale, SetOf(defaults), p);
    case Declare(_, ds) => TrackIn(ds, p, 0, v, l, stale);
    case Class(naming, parts) =>
      BoundSitesAll(parts, p, 0, v);
      LeakApart(v, SitesAll(parts, p, 0, v, AsVisited), BoundAll(parts), l, DeclaredName(naming), stale, p);
    case Scoped(parts) =>
      BoundSitesAll(parts, p, 0, v);
      LeakApart(v, SitesAll(parts, p, 0, v, AsVisited), BoundAll(parts), l, {}, stale, p);
    case Bare(_, body) =>
      BoundSites(body, p + [0], v);
      RebindsChild(v, SitesAfter(body, p + [0], v, AsVisited), Bound(body), p, 0);
      LeakApart(v, SitesAfter(body, p + [0], v, AsVisited), Bound(body), l, {}, stale, p);
    case _ => TrackAll(Kids(n), p, 0, v, l, stale);
  }

  /** Child `k` of `p` keeps the account, and leaves the later children untouched. */
  lemma {:induction false} TrackChild(n: Node, p: Path, k: nat, v: Sites, l: Sites, stale: set<string>)
    requires Apart(v, l, stale) && Untouched(v, p, k) && Untouched(l, p, k)
    ensures Apart(SitesAfter(n, p + [k], v, AsVisited), SitesAfter(n, p + [k], l, Lexical), StaleAfter(n, stale))
    ensures Untouched(SitesAfter(n, p + [k], v, AsVisited), p, k + 1)
    ensures Untouched(SitesAfter(n, p + [k], l, Lexical), p, k + 1)
    decreases Weight(n), 1
  {
    ChildOutside(v, p, k);
    ChildOutside(l, p, k);
    Track(n, p + [k], v, l, stale);
    Grow(n, p + [k], v, AsVisited);
    Grow(n, p + [k], l, Lexical);
    LaterUntouched(v, SitesAfter(n, p + [k], v, AsVisited), p, k);
    LaterUntouched(l, SitesAfter(n, p + [k], l, Lexical), p, k);
  }

  lemma {:induction false} TrackAll(ns: seq<Node>, p: Path, k: nat, v: Sites, l: Sites, stale: set<string>)
    requires Apart(v, l, stale) && Untouched(v, p, k) && Untouched(l, p, k)
    ensures Apart(SitesAll(ns, p, k, v, AsVisited), SitesAll(ns, p, k, l, Lexical), StaleAll(ns, stale))
    decreases WeightAll(ns), 2
  {
    if ns != [] {
      TrackChild(ns[0], p, k, v, l, stale);
      TrackAll(ns[1..], p, k + 1, SitesAfter(ns[0], p + [k], v, AsVisited), SitesAfter(ns[0], p + [k], l, Lexical),
               StaleAfter(ns[0], stale));
    }
  }

  lemma {:induction false} TrackOf(d: Declarator, p: Path, k: nat, v: Sites, l: Sites, stale: set<string>)
    requires Apart(v, l, stale) && Untouched(v, p, k) && Untouched(l, p, k)
    ensures var w, m := SitesInit(d, p + [k], v, AsVisited), SitesInit(d, p + [k], l, Lexical);
            var names := SetOf(Names(d.target));
            && Apart(w, m, StaleInit(d, stale))
            && Apart(Mark(names, p + [k], w), Mark(names, p + [k], m), StaleOf(d, stale))
            && Untouched(Mark(names, p + [k], w), p, k + 1) && Untouched(Mark(names, p + [k], m), p, k + 1)
    decreases WeightOf(d), 2
  {
    var w, m := SitesInit(d, p + [k], v, AsVisited), SitesInit(d, p + [k], l, Lexical);
    if d.init.Some? { TrackChild(d.init.value, p, k, v, l, stale); }
    MarkBoth(w, m, StaleInit(d, stale), SetOf(Names(d.target)), p + [k]);
    GrowOf(d, p + [k], v, AsVisited);
    GrowOf(d, p + [k], l, Lexical);
    LaterUntouched(v, Mark(SetOf(Names(d.target)), p + [k], w), p, k);
    LaterUntouched(l, Mark(SetOf(Names(d.target)), p + [k], m), p, k);
  }

  lemma {:induction false} TrackIn(ds: seq<Declarator>, p: Path, k: nat, v: Sites, l: Sites, stale: set<string>)
    requires Apart(v, l, stale) && Untouched(v, p, k) && Untouched(l, p, k)
    ensures Apart(SitesIn(ds, p, k, v, AsVisited), SitesIn(ds, p, k, l, Lexical), StaleIn(ds, stale))
    decreases WeightIn(ds), 3
  {
    if ds != [] {
      var d, names := ds[0], SetOf(Names(ds[0].target));
      TrackOf(d, p, k, v, l, stale);
      TrackIn(ds[1..], p, k + 1, Mark(names, p + [k], SitesInit(d, p + [k], v, AsVisited)),
              Mark(names, p + [k], SitesInit(d, p + [k], l, Lexical)), StaleOf(d, stale));
    }
  }

  // ------------------------------------------------- alike if and only if clean

  lemma SitesAlike(v: Sites, l: Sites, stale: set<string>, names: seq<string>)
    requires Apart(v, l, stale)
    ensures SitesOf(v, names) == SitesOf(l, names) <==> SetOf(names) !! stale
  {
    var a, b := SitesOf(v, names), SitesOf(l, names);
    if a == b {
      forall x | x in SetOf(names) ensures x !in stale {
        var k :| 0 <= k < |names| && names[k] == x;
        assert a[k] == b[k];
      }
    } else {
      var k :| 0 <= k < |names| && a[k] != b[k];
      assert names[k] in SetOf(names) && names[k] in stale;
    }
  }

  lemma {:induction false} Alike(n: Node, p: Path, v: Sites, l: Sites, stale: set<string>)
    requires Apart(v, l, stale) && Outside(v, p) && Outside(l, p)
    ensures Lookups(n, p, v, AsVisited) == Lookups(n, p, l, Lexical) <==> Clean(n, stale)
    decreases Weight(n), 0
  {
    InsideUntouched(v, p, {});
    InsideUntouched(l, p, {});
    match n
    case Ident(_) =>
    case Import(_) =>
    case Block(statements) => AlikeAll(statements, p, 0, v, l, stale);
    case Declare(isConst, ds) => AlikeIn(ds, isConst, p, 0, v, l, stale);
    case Func(naming, params, missed, body) => AlikeFunc(Unseen(naming, missed), params, body, p, v, l, stale);
    case Class(naming, parts) =>
      MarkOne(v, l, stale, OwnName(naming), p);
      InsideUntouched(l, p, OwnName(naming));
      AlikeAll(parts, p, 0, v, MarkUnseen(OwnName(naming), p, l, Lexical), stale + OwnName(naming));
    case Scoped(parts) => AlikeAll(parts, p, 0, v, l, stale);
    case Bare(params, body) =>
      var names := SetOf(NamesAll(params));
      MarkOne(v, l, stale, names, p);
      InsideUntouched(l, p, names);
      AlikeChild(body, p, 0, v, Mark(names, p, l), stale + names);
    case _ => AlikeAll(Kids(n), p, 0, v, l, stale);
  }

  lemma MarkTwice(a: set<string>, b: set<string>, p: Path, e: Sites)
    ensures Mark(b, p, Mark(a, p, e)) == Mark(a + b, p, e)
  {
  }

  lemma {:induction false} AlikeFunc(unseen: set<string>, params: seq<Pattern>, body: Node, p: Path,
                                     v: Sites, l: Sites, stale: set<string>)
    requires Apart(v, l, stale) && Outside(v, p) && Outside(l, p)
    ensures var names := SetOf(NamesAll(params));
            Lookups(body, p + [0], Mark(names, p, v), AsVisited)
              == Lookups(body, p + [0], Mark(names, p, MarkUnseen(unseen, p, l, Lexical)), Lexical)
            <==> Clean(body, stale + unseen - names)
    decreases Weight(body), 2
  {
    var own, names := MarkUnseen(unseen, p, l, Lexical), SetOf(NamesAll(params));
    MarkOne(v, l, stale, unseen, p);
    MarkBoth(v, own, stale + unseen, names, p);
    InsideUntouched(v, p, names);
    InsideUntouched(l, p, unseen + names);
    MarkTwice(unseen, names, p, l);
    AlikeChild(body, p, 0, Mark(names, p, v), Mark(names, p, own), stale + unseen - names);
  }

  lemma {:induction false} AlikeChild(n: Node, p: Path, k: nat, v: Sites, l: Sites, stale: set<string>)
    requires Apart(v, l, stale) && Untouched(v, p, k) && Untouched(l, p, k)
    ensures Lookups(n, p + [k], v, AsVisited) == Lookups(n, p + [k], l, Lexical) <==> Clean(n, stale)
    decreases Weight(n), 1
  {
    ChildOutside(v, p, k);
    ChildOutside(l, p, k);
    Alike(n, p + [k], v, l, stale);
  }

  lemma {:induction false} AlikeAll(ns: seq<Node>, p: Path, k: nat, v: Sites, l: Sites, stale: set<string>)
    requires Apart(v, l, stale) && Untouched(v, p, k) && Untouched(l, p, k)
    ensures LookupsAll(ns, p, k, v, AsVisited) == LookupsAll(ns, p, k, l, Lexical) <==> CleanAll(ns, stale)
    decreases WeightAll(ns), 2
  {
    if ns != [] {
      var w, m := SitesAfter(ns[0], p + [k], v, AsVisited), SitesAfter(ns[0], p + [k], l, Lexical);
      AlikeChild(ns[0], p, k, v, l, stale);
      TrackChild(ns[0], p, k, v, l, stale);
      AlikeAll(ns[1..], p, k + 1, w, m, StaleAfter(ns[0], stale));
      SameCount(ns[0], p + [k], v, l);
      Halves(Lookups(ns[0], p + [k], v, AsVisited), LookupsAll(ns[1..], p, k + 1, w, AsVisited),
             Lookups(ns[0], p + [k], l, Lexical), LookupsAll(ns[1..], p, k + 1, m, Lexical));
    }
  }

  lemma {:induction false} AlikeOf(d: Declarator, isConst: bool, p: Path, k: nat, v: Sites, l: Sites, stale: set<string>)
    requires Apart(v, l, stale) && Untouched(v, p, k) && Untouched(l, p, k)
    ensures LookupsOf(d, isConst, p + [k], v, AsVisited) == LookupsOf(d, isConst, p + [k], l, Lexical)
       <==> CleanOf(d, isConst, stale)
    ensures |LookupsOf(d, isConst, p + [k], v, AsVisited)| == |LookupsOf(d, isConst, p + [k], l, Lexical)|
    decreases WeightOf(d), 2
  {
    if d.init.Some? {
      var init := d.init.value;
      var w, m := SitesInit(d, p + [k], v, AsVisited), SitesInit(d, p + [k], l, Lexical);
      AlikeChild(init, p, k, v, l, stale);
      TrackOf(d, p, k, v, l, stale);
      SitesAlike(w, m, StaleInit(d, stale), Consulted(init));
      SameCount(init, p + [k], v, l);
      Halves(Lookups(init, p + [k], v, AsVisited), if isConst then SitesOf(w, Consulted(init)) else [],
             Lookups(init, p + [k], l, Lexical), if isConst then SitesOf(m, Consulted(init)) else []);
    }
  }

  lemma {:induction false} AlikeIn(ds: seq<Declarator>, isConst: bool, p: Path, k: nat,
                                   v: Sites, l: Sites, stale: set<string>)
    requires Apart(v, l, stale) && Untouched(v, p, k) && Untouched(l, p, k)
    ensures LookupsIn(ds, isConst, p, k, v, AsVisited) == LookupsIn(ds, isConst, p, k, l, Lexical)
       <==> CleanIn(ds, isConst, stale)
    decreases WeightIn(ds), 3
  {
    if ds != [] {
      var d, names := ds[0], SetOf(Names(ds[0].target));
      var w := Mark(names, p + [k], SitesInit(d, p + [k], v, AsVisited));
      var m := Mark(names, p + [k], SitesInit(d, p + [k], l, Lexical));
      AlikeOf(d, isConst, p, k, v, l, stale);
      TrackOf(d, p, k, v, l, stale);
      AlikeIn(ds[1..], isConst, p, k + 1, w, m, StaleOf(d, stale));
      Halves(LookupsOf(d, isConst, p + [k], v, AsVisited), LookupsIn(ds[1..], isConst, p, k + 1, w, AsVisited),
             LookupsOf(d, isConst, p + [k], l, Lexical), LookupsIn(ds[1..], isConst, p, k + 1, m, Lexical));
    }
  }

  /**
  The visitor resolves every lookup of a program to the declaration the language does if and only
  if the program is clean: it never looks up a name that a loop, `switch`, class body or catch
  clause has left or bound, that a parameter property binds, or that a function, class, enum or
  namespace has, without declaring it again first.
  */
  lemma ResolvesAlikeIffClean(program: seq<Node>)
    ensures Lookups(Block(program), [], map[], AsVisited) == Lookups(Block(program), [], map[], Lexical)
       <==> Clean(Block(program), {})
  {
    Alike(Block(program), [], map[], map[], {});
  }
}
