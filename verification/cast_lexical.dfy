/**
When the cast policy reports what the language's own scoping calls wrong: on every program
that never looks up a name while the visitor has it bound differently.
*/
module CastLexical {
  import opened CastPolicy
  import opened CastReference
  import opened CastNames

  /** The two scopes say the same of every name that is not stale. */
  ghost predicate SameOn(v: Scope, l: Scope, stale: set<string>) {
    forall x: string :: x !in stale ==> Meaning(v, x) == Meaning(l, x)
  }

  lemma SameAlike(v: Scope, l: Scope, stale: set<string>, names: seq<string>)
    requires SameOn(v, l, stale) && SetOf(names) !! stale
    ensures AlikeOn(names, Means(v), Means(l))
  {
    forall x | x in names ensures Means(v)(x) == Means(l)(x) { assert x in SetOf(names); }
  }

  // --------------------------------------------------------------- bindings in step

  /** What a name bound like this means. */
  function Value(b: Binding): Provenance {
    match b
    case ClientHere => Client
    case Opaque => No
    case Const(share, init, scope) => ShareOf(share, ResultProvenance(init, Means(scope)))
  }

  lemma MeaningOfBound(x: string, b: Binding, c: Scope, y: string)
    ensures Meaning(Bind(x, b, c), y) == if y == x then Value(b) else Meaning(c, y)
  {
    if y == x && b.Const? { SameProvenance(b.init, Means(b.scope), z => Meaning(b.scope, z)); }
  }

  lemma BindSame(v: Scope, l: Scope, stale: set<string>, x: string, a: Binding, b: Binding)
    requires SameOn(v, l, stale) && Value(a) == Value(b)
    ensures SameOn(Bind(x, a, v), Bind(x, b, l), stale - {x})
  {
    forall y: string | y !in stale - {x} ensures Meaning(Bind(x, a, v), y) == Meaning(Bind(x, b, l), y) {
      MeaningOfBound(x, a, v, y);
      MeaningOfBound(x, b, l, y);
    }
  }

  lemma {:induction false} BindAllSame(v: Scope, l: Scope, stale: set<string>, names: seq<string>, a: Binding, b: Binding)
    requires SameOn(v, l, stale) && Value(a) == Value(b)
    ensures SameOn(BindAll(names, a, v), BindAll(names, b, l), stale - SetOf(names))
    decreases |names|
  {
    if names == [] {
      assert stale - SetOf(names) == stale;
    } else {
      BindSame(v, l, stale, names[0], a, b);
      BindAllSame(Bind(names[0], a, v), Bind(names[0], b, l), stale - {names[0]}, names[1..], a, b);
      assert stale - SetOf(names) == stale - {names[0]} - SetOf(names[1..]);
    }
  }

  /** Initializers that hold the same give every share of them the same. */
  predicate SameInit(a: Binding, b: Binding) {
    || (a.Opaque? && b.Opaque?)
    || (a.Const? && b.Const? && ResultProvenance(a.init, Means(a.scope)) == ResultProvenance(b.init, Means(b.scope)))
  }

  lemma {:induction false} TargetSame(v: Scope, l: Scope, stale: set<string>, p: Pattern, share: Share,
                                      a: Binding, b: Binding)
    requires SameOn(v, l, stale) && SameInit(a, b)
    ensures SameOn(BindTarget(p, share, a, v), BindTarget(p, share, b, l), stale - SetOf(Names(p)))
    decreases p, 1
  {
    match p
    case Name(x) =>
      BindSame(v, l, stale, x, Shared(a, share), Shared(b, share));
      assert SetOf([x]) == {x};
    case Inside(inner) => TargetSame(v, l, stale, inner, share, a, b);
    case Elements(items) => TargetsSame(v, l, stale, items, Within(share), a, b);
    case Properties(values) => BindAllSame(v, l, stale, NamesAll(values), Opaque, Opaque);
    case NoNames => assert stale - SetOf([]) == stale;
  }

  lemma {:induction false} TargetsSame(v: Scope, l: Scope, stale: set<string>, ps: seq<Pattern>, share: Share,
                                       a: Binding, b: Binding)
    requires SameOn(v, l, stale) && SameInit(a, b)
    ensures SameOn(BindTargets(ps, share, a, v), BindTargets(ps, share, b, l), stale - SetOf(NamesAll(ps)))
    decreases ps, 0
  {
    if ps == [] {
      assert stale - SetOf([]) == stale;
    } else {
      TargetSame(v, l, stale, ps[0], share, a, b);
      TargetsSame(BindTarget(ps[0], share, a, v), BindTarget(ps[0], share, b, l), stale - SetOf(Names(ps[0])), ps[1..],
                  share, a, b);
      assert stale - SetOf(NamesAll(ps)) == stale - SetOf(Names(ps[0])) - SetOf(NamesAll(ps[1..]));
    }
  }

  lemma {:induction false} ParamsSame(v: Scope, l: Scope, stale: set<string>, ps: seq<Pattern>, first: Binding)
    requires SameOn(v, l, stale)
    ensures SameOn(BindParams(ps, first, v), BindParams(ps, first, l), stale - SetOf(NamesAll(ps)))
    decreases ps
  {
    if ps == [] {
      assert stale - SetOf([]) == stale;
    } else {
      var names := Names(ps[0]);
      BindAllSame(v, l, stale, names, first, first);
      ParamsSame(BindAll(names, first, v), BindAll(names, first, l), stale - SetOf(names), ps[1..], Opaque);
      assert stale - SetOf(NamesAll(ps)) == stale - SetOf(names) - SetOf(NamesAll(ps[1..]));
    }
  }

  // -------------------------------------------------------- bindings on one side

  ghost predicate SameBut(c: Scope, d: Scope, names: set<string>) {
    forall x: string :: x !in names ==> Meaning(d, x) == Meaning(c, x)
  }

  lemma {:induction false} BindAllBut(names: seq<string>, b: Binding, c: Scope)
    ensures SameBut(c, BindAll(names, b, c), SetOf(names))
    decreases |names|
  {
    if names != [] {
      BindAllBut(names[1..], b, Bind(names[0], b, c));
      assert SetOf(names) == {names[0]} + SetOf(names[1..]);
    }
  }

  lemma {:induction false} TargetBut(p: Pattern, share: Share, b: Binding, c: Scope)
    ensures SameBut(c, BindTarget(p, share, b, c), SetOf(Names(p)))
    decreases p, 1
  {
    match p
    case Name(x) =>
    case Inside(inner) => TargetBut(inner, share, b, c);
    case Elements(items) => TargetsBut(items, Within(share), b, c);
    case Properties(values) => BindAllBut(NamesAll(values), Opaque, c);
    case NoNames =>
  }

  lemma {:induction false} TargetsBut(ps: seq<Pattern>, share: Share, b: Binding, c: Scope)
    ensures SameBut(c, BindTargets(ps, share, b, c), SetOf(NamesAll(ps)))
    decreases ps, 0
  {
    if ps != [] {
      TargetBut(ps[0], share, b, c);
      TargetsBut(ps[1..], share, b, BindTarget(ps[0], share, b, c));
      assert SetOf(NamesAll(ps)) == SetOf(Names(ps[0])) + SetOf(NamesAll(ps[1..]));
    }
  }

  lemma {:induction false} ParamsBut(ps: seq<Pattern>, first: Binding, c: Scope)
    ensures SameBut(c, BindParams(ps, first, c), SetOf(NamesAll(ps)))
    decreases ps
  {
    if ps != [] {
      BindAllBut(Names(ps[0]), first, c);
      ParamsBut(ps[1..], Opaque, BindAll(Names(ps[0]), first, c));
      assert SetOf(NamesAll(ps)) == SetOf(Names(ps[0])) + SetOf(NamesAll(ps[1..]));
    }
  }

  /** A plain node leaves the scope its children leave, one after the other. */
  lemma AfterKids(n: Node, c: Scope, r: Rules)
    requires Plain(n)
    ensures After(n, c, r) == AfterAll(Kids(n), c, r)
  {
    match n
    case Member(owner, property) =>
      if property.Computed? {
        assert Kids(n)[1..] == [property.key] && [property.key][1..] == [];
        assert AfterAll([property.key], After(owner, c, r), r) == After(n, c, r);
      } else {
        assert Kids(n)[1..] == [];
      }
    case Call(callee, args) => assert Kids(n)[1..] == args;
    case Tagged(tag, parts) => assert Kids(n)[1..] == parts;
    case Wrap(inner) => assert Kids(n)[1..] == [];
    case Assert(inner) => assert Kids(n)[1..] == [];
    case Array(_) =>
    case Other(_) =>
  }

  /** The visitor's scope changes only at the names that a node leaves bound. */
  lemma {:induction false} BoundOnly(n: Node, c: Scope)
    ensures SameBut(c, After(n, c, AsVisited), Bound(n))
    decreases Weight(n), 0
  {
    match n
    case Block(_) =>
    case Func(_, _, _, _) =>
    case Ident(_) =>
    case Import(defaults) => BindAllBut(defaults, ClientHere, c);
    case Declare(isConst, ds) => BoundOnlyIn(ds, isConst, c);
    case Class(_, parts) => BoundOnlyAll(parts, c);
    case Scoped(parts) => BoundOnlyAll(parts, c);
    case Bare(_, body) => BoundOnly(body, c);
    case _ =>
      AfterKids(n, c, AsVisited);
      BoundOnlyAll(Kids(n), c);
  }

  lemma {:induction false} BoundOnlyAll(ns: seq<Node>, c: Scope)
    ensures SameBut(c, AfterAll(ns, c, AsVisited), BoundAll(ns))
    decreases WeightAll(ns), 1
  {
    if ns != [] {
      BoundOnly(ns[0], c);
      BoundOnlyAll(ns[1..], After(ns[0], c, AsVisited));
    }
  }

  lemma {:induction false} BoundOnlyIn(ds: seq<Declarator>, isConst: bool, c: Scope)
    ensures SameBut(c, AfterDeclarators(ds, isConst, c, AsVisited), BoundIn(ds))
    decreases WeightIn(ds), 1
  {
    if ds != [] {
      BoundOnlyOf(ds[0], isConst, c);
      BoundOnlyIn(ds[1..], isConst, AfterDeclarator(ds[0], isConst, c, AsVisited));
    }
  }

  lemma {:induction false} BoundOnlyOf(d: Declarator, isConst: bool, c: Scope)
    ensures SameBut(c, AfterDeclarator(d, isConst, c, AsVisited), BoundOf(d))
    decreases WeightOf(d), 0
  {
    if d.init.Some? { BoundOnly(d.init.value, c); }
    var scope := AfterInit(d, c, AsVisited);
    TargetBut(d.target, Whole, if isConst && d.init.Some? then Const(Whole, d.init.value, scope) else Opaque, scope);
  }

  // ------------------------------------------------------------- scopes in step

  lemma NameBut(naming: Naming, c: Scope)
    ensures SameBut(c, WithDeclaredName(naming, c), DeclaredName(naming))
    ensures SameBut(c, WithOwnName(naming, c, Lexical), OwnName(naming))
  {
  }

  lemma {:induction false} AfterSame(n: Node, v: Scope, l: Scope, stale: set<string>)
    requires SameOn(v, l, stale) && Clean(n, stale)
    ensures SameOn(After(n, v, AsVisited), After(n, l, Lexical), StaleAfter(n, stale))
    decreases Weight(n), 0
  {
    match n
    case Block(_) =>
    case Ident(_) =>
    case Func(naming, _, _, _) => NameBut(naming, l);
    case Import(defaults) => BindAllSame(v, l, stale, defaults, ClientHere, ClientHere);
    case Declare(isConst, ds) => AfterSameIn(ds, isConst, v, l, stale);
    case Class(naming, parts) =>
      BoundOnlyAll(parts, v);
      NameBut(naming, l);
    case Scoped(parts) => BoundOnlyAll(parts, v);
    case Bare(_, body) => BoundOnly(body, v);
    case _ =>
      AfterKids(n, v, AsVisited);
      AfterKids(n, l, Lexical);
      AfterSameAll(Kids(n), v, l, stale);
  }

  lemma {:induction false} AfterSameAll(ns: seq<Node>, v: Scope, l: Scope, stale: set<string>)
    requires SameOn(v, l, stale) && CleanAll(ns, stale)
    ensures SameOn(AfterAll(ns, v, AsVisited), AfterAll(ns, l, Lexical), StaleAll(ns, stale))
    decreases WeightAll(ns), 1
  {
    if ns != [] {
      AfterSame(ns[0], v, l, stale);
      AfterSameAll(ns[1..], After(ns[0], v, AsVisited), After(ns[0], l, Lexical), StaleAfter(ns[0], stale));
    }
  }

  lemma {:induction false} AfterSameIn(ds: seq<Declarator>, isConst: bool, v: Scope, l: Scope, stale: set<string>)
    requires SameOn(v, l, stale) && CleanIn(ds, isConst, stale)
    ensures SameOn(AfterDeclarators(ds, isConst, v, AsVisited), AfterDeclarators(ds, isConst, l, Lexical),
                   StaleIn(ds, stale))
    decreases WeightIn(ds), 1
  {
    if ds != [] {
      AfterSameOf(ds[0], isConst, v, l, stale);
      AfterSameIn(ds[1..], isConst, AfterDeclarator(ds[0], isConst, v, AsVisited),
                  AfterDeclarator(ds[0], isConst, l, Lexical), StaleOf(ds[0], stale));
    }
  }

  lemma {:induction false} AfterSameOf(d: Declarator, isConst: bool, v: Scope, l: Scope, stale: set<string>)
    requires SameOn(v, l, stale) && CleanOf(d, isConst, stale)
    ensures SameOn(AfterDeclarator(d, isConst, v, AsVisited), AfterDeclarator(d, isConst, l, Lexical), StaleOf(d, stale))
    decreases WeightOf(d), 0
  {
    var w, m, after := AfterInit(d, v, AsVisited), AfterInit(d, l, Lexical), StaleInit(d, stale);
    if d.init.Some? {
      AfterSame(d.init.value, v, l, stale);
      if isConst {
        SameAlike(w, m, after, Consulted(d.init.value));
        ConsultedDecides(d.init.value, Means(w), Means(m));
        TargetSame(w, m, after, d.target, Whole, Const(Whole, d.init.value, w), Const(Whole, d.init.value, m));
      } else {
        TargetSame(w, m, after, d.target, Whole, Opaque, Opaque);
      }
    } else {
      TargetSame(w, m, after, d.target, Whole, Opaque, Opaque);
    }
  }

  // ------------------------------------------------------------ the same reports

  lemma LeadSame(n: Node, v: Scope, l: Scope, stale: set<string>)
    requires SameOn(v, l, stale) && Clean(n, stale)
    ensures NameIn(n, Means(v)) == NameIn(n, Means(l)) && IsDelegateResult(n, Means(v)) == IsDelegateResult(n, Means(l))
  {
    LeadClean(n, stale);
    SameAlike(v, l, stale, Lead(n));
    LeadDecides(n, Means(v), Means(l));
  }

  lemma {:induction false} ReportsSameAll(ns: seq<Node>, p: Path, k: nat, v: Scope, l: Scope, stale: set<string>)
    requires SameOn(v, l, stale) && CleanAll(ns, stale)
    ensures ViolationsAll(ns, p, k, v, AsVisited) == ViolationsAll(ns, p, k, l, Lexical)
    decreases WeightAll(ns), 2
  {
    if ns != [] {
      ReportsSame(ns[0], p + [k], false, false, v, l, stale);
      AfterSame(ns[0], v, l, stale);
      ReportsSameAll(ns[1..], p, k + 1, After(ns[0], v, AsVisited), After(ns[0], l, Lexical), StaleAfter(ns[0], stale));
    }
  }

  lemma {:induction false} ReportsSameIn(ds: seq<Declarator>, isConst: bool, p: Path, k: nat, v: Scope, l: Scope,
                                         stale: set<string>)
    requires SameOn(v, l, stale) && CleanIn(ds, isConst, stale)
    ensures ViolationsIn(ds, isConst, p, k, v, AsVisited) == ViolationsIn(ds, isConst, p, k, l, Lexical)
    decreases WeightIn(ds), 2
  {
    if ds != [] {
      if ds[0].init.Some? {
        assert WeightIn(ds) >= WeightOf(ds[0]) > Weight(ds[0].init.value);
        ReportsSame(ds[0].init.value, p + [k], false, false, v, l, stale);
      }
      AfterSameOf(ds[0], isConst, v, l, stale);
      ReportsSameIn(ds[1..], isConst, p, k + 1, AfterDeclarator(ds[0], isConst, v, AsVisited),
                    AfterDeclarator(ds[0], isConst, l, Lexical), StaleOf(ds[0], stale));
    }
  }

  /** A clean node has a clean first child, and the rest are clean after it. */
  lemma CleanRest(n: Node, first: Node, rest: seq<Node>, stale: set<string>)
    requires Plain(n) && Clean(n, stale) && Kids(n) == [first] + rest
    ensures Clean(first, stale) && CleanAll(rest, StaleAfter(first, stale))
    ensures rest != [] ==> Clean(rest[0], StaleAfter(first, stale))
    ensures rest != [] ==> CleanAll(rest[1..], StaleAfter(rest[0], StaleAfter(first, stale)))
  {
    assert Kids(n)[1..] == rest;
  }

  lemma {:induction false} CallSame(n: Node, p: Path, v: Scope, l: Scope, stale: set<string>)
    requires n.Call? && SameOn(v, l, stale) && Clean(n, stale)
    ensures Violations(n, p, false, false, v, AsVisited) == Violations(n, p, false, false, l, Lexical)
    decreases Weight(n), 0, 0
  {
    var callee, args := n.callee, n.args;
    CleanRest(n, callee, args, stale);
    LeadSame(n, v, l, stale);
    ReportsSame(callee, p + [0], false, false, v, l, stale);
    AfterSame(callee, v, l, stale);
    var w, m, after := After(callee, v, AsVisited), After(callee, l, Lexical), StaleAfter(callee, stale);
    if IsTransaction(n, Means(v)) && args != [] {
      assert WeightAll(args) == Weight(args[0]) + WeightAll(args[1..]);
      ReportsSame(args[0], p + [1], args[0].Func?, false, w, m, after);
      AfterSame(args[0], w, m, after);
      ReportsSameAll(args[1..], p, 2, After(args[0], w, AsVisited), After(args[0], m, Lexical), StaleAfter(args[0], after));
    } else {
      ReportsSameAll(args, p, 1, w, m, after);
    }
  }

  lemma {:induction false} ChainSame(n: Node, p: Path, under: bool, v: Scope, l: Scope, stale: set<string>)
    requires n.Tagged? || n.Member? || n.Wrap? || n.Assert?
    requires SameOn(v, l, stale) && Clean(n, stale)
    ensures Violations(n, p, false, under, v, AsVisited) == Violations(n, p, false, under, l, Lexical)
    decreases Weight(n), 0, 0
  {
    var first := Kids(n)[0];
    ReportsSame(first, p + [0], false, if n.Assert? then true else if n.Wrap? then under else false, v, l, stale);
    if n.Assert? {
      LeadSame(first, v, l, stale);
    } else if !n.Wrap? {
      AfterSame(first, v, l, stale);
      var w, m, after := After(first, v, AsVisited), After(first, l, Lexical), StaleAfter(first, stale);
      if n.Tagged? {
        CleanRest(n, first, n.parts, stale);
        ReportsSameAll(n.parts, p, 1, w, m, after);
      } else if n.property.Computed? {
        CleanRest(n, first, [n.property.key], stale);
        ReportsSame(n.property.key, p + [1], false, false, w, m, after);
      }
    }
  }

  lemma {:induction false} FuncSame(n: Node, p: Path, callback: bool, v: Scope, l: Scope, stale: set<string>)
    requires n.Func? && SameOn(v, l, stale) && Clean(n, stale)
    ensures Violations(n, p, callback, false, v, AsVisited) == Violations(n, p, callback, false, l, Lexical)
    decreases Weight(n), 0, 0
  {
    var first := if callback then ClientHere else Opaque;
    var own, inner := WithOwnName(n.naming, l, Lexical), WithMissed(n.naming, n.missed, l, Lexical);
    var unseen := Unseen(n.naming, n.missed);
    NameBut(n.naming, l);
    ParamsBut(n.missed, Opaque, own);
    assert SameBut(l, inner, unseen);
    ParamsSame(v, inner, stale + unseen, n.params, first);
    ReportsSame(n.body, p + [0], false, false, BindParams(n.params, first, v), BindParams(n.params, first, inner),
                stale + unseen - SetOf(NamesAll(n.params)));
  }

  /** At every node of a clean tree the visitor's scoping and the language's report the same. */
  lemma {:induction false} ReportsSame(n: Node, p: Path, callback: bool, under: bool, v: Scope, l: Scope,
                                       stale: set<string>)
    requires SameOn(v, l, stale) && Clean(n, stale)
    ensures Violations(n, p, callback, under, v, AsVisited) == Violations(n, p, callback, under, l, Lexical)
    decreases Weight(n), 1
  {
    match n
    case Block(body) => ReportsSameAll(body, p, 0, v, l, stale);
    case Import(_) =>
    case Ident(_) =>
    case Declare(isConst, ds) => ReportsSameIn(ds, isConst, p, 0, v, l, stale);
    case Func(_, _, _, _) => FuncSame(n, p, callback, v, l, stale);
    case Call(_, _) => CallSame(n, p, v, l, stale);
    case Class(naming, parts) =>
      NameBut(naming, l);
      ReportsSameAll(parts, p, 0, v, WithOwnName(naming, l, Lexical), stale + OwnName(naming));
    case Scoped(parts) => ReportsSameAll(parts, p, 0, v, l, stale);
    case Bare(params, body) =>
      ParamsBut(params, Opaque, l);
      ReportsSame(body, p + [0], false, false, v, BindParams(params, Opaque, l), stale + SetOf(NamesAll(params)));
    case Array(elements) => ReportsSameAll(elements, p, 0, v, l, stale);
    case Other(children) => ReportsSameAll(children, p, 0, v, l, stale);
    case _ => ChainSame(n, p, under, v, l, stale);
  }

  /** On a clean program the policy reports exactly what the language's scoping calls wrong, in source order. */
  lemma CleanIsExact(program: seq<Node>)
    requires Clean(Block(program), {})
    ensures Run(Block(program), [], false, State(map[], {}, [])).found
         == Violations(Block(program), [], false, false, Empty, Lexical)
  {
    FindsExactly(program);
    ReportsSame(Block(program), [], false, false, Empty, Empty, {});
  }
}
