/**
Where the visitor's scoping can go wrong, told from the syntax tree alone: the names whose
visited binding and lexical binding differ (`StaleAfter`), and the trees that never use one
of them (`Clean`).
*/
module CastNames {
  import opened CastPolicy

  // ------------------------------------------------------------------- the tree

  /** A node that is visited by visiting its children in order. */
  predicate Plain(n: Node) {
    n.Member? || n.Call? || n.Tagged? || n.Wrap? || n.Assert? || n.Array? || n.Other?
  }

  function Weight(n: Node): (w: nat)
    ensures w > 0
    decreases n, 1
  {
    match n
    case Ident(_) => 1
    case Member(owner, property) => 1 + Weight(owner) + (if property.Computed? then Weight(property.key) else 0)
    case Call(callee, args) => 1 + Weight(callee) + WeightAll(args)
    case Tagged(tag, parts) => 1 + Weight(tag) + WeightAll(parts)
    case Wrap(inner) => 1 + Weight(inner)
    case Assert(inner) => 1 + Weight(inner)
    case Array(elements) => 1 + WeightAll(elements)
    case Func(_, _, _, body) => 1 + Weight(body)
    case Class(_, parts) => 1 + WeightAll(parts)
    case Scoped(parts) => 1 + WeightAll(parts)
    case Bare(_, body) => 1 + Weight(body)
    case Block(statements) => 1 + WeightAll(statements)
    case Import(_) => 1
    case Declare(_, ds) => 1 + WeightIn(ds)
    case Other(children) => 1 + WeightAll(children)
  }

  function WeightAll(ns: seq<Node>): nat
    decreases ns, 0
  {
    if ns == [] then 0 else Weight(ns[0]) + WeightAll(ns[1..])
  }

  function WeightOf(d: Declarator): (w: nat)
    ensures w > 0
    decreases d, 2
  {
    1 + if d.init.Some? then Weight(d.init.value) else 0
  }

  function WeightIn(ds: seq<Declarator>): nat
    decreases ds, 0
  {
    if ds == [] then 0 else WeightOf(ds[0]) + WeightIn(ds[1..])
  }

  /** The children of a plain node, in the order of the visit and numbered as in their paths. */
  function Kids(n: Node): (ns: seq<Node>)
    requires Plain(n)
    ensures WeightAll(ns) < Weight(n)
  {
    match n
    case Member(owner, property) =>
      if property.Computed? then
        assert [owner, property.key][1..] == [property.key] && [property.key][1..] == [];
        assert WeightAll([property.key]) == Weight(property.key);
        [owner, property.key]
      else assert [owner][1..] == []; [owner]
    case Call(callee, args) => assert ([callee] + args)[1..] == args; [callee] + args
    case Tagged(tag, parts) => assert ([tag] + parts)[1..] == parts; [tag] + parts
    case Wrap(inner) => assert [inner][1..] == []; [inner]
    case Assert(inner) => assert [inner][1..] == []; [inner]
    case Array(elements) => elements
    case Other(children) => children
  }

  function SetOf(names: seq<string>): set<string> { set x | x in names }

  /** The name a function or class has for itself, and the one it declares around it. */
  function OwnName(naming: Naming): set<string> { if naming.Unnamed? then {} else {naming.name} }

  /** The names bound inside a function that the visitor does not bind. */
  function Unseen(naming: Naming, missed: seq<Pattern>): set<string> { OwnName(naming) + SetOf(NamesAll(missed)) }

  function DeclaredName(naming: Naming): set<string> { if naming.Outer? then {naming.name} else {} }

  // ---------------------------------------------------------- names that go stale

  /** The names a node leaves bound in the visitor's map. */
  function Bound(n: Node): set<string>
    decreases Weight(n), 0
  {
    match n
    case Block(_) => {}
    case Func(_, _, _, _) => {}
    case Ident(_) => {}
    case Import(defaults) => SetOf(defaults)
    case Declare(_, ds) => BoundIn(ds)
    case Class(_, parts) => BoundAll(parts)
    case Scoped(parts) => BoundAll(parts)
    case Bare(_, body) => Bound(body)
    case _ => BoundAll(Kids(n))
  }

  function BoundAll(ns: seq<Node>): set<string>
    decreases WeightAll(ns), 1
  {
    if ns == [] then {} else Bound(ns[0]) + BoundAll(ns[1..])
  }

  function BoundIn(ds: seq<Declarator>): set<string>
    decreases WeightIn(ds), 1
  {
    if ds == [] then {} else BoundOf(ds[0]) + BoundIn(ds[1..])
  }

  function BoundOf(d: Declarator): set<string>
    decreases WeightOf(d), 0
  {
    (if d.init.Some? then Bound(d.init.value) else {}) + SetOf(Names(d.target))
  }

  /**
  The names bound differently after `n`, given those before it: a scope that the visitor does
  not close leaves its names behind, and a declared function or class is never bound.
  */
  function StaleAfter(n: Node, stale: set<string>): set<string>
    decreases Weight(n), 0
  {
    match n
    case Block(_) => stale
    case Ident(_) => stale
    case Func(naming, _, _, _) => stale + DeclaredName(naming)
    case Import(defaults) => stale - SetOf(defaults)
    case Declare(_, ds) => StaleIn(ds, stale)
    case Class(naming, parts) => stale + BoundAll(parts) + DeclaredName(naming)
    case Scoped(parts) => stale + BoundAll(parts)
    case Bare(_, body) => stale + Bound(body)
    case _ => StaleAll(Kids(n), stale)
  }

  function StaleAll(ns: seq<Node>, stale: set<string>): set<string>
    decreases WeightAll(ns), 1
  {
    if ns == [] then stale else StaleAll(ns[1..], StaleAfter(ns[0], stale))
  }

  function StaleIn(ds: seq<Declarator>, stale: set<string>): set<string>
    decreases WeightIn(ds), 2
  {
    if ds == [] then stale else StaleIn(ds[1..], StaleOf(ds[0], stale))
  }

  function StaleInit(d: Declarator, stale: set<string>): set<string>
    decreases WeightOf(d), 0
  {
    if d.init.Some? then StaleAfter(d.init.value, stale) else stale
  }

  function StaleOf(d: Declarator, stale: set<string>): set<string>
    decreases WeightOf(d), 1
  {
    StaleInit(d, stale) - SetOf(Names(d.target))
  }

  // -------------------------------------------------------- what a node looks up

  /** The name at the head of a chain of members, calls and wrappers. */
  function Lead(n: Node): seq<string> {
    match n
    case Ident(x) => [x]
    case Member(owner, _) => Lead(owner)
    case Call(callee, _) => Lead(callee)
    case Tagged(tag, _) => Lead(tag)
    case Wrap(inner) => Lead(inner)
    case Assert(inner) => Lead(inner)
    case _ => []
  }

  function LeadAll(ns: seq<Node>): seq<string> {
    if ns == [] then [] else Lead(ns[0]) + LeadAll(ns[1..])
  }

  /** The names that decide what a const holds: its initializer's own, and those of an array argument. */
  function Consulted(n: Node): seq<string> {
    var call := Unwrap(n);
    Lead(n) + if call.Call? && call.args != [] && call.args[0].Array? then LeadAll(call.args[0].elements) else []
  }

  /** No name is looked up while it is bound differently. */
  predicate Clean(n: Node, stale: set<string>)
    decreases Weight(n), 0
  {
    match n
    case Ident(x) => x !in stale
    case Block(statements) => CleanAll(statements, stale)
    case Import(_) => true
    case Declare(isConst, ds) => CleanIn(ds, isConst, stale)
    case Func(naming, params, missed, body) => Clean(body, stale + Unseen(naming, missed) - SetOf(NamesAll(params)))
    case Class(naming, parts) => CleanAll(parts, stale + OwnName(naming))
    case Scoped(parts) => CleanAll(parts, stale)
    case Bare(params, body) => Clean(body, stale + SetOf(NamesAll(params)))
    case _ => CleanAll(Kids(n), stale)
  }

  predicate CleanAll(ns: seq<Node>, stale: set<string>)
    decreases WeightAll(ns), 1
  {
    ns == [] || (Clean(ns[0], stale) && CleanAll(ns[1..], StaleAfter(ns[0], stale)))
  }

  predicate CleanIn(ds: seq<Declarator>, isConst: bool, stale: set<string>)
    decreases WeightIn(ds), 1
  {
    ds == [] || (CleanOf(ds[0], isConst, stale) && CleanIn(ds[1..], isConst, StaleOf(ds[0], stale)))
  }

  predicate CleanOf(d: Declarator, isConst: bool, stale: set<string>)
    decreases WeightOf(d), 0
  {
    d.init.Some? ==>
      && Clean(d.init.value, stale)
      && (isConst ==> SetOf(Consulted(d.init.value)) !! StaleAfter(d.init.value, stale))
  }

  // ------------------------------------------------------ what a look depends on

  /** Two looks give these names the same provenance. */
  predicate AlikeOn(names: seq<string>, f: Look, g: Look) { forall x :: x in names ==> f(x) == g(x) }

  lemma {:induction false} LeadUnwrapped(n: Node)
    ensures Lead(Unwrap(n)) == Lead(n)
    decreases n
  {
    if n.Wrap? || n.Assert? { LeadUnwrapped(n.inner); }
  }

  lemma LeadDecidesName(n: Node, f: Look, g: Look)
    requires AlikeOn(Lead(n), f, g)
    ensures NameIn(n, f) == NameIn(n, g)
  {
    LeadUnwrapped(n);
  }

  /** What an expression is judged to be depends only on the name it starts with. */
  lemma LeadDecides(n: Node, f: Look, g: Look)
    requires AlikeOn(Lead(n), f, g)
    ensures NameIn(n, f) == NameIn(n, g) && IsDelegateResult(n, f) == IsDelegateResult(n, g)
  {
    LeadDecidesName(n, f, g);
    LeadUnwrapped(n);
    var callee := Callee(Unwrap(n));
    if callee.Some? && callee.value.Member? {
      LeadUnwrapped(if Unwrap(n).Call? then Unwrap(n).callee else Unwrap(n).tag);
      var receiver := callee.value.owner;
      LeadUnwrapped(receiver);
      LeadDecidesName(receiver, f, g);
      if Unwrap(receiver).Member? { LeadDecidesName(Unwrap(receiver).owner, f, g); }
    }
  }

  lemma {:induction false} LeadOf(ns: seq<Node>, k: nat)
    requires k < |ns|
    ensures forall x :: x in Lead(ns[k]) ==> x in LeadAll(ns)
    decreases |ns|
  {
    if k > 0 { LeadOf(ns[1..], k - 1); }
  }

  lemma ConsultedPromise(n: Node, f: Look, g: Look)
    requires AlikeOn(Consulted(n), f, g)
    ensures IsPromiseAll(n, f) ==> IsPromiseAll(n, g)
  {
    if IsPromiseAll(n, f) {
      var elements := Unwrap(n).args[0].elements;
      var k :| 0 <= k < |elements| && IsResultValue(elements[k], f);
      LeadOf(elements, k);
      LeadDecides(elements[k], f, g);
      assert IsResultValue(elements[k], g);
    }
  }

  /** What a const holds depends only on the names its initializer consults. */
  lemma ConsultedDecides(n: Node, f: Look, g: Look)
    requires AlikeOn(Consulted(n), f, g)
    ensures ResultProvenance(n, f) == ResultProvenance(n, g)
  {
    assert AlikeOn(Lead(n), f, g);
    LeadDecides(n, f, g);
    ConsultedPromise(n, f, g);
    ConsultedPromise(n, g, f);
  }

  /** A clean tree does not start with a stale name. */
  lemma {:induction false} LeadClean(n: Node, stale: set<string>)
    requires Clean(n, stale)
    ensures SetOf(Lead(n)) !! stale
    decreases Weight(n)
  {
    if n.Member? || n.Call? || n.Tagged? || n.Wrap? || n.Assert? { LeadClean(Kids(n)[0], stale); }
  }
}
