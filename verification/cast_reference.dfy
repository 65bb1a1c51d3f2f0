/**
What the cast policy means: a name stands for its nearest enclosing declaration, and a const
holds what its initializer meant where it was declared. What encloses what follows either the
visitor's scoping or the language's. Under the visitor's, the checker's eagerly updated map
agrees with this at every point of every program; `CastLexical` and `CastSites` say when that
is also what the language means.
*/
module CastReference {
  import opened Common
  import opened CastPolicy

  // ------------------------------------------------------------ scopes by name

  /** Which part of the initializer a pattern's name receives. */
  datatype Share = Whole | Element | Nothing

  /** A const keeps its initializer unevaluated, with the scope it was written in. */
  datatype Binding = ClientHere | Opaque | Const(share: Share, init: Node, scope: Scope)

  datatype Scope = Empty | Bind(name: string, binding: Binding, outer: Scope)

  function ShareOf(share: Share, v: Provenance): Provenance {
    match share
    case Whole => v
    case Element => ElementOf(v)
    case Nothing => No
  }

  /** Lexical resolution: through shadowing, and through const aliases of any length. */
  function Meaning(c: Scope, x: string): Provenance
    decreases c
  {
    match c
    case Empty => No
    case Bind(y, b, outer) =>
      if x != y then Meaning(outer, x)
      else match b
        case ClientHere => Client
        case Opaque => No
        case Const(share, init, scope) => ShareOf(share, ResultProvenance(init, z => Meaning(scope, z)))
  }

  function Means(c: Scope): Look { x => Meaning(c, x) }

  // ------------------------------------------------------------ declarations

  function BindAll(names: seq<string>, b: Binding, c: Scope): Scope
    decreases |names|
  {
    if names == [] then c else BindAll(names[1..], b, Bind(names[0], b, c))
  }

  function Within(share: Share): Share { if share == Whole then Element else Nothing }

  function Shared(b: Binding, share: Share): Binding {
    if b.Const? then b.(share := share) else b
  }

  /** `share` is what the whole pattern receives of the initializer in `b`. */
  function BindTarget(p: Pattern, share: Share, b: Binding, c: Scope): Scope
    decreases p, 1
  {
    match p
    case Name(x) => Bind(x, Shared(b, share), c)
    case Inside(inner) => BindTarget(inner, share, b, c)
    case Elements(items) => BindTargets(items, Within(share), b, c)
    case Properties(values) => BindAll(NamesAll(values), Opaque, c)
    case NoNames => c
  }

  function BindTargets(ps: seq<Pattern>, share: Share, b: Binding, c: Scope): Scope
    decreases ps, 0
  {
    if ps == [] then c else BindTargets(ps[1..], share, b, BindTarget(ps[0], share, b, c))
  }

  function BindParams(ps: seq<Pattern>, first: Binding, c: Scope): Scope
    decreases ps
  {
    if ps == [] then c else BindParams(ps[1..], Opaque, BindAll(Names(ps[0]), first, c))
  }

  /**
  Two ways to scope names. The visitor gives blocks and functions a scope of their own and
  nothing else. The language also gives one to loops, `switch`, class bodies and catch clauses,
  binds the parameters of catch clauses and private methods and the parameter properties of
  constructors, and the names of functions, classes, enums and namespaces.
  */
  datatype Rules = AsVisited | Lexical

  /** Inside a function or class its own name is bound. */
  function WithOwnName(naming: Naming, c: Scope, r: Rules): Scope {
    if r.AsVisited? || naming.Unnamed? then c else Bind(naming.name, Opaque, c)
  }

  /** And so are the parameters that the visitor does not see. */
  function WithMissed(naming: Naming, missed: seq<Pattern>, c: Scope, r: Rules): Scope {
    if r.AsVisited? then c else BindParams(missed, Opaque, WithOwnName(naming, c, r))
  }

  /** After a declaration its name is bound. */
  function WithDeclaredName(naming: Naming, c: Scope): Scope {
    if naming.Outer? then Bind(naming.name, Opaque, c) else c
  }

  /** The scope after a node. */
  function After(n: Node, c: Scope, r: Rules): Scope
    decreases n, 3
  {
    match n
    case Block(_) => c
    case Func(naming, _, _, _) => if r.Lexical? then WithDeclaredName(naming, c) else c
    case Class(naming, parts) => if r.Lexical? then WithDeclaredName(naming, c) else AfterAll(parts, c, r)
    case Scoped(parts) => if r.Lexical? then c else AfterAll(parts, c, r)
    case Bare(_, body) => if r.Lexical? then c else After(body, c, r)
    case Import(defaults) => BindAll(defaults, ClientHere, c)
    case Declare(isConst, ds) => AfterDeclarators(ds, isConst, c, r)
    case Call(callee, args) => AfterAll(args, After(callee, c, r), r)
    case Tagged(tag, parts) => AfterAll(parts, After(tag, c, r), r)
    case Member(owner, property) =>
      if property.Computed? then After(property.key, After(owner, c, r), r) else After(owner, c, r)
    case Wrap(inner) => After(inner, c, r)
    case Assert(inner) => After(inner, c, r)
    case Array(elements) => AfterAll(elements, c, r)
    case Other(children) => AfterAll(children, c, r)
    case Ident(_) => c
  }

  function AfterAll(ns: seq<Node>, c: Scope, r: Rules): Scope
    decreases ns, 0
  {
    if ns == [] then c else AfterAll(ns[1..], After(ns[0], c, r), r)
  }

  function AfterInit(d: Declarator, c: Scope, r: Rules): Scope
    decreases d, 0
  {
    if d.init.Some? then After(d.init.value, c, r) else c
  }

  function AfterDeclarator(d: Declarator, isConst: bool, c: Scope, r: Rules): Scope
    decreases d, 1
  {
    var scope := AfterInit(d, c, r);
    BindTarget(d.target, Whole, if isConst && d.init.Some? then Const(Whole, d.init.value, scope) else Opaque, scope)
  }

  function AfterDeclarators(ds: seq<Declarator>, isConst: bool, c: Scope, r: Rules): Scope
    decreases ds, 0
  {
    if ds == [] then c else AfterDeclarators(ds[1..], isConst, AfterDeclarator(ds[0], isConst, c, r), r)
  }

  // -------------------------------------------------------------- agreement

  /** The map and the scope say the same of every name. */
  ghost predicate Agrees(env: map<string, Provenance>, c: Scope) {
    forall x: string :: Get(env)(x) == Meaning(c, x)
  }

  ghost predicate SameLook(f: Look, g: Look) { forall x: string :: f(x) == g(x) }

  lemma SameResult(n: Node, f: Look, g: Look)
    requires SameLook(f, g)
    ensures NameIn(n, f) == NameIn(n, g) && IsDelegateResult(n, f) == IsDelegateResult(n, g)
  { }

  lemma SamePromiseAll(n: Node, f: Look, g: Look)
    requires SameLook(f, g)
    ensures IsPromiseAll(n, f) ==> IsPromiseAll(n, g)
  {
    if IsPromiseAll(n, f) {
      var elements := Unwrap(n).args[0].elements;
      var k :| 0 <= k < |elements| && IsResultValue(elements[k], f);
      SameResult(elements[k], f, g);
      assert IsResultValue(elements[k], g);
    }
  }

  lemma SameProvenance(n: Node, f: Look, g: Look)
    requires SameLook(f, g)
    ensures ResultProvenance(n, f) == ResultProvenance(n, g)
  {
    SameResult(n, f, g);
    SamePromiseAll(n, f, g);
    SamePromiseAll(n, g, f);
  }

  lemma AgreesLook(env: map<string, Provenance>, c: Scope)
    requires Agrees(env, c)
    ensures SameLook(Get(env), Means(c))
  {
    forall x: string ensures Get(env)(x) == Means(c)(x) { }
  }

  /** What a binding holds when `v` is the provenance of its initializer. */
  predicate Holds(b: Binding, v: Provenance) {
    match b
    case ClientHere => v == Client
    case Opaque => v == No
    case Const(share, init, scope) => v == ShareOf(share, ResultProvenance(init, Means(scope)))
  }

  lemma BindAgrees(env: map<string, Provenance>, c: Scope, x: string, v: Provenance, b: Binding)
    requires Agrees(env, c) && Holds(b, v)
    ensures Agrees(env[x := v], Bind(x, b, c))
  {
    forall y: string ensures Get(env[x := v])(y) == Meaning(Bind(x, b, c), y) {
      assert Get(env)(y) == Meaning(c, y);
      if y == x && b.Const? {
        SameProvenance(b.init, Means(b.scope), z => Meaning(b.scope, z));
      }
    }
  }

  lemma {:induction false} BindAllAgrees(env: map<string, Provenance>, c: Scope, names: seq<string>,
                                         v: Provenance, b: Binding)
    requires Agrees(env, c) && Holds(b, v)
    ensures Agrees(SetAll(names, v, env), BindAll(names, b, c))
    decreases |names|
  {
    if names != [] {
      BindAgrees(env, c, names[0], v, b);
      BindAllAgrees(env[names[0] := v], Bind(names[0], b, c), names[1..], v, b);
    }
  }

  /** `v` is the provenance of the whole initializer that `b` stands for. */
  predicate Initial(b: Binding, v: Provenance) {
    match b
    case ClientHere => false
    case Opaque => v == No
    case Const(_, init, scope) => v == ResultProvenance(init, Means(scope))
  }

  lemma {:induction false} TargetAgrees(env: map<string, Provenance>, c: Scope, p: Pattern, share: Share,
                                        v: Provenance, b: Binding)
    requires Agrees(env, c) && Initial(b, v)
    ensures Agrees(SetPattern(p, ShareOf(share, v), env), BindTarget(p, share, b, c))
    decreases p, 1
  {
    match p
    case Name(x) => BindAgrees(env, c, x, ShareOf(share, v), Shared(b, share));
    case Inside(inner) => TargetAgrees(env, c, inner, share, v, b);
    case Elements(items) => TargetsAgree(env, c, items, Within(share), v, b);
    case Properties(values) => BindAllAgrees(env, c, NamesAll(values), No, Opaque);
    case NoNames =>
  }

  lemma {:induction false} TargetsAgree(env: map<string, Provenance>, c: Scope, ps: seq<Pattern>, share: Share,
                                        v: Provenance, b: Binding)
    requires Agrees(env, c) && Initial(b, v)
    ensures Agrees(SetPatterns(ps, ShareOf(share, v), env), BindTargets(ps, share, b, c))
    decreases ps, 0
  {
    if ps != [] {
      TargetAgrees(env, c, ps[0], share, v, b);
      TargetsAgree(SetPattern(ps[0], ShareOf(share, v), env), BindTarget(ps[0], share, b, c), ps[1..], share, v, b);
    }
  }

  lemma {:induction false} ParamsAgree(env: map<string, Provenance>, c: Scope, ps: seq<Pattern>,
                                       v: Provenance, b: Binding)
    requires Agrees(env, c) && Holds(b, v)
    ensures Agrees(SetParams(ps, v, env), BindParams(ps, b, c))
    decreases ps
  {
    if ps != [] {
      BindAllAgrees(env, c, Names(ps[0]), v, b);
      ParamsAgree(SetAll(Names(ps[0]), v, env), BindAll(Names(ps[0]), b, c), ps[1..], No, Opaque);
    }
  }

  // ------------------------------------------------- which assertions are wrong

  /**
  An assertion on `inner` is reported when `inner` resolves to a result through its name, or
  when it is a query itself and no other assertion stands around it.
  */
  predicate Reports(inner: Node, under: bool, c: Scope) {
    NameIn(inner, Means(c)) == Result || (!under && IsDelegateResult(inner, Means(c)))
  }

  /** The reported assertions of `n`; `under` when an assertion stands right around `n`. */
  function Violations(n: Node, p: Path, callback: bool, under: bool, c: Scope, r: Rules): seq<Path>
    decreases n, 3
  {
    match n
    case Block(body) => ViolationsAll(body, p, 0, c, r)
    case Import(_) => []
    case Declare(isConst, ds) => ViolationsIn(ds, isConst, p, 0, c, r)
    case Func(naming, params, missed, body) =>
      Violations(body, p + [0], false, false,
                 BindParams(params, if callback then ClientHere else Opaque, WithMissed(naming, missed, c, r)), r)
    case Class(naming, parts) => ViolationsAll(parts, p, 0, WithOwnName(naming, c, r), r)
    case Scoped(parts) => ViolationsAll(parts, p, 0, c, r)
    case Bare(params, body) =>
      Violations(body, p + [0], false, false, if r.Lexical? then BindParams(params, Opaque, c) else c, r)
    case Call(callee, args) =>
      Violations(callee, p + [0], false, false, c, r)
      + if IsTransaction(n, Means(c)) && args != [] then
          Violations(args[0], p + [1], args[0].Func?, false, After(callee, c, r), r)
          + ViolationsAll(args[1..], p, 2, After(args[0], After(callee, c, r), r), r)
        else ViolationsAll(args, p, 1, After(callee, c, r), r)
    case Tagged(tag, parts) =>
      Violations(tag, p + [0], false, false, c, r) + ViolationsAll(parts, p, 1, After(tag, c, r), r)
    case Member(owner, property) =>
      Violations(owner, p + [0], false, false, c, r)
      + if property.Computed? then Violations(property.key, p + [1], false, false, After(owner, c, r), r) else []
    case Wrap(inner) => Violations(inner, p + [0], false, under, c, r)
    case Assert(inner) =>
      (if Reports(inner, under, c) then [p] else []) + Violations(inner, p + [0], false, true, c, r)
    case Array(elements) => ViolationsAll(elements, p, 0, c, r)
    case Other(children) => ViolationsAll(children, p, 0, c, r)
    case Ident(_) => []
  }

  function ViolationsAll(ns: seq<Node>, p: Path, k: nat, c: Scope, r: Rules): seq<Path>
    decreases ns, 0
  {
    if ns == [] then []
    else Violations(ns[0], p + [k], false, false, c, r) + ViolationsAll(ns[1..], p, k + 1, After(ns[0], c, r), r)
  }

  function ViolationsIn(ds: seq<Declarator>, isConst: bool, p: Path, k: nat, c: Scope, r: Rules): seq<Path>
    decreases ds, 0
  {
    if ds == [] then []
    else ViolationsOf(ds[0], p + [k], c, r)
         + ViolationsIn(ds[1..], isConst, p, k + 1, AfterDeclarator(ds[0], isConst, c, r), r)
  }

  function ViolationsOf(d: Declarator, p: Path, c: Scope, r: Rules): seq<Path>
    decreases d, 1
  {
    if d.init.Some? then Violations(d.init.value, p, false, false, c, r) else []
  }

  // ------------------------------------------- reported nodes are met in order

  /** What may already be reported at or below `p` when `n` is visited there. */
  predicate Fits(reported: set<Path>, n: Node, p: Path, under: bool, c: Scope) {
    var again := under && IsDelegateResult(n, Means(c));
    && (forall q :: q in reported && Below(p, q) ==> q == p || (again && q == Source(n, p)))
    && (again ==> Source(n, p) in reported)
  }

  predicate Touches(s: set<Path>, t: set<Path>, p: Path) {
    forall q :: q in t ==> q in s || Below(p, q)
  }

  lemma SourceInside(n: Node, p: Path)
    requires n.Wrap? || n.Assert?
    ensures Source(n.inner, p + [0]) == Source(n, p) && Source(n, p) != p && Below(p + [0], Source(n, p))
  {
    assert Zeros(Layers(n)) == [0] + Zeros(Layers(n.inner));
    assert p + ([0] + Zeros(Layers(n.inner))) == (p + [0]) + Zeros(Layers(n.inner));
  }

  /** A node that is no wrapper leaves its children unreported. */
  lemma FitsChildren(reported: set<Path>, n: Node, p: Path, under: bool, c: Scope)
    requires Fits(reported, n, p, under, c) && !n.Wrap? && !n.Assert?
    ensures Unvisited(reported, p, 0)
  {
    assert Source(n, p) == p;
    forall q, j: nat | q in reported ensures !Below(p + [j], q) {
      assert Below(p + [j], q) ==> Below(p, q) && q != p;
    }
  }

  lemma FitsChild(reported: set<Path>, n: Node, p: Path, k: nat, c: Scope)
    requires Unvisited(reported, p, k)
    ensures Fits(reported, n, p + [k], false, c)
  { }

  lemma FitsWrapped(reported: set<Path>, n: Node, p: Path, under: bool, c: Scope)
    requires Fits(reported, n, p, under, c) && n.Wrap?
    ensures Fits(reported, n.inner, p + [0], under, c)
  {
    SourceInside(n, p);
    forall q | q in reported && Below(p + [0], q) ensures Below(p, q) && q != p { }
  }

  /** The first of several assertions around one query is reported, and only that one. */
  lemma JudgeMatches(n: Node, p: Path, under: bool, c: Scope, st: State)
    requires n.Assert? && Agrees(st.env, c) && Fits(st.reported, n, p, under, c)
    ensures var t := Judge(n, p, st);
            && t.env == st.env && Touches(st.reported, t.reported, p)
            && t.found == st.found + (if Reports(n.inner, under, c) then [p] else [])
            && Fits(t.reported, n.inner, p + [0], true, c)
  {
    AgreesLook(st.env, c);
    SameResult(n.inner, Get(st.env), Means(c));
    SourceInside(n, p);
    assert Below(p, p + [0]) && p + [0] != p;
    forall q | Below(p + [0], q) ensures Below(p, q) && q != p { }
  }

  // ------------------------------------------------------------ the whole visit

  /** From `st` to `t`: the scope is now `c`, and exactly `vs` was found, at or below `p`. */
  ghost predicate Found(st: State, t: State, p: Path, c: Scope, vs: seq<Path>) {
    Agrees(t.env, c) && t.found == st.found + vs && Touches(st.reported, t.reported, p)
  }

  lemma FoundThen(st: State, t: State, u: State, p: Path, b: Scope, c: Scope, vs: seq<Path>, ws: seq<Path>)
    requires Found(st, t, p, b, vs) && Found(t, u, p, c, ws)
    ensures Found(st, u, p, c, vs + ws)
  {
    assert st.found + vs + ws == st.found + (vs + ws);
  }

  lemma FoundAbove(st: State, t: State, p: Path, k: nat, c: Scope, vs: seq<Path>)
    requires Found(st, t, p + [k], c, vs)
    ensures Found(st, t, p, c, vs)
  {
    forall q | Below(p + [k], q) ensures Below(p, q) { }
  }

  lemma {:induction false} Child(n: Node, p: Path, k: nat, callback: bool, c: Scope, st: State)
    requires Agrees(st.env, c) && Unvisited(st.reported, p, k)
    ensures var t := Run(n, p + [k], callback, st);
            && Found(st, t, p, After(n, c, AsVisited), Violations(n, p + [k], callback, false, c, AsVisited))
            && Unvisited(t.reported, p, k + 1)
    decreases n, 4
  {
    FitsChild(st.reported, n, p, k, c);
    Matches(n, p + [k], callback, false, c, st);
    var t := Run(n, p + [k], callback, st);
    LaterUnvisited(st.reported, t.reported, p, k);
    FoundAbove(st, t, p, k, After(n, c, AsVisited), Violations(n, p + [k], callback, false, c, AsVisited));
  }

  lemma {:induction false} Children(ns: seq<Node>, p: Path, k: nat, c: Scope, st: State)
    requires Agrees(st.env, c) && Unvisited(st.reported, p, k)
    ensures Found(st, RunAll(ns, p, k, st), p, AfterAll(ns, c, AsVisited), ViolationsAll(ns, p, k, c, AsVisited))
    decreases ns, 0
  {
    if ns != [] {
      Child(ns[0], p, k, false, c, st);
      var t := Run(ns[0], p + [k], false, st);
      Children(ns[1..], p, k + 1, After(ns[0], c, AsVisited), t);
      FoundThen(st, t, RunAll(ns, p, k, st), p, After(ns[0], c, AsVisited), AfterAll(ns, c, AsVisited),
                Violations(ns[0], p + [k], false, false, c, AsVisited),
                ViolationsAll(ns[1..], p, k + 1, After(ns[0], c, AsVisited), AsVisited));
    }
  }

  lemma {:induction false} CallMatches(n: Node, p: Path, c: Scope, st: State)
    requires n.Call? && Agrees(st.env, c) && Unvisited(st.reported, p, 0)
    ensures Found(st, Run(n, p, false, st), p, After(n, c, AsVisited), Violations(n, p, false, false, c, AsVisited))
    decreases n, 2
  {
    AgreesLook(st.env, c);
    SameResult(n, Get(st.env), Means(c));
    Child(n.callee, p, 0, false, c, st);
    var t, d := Run(n.callee, p + [0], false, st), After(n.callee, c, AsVisited);
    var vs := Violations(n.callee, p + [0], false, false, c, AsVisited);
    if IsTransaction(n, Means(c)) && n.args != [] {
      TransactionMatches(n, p, d, t);
      FoundThen(st, t, Run(n, p, false, st), p, d, After(n, c, AsVisited), vs,
                Violations(n.args[0], p + [1], n.args[0].Func?, false, d, AsVisited)
                + ViolationsAll(n.args[1..], p, 2, After(n.args[0], d, AsVisited), AsVisited));
    } else {
      Children(n.args, p, 1, d, t);
      FoundThen(st, t, Run(n, p, false, st), p, d, After(n, c, AsVisited), vs, ViolationsAll(n.args, p, 1, d, AsVisited));
    }
  }

  lemma {:induction false} TransactionMatches(n: Node, p: Path, c: Scope, st: State)
    requires n.Call? && n.args != [] && Agrees(st.env, c) && Unvisited(st.reported, p, 1)
    ensures Found(st, RunAll(n.args[1..], p, 2, Run(n.args[0], p + [1], n.args[0].Func?, st)), p,
                  AfterAll(n.args, c, AsVisited),
                  Violations(n.args[0], p + [1], n.args[0].Func?, false, c, AsVisited)
                  + ViolationsAll(n.args[1..], p, 2, After(n.args[0], c, AsVisited), AsVisited))
    decreases n, 1
  {
    var first, rest := n.args[0], n.args[1..];
    Child(first, p, 1, first.Func?, c, st);
    var t, d := Run(first, p + [1], first.Func?, st), After(first, c, AsVisited);
    Children(rest, p, 2, d, t);
    FoundThen(st, t, RunAll(rest, p, 2, t), p, d, AfterAll(n.args, c, AsVisited),
              Violations(first, p + [1], first.Func?, false, c, AsVisited), ViolationsAll(rest, p, 2, d, AsVisited));
  }

  lemma {:induction false} TaggedMatches(n: Node, p: Path, c: Scope, st: State)
    requires n.Tagged? && Agrees(st.env, c) && Unvisited(st.reported, p, 0)
    ensures Found(st, Run(n, p, false, st), p, After(n, c, AsVisited), Violations(n, p, false, false, c, AsVisited))
    decreases n, 2
  {
    Child(n.tag, p, 0, false, c, st);
    var t, d := Run(n.tag, p + [0], false, st), After(n.tag, c, AsVisited);
    Children(n.parts, p, 1, d, t);
    FoundThen(st, t, Run(n, p, false, st), p, d, After(n, c, AsVisited),
              Violations(n.tag, p + [0], false, false, c, AsVisited), ViolationsAll(n.parts, p, 1, d, AsVisited));
  }

  lemma {:induction false} MemberMatches(n: Node, p: Path, c: Scope, st: State)
    requires n.Member? && Agrees(st.env, c) && Unvisited(st.reported, p, 0)
    ensures Found(st, Run(n, p, false, st), p, After(n, c, AsVisited), Violations(n, p, false, false, c, AsVisited))
    decreases n, 2
  {
    Child(n.owner, p, 0, false, c, st);
    var t, d := Run(n.owner, p + [0], false, st), After(n.owner, c, AsVisited);
    var vs := Violations(n.owner, p + [0], false, false, c, AsVisited);
    if n.property.Computed? {
      Child(n.property.key, p, 1, false, d, t);
      FoundThen(st, t, Run(n, p, false, st), p, d, After(n, c, AsVisited), vs,
                Violations(n.property.key, p + [1], false, false, d, AsVisited));
    } else {
      assert vs + [] == vs;
    }
  }

  lemma {:induction false} AssertMatches(n: Node, p: Path, under: bool, c: Scope, st: State)
    requires n.Assert? && Agrees(st.env, c) && Fits(st.reported, n, p, under, c)
    ensures Found(st, Run(n, p, false, st), p, After(n, c, AsVisited), Violations(n, p, false, under, c, AsVisited))
    decreases n, 2
  {
    JudgeMatches(n, p, under, c, st);
    var t := Judge(n, p, st);
    var vs := if Reports(n.inner, under, c) then [p] else [];
    Matches(n.inner, p + [0], false, true, c, t);
    var ws := Violations(n.inner, p + [0], false, true, c, AsVisited);
    FoundAbove(t, Run(n, p, false, st), p, 0, After(n, c, AsVisited), ws);
    FoundThen(st, t, Run(n, p, false, st), p, c, After(n, c, AsVisited), vs, ws);
  }

  lemma {:induction false} FuncMatches(n: Node, p: Path, callback: bool, c: Scope, st: State)
    requires n.Func? && Agrees(st.env, c) && Unvisited(st.reported, p, 0)
    ensures Found(st, Run(n, p, callback, st), p, After(n, c, AsVisited), Violations(n, p, callback, false, c, AsVisited))
    decreases n, 2
  {
    var v, b := if callback then Client else No, if callback then ClientHere else Opaque;
    ParamsAgree(st.env, c, n.params, v, b);
    var inner := st.(env := SetParams(n.params, v, st.env));
    Child(n.body, p, 0, false, BindParams(n.params, b, c), inner);
  }

  lemma {:induction false} DeclaratorMatches(d: Declarator, isConst: bool, p: Path, k: nat, c: Scope, st: State)
    requires Agrees(st.env, c) && Unvisited(st.reported, p, k)
    ensures var t := RunDeclarator(d, isConst, p + [k], st);
            && Found(st, t, p, AfterDeclarator(d, isConst, c, AsVisited), ViolationsOf(d, p + [k], c, AsVisited))
            && Unvisited(t.reported, p, k + 1)
    decreases d, 1
  {
    if d.init.None? {
      TargetAgrees(st.env, c, d.target, Whole, No, Opaque);
    } else {
      var init := d.init.value;
      Child(init, p, k, false, c, st);
      var t, scope := Run(init, p + [k], false, st), After(init, c, AsVisited);
      AgreesLook(t.env, scope);
      SameProvenance(init, Get(t.env), Means(scope));
      var v := if isConst then ResultProvenance(init, Means(scope)) else No;
      TargetAgrees(t.env, scope, d.target, Whole, v, if isConst then Const(Whole, init, scope) else Opaque);
    }
  }

  lemma {:induction false} DeclaratorsMatch(ds: seq<Declarator>, isConst: bool, p: Path, k: nat, c: Scope, st: State)
    requires Agrees(st.env, c) && Unvisited(st.reported, p, k)
    ensures Found(st, RunDeclarators(ds, isConst, p, k, st), p, AfterDeclarators(ds, isConst, c, AsVisited),
                  ViolationsIn(ds, isConst, p, k, c, AsVisited))
    decreases ds, 0
  {
    if ds != [] {
      DeclaratorMatches(ds[0], isConst, p, k, c, st);
      var t, d := RunDeclarator(ds[0], isConst, p + [k], st), AfterDeclarator(ds[0], isConst, c, AsVisited);
      DeclaratorsMatch(ds[1..], isConst, p, k + 1, d, t);
      FoundThen(st, t, RunDeclarators(ds, isConst, p, k, st), p, d, AfterDeclarators(ds, isConst, c, AsVisited),
                ViolationsOf(ds[0], p + [k], c, AsVisited), ViolationsIn(ds[1..], isConst, p, k + 1, d, AsVisited));
    }
  }

  /** At every node: the map agrees with resolution in the visitor's scopes, and exactly the wrong assertions are found. */
  lemma {:induction false} Matches(n: Node, p: Path, callback: bool, under: bool, c: Scope, st: State)
    requires Agrees(st.env, c) && Fits(st.reported, n, p, under, c)
    ensures Found(st, Run(n, p, callback, st), p, After(n, c, AsVisited), Violations(n, p, callback, under, c, AsVisited))
    decreases n, 3
  {
    if n.Assert? {
      AssertMatches(n, p, under, c, st);
    } else if n.Wrap? {
      FitsWrapped(st.reported, n, p, under, c);
      Matches(n.inner, p + [0], false, under, c, st);
      FoundAbove(st, Run(n, p, callback, st), p, 0, After(n, c, AsVisited), Violations(n, p, callback, under, c, AsVisited));
    } else {
      FitsChildren(st.reported, n, p, under, c);
      PlainMatches(n, p, callback, c, st);
    }
  }

  lemma {:induction false} PlainMatches(n: Node, p: Path, callback: bool, c: Scope, st: State)
    requires !n.Wrap? && !n.Assert? && Agrees(st.env, c) && Unvisited(st.reported, p, 0)
    ensures Found(st, Run(n, p, callback, st), p, After(n, c, AsVisited), Violations(n, p, callback, false, c, AsVisited))
    decreases n, 3, 0
  {
    match n
    case Block(body) => Children(body, p, 0, c, st);
    case Import(defaults) => BindAllAgrees(st.env, c, defaults, Client, ClientHere);
    case Declare(isConst, ds) => DeclaratorsMatch(ds, isConst, p, 0, c, st);
    case Func(_, _, _, _) => FuncMatches(n, p, callback, c, st);
    case Class(_, parts) => Children(parts, p, 0, c, st);
    case Scoped(parts) => Children(parts, p, 0, c, st);
    case Bare(_, body) => Child(body, p, 0, false, c, st);
    case Call(_, _) => CallMatches(n, p, c, st);
    case Tagged(_, _) => TaggedMatches(n, p, c, st);
    case Member(_, _) => MemberMatches(n, p, c, st);
    case Array(elements) => Children(elements, p, 0, c, st);
    case Other(children) => Children(children, p, 0, c, st);
    case Ident(_) =>
  }

  /** The violations are exactly the assertions that resolution in the visitor's scopes calls wrong, in source order. */
  lemma FindsExactly(program: seq<Node>)
    ensures Run(Block(program), [], false, State(map[], {}, [])).found
         == Violations(Block(program), [], false, false, Empty, AsVisited)
  {
    var st := State(map[], {}, []);
    assert Agrees(st.env, Empty);
    Matches(Block(program), [], false, false, Empty, st);
    var vs := Violations(Block(program), [], false, false, Empty, AsVisited);
    assert [] + vs == vs;
  }

  // --------------------------------------------------- what resolution amounts to

  /** The nearest enclosing declaration of a name. */
  function Nearest(c: Scope, x: string): Option<Binding> {
    if c.Empty? then None else if c.name == x then Some(c.binding) else Nearest(c.outer, x)
  }

  /** `x` leads, through `hops` const aliases, to the whole of `Promise.all` over queries. */
  predicate LeadsToArray(c: Scope, x: string, hops: nat)
    decreases hops
  {
    var b := Nearest(c, x);
    && b.Some? && b.value.Const? && b.value.share == Whole
    && if hops == 0 then IsPromiseAll(b.value.init, Means(b.value.scope))
       else Unwrap(b.value.init).Ident? && LeadsToArray(b.value.scope, Unwrap(b.value.init).name, hops - 1)
  }

  /** `x` leads, through `hops` const aliases, to a query or to one element of such an array. */
  predicate LeadsToResult(c: Scope, x: string, hops: nat)
    decreases hops
  {
    var b := Nearest(c, x);
    && b.Some? && b.value.Const?
    && var init, scope := b.value.init, b.value.scope;
       match b.value.share
       case Nothing => false
       case Whole =>
         if hops == 0 then IsDelegateResult(init, Means(scope))
         else Unwrap(init).Ident? && LeadsToResult(scope, Unwrap(init).name, hops - 1)
       case Element =>
         if hops == 0 then IsPromiseAll(init, Means(scope))
         else Unwrap(init).Ident? && LeadsToArray(scope, Unwrap(init).name, hops - 1)
  }

  ghost predicate AliasesArray(c: Scope, x: string) { exists hops: nat :: LeadsToArray(c, x, hops) }

  ghost predicate AliasesResult(c: Scope, x: string) { exists hops: nat :: LeadsToResult(c, x, hops) }

  lemma {:induction false} MeaningIsNearest(c: Scope, x: string)
    ensures match Nearest(c, x)
            case None => Meaning(c, x) == No
            case Some(b) => Holds(b, Meaning(c, x))
    decreases c
  {
    if c.Bind? {
      if c.name != x {
        MeaningIsNearest(c.outer, x);
      } else if c.binding.Const? {
        SameProvenance(c.binding.init, Means(c.binding.scope), z => Meaning(c.binding.scope, z));
      }
    }
  }

  lemma {:induction false} NearestSmaller(c: Scope, x: string)
    requires Nearest(c, x).Some? && Nearest(c, x).value.Const?
    ensures Size(Nearest(c, x).value.scope) < Size(c)
    decreases c
  {
    if c.name != x { NearestSmaller(c.outer, x); }
  }

  function Size(c: Scope): nat {
    if c.Empty? then 0
    else 1 + Size(c.outer) + (if c.binding.Const? then Size(c.binding.scope) else 0)
  }

  lemma {:induction false} ArrayIffAliased(c: Scope, x: string)
    ensures Meaning(c, x) == ResultArray <==> AliasesArray(c, x)
    decreases Size(c)
  {
    MeaningIsNearest(c, x);
    var b := Nearest(c, x);
    if b.Some? && b.value.Const? && b.value.share == Whole {
      NearestSmaller(c, x);
      var init, scope := b.value.init, b.value.scope;
      if Unwrap(init).Ident? {
        ArrayIffAliased(scope, Unwrap(init).name);
        HopToArray(c, x, scope, Unwrap(init).name);
      } else if IsPromiseAll(init, Means(scope)) {
        PromiseAllIsNoQuery(init, Means(scope));
        assert LeadsToArray(c, x, 0);
      }
    }
  }

  lemma HopToArray(c: Scope, x: string, scope: Scope, y: string)
    requires var b := Nearest(c, x);
             && b.Some? && b.value.Const? && b.value.share == Whole && b.value.scope == scope
             && Unwrap(b.value.init) == Ident(y)
    ensures AliasesArray(c, x) <==> AliasesArray(scope, y)
  {
    if AliasesArray(scope, y) {
      var h: nat :| LeadsToArray(scope, y, h);
      assert LeadsToArray(c, x, h + 1);
    }
    if AliasesArray(c, x) {
      var h: nat :| LeadsToArray(c, x, h);
      assert LeadsToArray(scope, y, h - 1);
    }
  }

  /** `Promise` is not a model operation's receiver, so the two kinds of call never overlap. */
  lemma PromiseAllIsNoQuery(n: Node, look: Look)
    requires IsPromiseAll(n, look)
    ensures !IsDelegateResult(n, look) && !Unwrap(n).Ident?
  { }

  lemma HopToResult(c: Scope, x: string, scope: Scope, y: string)
    requires var b := Nearest(c, x);
             && b.Some? && b.value.Const? && b.value.share == Whole && b.value.scope == scope
             && Unwrap(b.value.init) == Ident(y)
    ensures AliasesResult(c, x) <==> AliasesResult(scope, y)
  {
    if AliasesResult(scope, y) {
      var h: nat :| LeadsToResult(scope, y, h);
      assert LeadsToResult(c, x, h + 1);
    }
    if AliasesResult(c, x) {
      var h: nat :| LeadsToResult(c, x, h);
      assert LeadsToResult(scope, y, h - 1);
    }
  }

  lemma HopToElement(c: Scope, x: string, scope: Scope, y: string)
    requires var b := Nearest(c, x);
             && b.Some? && b.value.Const? && b.value.share == Element && b.value.scope == scope
             && Unwrap(b.value.init) == Ident(y)
    ensures AliasesResult(c, x) <==> AliasesArray(scope, y)
  {
    if AliasesArray(scope, y) {
      var h: nat :| LeadsToArray(scope, y, h);
      assert LeadsToResult(c, x, h + 1);
    }
    if AliasesResult(c, x) {
      var h: nat :| LeadsToResult(c, x, h);
      assert LeadsToArray(scope, y, h - 1);
    }
  }

  /** A name holds a result if and only if it leads to a query through const aliases, however many. */
  lemma {:induction false} ResultIffAliased(c: Scope, x: string)
    ensures Meaning(c, x) == Result <==> AliasesResult(c, x)
    decreases Size(c)
  {
    MeaningIsNearest(c, x);
    var b := Nearest(c, x);
    if b.Some? && b.value.Const? {
      NearestSmaller(c, x);
      var init, scope := b.value.init, b.value.scope;
      if Unwrap(init).Ident? {
        var y := Unwrap(init).name;
        ResultIffAliased(scope, y);
        ArrayIffAliased(scope, y);
        if b.value.share == Whole { HopToResult(c, x, scope, y); }
        if b.value.share == Element { HopToElement(c, x, scope, y); }
      } else if LeadsToResult(c, x, 0) {
        if b.value.share == Element { PromiseAllIsNoQuery(init, Means(scope)); }
      } else {
        assert forall h: nat :: LeadsToResult(c, x, h) ==> h == 0;
      }
    }
  }

  /** An assertion on a name is reported if and only if the name leads to a query. */
  lemma NameReportedIff(x: string, p: Path, under: bool, c: Scope, r: Rules)
    ensures p in Violations(Assert(Ident(x)), p, false, under, c, r) <==> AliasesResult(c, x)
  {
    ResultIffAliased(c, x);
    assert Violations(Ident(x), p + [0], false, true, c, r) == [];
    assert !IsDelegateResult(Ident(x), Means(c));
  }

  function Asserted(n: nat, e: Node): Node { if n == 0 then e else Assert(Asserted(n - 1, e)) }

  lemma {:induction false} UnwrapAsserted(n: nat, e: Node)
    ensures Unwrap(Asserted(n, e)) == Unwrap(e)
  {
    if n > 0 { UnwrapAsserted(n - 1, e); }
  }

  /** Every one of several assertions on a result's name is reported. */
  lemma {:induction false} EachOnName(n: nat, x: string, p: Path, under: bool, c: Scope, r: Rules)
    requires Meaning(c, x) == Result
    ensures |Violations(Asserted(n, Ident(x)), p, false, under, c, r)| == n
    decreases n
  {
    if n > 0 {
      UnwrapAsserted(n - 1, Ident(x));
      EachOnName(n - 1, x, p + [0], true, c, r);
    }
  }

  /** Of several assertions on a query only the outermost is reported. */
  lemma {:induction false} OnceOnQuery(n: nat, query: Node, p: Path, under: bool, c: Scope, r: Rules)
    requires (query.Call? || query.Tagged?) && IsDelegateResult(query, Means(c))
    ensures |Violations(Asserted(n, query), p, false, under, c, r)|
         == |Violations(query, p + Zeros(n), false, n > 0 || under, c, r)| + if n > 0 && !under then 1 else 0
    decreases n
  {
    if n == 0 {
      assert p + Zeros(0) == p;
    } else {
      UnwrapAsserted(n - 1, query);
      OnceOnQuery(n - 1, query, p + [0], true, c, r);
      assert p + [0] + Zeros(n - 1) == p + Zeros(n);
    }
  }

}
