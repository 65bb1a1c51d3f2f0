/**
The Prisma cast policy (`scripts/check-prisma-query-cast-policy.ts`): a visitor that tracks
which names hold a Prisma client or a query result, and reports type assertions on results.

`Checker` is the visitor with its mutable maps and sets; `Run` specifies it. A node is
named by its path from the root, which stands for the source's object identity.
*/
module CastPolicy {
  import opened Common

  datatype Provenance = No | Client | Result | ResultArray

  datatype Pattern =
    | Name(name: string)
    | Inside(inner: Pattern)            // a default or a rest element
    | Elements(items: seq<Pattern>)     // an array pattern, holes left out
    | Properties(values: seq<Pattern>)
    | NoNames

  datatype Property = Named(name: string) | Computed(key: Node)

  /** The name of a function or class: none, one for its own inside, or a declared one. */
  datatype Naming = Unnamed | Inner(name: string) | Outer(name: string)

  datatype Declarator = Declarator(target: Pattern, init: Option<Node>)

  datatype Node =
    | Ident(name: string)
    | Member(owner: Node, property: Property)
    | Call(callee: Node, args: seq<Node>)
    | Tagged(tag: Node, parts: seq<Node>)
    | Wrap(inner: Node)                 // await, parentheses, `!`, satisfies, chains
    | Assert(inner: Node)               // `as T` and `<T>`
    | Array(elements: seq<Node>)
    | Func(naming: Naming, params: seq<Pattern>, missed: seq<Pattern>, body: Node)  // `missed`: parameter properties
    | Class(naming: Naming, parts: seq<Node>)  // also an enum, its members in a `Bare` part, and a namespace
    | Scoped(parts: seq<Node>)          // loops, `switch`, static blocks, namespaces
    | Bare(params: seq<Pattern>, body: Node)  // catch clauses, private methods
    | Block(statements: seq<Node>)
    | Import(defaults: seq<string>)     // default imports of the client package
    | Declare(isConst: bool, declarators: seq<Declarator>)
    | Other(children: seq<Node>)        // every other node: its children, in order

  type Path = seq<nat>
  type Look = string -> Provenance

  const MODEL_OPERATIONS: set<string> :=
    { "aggregate", "count", "create", "createMany", "createManyAndReturn", "delete", "deleteMany",
      "findFirst", "findFirstOrThrow", "findMany", "findUnique", "findUniqueOrThrow", "groupBy",
      "update", "updateMany", "updateManyAndReturn", "upsert" }

  const CLIENT_OPERATIONS: set<string> :=
    { "$executeRaw", "$executeRawUnsafe", "$queryRaw", "$queryRawUnsafe", "$transaction" }

  // ------------------------------------------------------------------ queries

  function Unwrap(n: Node): (r: Node)
    ensures !r.Wrap? && !r.Assert?
  {
    if n.Wrap? || n.Assert? then Unwrap(n.inner) else n
  }

  /** How many wrappers `Unwrap` takes off. */
  function Layers(n: Node): nat {
    if n.Wrap? || n.Assert? then 1 + Layers(n.inner) else 0
  }

  function Zeros(n: nat): Path { seq(n, _ => 0) }

  /** The path of `Unwrap(n)` when `n` is at `p`. */
  function Source(n: Node, p: Path): Path { p + Zeros(Layers(n)) }

  function MemberName(n: Node): Option<string> {
    if n.Member? && n.property.Named? then Some(n.property.name) else None
  }

  function NameIn(n: Node, look: Look): Provenance {
    if Unwrap(n).Ident? then look(Unwrap(n).name) else No
  }

  predicate IsClient(n: Node, look: Look) { NameIn(n, look) == Client }

  /** The operation called on a member, and the object it is called on. */
  function Callee(call: Node): Option<Node> {
    if call.Call? then Some(Unwrap(call.callee))
    else if call.Tagged? then Some(Unwrap(call.tag))
    else None
  }

  predicate IsDelegateResult(n: Node, look: Look) {
    var callee := Callee(Unwrap(n));
    && callee.Some? && MemberName(callee.value).Some?
    && var operation, receiver := MemberName(callee.value).value, callee.value.owner;
       if operation in CLIENT_OPERATIONS then IsClient(receiver, look)
       else operation in MODEL_OPERATIONS && Unwrap(receiver).Member? && IsClient(Unwrap(receiver).owner, look)
  }

  predicate IsResultValue(n: Node, look: Look) {
    IsDelegateResult(n, look) || NameIn(n, look) == Result
  }

  predicate IsPromiseAll(n: Node, look: Look) {
    var call := Unwrap(n);
    && call.Call?
    && var callee := Unwrap(call.callee);
       && callee.Member? && callee.owner == Ident("Promise") && MemberName(callee) == Some("all")
       && |call.args| > 0 && call.args[0].Array?
       && exists k :: 0 <= k < |call.args[0].elements| && IsResultValue(call.args[0].elements[k], look)
  }

  function ResultProvenance(n: Node, look: Look): Provenance {
    if IsClient(n, look) then Client
    else if IsDelegateResult(n, look) then Result
    else if IsPromiseAll(n, look) then ResultArray
    else NameIn(n, look)
  }

  predicate IsTransaction(n: Node, look: Look) {
    n.Call? && IsDelegateResult(n, look) && MemberName(Unwrap(n.callee)) == Some("$transaction")
  }

  // ----------------------------------------------------------------- patterns

  function Names(p: Pattern): seq<string>
    decreases p, 1
  {
    match p
    case Name(x) => [x]
    case Inside(inner) => Names(inner)
    case Elements(items) => NamesAll(items)
    case Properties(values) => NamesAll(values)
    case NoNames => []
  }

  function NamesAll(ps: seq<Pattern>): seq<string>
    decreases ps, 0
  {
    if ps == [] then [] else Names(ps[0]) + NamesAll(ps[1..])
  }

  function SetAll(names: seq<string>, v: Provenance, env: map<string, Provenance>): map<string, Provenance>
    decreases |names|
  {
    if names == [] then env else SetAll(names[1..], v, env[names[0] := v])
  }

  /** What the elements of an array pattern hold. */
  function ElementOf(v: Provenance): Provenance { if v == ResultArray then Result else No }

  function SetPattern(p: Pattern, v: Provenance, env: map<string, Provenance>): map<string, Provenance>
    decreases p, 1
  {
    match p
    case Name(x) => env[x := v]
    case Inside(inner) => SetPattern(inner, v, env)
    case Elements(items) => SetPatterns(items, ElementOf(v), env)
    case Properties(values) => SetAll(NamesAll(values), No, env)
    case NoNames => env
  }

  function SetPatterns(ps: seq<Pattern>, v: Provenance, env: map<string, Provenance>): map<string, Provenance>
    decreases ps, 0
  {
    if ps == [] then env else SetPatterns(ps[1..], v, SetPattern(ps[0], v, env))
  }

  /** Parameters shadow; the first one of a transaction callback is a client. */
  function SetParams(ps: seq<Pattern>, first: Provenance, env: map<string, Provenance>): map<string, Provenance>
    decreases ps
  {
    if ps == [] then env else SetParams(ps[1..], No, SetAll(Names(ps[0]), first, env))
  }

  // ---------------------------------------------------------------- the visit

  /** The environment, the source nodes reported, and the assertions found. */
  datatype State = State(env: map<string, Provenance>, reported: set<Path>, found: seq<Path>)

  function Get(env: map<string, Provenance>): Look { x => if x in env then env[x] else No }

  /** The node an assertion on `inner` is reported for. */
  function Reported(inner: Node, p: Path, look: Look): Option<Path> {
    if IsDelegateResult(inner, look) then Some(Source(inner, p))
    else if NameIn(inner, look) == Result then Some(p)
    else None
  }

  function Judge(n: Node, p: Path, st: State): State {
    if !n.Assert? then st
    else
      var source := Reported(n.inner, p + [0], Get(st.env));
      if source.Some? && source.value !in st.reported
      then st.(reported := st.reported + {source.value}, found := st.found + [p])
      else st
  }

  function Run(n: Node, p: Path, callback: bool, st: State): State
    decreases n, 3
  {
    match n
    case Block(body) => RunAll(body, p, 0, st).(env := st.env)
    case Import(defaults) => st.(env := SetAll(defaults, Client, st.env))
    case Declare(isConst, ds) => RunDeclarators(ds, isConst, p, 0, st)
    case Class(_, parts) => RunAll(parts, p, 0, st)
    case Scoped(parts) => RunAll(parts, p, 0, st)
    case Bare(_, body) => Run(body, p + [0], false, st)
    case Func(_, params, _, body) =>
      var inner := st.(env := SetParams(params, if callback then Client else No, st.env));
      Run(body, p + [0], false, inner).(env := st.env)
    case Call(callee, args) =>
      if IsTransaction(n, Get(st.env)) && args != [] then
        var s1 := Run(callee, p + [0], false, st);
        var s2 := Run(args[0], p + [1], args[0].Func?, s1);
        RunAll(args[1..], p, 2, s2)
      else
        RunAll(args, p, 1, Run(callee, p + [0], false, st))
    case Tagged(tag, parts) => RunAll(parts, p, 1, Run(tag, p + [0], false, st))
    case Member(owner, property) =>
      var s := Run(owner, p + [0], false, st);
      if property.Computed? then Run(property.key, p + [1], false, s) else s
    case Wrap(inner) => Run(inner, p + [0], false, st)
    case Assert(inner) => Run(inner, p + [0], false, Judge(n, p, st))
    case Array(elements) => RunAll(elements, p, 0, st)
    case Other(children) => RunAll(children, p, 0, st)
    case Ident(_) => st
  }

  /** Siblings in order, the first being child number `k` of `p`. */
  function RunAll(ns: seq<Node>, p: Path, k: nat, st: State): State
    decreases ns, 0
  {
    if ns == [] then st else RunAll(ns[1..], p, k + 1, Run(ns[0], p + [k], false, st))
  }

  function RunDeclarators(ds: seq<Declarator>, isConst: bool, p: Path, k: nat, st: State): State
    decreases ds, 0
  {
    if ds == [] then st
    else RunDeclarators(ds[1..], isConst, p, k + 1, RunDeclarator(ds[0], isConst, p + [k], st))
  }

  function RunDeclarator(d: Declarator, isConst: bool, p: Path, st: State): State
    decreases d, 1
  {
    if d.init.None? then st.(env := SetPattern(d.target, No, st.env))
    else
      var s := Run(d.init.value, p, false, st);
      var v := if isConst then ResultProvenance(d.init.value, Get(s.env)) else No;
      s.(env := SetPattern(d.target, v, s.env))
  }

  // ------------------------------------------------------- the running checker

  method UnwrapNode(n: Node) returns (r: Node)
    ensures r == Unwrap(n)
  {
    r := n;
    while r.Wrap? || r.Assert?
      invariant Unwrap(r) == Unwrap(n)
      decreases r
    {
      r := r.inner;
    }
  }

  class Environment {
    var bindings: map<string, Provenance>

    constructor (bindings: map<string, Provenance>)
      ensures this.bindings == bindings
    {
      this.bindings := bindings;
    }

    method Bind(names: seq<string>, v: Provenance)
      modifies this
      ensures bindings == SetAll(names, v, old(bindings))
    {
      for k := 0 to |names|
        invariant SetAll(names[k..], v, bindings) == SetAll(names, v, old(bindings))
      {
        bindings := bindings[names[k] := v];
        assert names[k..][1..] == names[k + 1..];
      }
    }

    /** `setBindingProvenance` */
    method BindPattern(p: Pattern, v: Provenance)
      modifies this
      ensures bindings == SetPattern(p, v, old(bindings))
      decreases p
    {
      match p {
        case Name(x) => bindings := bindings[x := v];
        case Inside(inner) => BindPattern(inner, v);
        case Elements(items) =>
          for k := 0 to |items|
            invariant SetPatterns(items[k..], ElementOf(v), bindings) == SetPatterns(items, ElementOf(v), old(bindings))
          {
            BindPattern(items[k], ElementOf(v));
            assert items[k..][1..] == items[k + 1..];
          }
        case Properties(values) => Bind(NamesAll(values), No);
        case NoNames =>
      }
    }

    method BindParams(ps: seq<Pattern>, callback: bool)
      modifies this
      ensures bindings == SetParams(ps, if callback then Client else No, old(bindings))
    {
      ghost var first := if callback then Client else No;
      for k := 0 to |ps|
        invariant SetParams(ps[k..], if k == 0 then first else No, bindings) == SetParams(ps, first, old(bindings))
      {
        Bind(Names(ps[k]), if callback && k == 0 then Client else No);
        assert ps[k..][1..] == ps[k + 1..];
      }
    }
  }

  /** `q` names `p` or a node below it. */
  predicate Below(p: Path, q: Path) { p <= q }

  /** None of `s` is at or below child `k` of `p` or a later child. */
  ghost predicate Unvisited(s: set<Path>, p: Path, k: nat) {
    forall q, j: nat :: q in s && j >= k ==> !Below(p + [j], q)
  }

  predicate NoneBelow(s: set<Path>, p: Path) { forall q :: q in s ==> !Below(p, q) }

  lemma ChildrenUnvisited(s: set<Path>, p: Path)
    requires NoneBelow(s, p)
    ensures Unvisited(s + {p}, p, 0)
  {
    forall q, j: nat | q in s + {p} ensures !Below(p + [j], q) {
      assert Below(p + [j], q) ==> Below(p, q);
    }
  }

  lemma OneChild(p: Path, j: nat, k: nat, q: Path)
    requires j != k
    ensures !(Below(p + [j], q) && Below(p + [k], q))
  {
    if |q| > |p| {
      assert Below(p + [j], q) ==> q[|p|] == j;
    }
  }

  /** Visiting child `k` touches no later child. */
  lemma LaterUnvisited(s: set<Path>, t: set<Path>, p: Path, k: nat)
    requires Unvisited(s, p, k) && forall q :: q in t ==> q in s || Below(p + [k], q)
    ensures Unvisited(t, p, k + 1)
  {
    forall q, j: nat | q in t && j >= k + 1 ensures !Below(p + [j], q) {
      OneChild(p, j, k, q);
    }
  }

  class Checker {
    /** The nodes visited; a tree never leads to one twice. */
    var seen: set<Path>
    var reported: set<Path>
    var found: seq<Path>

    constructor ()
      ensures seen == {} && reported == {} && found == []
    {
      seen, reported, found := {}, {}, [];
    }

    function Value(env: Environment): State
      reads this, env
    {
      State(env.bindings, reported, found)
    }

    method Examine(n: Node, p: Path, env: Environment)
      modifies this
      ensures Value(env) == Judge(n, p, old(Value(env))) && seen == old(seen)
    {
      if n.Assert? {
        var look := Get(env.bindings);
        var source := if IsDelegateResult(n.inner, look) then Some(Source(n.inner, p + [0]))
                      else if NameIn(n.inner, look) == Result then Some(p + [0])
                      else None;
        if source.Some? && source.value !in reported {
          reported := reported + {source.value};
          found := found + [p];
        }
      }
    }

    method Visit(n: Node, p: Path, env: Environment, callback: bool)
      requires NoneBelow(seen, p)
      modifies this, env
      ensures Value(env) == Run(n, p, callback, old(Value(env)))
      ensures forall q :: q in seen ==> q in old(seen) || Below(p, q)
      decreases n, 3
    {
      ChildrenUnvisited(seen, p);
      seen := seen + {p};
      match n {
        case Block(statements) =>
          var scoped := new Environment(env.bindings);
          VisitAll(statements, p, 0, scoped);
        case Import(defaults) => env.Bind(defaults, Client);
        case Declare(isConst, ds) => VisitDeclarators(ds, isConst, p, env);
        case Func(_, params, _, body) =>
          var scoped := new Environment(env.bindings);
          scoped.BindParams(params, callback);
          VisitChild(body, p, 0, scoped, false);
        case Call(callee, args) => VisitCall(n, p, env);
        case Assert(inner) =>
          Examine(n, p, env);
          VisitChild(inner, p, 0, env, false);
        case _ => VisitChildren(n, p, env);
      }
    }

    /** Every other node: its children, in order. */
    method VisitChildren(n: Node, p: Path, env: Environment)
      requires !n.Block? && !n.Import? && !n.Declare? && !n.Func? && !n.Call? && !n.Assert? && Unvisited(seen, p, 0)
      modifies this, env
      ensures Value(env) == Run(n, p, false, old(Value(env)))
      ensures forall q :: q in seen ==> q in old(seen) || Below(p, q)
      decreases n, 2
    {
      match n {
        case Class(_, parts) => VisitAll(parts, p, 0, env);
        case Scoped(parts) => VisitAll(parts, p, 0, env);
        case Bare(_, body) => VisitChild(body, p, 0, env, false);
        case Tagged(tag, parts) =>
          VisitChild(tag, p, 0, env, false);
          VisitAll(parts, p, 1, env);
        case Member(owner, property) =>
          VisitChild(owner, p, 0, env, false);
          if property.Computed? {
            VisitChild(property.key, p, 1, env, false);
          }
        case Wrap(inner) => VisitChild(inner, p, 0, env, false);
        case Array(elements) => VisitAll(elements, p, 0, env);
        case Other(children) => VisitAll(children, p, 0, env);
        case Ident(_) =>
      }
    }

    method VisitChild(n: Node, p: Path, k: nat, env: Environment, callback: bool)
      requires Unvisited(seen, p, k)
      modifies this, env
      ensures Value(env) == Run(n, p + [k], callback, old(Value(env)))
      ensures forall q :: q in seen ==> q in old(seen) || Below(p, q)
      ensures Unvisited(seen, p, k + 1)
      decreases n, 4
    {
      Visit(n, p + [k], env, callback);
      LaterUnvisited(old(seen), seen, p, k);
    }

    method VisitCall(n: Node, p: Path, env: Environment)
      requires n.Call? && Unvisited(seen, p, 0)
      modifies this, env
      ensures Value(env) == Run(n, p, false, old(Value(env)))
      ensures forall q :: q in seen ==> q in old(seen) || Below(p, q)
      decreases n, 2
    {
      var transaction := IsTransaction(n, Get(env.bindings));
      VisitChild(n.callee, p, 0, env, false);
      if transaction && n.args != [] {
        VisitChild(n.args[0], p, 1, env, n.args[0].Func?);
        VisitAll(n.args[1..], p, 2, env);
      } else {
        VisitAll(n.args, p, 1, env);
      }
    }

    method VisitAll(ns: seq<Node>, p: Path, from: nat, env: Environment)
      requires Unvisited(seen, p, from)
      modifies this, env
      ensures Value(env) == RunAll(ns, p, from, old(Value(env)))
      ensures forall q :: q in seen ==> q in old(seen) || Below(p, q)
      decreases ns, 0
    {
      for k := 0 to |ns|
        invariant RunAll(ns[k..], p, from + k, Value(env)) == RunAll(ns, p, from, old(Value(env)))
        invariant Unvisited(seen, p, from + k)
        invariant forall q :: q in seen ==> q in old(seen) || Below(p, q)
      {
        VisitChild(ns[k], p, from + k, env, false);
        assert ns[k..][1..] == ns[k + 1..];
      }
    }

    method VisitDeclarators(ds: seq<Declarator>, isConst: bool, p: Path, env: Environment)
      requires Unvisited(seen, p, 0)
      modifies this, env
      ensures Value(env) == RunDeclarators(ds, isConst, p, 0, old(Value(env)))
      ensures forall q :: q in seen ==> q in old(seen) || Below(p, q)
      decreases ds, 0
    {
      for k := 0 to |ds|
        invariant RunDeclarators(ds[k..], isConst, p, k, Value(env)) == RunDeclarators(ds, isConst, p, 0, old(Value(env)))
        invariant Unvisited(seen, p, k)
        invariant forall q :: q in seen ==> q in old(seen) || Below(p, q)
      {
        VisitDeclarator(ds[k], isConst, p, k, env);
        assert ds[k..][1..] == ds[k + 1..];
      }
    }

    method VisitDeclarator(d: Declarator, isConst: bool, p: Path, k: nat, env: Environment)
      requires Unvisited(seen, p, k)
      modifies this, env
      ensures Value(env) == RunDeclarator(d, isConst, p + [k], old(Value(env)))
      ensures forall q :: q in seen ==> q in old(seen) || Below(p, q)
      ensures Unvisited(seen, p, k + 1)
      decreases d, 1
    {
      var v := No;
      if d.init.Some? {
        VisitChild(d.init.value, p, k, env, false);
        v := if isConst then ResultProvenance(d.init.value, Get(env.bindings)) else No;
      }
      env.BindPattern(d.target, v);
    }
  }

  /** `findViolations` on a parsed program. */
  method FindViolations(program: seq<Node>) returns (found: seq<Path>)
    ensures found == Run(Block(program), [], false, State(map[], {}, [])).found
  {
    var checker := new Checker();
    var env := new Environment(map[]);
    checker.Visit(Block(program), [], env, false);
    found := checker.found;
  }
}
