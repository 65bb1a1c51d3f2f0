/**
Programs on which the cast policy and the language's scoping differ: a loop head that hides a
query after the loop, and a catch parameter and a parameter property taken for a query.
*/
module CastLeaks {
  import opened Common
  import opened CastPolicy
  import opened CastReference
  import opened CastNames
  import opened CastLexical

  // ------------------------------------------------------------- short programs

  lemma OneNode(n: Node, p: Path, k: nat, c: Scope, r: Rules)
    ensures ViolationsAll([n], p, k, c, r) == Violations(n, p + [k], false, false, c, r)
    ensures AfterAll([n], c, r) == After(n, c, r)
  {
    assert [n][1..] == [];
  }

  lemma TwoNodes(a: Node, b: Node, p: Path, k: nat, c: Scope, r: Rules)
    ensures ViolationsAll([a, b], p, k, c, r)
         == Violations(a, p + [k], false, false, c, r) + Violations(b, p + [k + 1], false, false, After(a, c, r), r)
    ensures AfterAll([a, b], c, r) == After(b, After(a, c, r), r)
  {
    assert [a, b][1..] == [b];
    OneNode(b, p, k + 1, After(a, c, r), r);
  }

  lemma OneConst(x: string, init: Option<Node>, p: Path, c: Scope, r: Rules)
    ensures var n, d := Declare(true, [Declarator(Name(x), init)]), Declarator(Name(x), init);
            && After(n, c, r) == AfterDeclarator(d, true, c, r)
            && Violations(n, p, false, false, c, r) == ViolationsOf(d, p + [0], c, r)
  {
    var d := Declarator(Name(x), init);
    assert [d][1..] == [];
    var after := AfterDeclarator(d, true, c, r);
    assert AfterDeclarators([], true, after, r) == after && ViolationsIn([], true, p, 1, after, r) == [];
    assert ViolationsOf(d, p + [0], c, r) + [] == ViolationsOf(d, p + [0], c, r);
  }

  /** `x as T` is reported exactly when `x` holds a result. */
  lemma CastOfName(x: string, p: Path, c: Scope, r: Rules)
    ensures Violations(Assert(Ident(x)), p, false, false, c, r) == if Meaning(c, x) == Result then [p] else []
  {
    assert Violations(Ident(x), p + [0], false, true, c, r) == [];
    assert !IsDelegateResult(Ident(x), Means(c));
  }

  lemma {:induction false} ViolationsConcat(a: seq<Node>, b: seq<Node>, p: Path, k: nat, c: Scope, r: Rules)
    ensures ViolationsAll(a + b, p, k, c, r)
         == ViolationsAll(a, p, k, c, r) + ViolationsAll(b, p, k + |a|, AfterAll(a, c, r), r)
    decreases |a|
  {
    if a == [] {
      assert a + b == b;
    } else {
      assert (a + b)[1..] == a[1..] + b;
      ViolationsConcat(a[1..], b, p, k + 1, After(a[0], c, r), r);
    }
  }

  // ------------------------------------------------------------ a query by name

  /** `await db.user.findFirst()` */
  const QUERY: Node := Wrap(Call(Member(Member(Ident("db"), Named("user")), Named("findFirst")), []))

  /** A client import and `const row = await db.user.findFirst()`. */
  const START: seq<Node> := [Import(["db"]), Declare(true, [Declarator(Name("row"), Some(QUERY))])]

  const DB: Scope := Bind("db", ClientHere, Empty)
  const ROW: Scope := Bind("row", Const(Whole, QUERY, DB), DB)

  lemma QueryIsResult()
    ensures Meaning(ROW, "row") == Result && Meaning(DB, "db") == Client
  {
    var look: Look := z => Meaning(DB, z);
    assert look("db") == Client;
    assert Unwrap(QUERY) == QUERY.inner && IsDelegateResult(QUERY, look);
    assert !IsClient(QUERY, look);
  }

  lemma QueryIsQuiet(p: Path, c: Scope, r: Rules)
    ensures Violations(QUERY, p, false, false, c, r) == [] && After(QUERY, c, r) == c
  {
    var callee := QUERY.inner.callee;
    assert Violations(callee.owner, p + [0] + [0] + [0], false, false, c, r) == [];
    assert Violations(callee, p + [0] + [0], false, false, c, r) == [];
    assert After(callee.owner, c, r) == c && After(callee, c, r) == c;
  }

  lemma StartsWithRow(r: Rules)
    ensures AfterAll(START, Empty, r) == ROW && ViolationsAll(START, [], 0, Empty, r) == []
  {
    TwoNodes(START[0], START[1], [], 0, Empty, r);
    assert ["db"][1..] == [] && After(START[0], Empty, r) == DB;
    OneConst("row", Some(QUERY), [] + [1], DB, r);
    QueryIsQuiet([] + [1] + [0], DB, r);
  }

  lemma WithRow(rest: seq<Node>, r: Rules)
    ensures Violations(Block(START + rest), [], false, false, Empty, r) == ViolationsAll(rest, [], 2, ROW, r)
  {
    StartsWithRow(r);
    ViolationsConcat(START, rest, [], 0, Empty, r);
  }

  // ------------------------------------------------------- programs judged wrongly

  const CAST: Node := Assert(Ident("row"))

  /** `for (const row of …) {}` */
  const LOOP: Node := Scoped([Declare(true, [Declarator(Name("row"), None)]), Block([])])

  lemma LoopScope(r: Rules)
    ensures After(LOOP, ROW, r) == if r.Lexical? then ROW else Bind("row", Opaque, ROW)
    ensures Violations(LOOP, [2], false, false, ROW, r) == []
  {
    TwoNodes(LOOP.parts[0], Block([]), [2], 0, ROW, r);
    OneConst("row", None, [2] + [0], ROW, r);
  }

  lemma AfterLoop(r: Rules)
    ensures Violations(Block(START + [LOOP, CAST]), [], false, false, Empty, r) == if r.Lexical? then [[3]] else []
  {
    WithRow([LOOP, CAST], r);
    TwoNodes(LOOP, CAST, [], 2, ROW, r);
    LoopScope(r);
    QueryIsResult();
    assert [] + [2] == [2] && [] + [3] == [3];
    CastOfName("row", [3], After(LOOP, ROW, r), r);
  }

  /** A name declared in a loop head hides the query after the loop: `row as T` is missed there. */
  lemma LoopHeadLeaks()
    ensures Run(Block(START + [LOOP, CAST]), [], false, State(map[], {}, [])).found == []
    ensures Violations(Block(START + [LOOP, CAST]), [], false, false, Empty, Lexical) == [[3]]
    ensures !Clean(Block(START + [LOOP, CAST]), {})
  {
    if Clean(Block(START + [LOOP, CAST]), {}) { CleanIsExact(START + [LOOP, CAST]); }
    FindsExactly(START + [LOOP, CAST]);
    AfterLoop(AsVisited);
    AfterLoop(Lexical);
  }

  /** `catch (row) { row as T }` */
  const HANDLER: Node := Bare([Name("row")], Block([CAST]))

  lemma HandlerScope()
    ensures BindParams([Name("row")], Opaque, ROW) == Bind("row", Opaque, ROW)
  {
    assert [Name("row")][1..] == [] && ["row"][1..] == [];
  }

  lemma BlockOfOne(n: Node, p: Path, c: Scope, r: Rules)
    ensures Violations(Block([n]), p, false, false, c, r) == Violations(n, p + [0], false, false, c, r)
  {
    OneNode(n, p, 0, c, r);
  }

  lemma HandlerReports(p: Path, inner: Scope, r: Rules)
    requires inner == if r.Lexical? then Bind("row", Opaque, ROW) else ROW
    ensures Violations(HANDLER, p, false, false, ROW, r) == Violations(CAST, p + [0] + [0], false, false, inner, r)
  {
    HandlerScope();
    assert Violations(HANDLER, p, false, false, ROW, r) == Violations(HANDLER.body, p + [0], false, false, inner, r);
    BlockOfOne(CAST, p + [0], inner, r);
  }

  lemma InHandler(r: Rules)
    ensures Violations(Block(START + [HANDLER]), [], false, false, Empty, r) == if r.Lexical? then [] else [[2, 0, 0]]
  {
    WithRow([HANDLER], r);
    OneNode(HANDLER, [], 2, ROW, r);
    assert [] + [2] == [2] && [2] + [0] + [0] == [2, 0, 0];
    var inner := if r.Lexical? then Bind("row", Opaque, ROW) else ROW;
    HandlerReports([2], inner, r);
    QueryIsResult();
    CastOfName("row", [2, 0, 0], inner, r);
  }

  /** `constructor(readonly row: T) { row as T }` */
  const CONSTRUCTOR: Node := Func(Unnamed, [NoNames], [Name("row")], Block([CAST]))

  lemma ConstructorReports(p: Path, inner: Scope, r: Rules)
    requires inner == if r.Lexical? then Bind("row", Opaque, ROW) else ROW
    ensures Violations(CONSTRUCTOR, p, false, false, ROW, r) == Violations(CAST, p + [0] + [0], false, false, inner, r)
  {
    HandlerScope();
    var scope := WithMissed(Unnamed, [Name("row")], ROW, r);
    assert scope == inner;
    assert [NoNames][1..] == [] && BindParams([NoNames], Opaque, inner) == inner;
    assert Violations(CONSTRUCTOR, p, false, false, ROW, r) == Violations(CONSTRUCTOR.body, p + [0], false, false, inner, r);
    BlockOfOne(CAST, p + [0], inner, r);
  }

  lemma InConstructor(r: Rules)
    ensures Violations(Block(START + [CONSTRUCTOR]), [], false, false, Empty, r) == if r.Lexical? then [] else [[2, 0, 0]]
  {
    WithRow([CONSTRUCTOR], r);
    OneNode(CONSTRUCTOR, [], 2, ROW, r);
    assert [] + [2] == [2] && [2] + [0] + [0] == [2, 0, 0];
    var inner := if r.Lexical? then Bind("row", Opaque, ROW) else ROW;
    ConstructorReports([2], inner, r);
    QueryIsResult();
    CastOfName("row", [2, 0, 0], inner, r);
  }

  /** A parameter property is not bound either. */
  lemma ParameterPropertyIsMissed()
    ensures Run(Block(START + [CONSTRUCTOR]), [], false, State(map[], {}, [])).found == [[2, 0, 0]]
    ensures Violations(Block(START + [CONSTRUCTOR]), [], false, false, Empty, Lexical) == []
    ensures !Clean(Block(START + [CONSTRUCTOR]), {})
  {
    if Clean(Block(START + [CONSTRUCTOR]), {}) { CleanIsExact(START + [CONSTRUCTOR]); }
    FindsExactly(START + [CONSTRUCTOR]);
    InConstructor(AsVisited);
    InConstructor(Lexical);
  }

  /** A catch parameter is not bound: the assertion on it is reported for the query outside. */
  lemma CatchParameterIsMissed()
    ensures Run(Block(START + [HANDLER]), [], false, State(map[], {}, [])).found == [[2, 0, 0]]
    ensures Violations(Block(START + [HANDLER]), [], false, false, Empty, Lexical) == []
    ensures !Clean(Block(START + [HANDLER]), {})
  {
    if Clean(Block(START + [HANDLER]), {}) { CleanIsExact(START + [HANDLER]); }
    FindsExactly(START + [HANDLER]);
    InHandler(AsVisited);
    InHandler(Lexical);
  }
}
