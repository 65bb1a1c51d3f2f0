/**
What counts as a Prisma query, said of the tree as it is written and with the operations by
name, and the programs in which an assertion on one is reported.
*/
module CastQueries {
  import opened Common
  import opened CastPolicy
  import opened CastReference
  import opened CastNames
  import opened CastLexical

  // ------------------------------------------------------------ under any wrappers

  /** `n` is `base` with any awaits, parentheses, assertions and the like around it. */
  predicate Around(n: Node, base: Node) {
    n == base || ((n.Wrap? || n.Assert?) && Around(n.inner, base))
  }

  lemma {:induction false} AroundIsUnwrap(n: Node, base: Node)
    requires !base.Wrap? && !base.Assert?
    ensures Around(n, base) <==> Unwrap(n) == base
    decreases n
  {
    if n.Wrap? || n.Assert? { AroundIsUnwrap(n.inner, base); }
  }

  lemma {:induction false} AroundUnwrapped(n: Node)
    ensures Around(n, Unwrap(n))
    decreases n
  {
    if n.Wrap? || n.Assert? { AroundUnwrapped(n.inner); }
  }

  // --------------------------------------------------------------------- queries

  predicate RawOperation(name: string) {
    || name == "$executeRaw" || name == "$executeRawUnsafe" || name == "$queryRaw" || name == "$queryRawUnsafe"
    || name == "$transaction"
  }

  predicate ModelOperation(name: string) {
    || name == "aggregate" || name == "count" || name == "create" || name == "createMany" || name == "createManyAndReturn"
    || name == "delete" || name == "deleteMany" || name == "findFirst" || name == "findFirstOrThrow" || name == "findMany"
    || name == "findUnique" || name == "findUniqueOrThrow" || name == "groupBy" || name == "update" || name == "updateMany"
    || name == "updateManyAndReturn" || name == "upsert"
  }

  lemma OperationNames(name: string)
    ensures RawOperation(name) <==> name in CLIENT_OPERATIONS
    ensures ModelOperation(name) <==> name in MODEL_OPERATIONS
    ensures !(RawOperation(name) && ModelOperation(name))
  {
  }

  /** A name that holds a client, under any wrappers. */
  predicate OnClient(n: Node, x: string, look: Look) { Around(n, Ident(x)) && look(x) == Client }

  /** A member of a client: a model's delegate. */
  predicate OnDelegate(n: Node, owner: Node, property: Property, x: string, look: Look) {
    Around(n, Member(owner, property)) && OnClient(owner, x, look)
  }

  ghost predicate OnSomeClient(n: Node, look: Look) { exists x :: OnClient(n, x, look) }

  ghost predicate OnSomeDelegate(n: Node, look: Look) {
    exists owner, property, x :: OnDelegate(n, owner, property, x, look)
  }

  /** An operation called, or used as a template tag, on what `receiver` is. */
  predicate Operates(n: Node, call: Node, operation: string, receiver: Node) {
    && Around(n, call)
    && ((call.Call? && Around(call.callee, Member(receiver, Named(operation))))
        || (call.Tagged? && Around(call.tag, Member(receiver, Named(operation)))))
  }

  /** A raw operation on a client, or a model operation on a delegate of one. */
  ghost predicate IsQuery(n: Node, look: Look) {
    exists call, operation, receiver :: Operates(n, call, operation, receiver)
      && ((RawOperation(operation) && OnSomeClient(receiver, look)) || (ModelOperation(operation) && OnSomeDelegate(receiver, look)))
  }

  lemma ClientIff(n: Node, look: Look)
    ensures IsClient(n, look) <==> OnSomeClient(n, look)
  {
    if IsClient(n, look) {
      AroundUnwrapped(n);
      assert OnClient(n, Unwrap(n).name, look);
    }
    if x :| OnClient(n, x, look) { AroundIsUnwrap(n, Ident(x)); }
  }

  lemma DelegateIff(n: Node, look: Look)
    ensures Unwrap(n).Member? && IsClient(Unwrap(n).owner, look) <==> OnSomeDelegate(n, look)
  {
    if Unwrap(n).Member? && IsClient(Unwrap(n).owner, look) {
      AroundUnwrapped(n);
      ClientIff(Unwrap(n).owner, look);
      var x :| OnClient(Unwrap(n).owner, x, look);
      assert OnDelegate(n, Unwrap(n).owner, Unwrap(n).property, x, look);
    }
    if owner, property, x :| OnDelegate(n, owner, property, x, look) {
      AroundIsUnwrap(n, Member(owner, property));
      ClientIff(owner, look);
    }
  }

  lemma OperatesIff(n: Node, call: Node, operation: string, receiver: Node)
    ensures Operates(n, call, operation, receiver)
       <==> call == Unwrap(n) && Callee(call) == Some(Member(receiver, Named(operation)))
  {
    if call.Call? || call.Tagged? {
      AroundIsUnwrap(n, call);
      AroundIsUnwrap(if call.Call? then call.callee else call.tag, Member(receiver, Named(operation)));
    }
  }

  /** The checker takes an expression for a query exactly when it is one as written. */
  lemma QueryIff(n: Node, look: Look)
    ensures IsDelegateResult(n, look) <==> IsQuery(n, look)
  {
    if IsDelegateResult(n, look) {
      var callee := Callee(Unwrap(n)).value;
      var operation, receiver := MemberName(callee).value, callee.owner;
      OperatesIff(n, Unwrap(n), operation, receiver);
      OperationNames(operation);
      ClientIff(receiver, look);
      DelegateIff(receiver, look);
      assert Operates(n, Unwrap(n), operation, receiver);
    }
    if IsQuery(n, look) { QueryIsResult(n, look); }
  }

  lemma QueryIsResult(n: Node, look: Look)
    requires IsQuery(n, look)
    ensures IsDelegateResult(n, look)
  {
    var call, operation, receiver :| Operates(n, call, operation, receiver)
      && ((RawOperation(operation) && OnSomeClient(receiver, look)) || (ModelOperation(operation) && OnSomeDelegate(receiver, look)));
    OperatesIff(n, call, operation, receiver);
    OperationNames(operation);
    ClientIff(receiver, look);
    DelegateIff(receiver, look);
  }

  /** The callbacks that get a client are exactly those of `$transaction` calls on one. */
  lemma TransactionIff(n: Node, look: Look)
    ensures IsTransaction(n, look)
       <==> n.Call? && exists receiver :: Around(n.callee, Member(receiver, Named("$transaction"))) && OnSomeClient(receiver, look)
  {
    if IsTransaction(n, look) {
      var receiver := Unwrap(n.callee).owner;
      AroundIsUnwrap(n.callee, Member(receiver, Named("$transaction")));
      ClientIff(receiver, look);
    }
    if n.Call? && exists receiver :: Around(n.callee, Member(receiver, Named("$transaction"))) && OnSomeClient(receiver, look) {
      var receiver :| Around(n.callee, Member(receiver, Named("$transaction"))) && OnSomeClient(receiver, look);
      AroundIsUnwrap(n.callee, Member(receiver, Named("$transaction")));
      ClientIff(receiver, look);
      OperationNames("$transaction");
    }
  }

  // ----------------------------------------------------------------- Promise.all

  /** The call of `Promise.all` on an array literal, under any wrappers. */
  predicate AllOf(n: Node, callee: Node, elements: seq<Node>, rest: seq<Node>) {
    Around(n, Call(callee, [Array(elements)] + rest)) && Around(callee, Member(Ident("Promise"), Named("all")))
  }

  /** Some element, whichever, is a query or a name that holds a result. */
  ghost predicate SomeResult(elements: seq<Node>, look: Look) {
    exists k :: 0 <= k < |elements| && (IsQuery(elements[k], look) || NameIn(elements[k], look) == Result)
  }

  /** It is an array of results exactly when some element, whichever, is a query or a name that holds a result. */
  lemma PromiseAllIff(n: Node, look: Look)
    ensures IsPromiseAll(n, look)
       <==> exists callee, elements, rest :: AllOf(n, callee, elements, rest) && SomeResult(elements, look)
  {
    if IsPromiseAll(n, look) {
      var call := Unwrap(n);
      var elements, rest := call.args[0].elements, call.args[1..];
      assert [Array(elements)] + rest == call.args;
      AroundUnwrapped(n);
      AroundIsUnwrap(call.callee, Member(Ident("Promise"), Named("all")));
      assert AllOf(n, call.callee, elements, rest);
      var k :| 0 <= k < |elements| && IsResultValue(elements[k], look);
      QueryIff(elements[k], look);
    }
    if callee, elements, rest :| AllOf(n, callee, elements, rest) && SomeResult(elements, look) {
      AroundIsUnwrap(n, Call(callee, [Array(elements)] + rest));
      AroundIsUnwrap(callee, Member(Ident("Promise"), Named("all")));
      var k :| 0 <= k < |elements| && (IsQuery(elements[k], look) || NameIn(elements[k], look) == Result);
      QueryIff(elements[k], look);
      assert IsResultValue(elements[k], look);
    }
  }

  // ------------------------------------------------------------ what a name holds

  /** A const holds what its initializer is, and any other declaration nothing. */
  lemma DeclaredHolds(x: string, init: Node, isConst: bool, c: Scope, r: Rules)
    ensures Meaning(AfterDeclarator(Declarator(Name(x), Some(init)), isConst, c, r), x)
         == if isConst then ResultProvenance(init, Means(After(init, c, r))) else No
  {
    var scope := After(init, c, r);
    MeaningOfBound(x, if isConst then Const(Whole, init, scope) else Opaque, scope, x);
  }

  /** An element of an array pattern holds a result when the initializer is an array of them. */
  lemma ElementHolds(x: string, before: seq<Pattern>, init: Node, c: Scope, r: Rules)
    requires IsPromiseAll(init, Means(After(init, c, r)))
    ensures Meaning(AfterDeclarator(Declarator(Elements(before + [Name(x)]), Some(init)), true, c, r), x) == Result
  {
    var scope := After(init, c, r);
    var b := Const(Whole, init, scope);
    LastTarget(before, x, Element, b, scope);
    MeaningOfBound(x, b.(share := Element), BindTargets(before, Element, b, scope), x);
    PromiseAllIsNoQuery(init, Means(scope));
  }

  lemma {:induction false} LastTarget(before: seq<Pattern>, x: string, share: Share, b: Binding, c: Scope)
    ensures BindTargets(before + [Name(x)], share, b, c) == Bind(x, Shared(b, share), BindTargets(before, share, b, c))
    decreases |before|
  {
    if before == [] {
      assert before + [Name(x)] == [Name(x)] && [Name(x)][1..] == [];
    } else {
      assert (before + [Name(x)])[1..] == before[1..] + [Name(x)];
      LastTarget(before[1..], x, share, b, BindTarget(before[0], share, b, c));
    }
  }

  // -------------------------------------------------------------- whole programs

  predicate Reported(program: seq<Node>, p: Path) {
    p in Run(Block(program), [], false, CastPolicy.State(map[], {}, [])).found
  }

  function WithClient(x: string): Scope { Bind(x, ClientHere, Empty) }

  lemma BindsOne(x: string, b: Binding, c: Scope)
    ensures BindAll([x], b, c) == Bind(x, b, c)
  {
    assert [x][1..] == [];
    assert BindAll([], b, Bind(x, b, c)) == Bind(x, b, c);
  }

  /** The reports of a program are those of its statements in order. */
  lemma FirstStatement(n: Node, rest: seq<Node>, k: nat, c: Scope)
    ensures ViolationsAll([n] + rest, [], k, c, AsVisited)
         == Violations(n, [k], false, false, c, AsVisited) + ViolationsAll(rest, [], k + 1, After(n, c, AsVisited), AsVisited)
  {
    assert ([n] + rest)[1..] == rest && [] + [k] == [k];
  }

  /** The reports of a statement after a client import are among the program's. */
  lemma SecondStatement(x: string, n: Node, rest: seq<Node>, p: Path)
    requires p in Violations(n, [1], false, false, WithClient(x), AsVisited)
    ensures Reported([Import([x]), n] + rest, p)
  {
    var program := [Import([x]), n] + rest;
    BindsOne(x, ClientHere, Empty);
    FindsExactly(program);
    assert program == [Import([x])] + ([n] + rest);
    FirstStatement(Import([x]), [n] + rest, 0, Empty);
    FirstStatement(n, rest, 1, WithClient(x));
  }

  /** The same for the statement after the next. */
  lemma ThirdStatement(x: string, n: Node, m: Node, rest: seq<Node>, c: Scope, p: Path)
    requires c == After(n, WithClient(x), AsVisited) && p in Violations(m, [2], false, false, c, AsVisited)
    ensures Reported([Import([x]), n, m] + rest, p)
  {
    var program := [Import([x]), n, m] + rest;
    BindsOne(x, ClientHere, Empty);
    FindsExactly(program);
    assert program == [Import([x])] + ([n] + ([m] + rest));
    FirstStatement(Import([x]), [n] + ([m] + rest), 0, Empty);
    FirstStatement(n, [m] + rest, 1, WithClient(x));
    FirstStatement(m, rest, 2, c);
  }

  /** Every assertion on a query over an imported client is reported, whatever surrounds the query. */
  lemma QueryReported(x: string, n: Node, rest: seq<Node>)
    requires IsQuery(n, Means(WithClient(x)))
    ensures Reported([Import([x]), Assert(n)] + rest, [1])
  {
    QueryIff(n, Means(WithClient(x)));
    SecondStatement(x, Assert(n), rest, [1]);
  }

  /** A transaction on the client, with a callback. */
  function Transaction(x: string, tx: string, params: seq<Pattern>, body: Node): Node {
    Call(Member(Ident(x), Named("$transaction")), [Func(Unnamed, [Name(tx)] + params, [], body)])
  }

  lemma IsTransactionCall(x: string, tx: string, params: seq<Pattern>, body: Node)
    ensures IsTransaction(Transaction(x, tx, params, body), Means(WithClient(x)))
  {
    var n, look := Transaction(x, tx, params, body), Means(WithClient(x));
    assert look(x) == Client;
    assert Unwrap(n) == n && Unwrap(n.callee) == n.callee && Unwrap(Ident(x)) == Ident(x);
  }

  /** The first parameter of a transaction's callback is a client. */
  lemma {:induction false} OtherParams(params: seq<Pattern>, first: Binding, c: Scope, tx: string)
    requires tx !in NamesAll(params)
    ensures Meaning(BindParams(params, first, c), tx) == Meaning(c, tx)
  {
    ParamsBut(params, first, c);
    assert tx !in SetOf(NamesAll(params));
  }

  /** Every assertion on a query over a transaction callback's first parameter is reported. */
  lemma TransactionReported(x: string, tx: string, params: seq<Pattern>, n: Node, rest: seq<Node>)
    requires tx !in NamesAll(params)
    requires forall look: Look :: look(tx) == Client ==> IsQuery(n, look)
    ensures Reported([Import([x]), Transaction(x, tx, params, Assert(n))] + rest, [1, 1, 0])
  {
    var call, c := Transaction(x, tx, params, Assert(n)), WithClient(x);
    IsTransactionCall(x, tx, params, Assert(n));
    var f := call.args[0];
    var inner := BindParams(f.params, ClientHere, c);
    assert f.params[1..] == params;
    BindsOne(tx, ClientHere, c);
    assert inner == BindParams(params, Opaque, Bind(tx, ClientHere, c));
    OtherParams(params, Opaque, Bind(tx, ClientHere, c), tx);
    assert Means(inner)(tx) == Client;
    QueryIff(n, Means(inner));
    assert [1] + [1] + [0] == [1, 1, 0];
    assert Violations(f, [1] + [1], true, false, c, AsVisited) == Violations(f.body, [1, 1, 0], false, false, inner, AsVisited);
    assert After(call.callee, c, AsVisited) == c;
    SecondStatement(x, call, rest, [1, 1, 0]);
  }

  /** `const x = init` */
  function ConstOf(target: Pattern, init: Node): Node { Declare(true, [Declarator(target, Some(init))]) }

  lemma ConstScope(target: Pattern, init: Node, c: Scope)
    ensures After(ConstOf(target, init), c, AsVisited) == AfterDeclarator(Declarator(target, Some(init)), true, c, AsVisited)
  {
    var d := Declarator(target, Some(init));
    assert [d][1..] == [];
    assert AfterDeclarators([], true, AfterDeclarator(d, true, c, AsVisited), AsVisited) == AfterDeclarator(d, true, c, AsVisited);
  }

  /** An expression that declares nothing leaves every name as it was. */
  lemma NothingBound(n: Node, c: Scope)
    requires Bound(n) == {}
    ensures SameLook(Means(After(n, c, AsVisited)), Means(c))
  {
    BoundOnly(n, c);
  }

  lemma CastReported(x: string, p: Path, c: Scope)
    requires Meaning(c, x) == Result
    ensures p in Violations(Assert(Ident(x)), p, false, false, c, AsVisited)
  {
    assert NameIn(Ident(x), Means(c)) == Result;
  }

  /** An assertion on a const that holds a query is reported. */
  lemma ConstReported(x: string, y: string, init: Node, rest: seq<Node>)
    requires IsQuery(init, Means(WithClient(x))) && Bound(init) == {}
    ensures Reported([Import([x]), ConstOf(Name(y), init), Assert(Ident(y))] + rest, [2])
  {
    var c := WithClient(x);
    var after := After(ConstOf(Name(y), init), c, AsVisited);
    QueryIff(init, Means(c));
    NothingBound(init, c);
    SameProvenance(init, Means(After(init, c, AsVisited)), Means(c));
    ConstScope(Name(y), init, c);
    DeclaredHolds(y, init, true, c, AsVisited);
    QueryIsNoName(init, Means(c));
    CastReported(y, [2], after);
    ThirdStatement(x, ConstOf(Name(y), init), Assert(Ident(y)), rest, after, [2]);
  }

  lemma QueryIsNoName(n: Node, look: Look)
    requires IsDelegateResult(n, look)
    ensures ResultProvenance(n, look) == Result
  {
  }

  /** And so is one on an element of `Promise.all`, whichever of its elements is the query and wherever the name stands. */
  lemma ElementReported(x: string, before: seq<Pattern>, y: string, init: Node, callee: Node, elements: seq<Node>,
                        more: seq<Node>, rest: seq<Node>)
    requires AllOf(init, callee, elements, more) && SomeResult(elements, Means(WithClient(x))) && Bound(init) == {}
    ensures Reported([Import([x]), ConstOf(Elements(before + [Name(y)]), init), Assert(Ident(y))] + rest, [2])
  {
    var c, target := WithClient(x), Elements(before + [Name(y)]);
    var after := After(ConstOf(target, init), c, AsVisited);
    PromiseAllIff(init, Means(c));
    NothingBound(init, c);
    SamePromiseAll(init, Means(c), Means(After(init, c, AsVisited)));
    ConstScope(target, init, c);
    ElementHolds(y, before, init, c, AsVisited);
    CastReported(y, [2], after);
    ThirdStatement(x, ConstOf(target, init), Assert(Ident(y)), rest, after, [2]);
  }
}
