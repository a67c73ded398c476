/**
 * The interpreter: expression evaluation against the scope stack, row and format
 * resolution, and the run over a list of elements that expands loops and hands
 * every other element, resolved, to a consumer.
 */
module Vm {
  import opened Diag
  import opened Values
  import opened Ast
  import opened Scoping
  import opened Paths

  const InvalidInfix: Error := Message("Invalid infix operator")
  const InvalidPrefix: Error := Message("Invalid prefix operator")

  function Unresolved(id: string): Error
  {
    Message("Unresolved identifier: " + id)
  }

  // ---- Expressions ----

  /** `resolve_expression`: a literal is its value; an identifier must resolve. */
  function ResolveExpression(st: ScopeStack, x: Expression): (r: Result<Value>)
    requires ExpressionOk(x)
    ensures r.Ok? <==> st.Resolve(x).Some?
    ensures r.Ok? ==> st.Resolve(x) == Some(r.value)
    ensures r.Err? ==> x.Identifier? && r.error == Unresolved(x.id)
  {
    match x
    case Literal(v) => Ok(v)
    case Identifier(id) => (
      match st.Resolve(Identifier(id))
      case Some(v) => Ok(v)
      case None => Err(Unresolved(id)))
  }

  /** `handle`: the four binary operators; `Neg` in infix position is refused. */
  function Handle(op: Operator, l: Value, r: Value): (res: Result<Value>)
    ensures op.Neg? ==> res == Err(InvalidInfix)
    ensures op.Add? ==> (res.Ok? <==> AddKind(l.Tag(), r.Tag()).Some?)
    ensures op.Sub? ==> (res.Ok? <==> SubKind(l.Tag(), r.Tag()).Some?)
    ensures op.Mul? ==> (res.Ok? <==> MulKind(l.Tag(), r.Tag()).Some?)
    ensures op.Div? ==> (res.Ok? <==> DivKind(l.Tag(), r.Tag()).Some?)
    ensures !op.Neg? && res.Err? ==> IsInvalidOperation(res.error)
  {
    match op
    case Add => l.Add(r)
    case Sub => l.Sub(r)
    case Mul => l.Mul(r)
    case Div => l.Div(r)
    case Neg => Err(InvalidInfix)
  }

  /**
   * Plain strict evaluation, the reference `resolve_expr` is measured against:
   * the left operand, then the right one, then the operator; the first error wins.
   */
  function Eval(st: ScopeStack, e: Expr): Result<Value>
    requires ExprOk(e)
  {
    match e
    case Primary(x) => ResolveExpression(st, x)
    case Infix(op, l, r) =>
      var lv :- Eval(st, l);
      var rv :- Eval(st, r);
      Handle(op, lv, rv)
    case Prefix(op, x) =>
      var v :- Eval(st, x);
      if op.Neg? then v.Neg() else Err(InvalidPrefix)
  }

  /** The identifier short-cut: a bare identifier operand looked up directly, when it resolves. */
  function Shortcut(st: ScopeStack, e: Expr): (r: Option<Value>)
    requires ExprOk(e)
    ensures r.Some? ==> Eval(st, e) == Ok(r.value)
  {
    if e.Primary? && e.expression.Identifier? then st.ResolveIdentifier(e.expression.id) else None
  }

  /**
   * `resolve_expr`, short-cuts included: whichever operand is a bare identifier
   * that resolves is used directly. It always agrees with strict evaluation,
   * errors included.
   */
  function ResolveExpr(st: ScopeStack, e: Expr): (r: Result<Value>)
    requires ExprOk(e)
    ensures r == Eval(st, e)
  {
    match e
    case Infix(op, lhs, rhs) =>
      var lv := Shortcut(st, lhs);
      if lv.Some? then
        var rv := Shortcut(st, rhs);
        if rv.Some? then Handle(op, lv.value, rv.value)
        else
          var rr :- ResolveExpr(st, rhs);
          Handle(op, lv.value, rr)
      else
        var ll :- ResolveExpr(st, lhs);
        var rv := Shortcut(st, rhs);
        if rv.Some? then Handle(op, ll, rv.value)
        else
          var rr :- ResolveExpr(st, rhs);
          Handle(op, ll, rr)
    case Prefix(op, x) =>
      var v :- ResolveExpr(st, x);
      if op.Neg? then v.Neg() else Err(InvalidPrefix)
    case Primary(x) => ResolveExpression(st, x)
  }

  /** Operator misuse and primaries, as `resolve_expr` reports them. */
  lemma {:induction false} OperatorMisuse(st: ScopeStack, op: Operator, l: Expr, r: Expr)
    requires ExprOk(l) && ExprOk(r)
    ensures Eval(st, l).Ok? && Eval(st, r).Ok? ==> ResolveExpr(st, Infix(Neg, l, r)) == Err(InvalidInfix)
    ensures !op.Neg? && Eval(st, l).Ok? ==> ResolveExpr(st, Prefix(op, l)) == Err(InvalidPrefix)
    ensures Eval(st, l).Ok? ==> ResolveExpr(st, Prefix(Neg, l)) == Eval(st, l).value.Neg()
    ensures Eval(st, l).Err? ==> ResolveExpr(st, Infix(op, l, r)) == Eval(st, l)
  {
  }

  lemma {:induction false} PrimaryResults(st: ScopeStack, v: Value, id: string)
    requires |id| >= 1
    ensures ResolveExpr(st, Primary(Literal(v))) == Ok(v)
    ensures st.ResolveIdentifier(id).None? ==> ResolveExpr(st, Primary(Identifier(id))) == Err(Unresolved(id))
    ensures st.ResolveIdentifier(id).Some? ==> ResolveExpr(st, Primary(Identifier(id))) == Ok(st.ResolveIdentifier(id).value)
  {
  }

  // ---- Rows and formats ----

  predicate CellsOk(cells: seq<Cell>)
  {
    forall k :: 0 <= k < |cells| ==> ExprOk(cells[k].value)
  }

  predicate ModifiersOk(modifiers: seq<Modifier>)
  {
    forall k :: 0 <= k < |modifiers| ==> ExprOk(modifiers[k].expression)
  }

  /**
   * The cells with every value evaluated and put back as a literal, every other
   * field kept; or the error of the first cell whose value fails.
   */
  function ResolvedCells(st: ScopeStack, cells: seq<Cell>): (r: Result<seq<Cell>>)
    requires CellsOk(cells)
    ensures r.Ok? ==> |r.value| == |cells| && forall k :: 0 <= k < |cells| ==>
      Eval(st, cells[k].value).Ok? && r.value[k] == cells[k].(value := Primary(Literal(Eval(st, cells[k].value).value)))
    ensures r.Err? ==> exists k :: (0 <= k < |cells| && Eval(st, cells[k].value) == Err(r.error)
      && forall j :: 0 <= j < k ==> Eval(st, cells[j].value).Ok?)
  {
    if cells == [] then Ok([])
    else
      var init := cells[..|cells| - 1];
      var last := cells[|cells| - 1];
      assert forall k :: 0 <= k < |init| ==> init[k] == cells[k];
      match ResolvedCells(st, init)
      case Err(e) => Err(e)
      case Ok(done) => (
        match ResolveExpr(st, last.value)
        case Err(e) => Err(e)
        case Ok(v) => Ok(done + [last.(value := Primary(Literal(v)))]))
  }

  /** A row resolves exactly when every one of its cells evaluates. */
  lemma {:induction false} CellsResolve(st: ScopeStack, cells: seq<Cell>)
    requires CellsOk(cells)
    ensures ResolvedCells(st, cells).Ok? <==> forall k :: 0 <= k < |cells| ==> Eval(st, cells[k].value).Ok?
  {
    var r := ResolvedCells(st, cells);
    if r.Err? {
      var k :| 0 <= k < |cells| && Eval(st, cells[k].value) == Err(r.error);
    }
  }

  /** The same for a format's modifiers: statements kept, expressions evaluated to literals. */
  function ResolvedModifiers(st: ScopeStack, modifiers: seq<Modifier>): (r: Result<seq<Modifier>>)
    requires ModifiersOk(modifiers)
    ensures r.Ok? ==> |r.value| == |modifiers| && forall k :: 0 <= k < |modifiers| ==>
      Eval(st, modifiers[k].expression).Ok?
      && r.value[k] == Modifier(modifiers[k].statement, Primary(Literal(Eval(st, modifiers[k].expression).value)))
    ensures r.Err? ==> exists k :: (0 <= k < |modifiers| && Eval(st, modifiers[k].expression) == Err(r.error)
      && forall j :: 0 <= j < k ==> Eval(st, modifiers[j].expression).Ok?)
  {
    if modifiers == [] then Ok([])
    else
      var init := modifiers[..|modifiers| - 1];
      var last := modifiers[|modifiers| - 1];
      assert forall k :: 0 <= k < |init| ==> init[k] == modifiers[k];
      match ResolvedModifiers(st, init)
      case Err(e) => Err(e)
      case Ok(done) => (
        match ResolveExpr(st, last.expression)
        case Err(e) => Err(e)
        case Ok(v) => Ok(done + [Modifier(last.statement, Primary(Literal(v)))]))
  }

  function ResolvedRow(st: ScopeStack, row: RowDef): Result<RowDef>
    requires CellsOk(row.cells)
  {
    var cells :- ResolvedCells(st, row.cells);
    Ok(RowDef(cells))
  }

  function ResolvedFormat(st: ScopeStack, format: FormatDef): Result<FormatDef>
    requires ModifiersOk(format.modifiers)
  {
    var modifiers :- ResolvedModifiers(st, format.modifiers);
    Ok(FormatDef(format.identifier, modifiers))
  }

  /** Resolving one more cell, after the earlier ones resolved. */
  lemma {:induction false} CellsStep(st: ScopeStack, cells: seq<Cell>, i: nat)
    requires CellsOk(cells) && i < |cells|
    requires ResolvedCells(st, cells[..i]).Ok?
    ensures ResolvedCells(st, cells[..i + 1]) ==
      match Eval(st, cells[i].value)
      case Err(e) => Err(e)
      case Ok(v) => Ok(ResolvedCells(st, cells[..i]).value + [cells[i].(value := Primary(Literal(v)))])
  {
    assert cells[..i + 1][..i] == cells[..i];
  }

  /** Resolving one more modifier, after the earlier ones resolved. */
  lemma {:induction false} ModifiersStep(st: ScopeStack, modifiers: seq<Modifier>, i: nat)
    requires ModifiersOk(modifiers) && i < |modifiers|
    requires ResolvedModifiers(st, modifiers[..i]).Ok?
    ensures ResolvedModifiers(st, modifiers[..i + 1]) ==
      match Eval(st, modifiers[i].expression)
      case Err(e) => Err(e)
      case Ok(v) => Ok(ResolvedModifiers(st, modifiers[..i]).value + [Modifier(modifiers[i].statement, Primary(Literal(v)))])
  {
    assert modifiers[..i + 1][..i] == modifiers[..i];
  }

  lemma {:induction false} CellsStopAtError(st: ScopeStack, cells: seq<Cell>, n: nat)
    requires CellsOk(cells) && n <= |cells|
    requires ResolvedCells(st, cells[..n]).Err?
    ensures ResolvedCells(st, cells) == ResolvedCells(st, cells[..n])
    decreases |cells|
  {
    if n < |cells| {
      var init := cells[..|cells| - 1];
      assert init[..n] == cells[..n];
      CellsStopAtError(st, init, n);
    } else {
      assert cells[..n] == cells;
    }
  }

  lemma {:induction false} ModifiersStopAtError(st: ScopeStack, modifiers: seq<Modifier>, n: nat)
    requires ModifiersOk(modifiers) && n <= |modifiers|
    requires ResolvedModifiers(st, modifiers[..n]).Err?
    ensures ResolvedModifiers(st, modifiers) == ResolvedModifiers(st, modifiers[..n])
    decreases |modifiers|
  {
    if n < |modifiers| {
      var init := modifiers[..|modifiers| - 1];
      assert init[..n] == modifiers[..n];
      ModifiersStopAtError(st, init, n);
    } else {
      assert modifiers[..n] == modifiers;
    }
  }

  // ---- Running elements ----

  /** The consumer's decision on an element, given what it has accepted so far: None accepts. */
  type Refusal = (seq<Element>, Element) -> Option<Error>

  /** The state a run leaves: its result, the scope stack, and what the consumer has accepted. */
  datatype Outcome = Outcome(result: Result<()>, scopes: ScopeStack, trace: seq<Element>)

  /** `processor.process(item)`: refused with an error, or recorded. */
  function Deliver(item: Element, st: ScopeStack, trace: seq<Element>, refuse: Refusal): Outcome
  {
    match refuse(trace, item)
    case Some(e) => Outcome(Err(e), st, trace)
    case None => Outcome(Ok(()), st, trace + [item])
  }

  /** What the consumer may receive: never a loop, and rows and formats only with literal values. */
  predicate Handed(e: Element)
  {
    && !e.ForLoop?
    && (e.Row? ==> forall k :: 0 <= k < |e.row.cells| ==> e.row.cells[k].value.IsLiteral())
    && (e.Format? ==> forall k :: 0 <= k < |e.format.modifiers| ==> e.format.modifiers[k].expression.IsLiteral())
  }

  /** `longer` is `trace` followed by handed-over elements only. */
  predicate Extends(trace: seq<Element>, longer: seq<Element>)
  {
    |trace| <= |longer| && longer[..|trace|] == trace
    && forall k :: |trace| <= k < |longer| ==> Handed(longer[k])
  }

  lemma {:induction false} ExtendsTransitive(a: seq<Element>, b: seq<Element>, c: seq<Element>)
    requires Extends(a, b) && Extends(b, c)
    ensures Extends(a, c)
  {
    assert c[..|a|] == c[..|b|][..|a|];
  }

  /**
   * The scopes of loop iteration `i` over element `v`: a fresh scope entered on
   * top of `st`, binding `index` to `i` and then the loop variable (without its
   * sigil) to `v`, so that a variable spelled `$index` overwrites the counter.
   */
  function IterationScopes(st: ScopeStack, variable: string, i: int, v: Value): (s: ScopeStack)
    requires |variable| >= 1
    ensures s.saved == st.saved + [st.top] && s.Exit() == st
    ensures s.Get(variable[1..]) == Ok(v)
    ensures variable[1..] != "index" ==> s.Get("index") == Ok(Integer(i))
    ensures forall n :: n != "index" && n != variable[1..] ==> s.Get(n) == st.Get(n)
  {
    assert forall n :: st.Enter().Get(n) == st.Get(n) by {
      forall n ensures st.Enter().Get(n) == st.Get(n) {
        EnterKeepsLookups(st, n);
      }
    }
    st.Enter().DefineTop("index", Integer(i)).DefineTop(variable[1..], v)
  }

  predicate LoopOk(lp: LoopDef)
  {
    |lp.variable| >= 1 && ExpressionOk(lp.source) && ElementsOk(lp.body)
  }

  /**
   * `run`: the elements in order, each through `StepSpec`, stopping at the first
   * error. On success the scope stack is as it was; the consumer only ever gains
   * handed-over elements at the end of what it had.
   */
  function RunSpec(items: seq<Element>, st: ScopeStack, trace: seq<Element>, refuse: Refusal): (o: Outcome)
    requires ElementsOk(items)
    ensures o.result.Ok? ==> o.scopes == st
    ensures Extends(trace, o.trace)
    decreases Size(items), 4
  {
    if items == [] then Outcome(Ok(()), st, trace)
    else
      var init := items[..|items| - 1];
      assert forall k :: 0 <= k < |init| ==> init[k] == items[k];
      var o := RunSpec(init, st, trace, refuse);
      if o.result.Err? then o
      else
        var o' := StepSpec(items[|items| - 1], o.scopes, o.trace, refuse);
        ExtendsTransitive(trace, o.trace, o'.trace);
        o'
  }

  /** One element of `run`: formats and rows resolved then handed over, loops expanded, the rest handed over as is. */
  function StepSpec(item: Element, st: ScopeStack, trace: seq<Element>, refuse: Refusal): (o: Outcome)
    requires ElementOk(item)
    ensures o.result.Ok? ==> o.scopes == st
    ensures Extends(trace, o.trace)
    decreases ElementSize(item), 3
  {
    match item
    case Format(f) => (
      match ResolvedFormat(st, f)
      case Err(e) => Outcome(Err(e), st, trace)
      case Ok(g) => Deliver(Format(g), st, trace, refuse))
    case Row(row) => (
      match ResolvedRow(st, row)
      case Err(e) => Outcome(Err(e), st, trace)
      case Ok(g) => Deliver(Row(g), st, trace, refuse))
    case ForLoop(lp) => LoopSpec(lp, st, trace, refuse)
    case _ => Deliver(item, st, trace, refuse)
  }

  /** `for_loop`: resolve the source; iterate over an Array, skip anything else. */
  function LoopSpec(lp: LoopDef, st: ScopeStack, trace: seq<Element>, refuse: Refusal): (o: Outcome)
    requires LoopOk(lp)
    ensures o.result.Ok? ==> o.scopes == st
    ensures Extends(trace, o.trace)
    decreases 1 + Size(lp.body), 2
  {
    match ResolveExpression(st, lp.source)
    case Err(e) => Outcome(Err(e), st, trace)
    case Ok(v) =>
      if v.Array? then IterSpec(lp, v.items, |v.items|, st, trace, refuse)
      else Outcome(Ok(()), st, trace)
  }

  /**
   * Iteration `i` over element `v`: the body runs in `IterationScopes`, and that
   * scope is exited afterwards; an error leaves it entered.
   */
  function IterationSpec(lp: LoopDef, i: nat, v: Value, st: ScopeStack, trace: seq<Element>, refuse: Refusal): (o: Outcome)
    requires LoopOk(lp)
    ensures o.result.Ok? ==> o.scopes == st
    ensures Extends(trace, o.trace)
    decreases 1 + Size(lp.body), 0
  {
    var b := RunSpec(lp.body, IterationScopes(st, lp.variable, i, v), trace, refuse);
    if b.result.Err? then b
    else Outcome(Ok(()), b.scopes.Exit(), b.trace)
  }

  /** The first `n` iterations over `a`, stopping at the first that fails. */
  function IterSpec(lp: LoopDef, a: seq<Value>, n: nat, st: ScopeStack, trace: seq<Element>, refuse: Refusal): (o: Outcome)
    requires LoopOk(lp) && n <= |a|
    ensures o.result.Ok? ==> o.scopes == st
    ensures Extends(trace, o.trace)
    decreases 1 + Size(lp.body), 1, n
  {
    if n == 0 then Outcome(Ok(()), st, trace)
    else
      var o := IterSpec(lp, a, n - 1, st, trace, refuse);
      if o.result.Err? then o
      else
        var o' := IterationSpec(lp, n - 1, a[n - 1], o.scopes, o.trace, refuse);
        ExtendsTransitive(trace, o.trace, o'.trace);
        o'
  }

  lemma {:induction false} RunStopsAtError(items: seq<Element>, n: nat, st: ScopeStack, trace: seq<Element>, refuse: Refusal)
    requires ElementsOk(items) && n <= |items|
    requires RunSpec(items[..n], st, trace, refuse).result.Err?
    ensures RunSpec(items, st, trace, refuse) == RunSpec(items[..n], st, trace, refuse)
    decreases |items|
  {
    if n < |items| {
      var init := items[..|items| - 1];
      assert init[..n] == items[..n];
      RunStopsAtError(init, n, st, trace, refuse);
    } else {
      assert items[..n] == items;
    }
  }

  lemma {:induction false} IterStopsAtError(lp: LoopDef, a: seq<Value>, n: nat, m: nat, st: ScopeStack, trace: seq<Element>, refuse: Refusal)
    requires LoopOk(lp) && n <= m <= |a|
    requires IterSpec(lp, a, n, st, trace, refuse).result.Err?
    ensures IterSpec(lp, a, m, st, trace, refuse) == IterSpec(lp, a, n, st, trace, refuse)
    decreases m
  {
    if n < m {
      IterStopsAtError(lp, a, n, m - 1, st, trace, refuse);
      IterErrorStep(lp, a, m, st, trace, refuse);
    }
  }

  lemma {:induction false} IterErrorStep(lp: LoopDef, a: seq<Value>, m: nat, st: ScopeStack, trace: seq<Element>, refuse: Refusal)
    requires LoopOk(lp) && 0 < m <= |a|
    requires IterSpec(lp, a, m - 1, st, trace, refuse).result.Err?
    ensures IterSpec(lp, a, m, st, trace, refuse) == IterSpec(lp, a, m - 1, st, trace, refuse)
  {
  }

  lemma {:induction false} SizeCoversElement(items: seq<Element>, i: nat)
    requires i < |items|
    ensures Size(items) >= ElementSize(items[i])
    decreases |items|
  {
    if i < |items| - 1 {
      var init := items[..|items| - 1];
      assert init[i] == items[i];
      SizeCoversElement(init, i);
    }
  }

  // ---- Properties of a run ----

  /** Running `a + b` is running `a`, then, unless it failed, `b` from where `a` left off. */
  lemma {:induction false} RunConcat(a: seq<Element>, b: seq<Element>, st: ScopeStack, trace: seq<Element>, refuse: Refusal)
    requires ElementsOk(a) && ElementsOk(b)
    ensures ElementsOk(a + b)
    ensures RunSpec(a + b, st, trace, refuse) ==
      var o := RunSpec(a, st, trace, refuse);
      if o.result.Err? then o else RunSpec(b, o.scopes, o.trace, refuse)
    decreases |b|
  {
    ElementsConcatOk(a, b);
    var o := RunSpec(a, st, trace, refuse);
    if b == [] {
      assert a + b == a;
      if o.result.Ok? {
        SuccessIsUnit(o.result);
      }
    } else {
      var init := b[..|b| - 1];
      ElementsConcatOk(a, init);
      RunConcat(a, init, st, trace, refuse);
      assert (a + b)[..|a + b| - 1] == a + init;
      assert (a + b)[|a + b| - 1] == b[|b| - 1];
    }
  }

  lemma {:induction false} ElementsConcatOk(a: seq<Element>, b: seq<Element>)
    requires ElementsOk(a) && ElementsOk(b)
    ensures ElementsOk(a + b)
  {
    assert forall k :: 0 <= k < |a + b| ==> (a + b)[k] == if k < |a| then a[k] else b[k - |a|];
  }

  /** Elements that are neither formats, rows nor loops. */
  predicate Plain(e: Element)
  {
    !e.Format? && !e.Row? && !e.ForLoop?
  }

  /** A consumer that accepts everything receives the plain elements unchanged and in order. */
  lemma {:induction false} PlainElementsPassThrough(items: seq<Element>, st: ScopeStack, trace: seq<Element>, refuse: Refusal)
    requires forall k :: 0 <= k < |items| ==> Plain(items[k])
    requires forall t, e :: refuse(t, e).None?
    ensures ElementsOk(items)
    ensures RunSpec(items, st, trace, refuse) == Outcome(Ok(()), st, trace + items)
    decreases |items|
  {
    if items != [] {
      var init := items[..|items| - 1];
      PlainElementsPassThrough(init, st, trace, refuse);
      assert trace + init + [items[|items| - 1]] == trace + items;
    }
  }

  /** A loop whose source is not an Array does nothing and succeeds. */
  lemma {:induction false} NonArraySourceSkips(lp: LoopDef, st: ScopeStack, trace: seq<Element>, refuse: Refusal)
    requires LoopOk(lp)
    requires ResolveExpression(st, lp.source).Ok? && !ResolveExpression(st, lp.source).value.Array?
    ensures LoopSpec(lp, st, trace, refuse) == Outcome(Ok(()), st, trace)
  {
  }

  /** A loop variable spelled `$index` overwrites the iteration counter. */
  lemma {:induction false} IndexVariableOverwrites(st: ScopeStack, i: int, v: Value)
    ensures IterationScopes(st, "$index", i, v).Get("index") == Ok(v)
  {
  }

  // An example loop: `for $x in [a, b] { row [$x, $index] }`, with a consumer that accepts everything.

  function EchoCell(e: Expr): Cell
  {
    Cell(Str, e, None, 1, 1, None)
  }

  const EchoBody: seq<Element> :=
    [Row(RowDef([EchoCell(Primary(Identifier("$x"))), EchoCell(Primary(Identifier("$index")))]))]

  function EchoRow(v: Value, i: int): Element
  {
    Row(RowDef([EchoCell(Primary(Literal(v))), EchoCell(Primary(Literal(Integer(i))))]))
  }

  const AcceptAll: Refusal := (t, e) => None

  lemma {:induction false} IterationBindings(st: ScopeStack, i: int, v: Value)
    ensures IterationScopes(st, "$x", i, v).ResolveIdentifier("$x") == Some(v)
    ensures IterationScopes(st, "$x", i, v).ResolveIdentifier("$index") == Some(Integer(i))
  {
    var s := IterationScopes(st, "$x", i, v);
    assert "$x"[1..] == "x";
    assert PieceEnd("x", 0) == 1 && "x"[0..1] == "x";
    assert NextPiece("x", 0) == (Some("x"), 1);
    assert NextPiece("x", 1) == (None, 1);
    assert "$index"[1..] == "index";
    assert PieceEnd("index", 0) == 5 && "index"[0..5] == "index";
    assert NextPiece("index", 0) == (Some("index"), 5);
    assert NextPiece("index", 5) == (None, 5);
  }

  /** In iteration `i` over `v`, the example body's row resolves to `v` and `i` as literals. */
  lemma {:induction false} EchoRowResolved(st: ScopeStack, i: nat, v: Value)
    ensures CellsOk(EchoBody[0].row.cells)
    ensures ResolvedRow(IterationScopes(st, "$x", i, v), EchoBody[0].row) == Ok(EchoRow(v, i).row)
  {
    var s := IterationScopes(st, "$x", i, v);
    var cells := EchoBody[0].row.cells;
    EchoCellValues(st, i, v);
    assert cells == [cells[0], cells[1]];
    CellsResolvePair(s, cells[0], cells[1]);
  }

  lemma {:induction false} CellsResolvePair(st: ScopeStack, a: Cell, b: Cell)
    requires ExprOk(a.value) && ExprOk(b.value)
    requires Eval(st, a.value).Ok? && Eval(st, b.value).Ok?
    ensures CellsOk([a, b])
    ensures ResolvedCells(st, [a, b]) == Ok([a.(value := Primary(Literal(Eval(st, a.value).value))),
      b.(value := Primary(Literal(Eval(st, b.value).value)))])
  {
    var cells := [a, b];
    assert cells[0] == a && cells[1] == b;
    CellsResolve(st, cells);
    var r := ResolvedCells(st, cells).value;
    assert |r| == 2;
    assert r[0] == a.(value := Primary(Literal(Eval(st, a.value).value)));
    assert r[1] == b.(value := Primary(Literal(Eval(st, b.value).value)));
    assert r == [r[0], r[1]];
  }

  lemma {:induction false} EchoCellValues(st: ScopeStack, i: nat, v: Value)
    ensures ExprOk(EchoBody[0].row.cells[0].value) && ExprOk(EchoBody[0].row.cells[1].value)
    ensures Eval(IterationScopes(st, "$x", i, v), EchoBody[0].row.cells[0].value) == Ok(v)
    ensures Eval(IterationScopes(st, "$x", i, v), EchoBody[0].row.cells[1].value) == Ok(Integer(i))
  {
    IterationBindings(st, i, v);
  }

  /** Iteration `i` over `v` hands over one row holding `v` and `i`, and leaves the scopes as they were. */
  lemma {:induction false} EchoIteration(source: Expression, st: ScopeStack, i: nat, v: Value, trace: seq<Element>)
    requires ExpressionOk(source)
    ensures LoopOk(LoopDef("$x", source, EchoBody))
    ensures IterationSpec(LoopDef("$x", source, EchoBody), i, v, st, trace, AcceptAll)
      == Outcome(Ok(()), st, trace + [EchoRow(v, i)])
  {
    var lp := LoopDef("$x", source, EchoBody);
    var s := IterationScopes(st, lp.variable, i, v);
    EchoRowResolved(st, i, v);
    assert EchoBody[..0] == [];
    assert RunSpec(EchoBody, s, trace, AcceptAll) == Outcome(Ok(()), s, trace + [EchoRow(v, i)]);
  }

  /** The whole example loop: one row per element, in order, with the counter; scopes restored. */
  lemma {:induction false} EchoLoop(st: ScopeStack, trace: seq<Element>, a: Value, b: Value)
    ensures LoopOk(LoopDef("$x", Literal(Array([a, b])), EchoBody))
    ensures LoopSpec(LoopDef("$x", Literal(Array([a, b])), EchoBody), st, trace, AcceptAll)
      == Outcome(Ok(()), st, trace + [EchoRow(a, 0), EchoRow(b, 1)])
  {
    var source := Literal(Array([a, b]));
    var lp := LoopDef("$x", source, EchoBody);
    EchoIteration(source, st, 0, a, trace);
    EchoIteration(source, st, 1, b, trace + [EchoRow(a, 0)]);
    assert IterSpec(lp, [a, b], 1, st, trace, AcceptAll) == Outcome(Ok(()), st, trace + [EchoRow(a, 0)]);
    assert trace + [EchoRow(a, 0)] + [EchoRow(b, 1)] == trace + [EchoRow(a, 0), EchoRow(b, 1)];
  }

  /**
   * An error in the body ends the loop without `exit`: here the body's only row
   * applies `-` as a prefix operator, and the stack is left one scope deeper.
   */
  lemma {:induction false} ErrorLeavesScopeEntered(st: ScopeStack, trace: seq<Element>, v: Value)
    ensures var body := [Row(RowDef([EchoCell(Prefix(Sub, DefaultExpr))]))];
      var lp := LoopDef("$x", Literal(Array([v])), body);
      && LoopOk(lp)
      && LoopSpec(lp, st, trace, AcceptAll) == Outcome(Err(InvalidPrefix), IterationScopes(st, "$x", 0, v), trace)
      && |LoopSpec(lp, st, trace, AcceptAll).scopes.saved| == |st.saved| + 1
  {
    var body := [Row(RowDef([EchoCell(Prefix(Sub, DefaultExpr))]))];
    var lp := LoopDef("$x", Literal(Array([v])), body);
    var s := IterationScopes(st, "$x", 0, v);
    var row := body[0].row;
    assert row.cells[..1] == row.cells;
    assert row.cells[..1][..0] == [];
    assert ResolveExpr(s, row.cells[0].value) == Err(InvalidPrefix);
    assert ResolvedRow(s, row) == Err(InvalidPrefix);
    assert body[..0] == [];
    assert RunSpec(body, s, trace, AcceptAll) == Outcome(Err(InvalidPrefix), s, trace);
    assert IterationSpec(lp, 0, v, st, trace, AcceptAll) == Outcome(Err(InvalidPrefix), s, trace);
    assert IterSpec(lp, [v], 1, st, trace, AcceptAll) == Outcome(Err(InvalidPrefix), s, trace);
  }

  /** The live consumer: the elements it accepted so far, and its rule for refusing one. */
  class Recorder {
    var trace: seq<Element>
    const refuse: Refusal

    constructor (refuse: Refusal)
      ensures trace == [] && this.refuse == refuse
    {
      trace := [];
      this.refuse := refuse;
    }

    /** `SheetProcessor::process`. */
    method Process(item: Element) returns (r: Result<()>)
      modifies this
      ensures refuse(old(trace), item).Some? ==> r == Err(refuse(old(trace), item).value) && trace == old(trace)
      ensures refuse(old(trace), item).None? ==> r == Ok(()) && trace == old(trace) + [item]
    {
      match refuse(trace, item)
      case Some(e) =>
        r := Err(e);
      case None =>
        trace := trace + [item];
        r := Ok(());
    }
  }

  class VM {
    const scopes: Scopes

    /** `VM::default`: an empty scope stack. */
    constructor ()
      ensures fresh(scopes) && scopes.State() == ScopeStack(EmptyScope, [])
    {
      scopes := new Scopes();
    }

    /** `resolve`: a new row whose cell values are the evaluated literals. */
    method Resolve(row: RowDef) returns (r: Result<RowDef>)
      requires CellsOk(row.cells)
      ensures r == ResolvedRow(scopes.State(), row)
    {
      var cells: seq<Cell> := [];
      var i := 0;
      while i < |row.cells|
        invariant 0 <= i <= |row.cells|
        invariant ResolvedCells(scopes.State(), row.cells[..i]) == Ok(cells)
      {
        var cell := row.cells[i];
        var v := ResolveExpr(scopes.State(), cell.value);
        CellsStep(scopes.State(), row.cells, i);
        if v.Err? {
          CellsStopAtError(scopes.State(), row.cells, i + 1);
          return Err(v.error);
        }
        cells := cells + [cell.(value := Primary(Literal(v.value)))];
        i := i + 1;
      }
      assert row.cells[..i] == row.cells;
      r := Ok(RowDef(cells));
    }

    /** `resolve_format`: a new format whose modifier expressions are the evaluated literals. */
    method ResolveFormat(format: FormatDef) returns (r: Result<FormatDef>)
      requires ModifiersOk(format.modifiers)
      ensures r == ResolvedFormat(scopes.State(), format)
    {
      var modifiers: seq<Modifier> := [];
      var i := 0;
      while i < |format.modifiers|
        invariant 0 <= i <= |format.modifiers|
        invariant ResolvedModifiers(scopes.State(), format.modifiers[..i]) == Ok(modifiers)
      {
        var modifier := format.modifiers[i];
        var v := ResolveExpr(scopes.State(), modifier.expression);
        ModifiersStep(scopes.State(), format.modifiers, i);
        if v.Err? {
          ModifiersStopAtError(scopes.State(), format.modifiers, i + 1);
          return Err(v.error);
        }
        modifiers := modifiers + [Modifier(modifier.statement, Primary(Literal(v.value)))];
        i := i + 1;
      }
      assert format.modifiers[..i] == format.modifiers;
      r := Ok(FormatDef(format.identifier, modifiers));
    }

    /** `run`. */
    method Run(items: seq<Element>, processor: Recorder) returns (r: Result<()>)
      requires ElementsOk(items)
      modifies scopes, processor
      ensures Outcome(r, scopes.State(), processor.trace)
        == RunSpec(items, old(scopes.State()), old(processor.trace), processor.refuse)
      decreases Size(items), 3
    {
      ghost var st0 := scopes.State();
      ghost var trace0 := processor.trace;
      var i := 0;
      while i < |items|
        invariant 0 <= i <= |items|
        invariant RunSpec(items[..i], st0, trace0, processor.refuse) == Outcome(Ok(()), scopes.State(), processor.trace)
      {
        var item := items[i];
        assert items[..i + 1][..i] == items[..i];
        ghost var expected := StepSpec(item, scopes.State(), processor.trace, processor.refuse);
        assert RunSpec(items[..i + 1], st0, trace0, processor.refuse) == expected;
        SizeCoversElement(items, i);
        r := RunElement(item, processor);
        assert Outcome(r, scopes.State(), processor.trace) == expected;
        if r.Err? {
          RunStopsAtError(items, i + 1, st0, trace0, processor.refuse);
          return;
        }
        SuccessIsUnit(r);
        i := i + 1;
      }
      assert items[..i] == items;
      r := Ok(());
    }

    /** One element of `run`: formats and rows resolved then handed over, loops expanded, the rest handed over as is. */
    method RunElement(item: Element, processor: Recorder) returns (r: Result<()>)
      requires ElementOk(item)
      modifies scopes, processor
      ensures Outcome(r, scopes.State(), processor.trace)
        == StepSpec(item, old(scopes.State()), old(processor.trace), processor.refuse)
      decreases ElementSize(item), 2
    {
      if item.Format? {
        var resolved := ResolveFormat(item.format);
        if resolved.Err? {
          r := Err(resolved.error);
        } else {
          r := processor.Process(Format(resolved.value));
        }
      } else if item.Row? {
        var resolved := Resolve(item.row);
        if resolved.Err? {
          r := Err(resolved.error);
        } else {
          r := processor.Process(Row(resolved.value));
        }
      } else if item.ForLoop? {
        r := RunLoop(item.loop, processor);
      } else {
        r := processor.Process(item);
      }
    }

    /** `for_loop`. */
    method RunLoop(lp: LoopDef, processor: Recorder) returns (r: Result<()>)
      requires LoopOk(lp)
      modifies scopes, processor
      ensures Outcome(r, scopes.State(), processor.trace)
        == LoopSpec(lp, old(scopes.State()), old(processor.trace), processor.refuse)
      decreases 1 + Size(lp.body), 1
    {
      var value := ResolveExpression(scopes.State(), lp.source);
      if value.Err? {
        return Err(value.error);
      }
      if value.value.Array? {
        var a := value.value.items;
        ghost var st0 := scopes.State();
        ghost var trace0 := processor.trace;
        var i := 0;
        while i < |a|
          invariant 0 <= i <= |a|
          invariant IterSpec(lp, a, i, st0, trace0, processor.refuse) == Outcome(Ok(()), scopes.State(), processor.trace)
        {
          r := RunIteration(lp, i, a[i], processor);
          if r.Err? {
            IterStopsAtError(lp, a, i + 1, |a|, st0, trace0, processor.refuse);
            return;
          }
          SuccessIsUnit(r);
          i := i + 1;
        }
      }
      r := Ok(());
    }

    /** One pass of the `for_loop` body: enter, bind `index` and the variable, run, exit. */
    method RunIteration(lp: LoopDef, i: nat, v: Value, processor: Recorder) returns (r: Result<()>)
      requires LoopOk(lp)
      modifies scopes, processor
      ensures Outcome(r, scopes.State(), processor.trace)
        == IterationSpec(lp, i, v, old(scopes.State()), old(processor.trace), processor.refuse)
      decreases 1 + Size(lp.body), 0
    {
      ghost var inner := IterationScopes(scopes.State(), lp.variable, i, v);
      scopes.Enter();
      scopes.Define("index", Integer(i));
      scopes.Define(lp.variable[1..], v);
      assert scopes.State() == inner;
      r := Run(lp.body, processor);
      if r.Err? {
        return;
      }
      SuccessIsUnit(r);
      scopes.Exit();
    }
  }
}
