/**
 * The syntax tree the parser builds and the interpreter walks: sheet elements,
 * cells, formats, loops and arithmetic expressions over values.
 */
module Ast {
  import opened Diag
  import opened Numbers
  import opened Values

  datatype Operator = Add | Sub | Mul | Div | Neg

  /** A primary: a literal value, or a `$`-prefixed dotted variable path. */
  datatype Expression = Literal(value: Value) | Identifier(id: string)
  {
    /** `as_str`: a literal's text, and "" for an identifier (it is not looked up). */
    function AsStr(): (r: string)
      ensures Identifier? ==> r == ""
      ensures Literal? ==> r == value.AsStr()
      ensures Literal? && value.String? ==> r == value.s
      ensures Literal? && value.Integer? ==> r == IntText(value.i)
      ensures Literal? && value.Tag() in {BooleanKind, ArrayKind, ObjectKind} ==> r == ""
    {
      match this
      case Literal(v) => v.AsStr()
      case Identifier(_) => ""
    }

    /** `as_f64`: a literal's float reading, and 0.0 for an identifier. */
    function AsF64(): (r: F64)
      ensures Identifier? ==> r == Zero
      ensures Literal? ==> r == value.AsF64()
      ensures Literal? && value.String? ==> r == Parsed(value.s)
      ensures Literal? && value.Integer? ==> r == FromInt(value.i)
      ensures Literal? && value.Tag() in {BooleanKind, ArrayKind, ObjectKind} ==> r == Zero
    {
      match this
      case Literal(v) => v.AsF64()
      case Identifier(_) => Zero
    }
  }

  /** An arithmetic expression tree, as the operator-precedence parser builds it. */
  datatype Expr =
    | Primary(expression: Expression)
    | Infix(op: Operator, lhs: Expr, rhs: Expr)
    | Prefix(op: Operator, operand: Expr)
  {
    /** True of a literal primary, the one shape whose text and float views are not blank. */
    predicate IsLiteral() { Primary? && expression.Literal? }

    /** `as_str`: only a primary has text; an operator node reads as "". */
    function AsStr(): (r: string)
      ensures !IsLiteral() ==> r == ""
      ensures IsLiteral() ==> r == expression.value.AsStr()
    {
      match this
      case Primary(e) => e.AsStr()
      case _ => ""
    }

    /** `as_f64`: only a primary has a float reading; an operator node reads as 0.0. */
    function AsF64(): (r: F64)
      ensures !IsLiteral() ==> r == Zero
      ensures IsLiteral() ==> r == expression.value.AsF64()
    {
      match this
      case Primary(e) => e.AsF64()
      case _ => Zero
    }
  }

  /** `Expr::default()`: the empty string literal. */
  const DefaultExpr: Expr := Primary(Literal(String("")))

  datatype Modifier = Modifier(statement: string, expression: Expr)

  datatype FormatDef = FormatDef(identifier: string, modifiers: seq<Modifier>)

  datatype CellType = Num | Str | Date | Image

  datatype Cell = Cell(
    cellType: CellType,
    value: Expr,
    format: Option<string>,
    colspan: U16,
    rowspan: U16,
    imageMode: Option<string>)

  datatype RowDef = RowDef(cells: seq<Cell>)

  /** A relative move, from the cursor or from a named anchor. */
  datatype Move = Move(anchor: Option<string>, row: I32, col: I16)

  /**
   * `for $variable in source { body }`. The source is a primary, so a loop never
   * iterates over the result of an operator.
   */
  datatype LoopDef = LoopDef(variable: string, source: Expression, body: seq<Element>)

  datatype ColumnDef = ColumnDef(start: U16, end: U16, unit: string, width: F64)

  datatype RowSpecDef = RowSpecDef(start: U32, unit: string, height: F64)

  datatype Element =
    | Format(format: FormatDef)
    | Sheet(name: string)
    | Anchor(identifier: string)
    | Row(row: RowDef)
    | Mover(move: Move)
    | ForLoop(loop: LoopDef)
    | Cr
    | Autofit
    | Column(column: ColumnDef)
    | RowSpec(spec: RowSpecDef)

  /** Number of elements in a list, counting every nested loop body in full. */
  function Size(es: seq<Element>): nat
  {
    if es == [] then 0 else Size(es[..|es| - 1]) + ElementSize(es[|es| - 1])
  }

  function ElementSize(e: Element): (n: nat)
    ensures n >= 1
  {
    match e
    case ForLoop(lp) => 1 + Size(lp.body)
    case _ => 1
  }

  /**
   * The shape the grammar guarantees and the interpreter relies on: every
   * identifier and every loop variable carries its one-character sigil, which the
   * interpreter strips.
   */
  predicate ExpressionOk(x: Expression)
  {
    x.Identifier? ==> |x.id| >= 1
  }

  predicate ExprOk(e: Expr)
  {
    match e
    case Primary(x) => ExpressionOk(x)
    case Infix(_, l, r) => ExprOk(l) && ExprOk(r)
    case Prefix(_, x) => ExprOk(x)
  }

  predicate ElementOk(e: Element)
  {
    match e
    case Format(f) => forall k :: 0 <= k < |f.modifiers| ==> ExprOk(f.modifiers[k].expression)
    case Row(r) => forall k :: 0 <= k < |r.cells| ==> ExprOk(r.cells[k].value)
    case ForLoop(lp) => |lp.variable| >= 1 && ExpressionOk(lp.source) && ElementsOk(lp.body)
    case _ => true
  }

  predicate ElementsOk(es: seq<Element>)
  {
    forall k :: 0 <= k < |es| ==> ElementOk(es[k])
  }

  /** The empty-string default prints as "" and reads as the float parsed from "". */
  lemma {:induction false} DefaultExprViews()
    ensures DefaultExpr.AsStr() == ""
    ensures DefaultExpr.AsF64() == Parsed("")
    ensures DefaultExpr.IsLiteral() && DefaultExpr.expression.value.String?
  {
  }
}
