/**
 * Turning a parse tree into the syntax tree. The grammar itself and its
 * operator-precedence expression parser are given, not modelled: the tree arrives
 * as `Pair`s (a rule, the text it matched, the pairs inside it), and the
 * precedence parser is a parameter that maps the pairs of an `expr` to an `Expr`.
 * The builders fill in defaults for whatever the tree leaves out and read numbers
 * leniently, falling back to a default when the text does not parse.
 */
module Parser {
  import opened Diag
  import opened Numbers
  import V = Values
  import A = Ast

  /** The grammar rules the builders look at; every other rule is `Other`. */
  datatype Rule =
    | FormatDeclaration | Sheet | Anchor | Mover | Column | Rowspec | Cr | Autofit | Row | ForLoop
    | VariableIdentifier | Expression | Expr | FormatIdentifier | FormatModifier | ModifierStatement
    | SheetIdentifier | AnchorIdentifier | Number | String | MoverX | MoverY | WidthUnit
    | CellType | ImageMode | Colspan | Rowspan | Cell
    | Other(name: string)

  datatype Pair = Pair(rule: Rule, text: string, children: seq<Pair>)

  /** The operator-precedence parser, applied to the pairs inside an `expr`. */
  type Pratt = seq<Pair> -> A.Expr

  // ---- Selecting pairs ----

  /** The index of the last pair whose rule is one of `rules`, or -1 when there is none. */
  function LastIndex(pairs: seq<Pair>, rules: set<Rule>): (k: int)
    ensures -1 <= k < |pairs|
    ensures k >= 0 ==> pairs[k].rule in rules
    ensures forall j :: k < j < |pairs| ==> pairs[j].rule !in rules
  {
    if pairs == [] then -1
    else if pairs[|pairs| - 1].rule in rules then |pairs| - 1
    else LastIndex(pairs[..|pairs| - 1], rules)
  }

  /** The last pair whose rule is one of `rules`. */
  function LastIn(pairs: seq<Pair>, rules: set<Rule>): (r: Option<Pair>)
    ensures r.None? <==> forall k :: 0 <= k < |pairs| ==> pairs[k].rule !in rules
    ensures r.Some? ==> exists k :: (0 <= k < |pairs| && pairs[k] == r.value && r.value.rule in rules
      && forall j :: k < j < |pairs| ==> pairs[j].rule !in rules)
  {
    var k := LastIndex(pairs, rules);
    if k < 0 then None else Some(pairs[k])
  }

  /** The first pair whose rule is one of `rules`. */
  function FirstIn(pairs: seq<Pair>, rules: set<Rule>): (r: Option<Pair>)
    ensures r.None? <==> forall k :: 0 <= k < |pairs| ==> pairs[k].rule !in rules
    ensures r.Some? ==> exists k :: (0 <= k < |pairs| && pairs[k] == r.value && r.value.rule in rules
      && forall j :: 0 <= j < k ==> pairs[j].rule !in rules)
  {
    if pairs == [] then None
    else if pairs[0].rule in rules then Some(pairs[0])
    else
      var r := FirstIn(pairs[1..], rules);
      assert forall k :: 1 <= k < |pairs| ==> pairs[1..][k - 1] == pairs[k];
      assert r.Some? ==> exists k :: (0 <= k < |pairs| && pairs[k] == r.value && r.value.rule in rules
        && forall j :: 0 <= j < k ==> pairs[j].rule !in rules) by {
        if r.Some? {
          var k :| 0 <= k < |pairs[1..]| && pairs[1..][k] == r.value && r.value.rule in rules
            && forall j :: 0 <= j < k ==> pairs[1..][j].rule !in rules;
          assert pairs[k + 1] == r.value;
        }
      }
      r
  }

  /** The text of the last pair with rule `rule`. */
  function LastText(pairs: seq<Pair>, rule: Rule): Option<string>
  {
    if pairs == [] then None
    else if pairs[|pairs| - 1].rule == rule then Some(pairs[|pairs| - 1].text)
    else LastText(pairs[..|pairs| - 1], rule)
  }

  /** The last text of a rule is the text of the last pair of that rule. */
  lemma {:induction false} LastTextIsLastIn(pairs: seq<Pair>, rule: Rule)
    ensures LastText(pairs, rule) == match LastIn(pairs, {rule}) case Some(p) => Some(p.text) case None => None
  {
    if pairs != [] {
      LastTextIsLastIn(pairs[..|pairs| - 1], rule);
    }
  }

  /** In a concatenation the last text comes from the second part when it has one. */
  lemma {:induction false} LastTextConcat(a: seq<Pair>, b: seq<Pair>, rule: Rule)
    ensures LastText(a + b, rule) == if LastText(b, rule).Some? then LastText(b, rule) else LastText(a, rule)
    decreases |b|
  {
    if b == [] {
      assert a + b == a;
    } else {
      var init := b[..|b| - 1];
      assert (a + b)[..|a + b| - 1] == a + init;
      LastTextConcat(a, init, rule);
    }
  }

  /** Without a pair of rule `rule` there is no last text for it. */
  lemma {:induction false} LastTextAbsent(pairs: seq<Pair>, rule: Rule)
    requires forall k :: 0 <= k < |pairs| ==> pairs[k].rule != rule
    ensures LastText(pairs, rule).None?
  {
    if pairs != [] {
      LastTextAbsent(pairs[..|pairs| - 1], rule);
    }
  }

  /** The texts of the pairs with rule `rule`, in order. */
  function TextsOf(pairs: seq<Pair>, rule: Rule): (texts: seq<string>)
    ensures |texts| <= |pairs|
  {
    if pairs == [] then []
    else
      var last := pairs[|pairs| - 1];
      TextsOf(pairs[..|pairs| - 1], rule) + if last.rule == rule then [last.text] else []
  }

  /** The pairs inside the pairs with rule `rule`, in order. */
  function ChildrenOf(pairs: seq<Pair>, rule: Rule): seq<Pair>
  {
    if pairs == [] then []
    else
      var last := pairs[|pairs| - 1];
      ChildrenOf(pairs[..|pairs| - 1], rule) + if last.rule == rule then last.children else []
  }

  /** Within a concatenation the last match is the right part's, when it has one. */
  lemma {:induction false} LastInConcat(a: seq<Pair>, b: seq<Pair>, rules: set<Rule>)
    ensures LastIn(a + b, rules) == if LastIn(b, rules).Some? then LastIn(b, rules) else LastIn(a, rules)
    decreases |b|
  {
    if b == [] {
      assert a + b == a;
    } else {
      var init := b[..|b| - 1];
      assert (a + b)[..|a + b| - 1] == a + init;
      LastInConcat(a, init, rules);
    }
  }

  // ---- String literals ----

  /** One surrounding pair of double quotes is removed, only when both are there. */
  function StripQuotes(s: string): string
  {
    if |s| >= 2 && s[0] == '"' && s[|s| - 1] == '"' then s[1..|s| - 1] else s
  }

  /** The character a backslash followed by `c` stands for. */
  function Escaped(c: char): char
  {
    match c
    case 'n' => '\n'
    case 'r' => '\r'
    case 't' => '\t'
    case '\\' => '\\'
    case '"' => '"'
    case _ => c
  }

  /** Backslash pairs replaced by the character they stand for; a final lone backslash vanishes. */
  function Unescape(s: string): string
  {
    if s == [] then []
    else if s[0] == '\\' then
      if |s| == 1 then [] else [Escaped(s[1])] + Unescape(s[2..])
    else [s[0]] + Unescape(s[1..])
  }

  /** What `decode_string` returns for `s`. */
  function Decoded(s: string): string
  {
    Unescape(StripQuotes(s))
  }

  /** What is still to come out of `rest`, when a backslash may just have been read. */
  function Pending(quoted: bool, rest: string): string
  {
    if !quoted then Unescape(rest)
    else if rest == [] then []
    else [Escaped(rest[0])] + Unescape(rest[1..])
  }

  /** One character of `rest` read: what it adds to the output, and what is still pending. */
  lemma {:induction false} PendingStep(quoted: bool, rest: string)
    requires rest != []
    ensures quoted ==> Pending(true, rest) == [Escaped(rest[0])] + Pending(false, rest[1..])
    ensures !quoted && rest[0] == '\\' ==> Pending(false, rest) == Pending(true, rest[1..])
    ensures !quoted && rest[0] != '\\' ==> Pending(false, rest) == [rest[0]] + Pending(false, rest[1..])
  {
    if !quoted && rest[0] == '\\' && |rest| > 1 {
      assert rest[2..] == rest[1..][1..];
    }
  }

  lemma {:induction false} Regroup(a: string, b: string, c: string)
    ensures (a + b) + c == a + (b + c)
  {
  }

  /** `decode_string`: one pass, one bit of state (the previous character was a lone backslash). */
  method DecodeString(s: string) returns (buffer: string)
    ensures buffer == Decoded(s)
  {
    var slice := s;
    if |s| >= 2 && s[0] == '"' && s[|s| - 1] == '"' {
      slice := s[1..|s| - 1];
    }
    assert slice == StripQuotes(s);
    var quoted := false;
    buffer := "";
    for i := 0 to |slice|
      invariant buffer + Pending(quoted, slice[i..]) == Unescape(slice)
    {
      var c := slice[i];
      ghost var rest := slice[i..];
      assert rest[0] == c && rest[1..] == slice[i + 1..];
      PendingStep(quoted, rest);
      if quoted {
        Regroup(buffer, [Escaped(c)], Pending(false, slice[i + 1..]));
        buffer := buffer + [Escaped(c)];
        quoted := false;
      } else if c == '\\' {
        quoted := true;
      } else {
        Regroup(buffer, [c], Pending(false, slice[i + 1..]));
        buffer := buffer + [c];
      }
    }
    assert slice[|slice|..] == [];
    assert Pending(quoted, []) == [];
    assert buffer + [] == buffer;
  }

  lemma {:induction false} UnescapeShrinks(s: string)
    ensures |Unescape(s)| <= |s|
    decreases |s|
  {
    if s != [] {
      if s[0] == '\\' {
        if |s| > 1 {
          UnescapeShrinks(s[2..]);
        }
      } else {
        UnescapeShrinks(s[1..]);
      }
    }
  }

  /** Decoding never makes a string longer. */
  lemma {:induction false} DecodedShrinks(s: string)
    ensures |Decoded(s)| <= |s|
  {
    UnescapeShrinks(StripQuotes(s));
  }

  lemma {:induction false} UnescapePlain(s: string)
    requires forall k :: 0 <= k < |s| ==> s[k] != '\\'
    ensures Unescape(s) == s
    decreases |s|
  {
    if s != [] {
      UnescapePlain(s[1..]);
    }
  }

  /** Text with no backslash and no surrounding quotes comes out unchanged. */
  lemma {:induction false} DecodedPlain(s: string)
    requires forall k :: 0 <= k < |s| ==> s[k] != '\\'
    requires !(|s| >= 2 && s[0] == '"' && s[|s| - 1] == '"')
    ensures Decoded(s) == s
  {
    UnescapePlain(s);
  }

  /** The escape pairs decode to the characters they stand for. */
  lemma {:induction false} EscapePairExamples()
    ensures Decoded("a\\nb") == "a\nb"
    ensures Decoded("\\r\\t\\\\\\\"") == "\r\t\\\""
  {
    assert "a\\nb"[1..][2..] == "b";
    assert "\\r\\t\\\\\\\""[2..] == "\\t\\\\\\\"";
    assert "\\t\\\\\\\""[2..] == "\\\\\\\"";
    assert "\\\\\\\""[2..] == "\\\"";
  }

  /** An unknown escape gives the escaped character; a trailing lone backslash is dropped. */
  lemma {:induction false} EscapeEdgeExamples()
    ensures Decoded("\\q") == "q"
    ensures Decoded("ab\\") == "ab"
  {
    assert Unescape("\\q"[2..]) == [];
    assert "ab\\"[1..][1..] == "\\";
  }

  /** One pair of surrounding quotes is stripped, and only from text at least two long. */
  lemma {:induction false} QuoteExamples()
    ensures Decoded("\"x\"") == "x"
    ensures Decoded("\"\"x\"\"") == "\"x\""
    ensures Decoded("\"") == "\""
  {
    assert "\"\"x\"\""[1..4] == "\"x\"";
  }

  // ---- Literals and primaries ----

  /** `parse_value`. */
  function ParseValue(pair: Pair): (v: V.Value)
    ensures pair.rule != Number && pair.rule != String ==> v == V.String("")
    ensures pair.rule == Number ==> (v.Float? <==> '.' in pair.text || 'e' in pair.text) && (v.Float? || v.Integer?)
    ensures v.Integer? ==> I64_MIN <= v.i <= I64_MAX
    ensures v.Integer? && ParseInt(pair.text, I64_MIN, I64_MAX).None? ==> v.i == 0
    ensures pair.rule == String ==> v == V.String(Decoded(pair.text))
  {
    if pair.rule == Number then
      if '.' in pair.text || 'e' in pair.text then V.Float(Parsed(pair.text))
      else V.Integer(ParseInt(pair.text, I64_MIN, I64_MAX).GetOr(0))
    else if pair.rule == String then V.String(Decoded(pair.text))
    else V.String("")
  }

  /** An integer literal written the way `i64` prints reads back as that integer. */
  lemma {:induction false} ParseValueOfIntText(i: int)
    requires I64_MIN <= i <= I64_MAX
    ensures ParseValue(Pair(Number, IntText(i), [])) == V.Integer(i)
  {
    var t := IntText(i);
    ParseIntText(i, I64_MIN, I64_MAX);
    assert forall k :: 0 <= k < |t| ==> t[k] == '-' || IsDigit(t[k]);
    assert '.' !in t && 'e' !in t;
  }

  const PrimaryRules: set<Rule> := {Number, String, VariableIdentifier}

  /** The primary a number, string or variable pair stands for. */
  function PrimaryOf(p: Pair): A.Expression
  {
    if p.rule == VariableIdentifier then A.Identifier(p.text) else A.Literal(ParseValue(p))
  }

  /** `parse_expression`: the first number, string or variable inside; the integer 0 when there is none. */
  function ParseExpression(pairs: seq<Pair>): (x: A.Expression)
    ensures x == match FirstIn(pairs, PrimaryRules)
      case None => A.Literal(V.Integer(0))
      case Some(p) => PrimaryOf(p)
  {
    if pairs == [] then A.Literal(V.Integer(0))
    else if pairs[0].rule == Number || pairs[0].rule == String then A.Literal(ParseValue(pairs[0]))
    else if pairs[0].rule == VariableIdentifier then A.Identifier(pairs[0].text)
    else ParseExpression(pairs[1..])
  }

  // ---- Elements: what each builder produces, and the builders ----

  function SheetOf(pairs: seq<Pair>): string
  {
    match LastText(pairs, SheetIdentifier)
    case Some(t) => Decoded(t)
    case None => ""
  }

  function AnchorOf(pairs: seq<Pair>): string
  {
    LastText(pairs, AnchorIdentifier).GetOr("")
  }

  function MoveOf(pairs: seq<Pair>): A.Move
  {
    A.Move(
      LastText(pairs, AnchorIdentifier),
      match LastText(pairs, MoverX) case Some(t) => ParseInt(t, I32_MIN, I32_MAX).GetOr(0) case None => 0,
      match LastText(pairs, MoverY) case Some(t) => ParseInt(t, I16_MIN, I16_MAX).GetOr(0) case None => 0)
  }

  /** The n-th number text read as a `u16`, 0 when it is missing or does not parse. */
  function U16At(nums: seq<string>, n: nat): U16
  {
    if n < |nums| then ParseInt(nums[n], 0, U16_MAX).GetOr(0) else 0
  }

  function ColumnOf(pairs: seq<Pair>): A.ColumnDef
  {
    var nums := TextsOf(pairs, Number);
    A.ColumnDef(
      U16At(nums, 0),
      U16At(nums, 1),
      LastText(pairs, WidthUnit).GetOr(""),
      if |nums| > 2 then Parsed(nums[2]) else Zero)
  }

  function RowSpecOf(pairs: seq<Pair>): A.RowSpecDef
  {
    var nums := TextsOf(pairs, Number);
    A.RowSpecDef(
      if |nums| > 0 then ParseInt(nums[0], 0, U32_MAX).GetOr(0) else 0,
      LastText(pairs, WidthUnit).GetOr(""),
      if |nums| > 1 then Parsed(nums[1]) else Zero)
  }

  /** The cell type a `cell_type` text names; anything unknown is `Str`. */
  function CellTypeOf(t: string): (c: A.CellType)
    ensures t != "num" && t != "date" && t != "img" ==> c == A.Str
  {
    match t
    case "num" => A.Num
    case "str" => A.Str
    case "date" => A.Date
    case "img" => A.Image
    case _ => A.Str
  }

  /** A span: the last number inside the span pairs, 1 when there is none or it does not parse as a `u16`. */
  function SpanOf(children: seq<Pair>): U16
  {
    match LastText(children, Number)
    case Some(t) => ParseInt(t, 0, U16_MAX).GetOr(1)
    case None => 1
  }

  /** A cell's value: a primary `expression`, or an operator `expr` through the precedence parser. */
  function CellValueOf(p: Pair, pratt: Pratt): A.Expr
  {
    if p.rule == Expression then A.Primary(ParseExpression(p.children)) else pratt(p.children)
  }

  /** The value of a cell: its last `expression` or `expr` child, or the integer 0. */
  function CellValue(pairs: seq<Pair>, pratt: Pratt): A.Expr
  {
    match LastIn(pairs, {Expression, Expr}) case Some(p) => CellValueOf(p, pratt) case None => A.Primary(A.Literal(V.Integer(0)))
  }

  function CellOf(pairs: seq<Pair>, pratt: Pratt): A.Cell
  {
    A.Cell(
      match LastText(pairs, CellType) case Some(t) => CellTypeOf(t) case None => A.Str,
      CellValue(pairs, pratt),
      LastText(pairs, FormatIdentifier),
      SpanOf(ChildrenOf(pairs, Colspan)),
      SpanOf(ChildrenOf(pairs, Rowspan)),
      LastText(pairs, ImageMode))
  }

  function CellsOf(pairs: seq<Pair>, pratt: Pratt): (cells: seq<A.Cell>)
    ensures |cells| == |TextsOf(pairs, Cell)|
  {
    if pairs == [] then []
    else
      var last := pairs[|pairs| - 1];
      CellsOf(pairs[..|pairs| - 1], pratt) + if last.rule == Cell then [CellOf(last.children, pratt)] else []
  }

  /** A modifier from the pairs inside a `format_modifier`: its statement (or "") and expression (or the default). */
  function ModifierOf(pairs: seq<Pair>, pratt: Pratt): A.Modifier
  {
    A.Modifier(
      LastText(pairs, ModifierStatement).GetOr(""),
      match LastIn(pairs, {Expr}) case Some(q) => pratt(q.children) case None => A.DefaultExpr)
  }

  function ModifiersOf(pairs: seq<Pair>, pratt: Pratt): (modifiers: seq<A.Modifier>)
    ensures |modifiers| == |TextsOf(pairs, FormatModifier)|
  {
    if pairs == [] then []
    else
      var last := pairs[|pairs| - 1];
      ModifiersOf(pairs[..|pairs| - 1], pratt) + if last.rule == FormatModifier then [ModifierOf(last.children, pratt)] else []
  }

  function FormatOf(pairs: seq<Pair>, pratt: Pratt): A.FormatDef
  {
    A.FormatDef(LastText(pairs, FormatIdentifier).GetOr(""), ModifiersOf(pairs, pratt))
  }

  /** The element a pair stands for; None for a pair that is not an element. */
  function ElementOf(pair: Pair, pratt: Pratt): (e: Option<A.Element>)
    ensures pair.rule in {VariableIdentifier, Expression} ==> e.None?
    decreases pair, 0
  {
    match pair.rule
    case FormatDeclaration => Some(A.Format(FormatOf(pair.children, pratt)))
    case Sheet => Some(A.Sheet(SheetOf(pair.children)))
    case Anchor => Some(A.Anchor(AnchorOf(pair.children)))
    case Mover => Some(A.Mover(MoveOf(pair.children)))
    case Column => Some(A.Column(ColumnOf(pair.children)))
    case Rowspec => Some(A.RowSpec(RowSpecOf(pair.children)))
    case Cr => Some(A.Cr)
    case Autofit => Some(A.Autofit)
    case Row => Some(A.Row(A.RowDef(CellsOf(pair.children, pratt))))
    case ForLoop => Some(A.ForLoop(LoopOf(pair.children, pratt)))
    case _ => None
  }

  /** The elements of a list of pairs, in order, skipping pairs that are not elements. */
  function ElementsOf(pairs: seq<Pair>, pratt: Pratt): (es: seq<A.Element>)
    ensures |es| <= |pairs|
    decreases pairs, 0
  {
    if pairs == [] then []
    else
      var init := ElementsOf(pairs[..|pairs| - 1], pratt);
      match ElementOf(pairs[|pairs| - 1], pratt)
      case Some(e) => init + [e]
      case None => init
  }

  /**
   * A loop: its variable (or ""), its source (or the integer 0), and as its body
   * the elements among the remaining pairs.
   */
  function LoopOf(pairs: seq<Pair>, pratt: Pratt): A.LoopDef
    decreases pairs, 1
  {
    A.LoopDef(
      LastText(pairs, VariableIdentifier).GetOr(""),
      match LastIn(pairs, {Expression}) case Some(p) => ParseExpression(p.children) case None => A.Literal(V.Integer(0)),
      ElementsOf(pairs, pratt))
  }

  // ---- The builders ----

  lemma {:induction false} Snoc(pairs: seq<Pair>, i: nat)
    requires i < |pairs|
    ensures pairs[..i + 1][..i] == pairs[..i] && pairs[..i + 1][i] == pairs[i]
  {
  }

  lemma {:induction false} LastInSnoc(pairs: seq<Pair>, i: nat, rules: set<Rule>)
    requires i < |pairs|
    ensures LastIn(pairs[..i + 1], rules) == if pairs[i].rule in rules then Some(pairs[i]) else LastIn(pairs[..i], rules)
  {
    Snoc(pairs, i);
  }

  lemma {:induction false} LastTextSnoc(pairs: seq<Pair>, i: nat, rule: Rule)
    requires i < |pairs|
    ensures LastText(pairs[..i + 1], rule) == if pairs[i].rule == rule then Some(pairs[i].text) else LastText(pairs[..i], rule)
  {
    Snoc(pairs, i);
  }

  lemma {:induction false} TextsSnoc(pairs: seq<Pair>, i: nat, rule: Rule)
    requires i < |pairs|
    ensures TextsOf(pairs[..i + 1], rule) == TextsOf(pairs[..i], rule) + if pairs[i].rule == rule then [pairs[i].text] else []
  {
    Snoc(pairs, i);
  }

  /** `k` is the source's `number_idx`: the numbers seen so far, counted up to `cap`. */
  predicate Counted(pairs: seq<Pair>, k: nat, cap: nat)
  {
    k <= cap && (k < cap ==> k == |TextsOf(pairs, Number)|) && (k == cap ==> |TextsOf(pairs, Number)| >= cap)
  }

  lemma {:induction false} CountStep(pairs: seq<Pair>, i: nat, k: nat, k': nat, cap: nat)
    requires i < |pairs| && Counted(pairs[..i], k, cap)
    requires k' == if pairs[i].rule == Number && k < cap then k + 1 else k
    ensures Counted(pairs[..i + 1], k', cap)
  {
    TextsSnoc(pairs, i, Number);
    assert |TextsOf(pairs[..i + 1], Number)| == |TextsOf(pairs[..i], Number)| + if pairs[i].rule == Number then 1 else 0;
  }

  /** One more pair changes at most one field of a column: the first three numbers go to start, end and width. */
  lemma {:induction false} ColumnStep(pairs: seq<Pair>, i: nat, k: nat)
    requires i < |pairs| && Counted(pairs[..i], k, 3)
    ensures var before := ColumnOf(pairs[..i]);
      var t := pairs[i].text;
      ColumnOf(pairs[..i + 1]) ==
        if pairs[i].rule == Number then
          if k == 0 then before.(start := ParseInt(t, 0, U16_MAX).GetOr(0))
          else if k == 1 then before.(end := ParseInt(t, 0, U16_MAX).GetOr(0))
          else if k == 2 then before.(width := Parsed(t))
          else before
        else if pairs[i].rule == WidthUnit then before.(unit := t)
        else before
  {
    TextsSnoc(pairs, i, Number);
    LastTextSnoc(pairs, i, WidthUnit);
  }

  /** One more pair changes at most one field of a row specification: the first two numbers go to start and height. */
  lemma {:induction false} RowSpecStep(pairs: seq<Pair>, i: nat, k: nat)
    requires i < |pairs| && Counted(pairs[..i], k, 2)
    ensures var before := RowSpecOf(pairs[..i]);
      var t := pairs[i].text;
      RowSpecOf(pairs[..i + 1]) ==
        if pairs[i].rule == Number then
          if k == 0 then before.(start := ParseInt(t, 0, U32_MAX).GetOr(0))
          else if k == 1 then before.(height := Parsed(t))
          else before
        else if pairs[i].rule == WidthUnit then before.(unit := t)
        else before
  {
    TextsSnoc(pairs, i, Number);
    LastTextSnoc(pairs, i, WidthUnit);
  }

  lemma {:induction false} ChildrenSnoc(pairs: seq<Pair>, i: nat, rule: Rule)
    requires i < |pairs|
    ensures ChildrenOf(pairs[..i + 1], rule) == ChildrenOf(pairs[..i], rule) + if pairs[i].rule == rule then pairs[i].children else []
  {
    Snoc(pairs, i);
  }

  /** The span after one more pair: a span pair's numbers override, anything else keeps it. */
  lemma {:induction false} SpanStep(pairs: seq<Pair>, i: nat, rule: Rule)
    requires i < |pairs|
    ensures SpanOf(ChildrenOf(pairs[..i + 1], rule)) ==
      if pairs[i].rule != rule then SpanOf(ChildrenOf(pairs[..i], rule))
      else match LastText(pairs[i].children, Number)
        case Some(t) => ParseInt(t, 0, U16_MAX).GetOr(1)
        case None => SpanOf(ChildrenOf(pairs[..i], rule))
  {
    ChildrenSnoc(pairs, i, rule);
    if pairs[i].rule == rule {
      SpanAppend(ChildrenOf(pairs[..i], rule), pairs[i].children);
    } else {
      assert ChildrenOf(pairs[..i], rule) + [] == ChildrenOf(pairs[..i], rule);
    }
  }

  lemma {:induction false} ValueStep(pairs: seq<Pair>, i: nat, pratt: Pratt)
    requires i < |pairs|
    ensures CellValue(pairs[..i + 1], pratt) ==
      if pairs[i].rule == Expression then A.Primary(ParseExpression(pairs[i].children))
      else if pairs[i].rule == Expr then pratt(pairs[i].children)
      else CellValue(pairs[..i], pratt)
  {
    var p := pairs[i];
    LastInSnoc(pairs, i, {Expression, Expr});
    if p.rule == Expression || p.rule == Expr {
      assert LastIn(pairs[..i + 1], {Expression, Expr}) == Some(p);
    } else {
      assert p.rule !in {Expression, Expr};
    }
  }

  /** One more pair changes at most one field of a cell. */
  lemma {:induction false} CellStep(pairs: seq<Pair>, i: nat, pratt: Pratt)
    requires i < |pairs|
    ensures var before := CellOf(pairs[..i], pratt);
      var after := CellOf(pairs[..i + 1], pratt);
      var p := pairs[i];
      && after.cellType == (if p.rule == CellType then CellTypeOf(p.text) else before.cellType)
      && after.value == (if p.rule == Expression then A.Primary(ParseExpression(p.children))
                         else if p.rule == Expr then pratt(p.children) else before.value)
      && after.format == (if p.rule == FormatIdentifier then Some(p.text) else before.format)
      && after.colspan == (if p.rule != Colspan then before.colspan else match LastText(p.children, Number)
                             case Some(t) => ParseInt(t, 0, U16_MAX).GetOr(1)
                             case None => before.colspan)
      && after.rowspan == (if p.rule != Rowspan then before.rowspan else match LastText(p.children, Number)
                             case Some(t) => ParseInt(t, 0, U16_MAX).GetOr(1)
                             case None => before.rowspan)
      && after.imageMode == (if p.rule == ImageMode then Some(p.text) else before.imageMode)
  {
    var before := CellOf(pairs[..i], pratt);
    var after := CellOf(pairs[..i + 1], pratt);
    LastTextSnoc(pairs, i, CellType);
    assert after.cellType == (if pairs[i].rule == CellType then CellTypeOf(pairs[i].text) else before.cellType);
    ValueStep(pairs, i, pratt);
    LastTextSnoc(pairs, i, FormatIdentifier);
    assert after.format == (if pairs[i].rule == FormatIdentifier then Some(pairs[i].text) else before.format);
    SpanStep(pairs, i, Colspan);
    SpanStep(pairs, i, Rowspan);
    LastTextSnoc(pairs, i, ImageMode);
  }

  /** `parse_sheet`: the last sheet identifier, decoded. */
  method ParseSheet(pairs: seq<Pair>) returns (name: string)
    ensures name == SheetOf(pairs)
  {
    name := "";
    for i := 0 to |pairs|
      invariant name == SheetOf(pairs[..i])
    {
      Snoc(pairs, i);
      if pairs[i].rule == SheetIdentifier {
        name := DecodeString(pairs[i].text);
      }
    }
    assert pairs[..|pairs|] == pairs;
  }

  /** `parse_anchor`: the last anchor identifier. */
  method ParseAnchor(pairs: seq<Pair>) returns (identifier: string)
    ensures identifier == AnchorOf(pairs)
  {
    identifier := "";
    for i := 0 to |pairs|
      invariant identifier == AnchorOf(pairs[..i])
    {
      Snoc(pairs, i);
      if pairs[i].rule == AnchorIdentifier {
        identifier := pairs[i].text;
      }
    }
    assert pairs[..|pairs|] == pairs;
  }

  /** One more pair changes at most one field of a move. */
  lemma {:induction false} MoveStep(pairs: seq<Pair>, i: nat)
    requires i < |pairs|
    ensures var before := MoveOf(pairs[..i]);
      var t := pairs[i].text;
      MoveOf(pairs[..i + 1]) ==
        if pairs[i].rule == AnchorIdentifier then before.(anchor := Some(t))
        else if pairs[i].rule == MoverX then before.(row := ParseInt(t, I32_MIN, I32_MAX).GetOr(0))
        else if pairs[i].rule == MoverY then before.(col := ParseInt(t, I16_MIN, I16_MAX).GetOr(0))
        else before
  {
    LastTextSnoc(pairs, i, AnchorIdentifier);
    LastTextSnoc(pairs, i, MoverX);
    LastTextSnoc(pairs, i, MoverY);
  }

  /** `parse_mover`. */
  method ParseMover(pairs: seq<Pair>) returns (m: A.Move)
    ensures m == MoveOf(pairs)
  {
    var anchor: Option<string> := None;
    var row: I32 := 0;
    var col: I16 := 0;
    for i := 0 to |pairs|
      invariant A.Move(anchor, row, col) == MoveOf(pairs[..i])
    {
      MoveStep(pairs, i);
      match pairs[i].rule {
        case AnchorIdentifier => anchor := Some(pairs[i].text);
        case MoverX => row := ParseInt(pairs[i].text, I32_MIN, I32_MAX).GetOr(0);
        case MoverY => col := ParseInt(pairs[i].text, I16_MIN, I16_MAX).GetOr(0);
        case _ =>
      }
    }
    assert pairs[..|pairs|] == pairs;
    m := A.Move(anchor, row, col);
  }

  /** `parse_column`: a counter routes the first three numbers to start, end and width. */
  method ParseColumn(pairs: seq<Pair>) returns (c: A.ColumnDef)
    ensures c == ColumnOf(pairs)
  {
    var unit := "";
    var start: U16 := 0;
    var end: U16 := 0;
    var width := Zero;
    var numberIdx: nat := 0;
    for i := 0 to |pairs|
      invariant Counted(pairs[..i], numberIdx, 3)
      invariant A.ColumnDef(start, end, unit, width) == ColumnOf(pairs[..i])
    {
      var pair := pairs[i];
      ColumnStep(pairs, i, numberIdx);
      ghost var next: nat := if pair.rule == Number && numberIdx < 3 then numberIdx + 1 else numberIdx;
      CountStep(pairs, i, numberIdx, next, 3);
      if pair.rule == Number {
        if numberIdx == 0 {
          start := ParseInt(pair.text, 0, U16_MAX).GetOr(0);
          numberIdx := numberIdx + 1;
        } else if numberIdx == 1 {
          end := ParseInt(pair.text, 0, U16_MAX).GetOr(0);
          numberIdx := numberIdx + 1;
        } else if numberIdx == 2 {
          width := Parsed(pair.text);
          numberIdx := numberIdx + 1;
        }
      } else if pair.rule == WidthUnit {
        unit := pair.text;
      }
      assert numberIdx == next;
    }
    assert pairs[..|pairs|] == pairs;
    c := A.ColumnDef(start, end, unit, width);
  }

  /** `parse_rowspec`: a counter routes the first two numbers to start and height. */
  method ParseRowspec(pairs: seq<Pair>) returns (r: A.RowSpecDef)
    ensures r == RowSpecOf(pairs)
  {
    var unit := "";
    var start: U32 := 0;
    var height := Zero;
    var numberIdx: nat := 0;
    for i := 0 to |pairs|
      invariant Counted(pairs[..i], numberIdx, 2)
      invariant A.RowSpecDef(start, unit, height) == RowSpecOf(pairs[..i])
    {
      RowSpecStep(pairs, i, numberIdx);
      ghost var next: nat := if pairs[i].rule == Number && numberIdx < 2 then numberIdx + 1 else numberIdx;
      CountStep(pairs, i, numberIdx, next, 2);
      if pairs[i].rule == Number {
        if numberIdx == 0 {
          start := ParseInt(pairs[i].text, 0, U32_MAX).GetOr(0);
          numberIdx := numberIdx + 1;
        } else if numberIdx == 1 {
          height := Parsed(pairs[i].text);
          numberIdx := numberIdx + 1;
        }
      } else if pairs[i].rule == WidthUnit {
        unit := pairs[i].text;
      }
      assert numberIdx == next;
    }
    assert pairs[..|pairs|] == pairs;
    r := A.RowSpecDef(start, unit, height);
  }

  /** The inner loop of a span pair: every number inside replaces the span read so far. */
  method ReadSpan(children: seq<Pair>, span: U16) returns (r: U16)
    ensures r == match LastText(children, Number)
      case Some(t) => ParseInt(t, 0, U16_MAX).GetOr(1)
      case None => span
  {
    r := span;
    for i := 0 to |children|
      invariant r == match LastText(children[..i], Number)
        case Some(t) => ParseInt(t, 0, U16_MAX).GetOr(1)
        case None => span
    {
      Snoc(children, i);
      if children[i].rule == Number {
        r := ParseInt(children[i].text, 0, U16_MAX).GetOr(1);
      }
    }
    assert children[..|children|] == children;
  }

  lemma {:induction false} SpanAppend(a: seq<Pair>, b: seq<Pair>)
    ensures SpanOf(a + b) == match LastText(b, Number)
      case Some(t) => ParseInt(t, 0, U16_MAX).GetOr(1)
      case None => SpanOf(a)
  {
    LastTextConcat(a, b, Number);
  }

  /** `parse_cell`. */
  method ParseCell(pairs: seq<Pair>, pratt: Pratt) returns (cell: A.Cell)
    ensures cell == CellOf(pairs, pratt)
  {
    var value := A.Primary(A.Literal(V.Integer(0)));
    var format: Option<string> := None;
    var cellType := A.Str;
    var colspan: U16 := 1;
    var rowspan: U16 := 1;
    var imageMode: Option<string> := None;
    for i := 0 to |pairs|
      invariant A.Cell(cellType, value, format, colspan, rowspan, imageMode) == CellOf(pairs[..i], pratt)
    {
      var pair := pairs[i];
      CellStep(pairs, i, pratt);
      match pair.rule {
        case CellType => cellType := CellTypeOf(pair.text);
        case FormatIdentifier => format := Some(pair.text);
        case Expression => value := A.Primary(ParseExpression(pair.children));
        case Expr => value := pratt(pair.children);
        case ImageMode => imageMode := Some(pair.text);
        case Colspan => colspan := ReadSpan(pair.children, colspan);
        case Rowspan => rowspan := ReadSpan(pair.children, rowspan);
        case _ =>
      }
    }
    assert pairs[..|pairs|] == pairs;
    cell := A.Cell(cellType, value, format, colspan, rowspan, imageMode);
  }

  /** `parse_row`: one cell per `cell` pair, in order. */
  method ParseRow(pairs: seq<Pair>, pratt: Pratt) returns (row: A.RowDef)
    ensures row == A.RowDef(CellsOf(pairs, pratt))
  {
    var cells := [];
    for i := 0 to |pairs|
      invariant cells == CellsOf(pairs[..i], pratt)
    {
      Snoc(pairs, i);
      if pairs[i].rule == Cell {
        var cell := ParseCell(pairs[i].children, pratt);
        cells := cells + [cell];
      }
    }
    assert pairs[..|pairs|] == pairs;
    row := A.RowDef(cells);
  }

  /** One more pair sets the statement or the expression of a modifier, or neither. */
  lemma {:induction false} ModifierStep(pairs: seq<Pair>, i: nat, pratt: Pratt)
    requires i < |pairs|
    ensures var before := ModifierOf(pairs[..i], pratt);
      var p := pairs[i];
      ModifierOf(pairs[..i + 1], pratt) ==
        if p.rule == ModifierStatement then before.(statement := p.text)
        else if p.rule == Expr then before.(expression := pratt(p.children))
        else before
  {
    LastTextSnoc(pairs, i, ModifierStatement);
    LastInSnoc(pairs, i, {Expr});
  }

  /** The inner loop of `parse_format` over the pairs of one `format_modifier`. */
  method ParseModifier(pairs: seq<Pair>, pratt: Pratt) returns (m: A.Modifier)
    ensures m == ModifierOf(pairs, pratt)
  {
    var statement := "";
    var expression := A.DefaultExpr;
    for i := 0 to |pairs|
      invariant A.Modifier(statement, expression) == ModifierOf(pairs[..i], pratt)
    {
      ModifierStep(pairs, i, pratt);
      if pairs[i].rule == ModifierStatement {
        statement := pairs[i].text;
      } else if pairs[i].rule == Expr {
        expression := pratt(pairs[i].children);
      }
    }
    assert pairs[..|pairs|] == pairs;
    m := A.Modifier(statement, expression);
  }

  /** One more pair sets the identifier, appends a modifier, or leaves the format as it was. */
  lemma {:induction false} FormatStep(pairs: seq<Pair>, i: nat, pratt: Pratt)
    requires i < |pairs|
    ensures var before := FormatOf(pairs[..i], pratt);
      var p := pairs[i];
      FormatOf(pairs[..i + 1], pratt) ==
        if p.rule == FormatIdentifier then before.(identifier := p.text)
        else if p.rule == FormatModifier then before.(modifiers := before.modifiers + [ModifierOf(p.children, pratt)])
        else before
  {
    Snoc(pairs, i);
    LastTextSnoc(pairs, i, FormatIdentifier);
    assert ModifiersOf(pairs[..i + 1], pratt) == ModifiersOf(pairs[..i], pratt)
      + if pairs[i].rule == FormatModifier then [ModifierOf(pairs[i].children, pratt)] else [];
  }

  /** `parse_format`. */
  method ParseFormat(pairs: seq<Pair>, pratt: Pratt) returns (f: A.FormatDef)
    ensures f == FormatOf(pairs, pratt)
  {
    var identifier := "";
    var modifiers := [];
    for i := 0 to |pairs|
      invariant A.FormatDef(identifier, modifiers) == FormatOf(pairs[..i], pratt)
    {
      FormatStep(pairs, i, pratt);
      if pairs[i].rule == FormatIdentifier {
        identifier := pairs[i].text;
      } else if pairs[i].rule == FormatModifier {
        var m := ParseModifier(pairs[i].children, pratt);
        modifiers := modifiers + [m];
      }
    }
    assert pairs[..|pairs|] == pairs;
    f := A.FormatDef(identifier, modifiers);
  }

  /** One more pair sets the variable or the source, or adds the element it stands for to the body. */
  lemma {:induction false} LoopStep(pairs: seq<Pair>, i: nat, pratt: Pratt)
    requires i < |pairs|
    ensures var before := LoopOf(pairs[..i], pratt);
      var p := pairs[i];
      LoopOf(pairs[..i + 1], pratt) ==
        if p.rule == VariableIdentifier then before.(variable := p.text)
        else if p.rule == Expression then before.(source := ParseExpression(p.children))
        else match ElementOf(p, pratt)
          case Some(e) => before.(body := before.body + [e])
          case None => before
  {
    Snoc(pairs, i);
    LastTextSnoc(pairs, i, VariableIdentifier);
    LastInSnoc(pairs, i, {Expression});
    assert ElementsOf(pairs[..i + 1], pratt) == match ElementOf(pairs[i], pratt)
      case Some(e) => ElementsOf(pairs[..i], pratt) + [e]
      case None => ElementsOf(pairs[..i], pratt);
  }

  /** `parse_for_loop`: variable and source are read off; every other child that is an element joins the body. */
  method ParseForLoop(pairs: seq<Pair>, pratt: Pratt) returns (lp: A.LoopDef)
    ensures lp == LoopOf(pairs, pratt)
    decreases pairs, 1
  {
    var variable := "";
    var expression := A.Literal(V.Integer(0));
    var elements := [];
    for i := 0 to |pairs|
      invariant A.LoopDef(variable, expression, elements) == LoopOf(pairs[..i], pratt)
    {
      LoopStep(pairs, i, pratt);
      if pairs[i].rule == VariableIdentifier {
        variable := pairs[i].text;
      } else if pairs[i].rule == Expression {
        expression := ParseExpression(pairs[i].children);
      } else {
        var e := ParseElement(pairs[i], pratt);
        if e.Some? {
          elements := elements + [e.value];
        }
      }
    }
    assert pairs[..|pairs|] == pairs;
    lp := A.LoopDef(variable, expression, elements);
  }

  /** `parse_element`: dispatch on the rule; a pair that is not an element gives None. */
  method ParseElement(pair: Pair, pratt: Pratt) returns (e: Option<A.Element>)
    ensures e == ElementOf(pair, pratt)
    decreases pair, 0
  {
    match pair.rule {
      case FormatDeclaration =>
        var f := ParseFormat(pair.children, pratt);
        e := Some(A.Format(f));
      case Sheet =>
        var name := ParseSheet(pair.children);
        e := Some(A.Sheet(name));
      case Anchor =>
        var identifier := ParseAnchor(pair.children);
        e := Some(A.Anchor(identifier));
      case Mover =>
        var m := ParseMover(pair.children);
        e := Some(A.Mover(m));
      case Column =>
        var c := ParseColumn(pair.children);
        e := Some(A.Column(c));
      case Rowspec =>
        var r := ParseRowspec(pair.children);
        e := Some(A.RowSpec(r));
      case Cr => e := Some(A.Cr);
      case Autofit => e := Some(A.Autofit);
      case Row =>
        var row := ParseRow(pair.children, pratt);
        e := Some(A.Row(row));
      case ForLoop =>
        var lp := ParseForLoop(pair.children, pratt);
        e := Some(A.ForLoop(lp));
      case _ => e := None;
    }
  }

  /** `parse_elements`: the elements among the top-level pairs, in order. */
  method ParseElements(pairs: seq<Pair>, pratt: Pratt) returns (elements: seq<A.Element>)
    ensures elements == ElementsOf(pairs, pratt)
  {
    elements := [];
    for i := 0 to |pairs|
      invariant elements == ElementsOf(pairs[..i], pratt)
    {
      Snoc(pairs, i);
      var e := ParseElement(pairs[i], pratt);
      if e.Some? {
        elements := elements + [e.value];
      }
    }
    assert pairs[..|pairs|] == pairs;
  }

  // ---- Properties of the builders ----

  lemma {:induction false} ChildrenOfAbsent(pairs: seq<Pair>, rule: Rule)
    requires forall k :: 0 <= k < |pairs| ==> pairs[k].rule != rule
    ensures ChildrenOf(pairs, rule) == []
  {
    if pairs != [] {
      ChildrenOfAbsent(pairs[..|pairs| - 1], rule);
    }
  }

  /** A cell with none of the cell attributes gets the defaults: Str, the integer 0, no format, spans 1, no image mode. */
  lemma {:induction false} CellDefaults(pairs: seq<Pair>, pratt: Pratt)
    requires forall k :: 0 <= k < |pairs| ==> pairs[k].rule !in {CellType, Expression, Expr, FormatIdentifier, Colspan, Rowspan, ImageMode}
    ensures CellOf(pairs, pratt) == A.Cell(A.Str, A.Primary(A.Literal(V.Integer(0))), None, 1, 1, None)
  {
    ChildrenOfAbsent(pairs, Colspan);
    ChildrenOfAbsent(pairs, Rowspan);
    LastTextAbsent(pairs, CellType);
    assert LastIn(pairs, {Expression, Expr}).None?;
    LastTextAbsent(pairs, FormatIdentifier);
    LastTextAbsent(pairs, ImageMode);
  }

  /** A span reads its number as a `u16`; text that is not one (not digits, or too large) gives 1. */
  lemma {:induction false} SpanExamples()
    ensures SpanOf([Pair(Number, "3", [])]) == 3
    ensures SpanOf([Pair(Number, "x", [])]) == 1
    ensures SpanOf([Pair(Number, "70000", [])]) == 1
    ensures SpanOf([Pair(Number, "4", []), Pair(Other("ws"), " ", []), Pair(Number, "2", [])]) == 2
    ensures SpanOf([]) == 1
  {
    var three := [Pair(Number, "3", [])];
    assert Digits("3") == Some(3);
    var x := [Pair(Number, "x", [])];
    assert !IsDigit("x"[0]);
    var big := [Pair(Number, "70000", [])];
    assert Digits("70000") == Some(70000) by {
      assert DigitsIn("70000", 0, 2) == Some(70);
      assert DigitsIn("70000", 0, 4) == Some(7000);
    }
    var two := [Pair(Number, "4", []), Pair(Other("ws"), " ", []), Pair(Number, "2", [])];
    assert Digits("2") == Some(2);
  }

  /** A fourth (or later) number does not change a column. */
  lemma {:induction false} ColumnIgnoresExtras(pairs: seq<Pair>, p: Pair)
    requires |TextsOf(pairs, Number)| >= 3
    ensures ColumnOf(pairs + [p]) == if p.rule == WidthUnit then ColumnOf(pairs).(unit := p.text) else ColumnOf(pairs)
  {
    var all := pairs + [p];
    assert all[..|pairs|] == pairs;
    ColumnStep(all, |pairs|, 3);
    assert all[..|pairs| + 1] == all;
  }

  /** A third (or later) number does not change a row specification. */
  lemma {:induction false} RowSpecIgnoresExtras(pairs: seq<Pair>, p: Pair)
    requires |TextsOf(pairs, Number)| >= 2
    ensures RowSpecOf(pairs + [p]) == if p.rule == WidthUnit then RowSpecOf(pairs).(unit := p.text) else RowSpecOf(pairs)
  {
    var all := pairs + [p];
    assert all[..|pairs|] == pairs;
    RowSpecStep(all, |pairs|, 2);
    assert all[..|pairs| + 1] == all;
  }

  lemma {:induction false} ColumnExampleParts(pairs: seq<Pair>)
    requires pairs == [Pair(Number, "2", []), Pair(Number, "5", []), Pair(Number, "1.5", []), Pair(WidthUnit, "cm", [])]
    ensures TextsOf(pairs, Number) == ["2", "5", "1.5"]
    ensures LastText(pairs, WidthUnit) == Some("cm")
  {
    assert pairs[..0] == [];
    TextsSnoc(pairs, 0, Number);
    TextsSnoc(pairs, 1, Number);
    TextsSnoc(pairs, 2, Number);
    TextsSnoc(pairs, 3, Number);
    assert pairs[..4] == pairs;
  }

  /** The numbers of a column go to start, end and width in that order, whatever lies between them. */
  lemma {:induction false} ColumnExample()
    ensures ColumnOf([Pair(Number, "2", []), Pair(Number, "5", []), Pair(Number, "1.5", []), Pair(WidthUnit, "cm", [])])
      == A.ColumnDef(2, 5, "cm", Parsed("1.5"))
  {
    ColumnExampleParts([Pair(Number, "2", []), Pair(Number, "5", []), Pair(Number, "1.5", []), Pair(WidthUnit, "cm", [])]);
    assert ParseInt("2", 0, U16_MAX) == Some(2);
    assert ParseInt("5", 0, U16_MAX) == Some(5);
  }

  /** The last `mover_x` decides the row: its value as an `i32`, or 0 when it is not one. */
  lemma {:induction false} MoverLastWins(pairs: seq<Pair>, t: string, inner: seq<Pair>)
    ensures MoveOf(pairs + [Pair(MoverX, t, inner)]).row == ParseInt(t, I32_MIN, I32_MAX).GetOr(0)
    ensures MoveOf(pairs + [Pair(MoverX, t, inner)]).col == MoveOf(pairs).col
    ensures MoveOf(pairs + [Pair(MoverX, t, inner)]).anchor == MoveOf(pairs).anchor
  {
    var all := pairs + [Pair(MoverX, t, inner)];
    assert all[..|pairs|] == pairs;
    LastTextSnoc(all, |pairs|, MoverX);
    LastTextSnoc(all, |pairs|, MoverY);
    LastTextSnoc(all, |pairs|, AnchorIdentifier);
    assert all[..|pairs| + 1] == all;
  }

  /** Without an `anchor_identifier` a move is relative to the cursor. */
  lemma {:induction false} MoverWithoutAnchor(pairs: seq<Pair>)
    requires forall k :: 0 <= k < |pairs| ==> pairs[k].rule != AnchorIdentifier
    ensures MoveOf(pairs).anchor.None?
  {
    LastTextAbsent(pairs, AnchorIdentifier);
  }

  /** Building elements distributes over concatenation of the pair list. */
  lemma {:induction false} ElementsConcat(a: seq<Pair>, b: seq<Pair>, pratt: Pratt)
    ensures ElementsOf(a + b, pratt) == ElementsOf(a, pratt) + ElementsOf(b, pratt)
    decreases |b|
  {
    if b == [] {
      assert a + b == a;
    } else {
      var init := b[..|b| - 1];
      assert (a + b)[..|a + b| - 1] == a + init;
      assert (a + b)[|a + b| - 1] == b[|b| - 1];
      ElementsConcat(a, init, pratt);
    }
  }

  /** Pairs that are not elements (a loop's variable and source among them) leave no trace in a body. */
  lemma {:induction false} NonElementsSkipped(pairs: seq<Pair>, p: Pair, pratt: Pratt)
    requires p.rule in {VariableIdentifier, Expression} || p.rule.Other?
    ensures ElementsOf(pairs + [p], pratt) == ElementsOf(pairs, pratt)
  {
    ElementsConcat(pairs, [p], pratt);
    assert [p][..0] == [];
  }

  /** A loop with no `expression` child iterates over the integer 0 (which is not an array, so not at all). */
  lemma {:induction false} LoopWithoutSource(pairs: seq<Pair>, pratt: Pratt)
    requires forall k :: 0 <= k < |pairs| ==> pairs[k].rule != Expression
    ensures LoopOf(pairs, pratt).source == A.Literal(V.Integer(0))
  {
    assert LastIn(pairs, {Expression}).None?;
  }

  /** The first primary wins, whatever follows it. */
  lemma {:induction false} ParseExpressionExample()
    ensures ParseExpression([Pair(Other("ws"), " ", []), Pair(VariableIdentifier, "$x", []), Pair(Number, "1", [])])
      == A.Identifier("$x")
    ensures ParseExpression([Pair(String, "\"hi\"", []), Pair(VariableIdentifier, "$x", [])])
      == A.Literal(V.String("hi"))
  {
    var ps := [Pair(Other("ws"), " ", []), Pair(VariableIdentifier, "$x", []), Pair(Number, "1", [])];
    assert ps[1..] == [Pair(VariableIdentifier, "$x", []), Pair(Number, "1", [])];
    assert "\"hi\""[1..3] == "hi";
    DecodedPlain("hi");
  }
}
