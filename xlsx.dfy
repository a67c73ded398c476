/**
 * The spreadsheet writer's cursor: where the next row goes (`row`, `col`), the
 * positions remembered under anchor names, the formats registered by name, and the
 * worksheet being filled. Every call into the spreadsheet library is kept as a
 * `Call` record appended to the worksheet; whether the library accepts a call is
 * a parameter (`Library`), since the library itself is not modelled.
 */
module Xlsx {
  import opened Diag
  import opened Numbers
  import V = Values
  import A = Ast

  // ---- Fixed-width arithmetic ----

  /** `u32` addition as a release build does it: wrapping modulo 2^32. */
  function Wrap32(x: int): (r: U32)
    ensures 0 <= x <= U32_MAX ==> r == x
    ensures x == U32_MAX + 1 ==> r == 0
  {
    x % (U32_MAX + 1)
  }

  /** `u16` addition as a release build does it: wrapping modulo 2^16. */
  function Wrap16(x: int): (r: U16)
    ensures 0 <= x <= U16_MAX ==> r == x
  {
    x % (U16_MAX + 1)
  }

  /** `x.checked_add_signed(d).unwrap_or_default()` for an unsigned type whose largest value is `max`. */
  function CheckedAdd(x: int, d: int, max: int): (r: int)
    requires 0 <= max
    ensures 0 <= r <= max
    ensures 0 <= x + d <= max ==> r == x + d
    ensures x + d < 0 || x + d > max ==> r == 0
  {
    if 0 <= x + d <= max then x + d else 0
  }

  // ---- Library calls ----

  /**
   * The format a write passes to the library: a registered one, with the style it
   * had when the write was made (registering the name again later does not change
   * it), or one of the writer's three built-in formats.
   */
  datatype FormatRef = Registered(name: string, style: Style) | NumberFormat | DateFormat | DefaultFormat
  {
    /** The settings of the library format this refers to. */
    function Settings(): Style
    {
      match this
      case Registered(_, style) => style
      case NumberFormat => [NumFormat(NumberPattern)]
      case DateFormat => [NumFormat(DatePattern)]
      case DefaultFormat => []
    }
  }

  /** The pattern of the built-in number format. */
  const NumberPattern := "0.00"
  /** The pattern of the built-in date format. */
  const DatePattern := "dd/mm/yyyy hh:mm"

  datatype Call =
    | SetName(sheetName: string)
    | MergeRange(firstRow: int, firstCol: int, lastRow: int, lastCol: int, text: string, format: FormatRef)
    | WriteNumber(row: int, col: int, number: F64, format: FormatRef)
    | WriteString(row: int, col: int, text: string, format: FormatRef)
    | ParseDate(text: string)
    | WriteDate(row: int, col: int, text: string, format: FormatRef)
    | LoadImage(path: string)
    | InsertImageFit(row: int, col: int, path: string)
    | InsertImage(row: int, col: int, path: string)
    | AutofitColumns
    | ColumnWidth(start: int, end: int, width: F64, pixels: bool)
    | RowHeight(start: int, height: F64, pixels: bool)

  /** Whether the library accepts a call. */
  type Library = Call -> bool

  /** The error a refused library call turns into; the library's own message is not modelled. */
  const LibraryError := Message("XlsxError")

  datatype Worksheet = Worksheet(name: string, calls: seq<Call>)

  // ---- Formats ----

  datatype Side = AllSides | TopSide | BottomSide | LeftSide | RightSide

  datatype Alignment = AlignLeft | AlignRight | AlignCenter | AlignTop | AlignBottom | AlignVerticalCenter

  datatype BorderStyle =
    | NoBorder | Thin | Medium | Dashed | Dotted | Thick | Double | Hair
    | MediumDashed | DashDot | MediumDashDot | DashDotDot | MediumDashDotDot | SlantDashDot

  const BorderNames: seq<string> := ["none", "thin", "medium", "dashed", "dotted", "thick", "double", "hair",
    "medium_dashed", "dash_dot", "medium_dash_dot", "dash_dot_dot", "medium_dash_dot_dot", "slant_dash_dot"]

  /** The name each border style is spelled with. */
  function BorderName(b: BorderStyle): (name: string)
    ensures name in BorderNames
  {
    match b
    case NoBorder => "none"
    case Thin => "thin"
    case Medium => "medium"
    case Dashed => "dashed"
    case Dotted => "dotted"
    case Thick => "thick"
    case Double => "double"
    case Hair => "hair"
    case MediumDashed => "medium_dashed"
    case DashDot => "dash_dot"
    case MediumDashDot => "medium_dash_dot"
    case DashDotDot => "dash_dot_dot"
    case MediumDashDotDot => "medium_dash_dot_dot"
    case SlantDashDot => "slant_dash_dot"
  }

  /** `interpret_border`: a border name to its style; an unknown name gives a thin border. */
  function InterpretBorder(border: string): (b: BorderStyle)
    ensures border in BorderNames ==> BorderName(b) == border
    ensures border !in BorderNames ==> b == Thin
  {
    match border
    case "none" => NoBorder
    case "thin" => Thin
    case "medium" => Medium
    case "dashed" => Dashed
    case "dotted" => Dotted
    case "thick" => Thick
    case "double" => Double
    case "hair" => Hair
    case "medium_dashed" => MediumDashed
    case "dash_dot" => DashDot
    case "medium_dash_dot" => MediumDashDot
    case "dash_dot_dot" => DashDotDot
    case "medium_dash_dot_dot" => MediumDashDotDot
    case "slant_dash_dot" => SlantDashDot
    case _ => Thin
  }

  /** Every style is reached by exactly its own name. */
  lemma {:induction false} BorderNamesRoundTrip(b: BorderStyle)
    ensures InterpretBorder(BorderName(b)) == b
  {
  }

  /** One setting applied to a library format. */
  datatype Setter =
    | Bold | Italic | Underline | Strikethrough | Superscript | Subscript
    | FontColor(color: string)
    | NumFormat(pattern: string)
    | Align(alignment: Alignment)
    | Indent(level: int)
    | FontName(fontName: string)
    | FontSize(size: F64)
    | BackgroundColor(color: string)
    | Border(side: Side, style: BorderStyle)
    | BorderColor(side: Side, color: string)

  /** A library format, as the settings applied to a fresh one, in order. */
  type Style = seq<Setter>

  function AlignmentOf(param: string): Option<Alignment>
  {
    match param
    case "left" => Some(AlignLeft)
    case "right" => Some(AlignRight)
    case "center" => Some(AlignCenter)
    case "top" => Some(AlignTop)
    case "bottom" => Some(AlignBottom)
    case "verticalcenter" => Some(AlignVerticalCenter)
    case _ => None
  }

  /** The setting a format modifier applies; None for an unknown statement or a parameter that does not fit. */
  function SetterOf(statement: string, param: string): (s: Option<Setter>)
    ensures statement == "indent" ==> (s.Some? <==> ParseInt(param, 0, 255).Some?)
    ensures statement == "font_size" ==> (s.Some? <==> FloatSyntax(param))
  {
    match statement
    case "bold" => Some(Bold)
    case "italic" => Some(Italic)
    case "underline" => Some(Underline)
    case "strikethrough" => Some(Strikethrough)
    case "super" => Some(Superscript)
    case "sub" => Some(Subscript)
    case "color" => Some(FontColor(param))
    case "num" => Some(NumFormat(param))
    case "align" => (match AlignmentOf(param) case Some(a) => Some(Align(a)) case None => None)
    case "indent" => (match ParseInt(param, 0, 255) case Some(n) => Some(Indent(n)) case None => None)
    case "font_name" => Some(FontName(param))
    case "font_size" => if FloatSyntax(param) then Some(FontSize(Parsed(param))) else None
    case "background_color" => Some(BackgroundColor(param))
    case "border" => Some(Border(AllSides, InterpretBorder(param)))
    case "border_top" => Some(Border(TopSide, InterpretBorder(param)))
    case "border_bottom" => Some(Border(BottomSide, InterpretBorder(param)))
    case "border_left" => Some(Border(LeftSide, InterpretBorder(param)))
    case "border_right" => Some(Border(RightSide, InterpretBorder(param)))
    case "border_color" => Some(BorderColor(AllSides, param))
    case "border_top_color" => Some(BorderColor(TopSide, param))
    case "border_bottom_color" => Some(BorderColor(BottomSide, param))
    case "border_left_color" => Some(BorderColor(LeftSide, param))
    case "border_right_color" => Some(BorderColor(RightSide, param))
    case _ => None
  }

  /** The style a list of modifiers builds, each parameter read as the text of its (resolved) expression. */
  function StyleOf(modifiers: seq<A.Modifier>): (style: Style)
    ensures |style| <= |modifiers|
  {
    if modifiers == [] then []
    else
      var m := modifiers[|modifiers| - 1];
      StyleOf(modifiers[..|modifiers| - 1]) +
        match SetterOf(m.statement, m.expression.AsStr()) case Some(s) => [s] case None => []
  }

  // ---- Cells ----

  /** The built-in format for a cell type. */
  function TypeFormat(t: A.CellType): FormatRef
  {
    match t
    case Num => NumberFormat
    case Date => DateFormat
    case _ => DefaultFormat
  }

  /** The format a cell is written with: its named format when that is registered, else its type's. */
  function FormatFor(cell: A.Cell, formats: map<string, Style>): (f: FormatRef)
    ensures f.Registered? <==> cell.format.Some? && cell.format.value in formats
    ensures f.Registered? ==> f.name == cell.format.value && f.style == formats[f.name]
    ensures !f.Registered? ==> f == TypeFormat(cell.cellType)
    ensures f.Settings() ==
      if cell.format.Some? && cell.format.value in formats then formats[cell.format.value]
      else if cell.cellType == A.Num then [NumFormat("0.00")]
      else if cell.cellType == A.Date then [NumFormat("dd/mm/yyyy hh:mm")]
      else []
  {
    match cell.format
    case Some(name) => if name in formats then Registered(name, formats[name]) else TypeFormat(cell.cellType)
    case None => TypeFormat(cell.cellType)
  }

  /** Whether a cell covers more than one grid cell. */
  predicate Merged(cell: A.Cell)
  {
    cell.colspan > 1 || cell.rowspan > 1
  }

  /** Where an image goes, by image mode: fitted for "embed", as is for "insert", nowhere otherwise. */
  function Placement(mode: string, row: U32, col: U16, path: string): seq<Call>
  {
    match mode
    case "embed" => [InsertImageFit(row, col, path)]
    case "insert" => [InsertImage(row, col, path)]
    case _ => []
  }

  /** The library calls one cell makes at (`row`, `col`), in order. */
  function CellCalls(row: U32, col: U16, cell: A.Cell, formats: map<string, Style>): (calls: seq<Call>)
    ensures calls == [] <==> cell.cellType == A.Str && !Merged(cell) && !(cell.colspan == 1 && cell.rowspan == 1)
    ensures Merged(cell) ==> calls[0].MergeRange?
  {
    var format := FormatFor(cell, formats);
    var text := cell.value.AsStr();
    var merge :=
      if Merged(cell) then
        [MergeRange(row, col, Wrap32(row + cell.rowspan - 1), Wrap16(col + cell.colspan - 1),
                    if cell.cellType == A.Str then text else "", format)]
      else [];
    merge + (match cell.cellType
      case Num => [WriteNumber(row, col, cell.value.AsF64(), format)]
      case Str => if cell.colspan == 1 && cell.rowspan == 1 then [WriteString(row, col, text, format)] else []
      case Date => [ParseDate(text), WriteDate(row, col, text, format)]
      case Image => [LoadImage(text)] + Placement(cell.imageMode.GetOr("embed"), row, col, text))
  }

  /** Issuing calls in order until the library refuses one. */
  function Attempt(ws: Worksheet, calls: seq<Call>, library: Library): (r: (Result<()>, Worksheet))
    ensures r.1.name == ws.name
    ensures r.0.Ok? <==> forall k :: 0 <= k < |calls| ==> library(calls[k])
    ensures r.0.Ok? ==> r.1.calls == ws.calls + calls
    ensures r.0.Err? ==> r.0.error == LibraryError
    decreases |calls|
  {
    if calls == [] then (Ok(()), ws)
    else if !library(calls[0]) then (Err(LibraryError), ws)
    else
      var r := Attempt(Worksheet(ws.name, ws.calls + [calls[0]]), calls[1..], library);
      assert calls == [calls[0]] + calls[1..];
      assert forall k :: 1 <= k < |calls| ==> calls[k] == calls[1..][k - 1];
      r
  }

  /** A refused call ends the attempt: the worksheet keeps exactly the calls before the first refused one. */
  lemma {:induction false} AttemptStopsAtRefusal(ws: Worksheet, calls: seq<Call>, library: Library, k: nat)
    requires k < |calls| && !library(calls[k])
    requires forall j :: 0 <= j < k ==> library(calls[j])
    ensures Attempt(ws, calls, library) == (Err(LibraryError), Worksheet(ws.name, ws.calls + calls[..k]))
    decreases k
  {
    if k > 0 {
      assert library(calls[0]);
      AttemptStopsAtRefusal(Worksheet(ws.name, ws.calls + [calls[0]]), calls[1..], library, k - 1);
      assert calls[..k] == [calls[0]] + calls[1..][..k - 1];
      assert (ws.calls + [calls[0]]) + calls[1..][..k - 1] == ws.calls + calls[..k];
    } else {
      assert ws.calls + calls[..0] == ws.calls;
    }
  }

  // ---- Writer state ----

  datatype WriterState = WriterState(
    workbook: seq<Worksheet>,
    worksheet: Option<Worksheet>,
    row: U32,
    col: U16,
    anchors: map<string, (U32, U16)>,
    formats: map<string, Style>)

  /** Where a row puts its cells: the calls a cell makes at a given position. */
  type Layout = (U32, U16, A.Cell) -> seq<Call>

  /** The writer's layout: `CellCalls` with its registered formats. */
  function LayoutOf(formats: map<string, Style>): (layout: Layout)
    ensures forall row: U32, col: U16, cell :: layout(row, col, cell) == CellCalls(row, col, cell, formats)
  {
    (row: U32, col: U16, cell: A.Cell) => CellCalls(row, col, cell, formats)
  }

  /**
   * One cell written at the cursor: its calls are attempted and, when they all go
   * through, the column moves past the cell's span; a refusal leaves the column.
   */
  function CellEffect(s: WriterState, cell: A.Cell, library: Library, layout: Layout): (r: (Result<()>, WriterState))
    requires s.worksheet.Some?
    ensures r.1.worksheet.Some? && r.1.worksheet.value.name == s.worksheet.value.name
    ensures r.1 == s.(worksheet := r.1.worksheet, col := r.1.col)
    ensures r.0.Ok? ==> (r.1.worksheet.value.calls == s.worksheet.value.calls + layout(s.row, s.col, cell)
      && r.1.col == Wrap16(s.col + cell.colspan))
    ensures r.0.Err? ==> r.0.error == LibraryError && r.1.col == s.col
  {
    var attempt := Attempt(s.worksheet.value, layout(s.row, s.col, cell), library);
    (attempt.0, s.(worksheet := Some(attempt.1), col := if attempt.0.Ok? then Wrap16(s.col + cell.colspan) else s.col))
  }

  /** The cells of a row written left to right from the cursor, the column advancing by each span. */
  function RowCells(st: WriterState, cells: seq<A.Cell>, library: Library, layout: Layout): (r: (Result<()>, WriterState))
    requires st.worksheet.Some?
    ensures r.1.worksheet.Some? && r.1.worksheet.value.name == st.worksheet.value.name
    ensures r.1 == st.(worksheet := r.1.worksheet, col := r.1.col)
    ensures r.0.Err? ==> r.0.error == LibraryError
  {
    if cells == [] then (Ok(()), st)
    else
      var before := RowCells(st, cells[..|cells| - 1], library, layout);
      if before.0.Err? then before else CellEffect(before.1, cells[|cells| - 1], library, layout)
  }

  /** Once a cell has failed, the cells after it are not attempted. */
  lemma {:induction false} RowCellsStopAtError(st: WriterState, cells: seq<A.Cell>, i: nat, library: Library, layout: Layout)
    requires st.worksheet.Some? && i <= |cells|
    requires RowCells(st, cells[..i], library, layout).0.Err?
    ensures RowCells(st, cells, library, layout) == RowCells(st, cells[..i], library, layout)
    decreases |cells|
  {
    if i < |cells| {
      var init := cells[..|cells| - 1];
      assert init[..i] == cells[..i];
      RowCellsStopAtError(st, init, i, library, layout);
    } else {
      assert cells[..i] == cells;
    }
  }

  /**
   * `process_row`: with no worksheet nothing happens; otherwise the cells are
   * written and, on success, the cursor moves down one row and back to its column.
   */
  function RowEffect(st: WriterState, cells: seq<A.Cell>, library: Library): (Result<()>, WriterState)
  {
    if st.worksheet.None? then (Ok(()), st)
    else
      var r := RowCells(st, cells, library, LayoutOf(st.formats));
      if r.0.Ok? then (r.0, r.1.(row := Wrap32(st.row + 1), col := st.col)) else r
  }

  /** A move: relative to a known anchor, or to the cursor when none is named; an unknown anchor changes nothing. */
  function Moved(st: WriterState, m: A.Move): WriterState
  {
    match m.anchor
    case Some(a) =>
      if a in st.anchors then
        st.(row := CheckedAdd(st.anchors[a].0, m.row, U32_MAX), col := CheckedAdd(st.anchors[a].1, m.col, U16_MAX))
      else st
    case None => st.(row := CheckedAdd(st.row, m.row, U32_MAX), col := CheckedAdd(st.col, m.col, U16_MAX))
  }

  /** A single sizing call, made only when there is a worksheet. */
  function SheetCall(st: WriterState, c: Call, library: Library): (Result<()>, WriterState)
  {
    if st.worksheet.None? then (Ok(()), st)
    else
      var r := Attempt(st.worksheet.value, [c], library);
      (r.0, st.(worksheet := Some(r.1)))
  }

  /** What `process_internal` does with one element. */
  function Process(st: WriterState, item: A.Element, library: Library): (r: (Result<()>, WriterState))
    ensures r.0.Err? ==> r.0.error == LibraryError
    ensures !item.Format? ==> r.1.formats == st.formats
    ensures !item.Anchor? ==> r.1.anchors == st.anchors
    ensures !item.Sheet? ==> r.1.workbook == st.workbook
    ensures item.ForLoop? ==> r == (Ok(()), st)
  {
    match item
    case Sheet(name) =>
      var pushed := if st.worksheet.Some? then st.workbook + [st.worksheet.value] else st.workbook;
      if !library(SetName(name)) then (Err(LibraryError), st.(workbook := pushed, worksheet := None))
      else (Ok(()), st.(workbook := pushed, worksheet := Some(Worksheet(name, [])), row := 0, col := 0))
    case Row(r) => RowEffect(st, r.cells, library)
    case Anchor(id) => (Ok(()), st.(anchors := st.anchors[id := (st.row, st.col)]))
    case Format(f) => (Ok(()), st.(formats := st.formats[f.identifier := StyleOf(f.modifiers)]))
    case Mover(m) => (Ok(()), Moved(st, m))
    case Cr => (Ok(()), st.(row := Wrap32(st.row + 1), col := 0))
    case Autofit =>
      (Ok(()), if st.worksheet.Some? then st.(worksheet := Some(st.worksheet.value.(calls := st.worksheet.value.calls + [AutofitColumns]))) else st)
    case Column(c) => SheetCall(st, ColumnWidth(c.start, c.end, c.width, c.unit != "chars"), library)
    case RowSpec(rs) => SheetCall(st, RowHeight(rs.start, rs.height, rs.unit != "chars"), library)
    case ForLoop(_) => (Ok(()), st)
  }

  // ---- Properties ----

  /** The total width of some cells. */
  function SpanSum(cells: seq<A.Cell>): nat
  {
    if cells == [] then 0 else SpanSum(cells[..|cells| - 1]) + cells[|cells| - 1].colspan
  }

  /** The calls a whole row makes when none is refused: cell k at the start column plus the spans before it. */
  function RowCalls(row: U32, col: U16, cells: seq<A.Cell>, layout: Layout): seq<Call>
  {
    if cells == [] then []
    else
      var init := cells[..|cells| - 1];
      RowCalls(row, col, init, layout) + layout(row, Wrap16(col + SpanSum(init)), cells[|cells| - 1])
  }

  lemma {:induction false} WrapAdd16(a: int, b: int)
    ensures Wrap16(Wrap16(a) + b) == Wrap16(a + b)
  {
  }

  /** Writing one more cell after a prefix that went through is one `CellEffect`. */
  lemma {:induction false} RowCellsSnoc(st: WriterState, cells: seq<A.Cell>, i: nat, library: Library, layout: Layout)
    requires st.worksheet.Some? && i < |cells|
    requires RowCells(st, cells[..i], library, layout).0.Ok?
    ensures RowCells(st, cells[..i + 1], library, layout) == CellEffect(RowCells(st, cells[..i], library, layout).1, cells[i], library, layout)
  {
    assert cells[..i + 1][..i] == cells[..i];
  }

  /** A row that goes through has every cell but the last go through, and then the last. */
  lemma {:induction false} RowCellsLast(st: WriterState, cells: seq<A.Cell>, library: Library, layout: Layout)
    requires st.worksheet.Some? && cells != []
    requires RowCells(st, cells, library, layout).0.Ok?
    ensures var before := RowCells(st, cells[..|cells| - 1], library, layout);
      before.0.Ok? && RowCells(st, cells, library, layout) == CellEffect(before.1, cells[|cells| - 1], library, layout)
  {
  }

  /**
   * A row written without a refusal makes exactly the row's calls, each cell at the
   * starting column plus the widths of the cells before it.
   */
  lemma {:induction false} RowCellsWrites(st: WriterState, cells: seq<A.Cell>, library: Library, layout: Layout)
    requires st.worksheet.Some?
    requires RowCells(st, cells, library, layout).0.Ok?
    ensures var s := RowCells(st, cells, library, layout).1;
      s.worksheet.value.calls == st.worksheet.value.calls + RowCalls(st.row, st.col, cells, layout)
  {
    if cells != [] {
      var init := cells[..|cells| - 1];
      var cell := cells[|cells| - 1];
      RowCellsLast(st, cells, library, layout);
      RowCellsWrites(st, init, library, layout);
      RowCellsColumn(st, init, library, layout);
      var before := RowCells(st, init, library, layout).1;
      assert before.row == st.row;
      var s := RowCells(st, cells, library, layout).1;
      var a, b, c := st.worksheet.value.calls, RowCalls(st.row, st.col, init, layout), layout(st.row, before.col, cell);
      assert before.worksheet.value.calls == a + b;
      assert s.worksheet.value.calls == (a + b) + c;
      assert RowCalls(st.row, st.col, cells, layout) == b + c;
      assert (a + b) + c == a + (b + c);
    }
  }

  /** The column a row that goes through leaves: the start column plus all the spans, wrapped to `u16`. */
  lemma {:induction false} RowCellsColumn(st: WriterState, cells: seq<A.Cell>, library: Library, layout: Layout)
    requires st.worksheet.Some?
    requires RowCells(st, cells, library, layout).0.Ok?
    ensures RowCells(st, cells, library, layout).1.col == Wrap16(st.col + SpanSum(cells))
  {
    if cells != [] {
      var init := cells[..|cells| - 1];
      var cell := cells[|cells| - 1];
      RowCellsLast(st, cells, library, layout);
      RowCellsColumn(st, init, library, layout);
      var before := RowCells(st, init, library, layout).1;
      assert SpanSum(cells) == SpanSum(init) + cell.colspan;
      WrapAdd16(st.col + SpanSum(init), cell.colspan);
    }
  }

  /** A row that goes through moves the cursor one row down and back to the column it started at. */
  lemma {:induction false} RowMovesDown(st: WriterState, cells: seq<A.Cell>, library: Library)
    requires st.worksheet.Some?
    requires RowEffect(st, cells, library).0.Ok?
    ensures var s := RowEffect(st, cells, library).1;
      && s.row == Wrap32(st.row + 1) && s.col == st.col
      && s.worksheet.value.calls == st.worksheet.value.calls + RowCalls(st.row, st.col, cells, LayoutOf(st.formats))
      && s.anchors == st.anchors && s.formats == st.formats && s.workbook == st.workbook
  {
    RowCellsWrites(st, cells, library, LayoutOf(st.formats));
    RowCellsColumn(st, cells, library, LayoutOf(st.formats));
  }

  /** Without a worksheet a row changes nothing. */
  lemma {:induction false} RowWithoutSheet(st: WriterState, cells: seq<A.Cell>, library: Library)
    requires st.worksheet.None?
    ensures RowEffect(st, cells, library) == (Ok(()), st)
  {
  }

  /**
   * A refused call inside a row leaves the row unfinished: the cursor stays on the
   * same row and the column is not put back.
   */
  lemma {:induction false} RowErrorKeepsRow(st: WriterState, cells: seq<A.Cell>, library: Library)
    requires st.worksheet.Some?
    requires RowEffect(st, cells, library).0.Err?
    ensures RowEffect(st, cells, library).1.row == st.row
    ensures RowEffect(st, cells, library) == RowCells(st, cells, library, LayoutOf(st.formats))
  {
  }

  /**
   * A cell covering more than one grid cell is merged first, over the rectangle
   * from its corner to `rowspan - 1` rows down and `colspan - 1` columns right
   * (wrapping at the integer widths); a single cell is never merged.
   */
  lemma {:induction false} MergeBounds(row: U32, col: U16, cell: A.Cell, formats: map<string, Style>)
    ensures var calls := CellCalls(row, col, cell, formats);
      && (Merged(cell) ==> calls[0] == MergeRange(row, col, Wrap32(row + cell.rowspan - 1), Wrap16(col + cell.colspan - 1),
            if cell.cellType == A.Str then cell.value.AsStr() else "", FormatFor(cell, formats)))
      && (forall k :: 0 <= k < |calls| && calls[k].MergeRange? ==> Merged(cell) && k == 0)
    ensures (Merged(cell) && cell.rowspan >= 1 && cell.colspan >= 1
      && row + cell.rowspan - 1 <= U32_MAX && col + cell.colspan - 1 <= U16_MAX) ==>
      CellCalls(row, col, cell, formats)[0].lastRow == row + cell.rowspan - 1 &&
      CellCalls(row, col, cell, formats)[0].lastCol == col + cell.colspan - 1
  {
  }

  /** Every write of a cell uses the format `FormatFor` picks, at the cell's own position. */
  lemma {:induction false} WritesUseChosenFormat(row: U32, col: U16, cell: A.Cell, formats: map<string, Style>)
    ensures forall c :: c in CellCalls(row, col, cell, formats) && (c.WriteNumber? || c.WriteString? || c.WriteDate?) ==>
      c.format == FormatFor(cell, formats) && c.row == row && c.col == col
  {
  }

  /**
   * An image cell, after its textless merge when it spans more than one grid cell,
   * always loads its image; it is then fitted ("embed", also when no mode is given),
   * placed ("insert"), or not placed at all (any other mode).
   */
  lemma {:induction false} ImagePlacement(row: U32, col: U16, cell: A.Cell, formats: map<string, Style>)
    requires cell.cellType == A.Image
    ensures var path := cell.value.AsStr();
      var merge := if Merged(cell) then
        [MergeRange(row, col, Wrap32(row + cell.rowspan - 1), Wrap16(col + cell.colspan - 1), "", FormatFor(cell, formats))]
        else [];
      CellCalls(row, col, cell, formats) == merge +
        if cell.imageMode.None? || cell.imageMode == Some("embed") then [LoadImage(path), InsertImageFit(row, col, path)]
        else if cell.imageMode == Some("insert") then [LoadImage(path), InsertImage(row, col, path)]
        else [LoadImage(path)]
  {
  }

  /** A text cell is written as text only when it is a single cell; a merged one gets its text through the merge. */
  lemma {:induction false} TextCells(row: U32, col: U16, cell: A.Cell, formats: map<string, Style>)
    requires cell.cellType == A.Str
    ensures var calls := CellCalls(row, col, cell, formats);
      (cell.colspan == 1 && cell.rowspan == 1 ==> calls == [WriteString(row, col, cell.value.AsStr(), FormatFor(cell, formats))])
      && (Merged(cell) ==> calls == [MergeRange(row, col, Wrap32(row + cell.rowspan - 1), Wrap16(col + cell.colspan - 1),
            cell.value.AsStr(), FormatFor(cell, formats))])
  {
  }

  /** A two-cell row at (3, 1): a text cell two wide, then a number one column past it. */
  lemma {:induction false} RowExample(formats: map<string, Style>)
    ensures var wide := A.Cell(A.Str, A.Primary(A.Literal(V.String("a"))), None, 2, 1, None);
      var num := A.Cell(A.Num, A.Primary(A.Literal(V.Integer(7))), None, 1, 1, None);
      RowCalls(3, 1, [wide, num], LayoutOf(formats)) ==
        [MergeRange(3, 1, 3, 2, "a", DefaultFormat), WriteNumber(3, 3, FromInt(7), NumberFormat)]
  {
    var wide := A.Cell(A.Str, A.Primary(A.Literal(V.String("a"))), None, 2, 1, None);
    var num := A.Cell(A.Num, A.Primary(A.Literal(V.Integer(7))), None, 1, 1, None);
    assert [wide, num][..1] == [wide];
    assert [wide][..0] == [];
    assert SpanSum([wide]) == 2;
    assert wide.value.AsStr() == "a";
    assert num.value.AsF64() == FromInt(7);
    assert CellCalls(3, 1, wide, formats) == [MergeRange(3, 1, 3, 2, "a", DefaultFormat)];
    assert CellCalls(3, 3, num, formats) == [WriteNumber(3, 3, FromInt(7), NumberFormat)];
    var layout := LayoutOf(formats);
    assert RowCalls(3, 1, [wide], layout) == CellCalls(3, 1, wide, formats);
    assert RowCalls(3, 1, [wide, num], layout) == RowCalls(3, 1, [wide], layout) + CellCalls(3, 3, num, formats);
  }

  /**
   * A span of 0 is accepted as written: a row span of 0 next to a column span above 1
   * makes the merge end one row above its start, a column span of 0 next to a row span
   * above 1 makes it end one column left of its start, and a text cell with a column
   * span of 0 and a row span of at most 1 makes no call at all.
   */
  lemma {:induction false} ZeroSpans(formats: map<string, Style>)
    ensures var wide := A.Cell(A.Num, A.Primary(A.Literal(V.Integer(1))), None, 2, 0, None);
      CellCalls(5, 0, wide, formats)[0] == MergeRange(5, 0, 4, 1, "", NumberFormat)
    ensures var tall := A.Cell(A.Num, A.Primary(A.Literal(V.Integer(1))), None, 0, 2, None);
      CellCalls(5, 3, tall, formats)[0] == MergeRange(5, 3, 6, 2, "", NumberFormat)
    ensures var empty := A.Cell(A.Str, A.Primary(A.Literal(V.String("x"))), None, 0, 1, None);
      CellCalls(5, 0, empty, formats) == []
  {
  }

  /** A sheet element starts a fresh, empty worksheet with the cursor at the origin, keeping the previous one in the workbook. */
  lemma {:induction false} SheetStarts(st: WriterState, name: string, library: Library)
    ensures var (r, s) := Process(st, A.Sheet(name), library);
      && s.workbook == (if st.worksheet.Some? then st.workbook + [st.worksheet.value] else st.workbook)
      && (r.Ok? <==> library(SetName(name)))
      && (r.Ok? ==> s.worksheet == Some(Worksheet(name, [])) && s.row == 0 && s.col == 0)
      && (r.Err? ==> s.worksheet.None? && s.row == st.row && s.col == st.col)
      && s.anchors == st.anchors && s.formats == st.formats
  {
  }

  /** A carriage return moves to the first column of the next row. */
  lemma {:induction false} CarriageReturn(st: WriterState, library: Library)
    requires st.row < U32_MAX
    ensures Process(st, A.Cr, library) == (Ok(()), st.(row := st.row + 1, col := 0))
  {
  }

  /** An anchor remembers the cursor; a zero move to it later comes back to that position, wherever the cursor is then. */
  lemma {:induction false} ReturnToAnchor(st: WriterState, a: string, elsewhere: WriterState, library: Library)
    requires elsewhere.anchors == Process(st, A.Anchor(a), library).1.anchors
    ensures Moved(elsewhere, A.Move(Some(a), 0, 0)).row == st.row
    ensures Moved(elsewhere, A.Move(Some(a), 0, 0)).col == st.col
  {
  }

  /** A move relative to the cursor or a known anchor that would leave the grid puts that coordinate at 0; an unknown anchor changes nothing. */
  lemma {:induction false} MoverBounds(st: WriterState, m: A.Move)
    ensures m.anchor.Some? && m.anchor.value !in st.anchors ==> Moved(st, m) == st
    ensures var base := if m.anchor.Some? && m.anchor.value in st.anchors then st.anchors[m.anchor.value] else (st.row, st.col);
      (m.anchor.None? || m.anchor.value in st.anchors) ==>
        && (base.0 + m.row < 0 ==> Moved(st, m).row == 0)
        && (0 <= base.0 + m.row <= U32_MAX ==> Moved(st, m).row == base.0 + m.row)
        && (base.1 + m.col < 0 ==> Moved(st, m).col == 0)
        && (0 <= base.1 + m.col <= U16_MAX ==> Moved(st, m).col == base.1 + m.col)
    ensures Moved(st, m).anchors == st.anchors && Moved(st, m).worksheet == st.worksheet
  {
  }

  /** A registered format is the one later cells naming it are written with; registering again replaces it. */
  lemma {:induction false} FormatRegistered(st: WriterState, f: A.FormatDef, cell: A.Cell, library: Library)
    requires cell.format == Some(f.identifier)
    ensures var s := Process(st, A.Format(f), library).1;
      FormatFor(cell, s.formats) == Registered(f.identifier, StyleOf(f.modifiers)) && s.formats[f.identifier] == StyleOf(f.modifiers)
  {
  }

  /**
   * A write carries the style its format had when the cell was written: the same
   * number cell written under two different registrations of its format's name
   * makes different calls.
   */
  lemma {:induction false} StyleFixedAtWrite(row: U32, col: U16, cell: A.Cell, before: map<string, Style>, after: map<string, Style>)
    requires cell.cellType == A.Num && cell.format.Some?
    requires cell.format.value in before && cell.format.value in after
    requires before[cell.format.value] != after[cell.format.value]
    ensures CellCalls(row, col, cell, before) != CellCalls(row, col, cell, after)
  {
    var b := CellCalls(row, col, cell, before);
    var a := CellCalls(row, col, cell, after);
    assert b[|b| - 1] == WriteNumber(row, col, cell.value.AsF64(), FormatFor(cell, before));
    assert a[|a| - 1] == WriteNumber(row, col, cell.value.AsF64(), FormatFor(cell, after));
  }

  /** Modifier parameters that do not fit are skipped; unknown border names fall back to thin. */
  lemma {:induction false} StyleExamples()
    ensures SetterOf("indent", "3") == Some(Indent(3))
    ensures SetterOf("indent", "300") == None
    ensures SetterOf("align", "middle") == None
    ensures SetterOf("border", "wavy") == Some(Border(AllSides, Thin))
    ensures SetterOf("blink", "") == None
  {
    assert Digits("3") == Some(3);
    assert Digits("300") == Some(300) by {
      assert DigitsIn("300", 0, 2) == Some(30);
    }
  }

  // ---- The writer ----

  class XlsxWriter {
    var workbook: seq<Worksheet>
    var worksheet: Option<Worksheet>
    var row: U32
    var col: U16
    var anchors: map<string, (U32, U16)>
    var formats: map<string, Style>
    const library: Library

    function State(): WriterState
      reads this
    {
      WriterState(workbook, worksheet, row, col, anchors, formats)
    }

    /** `XlsxWriter::default`: no worksheet, the cursor at the origin, no anchors and no formats. */
    constructor (library: Library)
      ensures State() == WriterState([], None, 0, 0, map[], map[])
      ensures this.library == library
    {
      workbook := [];
      worksheet := None;
      row := 0;
      col := 0;
      anchors := map[];
      formats := map[];
      this.library := library;
    }

    /** Issue calls on the current worksheet until one is refused. */
    method Perform(calls: seq<Call>) returns (r: Result<()>)
      requires worksheet.Some?
      modifies this
      ensures worksheet.Some?
      ensures (r, worksheet.value) == Attempt(old(worksheet.value), calls, library)
      ensures State() == old(State()).(worksheet := worksheet)
    {
      r := Ok(());
      for i := 0 to |calls|
        invariant worksheet.Some?
        invariant Attempt(old(worksheet.value), calls, library) == Attempt(worksheet.value, calls[i..], library)
        invariant State() == old(State()).(worksheet := worksheet)
      {
        assert calls[i..][1..] == calls[i + 1..];
        if !library(calls[i]) {
          r := Err(LibraryError);
          return;
        }
        worksheet := Some(Worksheet(worksheet.value.name, worksheet.value.calls + [calls[i]]));
      }
      assert calls[|calls|..] == [];
    }

    /** One cell of `process_row`: its calls, then the column moved past it when they all went through. */
    method WriteCell(cell: A.Cell) returns (r: Result<()>)
      requires worksheet.Some?
      modifies this
      ensures (r, State()) == CellEffect(old(State()), cell, library, LayoutOf(old(formats)))
    {
      assert LayoutOf(formats)(row, col, cell) == CellCalls(row, col, cell, formats);
      r := Perform(CellCalls(row, col, cell, formats));
      if r.Ok? {
        col := Wrap16(col + cell.colspan);
      }
    }

    /** `process_row`. */
    method ProcessRow(line: A.RowDef) returns (r: Result<()>)
      modifies this
      ensures (r, State()) == RowEffect(old(State()), line.cells, library)
    {
      r := Ok(());
      if worksheet.None? {
        return;
      }
      ghost var st0 := State();
      var saveCol := col;
      for i := 0 to |line.cells|
        invariant worksheet.Some? && r == Ok(()) && formats == st0.formats
        invariant (Ok(()), State()) == RowCells(st0, line.cells[..i], library, LayoutOf(st0.formats))
      {
        RowCellsSnoc(st0, line.cells, i, library, LayoutOf(st0.formats));
        r := WriteCell(line.cells[i]);
        if r.Err? {
          RowCellsStopAtError(st0, line.cells, i + 1, library, LayoutOf(st0.formats));
          return;
        }
        SuccessIsUnit(r);
      }
      assert line.cells[..|line.cells|] == line.cells;
      row := Wrap32(row + 1);
      col := saveCol;
    }

    /** `process_format`: build the style from the modifiers and register it under the format's name. */
    method ProcessFormat(format: A.FormatDef)
      modifies this
      ensures State() == old(State()).(formats := old(formats)[format.identifier := StyleOf(format.modifiers)])
    {
      var style: Style := [];
      for i := 0 to |format.modifiers|
        invariant style == StyleOf(format.modifiers[..i])
      {
        var m := format.modifiers[i];
        assert format.modifiers[..i + 1][..i] == format.modifiers[..i];
        var setter := SetterOf(m.statement, m.expression.AsStr());
        if setter.Some? {
          style := style + [setter.value];
        }
      }
      assert format.modifiers[..|format.modifiers|] == format.modifiers;
      formats := formats[format.identifier := style];
    }

    /** `process_internal`: one element's effect on the cursor, the anchors, the formats and the worksheet. */
    method ProcessInternal(item: A.Element) returns (r: Result<()>)
      modifies this
      ensures (r, State()) == Process(old(State()), item, library)
    {
      r := Ok(());
      match item {
        case Sheet(name) =>
          if worksheet.Some? {
            workbook := workbook + [worksheet.value];
            worksheet := None;
          }
          if !library(SetName(name)) {
            r := Err(LibraryError);
            return;
          }
          worksheet := Some(Worksheet(name, []));
          row := 0;
          col := 0;
        case Row(line) =>
          r := ProcessRow(line);
        case Anchor(id) =>
          anchors := anchors[id := (row, col)];
        case Format(f) =>
          ProcessFormat(f);
        case Mover(m) =>
          if m.anchor.Some? {
            if m.anchor.value in anchors {
              var (aRow, aCol) := anchors[m.anchor.value];
              row := CheckedAdd(aRow, m.row, U32_MAX);
              col := CheckedAdd(aCol, m.col, U16_MAX);
            }
          } else {
            row := CheckedAdd(row, m.row, U32_MAX);
            col := CheckedAdd(col, m.col, U16_MAX);
          }
        case Cr =>
          row := Wrap32(row + 1);
          col := 0;
        case Autofit =>
          if worksheet.Some? {
            worksheet := Some(worksheet.value.(calls := worksheet.value.calls + [AutofitColumns]));
          }
        case Column(c) =>
          if worksheet.Some? {
            r := Perform([ColumnWidth(c.start, c.end, c.width, c.unit != "chars")]);
          }
        case RowSpec(rs) =>
          if worksheet.Some? {
            r := Perform([RowHeight(rs.start, rs.height, rs.unit != "chars")]);
          }
        case ForLoop(_) =>
      }
    }
  }
}
