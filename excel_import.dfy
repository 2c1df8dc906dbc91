// `ExcelImporter` (app/utils/excel_import.py): reads a spreadsheet of missions, indicator
// categories, indicators, risk events or FMEA items into drafts, one row at a time, and
// collects an error for every row it refuses.
module ExcelImport {
  import opened Common
  import opened Records
  import opened PyText
  import opened RecordStore

  // ---------------------------------------------------------------------------
  // Cells and sheets as pandas holds them.

  /** What `float(value)` gives for a cell: a finite number, NaN, infinity, or a `ValueError`. */
  datatype FloatValue = Finite(x: real) | NotANumber | Infinite | NoFloat

  /** An empty cell (NaN, whose `str` is "nan"), or a value with its `str` text and its `float` reading. */
  datatype Cell = Blank | Filled(text: string, number: FloatValue)

  type Row = map<string, Cell>

  /** A file that could not be read, or its column names and rows in order. */
  datatype Sheet = Unreadable | Table(columns: set<string>, rows: seq<Row>)

  // Column names of the templates.
  const MissionNameCol := "任务名称"
  const DateCol := "日期"
  const DescCol := "描述"
  const CategoryNameCol := "分类名称"
  const IndicatorNameCol := "指标名称"
  const UnitCol := "单位"
  const ValueTypeCol := "值类型"
  const EventNameCol := "事件名称"
  const HazardCol := "危险类型"
  const LikelihoodCol := "可能性(1-5)"
  const SeverityCol := "严重度(1-5)"
  const SystemCol := "系统/子系统"
  const FailureModeCol := "失效模式"
  const EffectCol := "失效影响"
  const CauseCol := "失效原因"
  const ControlCol := "控制措施"
  const SCol := "严重度S(1-10)"
  const OCol := "发生度O(1-10)"
  const DCol := "检测度D(1-10)"

  /** The errors the importer reports; row numbers count the header as row 1. */
  datatype ExcelError =
    | ReadFailed
    | MissingColumns(missing: set<string>)
    | EmptyName(row: int, column: string)
    | NotNumeric(row: int)
    | OutOfRange(row: int, column: string)
    | RowFailed(row: int)

  function CellAt(row: Row, col: string): Cell
  {
    if col in row then row[col] else Blank
  }

  function CellText(c: Cell): string
  {
    match c
    case Blank => "nan"
    case Filled(t, _) => t
  }

  /** `str(row[col]).strip()` for a column the sheet is known to have. */
  function NameIn(row: Row, col: string): string
  {
    Strip(CellText(CellAt(row, col)))
  }

  /** `str(row.get(col, '')).strip() if pd.notna(row.get(col)) else ''`. */
  function OptionalText(columns: set<string>, row: Row, col: string): (r: string)
    ensures col !in columns ==> r == ""
  {
    if col in columns && CellAt(row, col).Filled? then Strip(CellAt(row, col).text) else ""
  }

  /** `not name or name == 'nan'` rejects the name. */
  predicate ValidName(name: string)
  {
    |name| != 0 && !(|name| == 3 && name[0] == 'n' && name[1] == 'a' && name[2] == 'n')
  }

  lemma ValidNameMeans(name: string)
    ensures ValidName(name) <==> name != "" && name != "nan"
  {
    if |name| == 3 && name[0] == 'n' && name[1] == 'a' && name[2] == 'n' {
      assert name == "nan";
    }
  }

  // ---------------------------------------------------------------------------
  // Scores: `int(float(cell))`.

  /** A whole score, a `ValueError` (caught as "not a number"), or an `OverflowError` (not caught). */
  datatype Score = Whole(v: int) | NotInteger | Overflow

  function ScoreOf(c: Cell): (r: Score)
    ensures r.Whole? <==> c.Filled? && c.number.Finite?
    ensures r.Whole? ==> r.v == Trunc(c.number.x)
  {
    match c
    case Blank => NotInteger
    case Filled(_, n) =>
      match n
      case Finite(x) => Whole(Trunc(x))
      case Infinite => Overflow
      case _ => NotInteger
  }

  /** The scores read left to right; the first failure stops the reading. */
  datatype Scores = Read(values: seq<int>) | NotNumber | TooLarge

  function ReadScores(cs: seq<Cell>): (r: Scores)
    ensures r.Read? <==> forall i :: 0 <= i < |cs| ==> ScoreOf(cs[i]).Whole?
    ensures r.Read? ==> |r.values| == |cs| && forall i :: 0 <= i < |cs| ==> r.values[i] == ScoreOf(cs[i]).v
  {
    if cs == [] then Read([])
    else
      match ScoreOf(cs[0])
      case NotInteger => NotNumber
      case Overflow => TooLarge
      case Whole(v) =>
        match ReadScores(cs[1..])
        case Read(vs) =>
          assert forall i :: 1 <= i < |cs| ==> cs[1..][i - 1] == cs[i];
          Read([v] + vs)
        case other =>
          assert !ScoreOf(cs[1..][0]).Whole? || exists i :: 0 <= i < |cs| - 1 && !ScoreOf(cs[1..][i]).Whole?;
          other
  }

  /** A row's draft, or the error that refuses the row. */
  datatype Parsed<T> = Accepted(item: T) | Rejected(error: ExcelError)

  function ScoreCells(row: Row, cols: seq<string>): (r: seq<Cell>)
    ensures |r| == |cols| && forall i :: 0 <= i < |cols| ==> r[i] == CellAt(row, cols[i])
  {
    seq(|cols|, i requires 0 <= i < |cols| => CellAt(row, cols[i]))
  }

  /**
   * Lines 310-322 and 384-400: read every score; then refuse the first one outside
   * `[lo, hi]`, naming its column. Scores are kept as read, never clamped.
   */
  function ScoreRow(row: Row, cols: seq<string>, lo: int, hi: int, rowNum: int): (r: Parsed<seq<int>>)
    ensures r.Accepted? ==> |r.item| == |cols|
  {
    var cells := ScoreCells(row, cols);
    match ReadScores(cells)
    case NotNumber => Rejected(NotNumeric(rowNum))
    case TooLarge => Rejected(RowFailed(rowNum))
    case Read(vs) =>
      match FirstIndex(vs, (v: int) => !(lo <= v <= hi))
      case Some(i) => Rejected(OutOfRange(rowNum, cols[i]))
      case None => Accepted(vs)
  }

  /**
   * A row's scores are accepted exactly when all are whole and within `[lo, hi]`, and then as
   * read; a score that is not a number refuses the row; otherwise the first score out of range
   * names the column.
   */
  lemma ScoreRowFacts(row: Row, cols: seq<string>, lo: int, hi: int, rowNum: int, r: Parsed<seq<int>>)
    requires r == ScoreRow(row, cols, lo, hi, rowNum)
    ensures r.Accepted? <==>
      (forall i :: 0 <= i < |cols| ==> ScoreOf(CellAt(row, cols[i])).Whole?) &&
      (forall i :: 0 <= i < |cols| ==> lo <= ScoreOf(CellAt(row, cols[i])).v <= hi)
    ensures r.Accepted? ==> forall i :: 0 <= i < |cols| ==> r.item[i] == ScoreOf(CellAt(row, cols[i])).v
    ensures !(forall i :: 0 <= i < |cols| ==> ScoreOf(CellAt(row, cols[i])).Whole?) ==>
      r == Rejected(NotNumeric(rowNum)) || r == Rejected(RowFailed(rowNum))
    ensures (forall i :: 0 <= i < |cols| ==> ScoreOf(CellAt(row, cols[i])).Whole?) && r.Rejected? ==>
      exists i :: 0 <= i < |cols| && r.error == OutOfRange(rowNum, cols[i]) && !(lo <= ScoreOf(CellAt(row, cols[i])).v <= hi)
        && forall j :: 0 <= j < i ==> lo <= ScoreOf(CellAt(row, cols[j])).v <= hi
  {
    var cells := ScoreCells(row, cols);
    var rs := ReadScores(cells);
    if rs.Read? {
      var outside := (v: int) => !(lo <= v <= hi);
      var f := FirstIndex(rs.values, outside);
      assert forall i :: 0 <= i < |cols| ==> rs.values[i] == ScoreOf(CellAt(row, cols[i])).v;
      if f.Some? {
        var i := f.value;
        assert r.error == OutOfRange(rowNum, cols[i]) && !(lo <= ScoreOf(CellAt(row, cols[i])).v <= hi);
      }
    }
  }

  // ---------------------------------------------------------------------------
  // The rows of each kind.

  /** Lines 139-154: a mission needs a name; with no date column it is dated `today`. */
  function MissionRow(columns: set<string>, row: Row, rowNum: int, today: string): (r: Parsed<Mission>)
    ensures r.Accepted? <==> ValidName(NameIn(row, MissionNameCol))
    ensures r.Rejected? ==> r.error == EmptyName(rowNum, MissionNameCol)
  {
    var name := NameIn(row, MissionNameCol);
    if !ValidName(name) then Rejected(EmptyName(rowNum, MissionNameCol))
    else
      var date := if DateCol in columns then Strip(CellText(CellAt(row, DateCol))) else today;
      Accepted(Mission(0, name, date, OptionalText(columns, row, DescCol)))
  }

  datatype CategoryDraft = CategoryDraft(name: string, desc: string)

  /** Lines 190-202. */
  function CategoryRow(columns: set<string>, row: Row, rowNum: int): (r: Parsed<CategoryDraft>)
    ensures r.Accepted? <==> ValidName(NameIn(row, CategoryNameCol))
    ensures r.Rejected? ==> r.error == EmptyName(rowNum, CategoryNameCol)
  {
    var name := NameIn(row, CategoryNameCol);
    if !ValidName(name) then Rejected(EmptyName(rowNum, CategoryNameCol))
    else Accepted(CategoryDraft(name, OptionalText(columns, row, DescCol)))
  }

  datatype IndicatorDraft = IndicatorDraft(name: string, categoryName: Option<string>, unit: string, valueType: string)

  /** Lines 256-257: a value type other than numeric or text becomes numeric. */
  function CoercedValueType(columns: set<string>, row: Row): (r: string)
    ensures r == "numeric" || r == "text"
    ensures ValueTypeCol in columns && NameIn(row, ValueTypeCol) in {"numeric", "text"} ==> r == NameIn(row, ValueTypeCol)
    ensures ValueTypeCol !in columns ==> r == "numeric"
  {
    var vt := if ValueTypeCol in columns then NameIn(row, ValueTypeCol) else "numeric";
    if vt == "numeric" || vt == "text" then vt else "numeric"
  }

  /** Lines 242-260: the category name is kept only when the cell holds a value. */
  function IndicatorRow(columns: set<string>, row: Row, rowNum: int): (r: Parsed<IndicatorDraft>)
    ensures r.Accepted? <==> ValidName(NameIn(row, IndicatorNameCol))
    ensures r.Rejected? ==> r.error == EmptyName(rowNum, IndicatorNameCol)
    ensures r.Accepted? ==> r.item.valueType == "numeric" || r.item.valueType == "text"
  {
    var name := NameIn(row, IndicatorNameCol);
    if !ValidName(name) then Rejected(EmptyName(rowNum, IndicatorNameCol))
    else
      var category := if CategoryNameCol in columns && CellAt(row, CategoryNameCol).Filled?
                      then Some(Strip(CellAt(row, CategoryNameCol).text)) else None;
      Accepted(IndicatorDraft(name, category, OptionalText(columns, row, UnitCol), CoercedValueType(columns, row)))
  }

  datatype EventDraft = EventDraft(missionName: string, name: string, hazardType: string, desc: string,
                                   likelihood: int, severity: int)

  /** Lines 296-333; likelihood and severity must be whole numbers in [1,5]. */
  function EventRow(columns: set<string>, row: Row, rowNum: int): (r: Parsed<EventDraft>)
  {
    var missionName := NameIn(row, MissionNameCol);
    var name := NameIn(row, EventNameCol);
    if !ValidName(missionName) then Rejected(EmptyName(rowNum, MissionNameCol))
    else if !ValidName(name) then Rejected(EmptyName(rowNum, EventNameCol))
    else
      match ScoreRow(row, [LikelihoodCol, SeverityCol], 1, 5, rowNum)
      case Rejected(e) => Rejected(e)
      case Accepted(vs) =>
        Accepted(EventDraft(missionName, name, OptionalText(columns, row, HazardCol), OptionalText(columns, row, DescCol), vs[0], vs[1]))
  }

  datatype FmeaDraft = FmeaDraft(missionName: string, system: string, failureMode: string, effect: string,
                                 cause: string, control: string, s: int, o: int, d: int)

  /** Lines 370-416; S, O and D must be whole numbers in [1,10]. */
  function FmeaRow(columns: set<string>, row: Row, rowNum: int): (r: Parsed<FmeaDraft>)
  {
    var missionName := NameIn(row, MissionNameCol);
    var mode := NameIn(row, FailureModeCol);
    if !ValidName(missionName) then Rejected(EmptyName(rowNum, MissionNameCol))
    else if !ValidName(mode) then Rejected(EmptyName(rowNum, FailureModeCol))
    else
      match ScoreRow(row, [SCol, OCol, DCol], 1, 10, rowNum)
      case Rejected(e) => Rejected(e)
      case Accepted(vs) =>
        Accepted(FmeaDraft(missionName, OptionalText(columns, row, SystemCol), mode, OptionalText(columns, row, EffectCol),
                           OptionalText(columns, row, CauseCol), OptionalText(columns, row, ControlCol), vs[0], vs[1], vs[2]))
  }

  /** Whether a risk-event row yields a draft: both names present, both scores whole and in [1,5]. */
  lemma EventRowFacts(columns: set<string>, row: Row, rowNum: int, r: Parsed<EventDraft>)
    requires r == EventRow(columns, row, rowNum)
    ensures r.Accepted? <==>
      ValidName(NameIn(row, MissionNameCol)) && ValidName(NameIn(row, EventNameCol)) &&
      ScoreOf(CellAt(row, LikelihoodCol)).Whole? && ScoreOf(CellAt(row, SeverityCol)).Whole? &&
      1 <= ScoreOf(CellAt(row, LikelihoodCol)).v <= 5 && 1 <= ScoreOf(CellAt(row, SeverityCol)).v <= 5
    ensures r.Accepted? ==>
      r.item.likelihood == ScoreOf(CellAt(row, LikelihoodCol)).v && r.item.severity == ScoreOf(CellAt(row, SeverityCol)).v &&
      r.item.missionName == NameIn(row, MissionNameCol) && r.item.name == NameIn(row, EventNameCol)
    ensures !ValidName(NameIn(row, MissionNameCol)) ==> r == Rejected(EmptyName(rowNum, MissionNameCol))
    ensures ValidName(NameIn(row, MissionNameCol)) && !ValidName(NameIn(row, EventNameCol)) ==>
              r == Rejected(EmptyName(rowNum, EventNameCol))
    ensures var l, s := ScoreOf(CellAt(row, LikelihoodCol)), ScoreOf(CellAt(row, SeverityCol));
      ValidName(NameIn(row, MissionNameCol)) && ValidName(NameIn(row, EventNameCol)) && l.Whole? && s.Whole? ==>
        (!(1 <= l.v <= 5) ==> r == Rejected(OutOfRange(rowNum, LikelihoodCol))) &&
        (1 <= l.v <= 5 && !(1 <= s.v <= 5) ==> r == Rejected(OutOfRange(rowNum, SeverityCol)))
  {
    var cols := [LikelihoodCol, SeverityCol];
    var s := ScoreRow(row, cols, 1, 5, rowNum);
    ScoreRowFacts(row, cols, 1, 5, rowNum, s);
    assert cols[0] == LikelihoodCol && cols[1] == SeverityCol;
    if ValidName(NameIn(row, MissionNameCol)) && ValidName(NameIn(row, EventNameCol)) {
      assert s.Accepted? <==>
        (ScoreOf(CellAt(row, LikelihoodCol)).Whole? && ScoreOf(CellAt(row, SeverityCol)).Whole? &&
         1 <= ScoreOf(CellAt(row, LikelihoodCol)).v <= 5 && 1 <= ScoreOf(CellAt(row, SeverityCol)).v <= 5);
    }
  }

  /** Whether an FMEA row yields a draft: both names present, S, O and D whole and in [1,10]. */
  lemma FmeaRowFacts(columns: set<string>, row: Row, rowNum: int, r: Parsed<FmeaDraft>)
    requires r == FmeaRow(columns, row, rowNum)
    ensures r.Accepted? <==>
      ValidName(NameIn(row, MissionNameCol)) && ValidName(NameIn(row, FailureModeCol)) &&
      ScoreOf(CellAt(row, SCol)).Whole? && ScoreOf(CellAt(row, OCol)).Whole? && ScoreOf(CellAt(row, DCol)).Whole? &&
      1 <= ScoreOf(CellAt(row, SCol)).v <= 10 && 1 <= ScoreOf(CellAt(row, OCol)).v <= 10 && 1 <= ScoreOf(CellAt(row, DCol)).v <= 10
    ensures r.Accepted? ==>
      r.item.s == ScoreOf(CellAt(row, SCol)).v && r.item.o == ScoreOf(CellAt(row, OCol)).v && r.item.d == ScoreOf(CellAt(row, DCol)).v &&
      r.item.missionName == NameIn(row, MissionNameCol) && r.item.failureMode == NameIn(row, FailureModeCol)
    ensures !ValidName(NameIn(row, MissionNameCol)) ==> r == Rejected(EmptyName(rowNum, MissionNameCol))
    ensures ValidName(NameIn(row, MissionNameCol)) && !ValidName(NameIn(row, FailureModeCol)) ==>
              r == Rejected(EmptyName(rowNum, FailureModeCol))
    ensures var sv, ov, dv := ScoreOf(CellAt(row, SCol)), ScoreOf(CellAt(row, OCol)), ScoreOf(CellAt(row, DCol));
      ValidName(NameIn(row, MissionNameCol)) && ValidName(NameIn(row, FailureModeCol)) && sv.Whole? && ov.Whole? && dv.Whole? ==>
        (!(1 <= sv.v <= 10) ==> r == Rejected(OutOfRange(rowNum, SCol))) &&
        (1 <= sv.v <= 10 && !(1 <= ov.v <= 10) ==> r == Rejected(OutOfRange(rowNum, OCol))) &&
        (1 <= sv.v <= 10 && 1 <= ov.v <= 10 && !(1 <= dv.v <= 10) ==> r == Rejected(OutOfRange(rowNum, DCol)))
  {
    var cols := [SCol, OCol, DCol];
    var s := ScoreRow(row, cols, 1, 10, rowNum);
    ScoreRowFacts(row, cols, 1, 10, rowNum, s);
    assert cols[0] == SCol && cols[1] == OCol && cols[2] == DCol;
    if ValidName(NameIn(row, MissionNameCol)) && ValidName(NameIn(row, FailureModeCol)) {
      assert s.Accepted? <==>
        (ScoreOf(CellAt(row, SCol)).Whole? && ScoreOf(CellAt(row, OCol)).Whole? && ScoreOf(CellAt(row, DCol)).Whole? &&
         1 <= ScoreOf(CellAt(row, SCol)).v <= 10 && 1 <= ScoreOf(CellAt(row, OCol)).v <= 10 && 1 <= ScoreOf(CellAt(row, DCol)).v <= 10);
    }
  }

  // ---------------------------------------------------------------------------
  // Whole sheets.

  function Kept<T>(ps: seq<Parsed<T>>): seq<T>
  {
    if ps == [] then []
    else
      var n := |ps| - 1;
      Kept(ps[..n]) + (if ps[n].Accepted? then [ps[n].item] else [])
  }

  function Refused<T>(ps: seq<Parsed<T>>): seq<ExcelError>
  {
    if ps == [] then []
    else
      var n := |ps| - 1;
      Refused(ps[..n]) + (if ps[n].Rejected? then [ps[n].error] else [])
  }

  lemma {:induction false} KeptRefusedPartition<T>(ps: seq<Parsed<T>>)
    ensures |Kept(ps)| + |Refused(ps)| == |ps|
  {
    if ps != [] {
      KeptRefusedPartition(ps[..|ps| - 1]);
    }
  }

  /** One more row adds its draft or its error. */
  lemma KeptStep<T>(ps: seq<Parsed<T>>, k: int)
    requires 0 <= k < |ps|
    ensures Kept(ps[..k + 1]) == Kept(ps[..k]) + (if ps[k].Accepted? then [ps[k].item] else [])
    ensures Refused(ps[..k + 1]) == Refused(ps[..k]) + (if ps[k].Rejected? then [ps[k].error] else [])
  {
    assert ps[..k + 1][..k] == ps[..k];
  }

  /** Every accepted row's draft is kept. */
  lemma {:induction false} KeptHas<T>(ps: seq<Parsed<T>>, i: int)
    requires 0 <= i < |ps| && ps[i].Accepted?
    ensures ps[i].item in Kept(ps)
  {
    var n := |ps| - 1;
    if i < n {
      assert ps[..n][i] == ps[i];
      KeptHas(ps[..n], i);
    }
  }

  /** Every kept draft is some accepted row's. */
  lemma {:induction false} KeptFrom<T>(ps: seq<Parsed<T>>, x: T) returns (i: int)
    requires x in Kept(ps)
    ensures 0 <= i < |ps| && ps[i] == Accepted(x)
  {
    var n := |ps| - 1;
    if x in Kept(ps[..n]) {
      i := KeptFrom(ps[..n], x);
      assert ps[..n][i] == ps[i];
    } else {
      i := n;
    }
  }

  /** Every rejected row's error is reported. */
  lemma {:induction false} RefusedHas<T>(ps: seq<Parsed<T>>, i: int)
    requires 0 <= i < |ps| && ps[i].Rejected?
    ensures ps[i].error in Refused(ps)
  {
    var n := |ps| - 1;
    if i < n {
      assert ps[..n][i] == ps[i];
      RefusedHas(ps[..n], i);
    }
  }

  /** Every reported error is some rejected row's. */
  lemma {:induction false} RefusedFrom<T>(ps: seq<Parsed<T>>, e: ExcelError) returns (i: int)
    requires e in Refused(ps)
    ensures 0 <= i < |ps| && ps[i] == Rejected(e)
  {
    var n := |ps| - 1;
    if e in Refused(ps[..n]) {
      i := RefusedFrom(ps[..n], e);
      assert ps[..n][i] == ps[i];
    } else {
      i := n;
    }
  }

  /** The drafts and errors an import returns. */
  datatype Imported<T> = Imported(items: seq<T>, errors: seq<ExcelError>)

  /**
   * An unreadable file and a missing required column each give no drafts and a single error;
   * otherwise every row gives a draft or an error, in row order.
   */
  function Screen<T>(sheet: Sheet, required: set<string>, parsed: seq<Parsed<T>>): (r: Imported<T>)
    ensures sheet.Table? && required <= sheet.columns ==> |r.items| + |r.errors| == |parsed|
  {
    match sheet
    case Unreadable => Imported([], [ReadFailed])
    case Table(columns, _) =>
      if !(required <= columns) then Imported([], [MissingColumns(required - columns)])
      else
        KeptRefusedPartition(parsed);
        Imported(Kept(parsed), Refused(parsed))
  }

  const MissionRequired := {MissionNameCol}
  const CategoryRequired := {CategoryNameCol}
  const IndicatorRequired := {IndicatorNameCol}
  const EventRequired := {MissionNameCol, EventNameCol, LikelihoodCol, SeverityCol}
  const FmeaRequired := {MissionNameCol, FailureModeCol, SCol, OCol, DCol}

  /** Every data row parsed in order; the first data row is line 2 of the sheet. */
  function ParseAll<T>(columns: set<string>, rows: seq<Row>, parse: (set<string>, Row, int) -> Parsed<T>): (r: seq<Parsed<T>>)
    ensures |r| == |rows|
  {
    seq(|rows|, i requires 0 <= i < |rows| => parse(columns, rows[i], i + 2))
  }

  /**
   * When only row `i` can be refused with `e` (errors carry their row number), `e` is reported
   * exactly when row `i` is refused with it.
   */
  lemma NumberedRefusal<T>(columns: set<string>, rows: seq<Row>, parse: (set<string>, Row, int) -> Parsed<T>, i: int, e: ExcelError)
    requires 0 <= i < |rows|
    requires forall j :: 0 <= j < |rows| && parse(columns, rows[j], j + 2) == Rejected(e) ==> j == i
    ensures e in Refused(ParseAll(columns, rows, parse)) <==> parse(columns, rows[i], i + 2) == Rejected(e)
  {
    var ps := ParseAll(columns, rows, parse);
    if parse(columns, rows[i], i + 2) == Rejected(e) {
      RefusedHas(ps, i);
    }
    if e in Refused(ps) {
      var j := RefusedFrom(ps, e);
    }
  }

  function MissionRows(sheet: Sheet, today: string): (r: seq<Parsed<Mission>>)
    ensures sheet.Table? ==> |r| == |sheet.rows|
  {
    if sheet.Unreadable? then []
    else ParseAll(sheet.columns, sheet.rows, (columns, row, rowNum) => MissionRow(columns, row, rowNum, today))
  }

  function CategoryRows(sheet: Sheet): (r: seq<Parsed<CategoryDraft>>)
    ensures sheet.Table? ==> |r| == |sheet.rows|
  {
    if sheet.Unreadable? then [] else ParseAll(sheet.columns, sheet.rows, CategoryRow)
  }

  function IndicatorRows(sheet: Sheet): (r: seq<Parsed<IndicatorDraft>>)
    ensures sheet.Table? ==> |r| == |sheet.rows|
  {
    if sheet.Unreadable? then [] else ParseAll(sheet.columns, sheet.rows, IndicatorRow)
  }

  function EventRows(sheet: Sheet): (r: seq<Parsed<EventDraft>>)
    ensures sheet.Table? ==> |r| == |sheet.rows|
  {
    if sheet.Unreadable? then [] else ParseAll(sheet.columns, sheet.rows, EventRow)
  }

  function FmeaRows(sheet: Sheet): (r: seq<Parsed<FmeaDraft>>)
    ensures sheet.Table? ==> |r| == |sheet.rows|
  {
    if sheet.Unreadable? then [] else ParseAll(sheet.columns, sheet.rows, FmeaRow)
  }

  function ImportedMissions(sheet: Sheet, today: string): Imported<Mission>
  {
    Screen(sheet, MissionRequired, MissionRows(sheet, today))
  }

  function ImportedCategories(sheet: Sheet): Imported<CategoryDraft>
  {
    Screen(sheet, CategoryRequired, CategoryRows(sheet))
  }

  function ImportedIndicators(sheet: Sheet): Imported<IndicatorDraft>
  {
    Screen(sheet, IndicatorRequired, IndicatorRows(sheet))
  }

  function ImportedEvents(sheet: Sheet): Imported<EventDraft>
  {
    Screen(sheet, EventRequired, EventRows(sheet))
  }

  function ImportedFmeaItems(sheet: Sheet): Imported<FmeaDraft>
  {
    Screen(sheet, FmeaRequired, FmeaRows(sheet))
  }

  // ---------------------------------------------------------------------------
  // What the imports guarantee.

  /** Lines 142-145: a mission row with an empty or "nan" name is refused with its row number. */
  lemma MissionImportFacts(sheet: Sheet, today: string, r: Imported<Mission>, i: int)
    requires r == ImportedMissions(sheet, today)
    requires sheet.Table? && MissionRequired <= sheet.columns && 0 <= i < |sheet.rows|
    ensures !ValidName(NameIn(sheet.rows[i], MissionNameCol)) <==> EmptyName(i + 2, MissionNameCol) in r.errors
  {
    var e := EmptyName(i + 2, MissionNameCol);
    forall j | 0 <= j < |sheet.rows| && MissionRow(sheet.columns, sheet.rows[j], j + 2, today) == Rejected(e) ensures j == i {
    }
    NumberedRefusal(sheet.columns, sheet.rows, (columns, row, rowNum) => MissionRow(columns, row, rowNum, today), i, e);
  }

  /** Every mission kept has a name. */
  lemma MissionsNamed(sheet: Sheet, today: string, r: Imported<Mission>, m: Mission)
    requires r == ImportedMissions(sheet, today) && m in r.items
    ensures ValidName(m.name)
  {
    var ps := MissionRows(sheet, today);
    assert r.items == Kept(ps);
    var j := KeptFrom(ps, m);
  }

  /** Lines 192-195: a category row without a name is refused with its row number. */
  lemma CategoryImportFacts(sheet: Sheet, r: Imported<CategoryDraft>, i: int)
    requires r == ImportedCategories(sheet)
    requires sheet.Table? && CategoryRequired <= sheet.columns && 0 <= i < |sheet.rows|
    ensures !ValidName(NameIn(sheet.rows[i], CategoryNameCol)) <==> EmptyName(i + 2, CategoryNameCol) in r.errors
  {
    var e := EmptyName(i + 2, CategoryNameCol);
    forall j | 0 <= j < |sheet.rows| && CategoryRow(sheet.columns, sheet.rows[j], j + 2) == Rejected(e) ensures j == i {
    }
    NumberedRefusal(sheet.columns, sheet.rows, CategoryRow, i, e);
  }

  /** Every category kept has a name. */
  lemma CategoriesNamed(sheet: Sheet, r: Imported<CategoryDraft>, c: CategoryDraft)
    requires r == ImportedCategories(sheet) && c in r.items
    ensures ValidName(c.name)
  {
    var ps := CategoryRows(sheet);
    assert r.items == Kept(ps);
    var j := KeptFrom(ps, c);
  }

  /** As for missions. */
  lemma IndicatorImportFacts(sheet: Sheet, r: Imported<IndicatorDraft>, i: int)
    requires r == ImportedIndicators(sheet)
    requires sheet.Table? && IndicatorRequired <= sheet.columns && 0 <= i < |sheet.rows|
    ensures !ValidName(NameIn(sheet.rows[i], IndicatorNameCol)) <==> EmptyName(i + 2, IndicatorNameCol) in r.errors
  {
    var e := EmptyName(i + 2, IndicatorNameCol);
    forall j | 0 <= j < |sheet.rows| && IndicatorRow(sheet.columns, sheet.rows[j], j + 2) == Rejected(e) ensures j == i {
    }
    NumberedRefusal(sheet.columns, sheet.rows, IndicatorRow, i, e);
  }

  /** Every indicator kept has a name and value type numeric or text. */
  lemma IndicatorsWellTyped(sheet: Sheet, r: Imported<IndicatorDraft>, d: IndicatorDraft)
    requires r == ImportedIndicators(sheet) && d in r.items
    ensures ValidName(d.name) && (d.valueType == "numeric" || d.valueType == "text")
  {
    var ps := IndicatorRows(sheet);
    assert r.items == Kept(ps);
    var j := KeptFrom(ps, d);
  }

  /**
   * A risk-event row with no mission name, or with whole scores out of range, is refused
   * with its row number rather than clamped.
   */
  lemma EventImportFacts(sheet: Sheet, r: Imported<EventDraft>, i: int)
    requires r == ImportedEvents(sheet)
    requires sheet.Table? && EventRequired <= sheet.columns && 0 <= i < |sheet.rows|
    ensures !ValidName(NameIn(sheet.rows[i], MissionNameCol)) ==> EmptyName(i + 2, MissionNameCol) in r.errors
    ensures var row := sheet.rows[i];
      var l, s := ScoreOf(CellAt(row, LikelihoodCol)), ScoreOf(CellAt(row, SeverityCol));
      ValidName(NameIn(row, MissionNameCol)) && ValidName(NameIn(row, EventNameCol)) && l.Whole? && s.Whole? &&
      !(1 <= l.v <= 5 && 1 <= s.v <= 5) ==>
        OutOfRange(i + 2, LikelihoodCol) in r.errors || OutOfRange(i + 2, SeverityCol) in r.errors
  {
    var ps := EventRows(sheet);
    assert r.errors == Refused(ps);
    EventRowFacts(sheet.columns, sheet.rows[i], i + 2, ps[i]);
    if ps[i].Rejected? {
      RefusedHas(ps, i);
    }
  }

  /** Every risk-event draft has both names and L and S in [1,5]. */
  lemma EventsInRange(sheet: Sheet, r: Imported<EventDraft>, d: EventDraft)
    requires r == ImportedEvents(sheet) && d in r.items
    ensures ValidName(d.missionName) && ValidName(d.name) && 1 <= d.likelihood <= 5 && 1 <= d.severity <= 5
  {
    var ps := EventRows(sheet);
    assert r.items == Kept(ps);
    var j := KeptFrom(ps, d);
    EventRowFacts(sheet.columns, sheet.rows[j], j + 2, ps[j]);
  }

  /** Refused FMEA rows are reported as for risk events. */
  lemma FmeaImportFacts(sheet: Sheet, r: Imported<FmeaDraft>, i: int)
    requires r == ImportedFmeaItems(sheet)
    requires sheet.Table? && FmeaRequired <= sheet.columns && 0 <= i < |sheet.rows|
    ensures !ValidName(NameIn(sheet.rows[i], MissionNameCol)) ==> EmptyName(i + 2, MissionNameCol) in r.errors
    ensures var row := sheet.rows[i];
      var sv, ov, dv := ScoreOf(CellAt(row, SCol)), ScoreOf(CellAt(row, OCol)), ScoreOf(CellAt(row, DCol));
      ValidName(NameIn(row, MissionNameCol)) && ValidName(NameIn(row, FailureModeCol)) && sv.Whole? && ov.Whole? && dv.Whole? &&
      !(1 <= sv.v <= 10 && 1 <= ov.v <= 10 && 1 <= dv.v <= 10) ==>
        OutOfRange(i + 2, SCol) in r.errors || OutOfRange(i + 2, OCol) in r.errors || OutOfRange(i + 2, DCol) in r.errors
  {
    var ps := FmeaRows(sheet);
    assert r.errors == Refused(ps);
    FmeaRowFacts(sheet.columns, sheet.rows[i], i + 2, ps[i]);
    if ps[i].Rejected? {
      RefusedHas(ps, i);
    }
  }

  /** Every FMEA draft has both names and S, O and D in [1,10]. */
  lemma FmeaItemsInRange(sheet: Sheet, r: Imported<FmeaDraft>, d: FmeaDraft)
    requires r == ImportedFmeaItems(sheet) && d in r.items
    ensures ValidName(d.missionName) && ValidName(d.failureMode) && 1 <= d.s <= 10 && 1 <= d.o <= 10 && 1 <= d.d <= 10
  {
    var ps := FmeaRows(sheet);
    assert r.items == Kept(ps);
    var j := KeptFrom(ps, d);
    FmeaRowFacts(sheet.columns, sheet.rows[j], j + 2, ps[j]);
  }

  // ---------------------------------------------------------------------------
  // The importer: `errors` is reset by every import and returned with the drafts.

  class ExcelImporter {
    var errors: seq<ExcelError>

    constructor ()
      ensures errors == []
    {
      errors := [];
    }

    /** The loop every import shares: each row gives a draft or appends its error. */
    method Collect<T>(columns: set<string>, rows: seq<Row>, parse: (set<string>, Row, int) -> Parsed<T>) returns (items: seq<T>)
      requires errors == []
      modifies this
      ensures items == Kept(ParseAll(columns, rows, parse)) && errors == Refused(ParseAll(columns, rows, parse))
    {
      items := [];
      ghost var ps := ParseAll(columns, rows, parse);
      var k := 0;
      while k < |rows|
        invariant 0 <= k <= |rows|
        invariant items == Kept(ps[..k]) && errors == Refused(ps[..k])
      {
        KeptStep(ps, k);
        var parsed := parse(columns, rows[k], k + 2);
        if parsed.Accepted? {
          items := items + [parsed.item];
        } else {
          errors := errors + [parsed.error];
        }
        k := k + 1;
      }
      assert ps[..k] == ps;
    }

    /** `import_missions` (lines 112-163). */
    method ImportMissions(sheet: Sheet, today: string) returns (missions: seq<Mission>, errs: seq<ExcelError>)
      modifies this
      ensures Imported(missions, errs) == ImportedMissions(sheet, today) && errors == errs
    {
      errors := [];
      if sheet.Unreadable? {
        errors := errors + [ReadFailed];
        return [], errors;
      }
      if !(MissionRequired <= sheet.columns) {
        errors := errors + [MissingColumns(MissionRequired - sheet.columns)];
        return [], errors;
      }
      missions := Collect(sheet.columns, sheet.rows, (columns, row, rowNum) => MissionRow(columns, row, rowNum, today));
      errs := errors;
    }

    /** `import_indicator_categories` (lines 165-213). */
    method ImportCategories(sheet: Sheet) returns (categories: seq<CategoryDraft>, errs: seq<ExcelError>)
      modifies this
      ensures Imported(categories, errs) == ImportedCategories(sheet) && errors == errs
    {
      errors := [];
      if sheet.Unreadable? {
        errors := errors + [ReadFailed];
        return [], errors;
      }
      if !(CategoryRequired <= sheet.columns) {
        errors := errors + [MissingColumns(CategoryRequired - sheet.columns)];
        return [], errors;
      }
      categories := Collect(sheet.columns, sheet.rows, CategoryRow);
      errs := errors;
    }

    /** `import_indicators` (lines 215-269). */
    method ImportIndicators(sheet: Sheet) returns (indicators: seq<IndicatorDraft>, errs: seq<ExcelError>)
      modifies this
      ensures Imported(indicators, errs) == ImportedIndicators(sheet) && errors == errs
    {
      errors := [];
      if sheet.Unreadable? {
        errors := errors + [ReadFailed];
        return [], errors;
      }
      if !(IndicatorRequired <= sheet.columns) {
        errors := errors + [MissingColumns(IndicatorRequired - sheet.columns)];
        return [], errors;
      }
      indicators := Collect(sheet.columns, sheet.rows, IndicatorRow);
      errs := errors;
    }

    /** `import_risk_events` (lines 271-343). */
    method ImportRiskEvents(sheet: Sheet) returns (events: seq<EventDraft>, errs: seq<ExcelError>)
      modifies this
      ensures Imported(events, errs) == ImportedEvents(sheet) && errors == errs
    {
      errors := [];
      if sheet.Unreadable? {
        errors := errors + [ReadFailed];
        return [], errors;
      }
      if !(EventRequired <= sheet.columns) {
        errors := errors + [MissingColumns(EventRequired - sheet.columns)];
        return [], errors;
      }
      events := Collect(sheet.columns, sheet.rows, EventRow);
      errs := errors;
    }

    /** `import_fmea_items` (lines 345-424). */
    method ImportFmeaItems(sheet: Sheet) returns (items: seq<FmeaDraft>, errs: seq<ExcelError>)
      modifies this
      ensures Imported(items, errs) == ImportedFmeaItems(sheet) && errors == errs
    {
      errors := [];
      if sheet.Unreadable? {
        errors := errors + [ReadFailed];
        return [], errors;
      }
      if !(FmeaRequired <= sheet.columns) {
        errors := errors + [MissingColumns(FmeaRequired - sheet.columns)];
        return [], errors;
      }
      items := Collect(sheet.columns, sheet.rows, FmeaRow);
      errs := errors;
    }
  }
}
