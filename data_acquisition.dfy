// The data acquisition pipeline: CSV import of indicator values, risk events and FMEA
// items through the store, the completeness check of a mission's data, and the CSV templates.
module DataAcquisition {
  import opened Common
  import opened Records
  import opened PyText
  import opened RecordStore

  /**
   * A row of `csv.DictReader`: header name to cell. A row shorter than the header gives
   * `None` for its missing cells; a column the header lacks is not a key.
   */
  type CsvRow = map<string, Option<string>>

  /** The rows the reader yields, and whether a malformed line then stops it (`csv.Error`). */
  datatype CsvText = CsvText(rows: seq<CsvRow>, malformed: bool)

  /** The entries of `errors`; each row error carries the row number (`enumerate(reader, start=2)`). */
  datatype CsvError =
    | MissionMissing(row: int, missionId: int)  // 任务ID ... 不存在
    | IndicatorMissing(row: int, name: string)  // 指标 ... 不存在
    | RowFailed(row: int)                       // an exception while reading or storing the row
    | CsvMalformed                              // CSV解析错误

  /** The entries of `warnings`. */
  datatype CsvWarning =
    | IndicatorCreated(row: int, name: string)  // 自动创建指标
    | ValueUpdated(row: int)                    // 更新已存在的值

  /** The result dict `{success, imported, errors, warnings}`. */
  datatype ImportResult = ImportResult(success: bool, imported: nat, errors: seq<CsvError>, warnings: seq<CsvWarning>)

  /** `row.get(key, default).strip()`; `None` for a missing cell, on which `strip` raises. */
  function TextField(row: CsvRow, key: string, default: string): Option<string>
  {
    if key !in row then Some(Strip(default))
    else match row[key]
      case None => None
      case Some(s) => Some(Strip(s))
  }

  /** `int(row.get(key, default))`; `None` where `int` raises. */
  function IntField(row: CsvRow, key: string, default: int): Option<int>
  {
    if key !in row then Some(default)
    else match row[key]
      case None => None
      case Some(s) => ParseInt(s)
  }

  /** The import of one table so far: its rows, the count of imported rows, errors and warnings. */
  datatype Progress<S> = Progress(state: S, imported: nat, errors: seq<CsvError>, warnings: seq<CsvWarning>)

  datatype Outcome<S> = Outcome(state: S, result: ImportResult)

  /** The end of an import: a malformed line adds the parse error; `success` is whether no error was recorded. */
  function Conclude<S>(p: Progress<S>, malformed: bool): Outcome<S>
  {
    var errors := if malformed then p.errors + [CsvMalformed] else p.errors;
    Outcome(p.state, ImportResult(errors == [], p.imported, errors, p.warnings))
  }

  // ---------------------------------------------------------------------------
  // `import_indicator_values_csv`.

  datatype ValueFields = ValueFields(missionId: int, indicatorName: string, value: string, source: string)

  function ReadValueRow(row: CsvRow): Option<ValueFields>
  {
    match (IntField(row, "mission_id", 0), TextField(row, "indicator_name", ""),
           TextField(row, "value", ""), TextField(row, "source", "CSV导入"))
    case (Some(m), Some(n), Some(v), Some(s)) => Some(ValueFields(m, n, v, s))
    case _ => None
  }

  /** The stored text of a value; `floatOf` is Python's `float()` on it, which the models read. */
  function StoredValue(floatOf: string -> Option<real>, text: string): ValueText
  {
    match floatOf(text)
    case Some(x) => Numeric(x)
    case None => NonNumeric(text)
  }

  /** `Indicator(name=..., unit="", value_type="numeric")`, the other fields at their defaults. */
  function NewIndicator(name: string): Indicator
  {
    Indicator(0, None, name, "", "numeric", "", "normal", EmptyText, 1.0)
  }

  datatype ValueTables = ValueTables(indicators: seq<Indicator>, values: seq<IndicatorValue>)

  /** Lines 95-112: the pair's first stored value rewritten, or a new value created. */
  function StoredValues(vs: seq<IndicatorValue>, f: ValueFields, indicatorId: int, now: string,
                        floatOf: string -> Option<real>): seq<IndicatorValue>
  {
    var v := StoredValue(floatOf, f.value);
    match ValueFor(vs, f.missionId, indicatorId)
    case Some(e) => ReplaceValue(vs, e.(value := v, source := f.source, timestamp := now))
    case None => InsertValue(vs, IndicatorValue(0, f.missionId, indicatorId, v, f.source, now))
  }

  /** A row that reached the store is imported; rewriting an existing value adds a warning. */
  function StoreValue(p: Progress<ValueTables>, f: ValueFields, indicatorId: int, rowNum: int,
                      now: string, floatOf: string -> Option<real>): Progress<ValueTables>
  {
    Progress(p.state.(values := StoredValues(p.state.values, f, indicatorId, now, floatOf)),
             p.imported + 1, p.errors,
             if ValueFor(p.state.values, f.missionId, indicatorId).Some? then p.warnings + [ValueUpdated(rowNum)] else p.warnings)
  }

  /** One row of the indicator-value import (lines 64-117). */
  function ValueRowStep(missions: seq<Mission>, p: Progress<ValueTables>, row: CsvRow, rowNum: int,
                        autoCreate: bool, now: string, floatOf: string -> Option<real>): Progress<ValueTables>
  {
    match ReadValueRow(row)
    case None => p.(errors := p.errors + [RowFailed(rowNum)])
    case Some(f) =>
      if MissionById(missions, f.missionId).None? then
        p.(errors := p.errors + [MissionMissing(rowNum, f.missionId)])
      else ValueForIndicator(p, f, rowNum, autoCreate, now, floatOf)
  }

  /** Lines 78-113: the row's indicator by name, created when allowed, and then its value stored. */
  function ValueForIndicator(p: Progress<ValueTables>, f: ValueFields, rowNum: int,
                             autoCreate: bool, now: string, floatOf: string -> Option<real>): Progress<ValueTables>
  {
    match IndicatorByName(p.state.indicators, f.indicatorName)
    case Some(ind) => StoreValue(p, f, ind.id, rowNum, now, floatOf)
    case None =>
      if !autoCreate then p.(errors := p.errors + [IndicatorMissing(rowNum, f.indicatorName)])
      else ValueForNewIndicator(p, f, rowNum, now, floatOf)
  }

  /** Lines 82-89: the indicator is created and read back by its new id before the value is stored. */
  function ValueForNewIndicator(p: Progress<ValueTables>, f: ValueFields, rowNum: int,
                                now: string, floatOf: string -> Option<real>): Progress<ValueTables>
  {
    var id := NextId(IndicatorIds(p.state.indicators));
    var created := Progress(p.state.(indicators := InsertIndicator(p.state.indicators, NewIndicator(f.indicatorName))),
                            p.imported, p.errors, p.warnings + [IndicatorCreated(rowNum, f.indicatorName)]);
    match IndicatorById(created.state.indicators, id)
    case None => created.(errors := created.errors + [RowFailed(rowNum)])
    case Some(ind) => StoreValue(created, f, ind.id, rowNum, now, floatOf)
  }

  function ValueRows(missions: seq<Mission>, t: ValueTables, rows: seq<CsvRow>,
                     autoCreate: bool, now: string, floatOf: string -> Option<real>): Progress<ValueTables>
  {
    if rows == [] then Progress(t, 0, [], [])
    else
      var n := |rows| - 1;
      ValueRowStep(missions, ValueRows(missions, t, rows[..n], autoCreate, now, floatOf), rows[n], n + 2, autoCreate, now, floatOf)
  }

  /** `import_indicator_values_csv` as a function of the tables it reads and writes. */
  function ImportIndicatorValues(missions: seq<Mission>, t: ValueTables, csv: CsvText,
                                 autoCreate: bool, now: string, floatOf: string -> Option<real>): Outcome<ValueTables>
  {
    Conclude(ValueRows(missions, t, csv.rows, autoCreate, now, floatOf), csv.malformed)
  }

  /** `import_indicator_values_csv`; `now` is the timestamp `datetime.now()` gives. */
  method ImportIndicatorValuesCsv(db: Database, csv: CsvText, autoCreate: bool, now: string,
                                  floatOf: string -> Option<real>) returns (result: ImportResult)
    requires db.Valid()
    modifies db
    ensures db.Valid()
    ensures Outcome(ValueTables(db.indicators, db.values), result)
      == ImportIndicatorValues(old(db.missions), ValueTables(old(db.indicators), old(db.values)), csv, autoCreate, now, floatOf)
    ensures db.Snapshot() == old(db.Snapshot()).(indicators := db.indicators, values := db.values)
  {
    ghost var t0 := ValueTables(db.indicators, db.values);
    result := ImportResult(true, 0, [], []);
    var k := 0;
    while k < |csv.rows|
      invariant 0 <= k <= |csv.rows| && db.Valid() && result.success
      invariant db.Snapshot() == old(db.Snapshot()).(indicators := db.indicators, values := db.values)
      invariant ValueRows(db.missions, t0, csv.rows[..k], autoCreate, now, floatOf)
        == Progress(ValueTables(db.indicators, db.values), result.imported, result.errors, result.warnings)
    {
      assert csv.rows[..k + 1][..k] == csv.rows[..k];
      result := ImportValueRow(db, csv.rows[k], k + 2, autoCreate, now, floatOf, result);
      k := k + 1;
    }
    assert csv.rows[..k] == csv.rows;
    if csv.malformed {
      result := result.(success := false, errors := result.errors + [CsvMalformed]);
    }
    if result.errors != [] {
      result := result.(success := false);
    }
  }

  /** The body of the row loop (lines 65-117). */
  method ImportValueRow(db: Database, row: CsvRow, rowNum: int, autoCreate: bool, now: string,
                        floatOf: string -> Option<real>, before: ImportResult) returns (result: ImportResult)
    requires db.Valid()
    modifies db
    ensures db.Valid() && result.success == before.success
    ensures db.Snapshot() == old(db.Snapshot()).(indicators := db.indicators, values := db.values)
    ensures Progress(ValueTables(db.indicators, db.values), result.imported, result.errors, result.warnings)
      == ValueRowStep(db.missions, Progress(ValueTables(old(db.indicators), old(db.values)), before.imported, before.errors, before.warnings),
                      row, rowNum, autoCreate, now, floatOf)
  {
    result := before;
    var fields := ReadValueRow(row);
    if fields.None? {
      result := result.(errors := result.errors + [RowFailed(rowNum)]);
    } else if MissionById(db.missions, fields.value.missionId).None? {
      result := result.(errors := result.errors + [MissionMissing(rowNum, fields.value.missionId)]);
    } else {
      result := ImportValueFor(db, fields.value, rowNum, autoCreate, now, floatOf, before);
    }
  }

  method ImportValueFor(db: Database, f: ValueFields, rowNum: int, autoCreate: bool, now: string,
                        floatOf: string -> Option<real>, before: ImportResult) returns (result: ImportResult)
    requires db.Valid()
    modifies db
    ensures db.Valid() && result.success == before.success
    ensures db.Snapshot() == old(db.Snapshot()).(indicators := db.indicators, values := db.values)
    ensures Progress(ValueTables(db.indicators, db.values), result.imported, result.errors, result.warnings)
      == ValueForIndicator(Progress(ValueTables(old(db.indicators), old(db.values)), before.imported, before.errors, before.warnings),
                           f, rowNum, autoCreate, now, floatOf)
  {
    result := before;
    var indicator := IndicatorByName(db.indicators, f.indicatorName);
    if indicator.Some? {
      result := StoreRow(db, f, indicator.value.id, rowNum, now, floatOf, result);
    } else if !autoCreate {
      result := result.(errors := result.errors + [IndicatorMissing(rowNum, f.indicatorName)]);
    } else {
      var id := db.CreateIndicator(NewIndicator(f.indicatorName));
      result := result.(warnings := result.warnings + [IndicatorCreated(rowNum, f.indicatorName)]);
      indicator := IndicatorById(db.indicators, id);
      if indicator.None? {
        result := result.(errors := result.errors + [RowFailed(rowNum)]);
      } else {
        result := StoreRow(db, f, indicator.value.id, rowNum, now, floatOf, result);
      }
    }
  }

  /** Lines 94-114: the value stored for the row's pair, and the row counted as imported. */
  method StoreRow(db: Database, f: ValueFields, indicatorId: int, rowNum: int, now: string,
                  floatOf: string -> Option<real>, before: ImportResult) returns (result: ImportResult)
    requires db.Valid()
    modifies db
    ensures db.Valid() && result.success == before.success
    ensures db.Snapshot() == old(db.Snapshot()).(values := db.values)
    ensures Progress(ValueTables(db.indicators, db.values), result.imported, result.errors, result.warnings)
      == StoreValue(Progress(ValueTables(old(db.indicators), old(db.values)), before.imported, before.errors, before.warnings),
                    f, indicatorId, rowNum, now, floatOf)
  {
    result := before;
    var updated := StoreRowValue(db, f, indicatorId, now, floatOf);
    if updated {
      result := result.(warnings := result.warnings + [ValueUpdated(rowNum)]);
    }
    result := result.(imported := result.imported + 1);
  }

  /** Lines 95-112: rewrite the pair's stored value or create one; `updated` when one existed. */
  method StoreRowValue(db: Database, f: ValueFields, indicatorId: int, now: string,
                       floatOf: string -> Option<real>) returns (updated: bool)
    requires db.Valid()
    modifies db
    ensures db.Valid()
    ensures updated == ValueFor(old(db.values), f.missionId, indicatorId).Some?
    ensures db.Snapshot() == old(db.Snapshot()).(values := StoredValues(old(db.values), f, indicatorId, now, floatOf))
  {
    var v := StoredValue(floatOf, f.value);
    var existing := ValueFor(db.values, f.missionId, indicatorId);
    updated := existing.Some?;
    if updated {
      db.UpdateValue(existing.value.(value := v, source := f.source, timestamp := now));
    } else {
      var _ := db.CreateValue(IndicatorValue(0, f.missionId, indicatorId, v, f.source, now));
    }
  }

  // ---------------------------------------------------------------------------
  // `import_risk_events_csv`.

  datatype EventFields = EventFields(missionId: int, name: string, hazardType: string, desc: string,
                                     likelihood: int, severity: int)

  function ReadEventRow(row: CsvRow): Option<EventFields>
  {
    match (IntField(row, "mission_id", 0), TextField(row, "name", ""), TextField(row, "hazard_type", ""),
           TextField(row, "desc", ""), IntField(row, "likelihood", 3), IntField(row, "severity", 3))
    case (Some(m), Some(n), Some(h), Some(d), Some(l), Some(s)) => Some(EventFields(m, n, h, d, l, s))
    case _ => None
  }

  /** Lines 162-174: the event a row creates, with L and S clamped into [1,5]. */
  function ClampedEvent(f: EventFields): (e: RiskEvent)
    ensures 1 <= e.likelihood <= 5 && 1 <= e.severity <= 5
    ensures 1 <= f.likelihood <= 5 ==> e.likelihood == f.likelihood
    ensures 1 <= f.severity <= 5 ==> e.severity == f.severity
    ensures e.missionId == f.missionId && e.name == f.name && e.hazardType == f.hazardType && e.desc == f.desc
  {
    ClampInRange(f.likelihood, 1, 5);
    ClampInRange(f.severity, 1, 5);
    RiskEvent(0, f.missionId, f.name, f.hazardType, f.desc, Clamp(f.likelihood, 1, 5), Clamp(f.severity, 1, 5))
  }

  /** A row that creates an event: it reads, and its mission exists. */
  predicate EventRowAccepted(missions: seq<Mission>, row: CsvRow)
  {
    ReadEventRow(row).Some? && MissionById(missions, ReadEventRow(row).value.missionId).Some?
  }

  /** One row of the risk-event import (lines 147-179). */
  function EventRowStep(missions: seq<Mission>, p: Progress<seq<RiskEvent>>, row: CsvRow, rowNum: int): Progress<seq<RiskEvent>>
  {
    match ReadEventRow(row)
    case None => p.(errors := p.errors + [RowFailed(rowNum)])
    case Some(f) =>
      if MissionById(missions, f.missionId).None? then p.(errors := p.errors + [MissionMissing(rowNum, f.missionId)])
      else p.(state := InsertEvent(p.state, ClampedEvent(f)), imported := p.imported + 1)
  }

  function EventRows(missions: seq<Mission>, events: seq<RiskEvent>, rows: seq<CsvRow>): Progress<seq<RiskEvent>>
  {
    if rows == [] then Progress(events, 0, [], [])
    else
      var n := |rows| - 1;
      EventRowStep(missions, EventRows(missions, events, rows[..n]), rows[n], n + 2)
  }

  function ImportRiskEvents(missions: seq<Mission>, events: seq<RiskEvent>, csv: CsvText): Outcome<seq<RiskEvent>>
  {
    Conclude(EventRows(missions, events, csv.rows), csv.malformed)
  }

  /** `import_risk_events_csv`. */
  method ImportRiskEventsCsv(db: Database, csv: CsvText) returns (result: ImportResult)
    requires db.Valid()
    modifies db
    ensures db.Valid()
    ensures Outcome(db.events, result) == ImportRiskEvents(old(db.missions), old(db.events), csv)
    ensures db.Snapshot() == old(db.Snapshot()).(events := db.events)
  {
    ghost var events0 := db.events;
    result := ImportResult(true, 0, [], []);
    var k := 0;
    while k < |csv.rows|
      invariant 0 <= k <= |csv.rows| && db.Valid() && result.success
      invariant db.Snapshot() == old(db.Snapshot()).(events := db.events)
      invariant EventRows(db.missions, events0, csv.rows[..k]) == Progress(db.events, result.imported, result.errors, result.warnings)
    {
      assert csv.rows[..k + 1][..k] == csv.rows[..k];
      result := ImportEventRow(db, csv.rows[k], k + 2, result);
      k := k + 1;
    }
    assert csv.rows[..k] == csv.rows;
    if csv.malformed {
      result := result.(success := false, errors := result.errors + [CsvMalformed]);
    }
    if result.errors != [] {
      result := result.(success := false);
    }
  }

  /** The body of the row loop (lines 148-179). */
  method ImportEventRow(db: Database, row: CsvRow, rowNum: int, before: ImportResult) returns (result: ImportResult)
    requires db.Valid()
    modifies db
    ensures db.Valid() && result.success == before.success
    ensures db.Snapshot() == old(db.Snapshot()).(events := db.events)
    ensures Progress(db.events, result.imported, result.errors, result.warnings)
      == EventRowStep(db.missions, Progress(old(db.events), before.imported, before.errors, before.warnings), row, rowNum)
  {
    result := before;
    var fields := ReadEventRow(row);
    if fields.None? {
      result := result.(errors := result.errors + [RowFailed(rowNum)]);
    } else if MissionById(db.missions, fields.value.missionId).None? {
      result := result.(errors := result.errors + [MissionMissing(rowNum, fields.value.missionId)]);
    } else {
      var f := fields.value;
      var likelihood := Clamp(f.likelihood, 1, 5);
      var severity := Clamp(f.severity, 1, 5);
      var _ := db.CreateEvent(RiskEvent(0, f.missionId, f.name, f.hazardType, f.desc, likelihood, severity));
      result := result.(imported := result.imported + 1);
    }
  }

  // ---------------------------------------------------------------------------
  // `import_fmea_items_csv`.

  datatype FmeaFields = FmeaFields(missionId: int, system: string, failureMode: string, effect: string,
                                   cause: string, control: string, s: int, o: int, d: int)

  function ReadFmeaRow(row: CsvRow): Option<FmeaFields>
  {
    match (IntField(row, "mission_id", 0), TextField(row, "system", ""), TextField(row, "failure_mode", ""),
           TextField(row, "effect", ""), TextField(row, "cause", ""), TextField(row, "control", ""),
           IntField(row, "S", 5), IntField(row, "O", 5), IntField(row, "D", 5))
    case (Some(m), Some(sy), Some(fm), Some(ef), Some(ca), Some(co), Some(s), Some(o), Some(d)) =>
      Some(FmeaFields(m, sy, fm, ef, ca, co, s, o, d))
    case _ => None
  }

  /** Lines 227-243: the item a row creates, with S, O and D clamped into [1,10]. */
  function ClampedItem(f: FmeaFields): (item: FmeaItem)
    ensures 1 <= item.s <= 10 && 1 <= item.o <= 10 && 1 <= item.d <= 10
    ensures 1 <= f.s <= 10 ==> item.s == f.s
    ensures 1 <= f.o <= 10 ==> item.o == f.o
    ensures 1 <= f.d <= 10 ==> item.d == f.d
    ensures item.missionId == f.missionId && item.failureMode == f.failureMode
  {
    ClampInRange(f.s, 1, 10);
    ClampInRange(f.o, 1, 10);
    ClampInRange(f.d, 1, 10);
    FmeaItem(0, f.missionId, f.system, f.failureMode, f.effect, f.cause, f.control,
             Clamp(f.s, 1, 10), Clamp(f.o, 1, 10), Clamp(f.d, 1, 10))
  }

  predicate FmeaRowAccepted(missions: seq<Mission>, row: CsvRow)
  {
    ReadFmeaRow(row).Some? && MissionById(missions, ReadFmeaRow(row).value.missionId).Some?
  }

  /** One row of the FMEA import (lines 209-248). */
  function FmeaRowStep(missions: seq<Mission>, p: Progress<seq<FmeaItem>>, row: CsvRow, rowNum: int): Progress<seq<FmeaItem>>
  {
    match ReadFmeaRow(row)
    case None => p.(errors := p.errors + [RowFailed(rowNum)])
    case Some(f) =>
      if MissionById(missions, f.missionId).None? then p.(errors := p.errors + [MissionMissing(rowNum, f.missionId)])
      else p.(state := InsertFmeaItem(p.state, ClampedItem(f)), imported := p.imported + 1)
  }

  function FmeaRows(missions: seq<Mission>, items: seq<FmeaItem>, rows: seq<CsvRow>): Progress<seq<FmeaItem>>
  {
    if rows == [] then Progress(items, 0, [], [])
    else
      var n := |rows| - 1;
      FmeaRowStep(missions, FmeaRows(missions, items, rows[..n]), rows[n], n + 2)
  }

  function ImportFmeaItems(missions: seq<Mission>, items: seq<FmeaItem>, csv: CsvText): Outcome<seq<FmeaItem>>
  {
    Conclude(FmeaRows(missions, items, csv.rows), csv.malformed)
  }

  /** `import_fmea_items_csv`. */
  method ImportFmeaItemsCsv(db: Database, csv: CsvText) returns (result: ImportResult)
    requires db.Valid()
    modifies db
    ensures db.Valid()
    ensures Outcome(db.fmeaItems, result) == ImportFmeaItems(old(db.missions), old(db.fmeaItems), csv)
    ensures db.Snapshot() == old(db.Snapshot()).(fmeaItems := db.fmeaItems)
  {
    ghost var items0 := db.fmeaItems;
    result := ImportResult(true, 0, [], []);
    var k := 0;
    while k < |csv.rows|
      invariant 0 <= k <= |csv.rows| && db.Valid() && result.success
      invariant db.Snapshot() == old(db.Snapshot()).(fmeaItems := db.fmeaItems)
      invariant FmeaRows(db.missions, items0, csv.rows[..k]) == Progress(db.fmeaItems, result.imported, result.errors, result.warnings)
    {
      assert csv.rows[..k + 1][..k] == csv.rows[..k];
      result := ImportFmeaRow(db, csv.rows[k], k + 2, result);
      k := k + 1;
    }
    assert csv.rows[..k] == csv.rows;
    if csv.malformed {
      result := result.(success := false, errors := result.errors + [CsvMalformed]);
    }
    if result.errors != [] {
      result := result.(success := false);
    }
  }

  /** The body of the row loop (lines 210-248). */
  method ImportFmeaRow(db: Database, row: CsvRow, rowNum: int, before: ImportResult) returns (result: ImportResult)
    requires db.Valid()
    modifies db
    ensures db.Valid() && result.success == before.success
    ensures db.Snapshot() == old(db.Snapshot()).(fmeaItems := db.fmeaItems)
    ensures Progress(db.fmeaItems, result.imported, result.errors, result.warnings)
      == FmeaRowStep(db.missions, Progress(old(db.fmeaItems), before.imported, before.errors, before.warnings), row, rowNum)
  {
    result := before;
    var fields := ReadFmeaRow(row);
    if fields.None? {
      result := result.(errors := result.errors + [RowFailed(rowNum)]);
    } else if MissionById(db.missions, fields.value.missionId).None? {
      result := result.(errors := result.errors + [MissionMissing(rowNum, fields.value.missionId)]);
    } else {
      var f := fields.value;
      var s := Clamp(f.s, 1, 10);
      var o := Clamp(f.o, 1, 10);
      var d := Clamp(f.d, 1, 10);
      var _ := db.CreateFmeaItem(FmeaItem(0, f.missionId, f.system, f.failureMode, f.effect, f.cause, f.control, s, o, d));
      result := result.(imported := result.imported + 1);
    }
  }

  // ---------------------------------------------------------------------------
  // What the imports guarantee.

  /** The event an accepted row creates, before the store gives it an id. */
  function AcceptedEvent(missions: seq<Mission>, row: CsvRow): (r: Option<RiskEvent>)
    ensures r.Some? <==> EventRowAccepted(missions, row)
    ensures r.Some? ==> r.value == ClampedEvent(ReadEventRow(row).value)
    ensures r.Some? ==> 1 <= r.value.likelihood <= 5 && 1 <= r.value.severity <= 5 && r.value.id == 0
                        && MissionById(missions, r.value.missionId).Some?
  {
    if EventRowAccepted(missions, row) then Some(ClampedEvent(ReadEventRow(row).value)) else None
  }

  /** The events the accepted rows create, in row order, before the store gives them ids. */
  function AcceptedEvents(missions: seq<Mission>, rows: seq<CsvRow>): (r: seq<RiskEvent>)
  {
    if rows == [] then []
    else
      var n := |rows| - 1;
      var e := AcceptedEvent(missions, rows[n]);
      AcceptedEvents(missions, rows[..n]) + (if e.Some? then [e.value] else [])
  }

  /** Every accepted event has L and S in [1,5] and belongs to an existing mission. */
  lemma {:induction false} AcceptedEventsSound(missions: seq<Mission>, rows: seq<CsvRow>, j: int)
    requires 0 <= j < |AcceptedEvents(missions, rows)|
    ensures var e := AcceptedEvents(missions, rows)[j];
      1 <= e.likelihood <= 5 && 1 <= e.severity <= 5 && e.id == 0 && MissionById(missions, e.missionId).Some?
  {
    var n := |rows| - 1;
    var prev := AcceptedEvents(missions, rows[..n]);
    if j < |prev| {
      AcceptedEventsSound(missions, rows[..n], j);
    }
  }

  /**
   * Every row is either imported or reported by exactly one error; the table only grows, by the
   * accepted rows' clamped events.
   */
  lemma {:induction false} EventRowsFacts(missions: seq<Mission>, events: seq<RiskEvent>, rows: seq<CsvRow>)
    ensures var p, acc := EventRows(missions, events, rows), AcceptedEvents(missions, rows);
      && p.warnings == []
      && p.imported + |p.errors| == |rows|
      && p.imported == |acc| && |p.state| == |events| + |acc| && p.state[..|events|] == events
      && forall j :: 0 <= j < |acc| ==> p.state[|events| + j].(id := 0) == acc[j]
  {
    if rows != [] {
      var n := |rows| - 1;
      EventRowsFacts(missions, events, rows[..n]);
      var p := EventRows(missions, events, rows[..n]);
      var acc := AcceptedEvents(missions, rows[..n]);
      if EventRowAccepted(missions, rows[n]) {
        var q := EventRows(missions, events, rows);
        assert q.state == p.state + [ClampedEvent(ReadEventRow(rows[n]).value).(id := NextId(EventIds(p.state)))];
        assert q.state[..|events|] == p.state[..|events|];
      }
    }
  }

  /** One row only appends to the errors, and a row with an unknown mission appends exactly that error. */
  lemma EventStepErrors(missions: seq<Mission>, p: Progress<seq<RiskEvent>>, row: CsvRow, rowNum: int,
                        q: Progress<seq<RiskEvent>>)
    requires q == EventRowStep(missions, p, row, rowNum)
    ensures forall e :: e in p.errors ==> e in q.errors
    ensures ReadEventRow(row).Some? && MissionById(missions, ReadEventRow(row).value.missionId).None? ==>
              MissionMissing(rowNum, ReadEventRow(row).value.missionId) in q.errors
  {
  }

  /** A row naming a mission that does not exist is reported with its row number. */
  lemma {:induction false} EventMissionMissingReported(missions: seq<Mission>, events: seq<RiskEvent>, rows: seq<CsvRow>, i: int)
    requires 0 <= i < |rows| && ReadEventRow(rows[i]).Some?
    requires MissionById(missions, ReadEventRow(rows[i]).value.missionId).None?
    ensures MissionMissing(i + 2, ReadEventRow(rows[i]).value.missionId) in EventRows(missions, events, rows).errors
  {
    var n := |rows| - 1;
    EventStepErrors(missions, EventRows(missions, events, rows[..n]), rows[n], n + 2, EventRows(missions, events, rows));
    if i < n {
      assert rows[..n][i] == rows[i];
      EventMissionMissingReported(missions, events, rows[..n], i);
    }
  }

  /**
   * `import_risk_events_csv`: the result counts every row once, succeeds exactly when every
   * row was imported from a well-formed text, and only adds events with L and S in [1,5] and
   * an existing mission.
   */
  lemma RiskEventImportFacts(missions: seq<Mission>, events: seq<RiskEvent>, csv: CsvText)
    ensures var o := ImportRiskEvents(missions, events, csv);
      && o.result.imported + |o.result.errors| == |csv.rows| + (if csv.malformed then 1 else 0)
      && (o.result.success <==> !csv.malformed && o.result.imported == |csv.rows|)
      && (!o.result.success <==> o.result.errors != [])
      && |o.state| == |events| + o.result.imported && o.state[..|events|] == events
      && forall j :: |events| <= j < |o.state| ==>
           1 <= o.state[j].likelihood <= 5 && 1 <= o.state[j].severity <= 5 && MissionById(missions, o.state[j].missionId).Some?
  {
    EventRowsFacts(missions, events, csv.rows);
    var o := ImportRiskEvents(missions, events, csv);
    var acc := AcceptedEvents(missions, csv.rows);
    forall j | |events| <= j < |o.state|
      ensures 1 <= o.state[j].likelihood <= 5 && 1 <= o.state[j].severity <= 5 && MissionById(missions, o.state[j].missionId).Some?
    {
      assert o.state[|events| + (j - |events|)].(id := 0) == acc[j - |events|];
      AcceptedEventsSound(missions, csv.rows, j - |events|);
    }
  }

  function AcceptedItem(missions: seq<Mission>, row: CsvRow): (r: Option<FmeaItem>)
    ensures r.Some? <==> FmeaRowAccepted(missions, row)
    ensures r.Some? ==> r.value == ClampedItem(ReadFmeaRow(row).value)
    ensures r.Some? ==> 1 <= r.value.s <= 10 && 1 <= r.value.o <= 10 && 1 <= r.value.d <= 10 && r.value.id == 0
                        && MissionById(missions, r.value.missionId).Some?
  {
    if FmeaRowAccepted(missions, row) then Some(ClampedItem(ReadFmeaRow(row).value)) else None
  }

  function AcceptedItems(missions: seq<Mission>, rows: seq<CsvRow>): (r: seq<FmeaItem>)
  {
    if rows == [] then []
    else
      var n := |rows| - 1;
      var item := AcceptedItem(missions, rows[n]);
      AcceptedItems(missions, rows[..n]) + (if item.Some? then [item.value] else [])
  }

  lemma {:induction false} AcceptedItemsSound(missions: seq<Mission>, rows: seq<CsvRow>, j: int)
    requires 0 <= j < |AcceptedItems(missions, rows)|
    ensures var item := AcceptedItems(missions, rows)[j];
      1 <= item.s <= 10 && 1 <= item.o <= 10 && 1 <= item.d <= 10 && item.id == 0
      && MissionById(missions, item.missionId).Some?
  {
    var n := |rows| - 1;
    var prev := AcceptedItems(missions, rows[..n]);
    if j < |prev| {
      AcceptedItemsSound(missions, rows[..n], j);
    }
  }

  lemma {:induction false} FmeaRowsFacts(missions: seq<Mission>, items: seq<FmeaItem>, rows: seq<CsvRow>)
    ensures var p, acc := FmeaRows(missions, items, rows), AcceptedItems(missions, rows);
      && p.warnings == []
      && p.imported + |p.errors| == |rows|
      && p.imported == |acc| && |p.state| == |items| + |acc| && p.state[..|items|] == items
      && forall j :: 0 <= j < |acc| ==> p.state[|items| + j].(id := 0) == acc[j]
  {
    if rows != [] {
      var n := |rows| - 1;
      FmeaRowsFacts(missions, items, rows[..n]);
      var p := FmeaRows(missions, items, rows[..n]);
      if FmeaRowAccepted(missions, rows[n]) {
        var q := FmeaRows(missions, items, rows);
        assert q.state == p.state + [ClampedItem(ReadFmeaRow(rows[n]).value).(id := NextId(FmeaIds(p.state)))];
        assert q.state[..|items|] == p.state[..|items|];
      }
    }
  }

  lemma FmeaStepErrors(missions: seq<Mission>, p: Progress<seq<FmeaItem>>, row: CsvRow, rowNum: int,
                       q: Progress<seq<FmeaItem>>)
    requires q == FmeaRowStep(missions, p, row, rowNum)
    ensures forall e :: e in p.errors ==> e in q.errors
    ensures ReadFmeaRow(row).Some? && MissionById(missions, ReadFmeaRow(row).value.missionId).None? ==>
              MissionMissing(rowNum, ReadFmeaRow(row).value.missionId) in q.errors
  {
  }

  lemma {:induction false} FmeaMissionMissingReported(missions: seq<Mission>, items: seq<FmeaItem>, rows: seq<CsvRow>, i: int)
    requires 0 <= i < |rows| && ReadFmeaRow(rows[i]).Some?
    requires MissionById(missions, ReadFmeaRow(rows[i]).value.missionId).None?
    ensures MissionMissing(i + 2, ReadFmeaRow(rows[i]).value.missionId) in FmeaRows(missions, items, rows).errors
  {
    var n := |rows| - 1;
    FmeaStepErrors(missions, FmeaRows(missions, items, rows[..n]), rows[n], n + 2, FmeaRows(missions, items, rows));
    if i < n {
      assert rows[..n][i] == rows[i];
      FmeaMissionMissingReported(missions, items, rows[..n], i);
    }
  }

  /** `import_fmea_items_csv`: as for risk events, with S, O and D in [1,10]. */
  lemma FmeaImportFacts(missions: seq<Mission>, items: seq<FmeaItem>, csv: CsvText)
    ensures var o := ImportFmeaItems(missions, items, csv);
      && o.result.imported + |o.result.errors| == |csv.rows| + (if csv.malformed then 1 else 0)
      && (o.result.success <==> !csv.malformed && o.result.imported == |csv.rows|)
      && (!o.result.success <==> o.result.errors != [])
      && |o.state| == |items| + o.result.imported && o.state[..|items|] == items
      && forall j :: |items| <= j < |o.state| ==>
           1 <= o.state[j].s <= 10 && 1 <= o.state[j].o <= 10 && 1 <= o.state[j].d <= 10
           && MissionById(missions, o.state[j].missionId).Some?
  {
    FmeaRowsFacts(missions, items, csv.rows);
    var o := ImportFmeaItems(missions, items, csv);
    var acc := AcceptedItems(missions, csv.rows);
    forall j | |items| <= j < |o.state|
      ensures 1 <= o.state[j].s <= 10 && 1 <= o.state[j].o <= 10 && 1 <= o.state[j].d <= 10
        && MissionById(missions, o.state[j].missionId).Some?
    {
      assert o.state[|items| + (j - |items|)].(id := 0) == acc[j - |items|];
      AcceptedItemsSound(missions, csv.rows, j - |items|);
    }
  }

  /** At most one stored value per (mission, indicator) pair. */
  predicate PairsUnique(vs: seq<IndicatorValue>)
  {
    forall i, j :: 0 <= i < j < |vs| ==> !(vs[i].missionId == vs[j].missionId && vs[i].indicatorId == vs[j].indicatorId)
  }

  /** With one value per pair, any match is the one the lookup finds. */
  lemma ValueForUnique(vs: seq<IndicatorValue>, k: int, missionId: int, indicatorId: int)
    requires PairsUnique(vs) && 0 <= k < |vs| && IsValueOf(vs[k], missionId, indicatorId)
    ensures ValueFor(vs, missionId, indicatorId) == Some(vs[k])
  {
    var r := ValueFor(vs, missionId, indicatorId);
    var i :| 0 <= i < |vs| && vs[i] == r.value && IsValueOf(vs[i], missionId, indicatorId);
  }

  /** Rewriting a stored value under its own id and pair touches only that value. */
  lemma RewriteKeepsKeys(vs: seq<IndicatorValue>, i: int, e: IndicatorValue)
    requires Distinct(ValueIds(vs)) && PairsUnique(vs) && 0 <= i < |vs|
    requires e.id == vs[i].id && IsValueOf(e, vs[i].missionId, vs[i].indicatorId)
    ensures ReplaceValue(vs, e) == vs[i := e]
    ensures Distinct(ValueIds(vs[i := e])) && PairsUnique(vs[i := e])
  {
    var after := ReplaceValue(vs, e);
    forall j | 0 <= j < |vs| ensures after[j] == vs[i := e][j] {
      if j != i { assert ValueIds(vs)[j] != ValueIds(vs)[i]; }
    }
    assert ValueIds(vs[i := e]) == ValueIds(vs);
  }

  /** Appending a value under a fresh id and a new pair keeps ids and pairs unique. */
  lemma AppendKeepsKeys(vs: seq<IndicatorValue>, x: IndicatorValue)
    requires Distinct(ValueIds(vs)) && PairsUnique(vs)
    requires x.id == NextId(ValueIds(vs)) && ValueFor(vs, x.missionId, x.indicatorId).None?
    ensures Distinct(ValueIds(vs + [x])) && PairsUnique(vs + [x])
  {
    assert ValueIds(vs + [x]) == ValueIds(vs) + [x.id];
    FreshKeepsDistinct(ValueIds(vs));
    forall i | 0 <= i < |vs| ensures !IsValueOf(vs[i], x.missionId, x.indicatorId) { }
  }

  /**
   * The upsert of lines 94-112: with one value per pair, the pair's value is rewritten in place
   * when it exists and added otherwise, and afterwards the pair holds the row's value.
   */
  lemma StoredValuesFacts(vs: seq<IndicatorValue>, f: ValueFields, indicatorId: int, now: string,
                          floatOf: string -> Option<real>, after: seq<IndicatorValue>)
    requires Distinct(ValueIds(vs)) && PairsUnique(vs)
    requires after == StoredValues(vs, f, indicatorId, now, floatOf)
    ensures Distinct(ValueIds(after)) && PairsUnique(after)
    ensures |after| == |vs| + (if ValueFor(vs, f.missionId, indicatorId).Some? then 0 else 1)
    ensures ValueFor(after, f.missionId, indicatorId).Some?
    ensures ValueFor(after, f.missionId, indicatorId).value.(id := 0)
            == IndicatorValue(0, f.missionId, indicatorId, StoredValue(floatOf, f.value), f.source, now)
  {
    var v := StoredValue(floatOf, f.value);
    var m := f.missionId;
    match ValueFor(vs, m, indicatorId)
    case Some(e) =>
      var i :| 0 <= i < |vs| && vs[i] == e && IsValueOf(vs[i], m, indicatorId);
      var e' := e.(value := v, source := f.source, timestamp := now);
      RewriteKeepsKeys(vs, i, e');
      ValueForUnique(after, i, m, indicatorId);
    case None =>
      var x := IndicatorValue(NextId(ValueIds(vs)), m, indicatorId, v, f.source, now);
      assert after == vs + [x];
      AppendKeepsKeys(vs, x);
      ValueForUnique(after, |vs|, m, indicatorId);
  }

  /** The invariants one value row keeps: ids and pairs unique, indicators only appended. */
  predicate ValueTablesSound(t: ValueTables)
  {
    Distinct(ValueIds(t.values)) && PairsUnique(t.values)
  }

  lemma ValueRowStepFacts(missions: seq<Mission>, p: Progress<ValueTables>, row: CsvRow, rowNum: int,
                          autoCreate: bool, now: string, floatOf: string -> Option<real>, q: Progress<ValueTables>)
    requires ValueTablesSound(p.state)
    requires q == ValueRowStep(missions, p, row, rowNum, autoCreate, now, floatOf)
    ensures ValueTablesSound(q.state)
      && q.imported + |q.errors| == p.imported + |p.errors| + 1
      && p.imported <= q.imported
      && |q.state.values| <= |p.state.values| + (q.imported - p.imported)
      && |p.state.values| <= |q.state.values|
      && |p.state.indicators| <= |q.state.indicators|
      && q.state.indicators[..|p.state.indicators|] == p.state.indicators
      && (!autoCreate ==> q.state.indicators == p.state.indicators)
  {
    match ReadValueRow(row)
    case None =>
    case Some(f) =>
      if MissionById(missions, f.missionId).Some? {
        match IndicatorByName(p.state.indicators, f.indicatorName)
        case Some(ind) =>
          StoredValuesFacts(p.state.values, f, ind.id, now, floatOf, q.state.values);
        case None =>
          if autoCreate {
            var id := NextId(IndicatorIds(p.state.indicators));
            var inds := InsertIndicator(p.state.indicators, NewIndicator(f.indicatorName));
            InsertedIndicatorFound(p.state.indicators, NewIndicator(f.indicatorName));
            StoredValuesFacts(p.state.values, f, id, now, floatOf, q.state.values);
            assert inds[..|p.state.indicators|] == p.state.indicators;
          }
      }
  }

  lemma {:induction false} ValueRowsFacts(missions: seq<Mission>, t: ValueTables, rows: seq<CsvRow>,
                                          autoCreate: bool, now: string, floatOf: string -> Option<real>)
    requires ValueTablesSound(t)
    ensures var p := ValueRows(missions, t, rows, autoCreate, now, floatOf);
      && ValueTablesSound(p.state)
      && p.imported + |p.errors| == |rows|
      && |t.values| <= |p.state.values| <= |t.values| + p.imported
      && |t.indicators| <= |p.state.indicators| && p.state.indicators[..|t.indicators|] == t.indicators
      && (!autoCreate ==> p.state.indicators == t.indicators)
  {
    if rows != [] {
      var n := |rows| - 1;
      ValueRowsFacts(missions, t, rows[..n], autoCreate, now, floatOf);
      var p := ValueRows(missions, t, rows[..n], autoCreate, now, floatOf);
      var q := ValueRows(missions, t, rows, autoCreate, now, floatOf);
      ValueRowStepFacts(missions, p, rows[n], n + 2, autoCreate, now, floatOf, q);
      assert q.state.indicators[..|t.indicators|] == q.state.indicators[..|p.state.indicators|][..|t.indicators|];
    }
  }

  /**
   * `import_indicator_values_csv`: every row counted once, success exactly when all rows were
   * imported from a well-formed text, at most one value per (mission, indicator) pair kept, at
   * most one value added per imported row, and indicators only added when auto-creation is on.
   */
  lemma IndicatorValueImportFacts(missions: seq<Mission>, t: ValueTables, csv: CsvText,
                                  autoCreate: bool, now: string, floatOf: string -> Option<real>,
                                  o: Outcome<ValueTables>)
    requires Distinct(ValueIds(t.values)) && PairsUnique(t.values)
    requires o == ImportIndicatorValues(missions, t, csv, autoCreate, now, floatOf)
    ensures o.result.imported + |o.result.errors| == |csv.rows| + (if csv.malformed then 1 else 0)
      && (o.result.success <==> !csv.malformed && o.result.imported == |csv.rows|)
      && (!o.result.success <==> o.result.errors != [])
      && Distinct(ValueIds(o.state.values)) && PairsUnique(o.state.values)
      && |t.values| <= |o.state.values| <= |t.values| + o.result.imported
      && |t.indicators| <= |o.state.indicators| && o.state.indicators[..|t.indicators|] == t.indicators
      && (!autoCreate ==> o.state.indicators == t.indicators)
  {
    ValueRowsFacts(missions, t, csv.rows, autoCreate, now, floatOf);
  }

  // ---------------------------------------------------------------------------
  // Data completeness of one mission (lines 259-328).

  datatype Issue =
    | MissionNotFound
    | LowCoverage(coverage: real, missing: int)
    | NoRiskEvents
    | NoFmeaItems

  datatype Report = Report(missionExists: bool, missionName: string, indicatorTotal: nat,
                           indicatorWithValue: nat, coverage: real, riskEventCount: nat,
                           fmeaItemCount: nat, issues: seq<Issue>, isComplete: bool)

  /** The report before anything is looked up (lines 272-282). */
  const BlankReport := Report(false, "", 0, 0, 0.0, 0, 0, [], false)

  /** The indicators that hold at least one value of the mission. */
  function CoveredIndicators(vs: seq<IndicatorValue>, missionId: int): (r: set<int>)
    ensures forall id :: id in r <==> exists v :: v in vs && v.missionId == missionId && v.indicatorId == id
  {
    set v | v in ValuesOf(vs, missionId) :: v.indicatorId
  }

  lemma ScaleOrder(x: real, y: real, k: real)
    requires k > 0.0
    ensures x <= y <==> x * k <= y * k
    ensures x < y <==> x * k < y * k
  {
    assert y * k - x * k == (y - x) * k;
  }

  /** `part / whole * 100` against a bound, without the division. */
  lemma PercentOrder(part: real, whole: real, bound: real)
    requires whole > 0.0
    ensures part / whole * 100.0 < bound <==> 100.0 * part < bound * whole
  {
    var c := part / whole * 100.0;
    assert c * whole == 100.0 * part;
    ScaleOrder(c, bound, whole);
  }

  /** Per cent of the indicators covered; 100 when there are no indicators at all. */
  function Coverage(total: nat, covered: nat): (c: real)
    ensures total == 0 ==> c == 100.0
    ensures total > 0 ==> (c < 80.0 <==> 5 * covered < 4 * total)
    ensures total > 0 ==> (c >= 50.0 <==> 2 * covered >= total)
    ensures covered <= total ==> 0.0 <= c <= 100.0
  {
    if total == 0 then 100.0
    else
      var c := covered as real / total as real * 100.0;
      PercentOrder(covered as real, total as real, 80.0);
      PercentOrder(covered as real, total as real, 50.0);
      PercentOrder(covered as real, total as real, 0.0);
      CoverageAtMostAll(covered as real, total as real);
      c
  }

  lemma CoverageAtMostAll(part: real, whole: real)
    requires whole > 0.0
    ensures part <= whole ==> part / whole * 100.0 <= 100.0
  {
    var c := part / whole * 100.0;
    assert c * whole == 100.0 * part;
    ScaleOrder(c, 100.0, whole);
  }

  function Completeness(t: Tables, missionId: int): (r: Report)
  {
    match MissionById(t.missions, missionId)
    case None => BlankReport.(issues := [MissionNotFound])
    case Some(m) =>
      var covered := |CoveredIndicators(t.values, missionId)|;
      var total := |t.indicators|;
      var coverage := Coverage(total, covered);
      var events := EventCount(t.events, missionId);
      var items := FmeaCount(t.fmeaItems, missionId);
      Report(true, m.name, total, covered, coverage, events, items,
             (if coverage < 80.0 then [LowCoverage(coverage, total - covered)] else [])
             + (if events == 0 then [NoRiskEvents] else [])
             + (if items == 0 then [NoFmeaItems] else []),
             coverage >= 50.0 && events > 0)
  }

  /** An unknown mission yields the blank report with the single issue that it does not exist. */
  lemma MissingMissionReport(t: Tables, missionId: int)
    requires forall i :: 0 <= i < |t.missions| ==> t.missions[i].id != missionId
    ensures Completeness(t, missionId) == BlankReport.(issues := [MissionNotFound])
    ensures !Completeness(t, missionId).isComplete
  {
  }

  /**
   * For an existing mission: each issue is raised exactly when its condition holds, stated on
   * the counts, and the mission is complete exactly when at least half the indicators are
   * covered and it has a risk event.
   */
  lemma CompletenessFacts(t: Tables, missionId: int, r: Report)
    requires MissionById(t.missions, missionId).Some?
    requires r == Completeness(t, missionId)
    ensures var covered, total := |CoveredIndicators(t.values, missionId)|, |t.indicators|;
      && r.missionExists && MissionNotFound !in r.issues
      && r.missionName == MissionById(t.missions, missionId).value.name
      && (LowCoverage(r.coverage, total - covered) in r.issues <==> total > 0 && 5 * covered < 4 * total)
      && (NoRiskEvents in r.issues <==> forall i :: 0 <= i < |t.events| ==> t.events[i].missionId != missionId)
      && (NoFmeaItems in r.issues <==> forall i :: 0 <= i < |t.fmeaItems| ==> t.fmeaItems[i].missionId != missionId)
      && (r.isComplete <==> (total == 0 || 2 * covered >= total)
                            && exists i :: 0 <= i < |t.events| && t.events[i].missionId == missionId)
  {
    CountByZero(t.events, (e: RiskEvent) => e.missionId == missionId);
    CountByZero(t.fmeaItems, (f: FmeaItem) => f.missionId == missionId);
  }

  lemma {:induction false} IdSetBound(ids: seq<int>)
    ensures |set i | i in ids| <= |ids|
    decreases |ids|
  {
    if ids != [] {
      var n := |ids| - 1;
      IdSetBound(ids[..n]);
      assert (set i | i in ids) == (set i | i in ids[..n]) + {ids[n]};
    }
  }

  /**
   * When every value of the mission refers to an existing indicator, at most all indicators are
   * covered and the coverage is a percentage.
   */
  lemma CoverageBounds(t: Tables, missionId: int, r: Report)
    requires r == Completeness(t, missionId)
    requires forall v :: v in t.values && v.missionId == missionId ==> v.indicatorId in IndicatorIds(t.indicators)
    ensures r.indicatorWithValue <= r.indicatorTotal
    ensures 0.0 <= r.coverage <= 100.0
  {
    var covered := CoveredIndicators(t.values, missionId);
    var ids := IndicatorIds(t.indicators);
    var all := set i | i in ids;
    assert covered <= all;
    assert all == covered + (all - covered);
    IdSetBound(ids);
  }

  /** `check_data_completeness`: fills the report in the order the source does. */
  method CheckDataCompleteness(db: Database, missionId: int) returns (report: Report)
    ensures report == Completeness(db.Snapshot(), missionId)
  {
    report := BlankReport;
    var mission := MissionById(db.missions, missionId);
    if mission.None? {
      report := report.(issues := report.issues + [MissionNotFound]);
      return;
    }
    report := report.(missionExists := true, missionName := mission.value.name);
    var covered := CoveredIndicators(db.values, missionId);
    report := report.(indicatorTotal := |db.indicators|, indicatorWithValue := |covered|);
    report := report.(coverage := Coverage(|db.indicators|, |covered|));
    if report.coverage < 80.0 {
      report := report.(issues := report.issues + [LowCoverage(report.coverage, |db.indicators| - |covered|)]);
    }
    report := report.(riskEventCount := EventCount(db.events, missionId));
    if report.riskEventCount == 0 {
      report := report.(issues := report.issues + [NoRiskEvents]);
    }
    report := report.(fmeaItemCount := FmeaCount(db.fmeaItems, missionId));
    if report.fmeaItemCount == 0 {
      report := report.(issues := report.issues + [NoFmeaItems]);
    }
    report := report.(isComplete := report.missionExists && report.coverage >= 50.0 && report.riskEventCount > 0);
  }

  // ---------------------------------------------------------------------------
  // Import templates (lines 330-346).

  /** The columns each import reads from a row, in the order of its template's header. */
  const ValueColumns := ["mission_id", "indicator_name", "value", "source"]
  const EventColumns := ["mission_id", "name", "hazard_type", "desc", "likelihood", "severity"]
  const FmeaColumns := ["mission_id", "system", "failure_mode", "effect", "cause", "control", "S", "O", "D"]

  const ValueHeader := "mission_id,indicator_name,value,source"
  const EventHeader := "mission_id,name,hazard_type," + "desc,likelihood,severity"
  const FmeaHeader := "mission_id,system,failure_mode," + "effect,cause,control,S,O,D"

  const ValueSample := "1,飞行架次,15,飞行记录\n1,电池健康度,88,设备检测"
  const EventSample := "1,GPS信号丢失,导航系统,GPS信号中断导致失控,3,5"
  const FmeaSample := "1,导航系统,GPS模块故障,定位失效,电磁干扰,双冗余导航,9,3,5"

  const ValueTemplate := ValueHeader + "\n" + ValueSample
  const EventTemplate := EventHeader + "\n" + EventSample
  const FmeaTemplate := FmeaHeader + "\n" + FmeaSample

  /** `",".join(names)`. */
  function JoinComma(names: seq<string>): string
  {
    if |names| <= 1 then (if names == [] then "" else names[0])
    else names[0] + "," + JoinComma(names[1..])
  }

  /** Two rows that agree on every column in `cols`: the same cells, and the same columns missing. */
  predicate AgreeOn(r1: CsvRow, r2: CsvRow, cols: seq<string>)
  {
    forall c :: c in cols ==> (c in r1 <==> c in r2) && (c in r1 ==> r1[c] == r2[c])
  }

  /** `get_csv_template`: the header and sample rows of each import, empty for another kind. */
  function CsvTemplate(kind: string): (r: string)
    ensures r == "" <==> kind !in {"indicator_value", "risk_event", "fmea_item"}
    ensures kind == "risk_event" ==> r == EventTemplate
  {
    if kind == "indicator_value" then ValueTemplate
    else if kind == "risk_event" then EventTemplate
    else if kind == "fmea_item" then FmeaTemplate
    else ""
  }

  /** The first line of each template is `",".join` of the columns its import reads, then the sample rows. */
  lemma CsvTemplateHeader(kind: string)
    ensures kind == "indicator_value" ==> CsvTemplate(kind) == JoinComma(ValueColumns) + "\n" + ValueSample
    ensures kind == "risk_event" ==> CsvTemplate(kind) == JoinComma(EventColumns) + "\n" + EventSample
    ensures kind == "fmea_item" ==> CsvTemplate(kind) == JoinComma(FmeaColumns) + "\n" + FmeaSample
  {
    ValueHeaderJoined();
    EventHeaderJoined();
    FmeaHeaderJoined();
  }

  lemma ValueHeaderJoined()
    ensures JoinComma(ValueColumns) == ValueHeader
  {
    var v := ValueColumns;
    assert JoinComma(v[3..]) == "source";
    assert JoinComma(v[2..]) == "value" + "," + JoinComma(v[3..]);
    assert JoinComma(v[1..]) == "indicator_name" + "," + JoinComma(v[2..]);
    assert JoinComma(v) == "mission_id" + "," + JoinComma(v[1..]);
  }

  lemma EventHeaderJoined()
    ensures JoinComma(EventColumns) == EventHeader
  {
    var e := EventColumns;
    assert JoinComma(e[5..]) == "severity";
    assert JoinComma(e[4..]) == "likelihood" + "," + JoinComma(e[5..]);
    assert JoinComma(e[3..]) == "desc" + "," + JoinComma(e[4..]);
    assert JoinComma(e[2..]) == "hazard_type" + "," + JoinComma(e[3..]);
    assert JoinComma(e[1..]) == "name" + "," + JoinComma(e[2..]);
    assert JoinComma(e) == "mission_id" + "," + JoinComma(e[1..]);
  }

  lemma FmeaHeaderJoined()
    ensures JoinComma(FmeaColumns) == FmeaHeader
  {
    var f := FmeaColumns;
    assert JoinComma(f[8..]) == "D";
    assert JoinComma(f[7..]) == "O" + "," + JoinComma(f[8..]);
    assert JoinComma(f[6..]) == "S" + "," + JoinComma(f[7..]);
    assert JoinComma(f[5..]) == "control" + "," + JoinComma(f[6..]);
    assert JoinComma(f[4..]) == "cause" + "," + JoinComma(f[5..]);
    assert JoinComma(f[3..]) == "effect" + "," + JoinComma(f[4..]);
    assert JoinComma(f[2..]) == "failure_mode" + "," + JoinComma(f[3..]);
    assert JoinComma(f[1..]) == "system" + "," + JoinComma(f[2..]);
    assert JoinComma(f) == "mission_id" + "," + JoinComma(f[1..]);
  }
  /** A column on which two rows agree reads alike from both, as text and as an integer. */
  lemma CellAgrees(r1: CsvRow, r2: CsvRow, cols: seq<string>, i: int)
    requires AgreeOn(r1, r2, cols) && 0 <= i < |cols|
    ensures forall d :: TextField(r1, cols[i], d) == TextField(r2, cols[i], d)
    ensures forall d :: IntField(r1, cols[i], d) == IntField(r2, cols[i], d)
  {
    assert cols[i] in cols;
  }

  /** The indicator value import reads a row through its template's columns only: rows that agree there read alike. */
  lemma ValueColumnsSuffice(r1: CsvRow, r2: CsvRow)
    requires AgreeOn(r1, r2, ValueColumns)
    ensures ReadValueRow(r1) == ReadValueRow(r2)
  {
    CellAgrees(r1, r2, ValueColumns, 0);
    CellAgrees(r1, r2, ValueColumns, 1);
    CellAgrees(r1, r2, ValueColumns, 2);
    CellAgrees(r1, r2, ValueColumns, 3);
  }

  /** The same for the risk event import. */
  lemma EventColumnsSuffice(r1: CsvRow, r2: CsvRow)
    requires AgreeOn(r1, r2, EventColumns)
    ensures ReadEventRow(r1) == ReadEventRow(r2)
  {
    CellAgrees(r1, r2, EventColumns, 0);
    CellAgrees(r1, r2, EventColumns, 1);
    CellAgrees(r1, r2, EventColumns, 2);
    CellAgrees(r1, r2, EventColumns, 3);
    CellAgrees(r1, r2, EventColumns, 4);
    CellAgrees(r1, r2, EventColumns, 5);
  }

  /** The same for the FMEA import. */
  lemma FmeaColumnsSuffice(r1: CsvRow, r2: CsvRow)
    requires AgreeOn(r1, r2, FmeaColumns)
    ensures ReadFmeaRow(r1) == ReadFmeaRow(r2)
  {
    CellAgrees(r1, r2, FmeaColumns, 0);
    CellAgrees(r1, r2, FmeaColumns, 1);
    CellAgrees(r1, r2, FmeaColumns, 2);
    CellAgrees(r1, r2, FmeaColumns, 3);
    CellAgrees(r1, r2, FmeaColumns, 4);
    CellAgrees(r1, r2, FmeaColumns, 5);
    CellAgrees(r1, r2, FmeaColumns, 6);
    CellAgrees(r1, r2, FmeaColumns, 7);
    CellAgrees(r1, r2, FmeaColumns, 8);
  }
}
