// `DataBatchImporter` (app/utils/excel_import.py, lines 427-624): stores the drafts the Excel
// importer produced, one record per draft, resolving category and mission names to ids.
// The importer keeps no state of its own besides its DAOs, so its methods take the database.
module BatchImport {
  import opened Common
  import opened Records
  import opened RecordStore
  import opened ExcelImport

  /** The message for a draft that is skipped; the texts of the messages are not modelled. */
  datatype BatchError =
    | CategoryExists(name: string)
    | MissionNotFound(record: string, missionName: string)

  // ---------------------------------------------------------------------------
  // `{r.name: r.id for r in table}`: a later record with the same name wins.

  function NameMap(pairs: seq<(string, int)>): map<string, int>
  {
    if pairs == [] then map[]
    else
      var n := |pairs| - 1;
      NameMap(pairs[..n])[pairs[n].0 := pairs[n].1]
  }

  /** Every name of the table is a key. */
  lemma {:induction false} NameMapHas(pairs: seq<(string, int)>, i: int)
    requires 0 <= i < |pairs|
    ensures pairs[i].0 in NameMap(pairs)
  {
    var n := |pairs| - 1;
    if i < n {
      assert pairs[..n][i] == pairs[i];
      NameMapHas(pairs[..n], i);
    }
  }

  /** A key maps to the id of the last record with that name. */
  lemma {:induction false} NameMapAt(pairs: seq<(string, int)>, k: string) returns (i: int)
    requires k in NameMap(pairs)
    ensures 0 <= i < |pairs| && pairs[i] == (k, NameMap(pairs)[k])
    ensures forall j :: i < j < |pairs| ==> pairs[j].0 != k
  {
    var n := |pairs| - 1;
    if pairs[n].0 == k {
      i := n;
    } else {
      i := NameMapAt(pairs[..n], k);
      assert pairs[..n][i] == pairs[i];
      forall j | i < j < |pairs| ensures pairs[j].0 != k {
        if j < n {
          assert pairs[..n][j] == pairs[j];
        }
      }
    }
  }

  function MissionPairs(ms: seq<Mission>): (r: seq<(string, int)>)
    ensures |r| == |ms| && forall i :: 0 <= i < |ms| ==> r[i] == (ms[i].name, ms[i].id)
  {
    seq(|ms|, i requires 0 <= i < |ms| => (ms[i].name, ms[i].id))
  }

  function CategoryPairs(cs: seq<IndicatorCategory>): (r: seq<(string, int)>)
    ensures |r| == |cs| && forall i :: 0 <= i < |cs| ==> r[i] == (cs[i].name, cs[i].id)
  {
    seq(|cs|, i requires 0 <= i < |cs| => (cs[i].name, cs[i].id))
  }

  /** The name map of the missions: a key names a mission and maps to the id of the last one so named. */
  lemma MissionMapFacts(ms: seq<Mission>, k: string)
    ensures k in NameMap(MissionPairs(ms)) <==> exists i :: 0 <= i < |ms| && ms[i].name == k
    ensures k in NameMap(MissionPairs(ms)) ==>
      exists i :: 0 <= i < |ms| && ms[i].name == k && ms[i].id == NameMap(MissionPairs(ms))[k] &&
        forall j :: i < j < |ms| ==> ms[j].name != k
  {
    var pairs := MissionPairs(ms);
    if k in NameMap(pairs) {
      var i := NameMapAt(pairs, k);
      assert forall j :: i < j < |ms| ==> pairs[j].0 != k;
    }
    if exists i :: 0 <= i < |ms| && ms[i].name == k {
      var i :| 0 <= i < |ms| && ms[i].name == k;
      NameMapHas(pairs, i);
    }
  }

  predicate NamesUnique(cs: seq<IndicatorCategory>)
  {
    forall i, j :: 0 <= i < j < |cs| ==> cs[i].name != cs[j].name
  }

  /** `{cat.name for cat in table}`. */
  function CategoryNames(cs: seq<IndicatorCategory>): set<string>
  {
    set i | 0 <= i < |cs| :: cs[i].name
  }

  lemma CategoryNamesAppend(cs: seq<IndicatorCategory>, c: IndicatorCategory)
    ensures CategoryNames(cs + [c]) == CategoryNames(cs) + {c.name}
  {
    var both := cs + [c];
    assert both[|cs|] == c;
    forall n | n in CategoryNames(cs) ensures n in CategoryNames(both) {
      var i :| 0 <= i < |cs| && cs[i].name == n;
      assert both[i] == cs[i];
    }
  }

  /** A category with a new name keeps the names unique. */
  lemma AddNewName(cs: seq<IndicatorCategory>, c: IndicatorCategory)
    requires c.name !in CategoryNames(cs)
    ensures CategoryNames(cs + [c]) == CategoryNames(cs) + {c.name}
    ensures NamesUnique(cs) ==> NamesUnique(cs + [c])
    ensures (cs + [c])[..|cs|] == cs
  {
    CategoryNamesAppend(cs, c);
    var both := cs + [c];
    forall i | 0 <= i < |cs| ensures both[i].name != c.name {
      assert both[i] == cs[i];
    }
  }

  /** Names that are all different count as many as the records. */
  lemma {:induction false} UniqueNamesCount(cs: seq<IndicatorCategory>)
    requires NamesUnique(cs)
    ensures |CategoryNames(cs)| == |cs|
  {
    if cs != [] {
      var n := |cs| - 1;
      assert cs == cs[..n] + [cs[n]];
      CategoryNamesAppend(cs[..n], cs[n]);
      UniqueNamesCount(cs[..n]);
      assert cs[n].name !in CategoryNames(cs[..n]);
    }
  }

  // ---------------------------------------------------------------------------
  // `batch_import_missions` (lines 436-453): every draft is stored.

  function MissionRuns(ms: seq<Mission>, drafts: seq<Mission>): seq<Mission>
  {
    if drafts == [] then ms
    else
      var n := |drafts| - 1;
      InsertMission(MissionRuns(ms, drafts[..n]), drafts[n])
  }

  /** The table gains one mission per draft, in order, with its fields. */
  lemma {:induction false} MissionRunsFacts(ms: seq<Mission>, drafts: seq<Mission>, r: seq<Mission>)
    requires r == MissionRuns(ms, drafts)
    ensures |r| == |ms| + |drafts| && r[..|ms|] == ms
    ensures forall j :: 0 <= j < |drafts| ==> r[|ms| + j].(id := 0) == drafts[j].(id := 0)
  {
    if drafts != [] {
      var n := |drafts| - 1;
      var p := MissionRuns(ms, drafts[..n]);
      MissionRunsFacts(ms, drafts[..n], p);
      assert r == p + [drafts[n].(id := NextId(MissionIds(p)))];
      forall j | 0 <= j < |drafts| ensures r[|ms| + j].(id := 0) == drafts[j].(id := 0) {
        if j < n {
          assert drafts[..n][j] == drafts[j];
        }
      }
    }
  }

  /** `batch_import_missions`: a failing `create` is not modelled, so the error list stays empty. */
  method BatchImportMissions(db: Database, drafts: seq<Mission>) returns (count: nat, errors: seq<BatchError>)
    requires db.Valid()
    modifies db
    ensures db.Valid()
    ensures db.Snapshot() == old(db.Snapshot()).(missions := MissionRuns(old(db.missions), drafts))
    ensures count == |drafts| && errors == []
  {
    count, errors := 0, [];
    var k := 0;
    while k < |drafts|
      invariant 0 <= k <= |drafts| && db.Valid() && count == k
      invariant db.Snapshot() == old(db.Snapshot()).(missions := MissionRuns(old(db.missions), drafts[..k]))
    {
      assert drafts[..k + 1][..k] == drafts[..k];
      var _ := db.CreateMission(drafts[k]);
      count := count + 1;
      k := k + 1;
    }
    assert drafts[..k] == drafts;
  }

  // ---------------------------------------------------------------------------
  // `batch_import_indicator_categories` (lines 455-492).

  /** The table, the names seen so far, the number created and the messages. */
  datatype CategoryRun = CategoryRun(categories: seq<IndicatorCategory>, seen: set<string>, count: nat, errors: seq<BatchError>)

  /** Lines 472-487: a name seen before is skipped with a message; otherwise it is created and seen. */
  function CategoryStep(s: CategoryRun, d: CategoryDraft): CategoryRun
  {
    if d.name in s.seen then s.(errors := s.errors + [CategoryExists(d.name)])
    else CategoryRun(InsertCategory(s.categories, IndicatorCategory(0, d.name, d.desc)), s.seen + {d.name}, s.count + 1, s.errors)
  }

  /** Line 469: the names seen at the start are those of the table. */
  function CategoryRuns(cs: seq<IndicatorCategory>, drafts: seq<CategoryDraft>): CategoryRun
  {
    if drafts == [] then CategoryRun(cs, CategoryNames(cs), 0, [])
    else
      var n := |drafts| - 1;
      CategoryStep(CategoryRuns(cs, drafts[..n]), drafts[n])
  }

  function DraftNames(drafts: seq<CategoryDraft>): set<string>
  {
    set i | 0 <= i < |drafts| :: drafts[i].name
  }

  lemma DraftNamesLast(drafts: seq<CategoryDraft>)
    requires drafts != []
    ensures DraftNames(drafts) == DraftNames(drafts[..|drafts| - 1]) + {drafts[|drafts| - 1].name}
  {
    var n := |drafts| - 1;
    var p := drafts[..n];
    forall x | x in DraftNames(p) ensures x in DraftNames(drafts) {
      var i :| 0 <= i < |p| && p[i].name == x;
      assert drafts[i] == p[i];
    }
    forall x | x in DraftNames(drafts) ensures x in DraftNames(p) + {drafts[n].name} {
      var i :| 0 <= i < |drafts| && drafts[i].name == x;
      if i < n {
        assert p[i] == drafts[i];
      }
    }
  }

  /** One step keeps the names seen equal to the table's names, and unique names unique. */
  lemma CategoryStepFacts(s: CategoryRun, d: CategoryDraft, t: CategoryRun)
    requires t == CategoryStep(s, d) && s.seen == CategoryNames(s.categories)
    ensures t.count + |t.errors| == s.count + |s.errors| + 1
    ensures |t.categories| == |s.categories| + t.count - s.count && t.categories[..|s.categories|] == s.categories
    ensures t.seen == CategoryNames(t.categories) == CategoryNames(s.categories) + {d.name}
    ensures NamesUnique(s.categories) ==> NamesUnique(t.categories)
  {
    if d.name !in s.seen {
      AddNewName(s.categories, IndicatorCategory(NextId(CategoryIds(s.categories)), d.name, d.desc));
    }
  }

  /**
   * Every draft is created or skipped; the table only grows; the names seen are the table's,
   * which are the old names and the drafts'; and names that were unique stay unique.
   */
  lemma {:induction false} CategoryRunsFacts(cs: seq<IndicatorCategory>, drafts: seq<CategoryDraft>, run: CategoryRun)
    requires run == CategoryRuns(cs, drafts)
    ensures run.count + |run.errors| == |drafts|
    ensures |run.categories| == |cs| + run.count && run.categories[..|cs|] == cs
    ensures run.seen == CategoryNames(run.categories) == CategoryNames(cs) + DraftNames(drafts)
    ensures NamesUnique(cs) ==> NamesUnique(run.categories)
  {
    if drafts != [] {
      var n := |drafts| - 1;
      var p := CategoryRuns(cs, drafts[..n]);
      CategoryRunsFacts(cs, drafts[..n], p);
      CategoryStepFacts(p, drafts[n], run);
      DraftNamesLast(drafts);
      assert run.categories[..|cs|] == run.categories[..|p.categories|][..|cs|];
    }
  }

  /**
   * Lines 476-478: a draft is skipped exactly when its name is already in the table or was
   * given by an earlier draft; otherwise its category is created.
   */
  lemma CategorySkipped(cs: seq<IndicatorCategory>, drafts: seq<CategoryDraft>, k: int)
    requires 0 <= k < |drafts|
    ensures var before, after := CategoryRuns(cs, drafts[..k]), CategoryRuns(cs, drafts[..k + 1]);
      var d := drafts[k];
      if d.name in CategoryNames(cs) + DraftNames(drafts[..k]) then
        after.categories == before.categories && after.errors == before.errors + [CategoryExists(d.name)]
      else
        after.categories == before.categories + [IndicatorCategory(NextId(CategoryIds(before.categories)), d.name, d.desc)] &&
        after.errors == before.errors
  {
    var before := CategoryRuns(cs, drafts[..k]);
    CategoryRunsFacts(cs, drafts[..k], before);
    assert drafts[..k + 1][..k] == drafts[..k];
    assert drafts[..k + 1][k] == drafts[k];
  }

  /** With unique names in the table, the import creates one category per new distinct name. */
  lemma CategoryCount(cs: seq<IndicatorCategory>, drafts: seq<CategoryDraft>)
    requires NamesUnique(cs)
    ensures CategoryRuns(cs, drafts).count == |DraftNames(drafts) - CategoryNames(cs)|
  {
    var run := CategoryRuns(cs, drafts);
    CategoryRunsFacts(cs, drafts, run);
    UniqueNamesCount(cs);
    UniqueNamesCount(run.categories);
    var a, b := CategoryNames(cs), DraftNames(drafts);
    assert a + b == a + (b - a);
    assert a * (b - a) == {};
  }

  /** `batch_import_indicator_categories`. */
  method BatchImportCategories(db: Database, drafts: seq<CategoryDraft>) returns (count: nat, errors: seq<BatchError>)
    requires db.Valid()
    modifies db
    ensures db.Valid()
    ensures db.Snapshot() == old(db.Snapshot()).(categories := db.categories)
    ensures var run := CategoryRuns(old(db.categories), drafts);
      db.categories == run.categories && count == run.count && errors == run.errors
  {
    var seen := CategoryNames(db.categories);
    count, errors := 0, [];
    var k := 0;
    while k < |drafts|
      invariant 0 <= k <= |drafts| && db.Valid()
      invariant db.Snapshot() == old(db.Snapshot()).(categories := db.categories)
      invariant CategoryRuns(old(db.categories), drafts[..k]) == CategoryRun(db.categories, seen, count, errors)
    {
      assert drafts[..k + 1][..k] == drafts[..k];
      var d := drafts[k];
      if d.name in seen {
        errors := errors + [CategoryExists(d.name)];
      } else {
        var _ := db.CreateCategory(IndicatorCategory(0, d.name, d.desc));
        count := count + 1;
        seen := seen + {d.name};
      }
      k := k + 1;
    }
    assert drafts[..k] == drafts;
  }

  // ---------------------------------------------------------------------------
  // `batch_import_indicators` (lines 494-537).

  const AutoCreatedDesc := "自动创建于导入"

  /** Line 511: a category name counts only when it is present and not empty. */
  function CategoryNameOf(d: IndicatorDraft): Option<string>
  {
    if d.categoryName.Some? && d.categoryName.value != [] then d.categoryName else None
  }

  /** Lines 525-532: the fields the draft does not give take the dataclass defaults. */
  function NewIndicator(d: IndicatorDraft, categoryId: Option<int>): Indicator
  {
    Indicator(0, categoryId, d.name, d.unit, d.valueType, "", "normal", EmptyText, 1.0)
  }

  /** The category table, the name map of the categories and the indicator table. */
  datatype IndicatorRun = IndicatorRun(categories: seq<IndicatorCategory>, known: map<string, int>, indicators: seq<Indicator>)

  /** Lines 509-532: an unknown category name is created and remembered; a known one gives its id. */
  function IndicatorStep(s: IndicatorRun, d: IndicatorDraft): IndicatorRun
  {
    match CategoryNameOf(d)
    case None => s.(indicators := InsertIndicator(s.indicators, NewIndicator(d, None)))
    case Some(name) =>
      if name in s.known then s.(indicators := InsertIndicator(s.indicators, NewIndicator(d, Some(s.known[name]))))
      else
        var id := NextId(CategoryIds(s.categories));
        IndicatorRun(InsertCategory(s.categories, IndicatorCategory(0, name, AutoCreatedDesc)), s.known[name := id],
                     InsertIndicator(s.indicators, NewIndicator(d, Some(id))))
  }

  /** Line 507: the map starts as the name map of the category table. */
  function IndicatorRuns(cs: seq<IndicatorCategory>, inds: seq<Indicator>, drafts: seq<IndicatorDraft>): IndicatorRun
  {
    if drafts == [] then IndicatorRun(cs, NameMap(CategoryPairs(cs)), inds)
    else
      var n := |drafts| - 1;
      IndicatorStep(IndicatorRuns(cs, inds, drafts[..n]), drafts[n])
  }

  /** The map names exactly the categories of the table, and maps each name to a category so named. */
  predicate KnownSound(cats: seq<IndicatorCategory>, known: map<string, int>)
  {
    && known.Keys == CategoryNames(cats)
    && forall name :: name in known ==> (name, known[name]) in CategoryPairs(cats)
  }

  /** `m` keeps every entry of `sub`. */
  predicate Extends(m: map<string, int>, sub: map<string, int>)
  {
    forall k :: k in sub ==> k in m && m[k] == sub[k]
  }

  lemma InitialKnownSound(cs: seq<IndicatorCategory>)
    ensures KnownSound(cs, NameMap(CategoryPairs(cs)))
  {
    var pairs := CategoryPairs(cs);
    var known := NameMap(pairs);
    forall name | name in known ensures name in CategoryNames(cs) && (name, known[name]) in pairs {
      var i := NameMapAt(pairs, name);
    }
    forall name | name in CategoryNames(cs) ensures name in known {
      var i :| 0 <= i < |cs| && cs[i].name == name;
      NameMapHas(pairs, i);
    }
  }

  /** Creating a category for an unknown name and remembering its id keeps the map sound. */
  lemma CreatedCategoryKnown(cats: seq<IndicatorCategory>, known: map<string, int>, name: string)
    requires KnownSound(cats, known) && name !in known
    ensures var c := IndicatorCategory(NextId(CategoryIds(cats)), name, AutoCreatedDesc);
      KnownSound(cats + [c], known[name := c.id]) && (NamesUnique(cats) ==> NamesUnique(cats + [c])) &&
      (cats + [c])[..|cats|] == cats
  {
    var c := IndicatorCategory(NextId(CategoryIds(cats)), name, AutoCreatedDesc);
    AddNewName(cats, c);
    var known' := known[name := c.id];
    var pairs, pairs' := CategoryPairs(cats), CategoryPairs(cats + [c]);
    forall k | k in known' ensures (k, known'[k]) in pairs' {
      if k == name {
        assert pairs'[|cats|] == (k, known'[k]);
      } else {
        var i :| 0 <= i < |pairs| && pairs[i] == (k, known[k]);
        assert pairs'[i] == pairs[i];
      }
    }
  }

  /** One step keeps the map sound, only adds to it, and only creates categories it did not know. */
  lemma IndicatorStepFacts(s: IndicatorRun, d: IndicatorDraft, t: IndicatorRun)
    requires t == IndicatorStep(s, d) && KnownSound(s.categories, s.known)
    ensures KnownSound(t.categories, t.known) && Extends(t.known, s.known)
    ensures |t.indicators| == |s.indicators| + 1 && t.indicators[..|s.indicators|] == s.indicators
    ensures |t.categories| >= |s.categories| && t.categories[..|s.categories|] == s.categories
    ensures NamesUnique(s.categories) ==> NamesUnique(t.categories)
    ensures forall j :: |s.categories| <= j < |t.categories| ==>
      t.categories[j].name !in s.known && t.categories[j].desc == AutoCreatedDesc
    ensures CategoryNameOf(d).None? ==> t.indicators[|s.indicators|].(id := 0) == NewIndicator(d, None)
    ensures CategoryNameOf(d).Some? ==>
      (CategoryNameOf(d).value in t.known &&
       t.indicators[|s.indicators|].(id := 0) == NewIndicator(d, Some(t.known[CategoryNameOf(d).value])))
  {
    assert t.indicators[..|s.indicators|] == s.indicators;
    if CategoryNameOf(d).Some? && CategoryNameOf(d).value !in s.known {
      CreatedCategoryKnown(s.categories, s.known, CategoryNameOf(d).value);
    }
  }

  /**
   * Over the whole batch: the map stays sound and keeps the ids of the categories that existed;
   * both tables only grow, one indicator per draft; unique names stay unique.
   */
  lemma {:induction false} IndicatorRunsFacts(cs: seq<IndicatorCategory>, inds: seq<Indicator>, drafts: seq<IndicatorDraft>,
                                              run: IndicatorRun)
    requires run == IndicatorRuns(cs, inds, drafts)
    ensures KnownSound(run.categories, run.known) && Extends(run.known, NameMap(CategoryPairs(cs)))
    ensures |run.indicators| == |inds| + |drafts| && run.indicators[..|inds|] == inds
    ensures |run.categories| >= |cs| && run.categories[..|cs|] == cs
    ensures NamesUnique(cs) ==> NamesUnique(run.categories)
  {
    InitialKnownSound(cs);
    if drafts != [] {
      var n := |drafts| - 1;
      var p := IndicatorRuns(cs, inds, drafts[..n]);
      IndicatorRunsFacts(cs, inds, drafts[..n], p);
      IndicatorStepFacts(p, drafts[n], run);
      assert run.categories[..|cs|] == run.categories[..|p.categories|][..|cs|];
      assert run.indicators[..|inds|] == run.indicators[..|p.indicators|][..|inds|];
    }
  }

  /** Every category the batch creates has a name that was not in the table, and the note "created by the import". */
  lemma {:induction false} IndicatorNewCategories(cs: seq<IndicatorCategory>, inds: seq<Indicator>, drafts: seq<IndicatorDraft>,
                                                  run: IndicatorRun)
    requires run == IndicatorRuns(cs, inds, drafts)
    ensures |run.categories| >= |cs|
    ensures forall j :: |cs| <= j < |run.categories| ==>
      run.categories[j].name !in CategoryNames(cs) && run.categories[j].desc == AutoCreatedDesc
  {
    IndicatorRunsFacts(cs, inds, drafts, run);
    if drafts != [] {
      var n := |drafts| - 1;
      var p := IndicatorRuns(cs, inds, drafts[..n]);
      IndicatorRunsFacts(cs, inds, drafts[..n], p);
      IndicatorNewCategories(cs, inds, drafts[..n], p);
      IndicatorStepFacts(p, drafts[n], run);
      InitialKnownSound(cs);
      assert CategoryNames(cs) <= p.known.Keys;
      forall j | |cs| <= j < |run.categories|
        ensures run.categories[j].name !in CategoryNames(cs) && run.categories[j].desc == AutoCreatedDesc
      {
        if j < |p.categories| {
          assert run.categories[j] == p.categories[j];
        }
      }
    }
  }

  /**
   * The indicator made from draft `j` refers to no category when the draft names none, and
   * otherwise to the final map's id for its name: drafts naming the same category share its id,
   * an existing category keeps its id, and the id belongs to a category of that name.
   */
  lemma {:induction false} IndicatorCategoryOf(cs: seq<IndicatorCategory>, inds: seq<Indicator>, drafts: seq<IndicatorDraft>,
                                               run: IndicatorRun, j: int)
    requires run == IndicatorRuns(cs, inds, drafts) && 0 <= j < |drafts|
    ensures |run.indicators| == |inds| + |drafts|
    ensures CategoryNameOf(drafts[j]).None? ==> run.indicators[|inds| + j].(id := 0) == NewIndicator(drafts[j], None)
    ensures CategoryNameOf(drafts[j]).Some? ==>
      (CategoryNameOf(drafts[j]).value in run.known &&
       run.indicators[|inds| + j].(id := 0) == NewIndicator(drafts[j], Some(run.known[CategoryNameOf(drafts[j]).value])))
  {
    var n := |drafts| - 1;
    var p := IndicatorRuns(cs, inds, drafts[..n]);
    IndicatorRunsFacts(cs, inds, drafts[..n], p);
    IndicatorStepFacts(p, drafts[n], run);
    if j < n {
      assert drafts[..n][j] == drafts[j];
      IndicatorCategoryOf(cs, inds, drafts[..n], p, j);
      assert run.indicators[|inds| + j] == p.indicators[|inds| + j];
    }
  }

  /** `batch_import_indicators`: every draft is stored, so the count is the number of drafts. */
  method BatchImportIndicators(db: Database, drafts: seq<IndicatorDraft>) returns (count: nat, errors: seq<BatchError>)
    requires db.Valid()
    modifies db
    ensures db.Valid()
    ensures db.Snapshot() == old(db.Snapshot()).(categories := db.categories, indicators := db.indicators)
    ensures var run := IndicatorRuns(old(db.categories), old(db.indicators), drafts);
      db.categories == run.categories && db.indicators == run.indicators
    ensures count == |drafts| && errors == []
  {
    var known := NameMap(CategoryPairs(db.categories));
    count, errors := 0, [];
    var k := 0;
    while k < |drafts|
      invariant 0 <= k <= |drafts| && db.Valid() && count == k
      invariant db.Snapshot() == old(db.Snapshot()).(categories := db.categories, indicators := db.indicators)
      invariant IndicatorRuns(old(db.categories), old(db.indicators), drafts[..k]) == IndicatorRun(db.categories, known, db.indicators)
    {
      assert drafts[..k + 1][..k] == drafts[..k];
      known := ImportIndicator(db, known, drafts[k]);
      count := count + 1;
      k := k + 1;
    }
    assert drafts[..k] == drafts;
  }

  /** The body of the loop (lines 509-534). */
  method ImportIndicator(db: Database, known: map<string, int>, d: IndicatorDraft) returns (known': map<string, int>)
    requires db.Valid()
    modifies db
    ensures db.Valid()
    ensures db.Snapshot() == old(db.Snapshot()).(categories := db.categories, indicators := db.indicators)
    ensures IndicatorRun(db.categories, known', db.indicators) == IndicatorStep(IndicatorRun(old(db.categories), known, old(db.indicators)), d)
  {
    known' := known;
    var categoryId: Option<int> := None;
    if d.categoryName.Some? && d.categoryName.value != [] {
      var name := d.categoryName.value;
      if name !in known {
        var id := db.CreateCategory(IndicatorCategory(0, name, AutoCreatedDesc));
        known' := known[name := id];
        categoryId := Some(id);
      } else {
        categoryId := Some(known[name]);
      }
    }
    var _ := db.CreateIndicator(NewIndicator(d, categoryId));
  }

  // ---------------------------------------------------------------------------
  // `batch_import_risk_events` (lines 539-579) and `batch_import_fmea_items` (lines 581-624).

  /** The table, the number created and the messages. */
  datatype LinkRun<R> = LinkRun(records: seq<R>, count: nat, errors: seq<BatchError>)

  /** Lines 565-572. */
  function NewEvent(missionId: int, d: EventDraft): RiskEvent
  {
    RiskEvent(0, missionId, d.name, d.hazardType, d.desc, d.likelihood, d.severity)
  }

  /** Lines 553-575: a draft naming no known mission is skipped with a message. */
  function EventStep(missionIds: map<string, int>, s: LinkRun<RiskEvent>, d: EventDraft): LinkRun<RiskEvent>
  {
    if d.missionName !in missionIds then s.(errors := s.errors + [MissionNotFound(d.name, d.missionName)])
    else s.(records := InsertEvent(s.records, NewEvent(missionIds[d.missionName], d)), count := s.count + 1)
  }

  function EventRuns(missionIds: map<string, int>, es: seq<RiskEvent>, drafts: seq<EventDraft>): LinkRun<RiskEvent>
  {
    if drafts == [] then LinkRun(es, 0, [])
    else
      var n := |drafts| - 1;
      EventStep(missionIds, EventRuns(missionIds, es, drafts[..n]), drafts[n])
  }

  /**
   * Every draft is stored or skipped; the table only grows; each message is for a draft whose
   * mission is unknown, and every such draft has one.
   */
  lemma {:induction false} EventRunsFacts(missionIds: map<string, int>, es: seq<RiskEvent>, drafts: seq<EventDraft>,
                                          run: LinkRun<RiskEvent>)
    requires run == EventRuns(missionIds, es, drafts)
    ensures run.count + |run.errors| == |drafts|
    ensures |run.records| == |es| + run.count && run.records[..|es|] == es
    ensures forall e :: e in run.errors ==> e.MissionNotFound? && e.missionName !in missionIds
    ensures forall j :: 0 <= j < |drafts| && drafts[j].missionName !in missionIds ==>
      MissionNotFound(drafts[j].name, drafts[j].missionName) in run.errors
  {
    if drafts != [] {
      var n := |drafts| - 1;
      var p := EventRuns(missionIds, es, drafts[..n]);
      EventRunsFacts(missionIds, es, drafts[..n], p);
      assert run.records[..|p.records|] == p.records;
      forall j | 0 <= j < |drafts| && drafts[j].missionName !in missionIds
        ensures MissionNotFound(drafts[j].name, drafts[j].missionName) in run.errors
      {
        if j < n {
          assert drafts[..n][j] == drafts[j];
        }
      }
    }
  }

  /** Every stored event comes from a draft whose mission is known, with that mission's id. */
  lemma {:induction false} EventFrom(missionIds: map<string, int>, es: seq<RiskEvent>, drafts: seq<EventDraft>,
                                     run: LinkRun<RiskEvent>, x: int) returns (j: int)
    requires run == EventRuns(missionIds, es, drafts) && |es| <= x < |run.records|
    ensures 0 <= j < |drafts| && drafts[j].missionName in missionIds
    ensures run.records[x].(id := 0) == NewEvent(missionIds[drafts[j].missionName], drafts[j])
  {
    var n := |drafts| - 1;
    var p := EventRuns(missionIds, es, drafts[..n]);
    EventRunsFacts(missionIds, es, drafts[..n], p);
    if x < |p.records| {
      j := EventFrom(missionIds, es, drafts[..n], p, x);
      assert drafts[..n][j] == drafts[j];
      assert run.records[x] == p.records[x];
    } else {
      j := n;
    }
  }

  /** `batch_import_risk_events`. */
  method BatchImportRiskEvents(db: Database, drafts: seq<EventDraft>) returns (count: nat, errors: seq<BatchError>)
    requires db.Valid()
    modifies db
    ensures db.Valid()
    ensures db.Snapshot() == old(db.Snapshot()).(events := db.events)
    ensures var run := EventRuns(NameMap(MissionPairs(db.missions)), old(db.events), drafts);
      db.events == run.records && count == run.count && errors == run.errors
  {
    var missionIds := NameMap(MissionPairs(db.missions));
    count, errors := 0, [];
    var k := 0;
    while k < |drafts|
      invariant 0 <= k <= |drafts| && db.Valid()
      invariant db.Snapshot() == old(db.Snapshot()).(events := db.events)
      invariant EventRuns(missionIds, old(db.events), drafts[..k]) == LinkRun(db.events, count, errors)
    {
      assert drafts[..k + 1][..k] == drafts[..k];
      var d := drafts[k];
      if d.missionName !in missionIds {
        errors := errors + [MissionNotFound(d.name, d.missionName)];
      } else {
        var _ := db.CreateEvent(NewEvent(missionIds[d.missionName], d));
        count := count + 1;
      }
      k := k + 1;
    }
    assert drafts[..k] == drafts;
  }

  /** Lines 605-615. */
  function NewFmeaItem(missionId: int, d: FmeaDraft): FmeaItem
  {
    FmeaItem(0, missionId, d.system, d.failureMode, d.effect, d.cause, d.control, d.s, d.o, d.d)
  }

  /** Lines 595-617: a draft naming no known mission is skipped with a message. */
  function FmeaStep(missionIds: map<string, int>, s: LinkRun<FmeaItem>, d: FmeaDraft): LinkRun<FmeaItem>
  {
    if d.missionName !in missionIds then s.(errors := s.errors + [MissionNotFound(d.failureMode, d.missionName)])
    else s.(records := InsertFmeaItem(s.records, NewFmeaItem(missionIds[d.missionName], d)), count := s.count + 1)
  }

  function FmeaRuns(missionIds: map<string, int>, fs: seq<FmeaItem>, drafts: seq<FmeaDraft>): LinkRun<FmeaItem>
  {
    if drafts == [] then LinkRun(fs, 0, [])
    else
      var n := |drafts| - 1;
      FmeaStep(missionIds, FmeaRuns(missionIds, fs, drafts[..n]), drafts[n])
  }

  /** As for risk events. */
  lemma {:induction false} FmeaRunsFacts(missionIds: map<string, int>, fs: seq<FmeaItem>, drafts: seq<FmeaDraft>,
                                         run: LinkRun<FmeaItem>)
    requires run == FmeaRuns(missionIds, fs, drafts)
    ensures run.count + |run.errors| == |drafts|
    ensures |run.records| == |fs| + run.count && run.records[..|fs|] == fs
    ensures forall e :: e in run.errors ==> e.MissionNotFound? && e.missionName !in missionIds
    ensures forall j :: 0 <= j < |drafts| && drafts[j].missionName !in missionIds ==>
      MissionNotFound(drafts[j].failureMode, drafts[j].missionName) in run.errors
  {
    if drafts != [] {
      var n := |drafts| - 1;
      var p := FmeaRuns(missionIds, fs, drafts[..n]);
      FmeaRunsFacts(missionIds, fs, drafts[..n], p);
      assert run.records[..|p.records|] == p.records;
      forall j | 0 <= j < |drafts| && drafts[j].missionName !in missionIds
        ensures MissionNotFound(drafts[j].failureMode, drafts[j].missionName) in run.errors
      {
        if j < n {
          assert drafts[..n][j] == drafts[j];
        }
      }
    }
  }

  /** Every stored FMEA item comes from a draft whose mission is known, with that mission's id. */
  lemma {:induction false} FmeaFrom(missionIds: map<string, int>, fs: seq<FmeaItem>, drafts: seq<FmeaDraft>,
                                    run: LinkRun<FmeaItem>, x: int) returns (j: int)
    requires run == FmeaRuns(missionIds, fs, drafts) && |fs| <= x < |run.records|
    ensures 0 <= j < |drafts| && drafts[j].missionName in missionIds
    ensures run.records[x].(id := 0) == NewFmeaItem(missionIds[drafts[j].missionName], drafts[j])
  {
    var n := |drafts| - 1;
    var p := FmeaRuns(missionIds, fs, drafts[..n]);
    FmeaRunsFacts(missionIds, fs, drafts[..n], p);
    if x < |p.records| {
      j := FmeaFrom(missionIds, fs, drafts[..n], p, x);
      assert drafts[..n][j] == drafts[j];
      assert run.records[x] == p.records[x];
    } else {
      j := n;
    }
  }

  /** `batch_import_fmea_items`. */
  method BatchImportFmeaItems(db: Database, drafts: seq<FmeaDraft>) returns (count: nat, errors: seq<BatchError>)
    requires db.Valid()
    modifies db
    ensures db.Valid()
    ensures db.Snapshot() == old(db.Snapshot()).(fmeaItems := db.fmeaItems)
    ensures var run := FmeaRuns(NameMap(MissionPairs(db.missions)), old(db.fmeaItems), drafts);
      db.fmeaItems == run.records && count == run.count && errors == run.errors
  {
    var missionIds := NameMap(MissionPairs(db.missions));
    count, errors := 0, [];
    var k := 0;
    while k < |drafts|
      invariant 0 <= k <= |drafts| && db.Valid()
      invariant db.Snapshot() == old(db.Snapshot()).(fmeaItems := db.fmeaItems)
      invariant FmeaRuns(missionIds, old(db.fmeaItems), drafts[..k]) == LinkRun(db.fmeaItems, count, errors)
    {
      assert drafts[..k + 1][..k] == drafts[..k];
      var d := drafts[k];
      if d.missionName !in missionIds {
        errors := errors + [MissionNotFound(d.failureMode, d.missionName)];
      } else {
        var _ := db.CreateFmeaItem(NewFmeaItem(missionIds[d.missionName], d));
        count := count + 1;
      }
      k := k + 1;
    }
    assert drafts[..k] == drafts;
  }

  // ---------------------------------------------------------------------------
  // The pipeline: a sheet read by `ExcelImporter`, then stored by `DataBatchImporter`.

  /**
   * A risk event stored from a sheet has likelihood and severity in [1,5], and belongs to the
   * last mission bearing the name its row gave.
   */
  lemma SheetEventStored(sheet: Sheet, ms: seq<Mission>, es: seq<RiskEvent>, run: LinkRun<RiskEvent>, x: int)
    requires run == EventRuns(NameMap(MissionPairs(ms)), es, ImportedEvents(sheet).items) && |es| <= x < |run.records|
    ensures 1 <= run.records[x].likelihood <= 5 && 1 <= run.records[x].severity <= 5
    ensures exists i :: (0 <= i < |ms| && ms[i].id == run.records[x].missionId &&
                         forall k :: i < k < |ms| ==> ms[k].name != ms[i].name)
  {
    var drafts := ImportedEvents(sheet).items;
    var pairs := MissionPairs(ms);
    var j := EventFrom(NameMap(pairs), es, drafts, run, x);
    EventsInRange(sheet, ImportedEvents(sheet), drafts[j]);
    var i := NameMapAt(pairs, drafts[j].missionName);
    assert forall k :: i < k < |ms| ==> pairs[k].0 != pairs[i].0;
  }

  /** An FMEA item stored from a sheet has S, O and D in [1,10], and belongs to the last mission bearing its name. */
  lemma SheetFmeaItemStored(sheet: Sheet, ms: seq<Mission>, fs: seq<FmeaItem>, run: LinkRun<FmeaItem>, x: int)
    requires run == FmeaRuns(NameMap(MissionPairs(ms)), fs, ImportedFmeaItems(sheet).items) && |fs| <= x < |run.records|
    ensures 1 <= run.records[x].s <= 10 && 1 <= run.records[x].o <= 10 && 1 <= run.records[x].d <= 10
    ensures exists i :: (0 <= i < |ms| && ms[i].id == run.records[x].missionId &&
                         forall k :: i < k < |ms| ==> ms[k].name != ms[i].name)
  {
    var drafts := ImportedFmeaItems(sheet).items;
    var pairs := MissionPairs(ms);
    var j := FmeaFrom(NameMap(pairs), fs, drafts, run, x);
    FmeaItemsInRange(sheet, ImportedFmeaItems(sheet), drafts[j]);
    var i := NameMapAt(pairs, drafts[j].missionName);
    assert forall k :: i < k < |ms| ==> pairs[k].0 != pairs[i].0;
  }
}
