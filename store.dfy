// The record store the import pipelines write through: the DAOs of app/db/dao.py over
// SQLite, as in-memory tables kept in row-id order.
module RecordStore {
  import opened Common
  import opened Records

  predicate Distinct(ids: seq<int>)
  {
    forall i, j :: 0 <= i < j < |ids| ==> ids[i] != ids[j]
  }

  /** The row id an `INSERT` receives: one more than the largest id in the table, 1 in an empty one. */
  function NextId(ids: seq<int>): (r: int)
    ensures r >= 1
    ensures forall i :: 0 <= i < |ids| ==> ids[i] < r
  {
    if ids == [] then 1 else MaxInt(NextId(ids[..|ids| - 1]), ids[|ids| - 1] + 1)
  }

  /** A fresh id keeps the ids of a table distinct. */
  lemma FreshKeepsDistinct(ids: seq<int>)
    requires Distinct(ids)
    ensures Distinct(ids + [NextId(ids)])
  {
  }

  /** The position of the first record satisfying `p`: `fetchone` on a query without `ORDER BY`. */
  function FirstIndex<T>(s: seq<T>, p: T -> bool): (r: Option<nat>)
    ensures r.Some? ==> r.value < |s| && p(s[r.value]) && forall j :: 0 <= j < r.value ==> !p(s[j])
    ensures r.None? ==> forall j :: 0 <= j < |s| ==> !p(s[j])
  {
    if s == [] then None
    else if p(s[0]) then Some(0)
    else match FirstIndex(s[1..], p)
      case None => None
      case Some(k) => Some(k + 1)
  }

  function First<T>(s: seq<T>, p: T -> bool): (r: Option<T>)
    ensures r.Some? ==> exists i :: 0 <= i < |s| && s[i] == r.value && p(s[i]) && forall j :: 0 <= j < i ==> !p(s[j])
    ensures r.None? ==> forall j :: 0 <= j < |s| ==> !p(s[j])
  {
    match FirstIndex(s, p)
    case None => None
    case Some(i) => Some(s[i])
  }

  // ---------------------------------------------------------------------------
  // Table ids.

  function MissionIds(ms: seq<Mission>): (r: seq<int>)
    ensures |r| == |ms| && forall i :: 0 <= i < |ms| ==> r[i] == ms[i].id
  {
    seq(|ms|, i requires 0 <= i < |ms| => ms[i].id)
  }

  function CategoryIds(cs: seq<IndicatorCategory>): (r: seq<int>)
    ensures |r| == |cs| && forall i :: 0 <= i < |cs| ==> r[i] == cs[i].id
  {
    seq(|cs|, i requires 0 <= i < |cs| => cs[i].id)
  }

  function IndicatorIds(inds: seq<Indicator>): (r: seq<int>)
    ensures |r| == |inds| && forall i :: 0 <= i < |inds| ==> r[i] == inds[i].id
  {
    seq(|inds|, i requires 0 <= i < |inds| => inds[i].id)
  }

  function ValueIds(vs: seq<IndicatorValue>): (r: seq<int>)
    ensures |r| == |vs| && forall i :: 0 <= i < |vs| ==> r[i] == vs[i].id
  {
    seq(|vs|, i requires 0 <= i < |vs| => vs[i].id)
  }

  function EventIds(es: seq<RiskEvent>): (r: seq<int>)
    ensures |r| == |es| && forall i :: 0 <= i < |es| ==> r[i] == es[i].id
  {
    seq(|es|, i requires 0 <= i < |es| => es[i].id)
  }

  function FmeaIds(fs: seq<FmeaItem>): (r: seq<int>)
    ensures |r| == |fs| && forall i :: 0 <= i < |fs| ==> r[i] == fs[i].id
  {
    seq(|fs|, i requires 0 <= i < |fs| => fs[i].id)
  }

  // ---------------------------------------------------------------------------
  // `create`: an `INSERT` that ignores the record's own id and gives it a fresh one.

  function InsertMission(ms: seq<Mission>, m: Mission): seq<Mission>
  {
    ms + [m.(id := NextId(MissionIds(ms)))]
  }

  function InsertCategory(cs: seq<IndicatorCategory>, c: IndicatorCategory): seq<IndicatorCategory>
  {
    cs + [c.(id := NextId(CategoryIds(cs)))]
  }

  function InsertIndicator(inds: seq<Indicator>, ind: Indicator): seq<Indicator>
  {
    inds + [ind.(id := NextId(IndicatorIds(inds)))]
  }

  function InsertValue(vs: seq<IndicatorValue>, v: IndicatorValue): seq<IndicatorValue>
  {
    vs + [v.(id := NextId(ValueIds(vs)))]
  }

  function InsertEvent(es: seq<RiskEvent>, e: RiskEvent): seq<RiskEvent>
  {
    es + [e.(id := NextId(EventIds(es)))]
  }

  function InsertFmeaItem(fs: seq<FmeaItem>, f: FmeaItem): seq<FmeaItem>
  {
    fs + [f.(id := NextId(FmeaIds(fs)))]
  }

  /** `IndicatorValueDAO.update`: `UPDATE ... WHERE id=?` overwrites every record with that id. */
  function ReplaceValue(vs: seq<IndicatorValue>, v: IndicatorValue): (r: seq<IndicatorValue>)
    ensures |r| == |vs|
    ensures forall i :: 0 <= i < |vs| ==> r[i] == if vs[i].id == v.id then v else vs[i]
  {
    seq(|vs|, i requires 0 <= i < |vs| => if vs[i].id == v.id then v else vs[i])
  }

  // ---------------------------------------------------------------------------
  // Queries.

  /** `MissionDAO.get_by_id`. */
  function MissionById(ms: seq<Mission>, id: int): (r: Option<Mission>)
    ensures r.Some? <==> exists i :: 0 <= i < |ms| && ms[i].id == id
    ensures r.Some? ==> r.value in ms && r.value.id == id
  {
    First(ms, (m: Mission) => m.id == id)
  }

  /** `IndicatorDAO.get_by_id`. */
  function IndicatorById(inds: seq<Indicator>, id: int): (r: Option<Indicator>)
    ensures r.Some? <==> exists i :: 0 <= i < |inds| && inds[i].id == id
    ensures r.Some? ==> r.value in inds && r.value.id == id
  {
    First(inds, (ind: Indicator) => ind.id == id)
  }

  /** `IndicatorDAO.get_by_name`. */
  function IndicatorByName(inds: seq<Indicator>, name: string): (r: Option<Indicator>)
    ensures r.Some? <==> exists i :: 0 <= i < |inds| && inds[i].name == name
    ensures r.Some? ==> r.value in inds && r.value.name == name
  {
    First(inds, (ind: Indicator) => ind.name == name)
  }

  predicate IsValueOf(v: IndicatorValue, missionId: int, indicatorId: int)
  {
    v.missionId == missionId && v.indicatorId == indicatorId
  }

  /** `IndicatorValueDAO.get_by_mission_and_indicator`: the first stored value of the pair. */
  function ValueFor(vs: seq<IndicatorValue>, missionId: int, indicatorId: int): (r: Option<IndicatorValue>)
    ensures r.Some? <==> exists i :: 0 <= i < |vs| && IsValueOf(vs[i], missionId, indicatorId)
    ensures r.Some? ==> exists i :: 0 <= i < |vs| && vs[i] == r.value && IsValueOf(vs[i], missionId, indicatorId)
  {
    First(vs, (v: IndicatorValue) => IsValueOf(v, missionId, indicatorId))
  }

  /** `IndicatorValueDAO.get_by_mission`. */
  function ValuesOf(vs: seq<IndicatorValue>, missionId: int): (r: seq<IndicatorValue>)
    ensures forall v :: v in r <==> v in vs && v.missionId == missionId
  {
    Filter(vs, (v: IndicatorValue) => v.missionId == missionId)
  }

  /** `RiskEventDAO.count_by_mission`. */
  function EventCount(es: seq<RiskEvent>, missionId: int): nat
  {
    CountBy(es, (e: RiskEvent) => e.missionId == missionId)
  }

  /** `FMEAItemDAO.count_by_mission`. */
  function FmeaCount(fs: seq<FmeaItem>, missionId: int): nat
  {
    CountBy(fs, (f: FmeaItem) => f.missionId == missionId)
  }

  /** A record inserted with a fresh id is the one `get_by_id` finds for that id. */
  lemma InsertedIndicatorFound(inds: seq<Indicator>, ind: Indicator)
    ensures var after := InsertIndicator(inds, ind);
      IndicatorById(after, NextId(IndicatorIds(inds))) == Some(after[|inds|])
  {
    var after := InsertIndicator(inds, ind);
    var id := NextId(IndicatorIds(inds));
    var r := IndicatorById(after, id);
    assert after[|inds|].id == id;
    assert forall j :: 0 <= j < |inds| ==> after[j].id != id;
    var i :| 0 <= i < |after| && after[i] == r.value && after[i].id == id
      && forall j :: 0 <= j < i ==> after[j].id != id;
    assert i == |inds|;
  }

  /** The tables of the store; the class below keeps one field per table. */
  datatype Tables = Tables(
    missions: seq<Mission>,
    categories: seq<IndicatorCategory>,
    indicators: seq<Indicator>,
    values: seq<IndicatorValue>,
    events: seq<RiskEvent>,
    fmeaItems: seq<FmeaItem>)

  /** Every table's ids are distinct, as a primary key demands. */
  predicate KeysDistinct(t: Tables)
  {
    && Distinct(MissionIds(t.missions)) && Distinct(CategoryIds(t.categories))
    && Distinct(IndicatorIds(t.indicators)) && Distinct(ValueIds(t.values))
    && Distinct(EventIds(t.events)) && Distinct(FmeaIds(t.fmeaItems))
  }

  /** The SQLite database behind the DAOs. */
  class Database {
    var missions: seq<Mission>
    var categories: seq<IndicatorCategory>
    var indicators: seq<Indicator>
    var values: seq<IndicatorValue>
    var events: seq<RiskEvent>
    var fmeaItems: seq<FmeaItem>

    function Snapshot(): Tables
      reads this
    {
      Tables(missions, categories, indicators, values, events, fmeaItems)
    }

    ghost predicate Valid()
      reads this
    {
      KeysDistinct(Snapshot())
    }

    constructor ()
      ensures Valid() && Snapshot() == Tables([], [], [], [], [], [])
    {
      missions, categories, indicators := [], [], [];
      values, events, fmeaItems := [], [], [];
    }

    /** `MissionDAO.create`: returns the new row's id. */
    method CreateMission(m: Mission) returns (id: int)
      requires Valid()
      modifies this
      ensures Valid()
      ensures id == NextId(MissionIds(old(missions)))
      ensures Snapshot() == old(Snapshot()).(missions := InsertMission(old(missions), m))
    {
      id := NextId(MissionIds(missions));
      FreshKeepsDistinct(MissionIds(missions));
      missions := missions + [m.(id := id)];
      assert MissionIds(missions) == MissionIds(old(missions)) + [id];
    }

    /** `IndicatorCategoryDAO.create`. */
    method CreateCategory(c: IndicatorCategory) returns (id: int)
      requires Valid()
      modifies this
      ensures Valid()
      ensures id == NextId(CategoryIds(old(categories)))
      ensures Snapshot() == old(Snapshot()).(categories := InsertCategory(old(categories), c))
    {
      id := NextId(CategoryIds(categories));
      FreshKeepsDistinct(CategoryIds(categories));
      categories := categories + [c.(id := id)];
      assert CategoryIds(categories) == CategoryIds(old(categories)) + [id];
    }

    /** `IndicatorDAO.create`. */
    method CreateIndicator(ind: Indicator) returns (id: int)
      requires Valid()
      modifies this
      ensures Valid()
      ensures id == NextId(IndicatorIds(old(indicators)))
      ensures Snapshot() == old(Snapshot()).(indicators := InsertIndicator(old(indicators), ind))
    {
      id := NextId(IndicatorIds(indicators));
      FreshKeepsDistinct(IndicatorIds(indicators));
      indicators := indicators + [ind.(id := id)];
      assert IndicatorIds(indicators) == IndicatorIds(old(indicators)) + [id];
    }

    /** `IndicatorValueDAO.create`. */
    method CreateValue(v: IndicatorValue) returns (id: int)
      requires Valid()
      modifies this
      ensures Valid()
      ensures id == NextId(ValueIds(old(values)))
      ensures Snapshot() == old(Snapshot()).(values := InsertValue(old(values), v))
    {
      id := NextId(ValueIds(values));
      FreshKeepsDistinct(ValueIds(values));
      values := values + [v.(id := id)];
      assert ValueIds(values) == ValueIds(old(values)) + [id];
    }

    /** `IndicatorValueDAO.update`: the ids of the table do not change. */
    method UpdateValue(v: IndicatorValue)
      requires Valid()
      modifies this
      ensures Valid()
      ensures Snapshot() == old(Snapshot()).(values := ReplaceValue(old(values), v))
    {
      values := ReplaceValue(values, v);
      assert ValueIds(values) == ValueIds(old(values));
    }

    /** `RiskEventDAO.create`. */
    method CreateEvent(e: RiskEvent) returns (id: int)
      requires Valid()
      modifies this
      ensures Valid()
      ensures id == NextId(EventIds(old(events)))
      ensures Snapshot() == old(Snapshot()).(events := InsertEvent(old(events), e))
    {
      id := NextId(EventIds(events));
      FreshKeepsDistinct(EventIds(events));
      events := events + [e.(id := id)];
      assert EventIds(events) == EventIds(old(events)) + [id];
    }

    /** `FMEAItemDAO.create`. */
    method CreateFmeaItem(f: FmeaItem) returns (id: int)
      requires Valid()
      modifies this
      ensures Valid()
      ensures id == NextId(FmeaIds(old(fmeaItems)))
      ensures Snapshot() == old(Snapshot()).(fmeaItems := InsertFmeaItem(old(fmeaItems), f))
    {
      id := NextId(FmeaIds(fmeaItems));
      FreshKeepsDistinct(FmeaIds(fmeaItems));
      fmeaItems := fmeaItems + [f.(id := id)];
      assert FmeaIds(fmeaItems) == FmeaIds(old(fmeaItems)) + [id];
    }
  }
}
