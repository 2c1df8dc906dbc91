// The model contract and the model registry (app/models/base.py): parameter
// schemas, their validation and defaults, the run result, and the registry keyed by
// model id.
module ModelBase {
  import opened Common

  datatype ParamType = IntParam | FloatParam | StrParam | BoolParam | EnumParam

  /** A parameter value as supplied by a caller. Python's `bool` is a subclass of `int`. */
  datatype ParamValue = PInt(i: int) | PFloat(f: real) | PStr(s: string) | PBool(b: bool) | PNone

  datatype ParamSpec = ParamSpec(
    name: string,
    displayLabel: string,
    paramType: ParamType,
    default: ParamValue,
    description: string,
    minValue: Option<real>,
    maxValue: Option<real>,
    enumValues: seq<string>)

  /** The reasons `validate_params` gives, each naming the parameter's display label. */
  datatype ParamError =
    | NotInteger(displayLabel: string)
    | NotNumber(displayLabel: string)
    | BelowMin(displayLabel: string, bound: real)
    | AboveMax(displayLabel: string, bound: real)
    | NotInEnum(displayLabel: string, options: seq<string>)

  /** Why a model run reports `success=False`. */
  datatype RunError =
    | MissingMissionId          // "mission_id 不能为空"
    | EvaluationFailed          // an exception caught by `run`, reported as its message

  /** `ModelResult`: a failure carries the error, a success carries the model's data. */
  datatype RunResult<D> = Failure(error: RunError) | Success(data: D)

  /**
   * The value `params.get(name, default)` gives to a slice `s[:top_n]`: an int, a
   * bool (0 or 1) or None (no bound); any other value makes the slice raise TypeError.
   */
  function SliceStopParam(params: map<string, ParamValue>, name: string, default: int): Option<SliceStop>
  {
    if name !in params then Some(StopAt(default))
    else match params[name]
      case PInt(k) => Some(StopAt(k))
      case PBool(b) => Some(StopAt(if b then 1 else 0))
      case PNone => Some(NoStop)
      case _ => None
  }

  /** `isinstance(v, int)`: true of ints and of bools. */
  predicate IsPyInt(v: ParamValue) { v.PInt? || v.PBool? }

  /** `isinstance(v, (int, float))`. */
  predicate IsPyNumber(v: ParamValue) { IsPyInt(v) || v.PFloat? }

  /** The number a Python int, bool or float stands for in a comparison. */
  function NumberOf(v: ParamValue): real
    requires IsPyNumber(v)
  {
    match v
    case PInt(i) => i as real
    case PBool(b) => if b then 1.0 else 0.0
    case PFloat(f) => f
  }

  /** A number as arithmetic sees it: ints, bools and floats; anything else raises. */
  function NumberParam(v: ParamValue): (r: Option<real>)
    ensures r.Some? <==> IsPyNumber(v)
    ensures r.Some? ==> r.value == NumberOf(v)
  {
    if IsPyNumber(v) then Some(NumberOf(v)) else None
  }

  /** Python truthiness of a parameter value (`if v:`). */
  predicate Truthy(v: ParamValue)
  {
    match v
    case PInt(i) => i != 0
    case PFloat(f) => f != 0.0
    case PStr(s) => s != ""
    case PBool(b) => b
    case PNone => false
  }

  function CheckBounds(spec: ParamSpec, x: real): Option<ParamError>
  {
    if spec.minValue.Some? && x < spec.minValue.value then Some(BelowMin(spec.displayLabel, spec.minValue.value))
    else if spec.maxValue.Some? && x > spec.maxValue.value then Some(AboveMax(spec.displayLabel, spec.maxValue.value))
    else None
  }

  /** The checks `validate_params` applies to one supplied value. */
  function CheckSpec(spec: ParamSpec, v: ParamValue): Option<ParamError>
  {
    match spec.paramType
    case IntParam =>
      if !IsPyInt(v) then Some(NotInteger(spec.displayLabel)) else CheckBounds(spec, NumberOf(v))
    case FloatParam =>
      if !IsPyNumber(v) then Some(NotNumber(spec.displayLabel)) else CheckBounds(spec, NumberOf(v))
    case EnumParam =>
      if v.PStr? && v.s in spec.enumValues then None else Some(NotInEnum(spec.displayLabel, spec.enumValues))
    case StrParam => None
    case BoolParam => None
  }

  predicate InBounds(spec: ParamSpec, x: real)
  {
    (spec.minValue.Some? ==> x >= spec.minValue.value) && (spec.maxValue.Some? ==> x <= spec.maxValue.value)
  }

  /** What each parameter type accepts, stated independently of the order of the checks. */
  lemma CheckSpecAccepts(spec: ParamSpec, v: ParamValue)
    ensures spec.paramType == IntParam ==> (CheckSpec(spec, v) == None <==> IsPyInt(v) && InBounds(spec, NumberOf(v)))
    ensures spec.paramType == FloatParam ==> (CheckSpec(spec, v) == None <==> IsPyNumber(v) && InBounds(spec, NumberOf(v)))
    ensures spec.paramType == EnumParam ==> (CheckSpec(spec, v) == None <==> v.PStr? && v.s in spec.enumValues)
    ensures spec.paramType in {StrParam, BoolParam} ==> CheckSpec(spec, v) == None
    ensures spec.paramType == IntParam && !IsPyInt(v) ==> CheckSpec(spec, v) == Some(NotInteger(spec.displayLabel))
  {
  }

  /** The first spec in schema order whose supplied value fails; specs not supplied are skipped. */
  function FirstViolation(schema: seq<ParamSpec>, params: map<string, ParamValue>): Option<ParamError>
  {
    if schema == [] then None
    else if schema[0].name in params && CheckSpec(schema[0], params[schema[0].name]).Some?
    then CheckSpec(schema[0], params[schema[0].name])
    else FirstViolation(schema[1..], params)
  }

  predicate Accepts(spec: ParamSpec, params: map<string, ParamValue>)
  {
    spec.name in params ==> CheckSpec(spec, params[spec.name]) == None
  }

  /** `validate_params`: the loop with early returns over the schema. */
  method ValidateParams(schema: seq<ParamSpec>, params: map<string, ParamValue>)
    returns (ok: bool, err: Option<ParamError>)
    ensures err == FirstViolation(schema, params)
    ensures ok <==> forall i :: 0 <= i < |schema| ==> Accepts(schema[i], params)
  {
    var i := 0;
    while i < |schema|
      invariant 0 <= i <= |schema|
      invariant FirstViolation(schema, params) == FirstViolation(schema[i..], params)
      invariant forall j :: 0 <= j < i ==> Accepts(schema[j], params)
    {
      var spec := schema[i];
      if spec.name in params {
        var check := CheckSpec(spec, params[spec.name]);
        if check.Some? {
          FirstViolationIsFirst(schema, params);
          return false, check;
        }
      }
      assert schema[i..][1..] == schema[i + 1..];
      i := i + 1;
    }
    FirstViolationIsFirst(schema, params);
    return true, None;
  }

  /**
   * `validate_params` succeeds exactly when every supplied value passes its spec, and
   * otherwise reports the error of the first failing spec in schema order.
   */
  lemma {:induction false} FirstViolationIsFirst(schema: seq<ParamSpec>, params: map<string, ParamValue>)
    ensures FirstViolation(schema, params) == None <==> forall i :: 0 <= i < |schema| ==> Accepts(schema[i], params)
    ensures FirstViolation(schema, params).Some? ==>
      exists i :: 0 <= i < |schema| && schema[i].name in params
        && FirstViolation(schema, params) == CheckSpec(schema[i], params[schema[i].name])
        && forall j :: 0 <= j < i ==> Accepts(schema[j], params)
    decreases |schema|
  {
    if schema != [] {
      var rest := schema[1..];
      FirstViolationIsFirst(rest, params);
      assert forall i :: 0 <= i < |rest| ==> rest[i] == schema[i + 1];
      if !Accepts(schema[0], params) {
        assert FirstViolation(schema, params) == CheckSpec(schema[0], params[schema[0].name]);
      } else if FirstViolation(rest, params).Some? {
        var i :| 0 <= i < |rest| && rest[i].name in params
          && FirstViolation(rest, params) == CheckSpec(rest[i], params[rest[i].name])
          && forall j :: 0 <= j < i ==> Accepts(rest[j], params);
        assert forall j :: 0 <= j < i + 1 ==> Accepts(schema[j], params) by {
          forall j | 0 <= j < i + 1 ensures Accepts(schema[j], params) {
            if j > 0 { assert schema[j] == rest[j - 1]; }
          }
        }
      } else {
        assert forall i :: 0 <= i < |schema| ==> Accepts(schema[i], params) by {
          forall i | 0 <= i < |schema| ensures Accepts(schema[i], params) {
            if i > 0 { assert schema[i] == rest[i - 1]; }
          }
        }
      }
    }
  }

  /** `get_default_params`: a dict comprehension, so a later spec with the same name wins. */
  function DefaultParams(schema: seq<ParamSpec>): map<string, ParamValue>
  {
    if schema == [] then map[]
    else DefaultParams(schema[..|schema| - 1])[schema[|schema| - 1].name := schema[|schema| - 1].default]
  }

  /** The defaults map has one key per spec name. */
  lemma {:induction false} DefaultParamsKeys(schema: seq<ParamSpec>)
    ensures forall k :: k in DefaultParams(schema) <==> exists i :: 0 <= i < |schema| && schema[i].name == k
    decreases |schema|
  {
    if schema != [] {
      var n := |schema| - 1;
      var init := schema[..n];
      DefaultParamsKeys(init);
      forall k | k in DefaultParams(schema)
        ensures exists i :: 0 <= i < |schema| && schema[i].name == k
      {
        if k != schema[n].name {
          assert k in DefaultParams(init);
          var i :| 0 <= i < n && init[i].name == k;
          assert schema[i].name == k;
        }
      }
      forall k | exists i :: 0 <= i < |schema| && schema[i].name == k
        ensures k in DefaultParams(schema)
      {
        var i :| 0 <= i < |schema| && schema[i].name == k;
        if i < n {
          assert init[i].name == k;
        }
      }
    }
  }

  /** Each name maps to the default of the last spec carrying that name. */
  lemma DefaultParamsValues(schema: seq<ParamSpec>)
    ensures forall i :: 0 <= i < |schema| && (forall j :: i < j < |schema| ==> schema[j].name != schema[i].name)
                ==> schema[i].name in DefaultParams(schema) && DefaultParams(schema)[schema[i].name] == schema[i].default
  {
    forall i | 0 <= i < |schema| && (forall j :: i < j < |schema| ==> schema[j].name != schema[i].name)
      ensures schema[i].name in DefaultParams(schema) && DefaultParams(schema)[schema[i].name] == schema[i].default
    {
      DefaultParamsLast(schema, i);
    }
  }

  lemma {:induction false} DefaultParamsLast(schema: seq<ParamSpec>, i: nat)
    requires i < |schema| && forall j :: i < j < |schema| ==> schema[j].name != schema[i].name
    ensures schema[i].name in DefaultParams(schema) && DefaultParams(schema)[schema[i].name] == schema[i].default
    decreases |schema|
  {
    var n := |schema| - 1;
    if i < n {
      var init := schema[..n];
      assert init[i] == schema[i];
      assert forall j :: i < j < n ==> init[j] == schema[j];
      DefaultParamsLast(init, i);
    }
  }

  // ---------------------------------------------------------------------------
  // The registry.

  /** What the registry keeps of a model instance. */
  datatype ModelInfo = ModelInfo(
    modelId: string,
    modelName: string,
    description: string,
    category: string,
    schema: seq<ParamSpec>)

  /** `ModelBase.category` unless a model overrides it. */
  const DefaultCategory: string := "通用"

  /** One entry of `list_models`. */
  datatype ModelListing = ModelListing(name: string, description: string, category: string)

  /** The models of `ms` whose category is `c`, in order. */
  function FilterCategory(ms: seq<ModelInfo>, c: string): (r: seq<ModelInfo>)
    ensures forall m :: m in r <==> m in ms && m.category == c
    ensures |r| <= |ms|
  {
    if ms == [] then []
    else (if ms[0].category == c then [ms[0]] else []) + FilterCategory(ms[1..], c)
  }

  /**
   * `ModelRegistry`: a dict from model id to model. `order` is the dict's insertion
   * order, which Python keeps when an existing key is assigned again.
   */
  class ModelRegistry {
    var models: map<string, ModelInfo>
    var order: seq<string>

    ghost predicate Valid()
      reads this
    {
      && (forall i, j :: 0 <= i < j < |order| ==> order[i] != order[j])
      && (forall id :: id in models <==> id in order)
      && (forall id :: id in models ==> models[id].modelId == id)
    }

    constructor ()
      ensures Valid() && models == map[] && order == []
    {
      models := map[];
      order := [];
    }

    /** `register`: `_models[model.model_id] = model`. */
    method Register(m: ModelInfo)
      requires Valid()
      modifies this
      ensures Valid()
      ensures models == old(models)[m.modelId := m]
      ensures order == if m.modelId in old(models) then old(order) else old(order) + [m.modelId]
      ensures Get(m.modelId) == Some(m)
    {
      if m.modelId !in models {
        order := order + [m.modelId];
      }
      models := models[m.modelId := m];
    }

    /** `unregister`: deletes the id when present, otherwise changes nothing. */
    method Unregister(id: string)
      requires Valid()
      modifies this
      ensures Valid()
      ensures models == old(models) - {id}
      ensures forall k :: k != id ==> Get(k) == old(Get(k))
      ensures Get(id) == None
      ensures id !in old(models) ==> order == old(order)
      ensures id in old(models) ==>
        exists i :: 0 <= i < |old(order)| && old(order)[i] == id && order == old(order)[..i] + old(order)[i + 1..]
    {
      if id in models {
        ghost var before := order;
        var i :| 0 <= i < |order| && order[i] == id;
        order := order[..i] + order[i + 1..];
        assert order == before[..i] + before[i + 1..] && before[i] == id;
        models := models - {id};
        assert forall k :: k in order ==> k in old(order) && k != id;
      }
    }

    /** `get`: the model registered under `id`, if any. */
    function Get(id: string): (r: Option<ModelInfo>)
      reads this
      ensures r.Some? <==> id in models
      ensures r.Some? ==> r.value == models[id]
    {
      if id in models then Some(models[id]) else None
    }

    /** `get_model_ids`: the ids in registration order. */
    function ModelIds(): (r: seq<string>)
      reads this
      requires Valid()
      ensures forall id :: id in r <==> id in models
      ensures |r| == |models|
    {
      KeysAreOrder();
      order
    }

    /** `get_all`: the models in registration order. */
    function All(): (r: seq<ModelInfo>)
      reads this
      requires Valid()
      ensures |r| == |order|
      ensures forall i :: 0 <= i < |r| ==> r[i] == models[order[i]] && r[i].modelId == order[i]
    {
      seq(|order|, i requires 0 <= i < |order| && order[i] in models reads this => models[order[i]])
    }

    /** `get_models_by_category`: exactly the registered models of category `c`. */
    function ModelsByCategory(c: string): (r: seq<ModelInfo>)
      reads this
      requires Valid()
      ensures forall m :: m in r <==> m in models.Values && m.category == c
    {
      var all := All();
      assert forall m :: m in all <==> m in models.Values by {
        forall m | m in models.Values ensures m in all {
          var id :| id in models && models[id] == m;
          var i :| 0 <= i < |order| && order[i] == id;
          assert all[i] == m;
        }
      }
      FilterCategory(all, c)
    }

    /** `list_models`: one listing per registered id. */
    function ListModels(): (r: map<string, ModelListing>)
      reads this
      ensures r.Keys == models.Keys
      ensures forall id :: id in r ==>
        r[id] == ModelListing(models[id].modelName, models[id].description, models[id].category)
    {
      map id | id in models :: ModelListing(models[id].modelName, models[id].description, models[id].category)
    }

    lemma KeysAreOrder()
      requires Valid()
      ensures |models| == |order|
    {
      DistinctCard(order);
      assert models.Keys == set i | 0 <= i < |order| :: order[i];
    }
  }

  lemma {:induction false} DistinctCard(s: seq<string>)
    requires forall i, j :: 0 <= i < j < |s| ==> s[i] != s[j]
    ensures |set i | 0 <= i < |s| :: s[i]| == |s|
    decreases |s|
  {
    if s != [] {
      var n := |s| - 1;
      DistinctCard(s[..n]);
      assert (set i | 0 <= i < |s| :: s[i]) == (set i | 0 <= i < n :: s[..n][i]) + {s[n]};
      assert s[n] !in (set i | 0 <= i < n :: s[..n][i]);
    }
  }

  /** `register_model`: registers a fresh instance of the decorated class. */
  method RegisterModel(registry: ModelRegistry, m: ModelInfo)
    requires registry.Valid()
    modifies registry
    ensures registry.Valid()
    ensures registry.Get(m.modelId) == Some(m)
    ensures forall k :: k != m.modelId ==> registry.Get(k) == old(registry.Get(k))
    ensures registry.order == if m.modelId in old(registry.models) then old(registry.order) else old(registry.order) + [m.modelId]
  {
    registry.Register(m);
  }
}
