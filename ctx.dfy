/** Nested-context paths (`get_cdt_ctx`, `requires_int`).

    An operation descriptor may carry, under `"ctx"`, a list of context
    objects, each with an `id` (the kind of step) and a `value`. The glue
    turns that list into the C client's `as_cdt_ctx`: a step by list index,
    list rank, map index or map rank takes a 32-bit integer, a step by list
    value, map key or map value takes a converted value. Converting a value
    (`pyobject_to_val`) is a function parameter `toVal`. */
module Ctx {
  import opened Py
  import opened Errors
  import opened Descriptors
  import L = ListOperations
  import M = MapOperations

  // the `AS_CDT_CTX_*` step kinds of the C client
  const ListIndexId: int := 0x10
  const ListRankId: int := 0x11
  const ListValueId: int := 0x13
  const MapIndexId: int := 0x20
  const MapRankId: int := 0x21
  const MapKeyId: int := 0x22
  const MapValueId: int := 0x23

  /** One step of an `as_cdt_ctx`. */
  datatype CtxStep<V> =
    | ListIndex(index: int)
    | ListRank(rank: int)
    | ListValue(value: V)
    | MapIndex(index: int)
    | MapRank(rank: int)
    | MapKey(key: V)
    | MapValue(value: V)

  /** The steps that take an integer, and that integer. */
  predicate IntStep<V>(s: CtxStep<V>)
  {
    s.ListIndex? || s.ListRank? || s.MapIndex? || s.MapRank?
  }

  function IntArg<V>(s: CtxStep<V>): int
    requires IntStep(s)
  {
    match s
    case ListIndex(n) => n
    case ListRank(n) => n
    case MapIndex(n) => n
    case MapRank(n) => n
  }

  function ValueArg<V>(s: CtxStep<V>): V
    requires !IntStep(s)
  {
    match s
    case ListValue(v) => v
    case MapKey(v) => v
    case MapValue(v) => v
  }

  /** The `id` of a step's kind. */
  function StepId<V>(s: CtxStep<V>): int
  {
    match s
    case ListIndex(_) => ListIndexId
    case ListRank(_) => ListRankId
    case ListValue(_) => ListValueId
    case MapIndex(_) => MapIndexId
    case MapRank(_) => MapRankId
    case MapKey(_) => MapKeyId
    case MapValue(_) => MapValueId
  }

  /** `requires_int`: the step kinds whose value is an integer. */
  predicate RequiresInt(op: int)
  {
    op == ListIndexId || op == ListRankId || op == MapIndexId || op == MapRankId
  }

  /** `requires_int` tells the integer kinds of step from the value kinds,
      and holds for no id that is not a step kind. */
  lemma RequiresIntKinds<V>(s: CtxStep<V>, op: int)
    ensures RequiresInt(StepId(s)) <==> IntStep(s)
    ensures op !in {ListIndexId, ListRankId, ListValueId, MapIndexId, MapRankId, MapKeyId, MapValueId} ==> !RequiresInt(op)
  {
  }

  const FailedToConvert: string := "Failed to convert ctx"
  const UnknownCtxOperation: string := "Failed to convert, unknown ctx operation ctx"

  /** The step one context object stands for: its `id` and `value`
      attributes must exist and the `id` must be a non-negative 64-bit int;
      integer kinds read the value as a C `long` stored in an `int`, the
      other kinds convert the value first and only then look at the kind. */
  function StepOf<V>(item: PyObj, toVal: PyObj -> Result<V>): (r: Result<CtxStep<V>>)
    ensures r.Failure? ==> r.error.code == ErrParam
    ensures r.Success? ==> GetAttr(item, "id").Some? && AsUnsignedLong(GetAttr(item, "id").value) == Some(StepId(r.value))
    ensures r.Success? ==> (RequiresInt(StepId(r.value)) <==> IntStep(r.value))
    ensures r.Success? && IntStep(r.value) ==> -0x8000_0000 <= IntArg(r.value) < 0x8000_0000
  {
    var id := GetAttr(item, "id");
    var value := GetAttr(item, "value");
    if id.None? || value.None? then Failure(ParamError(FailedToConvert))
    else
      var itemType := AsUnsignedLong(id.value);
      if itemType.None? then Failure(ParamError(FailedToConvert))
      else if RequiresInt(itemType.value) then
        var n := AsLong(value.value);
        if n.None? then Failure(ParamError(FailedToConvert))
        else
          var intVal := ToInt32(n.value);
          if itemType.value == ListIndexId then Success(ListIndex(intVal))
          else if itemType.value == ListRankId then Success(ListRank(intVal))
          else if itemType.value == MapIndexId then Success(MapIndex(intVal))
          else Success(MapRank(intVal))
      else
        var v := toVal(value.value);
        if v.Failure? then Failure(ParamError(FailedToConvert))
        else if itemType.value == ListValueId then Success(ListValue(v.value))
        else if itemType.value == MapKeyId then Success(MapKey(v.value))
        else if itemType.value == MapValueId then Success(MapValue(v.value))
        else Failure(ParamError(UnknownCtxOperation))
  }

  /** The steps for a list of context objects; the first object that does
      not convert decides the error. */
  function StepsOf<V>(items: seq<PyObj>, toVal: PyObj -> Result<V>): (r: Result<seq<CtxStep<V>>>)
    ensures r.Success? ==> |r.value| == |items|
    ensures r.Failure? ==> r.error.code == ErrParam
  {
    if items == [] then Success([])
    else
      var step := StepOf(items[0], toVal);
      if step.Failure? then Failure(step.error)
      else Prepend([step.value], StepsOf(items[1..], toVal))
  }

  /** The context `get_cdt_ctx` builds from the `"ctx"` entry of an operation
      dictionary (`None` when there is none): no entry is no context, and an
      entry that is not a list is refused. */
  function CtxStepsOf<V>(pyCtx: Option<PyObj>, toVal: PyObj -> Result<V>): (r: Result<seq<CtxStep<V>>>)
    ensures pyCtx.None? ==> r == Success([])
    ensures pyCtx.Some? && !pyCtx.value.List? ==> r == Failure(ParamError(FailedToConvert))
  {
    if pyCtx.None? then Success([])
    else if !pyCtx.value.List? then Failure(ParamError(FailedToConvert))
    else StepsOf(pyCtx.value.items, toVal)
  }

  /** `get_cdt_ctx`: the status, the steps added to the context and the new
      `ctx_in_use` flag, which is raised as soon as a `"ctx"` entry exists,
      whether or not its conversion succeeds. */
  method GetCdtCtx<V>(pyCtx: Option<PyObj>, toVal: PyObj -> Result<V>, ctxInUse: bool)
    returns (status: Status, steps: seq<CtxStep<V>>, inUse: bool)
    ensures inUse == (ctxInUse || pyCtx.Some?)
    ensures status == if CtxStepsOf(pyCtx, toVal).Success? then Ok else CtxStepsOf(pyCtx, toVal).error
    ensures CtxStepsOf(pyCtx, toVal).Success? ==> steps == CtxStepsOf(pyCtx, toVal).value
  {
    steps := [];
    inUse := ctxInUse;
    if pyCtx.None? {
      return Ok, steps, inUse;
    }
    inUse := true;
    if !pyCtx.value.List? {
      return ParamError(FailedToConvert), [], inUse;
    }
    var items := pyCtx.value.items;
    var i := 0;
    assert items[0..] == items;
    PrependNothing(StepsOf(items, toVal));
    while i < |items|
      invariant 0 <= i <= |items|
      invariant StepsOf(items, toVal) == Prepend(steps, StepsOf(items[i..], toVal))
    {
      assert items[i..][1..] == items[i + 1..];
      var step := StepOf(items[i], toVal);
      if step.Failure? {
        return step.error, [], inUse;
      }
      PrependTwice(steps, [step.value], StepsOf(items[i + 1..], toVal));
      steps := steps + [step.value];
      i := i + 1;
    }
    assert steps + [] == steps;
    return Ok, steps, inUse;
  }

  /** The context object (`aerospike_helpers.cdt_ctx`) a step is written
      as, its value written by `fromVal`. */
  function CtxObject<V>(s: CtxStep<V>, fromVal: V -> PyObj): PyObj
  {
    Object(map["id" := Int(StepId(s)), "value" := if IntStep(s) then Int(IntArg(s)) else fromVal(ValueArg(s))], true)
  }

  /** A step whose integer fits an `int`, or whose value converts back, is
      read back from its context object unchanged. */
  lemma StepRoundTrip<V>(s: CtxStep<V>, toVal: PyObj -> Result<V>, fromVal: V -> PyObj)
    requires IntStep(s) ==> -0x8000_0000 <= IntArg(s) < 0x8000_0000
    requires !IntStep(s) ==> toVal(fromVal(ValueArg(s))) == Success(ValueArg(s))
    ensures StepOf(CtxObject(s, fromVal), toVal) == Success(s)
  {
    var item := CtxObject(s, fromVal);
    assert GetAttr(item, "id") == Some(Int(StepId(s)));
    assert GetAttr(item, "value") == Some(item.attrs["value"]);
  }

  /** A whole path survives the trip through its list of context objects. */
  lemma {:induction false} StepsRoundTrip<V>(steps: seq<CtxStep<V>>, toVal: PyObj -> Result<V>, fromVal: V -> PyObj)
    requires forall i :: 0 <= i < |steps| && IntStep(steps[i]) ==> -0x8000_0000 <= IntArg(steps[i]) < 0x8000_0000
    requires forall i :: 0 <= i < |steps| && !IntStep(steps[i]) ==>
      toVal(fromVal(ValueArg(steps[i]))) == Success(ValueArg(steps[i]))
    ensures CtxStepsOf(Some(List(seq(|steps|, i requires 0 <= i < |steps| => CtxObject(steps[i], fromVal)))), toVal)
      == Success(steps)
  {
    var items := seq(|steps|, i requires 0 <= i < |steps| => CtxObject(steps[i], fromVal));
    if steps != [] {
      StepRoundTrip(steps[0], toVal, fromVal);
      StepsRoundTrip(steps[1..], toVal, fromVal);
      assert items[1..] == seq(|steps[1..]|, i requires 0 <= i < |steps[1..]| => CtxObject(steps[1..][i], fromVal));
      assert [steps[0]] + steps[1..] == steps;
    }
  }

  /** The integer of a step is cut to 32 bits: list index 2^32 + 1 is list
      index 1, and map rank 2^31 is map rank -2^31. */
  lemma IntStepsWrap<V>(toVal: PyObj -> Result<V>)
    ensures StepOf(Object(map["id" := Int(ListIndexId), "value" := Int(0x1_0000_0001)], true), toVal)
      == Success(ListIndex(1))
    ensures StepOf(Object(map["id" := Int(MapRankId), "value" := Int(0x8000_0000)], true), toVal)
      == Success(MapRank(-0x8000_0000))
  {
    var a := Object(map["id" := Int(ListIndexId), "value" := Int(0x1_0000_0001)], true);
    var b := Object(map["id" := Int(MapRankId), "value" := Int(0x8000_0000)], true);
    assert GetAttr(a, "value") == Some(Int(0x1_0000_0001));
    assert GetAttr(b, "value") == Some(Int(0x8000_0000));
  }

  /** An unknown kind is refused only after its value is converted: a value
      that does not convert reports the conversion failure instead. */
  lemma UnknownKindRefused<V>(id: int, value: PyObj, toVal: PyObj -> Result<V>)
    requires 0 <= id < 0x1_0000_0000_0000_0000
    requires id !in {ListIndexId, ListRankId, ListValueId, MapIndexId, MapRankId, MapKeyId, MapValueId}
    ensures StepOf(Object(map["id" := Int(id), "value" := value], true), toVal)
      == Failure(ParamError(if toVal(value).Success? then UnknownCtxOperation else FailedToConvert))
  {
    var item := Object(map["id" := Int(id), "value" := value], true);
    assert GetAttr(item, "value") == Some(value);
  }

  /** A negative or missing `id` is refused. */
  lemma BadIdRefused<V>(id: int, value: PyObj, toVal: PyObj -> Result<V>)
    requires id < 0
    ensures StepOf(Object(map["id" := Int(id), "value" := value], true), toVal) == Failure(ParamError(FailedToConvert))
    ensures StepOf(Object(map["value" := value], true), toVal) == Failure(ParamError(FailedToConvert))
  {
  }

  /** The `"ctx"` entry `get_cdt_ctx` finds in a descriptor. */
  function DescriptorCtx(d: Descriptor): Option<PyObj>
  {
    if "ctx" in d && d["ctx"].Obj? then Some(d["ctx"].o) else None
  }

  /** An empty context path given to a list write never reaches the glue,
      while the same path given to a map write raises `ctx_in_use` with no
      steps. */
  lemma EmptyCtxReachesGlueOnlyForMapWrites<V>(binName: PyObj, index: PyObj, value: PyObj, toVal: PyObj -> Result<V>)
    ensures DescriptorCtx(L.ListInsert(binName, index, value, PyNone, List([]))) == None
    ensures DescriptorCtx(M.MapPutItems(binName, value, PyNone, List([]))) == Some(List([]))
    ensures CtxStepsOf(Some(List([])), toVal) == Success([])
  {
  }
}
