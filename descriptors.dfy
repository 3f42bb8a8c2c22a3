/** Operation descriptors: the dictionaries the list and map helper builders
    return, and a declarative statement of their fields.

    A `Fixed` field is always in the dictionary; an `Optional` field is there
    under its own rule and, when there, holds either the argument unchanged
    or `True`. */
module Descriptors {
  import opened Py

  /** Integer constants exported by the native `aerospike` module. Only
      their identity matters here: distinct names are distinct constants. */
  datatype NativeConst =
    // list operation codes
    | OpListAppend | OpListAppendItems | OpListInsert | OpListInsertItems | OpListIncrement
    | OpListPop | OpListPopRange | OpListRemove | OpListRemoveRange | OpListClear | OpListSet
    | OpListGet | OpListGetRange | OpListTrim | OpListSize
    | OpListGetByIndex | OpListGetByIndexRange | OpListGetByRank | OpListGetByRankRange
    | OpListGetByValue | OpListGetByValueList | OpListGetByValueRange
    | OpListRemoveByIndex | OpListRemoveByIndexRange | OpListRemoveByRank | OpListRemoveByRankRange
    | OpListRemoveByValue | OpListRemoveByValueList | OpListRemoveByValueRange
    | OpListSetOrder | OpListSort
    | OpListGetByValueRankRangeRel | OpListRemoveByValueRankRangeRel
    // map operation codes
    | OpMapSetPolicy | OpMapPut | OpMapPutItems | OpMapIncrement | OpMapDecrement | OpMapSize | OpMapClear
    | OpMapRemoveByKey | OpMapRemoveByKeyList | OpMapRemoveByKeyRange
    | OpMapRemoveByValue | OpMapRemoveByValueList | OpMapRemoveByValueRange
    | OpMapRemoveByIndex | OpMapRemoveByIndexRange | OpMapRemoveByRank | OpMapRemoveByRankRange
    | OpMapGetByKey | OpMapGetByKeyRange | OpMapGetByKeyList
    | OpMapGetByValue | OpMapGetByValueRange | OpMapGetByValueList
    | OpMapGetByIndex | OpMapGetByIndexRange | OpMapGetByRank | OpMapGetByRankRange
    | OpMapRemoveByValueRankRangeRel | OpMapGetByValueRankRangeRel
    | OpMapRemoveByKeyIndexRangeRel | OpMapGetByKeyIndexRangeRel
    // other constants used as defaults
    | ListSortDefault

  /** A descriptor entry: a native constant or a caller-supplied object. */
  datatype Value = Native(c: NativeConst) | Obj(o: PyObj)

  type Descriptor = map<string, Value>

  /** When an optional argument is added to the descriptor. */
  datatype Rule =
    | IfNotNone     // `if arg is not None: d[key] = arg`
    | IfTruthy      // `if arg: d[key] = arg`
    | TrueIfTruthy  // `if arg: d[key] = True`

  datatype Field =
    | Fixed(key: string, value: Value)
    | Optional(key: string, rule: Rule, arg: PyObj)

  predicate Included(f: Field)
  {
    match f
    case Fixed(_, _) => true
    case Optional(_, IfNotNone, a) => a != PyNone
    case Optional(_, _, a) => Truthy(a)
  }

  /** What an included field holds. */
  function Held(f: Field): Value
  {
    match f
    case Fixed(_, v) => v
    case Optional(_, TrueIfTruthy, _) => Obj(Bool(true))
    case Optional(_, _, a) => Obj(a)
  }

  /** `d` agrees with field `f`: the key is present exactly when the field is
      included, and then holds the field's value. A builder's contract is one
      such clause per field of its layout, plus a bound on the keys. */
  predicate Has(d: Descriptor, f: Field)
  {
    if Included(f) then f.key in d && d[f.key] == Held(f) else f.key !in d
  }
}
