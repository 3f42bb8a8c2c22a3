/** The list operation builders of aerospike_helpers/operations/list_operations.py.

    Each builder returns a fresh descriptor. Its contract bounds the keys and
    states, field by field in the order the source writes them, which keys
    are always there, which optional ones are added under which rule, and
    what each holds. Every list builder adds `"ctx"` and `"list_policy"`
    only when the argument is truthy. */
module ListOperations {
  import opened Py
  import opened Descriptors

  // key names
  const OpKey: string := "op"
  const BinKey: string := "bin"
  const ValueKey: string := "val"
  const IndexKey: string := "index"
  const ListPolicyKey: string := "list_policy"
  const InvertedKey: string := "inverted"
  const ReturnTypeKey: string := "return_type"
  const CountKey: string := "count"
  const RankKey: string := "rank"
  const ValueBeginKey: string := "value_begin"
  const ValueEndKey: string := "value_end"
  const ValueListKey: string := "value_list"
  const ListOrderKey: string := "list_order"
  const SortFlagsKey: string := "sort_flags"
  const CtxKey: string := "ctx"

  /** `list_append`: appends one item. */
  function ListAppend(binName: PyObj, value: PyObj, policy: PyObj, ctx: PyObj): (r: Descriptor)
    ensures r.Keys <= {OpKey, BinKey, ValueKey, ListPolicyKey, CtxKey}
    ensures Has(r, Fixed(OpKey, Native(OpListAppend)))
    ensures Has(r, Fixed(BinKey, Obj(binName)))
    ensures Has(r, Fixed(ValueKey, Obj(value)))
    ensures Has(r, Optional(ListPolicyKey, IfTruthy, policy))
    ensures Has(r, Optional(CtxKey, IfTruthy, ctx))
  {
    var opDict := map[OpKey := Native(OpListAppend), BinKey := Obj(binName), ValueKey := Obj(value)];
    var opDict := if Truthy(policy) then opDict[ListPolicyKey := Obj(policy)] else opDict;
    if Truthy(ctx) then opDict[CtxKey := Obj(ctx)] else opDict
  }

  /** `list_append_items`: appends several items. */
  function ListAppendItems(binName: PyObj, values: PyObj, policy: PyObj, ctx: PyObj): (r: Descriptor)
    ensures r.Keys <= {OpKey, BinKey, ValueKey, ListPolicyKey, CtxKey}
    ensures Has(r, Fixed(OpKey, Native(OpListAppendItems)))
    ensures Has(r, Fixed(BinKey, Obj(binName)))
    ensures Has(r, Fixed(ValueKey, Obj(values)))
    ensures Has(r, Optional(ListPolicyKey, IfTruthy, policy))
    ensures Has(r, Optional(CtxKey, IfTruthy, ctx))
  {
    var opDict := map[OpKey := Native(OpListAppendItems), BinKey := Obj(binName), ValueKey := Obj(values)];
    var opDict := if Truthy(policy) then opDict[ListPolicyKey := Obj(policy)] else opDict;
    if Truthy(ctx) then opDict[CtxKey := Obj(ctx)] else opDict
  }

  /** `list_insert`: inserts one item at an index. */
  function ListInsert(binName: PyObj, index: PyObj, value: PyObj, policy: PyObj, ctx: PyObj): (r: Descriptor)
    ensures r.Keys <= {OpKey, BinKey, IndexKey, ValueKey, ListPolicyKey, CtxKey}
    ensures Has(r, Fixed(OpKey, Native(OpListInsert)))
    ensures Has(r, Fixed(BinKey, Obj(binName)))
    ensures Has(r, Fixed(IndexKey, Obj(index)))
    ensures Has(r, Fixed(ValueKey, Obj(value)))
    ensures Has(r, Optional(ListPolicyKey, IfTruthy, policy))
    ensures Has(r, Optional(CtxKey, IfTruthy, ctx))
  {
    var opDict := map[OpKey := Native(OpListInsert), BinKey := Obj(binName), IndexKey := Obj(index), ValueKey := Obj(value)];
    var opDict := if Truthy(policy) then opDict[ListPolicyKey := Obj(policy)] else opDict;
    if Truthy(ctx) then opDict[CtxKey := Obj(ctx)] else opDict
  }

  /** `list_insert_items`: inserts several items at an index. */
  function ListInsertItems(binName: PyObj, index: PyObj, values: PyObj, policy: PyObj, ctx: PyObj): (r: Descriptor)
    ensures r.Keys <= {OpKey, BinKey, IndexKey, ValueKey, ListPolicyKey, CtxKey}
    ensures Has(r, Fixed(OpKey, Native(OpListInsertItems)))
    ensures Has(r, Fixed(BinKey, Obj(binName)))
    ensures Has(r, Fixed(IndexKey, Obj(index)))
    ensures Has(r, Fixed(ValueKey, Obj(values)))
    ensures Has(r, Optional(ListPolicyKey, IfTruthy, policy))
    ensures Has(r, Optional(CtxKey, IfTruthy, ctx))
  {
    var opDict := map[OpKey := Native(OpListInsertItems), BinKey := Obj(binName), IndexKey := Obj(index), ValueKey := Obj(values)];
    var opDict := if Truthy(policy) then opDict[ListPolicyKey := Obj(policy)] else opDict;
    if Truthy(ctx) then opDict[CtxKey := Obj(ctx)] else opDict
  }

  /** `list_increment`: increments the item at an index. */
  function ListIncrement(binName: PyObj, index: PyObj, value: PyObj, policy: PyObj, ctx: PyObj): (r: Descriptor)
    ensures r.Keys <= {OpKey, BinKey, IndexKey, ValueKey, ListPolicyKey, CtxKey}
    ensures Has(r, Fixed(OpKey, Native(OpListIncrement)))
    ensures Has(r, Fixed(BinKey, Obj(binName)))
    ensures Has(r, Fixed(IndexKey, Obj(index)))
    ensures Has(r, Fixed(ValueKey, Obj(value)))
    ensures Has(r, Optional(ListPolicyKey, IfTruthy, policy))
    ensures Has(r, Optional(CtxKey, IfTruthy, ctx))
  {
    var opDict := map[OpKey := Native(OpListIncrement), BinKey := Obj(binName), IndexKey := Obj(index), ValueKey := Obj(value)];
    var opDict := if Truthy(policy) then opDict[ListPolicyKey := Obj(policy)] else opDict;
    if Truthy(ctx) then opDict[CtxKey := Obj(ctx)] else opDict
  }

  /** `list_pop`: removes and returns the item at an index. */
  function ListPop(binName: PyObj, index: PyObj, ctx: PyObj): (r: Descriptor)
    ensures r.Keys <= {OpKey, BinKey, IndexKey, CtxKey}
    ensures Has(r, Fixed(OpKey, Native(OpListPop)))
    ensures Has(r, Fixed(BinKey, Obj(binName)))
    ensures Has(r, Fixed(IndexKey, Obj(index)))
    ensures Has(r, Optional(CtxKey, IfTruthy, ctx))
  {
    var opDict := map[OpKey := Native(OpListPop), BinKey := Obj(binName), IndexKey := Obj(index)];
    if Truthy(ctx) then opDict[CtxKey := Obj(ctx)] else opDict
  }

  /** `list_pop_range`: removes and returns a range of items. */
  function ListPopRange(binName: PyObj, index: PyObj, count: PyObj, ctx: PyObj): (r: Descriptor)
    ensures r.Keys <= {OpKey, BinKey, IndexKey, ValueKey, CtxKey}
    ensures Has(r, Fixed(OpKey, Native(OpListPopRange)))
    ensures Has(r, Fixed(BinKey, Obj(binName)))
    ensures Has(r, Fixed(IndexKey, Obj(index)))
    ensures Has(r, Fixed(ValueKey, Obj(count)))
    ensures Has(r, Optional(CtxKey, IfTruthy, ctx))
  {
    var opDict := map[OpKey := Native(OpListPopRange), BinKey := Obj(binName), IndexKey := Obj(index), ValueKey := Obj(count)];
    if Truthy(ctx) then opDict[CtxKey := Obj(ctx)] else opDict
  }

  /** `list_remove`: removes the item at an index. */
  function ListRemove(binName: PyObj, index: PyObj, ctx: PyObj): (r: Descriptor)
    ensures r.Keys <= {OpKey, BinKey, IndexKey, CtxKey}
    ensures Has(r, Fixed(OpKey, Native(OpListRemove)))
    ensures Has(r, Fixed(BinKey, Obj(binName)))
    ensures Has(r, Fixed(IndexKey, Obj(index)))
    ensures Has(r, Optional(CtxKey, IfTruthy, ctx))
  {
    var opDict := map[OpKey := Native(OpListRemove), BinKey := Obj(binName), IndexKey := Obj(index)];
    if Truthy(ctx) then opDict[CtxKey := Obj(ctx)] else opDict
  }

  /** `list_remove_range`: removes a range of items. */
  function ListRemoveRange(binName: PyObj, index: PyObj, count: PyObj, ctx: PyObj): (r: Descriptor)
    ensures r.Keys <= {OpKey, BinKey, IndexKey, ValueKey, CtxKey}
    ensures Has(r, Fixed(OpKey, Native(OpListRemoveRange)))
    ensures Has(r, Fixed(BinKey, Obj(binName)))
    ensures Has(r, Fixed(IndexKey, Obj(index)))
    ensures Has(r, Fixed(ValueKey, Obj(count)))
    ensures Has(r, Optional(CtxKey, IfTruthy, ctx))
  {
    var opDict := map[OpKey := Native(OpListRemoveRange), BinKey := Obj(binName), IndexKey := Obj(index), ValueKey := Obj(count)];
    if Truthy(ctx) then opDict[CtxKey := Obj(ctx)] else opDict
  }

  /** `list_clear`: empties the list. */
  function ListClear(binName: PyObj, ctx: PyObj): (r: Descriptor)
    ensures r.Keys <= {OpKey, BinKey, CtxKey}
    ensures Has(r, Fixed(OpKey, Native(OpListClear)))
    ensures Has(r, Fixed(BinKey, Obj(binName)))
    ensures Has(r, Optional(CtxKey, IfTruthy, ctx))
  {
    var opDict := map[OpKey := Native(OpListClear), BinKey := Obj(binName)];
    if Truthy(ctx) then opDict[CtxKey := Obj(ctx)] else opDict
  }

  /** `list_set`: replaces the item at an index. */
  function ListSet(binName: PyObj, index: PyObj, value: PyObj, policy: PyObj, ctx: PyObj): (r: Descriptor)
    ensures r.Keys <= {OpKey, BinKey, IndexKey, ValueKey, ListPolicyKey, CtxKey}
    ensures Has(r, Fixed(OpKey, Native(OpListSet)))
    ensures Has(r, Fixed(BinKey, Obj(binName)))
    ensures Has(r, Fixed(IndexKey, Obj(index)))
    ensures Has(r, Fixed(ValueKey, Obj(value)))
    ensures Has(r, Optional(ListPolicyKey, IfTruthy, policy))
    ensures Has(r, Optional(CtxKey, IfTruthy, ctx))
  {
    var opDict := map[OpKey := Native(OpListSet), BinKey := Obj(binName), IndexKey := Obj(index), ValueKey := Obj(value)];
    var opDict := if Truthy(policy) then opDict[ListPolicyKey := Obj(policy)] else opDict;
    if Truthy(ctx) then opDict[CtxKey := Obj(ctx)] else opDict
  }

  /** `list_get`: reads the item at an index. */
  function ListGet(binName: PyObj, index: PyObj, ctx: PyObj): (r: Descriptor)
    ensures r.Keys <= {OpKey, BinKey, IndexKey, CtxKey}
    ensures Has(r, Fixed(OpKey, Native(OpListGet)))
    ensures Has(r, Fixed(BinKey, Obj(binName)))
    ensures Has(r, Fixed(IndexKey, Obj(index)))
    ensures Has(r, Optional(CtxKey, IfTruthy, ctx))
  {
    var opDict := map[OpKey := Native(OpListGet), BinKey := Obj(binName), IndexKey := Obj(index)];
    if Truthy(ctx) then opDict[CtxKey := Obj(ctx)] else opDict
  }

  /** `list_get_range`: reads a range of items. */
  function ListGetRange(binName: PyObj, index: PyObj, count: PyObj, ctx: PyObj): (r: Descriptor)
    ensures r.Keys <= {OpKey, BinKey, IndexKey, ValueKey, CtxKey}
    ensures Has(r, Fixed(OpKey, Native(OpListGetRange)))
    ensures Has(r, Fixed(BinKey, Obj(binName)))
    ensures Has(r, Fixed(IndexKey, Obj(index)))
    ensures Has(r, Fixed(ValueKey, Obj(count)))
    ensures Has(r, Optional(CtxKey, IfTruthy, ctx))
  {
    var opDict := map[OpKey := Native(OpListGetRange), BinKey := Obj(binName), IndexKey := Obj(index), ValueKey := Obj(count)];
    if Truthy(ctx) then opDict[CtxKey := Obj(ctx)] else opDict
  }

  /** `list_trim`: keeps only a range of items. */
  function ListTrim(binName: PyObj, index: PyObj, count: PyObj, ctx: PyObj): (r: Descriptor)
    ensures r.Keys <= {OpKey, BinKey, IndexKey, ValueKey, CtxKey}
    ensures Has(r, Fixed(OpKey, Native(OpListTrim)))
    ensures Has(r, Fixed(BinKey, Obj(binName)))
    ensures Has(r, Fixed(IndexKey, Obj(index)))
    ensures Has(r, Fixed(ValueKey, Obj(count)))
    ensures Has(r, Optional(CtxKey, IfTruthy, ctx))
  {
    var opDict := map[OpKey := Native(OpListTrim), BinKey := Obj(binName), IndexKey := Obj(index), ValueKey := Obj(count)];
    if Truthy(ctx) then opDict[CtxKey := Obj(ctx)] else opDict
  }

  /** `list_size`: returns the list's size. */
  function ListSize(binName: PyObj, ctx: PyObj): (r: Descriptor)
    ensures r.Keys <= {OpKey, BinKey, CtxKey}
    ensures Has(r, Fixed(OpKey, Native(OpListSize)))
    ensures Has(r, Fixed(BinKey, Obj(binName)))
    ensures Has(r, Optional(CtxKey, IfTruthy, ctx))
  {
    var opDict := map[OpKey := Native(OpListSize), BinKey := Obj(binName)];
    if Truthy(ctx) then opDict[CtxKey := Obj(ctx)] else opDict
  }

  /** `list_get_by_index`: reads the item at an index. */
  function ListGetByIndex(binName: PyObj, index: PyObj, returnType: PyObj, ctx: PyObj): (r: Descriptor)
    ensures r.Keys <= {OpKey, BinKey, ReturnTypeKey, IndexKey, CtxKey}
    ensures Has(r, Fixed(OpKey, Native(OpListGetByIndex)))
    ensures Has(r, Fixed(BinKey, Obj(binName)))
    ensures Has(r, Fixed(ReturnTypeKey, Obj(returnType)))
    ensures Has(r, Fixed(IndexKey, Obj(index)))
    ensures Has(r, Optional(CtxKey, IfTruthy, ctx))
  {
    var opDict := map[OpKey := Native(OpListGetByIndex), BinKey := Obj(binName), ReturnTypeKey := Obj(returnType), IndexKey := Obj(index)];
    if Truthy(ctx) then opDict[CtxKey := Obj(ctx)] else opDict
  }

  /** `list_get_by_index_range`: reads the items in an index range. */
  function ListGetByIndexRange(binName: PyObj, index: PyObj, returnType: PyObj, count: PyObj, inverted: PyObj, ctx: PyObj): (r: Descriptor)
    ensures r.Keys <= {OpKey, BinKey, ReturnTypeKey, IndexKey, InvertedKey, CountKey, CtxKey}
    ensures Has(r, Fixed(OpKey, Native(OpListGetByIndexRange)))
    ensures Has(r, Fixed(BinKey, Obj(binName)))
    ensures Has(r, Fixed(ReturnTypeKey, Obj(returnType)))
    ensures Has(r, Fixed(IndexKey, Obj(index)))
    ensures Has(r, Fixed(InvertedKey, Obj(inverted)))
    ensures Has(r, Optional(CountKey, IfNotNone, count))
    ensures Has(r, Optional(CtxKey, IfTruthy, ctx))
  {
    var opDict := map[OpKey := Native(OpListGetByIndexRange), BinKey := Obj(binName), ReturnTypeKey := Obj(returnType), IndexKey := Obj(index), InvertedKey := Obj(inverted)];
    var opDict := if count != PyNone then opDict[CountKey := Obj(count)] else opDict;
    if Truthy(ctx) then opDict[CtxKey := Obj(ctx)] else opDict
  }

  /** `list_get_by_rank`: reads the item with a rank. */
  function ListGetByRank(binName: PyObj, rank: PyObj, returnType: PyObj, ctx: PyObj): (r: Descriptor)
    ensures r.Keys <= {OpKey, BinKey, ReturnTypeKey, RankKey, CtxKey}
    ensures Has(r, Fixed(OpKey, Native(OpListGetByRank)))
    ensures Has(r, Fixed(BinKey, Obj(binName)))
    ensures Has(r, Fixed(ReturnTypeKey, Obj(returnType)))
    ensures Has(r, Fixed(RankKey, Obj(rank)))
    ensures Has(r, Optional(CtxKey, IfTruthy, ctx))
  {
    var opDict := map[OpKey := Native(OpListGetByRank), BinKey := Obj(binName), ReturnTypeKey := Obj(returnType), RankKey := Obj(rank)];
    if Truthy(ctx) then opDict[CtxKey := Obj(ctx)] else opDict
  }

  /** `list_get_by_rank_range`: reads the items in a rank range. */
  function ListGetByRankRange(binName: PyObj, rank: PyObj, returnType: PyObj, count: PyObj, inverted: PyObj, ctx: PyObj): (r: Descriptor)
    ensures r.Keys <= {OpKey, BinKey, ReturnTypeKey, RankKey, InvertedKey, CountKey, CtxKey}
    ensures Has(r, Fixed(OpKey, Native(OpListGetByRankRange)))
    ensures Has(r, Fixed(BinKey, Obj(binName)))
    ensures Has(r, Fixed(ReturnTypeKey, Obj(returnType)))
    ensures Has(r, Fixed(RankKey, Obj(rank)))
    ensures Has(r, Fixed(InvertedKey, Obj(inverted)))
    ensures Has(r, Optional(CountKey, IfNotNone, count))
    ensures Has(r, Optional(CtxKey, IfTruthy, ctx))
  {
    var opDict := map[OpKey := Native(OpListGetByRankRange), BinKey := Obj(binName), ReturnTypeKey := Obj(returnType), RankKey := Obj(rank), InvertedKey := Obj(inverted)];
    var opDict := if count != PyNone then opDict[CountKey := Obj(count)] else opDict;
    if Truthy(ctx) then opDict[CtxKey := Obj(ctx)] else opDict
  }

  /** `list_get_by_value`: reads the items with a value. */
  function ListGetByValue(binName: PyObj, value: PyObj, returnType: PyObj, inverted: PyObj, ctx: PyObj): (r: Descriptor)
    ensures r.Keys <= {OpKey, BinKey, ReturnTypeKey, ValueKey, InvertedKey, CtxKey}
    ensures Has(r, Fixed(OpKey, Native(OpListGetByValue)))
    ensures Has(r, Fixed(BinKey, Obj(binName)))
    ensures Has(r, Fixed(ReturnTypeKey, Obj(returnType)))
    ensures Has(r, Fixed(ValueKey, Obj(value)))
    ensures Has(r, Fixed(InvertedKey, Obj(inverted)))
    ensures Has(r, Optional(CtxKey, IfTruthy, ctx))
  {
    var opDict := map[OpKey := Native(OpListGetByValue), BinKey := Obj(binName), ReturnTypeKey := Obj(returnType), ValueKey := Obj(value), InvertedKey := Obj(inverted)];
    if Truthy(ctx) then opDict[CtxKey := Obj(ctx)] else opDict
  }

  /** `list_get_by_value_list`: reads the items with the listed values. */
  function ListGetByValueList(binName: PyObj, valueList: PyObj, returnType: PyObj, inverted: PyObj, ctx: PyObj): (r: Descriptor)
    ensures r.Keys <= {OpKey, BinKey, ReturnTypeKey, ValueListKey, InvertedKey, CtxKey}
    ensures Has(r, Fixed(OpKey, Native(OpListGetByValueList)))
    ensures Has(r, Fixed(BinKey, Obj(binName)))
    ensures Has(r, Fixed(ReturnTypeKey, Obj(returnType)))
    ensures Has(r, Fixed(ValueListKey, Obj(valueList)))
    ensures Has(r, Fixed(InvertedKey, Obj(inverted)))
    ensures Has(r, Optional(CtxKey, IfTruthy, ctx))
  {
    var opDict := map[OpKey := Native(OpListGetByValueList), BinKey := Obj(binName), ReturnTypeKey := Obj(returnType), ValueListKey := Obj(valueList), InvertedKey := Obj(inverted)];
    if Truthy(ctx) then opDict[CtxKey := Obj(ctx)] else opDict
  }

  /** `list_get_by_value_range`: reads the items in a value range. */
  function ListGetByValueRange(binName: PyObj, returnType: PyObj, valueBegin: PyObj, valueEnd: PyObj, inverted: PyObj, ctx: PyObj): (r: Descriptor)
    ensures r.Keys <= {OpKey, BinKey, ReturnTypeKey, InvertedKey, ValueBeginKey, ValueEndKey, CtxKey}
    ensures Has(r, Fixed(OpKey, Native(OpListGetByValueRange)))
    ensures Has(r, Fixed(BinKey, Obj(binName)))
    ensures Has(r, Fixed(ReturnTypeKey, Obj(returnType)))
    ensures Has(r, Fixed(InvertedKey, Obj(inverted)))
    ensures Has(r, Optional(ValueBeginKey, IfNotNone, valueBegin))
    ensures Has(r, Optional(ValueEndKey, IfNotNone, valueEnd))
    ensures Has(r, Optional(CtxKey, IfTruthy, ctx))
  {
    var opDict := map[OpKey := Native(OpListGetByValueRange), BinKey := Obj(binName), ReturnTypeKey := Obj(returnType), InvertedKey := Obj(inverted)];
    var opDict := if valueBegin != PyNone then opDict[ValueBeginKey := Obj(valueBegin)] else opDict;
    var opDict := if valueEnd != PyNone then opDict[ValueEndKey := Obj(valueEnd)] else opDict;
    if Truthy(ctx) then opDict[CtxKey := Obj(ctx)] else opDict
  }

  /** `list_remove_by_index`: removes the item at an index. */
  function ListRemoveByIndex(binName: PyObj, index: PyObj, returnType: PyObj, ctx: PyObj): (r: Descriptor)
    ensures r.Keys <= {OpKey, BinKey, ReturnTypeKey, IndexKey, CtxKey}
    ensures Has(r, Fixed(OpKey, Native(OpListRemoveByIndex)))
    ensures Has(r, Fixed(BinKey, Obj(binName)))
    ensures Has(r, Fixed(ReturnTypeKey, Obj(returnType)))
    ensures Has(r, Fixed(IndexKey, Obj(index)))
    ensures Has(r, Optional(CtxKey, IfTruthy, ctx))
  {
    var opDict := map[OpKey := Native(OpListRemoveByIndex), BinKey := Obj(binName), ReturnTypeKey := Obj(returnType), IndexKey := Obj(index)];
    if Truthy(ctx) then opDict[CtxKey := Obj(ctx)] else opDict
  }

  /** `list_remove_by_index_range`: removes the items in an index range. */
  function ListRemoveByIndexRange(binName: PyObj, index: PyObj, returnType: PyObj, count: PyObj, inverted: PyObj, ctx: PyObj): (r: Descriptor)
    ensures r.Keys <= {OpKey, BinKey, ReturnTypeKey, IndexKey, InvertedKey, CountKey, CtxKey}
    ensures Has(r, Fixed(OpKey, Native(OpListRemoveByIndexRange)))
    ensures Has(r, Fixed(BinKey, Obj(binName)))
    ensures Has(r, Fixed(ReturnTypeKey, Obj(returnType)))
    ensures Has(r, Fixed(IndexKey, Obj(index)))
    ensures Has(r, Fixed(InvertedKey, Obj(inverted)))
    ensures Has(r, Optional(CountKey, IfNotNone, count))
    ensures Has(r, Optional(CtxKey, IfTruthy, ctx))
  {
    var opDict := map[OpKey := Native(OpListRemoveByIndexRange), BinKey := Obj(binName), ReturnTypeKey := Obj(returnType), IndexKey := Obj(index), InvertedKey := Obj(inverted)];
    var opDict := if count != PyNone then opDict[CountKey := Obj(count)] else opDict;
    if Truthy(ctx) then opDict[CtxKey := Obj(ctx)] else opDict
  }

  /** `list_remove_by_rank`: removes the item with a rank. */
  function ListRemoveByRank(binName: PyObj, rank: PyObj, returnType: PyObj, ctx: PyObj): (r: Descriptor)
    ensures r.Keys <= {OpKey, BinKey, ReturnTypeKey, RankKey, CtxKey}
    ensures Has(r, Fixed(OpKey, Native(OpListRemoveByRank)))
    ensures Has(r, Fixed(BinKey, Obj(binName)))
    ensures Has(r, Fixed(ReturnTypeKey, Obj(returnType)))
    ensures Has(r, Fixed(RankKey, Obj(rank)))
    ensures Has(r, Optional(CtxKey, IfTruthy, ctx))
  {
    var opDict := map[OpKey := Native(OpListRemoveByRank), BinKey := Obj(binName), ReturnTypeKey := Obj(returnType), RankKey := Obj(rank)];
    if Truthy(ctx) then opDict[CtxKey := Obj(ctx)] else opDict
  }

  /** `list_remove_by_rank_range`: removes the items in a rank range. */
  function ListRemoveByRankRange(binName: PyObj, rank: PyObj, returnType: PyObj, count: PyObj, inverted: PyObj, ctx: PyObj): (r: Descriptor)
    ensures r.Keys <= {OpKey, BinKey, ReturnTypeKey, RankKey, InvertedKey, CountKey, CtxKey}
    ensures Has(r, Fixed(OpKey, Native(OpListRemoveByRankRange)))
    ensures Has(r, Fixed(BinKey, Obj(binName)))
    ensures Has(r, Fixed(ReturnTypeKey, Obj(returnType)))
    ensures Has(r, Fixed(RankKey, Obj(rank)))
    ensures Has(r, Fixed(InvertedKey, Obj(inverted)))
    ensures Has(r, Optional(CountKey, IfNotNone, count))
    ensures Has(r, Optional(CtxKey, IfTruthy, ctx))
  {
    var opDict := map[OpKey := Native(OpListRemoveByRankRange), BinKey := Obj(binName), ReturnTypeKey := Obj(returnType), RankKey := Obj(rank), InvertedKey := Obj(inverted)];
    var opDict := if count != PyNone then opDict[CountKey := Obj(count)] else opDict;
    if Truthy(ctx) then opDict[CtxKey := Obj(ctx)] else opDict
  }

  /** `list_remove_by_value`: removes the items with a value. */
  function ListRemoveByValue(binName: PyObj, value: PyObj, returnType: PyObj, inverted: PyObj, ctx: PyObj): (r: Descriptor)
    ensures r.Keys <= {OpKey, BinKey, ReturnTypeKey, ValueKey, InvertedKey, CtxKey}
    ensures Has(r, Fixed(OpKey, Native(OpListRemoveByValue)))
    ensures Has(r, Fixed(BinKey, Obj(binName)))
    ensures Has(r, Fixed(ReturnTypeKey, Obj(returnType)))
    ensures Has(r, Fixed(ValueKey, Obj(value)))
    ensures Has(r, Fixed(InvertedKey, Obj(inverted)))
    ensures Has(r, Optional(CtxKey, IfTruthy, ctx))
  {
    var opDict := map[OpKey := Native(OpListRemoveByValue), BinKey := Obj(binName), ReturnTypeKey := Obj(returnType), ValueKey := Obj(value), InvertedKey := Obj(inverted)];
    if Truthy(ctx) then opDict[CtxKey := Obj(ctx)] else opDict
  }

  /** `list_remove_by_value_list`: removes the items with the listed values. */
  function ListRemoveByValueList(binName: PyObj, valueList: PyObj, returnType: PyObj, inverted: PyObj, ctx: PyObj): (r: Descriptor)
    ensures r.Keys <= {OpKey, BinKey, ReturnTypeKey, ValueListKey, InvertedKey, CtxKey}
    ensures Has(r, Fixed(OpKey, Native(OpListRemoveByValueList)))
    ensures Has(r, Fixed(BinKey, Obj(binName)))
    ensures Has(r, Fixed(ReturnTypeKey, Obj(returnType)))
    ensures Has(r, Fixed(ValueListKey, Obj(valueList)))
    ensures Has(r, Fixed(InvertedKey, Obj(inverted)))
    ensures Has(r, Optional(CtxKey, IfTruthy, ctx))
  {
    var opDict := map[OpKey := Native(OpListRemoveByValueList), BinKey := Obj(binName), ReturnTypeKey := Obj(returnType), ValueListKey := Obj(valueList), InvertedKey := Obj(inverted)];
    if Truthy(ctx) then opDict[CtxKey := Obj(ctx)] else opDict
  }

  /** `list_remove_by_value_range`: removes the items in a value range. */
  function ListRemoveByValueRange(binName: PyObj, returnType: PyObj, valueBegin: PyObj, valueEnd: PyObj, inverted: PyObj, ctx: PyObj): (r: Descriptor)
    ensures r.Keys <= {OpKey, BinKey, ReturnTypeKey, InvertedKey, ValueBeginKey, ValueEndKey, CtxKey}
    ensures Has(r, Fixed(OpKey, Native(OpListRemoveByValueRange)))
    ensures Has(r, Fixed(BinKey, Obj(binName)))
    ensures Has(r, Fixed(ReturnTypeKey, Obj(returnType)))
    ensures Has(r, Fixed(InvertedKey, Obj(inverted)))
    ensures Has(r, Optional(ValueBeginKey, IfNotNone, valueBegin))
    ensures Has(r, Optional(ValueEndKey, IfNotNone, valueEnd))
    ensures Has(r, Optional(CtxKey, IfTruthy, ctx))
  {
    var opDict := map[OpKey := Native(OpListRemoveByValueRange), BinKey := Obj(binName), ReturnTypeKey := Obj(returnType), InvertedKey := Obj(inverted)];
    var opDict := if valueBegin != PyNone then opDict[ValueBeginKey := Obj(valueBegin)] else opDict;
    var opDict := if valueEnd != PyNone then opDict[ValueEndKey := Obj(valueEnd)] else opDict;
    if Truthy(ctx) then opDict[CtxKey := Obj(ctx)] else opDict
  }

  /** `list_set_order`: sets the list's order. */
  function ListSetOrder(binName: PyObj, listOrder: PyObj, ctx: PyObj): (r: Descriptor)
    ensures r.Keys <= {OpKey, BinKey, ListOrderKey, CtxKey}
    ensures Has(r, Fixed(OpKey, Native(OpListSetOrder)))
    ensures Has(r, Fixed(BinKey, Obj(binName)))
    ensures Has(r, Fixed(ListOrderKey, Obj(listOrder)))
    ensures Has(r, Optional(CtxKey, IfTruthy, ctx))
  {
    var opDict := map[OpKey := Native(OpListSetOrder), BinKey := Obj(binName), ListOrderKey := Obj(listOrder)];
    if Truthy(ctx) then opDict[CtxKey := Obj(ctx)] else opDict
  }

  /** `list_sort`: sorts the list. */
  function ListSort(binName: PyObj, sortFlags: Value, ctx: PyObj): (r: Descriptor)
    ensures r.Keys <= {OpKey, BinKey, SortFlagsKey, CtxKey}
    ensures Has(r, Fixed(OpKey, Native(OpListSort)))
    ensures Has(r, Fixed(BinKey, Obj(binName)))
    ensures Has(r, Fixed(SortFlagsKey, sortFlags))
    ensures Has(r, Optional(CtxKey, IfTruthy, ctx))
  {
    var opDict := map[OpKey := Native(OpListSort), BinKey := Obj(binName), SortFlagsKey := sortFlags];
    if Truthy(ctx) then opDict[CtxKey := Obj(ctx)] else opDict
  }

  /** `list_get_by_value_rank_range_relative`: reads items by rank relative to a value. */
  function ListGetByValueRankRangeRelative(binName: PyObj, value: PyObj, offset: PyObj, returnType: PyObj, count: PyObj, inverted: PyObj, ctx: PyObj): (r: Descriptor)
    ensures r.Keys <= {OpKey, BinKey, ValueKey, RankKey, ReturnTypeKey, InvertedKey, CountKey, CtxKey}
    ensures Has(r, Fixed(OpKey, Native(OpListGetByValueRankRangeRel)))
    ensures Has(r, Fixed(BinKey, Obj(binName)))
    ensures Has(r, Fixed(ValueKey, Obj(value)))
    ensures Has(r, Fixed(RankKey, Obj(offset)))
    ensures Has(r, Fixed(ReturnTypeKey, Obj(returnType)))
    ensures Has(r, Fixed(InvertedKey, Obj(inverted)))
    ensures Has(r, Optional(CountKey, IfNotNone, count))
    ensures Has(r, Optional(CtxKey, IfTruthy, ctx))
  {
    var opDict := map[OpKey := Native(OpListGetByValueRankRangeRel), BinKey := Obj(binName), ValueKey := Obj(value), RankKey := Obj(offset), ReturnTypeKey := Obj(returnType), InvertedKey := Obj(inverted)];
    var opDict := if count != PyNone then opDict[CountKey := Obj(count)] else opDict;
    if Truthy(ctx) then opDict[CtxKey := Obj(ctx)] else opDict
  }

  /** `list_remove_by_value_rank_range_relative`: removes items by rank relative to a value. */
  function ListRemoveByValueRankRangeRelative(binName: PyObj, value: PyObj, offset: PyObj, returnType: PyObj, count: PyObj, inverted: PyObj, ctx: PyObj): (r: Descriptor)
    ensures r.Keys <= {OpKey, BinKey, ValueKey, RankKey, ReturnTypeKey, InvertedKey, CountKey, CtxKey}
    ensures Has(r, Fixed(OpKey, Native(OpListRemoveByValueRankRangeRel)))
    ensures Has(r, Fixed(BinKey, Obj(binName)))
    ensures Has(r, Fixed(ValueKey, Obj(value)))
    ensures Has(r, Fixed(RankKey, Obj(offset)))
    ensures Has(r, Fixed(ReturnTypeKey, Obj(returnType)))
    ensures Has(r, Fixed(InvertedKey, Obj(inverted)))
    ensures Has(r, Optional(CountKey, IfNotNone, count))
    ensures Has(r, Optional(CtxKey, IfTruthy, ctx))
  {
    var opDict := map[OpKey := Native(OpListRemoveByValueRankRangeRel), BinKey := Obj(binName), ValueKey := Obj(value), RankKey := Obj(offset), ReturnTypeKey := Obj(returnType), InvertedKey := Obj(inverted)];
    var opDict := if count != PyNone then opDict[CountKey := Obj(count)] else opDict;
    if Truthy(ctx) then opDict[CtxKey := Obj(ctx)] else opDict
  }

  // ---------------------------------------------------------------------
  // properties of the layouts above

  /** `if policy:` drops an empty policy dictionary as well as `None`. */
  lemma EmptyPolicyDropped(binName: PyObj, index: PyObj, value: PyObj, ctx: PyObj)
    ensures ListPolicyKey !in ListAppend(binName, value, Dict([]), ctx)
    ensures ListPolicyKey !in ListAppend(binName, value, PyNone, ctx)
    ensures ListPolicyKey !in ListInsert(binName, index, value, Dict([]), ctx)
    ensures ListPolicyKey !in ListSet(binName, index, value, Dict([]), ctx)
  {
  }

  /** The range builders that take a count put it under `"val"`, next to the
      index under `"index"`, and never under `"count"`. */
  lemma RangeCountUnderVal(binName: PyObj, index: PyObj, count: PyObj, ctx: PyObj)
    ensures var r := ListPopRange(binName, index, count, ctx);
      r[IndexKey] == Obj(index) && r[ValueKey] == Obj(count) && CountKey !in r
    ensures var r := ListRemoveRange(binName, index, count, ctx);
      r[IndexKey] == Obj(index) && r[ValueKey] == Obj(count) && CountKey !in r
    ensures var r := ListGetRange(binName, index, count, ctx);
      r[IndexKey] == Obj(index) && r[ValueKey] == Obj(count) && CountKey !in r
    ensures var r := ListTrim(binName, index, count, ctx);
      r[IndexKey] == Obj(index) && r[ValueKey] == Obj(count) && CountKey !in r
  {
  }

  /** A single value goes under `"val"`, a list of values under
      `"value_list"`. */
  lemma ValueAndValueListKeys(binName: PyObj, value: PyObj, returnType: PyObj, inverted: PyObj, ctx: PyObj)
    ensures var r := ListGetByValue(binName, value, returnType, inverted, ctx);
      r[ValueKey] == Obj(value) && ValueListKey !in r
    ensures var r := ListGetByValueList(binName, value, returnType, inverted, ctx);
      r[ValueListKey] == Obj(value) && ValueKey !in r
    ensures var r := ListRemoveByValue(binName, value, returnType, inverted, ctx);
      r[ValueKey] == Obj(value) && ValueListKey !in r
    ensures var r := ListRemoveByValueList(binName, value, returnType, inverted, ctx);
      r[ValueListKey] == Obj(value) && ValueKey !in r
  {
  }

  /** With its default flags `list_sort` still sends `"sort_flags"`. */
  lemma SortDefaultFlagsSent(binName: PyObj)
    ensures ListSort(binName, Native(ListSortDefault), PyNone) ==
      map[OpKey := Native(OpListSort), BinKey := Obj(binName), SortFlagsKey := Native(ListSortDefault)]
  {
    var r := ListSort(binName, Native(ListSortDefault), PyNone);
    assert r.Keys == {OpKey, BinKey, SortFlagsKey};
  }

}
