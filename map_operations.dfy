/** The map operation builders of aerospike_helpers/operations/map_operations.py.

    Each builder returns a fresh descriptor. Its contract bounds the keys and
    states, field by field in the order the source writes them, which keys
    are always there, which optional ones are added under which rule, and
    what each holds. */
module MapOperations {
  import opened Py
  import opened Descriptors

  // key names
  const OpKey: string := "op"
  const BinKey: string := "bin"
  const PolicyKey: string := "map_policy"
  const ValueKey: string := "val"
  const KeyKey: string := "key"
  const IndexKey: string := "index"
  const ReturnTypeKey: string := "return_type"
  const InvertedKey: string := "inverted"
  const RangeKey: string := "range"
  const CountKey: string := "count"
  const RankKey: string := "rank"
  const CtxKey: string := "ctx"

  /** `map_set_policy`: sets the map policy. */
  function MapSetPolicy(binName: PyObj, policy: PyObj, ctx: PyObj): (r: Descriptor)
    ensures r.Keys <= {OpKey, BinKey, PolicyKey, CtxKey}
    ensures Has(r, Fixed(OpKey, Native(OpMapSetPolicy)))
    ensures Has(r, Fixed(BinKey, Obj(binName)))
    ensures Has(r, Fixed(PolicyKey, Obj(policy)))
    ensures Has(r, Optional(CtxKey, IfNotNone, ctx))
  {
    var opDict := map[OpKey := Native(OpMapSetPolicy), BinKey := Obj(binName), PolicyKey := Obj(policy)];
    if ctx != PyNone then opDict[CtxKey := Obj(ctx)] else opDict
  }

  /** `map_put`: puts one item. */
  function MapPut(binName: PyObj, key: PyObj, value: PyObj, mapPolicy: PyObj, ctx: PyObj): (r: Descriptor)
    ensures r.Keys <= {OpKey, BinKey, KeyKey, ValueKey, PolicyKey, CtxKey}
    ensures Has(r, Fixed(OpKey, Native(OpMapPut)))
    ensures Has(r, Fixed(BinKey, Obj(binName)))
    ensures Has(r, Fixed(KeyKey, Obj(key)))
    ensures Has(r, Fixed(ValueKey, Obj(value)))
    ensures Has(r, Optional(PolicyKey, IfNotNone, mapPolicy))
    ensures Has(r, Optional(CtxKey, IfNotNone, ctx))
  {
    var opDict := map[OpKey := Native(OpMapPut), BinKey := Obj(binName), KeyKey := Obj(key), ValueKey := Obj(value)];
    var opDict := if mapPolicy != PyNone then opDict[PolicyKey := Obj(mapPolicy)] else opDict;
    if ctx != PyNone then opDict[CtxKey := Obj(ctx)] else opDict
  }

  /** `map_put_items`: puts several items. */
  function MapPutItems(binName: PyObj, itemDict: PyObj, mapPolicy: PyObj, ctx: PyObj): (r: Descriptor)
    ensures r.Keys <= {OpKey, BinKey, ValueKey, PolicyKey, CtxKey}
    ensures Has(r, Fixed(OpKey, Native(OpMapPutItems)))
    ensures Has(r, Fixed(BinKey, Obj(binName)))
    ensures Has(r, Fixed(ValueKey, Obj(itemDict)))
    ensures Has(r, Optional(PolicyKey, IfNotNone, mapPolicy))
    ensures Has(r, Optional(CtxKey, IfNotNone, ctx))
  {
    var opDict := map[OpKey := Native(OpMapPutItems), BinKey := Obj(binName), ValueKey := Obj(itemDict)];
    var opDict := if mapPolicy != PyNone then opDict[PolicyKey := Obj(mapPolicy)] else opDict;
    if ctx != PyNone then opDict[CtxKey := Obj(ctx)] else opDict
  }

  /** `map_increment`: increments the value under a key. */
  function MapIncrement(binName: PyObj, key: PyObj, amount: PyObj, mapPolicy: PyObj, ctx: PyObj): (r: Descriptor)
    ensures r.Keys <= {OpKey, BinKey, KeyKey, ValueKey, PolicyKey, CtxKey}
    ensures Has(r, Fixed(OpKey, Native(OpMapIncrement)))
    ensures Has(r, Fixed(BinKey, Obj(binName)))
    ensures Has(r, Fixed(KeyKey, Obj(key)))
    ensures Has(r, Fixed(ValueKey, Obj(amount)))
    ensures Has(r, Optional(PolicyKey, IfNotNone, mapPolicy))
    ensures Has(r, Optional(CtxKey, IfNotNone, ctx))
  {
    var opDict := map[OpKey := Native(OpMapIncrement), BinKey := Obj(binName), KeyKey := Obj(key), ValueKey := Obj(amount)];
    var opDict := if mapPolicy != PyNone then opDict[PolicyKey := Obj(mapPolicy)] else opDict;
    if ctx != PyNone then opDict[CtxKey := Obj(ctx)] else opDict
  }

  /** `map_decrement`: decrements the value under a key. */
  function MapDecrement(binName: PyObj, key: PyObj, amount: PyObj, mapPolicy: PyObj, ctx: PyObj): (r: Descriptor)
    ensures r.Keys <= {OpKey, BinKey, KeyKey, ValueKey, PolicyKey, CtxKey}
    ensures Has(r, Fixed(OpKey, Native(OpMapDecrement)))
    ensures Has(r, Fixed(BinKey, Obj(binName)))
    ensures Has(r, Fixed(KeyKey, Obj(key)))
    ensures Has(r, Fixed(ValueKey, Obj(amount)))
    ensures Has(r, Optional(PolicyKey, IfNotNone, mapPolicy))
    ensures Has(r, Optional(CtxKey, IfNotNone, ctx))
  {
    var opDict := map[OpKey := Native(OpMapDecrement), BinKey := Obj(binName), KeyKey := Obj(key), ValueKey := Obj(amount)];
    var opDict := if mapPolicy != PyNone then opDict[PolicyKey := Obj(mapPolicy)] else opDict;
    if ctx != PyNone then opDict[CtxKey := Obj(ctx)] else opDict
  }

  /** `map_size`: returns the map's size. */
  function MapSize(binName: PyObj, ctx: PyObj): (r: Descriptor)
    ensures r.Keys <= {OpKey, BinKey, CtxKey}
    ensures Has(r, Fixed(OpKey, Native(OpMapSize)))
    ensures Has(r, Fixed(BinKey, Obj(binName)))
    ensures Has(r, Optional(CtxKey, IfNotNone, ctx))
  {
    var opDict := map[OpKey := Native(OpMapSize), BinKey := Obj(binName)];
    if ctx != PyNone then opDict[CtxKey := Obj(ctx)] else opDict
  }

  /** `map_clear`: empties the map. */
  function MapClear(binName: PyObj, ctx: PyObj): (r: Descriptor)
    ensures r.Keys <= {OpKey, BinKey, CtxKey}
    ensures Has(r, Fixed(OpKey, Native(OpMapClear)))
    ensures Has(r, Fixed(BinKey, Obj(binName)))
    ensures Has(r, Optional(CtxKey, IfNotNone, ctx))
  {
    var opDict := map[OpKey := Native(OpMapClear), BinKey := Obj(binName)];
    if ctx != PyNone then opDict[CtxKey := Obj(ctx)] else opDict
  }

  /** `map_remove_by_key`: removes the item with a key. */
  function MapRemoveByKey(binName: PyObj, key: PyObj, returnType: PyObj, ctx: PyObj): (r: Descriptor)
    ensures r.Keys <= {OpKey, BinKey, KeyKey, ReturnTypeKey, CtxKey}
    ensures Has(r, Fixed(OpKey, Native(OpMapRemoveByKey)))
    ensures Has(r, Fixed(BinKey, Obj(binName)))
    ensures Has(r, Fixed(KeyKey, Obj(key)))
    ensures Has(r, Fixed(ReturnTypeKey, Obj(returnType)))
    ensures Has(r, Optional(CtxKey, IfNotNone, ctx))
  {
    var opDict := map[OpKey := Native(OpMapRemoveByKey), BinKey := Obj(binName), KeyKey := Obj(key), ReturnTypeKey := Obj(returnType)];
    if ctx != PyNone then opDict[CtxKey := Obj(ctx)] else opDict
  }

  /** `map_remove_by_key_list`: removes the items with the listed keys. */
  function MapRemoveByKeyList(binName: PyObj, keyList: PyObj, returnType: PyObj, inverted: PyObj, ctx: PyObj): (r: Descriptor)
    ensures r.Keys <= {OpKey, BinKey, ValueKey, ReturnTypeKey, InvertedKey, CtxKey}
    ensures Has(r, Fixed(OpKey, Native(OpMapRemoveByKeyList)))
    ensures Has(r, Fixed(BinKey, Obj(binName)))
    ensures Has(r, Fixed(ValueKey, Obj(keyList)))
    ensures Has(r, Fixed(ReturnTypeKey, Obj(returnType)))
    ensures Has(r, Fixed(InvertedKey, Obj(inverted)))
    ensures Has(r, Optional(CtxKey, IfNotNone, ctx))
  {
    var opDict := map[OpKey := Native(OpMapRemoveByKeyList), BinKey := Obj(binName), ValueKey := Obj(keyList), ReturnTypeKey := Obj(returnType), InvertedKey := Obj(inverted)];
    if ctx != PyNone then opDict[CtxKey := Obj(ctx)] else opDict
  }

  /** `map_remove_by_key_range`: removes the items in a key range. */
  function MapRemoveByKeyRange(binName: PyObj, keyRangeStart: PyObj, keyRangeEnd: PyObj, returnType: PyObj, inverted: PyObj, ctx: PyObj): (r: Descriptor)
    ensures r.Keys <= {OpKey, BinKey, KeyKey, ValueKey, ReturnTypeKey, InvertedKey, CtxKey}
    ensures Has(r, Fixed(OpKey, Native(OpMapRemoveByKeyRange)))
    ensures Has(r, Fixed(BinKey, Obj(binName)))
    ensures Has(r, Fixed(KeyKey, Obj(keyRangeStart)))
    ensures Has(r, Fixed(ValueKey, Obj(keyRangeEnd)))
    ensures Has(r, Fixed(ReturnTypeKey, Obj(returnType)))
    ensures Has(r, Fixed(InvertedKey, Obj(inverted)))
    ensures Has(r, Optional(CtxKey, IfNotNone, ctx))
  {
    var opDict := map[OpKey := Native(OpMapRemoveByKeyRange), BinKey := Obj(binName), KeyKey := Obj(keyRangeStart), ValueKey := Obj(keyRangeEnd), ReturnTypeKey := Obj(returnType), InvertedKey := Obj(inverted)];
    if ctx != PyNone then opDict[CtxKey := Obj(ctx)] else opDict
  }

  /** `map_remove_by_value`: removes the items with a value. */
  function MapRemoveByValue(binName: PyObj, value: PyObj, returnType: PyObj, inverted: PyObj, ctx: PyObj): (r: Descriptor)
    ensures r.Keys <= {OpKey, BinKey, ValueKey, ReturnTypeKey, InvertedKey, CtxKey}
    ensures Has(r, Fixed(OpKey, Native(OpMapRemoveByValue)))
    ensures Has(r, Fixed(BinKey, Obj(binName)))
    ensures Has(r, Fixed(ValueKey, Obj(value)))
    ensures Has(r, Fixed(ReturnTypeKey, Obj(returnType)))
    ensures Has(r, Fixed(InvertedKey, Obj(inverted)))
    ensures Has(r, Optional(CtxKey, IfNotNone, ctx))
  {
    var opDict := map[OpKey := Native(OpMapRemoveByValue), BinKey := Obj(binName), ValueKey := Obj(value), ReturnTypeKey := Obj(returnType), InvertedKey := Obj(inverted)];
    if ctx != PyNone then opDict[CtxKey := Obj(ctx)] else opDict
  }

  /** `map_remove_by_value_list`: removes the items with the listed values. */
  function MapRemoveByValueList(binName: PyObj, valueList: PyObj, returnType: PyObj, inverted: PyObj, ctx: PyObj): (r: Descriptor)
    ensures r.Keys <= {OpKey, BinKey, ValueKey, ReturnTypeKey, InvertedKey, CtxKey}
    ensures Has(r, Fixed(OpKey, Native(OpMapRemoveByValueList)))
    ensures Has(r, Fixed(BinKey, Obj(binName)))
    ensures Has(r, Fixed(ValueKey, Obj(valueList)))
    ensures Has(r, Fixed(ReturnTypeKey, Obj(returnType)))
    ensures Has(r, Fixed(InvertedKey, Obj(inverted)))
    ensures Has(r, Optional(CtxKey, IfNotNone, ctx))
  {
    var opDict := map[OpKey := Native(OpMapRemoveByValueList), BinKey := Obj(binName), ValueKey := Obj(valueList), ReturnTypeKey := Obj(returnType), InvertedKey := Obj(inverted)];
    if ctx != PyNone then opDict[CtxKey := Obj(ctx)] else opDict
  }

  /** `map_remove_by_value_range`: removes the items in a value range. */
  function MapRemoveByValueRange(binName: PyObj, valueStart: PyObj, valueEnd: PyObj, returnType: PyObj, inverted: PyObj, ctx: PyObj): (r: Descriptor)
    ensures r.Keys <= {OpKey, BinKey, ValueKey, RangeKey, ReturnTypeKey, InvertedKey, CtxKey}
    ensures Has(r, Fixed(OpKey, Native(OpMapRemoveByValueRange)))
    ensures Has(r, Fixed(BinKey, Obj(binName)))
    ensures Has(r, Fixed(ValueKey, Obj(valueStart)))
    ensures Has(r, Fixed(RangeKey, Obj(valueEnd)))
    ensures Has(r, Fixed(ReturnTypeKey, Obj(returnType)))
    ensures Has(r, Fixed(InvertedKey, Obj(inverted)))
    ensures Has(r, Optional(CtxKey, IfNotNone, ctx))
  {
    var opDict := map[OpKey := Native(OpMapRemoveByValueRange), BinKey := Obj(binName), ValueKey := Obj(valueStart), RangeKey := Obj(valueEnd), ReturnTypeKey := Obj(returnType), InvertedKey := Obj(inverted)];
    if ctx != PyNone then opDict[CtxKey := Obj(ctx)] else opDict
  }

  /** `map_remove_by_index`: removes the item at an index. */
  function MapRemoveByIndex(binName: PyObj, index: PyObj, returnType: PyObj, ctx: PyObj): (r: Descriptor)
    ensures r.Keys <= {OpKey, BinKey, IndexKey, ReturnTypeKey, CtxKey}
    ensures Has(r, Fixed(OpKey, Native(OpMapRemoveByIndex)))
    ensures Has(r, Fixed(BinKey, Obj(binName)))
    ensures Has(r, Fixed(IndexKey, Obj(index)))
    ensures Has(r, Fixed(ReturnTypeKey, Obj(returnType)))
    ensures Has(r, Optional(CtxKey, IfNotNone, ctx))
  {
    var opDict := map[OpKey := Native(OpMapRemoveByIndex), BinKey := Obj(binName), IndexKey := Obj(index), ReturnTypeKey := Obj(returnType)];
    if ctx != PyNone then opDict[CtxKey := Obj(ctx)] else opDict
  }

  /** `map_remove_by_index_range`: removes the items in an index range. */
  function MapRemoveByIndexRange(binName: PyObj, indexStart: PyObj, removeAmt: PyObj, returnType: PyObj, inverted: PyObj, ctx: PyObj): (r: Descriptor)
    ensures r.Keys <= {OpKey, BinKey, IndexKey, ValueKey, ReturnTypeKey, InvertedKey, CtxKey}
    ensures Has(r, Fixed(OpKey, Native(OpMapRemoveByIndexRange)))
    ensures Has(r, Fixed(BinKey, Obj(binName)))
    ensures Has(r, Fixed(IndexKey, Obj(indexStart)))
    ensures Has(r, Fixed(ValueKey, Obj(removeAmt)))
    ensures Has(r, Fixed(ReturnTypeKey, Obj(returnType)))
    ensures Has(r, Fixed(InvertedKey, Obj(inverted)))
    ensures Has(r, Optional(CtxKey, IfNotNone, ctx))
  {
    var opDict := map[OpKey := Native(OpMapRemoveByIndexRange), BinKey := Obj(binName), IndexKey := Obj(indexStart), ValueKey := Obj(removeAmt), ReturnTypeKey := Obj(returnType), InvertedKey := Obj(inverted)];
    if ctx != PyNone then opDict[CtxKey := Obj(ctx)] else opDict
  }

  /** `map_remove_by_rank`: removes the item with a rank. */
  function MapRemoveByRank(binName: PyObj, rank: PyObj, returnType: PyObj, ctx: PyObj): (r: Descriptor)
    ensures r.Keys <= {OpKey, BinKey, IndexKey, ReturnTypeKey, CtxKey}
    ensures Has(r, Fixed(OpKey, Native(OpMapRemoveByRank)))
    ensures Has(r, Fixed(BinKey, Obj(binName)))
    ensures Has(r, Fixed(IndexKey, Obj(rank)))
    ensures Has(r, Fixed(ReturnTypeKey, Obj(returnType)))
    ensures Has(r, Optional(CtxKey, IfNotNone, ctx))
  {
    var opDict := map[OpKey := Native(OpMapRemoveByRank), BinKey := Obj(binName), IndexKey := Obj(rank), ReturnTypeKey := Obj(returnType)];
    if ctx != PyNone then opDict[CtxKey := Obj(ctx)] else opDict
  }

  /** `map_remove_by_rank_range`: removes the items in a rank range. */
  function MapRemoveByRankRange(binName: PyObj, rankStart: PyObj, removeAmt: PyObj, returnType: PyObj, inverted: PyObj, ctx: PyObj): (r: Descriptor)
    ensures r.Keys <= {OpKey, BinKey, IndexKey, ValueKey, ReturnTypeKey, InvertedKey, CtxKey}
    ensures Has(r, Fixed(OpKey, Native(OpMapRemoveByRankRange)))
    ensures Has(r, Fixed(BinKey, Obj(binName)))
    ensures Has(r, Fixed(IndexKey, Obj(rankStart)))
    ensures Has(r, Fixed(ValueKey, Obj(removeAmt)))
    ensures Has(r, Fixed(ReturnTypeKey, Obj(returnType)))
    ensures Has(r, Fixed(InvertedKey, Obj(inverted)))
    ensures Has(r, Optional(CtxKey, IfNotNone, ctx))
  {
    var opDict := map[OpKey := Native(OpMapRemoveByRankRange), BinKey := Obj(binName), IndexKey := Obj(rankStart), ValueKey := Obj(removeAmt), ReturnTypeKey := Obj(returnType), InvertedKey := Obj(inverted)];
    if ctx != PyNone then opDict[CtxKey := Obj(ctx)] else opDict
  }

  /** `map_get_by_key`: reads the item with a key. */
  function MapGetByKey(binName: PyObj, key: PyObj, returnType: PyObj, ctx: PyObj): (r: Descriptor)
    ensures r.Keys <= {OpKey, BinKey, KeyKey, ReturnTypeKey, CtxKey}
    ensures Has(r, Fixed(OpKey, Native(OpMapGetByKey)))
    ensures Has(r, Fixed(BinKey, Obj(binName)))
    ensures Has(r, Fixed(KeyKey, Obj(key)))
    ensures Has(r, Fixed(ReturnTypeKey, Obj(returnType)))
    ensures Has(r, Optional(CtxKey, IfTruthy, ctx))
  {
    var opDict := map[OpKey := Native(OpMapGetByKey), BinKey := Obj(binName), KeyKey := Obj(key), ReturnTypeKey := Obj(returnType)];
    if Truthy(ctx) then opDict[CtxKey := Obj(ctx)] else opDict
  }

  /** `map_get_by_key_range`: reads the items in a key range. */
  function MapGetByKeyRange(binName: PyObj, keyRangeStart: PyObj, keyRangeEnd: PyObj, returnType: PyObj, inverted: PyObj, ctx: PyObj): (r: Descriptor)
    ensures r.Keys <= {OpKey, BinKey, KeyKey, RangeKey, ReturnTypeKey, InvertedKey, CtxKey}
    ensures Has(r, Fixed(OpKey, Native(OpMapGetByKeyRange)))
    ensures Has(r, Fixed(BinKey, Obj(binName)))
    ensures Has(r, Fixed(KeyKey, Obj(keyRangeStart)))
    ensures Has(r, Fixed(RangeKey, Obj(keyRangeEnd)))
    ensures Has(r, Fixed(ReturnTypeKey, Obj(returnType)))
    ensures Has(r, Fixed(InvertedKey, Obj(inverted)))
    ensures Has(r, Optional(CtxKey, IfTruthy, ctx))
  {
    var opDict := map[OpKey := Native(OpMapGetByKeyRange), BinKey := Obj(binName), KeyKey := Obj(keyRangeStart), RangeKey := Obj(keyRangeEnd), ReturnTypeKey := Obj(returnType), InvertedKey := Obj(inverted)];
    if Truthy(ctx) then opDict[CtxKey := Obj(ctx)] else opDict
  }

  /** `map_get_by_key_list`: reads the items with the listed keys. */
  function MapGetByKeyList(binName: PyObj, keyList: PyObj, returnType: PyObj, inverted: PyObj, ctx: PyObj): (r: Descriptor)
    ensures r.Keys <= {OpKey, BinKey, ValueKey, ReturnTypeKey, InvertedKey, CtxKey}
    ensures Has(r, Fixed(OpKey, Native(OpMapGetByKeyList)))
    ensures Has(r, Fixed(BinKey, Obj(binName)))
    ensures Has(r, Fixed(ValueKey, Obj(keyList)))
    ensures Has(r, Fixed(ReturnTypeKey, Obj(returnType)))
    ensures Has(r, Fixed(InvertedKey, Obj(inverted)))
    ensures Has(r, Optional(CtxKey, IfTruthy, ctx))
  {
    var opDict := map[OpKey := Native(OpMapGetByKeyList), BinKey := Obj(binName), ValueKey := Obj(keyList), ReturnTypeKey := Obj(returnType), InvertedKey := Obj(inverted)];
    if Truthy(ctx) then opDict[CtxKey := Obj(ctx)] else opDict
  }

  /** `map_get_by_value`: reads the items with a value. */
  function MapGetByValue(binName: PyObj, value: PyObj, returnType: PyObj, inverted: PyObj, ctx: PyObj): (r: Descriptor)
    ensures r.Keys <= {OpKey, BinKey, ValueKey, ReturnTypeKey, InvertedKey, CtxKey}
    ensures Has(r, Fixed(OpKey, Native(OpMapGetByValue)))
    ensures Has(r, Fixed(BinKey, Obj(binName)))
    ensures Has(r, Fixed(ValueKey, Obj(value)))
    ensures Has(r, Fixed(ReturnTypeKey, Obj(returnType)))
    ensures Has(r, Fixed(InvertedKey, Obj(inverted)))
    ensures Has(r, Optional(CtxKey, IfTruthy, ctx))
  {
    var opDict := map[OpKey := Native(OpMapGetByValue), BinKey := Obj(binName), ValueKey := Obj(value), ReturnTypeKey := Obj(returnType), InvertedKey := Obj(inverted)];
    if Truthy(ctx) then opDict[CtxKey := Obj(ctx)] else opDict
  }

  /** `map_get_by_value_range`: reads the items in a value range. */
  function MapGetByValueRange(binName: PyObj, valueStart: PyObj, valueEnd: PyObj, returnType: PyObj, inverted: PyObj, ctx: PyObj): (r: Descriptor)
    ensures r.Keys <= {OpKey, BinKey, ValueKey, RangeKey, ReturnTypeKey, InvertedKey, CtxKey}
    ensures Has(r, Fixed(OpKey, Native(OpMapGetByValueRange)))
    ensures Has(r, Fixed(BinKey, Obj(binName)))
    ensures Has(r, Fixed(ValueKey, Obj(valueStart)))
    ensures Has(r, Fixed(RangeKey, Obj(valueEnd)))
    ensures Has(r, Fixed(ReturnTypeKey, Obj(returnType)))
    ensures Has(r, Fixed(InvertedKey, Obj(inverted)))
    ensures Has(r, Optional(CtxKey, IfTruthy, ctx))
  {
    var opDict := map[OpKey := Native(OpMapGetByValueRange), BinKey := Obj(binName), ValueKey := Obj(valueStart), RangeKey := Obj(valueEnd), ReturnTypeKey := Obj(returnType), InvertedKey := Obj(inverted)];
    if Truthy(ctx) then opDict[CtxKey := Obj(ctx)] else opDict
  }

  /** `map_get_by_value_list`: reads the items with the listed values. */
  function MapGetByValueList(binName: PyObj, keyList: PyObj, returnType: PyObj, inverted: PyObj, ctx: PyObj): (r: Descriptor)
    ensures r.Keys <= {OpKey, BinKey, ValueKey, ReturnTypeKey, InvertedKey, CtxKey}
    ensures Has(r, Fixed(OpKey, Native(OpMapGetByValueList)))
    ensures Has(r, Fixed(BinKey, Obj(binName)))
    ensures Has(r, Fixed(ValueKey, Obj(keyList)))
    ensures Has(r, Fixed(ReturnTypeKey, Obj(returnType)))
    ensures Has(r, Fixed(InvertedKey, Obj(inverted)))
    ensures Has(r, Optional(CtxKey, IfTruthy, ctx))
  {
    var opDict := map[OpKey := Native(OpMapGetByValueList), BinKey := Obj(binName), ValueKey := Obj(keyList), ReturnTypeKey := Obj(returnType), InvertedKey := Obj(inverted)];
    if Truthy(ctx) then opDict[CtxKey := Obj(ctx)] else opDict
  }

  /** `map_get_by_index`: reads the item at an index. */
  function MapGetByIndex(binName: PyObj, index: PyObj, returnType: PyObj, ctx: PyObj): (r: Descriptor)
    ensures r.Keys <= {OpKey, BinKey, IndexKey, ReturnTypeKey, CtxKey}
    ensures Has(r, Fixed(OpKey, Native(OpMapGetByIndex)))
    ensures Has(r, Fixed(BinKey, Obj(binName)))
    ensures Has(r, Fixed(IndexKey, Obj(index)))
    ensures Has(r, Fixed(ReturnTypeKey, Obj(returnType)))
    ensures Has(r, Optional(CtxKey, IfTruthy, ctx))
  {
    var opDict := map[OpKey := Native(OpMapGetByIndex), BinKey := Obj(binName), IndexKey := Obj(index), ReturnTypeKey := Obj(returnType)];
    if Truthy(ctx) then opDict[CtxKey := Obj(ctx)] else opDict
  }

  /** `map_get_by_index_range`: reads the items in an index range. */
  function MapGetByIndexRange(binName: PyObj, indexStart: PyObj, getAmt: PyObj, returnType: PyObj, inverted: PyObj, ctx: PyObj): (r: Descriptor)
    ensures r.Keys <= {OpKey, BinKey, IndexKey, ValueKey, ReturnTypeKey, InvertedKey, CtxKey}
    ensures Has(r, Fixed(OpKey, Native(OpMapGetByIndexRange)))
    ensures Has(r, Fixed(BinKey, Obj(binName)))
    ensures Has(r, Fixed(IndexKey, Obj(indexStart)))
    ensures Has(r, Fixed(ValueKey, Obj(getAmt)))
    ensures Has(r, Fixed(ReturnTypeKey, Obj(returnType)))
    ensures Has(r, Fixed(InvertedKey, Obj(inverted)))
    ensures Has(r, Optional(CtxKey, IfTruthy, ctx))
  {
    var opDict := map[OpKey := Native(OpMapGetByIndexRange), BinKey := Obj(binName), IndexKey := Obj(indexStart), ValueKey := Obj(getAmt), ReturnTypeKey := Obj(returnType), InvertedKey := Obj(inverted)];
    if Truthy(ctx) then opDict[CtxKey := Obj(ctx)] else opDict
  }

  /** `map_get_by_rank`: reads the item with a rank. */
  function MapGetByRank(binName: PyObj, rank: PyObj, returnType: PyObj, ctx: PyObj): (r: Descriptor)
    ensures r.Keys <= {OpKey, BinKey, IndexKey, ReturnTypeKey, CtxKey}
    ensures Has(r, Fixed(OpKey, Native(OpMapGetByRank)))
    ensures Has(r, Fixed(BinKey, Obj(binName)))
    ensures Has(r, Fixed(IndexKey, Obj(rank)))
    ensures Has(r, Fixed(ReturnTypeKey, Obj(returnType)))
    ensures Has(r, Optional(CtxKey, IfTruthy, ctx))
  {
    var opDict := map[OpKey := Native(OpMapGetByRank), BinKey := Obj(binName), IndexKey := Obj(rank), ReturnTypeKey := Obj(returnType)];
    if Truthy(ctx) then opDict[CtxKey := Obj(ctx)] else opDict
  }

  /** `map_get_by_rank_range`: reads the items in a rank range. */
  function MapGetByRankRange(binName: PyObj, rankStart: PyObj, getAmt: PyObj, returnType: PyObj, inverted: PyObj, ctx: PyObj): (r: Descriptor)
    ensures r.Keys <= {OpKey, BinKey, IndexKey, ValueKey, ReturnTypeKey, InvertedKey, CtxKey}
    ensures Has(r, Fixed(OpKey, Native(OpMapGetByRankRange)))
    ensures Has(r, Fixed(BinKey, Obj(binName)))
    ensures Has(r, Fixed(IndexKey, Obj(rankStart)))
    ensures Has(r, Fixed(ValueKey, Obj(getAmt)))
    ensures Has(r, Fixed(ReturnTypeKey, Obj(returnType)))
    ensures Has(r, Fixed(InvertedKey, Obj(inverted)))
    ensures Has(r, Optional(CtxKey, IfTruthy, ctx))
  {
    var opDict := map[OpKey := Native(OpMapGetByRankRange), BinKey := Obj(binName), IndexKey := Obj(rankStart), ValueKey := Obj(getAmt), ReturnTypeKey := Obj(returnType), InvertedKey := Obj(inverted)];
    if Truthy(ctx) then opDict[CtxKey := Obj(ctx)] else opDict
  }

  /** `map_remove_by_value_rank_range_relative`: removes items by rank relative to a value. */
  function MapRemoveByValueRankRangeRelative(binName: PyObj, value: PyObj, offset: PyObj, returnType: PyObj, count: PyObj, inverted: PyObj, ctx: PyObj): (r: Descriptor)
    ensures r.Keys <= {OpKey, BinKey, ValueKey, RankKey, ReturnTypeKey, CountKey, InvertedKey, CtxKey}
    ensures Has(r, Fixed(OpKey, Native(OpMapRemoveByValueRankRangeRel)))
    ensures Has(r, Fixed(BinKey, Obj(binName)))
    ensures Has(r, Fixed(ValueKey, Obj(value)))
    ensures Has(r, Fixed(RankKey, Obj(offset)))
    ensures Has(r, Fixed(ReturnTypeKey, Obj(returnType)))
    ensures Has(r, Optional(CountKey, IfNotNone, count))
    ensures Has(r, Optional(InvertedKey, TrueIfTruthy, inverted))
    ensures Has(r, Optional(CtxKey, IfTruthy, ctx))
  {
    var opDict := map[OpKey := Native(OpMapRemoveByValueRankRangeRel), BinKey := Obj(binName), ValueKey := Obj(value), RankKey := Obj(offset), ReturnTypeKey := Obj(returnType)];
    var opDict := if count != PyNone then opDict[CountKey := Obj(count)] else opDict;
    var opDict := if Truthy(inverted) then opDict[InvertedKey := Obj(Bool(true))] else opDict;
    if Truthy(ctx) then opDict[CtxKey := Obj(ctx)] else opDict
  }

  /** `map_get_by_value_rank_range_relative`: reads items by rank relative to a value. */
  function MapGetByValueRankRangeRelative(binName: PyObj, value: PyObj, offset: PyObj, returnType: PyObj, count: PyObj, inverted: PyObj, ctx: PyObj): (r: Descriptor)
    ensures r.Keys <= {OpKey, BinKey, ValueKey, RankKey, ReturnTypeKey, CountKey, InvertedKey, CtxKey}
    ensures Has(r, Fixed(OpKey, Native(OpMapGetByValueRankRangeRel)))
    ensures Has(r, Fixed(BinKey, Obj(binName)))
    ensures Has(r, Fixed(ValueKey, Obj(value)))
    ensures Has(r, Fixed(RankKey, Obj(offset)))
    ensures Has(r, Fixed(ReturnTypeKey, Obj(returnType)))
    ensures Has(r, Optional(CountKey, IfNotNone, count))
    ensures Has(r, Optional(InvertedKey, TrueIfTruthy, inverted))
    ensures Has(r, Optional(CtxKey, IfTruthy, ctx))
  {
    var opDict := map[OpKey := Native(OpMapGetByValueRankRangeRel), BinKey := Obj(binName), ValueKey := Obj(value), RankKey := Obj(offset), ReturnTypeKey := Obj(returnType)];
    var opDict := if count != PyNone then opDict[CountKey := Obj(count)] else opDict;
    var opDict := if Truthy(inverted) then opDict[InvertedKey := Obj(Bool(true))] else opDict;
    if Truthy(ctx) then opDict[CtxKey := Obj(ctx)] else opDict
  }

  /** `map_remove_by_key_index_range_relative`: removes items by index relative to a key. */
  function MapRemoveByKeyIndexRangeRelative(binName: PyObj, key: PyObj, offset: PyObj, returnType: PyObj, count: PyObj, inverted: PyObj, ctx: PyObj): (r: Descriptor)
    ensures r.Keys <= {OpKey, BinKey, KeyKey, IndexKey, ReturnTypeKey, CountKey, InvertedKey, CtxKey}
    ensures Has(r, Fixed(OpKey, Native(OpMapRemoveByKeyIndexRangeRel)))
    ensures Has(r, Fixed(BinKey, Obj(binName)))
    ensures Has(r, Fixed(KeyKey, Obj(key)))
    ensures Has(r, Fixed(IndexKey, Obj(offset)))
    ensures Has(r, Fixed(ReturnTypeKey, Obj(returnType)))
    ensures Has(r, Optional(CountKey, IfNotNone, count))
    ensures Has(r, Optional(InvertedKey, TrueIfTruthy, inverted))
    ensures Has(r, Optional(CtxKey, IfTruthy, ctx))
  {
    var opDict := map[OpKey := Native(OpMapRemoveByKeyIndexRangeRel), BinKey := Obj(binName), KeyKey := Obj(key), IndexKey := Obj(offset), ReturnTypeKey := Obj(returnType)];
    var opDict := if count != PyNone then opDict[CountKey := Obj(count)] else opDict;
    var opDict := if Truthy(inverted) then opDict[InvertedKey := Obj(Bool(true))] else opDict;
    if Truthy(ctx) then opDict[CtxKey := Obj(ctx)] else opDict
  }

  /** `map_get_by_key_index_range_relative`: reads items by index relative to a key. */
  function MapGetByKeyIndexRangeRelative(binName: PyObj, value: PyObj, offset: PyObj, returnType: PyObj, count: PyObj, inverted: PyObj, ctx: PyObj): (r: Descriptor)
    ensures r.Keys <= {OpKey, BinKey, KeyKey, IndexKey, ReturnTypeKey, CountKey, InvertedKey, CtxKey}
    ensures Has(r, Fixed(OpKey, Native(OpMapGetByKeyIndexRangeRel)))
    ensures Has(r, Fixed(BinKey, Obj(binName)))
    ensures Has(r, Fixed(KeyKey, Obj(value)))
    ensures Has(r, Fixed(IndexKey, Obj(offset)))
    ensures Has(r, Fixed(ReturnTypeKey, Obj(returnType)))
    ensures Has(r, Optional(CountKey, IfNotNone, count))
    ensures Has(r, Optional(InvertedKey, TrueIfTruthy, inverted))
    ensures Has(r, Optional(CtxKey, IfTruthy, ctx))
  {
    var opDict := map[OpKey := Native(OpMapGetByKeyIndexRangeRel), BinKey := Obj(binName), KeyKey := Obj(value), IndexKey := Obj(offset), ReturnTypeKey := Obj(returnType)];
    var opDict := if count != PyNone then opDict[CountKey := Obj(count)] else opDict;
    var opDict := if Truthy(inverted) then opDict[InvertedKey := Obj(Bool(true))] else opDict;
    if Truthy(ctx) then opDict[CtxKey := Obj(ctx)] else opDict
  }

  // ---------------------------------------------------------------------
  // properties of the layouts above

  /** With no context, `map_size` and `map_clear` hold exactly their opcode
      and the bin name. */
  lemma SizeAndClearBare(binName: PyObj)
    ensures MapSize(binName, PyNone) == map[OpKey := Native(OpMapSize), BinKey := Obj(binName)]
    ensures MapClear(binName, PyNone) == map[OpKey := Native(OpMapClear), BinKey := Obj(binName)]
  {
    var s := MapSize(binName, PyNone);
    assert s.Keys == {OpKey, BinKey};
    var c := MapClear(binName, PyNone);
    assert c.Keys == {OpKey, BinKey};
  }

  /** An empty context list is kept by the write and remove builders, which
      test `ctx is not None`, and dropped by the get builders, which test
      `if ctx:`. */
  lemma EmptyCtxKeptByWritesDroppedByGets(binName: PyObj, key: PyObj, value: PyObj, returnType: PyObj)
    ensures MapPut(binName, key, value, PyNone, List([]))[CtxKey] == Obj(List([]))
    ensures MapRemoveByKey(binName, key, returnType, List([]))[CtxKey] == Obj(List([]))
    ensures CtxKey !in MapGetByKey(binName, key, returnType, List([]))
  {
  }

  /** The rank builders store the rank under `"index"`, not under
      `"rank"`. */
  lemma RankKeys(binName: PyObj, rank: PyObj, returnType: PyObj, ctx: PyObj)
    ensures var r := MapRemoveByRank(binName, rank, returnType, ctx); r[IndexKey] == Obj(rank) && RankKey !in r
    ensures var r := MapGetByRank(binName, rank, returnType, ctx); r[IndexKey] == Obj(rank) && RankKey !in r
  {
  }

  /** Of the relative builders, the value-relative ones store the rank
      offset under `"rank"` and the key-relative ones store the index offset
      under `"index"`. */
  lemma RelativeOffsetKeys(binName: PyObj, value: PyObj, offset: PyObj, returnType: PyObj, count: PyObj, inverted: PyObj, ctx: PyObj)
    ensures var r := MapGetByValueRankRangeRelative(binName, value, offset, returnType, count, inverted, ctx);
      r[RankKey] == Obj(offset) && IndexKey !in r
    ensures var r := MapGetByKeyIndexRangeRelative(binName, value, offset, returnType, count, inverted, ctx);
      r[IndexKey] == Obj(offset) && RankKey !in r
  {
  }

  /** The end of a key range is stored under `"val"` when removing and under
      `"range"` when reading; a value range always stores its start under
      `"val"` and its end under `"range"`. */
  lemma RangeEndKeys(binName: PyObj, start: PyObj, end: PyObj, returnType: PyObj, inverted: PyObj, ctx: PyObj)
    ensures var r := MapRemoveByKeyRange(binName, start, end, returnType, inverted, ctx);
      r[KeyKey] == Obj(start) && r[ValueKey] == Obj(end) && RangeKey !in r
    ensures var r := MapGetByKeyRange(binName, start, end, returnType, inverted, ctx);
      r[KeyKey] == Obj(start) && r[RangeKey] == Obj(end) && ValueKey !in r
    ensures var r := MapRemoveByValueRange(binName, start, end, returnType, inverted, ctx);
      r[ValueKey] == Obj(start) && r[RangeKey] == Obj(end) && KeyKey !in r
    ensures var r := MapGetByValueRange(binName, start, end, returnType, inverted, ctx);
      r[ValueKey] == Obj(start) && r[RangeKey] == Obj(end) && KeyKey !in r
  {
  }

}
