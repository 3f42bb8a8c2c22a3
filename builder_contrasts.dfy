/** Where the list and map builders of the same kind of operation disagree
    on the layout of their descriptors. */
module BuilderContrasts {
  import opened Py
  import opened Descriptors
  import L = ListOperations
  import M = MapOperations

  /** The relative rank builders: a map builder replaces a truthy `inverted`
      with `True` and leaves a falsy one out, while a list builder always
      stores the argument itself. */
  lemma RelativeInvertedDiffers(binName: PyObj, value: PyObj, offset: PyObj, returnType: PyObj, count: PyObj, ctx: PyObj)
    ensures M.MapGetByValueRankRangeRelative(binName, value, offset, returnType, count, Int(2), ctx)[M.InvertedKey]
      == Obj(Bool(true))
    ensures L.ListGetByValueRankRangeRelative(binName, value, offset, returnType, count, Int(2), ctx)[L.InvertedKey]
      == Obj(Int(2))
    ensures M.InvertedKey !in M.MapRemoveByValueRankRangeRelative(binName, value, offset, returnType, count, Bool(false), ctx)
    ensures L.ListRemoveByValueRankRangeRelative(binName, value, offset, returnType, count, Bool(false), ctx)[L.InvertedKey]
      == Obj(Bool(false))
  {
  }

  /** An empty context list survives a map write but not a list write. */
  lemma EmptyCtxMapWriteKeepsListWriteDrops(binName: PyObj, index: PyObj, value: PyObj)
    ensures M.MapPutItems(binName, value, PyNone, List([]))[M.CtxKey] == Obj(List([]))
    ensures L.CtxKey !in L.ListInsert(binName, index, value, PyNone, List([]))
  {
  }
}
