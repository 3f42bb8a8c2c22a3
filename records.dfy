/** Conversions between C client records and their Python shapes: the flat
    key/value list returned for map reads (`as_list_of_map_to_py_tuple_list`),
    the ordered bin list of `operate_ordered` (`operate_bins_to_pyobject`),
    record metadata in both directions (`metadata_to_pyobject`,
    `check_for_meta`) and the two bin-name checks (`bin_strict_type_checking`
    and the one inside `pyobject_to_record`).

    Values of the C client (`as_val`) are a type parameter `V`; turning one
    into a Python object (`val_to_pyobject`) is a function parameter `conv`
    that may fail with a status. */
module Records {
  import opened Py
  import opened Errors

  // ---------------------------------------------------------------------
  // as_list_of_map_to_py_tuple_list

  const OddPairs: string := "Invalid key list of key/value pairs"
  const NullInPairs: string := "Null object found in returned list"

  /** The pair tuples of an even-length flat list `[k0, v0, k1, v1, ...]`,
      where `None` is a NULL element: each pair is checked for NULLs, then
      its key and its value are converted, before the next pair is looked
      at. */
  function PairTuples<V>(list: seq<Option<V>>, conv: V -> Result<PyObj>): (r: Result<seq<PyObj>>)
    requires |list| % 2 == 0
    ensures r.Success? ==> |r.value| == |list| / 2
    decreases |list|
  {
    if list == [] then Success([])
    else if list[0].None? || list[1].None? then Failure(ClientError(NullInPairs))
    else
      var key := conv(list[0].value);
      var value := conv(list[1].value);
      if key.Failure? then Failure(key.error)
      else if value.Failure? then Failure(value.error)
      else Prepend([Tuple([key.value, value.value])], PairTuples(list[2..], conv))
  }

  /** What `as_list_of_map_to_py_tuple_list` produces. */
  function TupleListOf<V>(list: seq<Option<V>>, conv: V -> Result<PyObj>): (r: Result<PyObj>)
    ensures |list| % 2 != 0 ==> r == Failure(ClientError(OddPairs))
    ensures r.Success? ==> r.value.List? && |r.value.items| == |list| / 2
  {
    if |list| % 2 != 0 then Failure(ClientError(OddPairs))
    else
      var tuples := PairTuples(list, conv);
      if tuples.Success? then Success(List(tuples.value)) else Failure(tuples.error)
  }

  /** `as_list_of_map_to_py_tuple_list`: walks the flat list two elements at
      a time and appends one `(key, value)` tuple per pair. */
  method ListOfMapToTupleList<V>(list: seq<Option<V>>, conv: V -> Result<PyObj>) returns (r: Result<PyObj>)
    ensures r == TupleListOf(list, conv)
  {
    if |list| % 2 != 0 {
      return Failure(ClientError(OddPairs));
    }
    var tuples: seq<PyObj> := [];
    var i := 0;
    assert list[0..] == list;
    PrependNothing(PairTuples(list, conv));
    while i < |list|
      invariant 0 <= i <= |list| && i % 2 == 0
      invariant PairTuples(list, conv) == Prepend(tuples, PairTuples(list[i..], conv))
    {
      assert list[i..][2..] == list[i + 2..];
      var key := list[i];
      var value := list[i + 1];
      if key.None? || value.None? {
        return Failure(ClientError(NullInPairs));
      }
      var pyKey := conv(key.value);
      if pyKey.Failure? {
        return Failure(pyKey.error);
      }
      var pyValue := conv(value.value);
      if pyValue.Failure? {
        return Failure(pyValue.error);
      }
      PrependTwice(tuples, [Tuple([pyKey.value, pyValue.value])], PairTuples(list[i + 2..], conv));
      tuples := tuples + [Tuple([pyKey.value, pyValue.value])];
      i := i + 2;
    }
    assert tuples + [] == tuples;
    return Success(List(tuples));
  }

  /** The flat list the C client returns for a sequence of pairs. */
  function Flatten<V>(pairs: seq<(V, V)>): (r: seq<Option<V>>)
    ensures |r| == 2 * |pairs|
    ensures forall j :: 0 <= j < |pairs| ==> r[2 * j] == Some(pairs[j].0) && r[2 * j + 1] == Some(pairs[j].1)
  {
    if pairs == [] then [] else [Some(pairs[0].0), Some(pairs[0].1)] + Flatten(pairs[1..])
  }

  predicate Converts<V>(pairs: seq<(V, V)>, conv: V -> Result<PyObj>)
  {
    forall j :: 0 <= j < |pairs| ==> conv(pairs[j].0).Success? && conv(pairs[j].1).Success?
  }

  /** Pair `j` of the result is `(list[2j], list[2j+1])`, in order, when every
      element converts. */
  lemma {:induction false} PairTuplesInOrder<V>(pairs: seq<(V, V)>, conv: V -> Result<PyObj>)
    requires Converts(pairs, conv)
    ensures PairTuples(Flatten(pairs), conv).Success?
    ensures forall j :: 0 <= j < |pairs| ==>
      PairTuples(Flatten(pairs), conv).value[j] == Tuple([conv(pairs[j].0).value, conv(pairs[j].1).value])
  {
    if pairs != [] {
      var list := Flatten(pairs);
      assert list[2..] == Flatten(pairs[1..]);
      PairTuplesInOrder(pairs[1..], conv);
    }
  }

  /** The list of pairs comes back as one tuple per pair, in order. */
  lemma TupleListOfFlattened<V>(pairs: seq<(V, V)>, conv: V -> Result<PyObj>)
    requires Converts(pairs, conv)
    ensures TupleListOf(Flatten(pairs), conv).Success?
    ensures |TupleListOf(Flatten(pairs), conv).value.items| == |pairs|
    ensures forall j :: 0 <= j < |pairs| ==>
      TupleListOf(Flatten(pairs), conv).value.items[j] == Tuple([conv(pairs[j].0).value, conv(pairs[j].1).value])
  {
    PairTuplesInOrder(pairs, conv);
  }

  /** A NULL element anywhere in the list makes the conversion fail. */
  lemma {:induction false} NullElementFails<V>(list: seq<Option<V>>, conv: V -> Result<PyObj>, k: int)
    requires 0 <= k < |list| && list[k].None?
    ensures TupleListOf(list, conv).Failure?
  {
    if |list| % 2 == 0 {
      NullElementFailsPairs(list, conv, k);
    }
  }

  lemma {:induction false} NullElementFailsPairs<V>(list: seq<Option<V>>, conv: V -> Result<PyObj>, k: int)
    requires |list| % 2 == 0
    requires 0 <= k < |list| && list[k].None?
    ensures PairTuples(list, conv).Failure?
    decreases |list|
  {
    if k >= 2 && list[0].Some? && list[1].Some? {
      NullElementFailsPairs(list[2..], conv, k - 2);
    }
  }

  // ---------------------------------------------------------------------
  // operate_bins_to_pyobject and metadata_to_pyobject

  /** An `as_bin`: its name buffer and its value. */
  datatype AsBin<V> = AsBin(name: seq<byte>, value: V)

  /** An `as_record`: time to live, generation and bins in the order the
      server returned them (names may repeat after `operate_ordered`). */
  datatype AsRecord<V> = AsRecord(ttl: int, gen: int, bins: seq<AsBin<V>>)

  const NullRecord: string := "record is null"

  /** The `(name, value)` tuples for a run of bins; the first conversion
      failure stops the walk. */
  function BinPairs<V>(bins: seq<AsBin<V>>, conv: V -> Result<PyObj>): (r: Result<seq<PyObj>>)
    ensures r.Success? ==> |r.value| == |bins|
  {
    if bins == [] then Success([])
    else
      var value := conv(bins[0].value);
      if value.Failure? then Failure(value.error)
      else Prepend([Tuple([Str(CString(bins[0].name)), value.value])], BinPairs(bins[1..], conv))
  }

  /** What `operate_bins_to_pyobject` produces for a record, NULL being
      `None`. */
  function OperateBinsOf<V>(rec: Option<AsRecord<V>>, conv: V -> Result<PyObj>): (r: Result<PyObj>)
    ensures rec.None? ==> r == Failure(ClientError(NullRecord))
    ensures r.Success? ==> r.value.List? && |r.value.items| == |rec.value.bins|
  {
    if rec.None? then Failure(ClientError(NullRecord))
    else
      var pairs := BinPairs(rec.value.bins, conv);
      if pairs.Success? then Success(List(pairs.value)) else Failure(pairs.error)
  }

  /** `operate_bins_to_pyobject`: one `(name, value)` tuple per bin, in the
      record's order. */
  method OperateBinsToPy<V>(rec: Option<AsRecord<V>>, conv: V -> Result<PyObj>) returns (r: Result<PyObj>)
    ensures r == OperateBinsOf(rec, conv)
  {
    if rec.None? {
      return Failure(ClientError(NullRecord));
    }
    var bins := rec.value.bins;
    var pairs: seq<PyObj> := [];
    var i := 0;
    assert bins[0..] == bins;
    PrependNothing(BinPairs(bins, conv));
    while i < |bins|
      invariant 0 <= i <= |bins|
      invariant BinPairs(bins, conv) == Prepend(pairs, BinPairs(bins[i..], conv))
    {
      assert bins[i..][1..] == bins[i + 1..];
      var value := conv(bins[i].value);
      if value.Failure? {
        return Failure(value.error);
      }
      PrependTwice(pairs, [Tuple([Str(CString(bins[i].name)), value.value])], BinPairs(bins[i + 1..], conv));
      pairs := pairs + [Tuple([Str(CString(bins[i].name)), value.value])];
      i := i + 1;
    }
    assert pairs + [] == pairs;
    return Success(List(pairs));
  }

  /** When every bin converts, entry `i` pairs the name and value of bin `i`:
      the order is kept and repeated names are not merged. */
  lemma {:induction false} BinPairsInOrder<V>(bins: seq<AsBin<V>>, conv: V -> Result<PyObj>)
    requires forall i :: 0 <= i < |bins| ==> conv(bins[i].value).Success?
    ensures BinPairs(bins, conv).Success?
    ensures forall i :: 0 <= i < |bins| ==>
      BinPairs(bins, conv).value[i] == Tuple([Str(CString(bins[i].name)), conv(bins[i].value).value])
  {
    if bins != [] {
      BinPairsInOrder(bins[1..], conv);
      assert forall i :: 1 <= i < |bins| ==> bins[1..][i - 1] == bins[i];
    }
  }

  /** The first bin whose value does not convert decides the error. */
  lemma {:induction false} BinPairsFirstFailure<V>(bins: seq<AsBin<V>>, conv: V -> Result<PyObj>, k: nat)
    requires k < |bins| && conv(bins[k].value).Failure?
    requires forall i :: 0 <= i < k ==> conv(bins[i].value).Success?
    ensures BinPairs(bins, conv) == Failure(conv(bins[k].value).error)
  {
    if k > 0 {
      assert bins[1..][k - 1] == bins[k];
      assert forall i :: 0 <= i < k - 1 ==> bins[1..][i] == bins[i + 1];
      BinPairsFirstFailure(bins[1..], conv, k - 1);
    }
  }

  /** Two bins with the same name give two entries, in their order. */
  lemma RepeatedBinNamesKept<V>(name: seq<byte>, a: V, b: V, conv: V -> Result<PyObj>)
    requires conv(a).Success? && conv(b).Success?
    ensures OperateBinsOf(Some(AsRecord(0, 0, [AsBin(name, a), AsBin(name, b)])), conv)
      == Success(List([Tuple([Str(CString(name)), conv(a).value]), Tuple([Str(CString(name)), conv(b).value])]))
  {
    var bins := [AsBin(name, a), AsBin(name, b)];
    BinPairsInOrder(bins, conv);
    var pairs := BinPairs(bins, conv).value;
    assert pairs == [pairs[0], pairs[1]];
  }

  /** `metadata_to_pyobject`: the dictionary `{"ttl": ..., "gen": ...}` of a
      record. */
  function MetadataToPy<V>(rec: Option<AsRecord<V>>): (r: Result<PyObj>)
    ensures rec.None? <==> r.Failure?
    ensures r.Success? ==> (r.value.Dict?
      && DictGet(r.value.entries, "ttl") == Some(Int(rec.value.ttl))
      && DictGet(r.value.entries, "gen") == Some(Int(rec.value.gen)))
  {
    if rec.None? then Failure(ClientError(NullRecord))
    else
      assert Ascii("ttl")[0] != Ascii("gen")[0];
      Success(Dict([(Str(Ascii("ttl")), Int(rec.value.ttl)), (Str(Ascii("gen")), Int(rec.value.gen))]))
  }

  // ---------------------------------------------------------------------
  // check_for_meta

  const TtlNotInt: string := "Ttl should be an int or long"
  const TtlTooLarge: string := "integer value for ttl exceeds sys.maxsize"
  const GenNotInt: string := "Generation should be an int or long"
  const GenTooLarge: string := "integer value for gen exceeds sys.maxsize"
  const MetaNotDict: string := "Metadata should be of type dictionary"

  /** The status `check_for_meta` returns and the `ttl` and `gen` it leaves
      in the operations. */
  datatype MetaResult = MetaResult(status: Status, ttl: int, gen: int)

  /** What `check_for_meta` does to operations holding `ttl` and `gen`, for
      metadata `meta` (`None` is a NULL pointer): the ttl is examined before
      the generation, and each is stored as soon as it is accepted. */
  function MetaOutcome(meta: Option<PyObj>, ttl: int, gen: int): (r: MetaResult)
    requires 0 <= ttl < 0x1_0000_0000 && 0 <= gen < 0x1_0000
    ensures 0 <= r.ttl < 0x1_0000_0000 && 0 <= r.gen < 0x1_0000
    ensures r.status == Ok || r.status.code == ErrParam
    ensures (meta.None? || meta == Some(PyNone)) ==> r == MetaResult(Ok, ttl, gen)
    ensures meta.Some? && !meta.value.Dict? && meta.value != PyNone ==> r == MetaResult(ParamError(MetaNotDict), ttl, gen)
  {
    if meta.Some? && meta.value.Dict? then
      var pyGen := DictGet(meta.value.entries, "gen");
      var pyTtl := DictGet(meta.value.entries, "ttl");
      if pyTtl.Some? && !IsInt(pyTtl.value) then MetaResult(ParamError(TtlNotInt), ttl, gen)
      else if pyTtl.Some? && AsLong(pyTtl.value).None? then MetaResult(ParamError(TtlTooLarge), ttl, gen)
      else
        var newTtl := if pyTtl.Some? then ToUint32(AsLong(pyTtl.value).value) else ttl;
        if pyGen.Some? && !IsInt(pyGen.value) then MetaResult(ParamError(GenNotInt), newTtl, gen)
        else if pyGen.Some? && AsLong(pyGen.value).None? then MetaResult(ParamError(GenTooLarge), newTtl, gen)
        else MetaResult(Ok, newTtl, if pyGen.Some? then ToUint16(AsLong(pyGen.value).value) else gen)
    else if meta.Some? && meta.value != PyNone then MetaResult(ParamError(MetaNotDict), ttl, gen)
    else MetaResult(Ok, ttl, gen)
  }

  /** The part of an `as_operations` that metadata sets: a 32-bit ttl and a
      16-bit generation. */
  class Operations {
    var ttl: int
    var gen: int

    predicate Valid()
      reads this
    {
      0 <= ttl < 0x1_0000_0000 && 0 <= gen < 0x1_0000
    }

    /** `as_operations_inita` starts both at zero. */
    constructor ()
      ensures Valid() && ttl == 0 && gen == 0
    {
      ttl := 0;
      gen := 0;
    }

    /** `check_for_meta`. */
    method CheckForMeta(meta: Option<PyObj>) returns (status: Status)
      requires Valid()
      modifies this
      ensures Valid()
      ensures MetaResult(status, ttl, gen) == MetaOutcome(meta, old(ttl), old(gen))
    {
      if meta.Some? && meta.value.Dict? {
        var pyGen := DictGet(meta.value.entries, "gen");
        var pyTtl := DictGet(meta.value.entries, "ttl");
        if pyTtl.Some? {
          if !IsInt(pyTtl.value) {
            return ParamError(TtlNotInt);
          }
          var n := AsLong(pyTtl.value);
          if n.None? {
            return ParamError(TtlTooLarge);
          }
          ttl := ToUint32(n.value);
        }
        if pyGen.Some? {
          if !IsInt(pyGen.value) {
            return ParamError(GenNotInt);
          }
          var n := AsLong(pyGen.value);
          if n.None? {
            return ParamError(GenTooLarge);
          }
          gen := ToUint16(n.value);
        }
      } else if meta.Some? && meta.value != PyNone {
        return ParamError(MetaNotDict);
      }
      return Ok;
    }
  }

  /** Metadata read from a record and handed back sets the same ttl and
      generation. */
  lemma MetadataRoundTrip<V>(rec: AsRecord<V>, ttl: int, gen: int)
    requires 0 <= rec.ttl < 0x1_0000_0000 && 0 <= rec.gen < 0x1_0000
    requires 0 <= ttl < 0x1_0000_0000 && 0 <= gen < 0x1_0000
    ensures MetaOutcome(Some(MetadataToPy(Some(rec)).value), ttl, gen) == MetaResult(Ok, rec.ttl, rec.gen)
  {
  }

  /** A ttl that is not an int is refused before the generation is looked
      at, and nothing is stored. */
  lemma TtlCheckedFirst(ttlValue: PyObj, genValue: PyObj, ttl: int, gen: int)
    requires !IsInt(ttlValue)
    requires 0 <= ttl < 0x1_0000_0000 && 0 <= gen < 0x1_0000
    ensures MetaOutcome(Some(Dict([(Str(Ascii("gen")), genValue), (Str(Ascii("ttl")), ttlValue)])), ttl, gen)
      == MetaResult(ParamError(TtlNotInt), ttl, gen)
  {
    var es := [(Str(Ascii("gen")), genValue), (Str(Ascii("ttl")), ttlValue)];
    assert Ascii("ttl")[0] != Ascii("gen")[0];
    assert DictGet(es, "ttl") == DictGet(es[1..], "ttl") == Some(ttlValue);
  }

  /** An accepted ttl is stored even when the generation is then refused. */
  lemma TtlKeptWhenGenRefused(t: int, genValue: PyObj, ttl: int, gen: int)
    requires InInt64(t) && !IsInt(genValue)
    requires 0 <= ttl < 0x1_0000_0000 && 0 <= gen < 0x1_0000
    ensures MetaOutcome(Some(Dict([(Str(Ascii("ttl")), Int(t)), (Str(Ascii("gen")), genValue)])), ttl, gen)
      == MetaResult(ParamError(GenNotInt), ToUint32(t), gen)
  {
    var es := [(Str(Ascii("ttl")), Int(t)), (Str(Ascii("gen")), genValue)];
    assert Ascii("ttl")[0] != Ascii("gen")[0];
    assert DictGet(es, "gen") == DictGet(es[1..], "gen") == Some(genValue);
  }

  /** Any ttl and generation within 64 bits are accepted and stored cut to
      their C widths, 32 and 16 bits. */
  lemma MetaStoredTruncated(t: int, g: int, ttl: int, gen: int)
    requires InInt64(t) && InInt64(g)
    requires 0 <= ttl < 0x1_0000_0000 && 0 <= gen < 0x1_0000
    ensures MetaOutcome(Some(Dict([(Str(Ascii("ttl")), Int(t)), (Str(Ascii("gen")), Int(g))])), ttl, gen)
      == MetaResult(Ok, ToUint32(t), ToUint16(g))
  {
    var es := [(Str(Ascii("ttl")), Int(t)), (Str(Ascii("gen")), Int(g))];
    assert Ascii("ttl")[0] != Ascii("gen")[0];
    assert DictGet(es, "gen") == DictGet(es[1..], "gen") == Some(Int(g));
  }

  /** For instance, -1 becomes the largest ttl and 2^16 + 3 the
      generation 3. */
  lemma MetaTruncated(ttl: int, gen: int)
    requires 0 <= ttl < 0x1_0000_0000 && 0 <= gen < 0x1_0000
    ensures MetaOutcome(Some(Dict([(Str(Ascii("ttl")), Int(-1)), (Str(Ascii("gen")), Int(0x1_0003))])), ttl, gen)
      == MetaResult(Ok, 0xFFFF_FFFF, 3)
  {
    MetaStoredTruncated(-1, 0x1_0003, ttl, gen);
  }

  /** A dictionary without `"ttl"` leaves the stored ttl as it was. */
  lemma AbsentTtlKept(g: int, ttl: int, gen: int)
    requires InInt64(g)
    requires 0 <= ttl < 0x1_0000_0000 && 0 <= gen < 0x1_0000
    ensures MetaOutcome(Some(Dict([(Str(Ascii("gen")), Int(g))])), ttl, gen) == MetaResult(Ok, ttl, ToUint16(g))
  {
    var es := [(Str(Ascii("gen")), Int(g))];
    assert Ascii("ttl")[0] != Ascii("gen")[0];
    assert DictGet(es, "ttl") == DictGet(es[1..], "ttl") == None;
  }

  // ---------------------------------------------------------------------
  // Bin names

  /** `AS_BIN_NAME_MAX_SIZE` and `AS_BIN_NAME_MAX_LEN` of the C client: the
      size of the bin-name buffer and the longest name it holds. */
  const BinNameMaxSize: int := 15
  const BinNameMaxLen: int := BinNameMaxSize - 1

  const BinNameNotString: string := "Bin name should be of type string"
  const BinNameTooLong: string := "A bin name should not exceed 14 characters limit"

  /** `bin_strict_type_checking`: the name a `str` or `bytearray` bin names
      (`None` when no bin object is given, which leaves the name unset); with
      strict types on, a name longer than the limit is refused. */
  function BinStrictTypeChecking(pyBin: Option<PyObj>, strictTypes: bool): (r: Result<Option<seq<byte>>>)
    ensures pyBin.None? ==> r == Success(None)
    ensures r.Success? <==> (pyBin.None?
      || ((pyBin.value.Str? || pyBin.value.ByteArray?) && (!strictTypes || |CString(pyBin.value.bytes)| <= BinNameMaxLen)))
    ensures r.Success? && pyBin.Some? ==> r.value == Some(CString(pyBin.value.bytes))
    ensures r.Failure? ==>
      r.error.code == if pyBin.value.Str? || pyBin.value.ByteArray? then ErrBinName else ErrParam
  {
    if pyBin.None? then Success(None)
    else if !(pyBin.value.Str? || pyBin.value.ByteArray?) then Failure(ParamError(BinNameNotString))
    else
      var name := CString(pyBin.value.bytes);
      if strictTypes && |name| > BinNameMaxLen then Failure(Status(ErrBinName, BinNameTooLong))
      else Success(Some(name))
  }

  const RecordBinNameNotString: string := "A bin name must be a string or unicode string."

  /** The bin-name check `pyobject_to_record` makes for each key of the
      record dictionary: a `unicode` name is encoded to UTF-8, a `str` name
      taken as it is, and with strict types on the name must fit the
      limit. */
  function RecordBinName(key: PyObj, strictTypes: bool): (r: Result<seq<byte>>)
    ensures r.Success? <==> (key.Str? || key.Unicode?) && (!strictTypes || |TextBytes(key)| <= BinNameMaxLen)
    ensures r.Success? ==> r.value == TextBytes(key)
    ensures r.Failure? ==> r.error.code == if key.Str? || key.Unicode? then ErrBinName else ErrClient
  {
    if !(key.Str? || key.Unicode?) then Failure(ClientError(RecordBinNameNotString))
    else
      var name := TextBytes(key);
      if strictTypes && |name| > BinNameMaxLen then Failure(Status(ErrBinName, BinNameTooLong))
      else Success(name)
  }

  /** A name accepted under strict types fits the C client's 15-byte bin
      name buffer with its NUL, and holds no NUL itself. */
  lemma StrictNamesFitBuffer(pyBin: PyObj, key: PyObj)
    ensures BinStrictTypeChecking(Some(pyBin), true).Success? ==>
      (|BinStrictTypeChecking(Some(pyBin), true).value.value| < BinNameMaxSize
      && 0 !in BinStrictTypeChecking(Some(pyBin), true).value.value)
    ensures RecordBinName(key, true).Success? ==>
      (|RecordBinName(key, true).value| < BinNameMaxSize && 0 !in RecordBinName(key, true).value)
  {
    if pyBin.Str? || pyBin.ByteArray? {
      CStringNulFree(pyBin.bytes);
    }
    if key.Str? {
      CStringNulFree(key.bytes);
    } else if key.Unicode? {
      CStringNulFree(Utf8(key.text));
    }
  }

  /** The two checks disagree: a `unicode` name passes the record check but
      not `bin_strict_type_checking`, a `bytearray` name the other way round,
      and a name of another type is a parameter error for one and a client
      error for the other. */
  lemma BinNameChecksDisagree(text: string, bytes: seq<byte>, other: PyObj, strictTypes: bool)
    requires |Utf8(text)| <= BinNameMaxLen && |bytes| <= BinNameMaxLen
    requires !(other.Str? || other.Unicode? || other.ByteArray?)
    ensures RecordBinName(Unicode(text), strictTypes).Success?
    ensures BinStrictTypeChecking(Some(Unicode(text)), strictTypes) == Failure(ParamError(BinNameNotString))
    ensures RecordBinName(ByteArray(bytes), strictTypes) == Failure(ClientError(RecordBinNameNotString))
    ensures BinStrictTypeChecking(Some(ByteArray(bytes)), strictTypes).Success?
    ensures BinStrictTypeChecking(Some(other), strictTypes).error.code == ErrParam
    ensures RecordBinName(other, strictTypes).error.code == ErrClient
  {
  }
}
