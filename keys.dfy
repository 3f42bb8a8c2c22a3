/** Record keys across the native boundary: `pyobject_to_key` validates a
    Python key (a tuple `(ns, set, key[, digest])` or a dictionary with the
    same names) into an `as_key`, and `key_to_pyobject` turns an `as_key`
    back into the 4-tuple the client returns. */
module Keys {
  import opened Py
  import opened Errors

  const DigestSize: int := 20

  /** The user key an `as_key` carries: an integer, a string or raw bytes. */
  datatype KeyValue = IntegerKey(n: int) | StringKey(s: seq<byte>) | RawKey(bytes: seq<byte>)

  /** What an `as_key` holds once initialised: the namespace and set strings
      (an absent set is the empty string), the user key when one was given
      and the digest when it was given instead. */
  datatype AsKey = AsKey(ns: seq<byte>, setName: seq<byte>, value: Option<KeyValue>, digest: Option<seq<byte>>)

  /** The four components of a key, each absent when a dictionary lacks it. */
  datatype KeyParts = KeyParts(ns: Option<PyObj>, setName: Option<PyObj>, key: Option<PyObj>, digest: Option<PyObj>)

  const BadTupleSize: string := "key tuple must be (Namespace, Set, Key) or (Namespace, Set, None, Digest)"

  /** The components of a key tuple or key dictionary. */
  function KeyPartsOf(t: PyObj): (r: Result<KeyParts>)
    ensures r.Success? <==> (t.Tuple? && 3 <= |t.items| <= 4) || t.Dict?
    ensures t.Tuple? && !(3 <= |t.items| <= 4) ==> r == Failure(ParamError(BadTupleSize))
    ensures !t.Tuple? && !t.Dict? ==> r == Failure(ParamError("key is invalid"))
    ensures r.Success? && t.Tuple? ==>
      && r.value.ns == Some(t.items[0]) && r.value.setName == Some(t.items[1]) && r.value.key == Some(t.items[2])
      && r.value.digest == (if |t.items| == 4 then Some(t.items[3]) else None)
    ensures t.Dict? ==> r == Success(KeyParts(DictGet(t.entries, "ns"), DictGet(t.entries, "set"),
                                              DictGet(t.entries, "key"), DictGet(t.entries, "digest")))
  {
    if t.Tuple? then
      if |t.items| < 3 || |t.items| > 4 then Failure(ParamError(BadTupleSize))
      else Success(KeyParts(Some(t.items[0]), Some(t.items[1]), Some(t.items[2]),
                            if |t.items| == 4 then Some(t.items[3]) else None))
    else if t.Dict? then
      Success(KeyParts(DictGet(t.entries, "ns"), DictGet(t.entries, "set"),
                       DictGet(t.entries, "key"), DictGet(t.entries, "digest")))
    else Failure(ParamError("key is invalid"))
  }

  /** The namespace must be present and a `str`. */
  function NamespaceOf(ns: Option<PyObj>): (r: Result<seq<byte>>)
    ensures r.Success? <==> ns.Some? && ns.value.Str?
    ensures r.Success? ==> r.value == CString(ns.value.bytes)
    ensures r.Failure? ==> r.error.code == ErrParam
  {
    if ns.None? then Failure(ParamError("namespace is required"))
    else if !ns.value.Str? then Failure(ParamError("namespace must be a string"))
    else Success(CString(ns.value.bytes))
  }

  /** The set may be absent or `None`; otherwise it must be a `str` or a
      `unicode`, the latter sent as UTF-8. */
  function SetOf(setName: Option<PyObj>): (r: Result<seq<byte>>)
    ensures r.Success? <==> setName.None? || setName.value == PyNone || setName.value.Str? || setName.value.Unicode?
    ensures r.Success? && (setName.None? || setName.value == PyNone) ==> r.value == []
    ensures r.Success? && setName.Some? && setName.value != PyNone ==> r.value == TextBytes(setName.value)
    ensures r.Failure? ==> r == Failure(ParamError("set must be a string"))
  {
    if setName.None? || setName.value == PyNone then Success([])
    else if setName.value.Str? then Success(CString(setName.value.bytes))
    else if setName.value.Unicode? then Success(CString(Utf8(setName.value.text)))
    else Failure(ParamError("set must be a string"))
  }

  /** The user key, checked in the source's order: `unicode`, `str`, `int`
      (which takes in `bool`), `bytearray`. The later `bytes` branch is
      never reached, `bytes` being `str`. A bytearray's size is read as a
      `uint32_t`. */
  function KeyValueOf(k: PyObj): (r: Result<KeyValue>)
    ensures r.Failure? ==> r.error.code == ErrParam
    ensures r.Success? <==>
      || k.Unicode? || k.Str?
      || (IsInt(k) && InInt64(IntValue(k)))
      || (k.ByteArray? && ToUint32(|k.bytes|) != 0)
    ensures (k.Str? || k.Unicode?) ==> r == Success(StringKey(TextBytes(k)))
    ensures r.Success? && r.value.IntegerKey? ==> IsInt(k) && r.value.n == IntValue(k)
    ensures r.Success? && r.value.RawKey? ==> k.ByteArray? && r.value.bytes == k.bytes[..ToUint32(|k.bytes|)]
  {
    if k.Unicode? then Success(StringKey(CString(Utf8(k.text))))
    else if k.Str? then Success(StringKey(CString(k.bytes)))
    else if IsInt(k) then
      if InInt64(IntValue(k)) then Success(IntegerKey(IntValue(k)))
      else Failure(ParamError("integer value for KEY exceeds sys.maxsize"))
    else if k.ByteArray? then
      var size := ToUint32(|k.bytes|);
      if size == 0 then Failure(ParamError("Byte array size cannot be 0"))
      else Success(RawKey(k.bytes[..size]))
    else Failure(ParamError("key is invalid"))
  }

  /** The digest must be a bytearray whose size, read as a `uint32_t`, is 20;
      its first 20 bytes are copied. */
  function DigestOf(d: PyObj): (r: Result<seq<byte>>)
    ensures r.Success? <==> d.ByteArray? && ToUint32(|d.bytes|) == DigestSize
    ensures r.Success? ==> |r.value| == DigestSize && r.value == d.bytes[..DigestSize]
    ensures r.Failure? ==> r.error.code == ErrParam
  {
    if d.ByteArray? then
      var size := ToUint32(|d.bytes|);
      if size != DigestSize then
        Failure(ParamError("digest size is invalid. should be 20 bytes, but received " + SignedDecimal(ToInt32(size))))
      else Success(d.bytes[..DigestSize])
    else Failure(ParamError("digest is invalid. expected a bytearray"))
  }

  /** `pyobject_to_key`. Every failure is a parameter error, and a key that
      is accepted carries either its user key or its digest, never both. */
  function PyobjectToKey(t: PyObj): (r: Result<AsKey>)
    ensures r.Failure? ==> r.error.code == ErrParam
    ensures r.Success? ==> (r.value.value.Some? <==> r.value.digest.None?)
  {
    match KeyPartsOf(t)
    case Failure(e) => Failure(e)
    case Success(parts) =>
      match NamespaceOf(parts.ns)
      case Failure(e) => Failure(e)
      case Success(ns) =>
        match SetOf(parts.setName)
        case Failure(e) => Failure(e)
        case Success(setName) =>
          if parts.key.Some? && parts.key.value != PyNone then
            match KeyValueOf(parts.key.value)
            case Failure(e) => Failure(e)
            case Success(v) => Success(AsKey(ns, setName, Some(v), None))
          else if parts.digest.Some? && parts.digest.value != PyNone then
            match DigestOf(parts.digest.value)
            case Failure(e) => Failure(e)
            case Success(d) => Success(AsKey(ns, setName, None, Some(d)))
          else Failure(ParamError("either key or digest is required"))
  }

  // ---------------------------------------------------------------------
  // key_to_pyobject

  /** A C string as a Python `str`, or `None` when empty. */
  function StrOrNone(s: seq<byte>): (r: PyObj)
    ensures r == PyNone <==> CString(s) == []
  {
    if |CString(s)| > 0 then Str(CString(s)) else PyNone
  }

  function KeyValueToPy(v: KeyValue): PyObj
  {
    match v
    case IntegerKey(n) => Int(n)
    case StringKey(s) => Str(CString(s))
    case RawKey(bs) => ByteArray(bs)
  }

  /** `key_to_pyobject`: a NULL key is a client error; otherwise the result
      is always the 4-tuple `(ns, set, key, digest)`, with `None` for an
      empty namespace or set, a missing user key and a missing digest. */
  function KeyToPy(key: Option<AsKey>): (r: Result<PyObj>)
    ensures r.Success? <==> key.Some?
    ensures key.None? ==> r == Failure(ClientError("key is null"))
    ensures r.Success? ==> r.value.Tuple? && |r.value.items| == 4
    ensures r.Success? ==> (r.value.items[0] == PyNone <==> CString(key.value.ns) == [])
    ensures r.Success? ==> (r.value.items[1] == PyNone <==> CString(key.value.setName) == [])
    ensures r.Success? ==> (r.value.items[3] == PyNone <==> key.value.digest.None?)
  {
    if key.None? then Failure(ClientError("key is null"))
    else
      var k := key.value;
      Success(Tuple([
        StrOrNone(k.ns),
        StrOrNone(k.setName),
        if k.value.Some? then KeyValueToPy(k.value.value) else PyNone,
        if k.digest.Some? then ByteArray(k.digest.value) else PyNone]))
  }

  // ---------------------------------------------------------------------
  // properties

  /** The keys `key_to_pyobject` can hand back and `pyobject_to_key` read
      again unchanged: a non-empty namespace, strings free of NUL, exactly
      one of a user key or a 20-byte digest, an integer within 64 bits and
      a non-empty byte key whose size fits 32 bits. */
  predicate Canonical(k: AsKey)
  {
    && |k.ns| > 0 && 0 !in k.ns && 0 !in k.setName
    && (k.value.Some? <==> k.digest.None?)
    && (k.digest.Some? ==> |k.digest.value| == DigestSize)
    && (k.value.Some? ==> match k.value.value
        case IntegerKey(n) => InInt64(n)
        case StringKey(s) => 0 !in s
        case RawKey(bs) => 0 < |bs| < 0x1_0000_0000)
  }

  /** `pyobject_to_key` inverts `key_to_pyobject` on canonical keys. */
  lemma KeyRoundTrip(k: AsKey)
    requires Canonical(k)
    ensures KeyToPy(Some(k)).Success?
    ensures PyobjectToKey(KeyToPy(Some(k)).value) == Success(k)
  {
    var t := KeyToPy(Some(k)).value;
    CStringOfNulFree(k.ns);
    CStringOfNulFree(k.setName);
    assert KeyPartsOf(t) == Success(KeyParts(Some(t.items[0]), Some(t.items[1]), Some(t.items[2]), Some(t.items[3])));
    assert NamespaceOf(Some(t.items[0])) == Success(k.ns);
    assert SetOf(Some(t.items[1])) == Success(k.setName);
    if k.value.Some? {
      assert KeyValueOf(t.items[2]) == Success(k.value.value) by {
        match k.value.value
        case IntegerKey(n) =>
        case StringKey(s) => CStringOfNulFree(s);
        case RawKey(bs) => assert bs[..|bs|] == bs;
      }
    } else {
      assert t.items[2] == PyNone;
      assert k.digest.value[..DigestSize] == k.digest.value;
      assert DigestOf(t.items[3]) == Success(k.digest.value);
    }
  }

  /** A 3-tuple of plain strings comes back as the 4-tuple with no digest. */
  lemma StringKeyTupleComesBack(ns: seq<byte>, setName: seq<byte>, key: seq<byte>)
    requires |ns| > 0 && |setName| > 0
    requires 0 !in ns && 0 !in setName && 0 !in key
    ensures PyobjectToKey(Tuple([Str(ns), Str(setName), Str(key)])) == Success(AsKey(ns, setName, Some(StringKey(key)), None))
    ensures KeyToPy(Some(AsKey(ns, setName, Some(StringKey(key)), None))) == Success(Tuple([Str(ns), Str(setName), Str(key), PyNone]))
  {
    CStringOfNulFree(ns);
    CStringOfNulFree(setName);
    CStringOfNulFree(key);
  }

  /** A user key other than `None` takes precedence: the digest is then not
      looked at, not even for its type. */
  lemma KeyBeatsDigest(ns: PyObj, setName: PyObj, key: PyObj, digest: PyObj)
    requires key != PyNone
    ensures PyobjectToKey(Tuple([ns, setName, key, digest])) == PyobjectToKey(Tuple([ns, setName, key]))
  {
  }

  /** Without a user key the digest decides: a 20-byte bytearray gives a
      digest key, anything else other than `None` is an error, and with
      neither the key is refused. */
  lemma DigestOnlyKeys(ns: seq<byte>, setName: PyObj, digest: PyObj)
    requires setName == PyNone || setName.Str? || setName.Unicode?
    ensures var r := PyobjectToKey(Tuple([Str(ns), setName, PyNone, digest]));
      && (digest == PyNone ==> r == Failure(ParamError("either key or digest is required")))
      && (digest != PyNone ==> (r.Success? <==> digest.ByteArray? && ToUint32(|digest.bytes|) == DigestSize))
      && (r.Success? ==> r.value.digest == Some(digest.bytes[..DigestSize]) && r.value.value.None?)
  {
  }

  /** An empty bytearray is not a key. */
  lemma EmptyByteArrayKeyRefused(ns: seq<byte>, setName: PyObj)
    requires setName == PyNone || setName.Str? || setName.Unicode?
    ensures PyobjectToKey(Tuple([Str(ns), setName, ByteArray([])])) == Failure(ParamError("Byte array size cannot be 0"))
  {
  }

  /** A dictionary with the entries ns, set and key names the same record
      as the tuple of those three values. */
  lemma DictKeyMatchesTuple(ns: PyObj, setName: PyObj, key: PyObj)
    ensures PyobjectToKey(Dict([(Str(Ascii("ns")), ns), (Str(Ascii("set")), setName), (Str(Ascii("key")), key)]))
         == PyobjectToKey(Tuple([ns, setName, key]))
  {
    var es := [(Str(Ascii("ns")), ns), (Str(Ascii("set")), setName), (Str(Ascii("key")), key)];
    assert Ascii("set")[0] != Ascii("key")[0];
    assert DictGet(es, "ns") == Some(ns);
    assert DictGet(es, "set") == DictGet(es[1..], "set") == Some(setName);
    assert DictGet(es, "key") == DictGet(es[1..], "key") == DictGet(es[2..], "key") == Some(key);
    assert DictGet(es[3..], "digest") == None;
    assert DictGet(es, "digest") == DictGet(es[1..], "digest") == DictGet(es[2..], "digest") == None;
  }

  /** The namespace must be a `str`: a `unicode` namespace is refused even
      though a `unicode` setName is accepted. */
  lemma UnicodeNamespaceRefused(ns: string, setName: string, key: PyObj)
    ensures PyobjectToKey(Tuple([Unicode(ns), Unicode(setName), key])) == Failure(ParamError("namespace must be a string"))
  {
  }
}
