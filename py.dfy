/** Python values as the helper builders and the native glue see them.

    A `PyObj` is a Python object reduced to what the client code inspects:
    its type check (`PyString_Check`, `PyUnicode_Check`, ...), its contents,
    its truthiness and, for plain objects, the attributes `getattr` finds.
    The native code is read as built for Python 2: `Str` is the byte
    string type `str`, which `PyString_Check` and `PyBytes_Check` both
    accept; `Unicode` is the text type `PyUnicode_Check` accepts; `Int`
    is what `PyInt_Check` and `PyLong_Check` accept, `Bool` a subclass
    of it. */
module Py {

  datatype Option<T> = None | Some(value: T)

  type byte = x: int | 0 <= x < 256

  datatype PyObj =
    | PyNone
    | Bool(b: bool)
    | Int(i: int)
    | Str(bytes: seq<byte>)
    | Unicode(text: string)
    | ByteArray(bytes: seq<byte>)
    | List(items: seq<PyObj>)
    | Tuple(items: seq<PyObj>)
    | Dict(entries: seq<(PyObj, PyObj)>)
      /** Any other object (a float, an instance of a helper class, ...):
          the attributes `getattr` finds on it and its truth value. */
    | Object(attrs: map<string, PyObj>, truthy: bool)

  /** Python truth testing (`if x:`). */
  predicate Truthy(o: PyObj)
  {
    match o
    case PyNone => false
    case Bool(b) => b
    case Int(i) => i != 0
    case Str(bs) => |bs| > 0
    case Unicode(t) => |t| > 0
    case ByteArray(bs) => |bs| > 0
    case List(xs) => |xs| > 0
    case Tuple(xs) => |xs| > 0
    case Dict(es) => |es| > 0
    case Object(_, t) => t
  }

  /** `PyInt_Check`: `bool` is a subclass of `int`. */
  predicate IsInt(o: PyObj)
  {
    o.Int? || o.Bool?
  }

  /** The integer an int-like object stands for. */
  function IntValue(o: PyObj): int
    requires IsInt(o)
  {
    if o.Bool? then (if o.b then 1 else 0) else o.i
  }

  const Int64Min: int := -0x8000_0000_0000_0000
  const Int64Max: int := 0x7FFF_FFFF_FFFF_FFFF

  predicate InInt64(n: int)
  {
    Int64Min <= n <= Int64Max
  }

  /** `PyInt_AsLong` / `PyLong_AsLong`: the value of an int that fits a C
      `long` (64 bits); `None` stands for the raised OverflowError or
      TypeError. */
  function AsLong(o: PyObj): (r: Option<int>)
    ensures r.Some? <==> IsInt(o) && InInt64(IntValue(o))
    ensures r.Some? ==> r.value == IntValue(o)
  {
    if IsInt(o) && InInt64(IntValue(o)) then Some(IntValue(o)) else None
  }

  /** `PyLong_AsUnsignedLong`: the value of a non-negative int below 2^64. */
  function AsUnsignedLong(o: PyObj): (r: Option<int>)
    ensures r.Some? <==> IsInt(o) && 0 <= IntValue(o) < 0x1_0000_0000_0000_0000
    ensures r.Some? ==> r.value == IntValue(o)
  {
    if IsInt(o) && 0 <= IntValue(o) < 0x1_0000_0000_0000_0000 then Some(IntValue(o)) else None
  }

  /** The C cast `(uint32_t)` of a C `long`. */
  function ToUint32(n: int): (r: int)
    ensures 0 <= r < 0x1_0000_0000
    ensures 0 <= n < 0x1_0000_0000 ==> r == n
  {
    n % 0x1_0000_0000
  }

  /** The C cast `(uint16_t)` of a C `long`. */
  function ToUint16(n: int): (r: int)
    ensures 0 <= r < 0x1_0000
    ensures 0 <= n < 0x1_0000 ==> r == n
  {
    n % 0x1_0000
  }

  /** Conversion of a C `long` to a 32-bit C `int` (two's complement wrap). */
  function ToInt32(n: int): (r: int)
    ensures -0x8000_0000 <= r < 0x8000_0000
    ensures (r - n) % 0x1_0000_0000 == 0
    ensures -0x8000_0000 <= n < 0x8000_0000 ==> r == n
  {
    var u := n % 0x1_0000_0000;
    if u < 0x8000_0000 then u else u - 0x1_0000_0000
  }

  // ---------------------------------------------------------------------
  // C strings

  /** `strlen`: the index of the first NUL, or the whole length when there
      is none. */
  function StrLen(bs: seq<byte>): (r: nat)
    ensures r <= |bs|
    ensures r < |bs| ==> bs[r] == 0
  {
    if bs == [] || bs[0] == 0 then 0 else 1 + StrLen(bs[1..])
  }

  /** What C sees of a byte buffer read as a NUL-terminated string: the
      bytes before the first NUL (`strlen`, `strcpy`, `strdup`). */
  function CString(bs: seq<byte>): (r: seq<byte>)
    ensures |r| <= |bs| && r == bs[..|r|]
    ensures |r| < |bs| ==> bs[|r|] == 0
  {
    bs[..StrLen(bs)]
  }

  /** No byte before the first NUL is a NUL. */
  lemma {:induction false} StrLenNulFree(bs: seq<byte>)
    ensures 0 !in bs[..StrLen(bs)]
  {
    if bs != [] && bs[0] != 0 {
      StrLenNulFree(bs[1..]);
      assert bs[..StrLen(bs)] == [bs[0]] + bs[1..][..StrLen(bs[1..])];
    }
  }

  /** A C string holds no NUL. */
  lemma CStringNulFree(bs: seq<byte>)
    ensures 0 !in CString(bs)
  {
    StrLenNulFree(bs);
  }

  lemma {:induction false} StrLenOfNulFree(bs: seq<byte>)
    requires 0 !in bs
    ensures StrLen(bs) == |bs|
  {
    if bs != [] {
      assert bs[0] in bs;
      assert forall b :: b in bs[1..] ==> b in bs;
      StrLenOfNulFree(bs[1..]);
    }
  }

  /** A buffer without NUL is read whole. */
  lemma CStringOfNulFree(bs: seq<byte>)
    requires 0 !in bs
    ensures CString(bs) == bs
  {
    StrLenOfNulFree(bs);
  }

  /** UTF-8 encoding of a Unicode scalar value. */
  function Utf8Char(c: char): (r: seq<byte>)
    ensures 1 <= |r| <= 4
    ensures r[0] == 0 <==> c as int == 0
  {
    var n := c as int;
    if n < 0x80 then [n]
    else if n < 0x800 then [0xC0 + n / 0x40, 0x80 + n % 0x40]
    else if n < 0x1_0000 then [0xE0 + n / 0x1000, 0x80 + (n / 0x40) % 0x40, 0x80 + n % 0x40]
    else [0xF0 + n / 0x4_0000, 0x80 + (n / 0x1000) % 0x40, 0x80 + (n / 0x40) % 0x40, 0x80 + n % 0x40]
  }

  /** Only the NUL character encodes to a sequence holding a NUL byte. */
  lemma Utf8CharNulFree(c: char)
    requires c as int != 0
    ensures 0 !in Utf8Char(c)
  {
  }

  /** `PyUnicode_AsUTF8String`. */
  function Utf8(s: string): (r: seq<byte>)
    ensures |r| >= |s|
  {
    if s == [] then [] else Utf8Char(s[0]) + Utf8(s[1..])
  }

  lemma {:induction false} Utf8NulFree(s: string)
    requires '\0' !in s
    ensures 0 !in Utf8(s)
  {
    if s != [] {
      assert s[0] in s;
      assert forall c :: c in s[1..] ==> c in s;
      Utf8CharNulFree(s[0]);
      Utf8NulFree(s[1..]);
    }
  }

  /** The C string behind a `str` or `unicode` object, as
      `PyString_AsString` or `PyBytes_AsString(PyUnicode_AsUTF8String(o))`
      hand it to C. */
  function TextBytes(o: PyObj): seq<byte>
    requires o.Str? || o.Unicode?
  {
    if o.Str? then CString(o.bytes) else CString(Utf8(o.text))
  }

  /** `%d` formatting of a non-negative integer. */
  function Decimal(n: nat): (r: string)
    ensures 1 <= |r|
    ensures forall i :: 0 <= i < |r| ==> '0' <= r[i] <= '9'
  {
    if n < 10 then ["0123456789"[n]] else Decimal(n / 10) + ["0123456789"[n % 10]]
  }

  /** `%d` formatting of a C `int`. */
  function SignedDecimal(n: int): (r: string)
    ensures 1 <= |r|
    ensures r[0] == '-' <==> n < 0
    ensures n < 0 ==> r[1..] == Decimal(-n)
    ensures 0 <= n ==> r == Decimal(n)
  {
    if n < 0 then "-" + Decimal(-n) else Decimal(n)
  }

  // ---------------------------------------------------------------------
  // dictionaries and attributes

  /** Whether a dictionary key equals the string literal `name` (a `str`
      and a `unicode` holding the same ASCII text compare equal). */
  predicate IsName(k: PyObj, name: string)
  {
    k == Unicode(name) || k == Str(Ascii(name))
  }

  /** The bytes of a C string literal. The names the client looks up are
      ASCII, so each character is its own byte (and its own UTF-8
      encoding). */
  function Ascii(name: string): (r: seq<byte>)
    ensures |r| == |name|
    ensures forall i :: 0 <= i < |name| && name[i] < 128 as char ==> r[i] == name[i] as int
  {
    seq(|name|, i requires 0 <= i < |name| => name[i] as int % 0x100)
  }

  /** `PyDict_GetItemString`: the value stored under `name`, if any. */
  function DictGet(entries: seq<(PyObj, PyObj)>, name: string): Option<PyObj>
  {
    if entries == [] then None
    else if IsName(entries[0].0, name) then Some(entries[0].1)
    else DictGet(entries[1..], name)
  }

  /** A lookup finds something exactly when some key matches, and then it
      finds the value of the first matching key. */
  lemma {:induction false} DictGetFirstMatch(entries: seq<(PyObj, PyObj)>, name: string)
    ensures DictGet(entries, name).Some? <==> exists i :: 0 <= i < |entries| && IsName(entries[i].0, name)
    ensures DictGet(entries, name).Some? ==>
      exists i :: 0 <= i < |entries| && IsName(entries[i].0, name) && entries[i].1 == DictGet(entries, name).value
        && (forall j :: 0 <= j < i ==> !IsName(entries[j].0, name))
  {
    if entries != [] && !IsName(entries[0].0, name) {
      DictGetFirstMatch(entries[1..], name);
      assert forall i :: 1 <= i < |entries| ==> entries[i] == entries[1..][i - 1];
      if DictGet(entries, name).Some? {
        var i :| 0 <= i < |entries[1..]| && IsName(entries[1..][i].0, name)
          && entries[1..][i].1 == DictGet(entries, name).value
          && (forall j :: 0 <= j < i ==> !IsName(entries[1..][j].0, name));
        assert IsName(entries[i + 1].0, name);
      }
    }
  }

  /** `PyObject_GetAttrString`: only plain objects have attributes here. */
  function GetAttr(o: PyObj, name: string): (r: Option<PyObj>)
    ensures r.Some? <==> o.Object? && name in o.attrs
    ensures r.Some? ==> r.value == o.attrs[name]
  {
    if o.Object? && name in o.attrs then Some(o.attrs[name]) else None
  }
}
