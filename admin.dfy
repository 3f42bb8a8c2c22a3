/** The user-administration conversions: role-name lists copied into
    fixed-size C string slots (`pyobject_to_strArray`) and privilege
    dictionaries parsed into `as_privilege` records
    (`pyobject_to_as_privileges`), each with the reverse conversion the
    client uses to report them back. */
module Admin {
  import opened Py
  import opened Errors

  // ---------------------------------------------------------------------
  // pyobject_to_strArray

  /** Why an item cannot be copied into a slot of `maxLen` bytes, if it
      cannot: it is not a string, or its C string does not leave room for
      the terminating NUL. */
  function StrItemError(item: PyObj, maxLen: int): (r: Option<Status>)
    ensures r.None? <==> (item.Str? || item.Unicode?) && |TextBytes(item)| < maxLen
    ensures r.Some? ==> r.value.code == ErrClient
  {
    if !(item.Str? || item.Unicode?) then Some(ClientError("Item is not a string"))
    else if |TextBytes(item)| < maxLen then None
    else Some(ClientError("String exceeds max length"))
  }

  /** The index of the first item that cannot be copied, or the number of
      items when all can. */
  function FirstBadItem(items: seq<PyObj>, maxLen: int): (r: nat)
    ensures r <= |items|
    ensures forall j :: 0 <= j < r ==> StrItemError(items[j], maxLen).None?
    ensures r < |items| ==> StrItemError(items[r], maxLen).Some?
  {
    if items == [] || StrItemError(items[0], maxLen).Some? then 0
    else 1 + FirstBadItem(items[1..], maxLen)
  }

  /** The status `pyobject_to_strArray` returns. */
  function StrArrayStatus(list: PyObj, maxLen: int): Status
  {
    if !list.List? then ClientError("not a list")
    else
      var stop := FirstBadItem(list.items, maxLen);
      if stop == |list.items| then Ok else StrItemError(list.items[stop], maxLen).value
  }

  /** The scan that stops at index `k` is the one `FirstBadItem` describes. */
  lemma {:induction false} FirstBadItemAt(items: seq<PyObj>, maxLen: int, k: nat)
    requires k <= |items|
    requires forall j :: 0 <= j < k ==> StrItemError(items[j], maxLen).None?
    requires k < |items| ==> StrItemError(items[k], maxLen).Some?
    ensures FirstBadItem(items, maxLen) == k
  {
    if k > 0 {
      FirstBadItemAt(items[1..], maxLen, k - 1);
    }
  }

  /** `pyobject_to_strArray`: copies the C string of each item of a list
      into `arr[i]`, stopping at the first item that is not a string or does
      not fit; the slots before it hold the copies and the others are left
      as they were. */
  method PyobjectToStrArray(list: PyObj, arr: array<seq<byte>>, maxLen: int) returns (status: Status)
    requires 0 <= maxLen < 0x1_0000_0000
    requires list.List? ==> |list.items| <= arr.Length
    modifies arr
    ensures status == StrArrayStatus(list, maxLen)
    ensures !list.List? ==> arr[..] == old(arr[..])
    ensures list.List? ==> forall i :: 0 <= i < FirstBadItem(list.items, maxLen) ==> arr[i] == TextBytes(list.items[i])
    ensures list.List? ==> forall i :: FirstBadItem(list.items, maxLen) <= i < arr.Length ==> arr[i] == old(arr[i])
  {
    if !list.List? {
      return ClientError("not a list");
    }
    var items := list.items;
    var i := 0;
    while i < |items|
      invariant 0 <= i <= |items|
      invariant forall j :: 0 <= j < i ==> StrItemError(items[j], maxLen).None?
      invariant forall j :: 0 <= j < i ==> arr[j] == TextBytes(items[j])
      invariant forall j :: i <= j < arr.Length ==> arr[j] == old(arr[j])
    {
      var error := StrItemError(items[i], maxLen);
      if error.Some? {
        FirstBadItemAt(items, maxLen, i);
        return error.value;
      }
      arr[i] := TextBytes(items[i]);
      i := i + 1;
    }
    FirstBadItemAt(items, maxLen, i);
    return Ok;
  }

  /** `strArray_to_pyobject`: the list of `str` objects read from the
      slots. */
  function StrArrayToPy(slots: seq<seq<byte>>): (r: PyObj)
    ensures r.List? && |r.items| == |slots|
    ensures forall i :: 0 <= i < |slots| ==> r.items[i] == Str(CString(slots[i]))
  {
    List(seq(|slots|, i requires 0 <= i < |slots| => Str(CString(slots[i]))))
  }

  /** Role names that fit their slots survive the trip back into slots. */
  lemma StrArrayRoundTrip(roles: seq<seq<byte>>, maxLen: int)
    requires forall i :: 0 <= i < |roles| ==> 0 !in roles[i] && |roles[i]| < maxLen
    ensures FirstBadItem(StrArrayToPy(roles).items, maxLen) == |roles|
    ensures StrArrayStatus(StrArrayToPy(roles), maxLen) == Ok
    ensures forall i :: 0 <= i < |roles| ==> TextBytes(StrArrayToPy(roles).items[i]) == roles[i]
  {
    var items := StrArrayToPy(roles).items;
    forall i | 0 <= i < |roles|
      ensures TextBytes(items[i]) == roles[i]
    {
      CStringOfNulFree(roles[i]);
      CStringOfNulFree(CString(roles[i]));
    }
    FirstBadItemAt(items, maxLen, |items|);
  }

  // ---------------------------------------------------------------------
  // pyobject_to_as_privileges

  const NamespaceSize: int := 32
  const SetSize: int := 64

  /** An `as_privilege`: its code and the namespace and set it is limited
      to (empty for none). */
  datatype Privilege = Privilege(code: int, ns: seq<byte>, setName: seq<byte>)

  const MissingCode: string := "Code is a compulsory parameter in privileges dictionary"

  predicate LacksCode(entry: PyObj)
  {
    entry.Dict? && DictGet(entry.entries, "code").None?
  }

  /** Text `PyString_AsString` can encode with the default (ASCII)
      codec. */
  predicate IsAscii(text: string)
  {
    forall i :: 0 <= i < |text| ==> text[i] < 128 as char
  }

  /** What `strcpy` of `PyString_AsString` into a slot of `size` bytes needs
      of an optional string entry: a `str`, or a `unicode` holding only
      ASCII, whose C string leaves room for the NUL. */
  predicate Copyable(field: Option<PyObj>, size: int)
  {
    field.Some? ==>
      && (field.value.Str? || (field.value.Unicode? && IsAscii(field.value.text)))
      && |TextBytes(field.value)| < size
  }

  /** What the source relies on, unchecked, of a privilege dictionary:
      its namespace and set, when given, fit the fixed-size fields. */
  predicate FieldsFit(entry: PyObj)
  {
    entry.Dict? ==>
      Copyable(DictGet(entry.entries, "ns"), NamespaceSize) && Copyable(DictGet(entry.entries, "set"), SetSize)
  }

  /** The string stored for an optional field: its C string, or the empty
      string when the dictionary lacks it. (For an object that is neither a
      `str` nor a `unicode` the source's `strcpy` reads a NULL pointer; the
      empty string stands in, and the method never gets there.) */
  function FieldOrEmpty(field: Option<PyObj>): seq<byte>
  {
    if field.Some? && (field.value.Str? || field.value.Unicode?) then TextBytes(field.value) else []
  }

  /** The privilege a dictionary with a `"code"` entry describes. The code is
      read with `PyInt_AsLong`, which gives -1 for anything that is not an
      int within 64 bits, and stored in a 32-bit enum field. */
  function PrivilegeOf(entry: PyObj): (r: Privilege)
    requires entry.Dict? && !LacksCode(entry)
    ensures -0x8000_0000 <= r.code < 0x8000_0000
    ensures DictGet(entry.entries, "ns").None? ==> r.ns == []
    ensures DictGet(entry.entries, "set").None? ==> r.setName == []
  {
    var code := AsLong(DictGet(entry.entries, "code").value);
    Privilege(
      ToInt32(if code.Some? then code.value else -1),
      FieldOrEmpty(DictGet(entry.entries, "ns")),
      FieldOrEmpty(DictGet(entry.entries, "set")))
  }

  /** The index of the first dictionary without a `"code"` entry, or the
      number of entries when there is none. */
  function FirstMissingCode(items: seq<PyObj>): (r: nat)
    ensures r <= |items|
    ensures forall j :: 0 <= j < r ==> !LacksCode(items[j])
    ensures r < |items| ==> LacksCode(items[r])
  {
    if items == [] || LacksCode(items[0]) then 0 else 1 + FirstMissingCode(items[1..])
  }

  /** The scan that stops at index `k` is the one `FirstMissingCode`
      describes. */
  lemma {:induction false} FirstMissingCodeAt(items: seq<PyObj>, k: nat)
    requires k <= |items|
    requires forall j :: 0 <= j < k ==> !LacksCode(items[j])
    requires k < |items| ==> LacksCode(items[k])
    ensures FirstMissingCode(items) == k
  {
    if k > 0 {
      FirstMissingCodeAt(items[1..], k - 1);
    }
  }

  /** `FieldsFit` for every dictionary the scan reaches, up to and not
      including the first dictionary without a `"code"`. */
  predicate ReachedFit(items: seq<PyObj>)
  {
    items == [] || LacksCode(items[0]) || (FieldsFit(items[0]) && ReachedFit(items[1..]))
  }

  /** `ReachedFit` asks `FieldsFit` exactly of the items before
      `FirstMissingCode`. */
  lemma {:induction false} ReachedFitBeforeMissingCode(items: seq<PyObj>)
    ensures ReachedFit(items) <==> forall i :: 0 <= i < FirstMissingCode(items) ==> FieldsFit(items[i])
  {
    if items != [] && !LacksCode(items[0]) {
      ReachedFitBeforeMissingCode(items[1..]);
      assert forall i :: 1 <= i < |items| ==> items[i] == items[1..][i - 1];
    }
  }

  /** `pyobject_to_as_privileges`: fills `privileges[i]` from each
      dictionary entry of the list, skipping entries that are not
      dictionaries, and stops with a parameter error at the first
      dictionary without a `"code"`. */
  method PyobjectToPrivileges(items: seq<PyObj>, privileges: array<Option<Privilege>>) returns (status: Status)
    requires privileges.Length == |items|
    requires ReachedFit(items)
    modifies privileges
    ensures status == if FirstMissingCode(items) == |items| then Ok else ParamError(MissingCode)
    ensures forall i :: 0 <= i < FirstMissingCode(items) && items[i].Dict? ==> privileges[i] == Some(PrivilegeOf(items[i]))
    ensures forall i :: 0 <= i < |items| && (FirstMissingCode(items) <= i || !items[i].Dict?) ==>
      privileges[i] == old(privileges[i])
  {
    var i := 0;
    assert items[0..] == items;
    while i < |items|
      invariant 0 <= i <= |items|
      invariant forall j :: 0 <= j < i ==> !LacksCode(items[j])
      invariant ReachedFit(items[i..])
      invariant forall j :: 0 <= j < i && items[j].Dict? ==> privileges[j] == Some(PrivilegeOf(items[j]))
      invariant forall j :: 0 <= j < |items| && (i <= j || !items[j].Dict?) ==> privileges[j] == old(privileges[j])
    {
      var entry := items[i];
      assert items[i..][1..] == items[i + 1..];
      if entry.Dict? {
        if LacksCode(entry) {
          FirstMissingCodeAt(items, i);
          return ParamError(MissingCode);
        }
        privileges[i] := Some(PrivilegeOf(entry));
      }
      i := i + 1;
    }
    FirstMissingCodeAt(items, i);
    return Ok;
  }

  /** A dictionary without a code stops the scan, so the entries after it
      are never read and need not fit. */
  lemma MissingCodeHidesLaterEntries(rest: seq<PyObj>)
    ensures FirstMissingCode([Dict([])] + rest) == 0
  {
  }

  /** `as_privilege_to_pyobject`: the dictionary reporting one privilege,
      with its keys set in the order `"ns"`, `"set"`, `"code"`. */
  function PrivilegeToPy(p: Privilege): (r: PyObj)
    ensures r.Dict? && |r.entries| == 3
    ensures DictGet(r.entries, "ns") == Some(Str(CString(p.ns)))
    ensures DictGet(r.entries, "set") == Some(Str(CString(p.setName)))
    ensures DictGet(r.entries, "code") == Some(Int(p.code))
  {
    var es := [(Str(Ascii("ns")), Str(CString(p.ns))), (Str(Ascii("set")), Str(CString(p.setName))), (Str(Ascii("code")), Int(p.code))];
    assert DictGet(es, "code") == DictGet(es[1..], "code") == DictGet(es[2..], "code");
    Dict(es)
  }

  /** A privilege whose code fits the enum and whose strings fit their
      fields is parsed back from its dictionary unchanged. */
  lemma PrivilegeRoundTrip(p: Privilege)
    requires -0x8000_0000 <= p.code < 0x8000_0000
    requires 0 !in p.ns && |p.ns| < NamespaceSize
    requires 0 !in p.setName && |p.setName| < SetSize
    ensures !LacksCode(PrivilegeToPy(p)) && FieldsFit(PrivilegeToPy(p))
    ensures PrivilegeOf(PrivilegeToPy(p)) == p
  {
    CStringOfNulFree(p.ns);
    CStringOfNulFree(p.setName);
    var es := PrivilegeToPy(p).entries;
    assert DictGet(es, "ns") == Some(Str(p.ns));
    assert DictGet(es, "set") == DictGet(es[1..], "set") == Some(Str(p.setName));
    assert DictGet(es[2..], "code") == Some(Int(p.code));
    assert DictGet(es, "code") == DictGet(es[1..], "code") == DictGet(es[2..], "code");
  }

  /** A dictionary with only a code gets an empty namespace and set. */
  lemma PrivilegeDefaults(code: int)
    requires -0x8000_0000 <= code < 0x8000_0000
    ensures !LacksCode(Dict([(Str(Ascii("code")), Int(code))])) && FieldsFit(Dict([(Str(Ascii("code")), Int(code))]))
    ensures PrivilegeOf(Dict([(Str(Ascii("code")), Int(code))])) == Privilege(code, [], [])
  {
    var es := [(Str(Ascii("code")), Int(code))];
    assert DictGet(es, "code") == Some(Int(code));
    assert DictGet(es, "ns") == DictGet(es[1..], "ns") == None;
    assert DictGet(es, "set") == DictGet(es[1..], "set") == None;
  }

  /** A code that is not an int is stored as -1, as `PyInt_AsLong` reports
      its failure. */
  lemma NonIntCodeIsMinusOne(code: PyObj)
    requires !IsInt(code)
    ensures !LacksCode(Dict([(Str(Ascii("code")), code)])) && FieldsFit(Dict([(Str(Ascii("code")), code)]))
    ensures PrivilegeOf(Dict([(Str(Ascii("code")), code)])).code == -1
  {
    var es := [(Str(Ascii("code")), code)];
    assert DictGet(es, "code") == Some(code);
    assert DictGet(es, "ns") == DictGet(es[1..], "ns") == None;
    assert DictGet(es, "set") == DictGet(es[1..], "set") == None;
  }
}
