/** Status codes and error records of the native glue (src/main/conversions.c).

    Every conversion routine resets an `as_error`, and on failure fills in a
    code and a message and returns the code. Here a routine returns a
    `Status` or a `Result`; what it would have stored elsewhere is part of
    the result. */
module Errors {
  import opened Py

  // the status codes the conversions use
  const AerospikeOk: int := 0
  const ErrClient: int := -1
  const ErrParam: int := -2
  const ErrBinName: int := 21

  datatype Status = Status(code: int, message: string)

  const Ok: Status := Status(AerospikeOk, "")

  function ClientError(message: string): Status { Status(ErrClient, message) }

  function ParamError(message: string): Status { Status(ErrParam, message) }

  datatype Result<T> = Success(value: T) | Failure(error: Status)

  /** A successful result with `done` put in front of what it holds; a
      failure passes through. */
  function Prepend<T>(done: seq<T>, rest: Result<seq<T>>): Result<seq<T>>
  {
    if rest.Success? then Success(done + rest.value) else rest
  }

  lemma PrependNothing<T>(rest: Result<seq<T>>)
    ensures Prepend([], rest) == rest
  {
    if rest.Success? {
      assert [] + rest.value == rest.value;
    }
  }

  lemma PrependTwice<T>(a: seq<T>, b: seq<T>, rest: Result<seq<T>>)
    ensures Prepend(a, Prepend(b, rest)) == Prepend(a + b, rest)
  {
    if rest.Success? {
      assert a + (b + rest.value) == (a + b) + rest.value;
    }
  }

  // ---------------------------------------------------------------------
  // error_to_pyobject

  /** The fields of an `as_error` that `error_to_pyobject` reads: the code,
      the message buffer, the source file (NULL when unset), the source
      line (a `uint32_t`) and the in-doubt flag. */
  datatype AsError = AsError(code: int, message: seq<byte>, file: Option<seq<byte>>, line: int, inDoubt: bool)

  /** `error_to_pyobject`: the 5-tuple `(code, message, file, line, in_doubt)`
      raised with client exceptions; an unset file and a zero line become
      `None`. */
  function ErrorToPy(e: AsError): (r: PyObj)
    ensures r.Tuple? && |r.items| == 5
    ensures r.items[2] == PyNone <==> e.file.None?
    ensures r.items[3] == PyNone <==> e.line <= 0
  {
    Tuple([
      Int(e.code),
      Str(CString(e.message)),
      if e.file.Some? then Str(CString(e.file.value)) else PyNone,
      if e.line > 0 then Int(e.line) else PyNone,
      Bool(e.inDoubt)])
  }

  /** Reading an error tuple back into its fields, `None` file and line
      standing for the unset ones. */
  function ErrorFromPy(t: PyObj): (r: Option<AsError>)
    ensures r.Some? ==> t.Tuple? && |t.items| == 5
  {
    if t.Tuple? && |t.items| == 5 && t.items[0].Int? && t.items[1].Str? && t.items[4].Bool?
      && (t.items[2] == PyNone || t.items[2].Str?)
      && (t.items[3] == PyNone || t.items[3].Int?)
    then
      Some(AsError(
        t.items[0].i,
        t.items[1].bytes,
        if t.items[2] == PyNone then None else Some(t.items[2].bytes),
        if t.items[3] == PyNone then 0 else t.items[3].i,
        t.items[4].b))
    else None
  }

  /** An error whose strings hold no NUL and whose line is not negative
      survives the trip through its Python tuple. */
  lemma ErrorRoundTrip(e: AsError)
    requires 0 !in e.message
    requires e.file.Some? ==> 0 !in e.file.value
    requires 0 <= e.line
    ensures ErrorFromPy(ErrorToPy(e)) == Some(e)
  {
    CStringOfNulFree(e.message);
    if e.file.Some? {
      CStringOfNulFree(e.file.value);
    }
  }
}
