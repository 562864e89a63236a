/**
 Shaping of the JSON reply of the data routes: `ok` builds `{"status": "ok"}`
 with an optional `result` field, and `pop_generic` turns what a list pop
 returned into that field. Values are Python values as the store client hands
 them over; UTF-8 decoding of bytes is an abstract tag, not real decoding.
 */
module Responses {
  import opened Wrappers

  /** The Python values a store call can return. */
  datatype PyValue =
    | PyNone
    | PyBool(b: bool)
    | PyInt(i: int)
    | PyBytes(bytes: seq<bv8>)
    | PyStr(s: string)
    | PyTuple(items: seq<PyValue>)

  /** Python truthiness: `None`, `False`, `0` and empty bytes, strings and
      tuples are false; everything else is true. */
  predicate Truthy(v: PyValue) {
    match v
    case PyNone => false
    case PyBool(b) => b
    case PyInt(i) => i != 0
    case PyBytes(bs) => |bs| > 0
    case PyStr(s) => |s| > 0
    case PyTuple(items) => |items| > 0
  }

  /** A value placed in the reply: bytes are decoded to text, anything else
      is serialised as it is. */
  datatype Payload = Decoded(bytes: seq<bv8>) | Plain(value: PyValue)

  /** The `result` field of the reply: missing, JSON `null`, or a value. */
  datatype ResultField = Absent | Null | Present(payload: Payload)

  datatype Response = Response(status: string, result: ResultField)

  /** The only exception shaping can raise: indexing a one-element tuple. */
  datatype PopError = IndexError

  /** What a client reads back out of a `result` field, with decoding undone. */
  function Recover(f: ResultField): PyValue {
    match f
    case Absent => PyNone
    case Null => PyNone
    case Present(Decoded(bs)) => PyBytes(bs)
    case Present(Plain(v)) => v
  }

  /** The `ok` helper of the handler class. */
  function Ok(result: PyValue, nullFlag: bool): (r: Response)
    ensures r.status == "ok"
    ensures r.result.Absent? <==> result.PyNone? && !nullFlag
    ensures r.result.Null? <==> result.PyNone? && nullFlag
    ensures r.result.Present? <==> !result.PyNone?
    ensures result.PyBytes? ==> r.result.payload.Decoded?
    ensures r.result.Present? && r.result.payload.Plain? ==>
              !r.result.payload.value.PyBytes? && !r.result.payload.value.PyNone?
  {
    if !result.PyNone? then
      if result.PyBytes? then Response("ok", Present(Decoded(result.bytes)))
      else Response("ok", Present(Plain(result)))
    else if nullFlag then Response("ok", Null)
    else Response("ok", Absent)
  }

  /** `ok` loses nothing: the value passed in is the value read back, and the
      `null` flag is visible exactly when no value was passed. */
  lemma OkRoundTrip(v: PyValue, nullFlag: bool)
    ensures Recover(Ok(v, nullFlag).result) == v
    ensures v.PyNone? ==> (Ok(v, nullFlag).result.Null? <==> nullFlag)
  {
  }

  /** The reply of `pop_generic` for what the pop returned, as written: a
      falsy value answers `null`, a blocking pop's `(key, value)` tuple
      answers its second element, anything else answers itself. */
  function PopResponse(val: PyValue): (r: Result<Response, PopError>)
    ensures r.Failure? <==> val.PyTuple? && |val.items| == 1
    ensures r.Success? ==> r.value.status == "ok"
    ensures r.Success? && r.value.result.Null? <==> !Truthy(val)
    ensures r.Success? && r.value.result.Absent? <==>
              val.PyTuple? && |val.items| >= 2 && val.items[1].PyNone?
    ensures Truthy(val) && !val.PyTuple? ==> r.Success? && Recover(r.value.result) == val
    ensures val.PyTuple? && |val.items| >= 2 ==> r.Success? && Recover(r.value.result) == val.items[1]
  {
    if Truthy(val) then
      if val.PyTuple? then
        if |val.items| >= 2 then Success(Ok(val.items[1], false)) else Failure(IndexError)
      else Success(Ok(val, false))
    else Success(Ok(PyNone, true))
  }

  /** The replies to the values a redis list pop actually returns: the
      element's bytes, a blocking pop's `(key, element)` pair, or `None`. */
  lemma RedisPopReplies(key: seq<bv8>, element: seq<bv8>)
    ensures PopResponse(PyNone) == Success(Response("ok", Null))
    ensures |element| > 0 ==>
              PopResponse(PyBytes(element)) == Success(Response("ok", Present(Decoded(element))))
    ensures PopResponse(PyTuple([PyBytes(key), PyBytes(element)])) ==
              Success(Response("ok", Present(Decoded(element))))
  {
  }

  /** Counterexample to `pop_generic` as written: popping an empty string off
      a list answers `null`, the same reply as popping from an empty list,
      while the blocking pop of the same element answers the empty string. */
  lemma EmptyElementReadsAsNull()
    ensures PopResponse(PyBytes([])) == PopResponse(PyNone)
    ensures Recover(PopResponse(PyTuple([PyBytes([0x71]), PyBytes([])])).value.result) == PyBytes([])
  {
  }

  /** `pop_generic` as evidently intended: only a missing value (`None`)
      answers `null`; any element, the empty string included, is returned. */
  function PopResponseIntended(val: PyValue): (r: Result<Response, PopError>)
    ensures r.Failure? <==> val.PyTuple? && |val.items| < 2
    ensures r.Success? && r.value.result.Null? <==> val.PyNone?
    ensures !val.PyNone? && !val.PyTuple? ==> r.Success? && Recover(r.value.result) == val
    ensures val.PyTuple? && |val.items| >= 2 ==> r.Success? && Recover(r.value.result) == val.items[1]
  {
    if !val.PyNone? then
      if val.PyTuple? then
        if |val.items| >= 2 then Success(Ok(val.items[1], false)) else Failure(IndexError)
      else Success(Ok(val, false))
    else Success(Ok(PyNone, true))
  }

  /** The intended reply tells every popped element apart from an empty
      list, and agrees with the one as written on every truthy value. */
  lemma IntendedPopDistinguishesElements(element: seq<bv8>, val: PyValue)
    ensures PopResponseIntended(PyBytes(element)) != PopResponseIntended(PyNone)
    ensures Truthy(val) ==> PopResponseIntended(val) == PopResponse(val)
  {
  }

  /** The `get` route passes `null = true`, so its reply always has a
      `result` field, null exactly for a missing key. */
  lemma GetAlwaysHasResult(val: PyValue)
    ensures !Ok(val, true).result.Absent?
    ensures Ok(val, true).result.Null? <==> val.PyNone?
  {
  }

  /** The routes that only acknowledge call `ok()` bare: `status` alone. */
  lemma BareOkHasStatusOnly()
    ensures Ok(PyNone, false) == Response("ok", Absent)
  {
  }
}
