/**
 * The data-fetching hook (useDataFetching.ts): three state cells, `data`,
 * `status` and `error`, a reset, and a fetch that first marks the state
 * as loading and then settles on the fetched value or on the failure.
 * The fetch is modelled by its steps, `Begin` then `Resolve` or `Reject`,
 * and by `FetchData`, which runs one fetch from start to end.
 */
module DataFetching {
  import opened Wrappers

  /** The JavaScript values a fetch function can resolve with. */
  datatype JsValue =
    | Null
    | Undefined
    | Bool(b: bool)
    | Num(n: int)
    | Str(s: string)
    | Function
    | Array(elements: seq<JsValue>)
      /** A non-array object, given by its own enumerable string keys. */
    | Object(keys: seq<string>)

  /** An `Error` object. */
  datatype JsError = JsError(message: string)

  /** What a failed fetch throws: an `Error`, or any other value. */
  datatype Thrown = ThrownError(error: JsError) | ThrownValue(value: JsValue)

  /** 'idle' | 'loading' | 'success' | 'error' | 'empty'. */
  datatype FetchStatus = Idle | Loading | Success | Error | Empty

  /** How one fetch ends: with the resolved value, or with what was thrown. */
  datatype Outcome = Resolved(value: JsValue) | Rejected(thrown: Thrown)

  /** `typeof v`. */
  function TypeOf(v: JsValue): string {
    match v
    case Null => "object"
    case Undefined => "undefined"
    case Bool(_) => "boolean"
    case Num(_) => "number"
    case Str(_) => "string"
    case Function => "function"
    case Array(_) => "object"
    case Object(_) => "object"
  }

  /**
   * `Object.keys(v).length`: one key per element of an array or character
   * of a string, the own keys of an object, none for the other
   * primitives. `Object.keys` throws on null and undefined.
   */
  function OwnKeyCount(v: JsValue): nat
    requires !v.Null? && !v.Undefined?
  {
    match v
    case Array(elements) => |elements|
    case Object(keys) => |keys|
    case Str(s) => |s|
    case Bool(_) => 0
    case Num(_) => 0
    case Function => 0
  }

  /**
   * The emptiness test of a fetched result: null, undefined, an empty
   * array and an object without own keys count as empty; every other
   * value, `0`, `""` and `false` among them, does not.
   */
  function IsEmptyResult(v: JsValue): (r: bool)
    ensures r <==> v == Null || v == Undefined || v == Array([]) || v == Object([])
  {
    v.Null? || v.Undefined? || (v.Array? && |v.elements| == 0)
      || (TypeOf(v) == "object" && OwnKeyCount(v) == 0)
  }

  /** The stored error after a failure: what was thrown if it is an `Error`, otherwise a generic one. */
  function ErrorOf(thrown: Thrown): (r: JsError)
    ensures thrown.ThrownError? ==> r == thrown.error
    ensures thrown.ThrownValue? ==> r.message == "An unknown error occurred"
  {
    match thrown
    case ThrownError(e) => e
    case ThrownValue(_) => JsError("An unknown error occurred")
  }

  lemma EmptinessExamples()
    ensures IsEmptyResult(Null) && IsEmptyResult(Undefined)
    ensures IsEmptyResult(Array([])) && IsEmptyResult(Object([]))
    ensures !IsEmptyResult(Num(0)) && !IsEmptyResult(Str("")) && !IsEmptyResult(Bool(false))
    ensures !IsEmptyResult(Function) && !IsEmptyResult(Array([Null])) && !IsEmptyResult(Object(["id"]))
  {
  }

  class FetchState {
    var data: JsValue
    var status: FetchStatus
    var error: Option<JsError>

    /** There is an error exactly in the error status, and no data when idle or failed. */
    ghost predicate Valid()
      reads this
    {
      && (error.Some? <==> status == Error)
      && (status == Idle || status == Error ==> data == Null)
    }

    /** The three cells start as null, 'idle' and null. */
    constructor ()
      ensures data == Null && status == Idle && error == None
      ensures Valid()
    {
      data := Null;
      status := Idle;
      error := None;
    }

    /** `reset`: back to null, 'idle' and null from any state. */
    method Reset()
      modifies this
      ensures data == Null && status == Idle && error == None
      ensures Valid()
    {
      data := Null;
      status := Idle;
      error := None;
    }

    /** The start of `fetchData`: loading, with the error cleared and the previous data kept. */
    method Begin()
      modifies this
      ensures status == Loading && error == None && data == old(data)
      ensures Valid()
    {
      status := Loading;
      error := None;
    }

    /**
     * The fetch resolved with `result`: 'empty' or 'success' by the
     * emptiness test, and the data is the result itself. The error cell
     * is not touched, so the state is consistent exactly when it was
     * already cleared.
     */
    method Resolve(result: JsValue)
      modifies this
      ensures status == (if IsEmptyResult(result) then Empty else Success)
      ensures data == result && error == old(error)
      ensures Valid() <==> error.None?
    {
      if IsEmptyResult(result) {
        status := Empty;
      } else {
        status := Success;
      }
      data := result;
    }

    /** The fetch threw: 'error', the stored error, and no data. */
    method Reject(thrown: Thrown)
      modifies this
      ensures status == Error && error == Some(ErrorOf(thrown)) && data == Null
      ensures Valid()
    {
      status := Error;
      error := Some(ErrorOf(thrown));
      data := Null;
    }

    /** One whole fetch, not overlapping another: from any state it ends consistent. */
    method FetchData(outcome: Outcome)
      modifies this
      ensures outcome.Resolved? ==>
        && data == outcome.value && error == None
        && status == (if IsEmptyResult(outcome.value) then Empty else Success)
      ensures outcome.Rejected? ==>
        status == Error && error == Some(ErrorOf(outcome.thrown)) && data == Null
      ensures Valid()
    {
      Begin();
      match outcome
      case Resolved(v) => Resolve(v);
      case Rejected(t) => Reject(t);
    }
  }
}
