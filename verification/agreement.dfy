/**
  How the two clients' response classifications relate: where they give the
  same answer, and the inputs on which they part ways.
 */
module ClientAgreement {
  import opened Wrappers
  import opened JsonValues
  import Current = DiffbotClient
  import Legacy = LegacyClient

  /** An object carrying neither error key is handed back unchanged by both clients. */
  lemma AgreeOnSuccess(obj: JsonObject)
    requires "error" !in obj && "errorCode" !in obj
    ensures Current.ProcessResponse(Parsed(Object(obj))) == Ok(obj)
    ensures Legacy.Classify(Object(obj)) == Legacy.Returned(Ok(obj))
  {
  }

  /** A well-formed error object with a 32-bit integer code gives both clients the same code and message. */
  lemma AgreeOnApiError(obj: JsonObject, code: nat, msg: string)
    requires "error" in obj && obj["error"] == String(msg)
    requires "errorCode" in obj && obj["errorCode"] == Number(Int(code)) && code < 0x1_0000_0000
    ensures Current.ProcessResponse(Parsed(Object(obj))) == Err(Current.Api(code, msg))
    ensures Legacy.Classify(Object(obj)) == Legacy.Returned(Err(Legacy.ApiError(msg, code)))
  {
    assert Legacy.CastToUint(NumValue(Int(code))) == code by {
      assert (code as real).Floor == code;
    }
  }

  /**
    The clients key on different fields: an `error` without `errorCode` is an
    API error with code 0 for the current client and a success for the
    earlier one; an `errorCode` without `error` is the reverse of that, and
    makes the earlier client fail its task.
   */
  lemma DivergeOnMissingKey(obj: JsonObject)
    requires ("error" in obj) != ("errorCode" in obj)
    requires "errorCode" in obj ==> obj["errorCode"].Number?
    ensures "error" in obj ==>
              && Current.ProcessResponse(Parsed(Object(obj))).Err?
              && Current.ProcessResponse(Parsed(Object(obj))).error.code == 0
              && Legacy.Classify(Object(obj)) == Legacy.Returned(Ok(obj))
    ensures "errorCode" in obj ==>
              && Current.ProcessResponse(Parsed(Object(obj))) == Ok(obj)
              && Legacy.Classify(Object(obj)) == Legacy.TaskFailure(Legacy.ErrorMissing)
  {
  }

  /** A value that is not an object is a JSON error for the current client and a task failure for the earlier one. */
  lemma DivergeOnNonObject(json: Json)
    requires !json.Object?
    ensures Current.ProcessResponse(Parsed(json)) == Err(Current.Json)
    ensures Legacy.Classify(json) == Legacy.TaskFailure(Legacy.NotAnObject)
  {
  }
}
