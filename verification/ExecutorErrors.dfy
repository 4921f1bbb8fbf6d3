/**
  The error object of the executor and its JSON form (errors.py).
 */
module ExecutorErrors {
  import opened Utf8

  // The API rejects error payloads above 8 kB, so only the end of the stack trace is sent.
  const MAX_BYTES: nat := 6144

  datatype JsonError = JsonError(code: Text, payload: map<string, Text>)

  class ExecutorError {
    var code: Text
    var stacktrace: Text
    var details: map<string, Text>  // what the subclasses add: message, resource, name, path, ...

    constructor (code: Text, stacktrace: Text, details: map<string, Text>)
      requires "code" !in details && "stacktrace" !in details
      ensures this.code == code && this.stacktrace == stacktrace && this.details == details
      ensures Valid()
    {
      this.code := code;
      this.stacktrace := stacktrace;
      this.details := details;
    }

    ghost predicate Valid()
      reads this
    {
      "code" !in details && "stacktrace" !in details
    }

    // Python's vars(self).
    function Vars(): (vars: map<string, Text>)
      reads this
    {
      details["code" := code]["stacktrace" := stacktrace]
    }

    method ToJson() returns (json: JsonError)
      requires Valid()
      modifies this`stacktrace
      ensures Valid()
      ensures stacktrace == Truncate(old(stacktrace), MAX_BYTES)
      ensures json.code == code
      ensures json.payload == details["stacktrace" := stacktrace]
      ensures "code" !in json.payload
    {
      var bytes := Encode(stacktrace);
      var truncatedBytes := LastBytes(bytes, MAX_BYTES);
      stacktrace := DecodeIgnore(truncatedBytes);
      var allKeys := Vars();
      allKeys := allKeys - {"code"};
      json := JsonError(code, allKeys);
    }
  }

  // Sending the same error again sends the same payload, and the trace never exceeds the budget.
  method ToJsonTwice(error: ExecutorError) returns (first: JsonError, second: JsonError)
    requires error.Valid()
    modifies error`stacktrace
    ensures first == second
    ensures "stacktrace" in first.payload && |Encode(first.payload["stacktrace"])| <= 6144
    ensures first.code == error.code
    ensures first.payload.Keys == error.details.Keys + {"stacktrace"}
    ensures forall key :: key in error.details ==> first.payload[key] == error.details[key]
    ensures first.payload["stacktrace"] == old(error.stacktrace)
       <==> |Encode(old(error.stacktrace))| <= 6144
  {
    ghost var trace := error.stacktrace;
    TruncateIsIdempotent(trace, MAX_BYTES);
    TruncateKeepsLongestFittingSuffix(trace, MAX_BYTES);
    assert trace[0..] == trace;
    first := error.ToJson();
    second := error.ToJson();
  }
}
