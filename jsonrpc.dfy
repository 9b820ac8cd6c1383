/** jsonrpc.py, the wire layer: the envelopes `Payload` builds, `Fault`,
    `dumps`, `loads`, `isbatch`, and the `_Method` call-name builder. The
    envelopes follow JSON-RPC 2.0 for by-position and by-name params
    (section 4.2), the -32000 server error code (section 5.1) and batches as
    arrays (section 6), but carry no `jsonrpc` and no `id` member. */
module JsonRpc {
  import opened Errors
  import opened Values
  import opened Strings
  import JsonClass
  import JsonClassProperties

  /** `json.dumps` and `json.loads`: JSON text is outside the model. */
  type Encoder = Value -> Result<string>
  type Decoder = string -> Result<Value>

  const DefaultFaultCode: int := -32000
  /** `Fault`'s default message. */
  const DefaultFaultMessage: string := "Server error"
  /** `Payload.error`'s default message (with a full stop, unlike `Fault`'s). */
  const DefaultErrorMessage: string := "Server error."

  // ---------------------------------------------------------------------
  // Payload
  // ---------------------------------------------------------------------

  /** `Payload.request(method, params)`: the method must be a `str`; the
      `params` key is present only when `params` is truthy, so an empty list,
      tuple or dict leaves it out. */
  function Request(methodName: Value, params: Value): (r: Result<Value>)
    ensures r.Err? <==> !methodName.Str?
    ensures r.Err? ==> r.error == ValueError
    ensures r.Ok? ==> r.value.Dict? && r.value.entries.Keys <= {"method", "params"}
    ensures r.Ok? ==> "method" in r.value.entries && r.value.entries["method"] == methodName
    ensures r.Ok? ==> ("params" in r.value.entries <==> Truthy(params))
    ensures r.Ok? && "params" in r.value.entries ==> r.value.entries["params"] == params
  {
    if !methodName.Str? then Err(ValueError)
    else if Truthy(params) then Ok(Dict(map["method" := methodName, "params" := params]))
    else Ok(Dict(map["method" := methodName]))
  }

  /** `Payload.response(result)`: exactly one key, `result`, even for `None`. */
  function Response(result: Value): (r: Value)
    ensures r.Dict? && r.entries.Keys == {"result"} && r.entries["result"] == result
  {
    Dict(map["result" := result])
  }

  /** `Payload.error(code, message)`: a `None` result beside the error object. */
  function ErrorResponse(code: Value, message: Value): (r: Value)
    ensures r.Dict? && r.entries.Keys == {"result", "error"}
    ensures r.entries["result"] == Null
    ensures r.entries["error"] == Dict(map["code" := code, "message" := message])
  {
    Dict(map["result" := Null, "error" := Dict(map["code" := code, "message" := message])])
  }

  /** `Payload.error()` with its default arguments. */
  function DefaultErrorResponse(): (r: Value)
    ensures r.Dict? && r.entries.Keys == {"result", "error"} && r.entries["result"] == Null
    ensures r.entries["error"] == Dict(map["code" := Int(-32000), "message" := Str("Server error.")])
  {
    ErrorResponse(Int(DefaultFaultCode), Str(DefaultErrorMessage))
  }

  // ---------------------------------------------------------------------
  // Fault
  // ---------------------------------------------------------------------

  datatype Fault = Fault(faultCode: Value, faultString: Value, rpcid: Value) {
    /** `Fault.error()`: the code and the message. */
    function Error(): (e: Value)
      ensures e.Dict? && e.entries.Keys == {"code", "message"}
      ensures e.entries["code"] == faultCode && e.entries["message"] == faultString
      ensures ErrorResponse(faultCode, faultString).entries["error"] == e
    {
      Dict(map["code" := faultCode, "message" := faultString])
    }
  }

  /** `Fault()` with its default arguments. */
  function DefaultFault(): (f: Fault)
    ensures f.faultCode == Int(-32000) && f.faultString == Str("Server error") && f.rpcid == Null
  {
    Fault(Int(DefaultFaultCode), Str(DefaultFaultMessage), Null)
  }

  // ---------------------------------------------------------------------
  // dumps, loads, isbatch
  // ---------------------------------------------------------------------

  /** What `dumps` is given as `params`: a `Fault`, or any other value. */
  datatype Params = FaultParams(fault: Fault) | PlainParams(value: Value)

  /** The envelope `dumps` builds before `json.dumps` writes it:
      - a `Fault` becomes its error envelope, whatever the other arguments;
      - otherwise a method name that is not a `str` is refused unless a
        response is asked for;
      - the params then go through `jsonclass.dump` (whose `AttributeError`
        on `None` escapes);
      - a response wraps them as `result`; a notification fails, as `Payload`
        has no `notify` method; anything else is a request. */
  function Envelope(params: Params, methodname: Value, methodresponse: bool, notify: bool): (r: Result<Value>)
    ensures params.FaultParams? ==>
              r == Ok(ErrorResponse(params.fault.faultCode, params.fault.faultString))
    ensures params.PlainParams? && !methodname.Str? && !methodresponse ==> r == Err(ValueError)
    ensures params.PlainParams? && (methodname.Str? || methodresponse) ==>
              var dumped := JsonClass.Dump(params.value, JsonClass.DefaultOptions());
              && (dumped.Err? ==> r == Err(AttributeError))
              && (dumped.Ok? && methodresponse ==> r == Ok(Response(dumped.value)))
              && (dumped.Ok? && !methodresponse && notify ==> r == Err(AttributeError))
              && (dumped.Ok? && !methodresponse && !notify ==> r == Request(methodname, dumped.value))
  {
    match params
    case FaultParams(f) => Ok(ErrorResponse(f.faultCode, f.faultString))
    case PlainParams(p) =>
      if !methodname.Str? && !methodresponse then Err(ValueError)
      else
        var dumped :- JsonClass.Dump(p, JsonClass.DefaultOptions());
        if methodresponse then Ok(Response(dumped))
        else if notify then Err(AttributeError)
        else Request(methodname, dumped)
  }

  /** `dumps` as written: the `config` module it imports has no attribute
      `use_jsonclass` (only the class `config.Config` has one), so every call
      that is not a `Fault` and passes the method-name check raises
      `AttributeError` before any envelope is built. */
  function EnvelopeAsWritten(params: Params, methodname: Value, methodresponse: bool, notify: bool): (r: Result<Value>)
    ensures params.FaultParams? ==> r == Envelope(params, methodname, methodresponse, notify)
    ensures params.PlainParams? ==> r.Err?
    ensures params.PlainParams? && !methodname.Str? && !methodresponse ==> r == Err(ValueError)
    ensures params.PlainParams? && (methodname.Str? || methodresponse) ==> r == Err(AttributeError)
  {
    match params
    case FaultParams(f) => Ok(ErrorResponse(f.faultCode, f.faultString))
    case PlainParams(_) =>
      if !methodname.Str? && !methodresponse then Err(ValueError) else Err(AttributeError)
  }

  /** `dumps`: the envelope written as JSON text. */
  function Dumps(enc: Encoder, params: Params, methodname: Value, methodresponse: bool, notify: bool): (r: Result<string>)
    ensures Envelope(params, methodname, methodresponse, notify).Err? ==>
              r == Err(Envelope(params, methodname, methodresponse, notify).error)
    ensures Envelope(params, methodname, methodresponse, notify).Ok? ==>
              r == enc(Envelope(params, methodname, methodresponse, notify).value)
  {
    var envelope :- Envelope(params, methodname, methodresponse, notify);
    enc(envelope)
  }

  /** `Fault.response()`: `dumps(self, methodresponse=True)`. */
  function FaultResponse(enc: Encoder, f: Fault): (r: Result<string>)
    ensures r == enc(ErrorResponse(f.faultCode, f.faultString))
  {
    Dumps(enc, FaultParams(f), Null, true, false)
  }

  /** `loads`: the empty text is `None`, any other text is parsed. */
  function Loads(dec: Decoder, data: string): (r: Result<Value>)
    ensures data == "" ==> r == Ok(Null)
    ensures data != "" ==> r == dec(data)
  {
    if data == "" then Ok(Null) else dec(data)
  }

  /** `isbatch`: a non-empty list or tuple whose first element is a dict. */
  function IsBatch(v: Value): (r: bool)
    ensures r <==> (v.List? || v.Tuple?) && |v.items| > 0 && v.items[0].Dict?
  {
    (v.List? || v.Tuple?) && |v.items| > 0 && v.items[0].Dict?
  }

  // ---------------------------------------------------------------------
  // _Method (the second definition, which shadows the first)
  // ---------------------------------------------------------------------

  /** `_Method`: a method name built by attribute access, and the
      `send(name, params)` call an invocation makes. */
  datatype Method = Method(name: string) {
    /** `__getattr__`: a new builder for the dotted name. */
    function Attr(attr: string): (m: Method)
      ensures m.name == name + "." + attr
    {
      Method(name + "." + attr)
    }

    /** `__call__`: positional and keyword arguments together are refused
        before anything is sent; otherwise positional arguments (a tuple) are
        sent when there are any, else the keyword dict. The result is the
        `(name, params)` pair handed to `send`. */
    function Call(args: seq<Value>, kwargs: map<string, Value>): (r: Result<(string, Value)>)
      ensures r.Err? <==> |args| > 0 && |kwargs| > 0
      ensures r.Err? ==> r.error == ProtocolError
      ensures r.Ok? ==> r.value.0 == name
      ensures r.Ok? ==> r.value.1 == if |args| > 0 then Tuple(args) else Dict(kwargs)
    {
      if |args| > 0 && |kwargs| > 0 then Err(ProtocolError)
      else if |args| > 0 then Ok((name, Tuple(args)))
      else Ok((name, Dict(kwargs)))
    }
  }

  /** `proxy.a.b.c`: attribute accesses applied left to right. */
  function Chain(m: Method, attrs: seq<string>): Method {
    if attrs == [] then m else Chain(m, attrs[..|attrs| - 1]).Attr(attrs[|attrs| - 1])
  }

  /** A chain of attribute accesses names the dotted path of all its parts. */
  lemma {:induction false} ChainName(m: Method, attrs: seq<string>)
    ensures Chain(m, attrs).name == Join(".", [m.name] + attrs)
  {
    if attrs != [] {
      var n := |attrs|;
      ChainName(m, attrs[..n - 1]);
      assert ([m.name] + attrs)[..n] == [m.name] + attrs[..n - 1];
    }
  }

  // ---------------------------------------------------------------------
  // Properties relating the envelopes
  // ---------------------------------------------------------------------

  /** The three envelopes are told apart by their keys: only a request has
      `method`, only an error has `error`, and `result` is in both kinds of
      response. */
  lemma EnvelopeKinds(methodName: Value, params: Value, result: Value, code: Value, message: Value)
    requires methodName.Str?
    ensures var q := Request(methodName, params).value.entries;
            "method" in q && "result" !in q && "error" !in q
    ensures var s := Response(result).entries;
            "result" in s && "method" !in s && "error" !in s
    ensures var e := ErrorResponse(code, message).entries;
            "result" in e && "error" in e && "method" !in e
  {
  }

  /** The error envelope of a `Fault` nests exactly `Fault.error()`. */
  lemma FaultEnvelope(f: Fault, methodname: Value, methodresponse: bool, notify: bool)
    ensures Envelope(FaultParams(f), methodname, methodresponse, notify).Ok?
    ensures Envelope(FaultParams(f), methodname, methodresponse, notify).value.entries["error"] == f.Error()
  {
  }

  /** `isbatch` separates one response from a list of responses. */
  lemma BatchOfResponses(results: seq<Value>, code: Value, message: Value)
    requires |results| > 0
    ensures IsBatch(List(seq(|results|, i requires 0 <= i < |results| => Response(results[i]))))
    ensures !IsBatch(Response(results[0])) && !IsBatch(ErrorResponse(code, message))
  {
  }

  /** The `config.use_jsonclass` finding: as written, the request for
      `add(1, 2)` raises `AttributeError`; with the configured default the
      request envelope is built. */
  lemma UseJsonclassLookup()
    ensures EnvelopeAsWritten(PlainParams(Tuple([Int(1), Int(2)])), Str("add"), false, false) == Err(AttributeError)
    ensures Envelope(PlainParams(Tuple([Int(1), Int(2)])), Str("add"), false, false)
              == Ok(Dict(map["method" := Str("add"), "params" := List([Int(1), Int(2)])]))
  {
    JsonClassProperties.DumpPlain(List([Int(1), Int(2)]), JsonClass.DefaultOptions());
    JsonClassProperties.DumpSequence([Int(1), Int(2)], JsonClass.DefaultOptions());
  }

  /** With a JSON codec whose decoder inverts its encoder on JSON values and
      never writes empty text, `loads(dumps(...))` of a request whose params
      hold no `None` and no instance gives back the request envelope, with
      the params after `dump` (tuples become lists). */
  lemma RequestWireRoundTrip(enc: Encoder, dec: Decoder, methodName: string, params: Value)
    requires forall v :: IsJson(v) ==> enc(v).Ok? && enc(v).value != "" && dec(enc(v).value) == Ok(v)
    requires !HasObject(params) && !HasNull(params)
    ensures var dumped := JsonClass.Dump(params, JsonClass.DefaultOptions());
            var text := Dumps(enc, PlainParams(params), Str(methodName), false, false);
            && dumped.Ok? && text.Ok?
            && Loads(dec, text.value) == Request(Str(methodName), dumped.value)
  {
    var dumped := JsonClass.Dump(params, JsonClass.DefaultOptions());
    JsonClassProperties.DumpJson(params, JsonClass.DefaultOptions());
    var envelope := Request(Str(methodName), dumped.value).value;
    assert IsJson(envelope) by {
      forall k | k in envelope.entries ensures IsJson(envelope.entries[k]) {
      }
    }
  }
}
