/** jsonprclibveles/history.py: the request/response log. Its two lists and
    its `_instance` slot are class attributes, so every `History` object
    reads and appends to the same lists. */
module CallHistory {
  import opened Errors

  /** The class-level attributes of `History`. */
  class HistoryClass<T> {
    var requests: seq<T>
    var responses: seq<T>
    var instance: History?<T>

    ghost predicate Valid()
      reads this
    {
      instance != null ==> instance.cls == this
    }

    constructor ()
      ensures Valid()
      ensures requests == [] && responses == [] && instance == null
    {
      requests, responses, instance := [], [], null;
    }

    /** `History.instance()`: creates the instance on the first call only and
        returns that same object on every call; the logs are untouched. */
    method Instance() returns (h: History<T>)
      requires Valid()
      modifies this
      ensures Valid()
      ensures old(instance) != null ==> h == old(instance)
      ensures old(instance) == null ==> fresh(h)
      ensures instance == h && h.cls == this
      ensures requests == old(requests) && responses == old(responses)
    {
      if instance == null {
        instance := new History(this);
      }
      h := instance;
    }
  }

  /** An instance of `History`: every operation goes to its class's lists. */
  class History<T> {
    const cls: HistoryClass<T>

    constructor (cls: HistoryClass<T>)
      ensures this.cls == cls
    {
      this.cls := cls;
    }

    /** `add_request`: appends at the end; `responses` is untouched. */
    method AddRequest(request: T)
      modifies cls`requests
      ensures cls.requests == old(cls.requests) + [request]
      ensures cls.responses == old(cls.responses)
      ensures Request() == Some(request)
    {
      cls.requests := cls.requests + [request];
    }

    /** `add_response`: appends at the end; `requests` is untouched. */
    method AddResponse(response: T)
      modifies cls`responses
      ensures cls.responses == old(cls.responses) + [response]
      ensures cls.requests == old(cls.requests)
      ensures Response() == Some(response)
    {
      cls.responses := cls.responses + [response];
    }

    /** The `request` property: `None` on an empty log, else the latest entry. */
    function Request(): (r: Option<T>)
      reads cls
      ensures r.None? <==> cls.requests == []
      ensures r.Some? ==> r.value == cls.requests[|cls.requests| - 1]
    {
      if |cls.requests| == 0 then None else Some(cls.requests[|cls.requests| - 1])
    }

    /** The `response` property: `None` on an empty log, else the latest entry. */
    function Response(): (r: Option<T>)
      reads cls
      ensures r.None? <==> cls.responses == []
      ensures r.Some? ==> r.value == cls.responses[|cls.responses| - 1]
    {
      if |cls.responses| == 0 then None else Some(cls.responses[|cls.responses| - 1])
    }

    /** `clear`: empties both shared lists in place. */
    method Clear()
      modifies cls`requests, cls`responses
      ensures cls.requests == [] && cls.responses == []
      ensures Request() == None && Response() == None
    {
      cls.requests := [];
      cls.responses := [];
    }
  }

  /** What one instance logs, another instance of the same class reads. */
  method SharedLog<T>(a: History<T>, b: History<T>, request: T, response: T)
    requires a.cls == b.cls
    modifies a.cls
    ensures b.Request() == Some(request) && b.Response() == Some(response)
  {
    a.AddRequest(request);
    a.AddResponse(response);
  }
}
