/** jsonrpc.py, batching: `MultiCall` collects one job per attribute access,
    sends all jobs as one JSON array, empties its job list and hands back a
    `MultiCallIterator` over the `result` of each response. */
module MultiCalls {
  import opened Errors
  import opened Values
  import opened Strings
  import opened JsonRpc
  import JsonClass
  import JsonClassProperties

  /** What a job holds when the batch is written: its dotted method name, its
      params and whether it was created through `_notify`. */
  datatype PendingCall = PendingCall(methodName: string, params: Value, notify: bool) {
    /** `MultiCallMethod.request()`: `dumps(params, method, notify=notify)`. */
    function Render(enc: Encoder): (r: Result<string>)
      ensures JsonClass.Dump(params, JsonClass.DefaultOptions()).Err? || notify ==> r == Err(AttributeError)
      ensures JsonClass.Dump(params, JsonClass.DefaultOptions()).Ok? && !notify ==>
                r == enc(Request(Str(methodName), JsonClass.Dump(params, JsonClass.DefaultOptions()).value).value)
    {
      Dumps(enc, PlainParams(params), Str(methodName), false, notify)
    }
  }

  /** The text of every job, in job order; the first job whose text cannot be
      written stops the list comprehension with its exception. */
  function Texts(enc: Encoder, calls: seq<PendingCall>): Result<seq<string>> {
    CollectSeq(seq(|calls|, i requires 0 <= i < |calls| => calls[i].Render(enc)))
  }

  /** The request body `'[ {0} ]'.format(','.join(texts))`. */
  function BatchBody(texts: seq<string>): (body: string)
    ensures |body| == |Join(",", texts)| + 4
    ensures body[..2] == "[ " && body[|body| - 2..] == " ]"
    ensures body[2..|body| - 2] == Join(",", texts)
  {
    "[ " + Join(",", texts) + " ]"
  }

  /** `MultiCallMethod`: one job of a batch. */
  class MultiCallMethod {
    var methodName: string
    var params: Value
    const notify: bool

    constructor (methodName: string, notify: bool)
      ensures this.methodName == methodName && params == List([]) && this.notify == notify
    {
      this.methodName := methodName;
      params := List([]);
      this.notify := notify;
    }

    function Pending(): PendingCall
      reads this
    {
      PendingCall(methodName, params, notify)
    }

    /** `__getattr__`: extends the job's own method name and returns the job. */
    method Attr(name: string) returns (job: MultiCallMethod)
      modifies this`methodName
      ensures job == this
      ensures methodName == old(methodName) + "." + name
    {
      methodName := methodName + "." + name;
      job := this;
    }

    /** `__call__`: positional and keyword arguments together are refused and
        leave `params` as it was; otherwise non-empty keyword arguments win
        over the positional tuple. */
    method Call(args: seq<Value>, kwargs: map<string, Value>) returns (r: Result<()>)
      modifies this`params
      ensures r.Err? <==> |args| > 0 && |kwargs| > 0
      ensures r.Err? ==> r.error == ProtocolError && params == old(params)
      ensures r.Ok? ==> params == if |kwargs| > 0 then Dict(kwargs) else Tuple(args)
    {
      if |kwargs| > 0 && |args| > 0 {
        return Err(ProtocolError);
      }
      if |kwargs| > 0 {
        params := Dict(kwargs);
      } else {
        params := Tuple(args);
      }
      r := Ok(());
    }
  }

  /** `MultiCallIterator`: the responses of a batch, read by position. */
  datatype MultiCallIterator = MultiCallIterator(results: seq<Value>) {
    /** `__len__`. */
    function Len(): (n: nat)
      ensures n == |results|
    {
      |results|
    }

    /** `__getitem__`: `results[i]['result']`, with Python's negative indices. */
    function Get(i: int): (r: Result<Value>)
      ensures 0 <= i < |results| ==> r == ResultField(results[i])
      ensures -|results| <= i < 0 ==> r == ResultField(results[|results| + i])
      ensures (i < -|results| || |results| <= i) ==> r == Err(IndexError)
    {
      if 0 <= i < |results| then ResultField(results[i])
      else if -|results| <= i < 0 then ResultField(results[|results| + i])
      else Err(IndexError)
    }
  }

  /** `item['result']`: a dict without the key raises `KeyError`; indexing
      anything that is not a dict with a string raises `TypeError`. */
  function ResultField(item: Value): (r: Result<Value>)
    ensures item.Dict? && "result" in item.entries ==> r == Ok(item.entries["result"])
    ensures item.Dict? && "result" !in item.entries ==> r == Err(KeyError)
    ensures !item.Dict? ==> r == Err(TypeError)
  {
    if !item.Dict? then Err(TypeError)
    else if "result" in item.entries then Ok(item.entries["result"])
    else Err(KeyError)
  }

  /** `MultiCallIterator.__iter__` run to the end: the items are produced in
      order until one of them raises; when every item has been produced, the
      closing `raise StopIteration` turns into `RuntimeError` (PEP 479). */
  method Iterate(it: MultiCallIterator) returns (produced: seq<Value>, raised: Error)
    ensures |produced| <= |it.results|
    ensures forall j :: 0 <= j < |produced| ==> it.Get(j) == Ok(produced[j])
    ensures |produced| == |it.results| ==> raised == RuntimeError
    ensures |produced| < |it.results| ==> it.Get(|produced|) == Err(raised)
  {
    produced := [];
    var i := 0;
    while i < it.Len()
      invariant i == |produced| <= |it.results|
      invariant forall j :: 0 <= j < i ==> it.Get(j) == Ok(produced[j])
    {
      var item := it.Get(i);
      if item.Err? {
        raised := item.error;
        return;
      }
      produced := produced + [item.value];
      i := i + 1;
    }
    raised := RuntimeError;
  }

  /** `MultiCall`: the job list and the server round trip. */
  class MultiCall {
    var jobs: seq<MultiCallMethod>
    /** `self._server._run_request(body)`: the decoded responses, or nothing. */
    const server: string -> Option<seq<Value>>

    constructor (server: string -> Option<seq<Value>>)
      ensures jobs == [] && this.server == server
    {
      jobs := [];
      this.server := server;
    }

    /** The jobs as they stand. */
    function Pending(): (calls: seq<PendingCall>)
      reads this, jobs
      ensures |calls| == |jobs|
      ensures forall i :: 0 <= i < |jobs| ==> calls[i] == jobs[i].Pending()
    {
      var js := jobs;
      seq(|js|, i requires 0 <= i < |js| reads js => js[i].Pending())
    }

    /** `__getattr__`: appends one new job at the end; earlier jobs stay. */
    method Attr(name: string) returns (job: MultiCallMethod)
      modifies this
      ensures fresh(job)
      ensures jobs == old(jobs) + [job]
      ensures job.methodName == name && job.params == List([]) && !job.notify
    {
      job := new MultiCallMethod(name, false);
      jobs := jobs + [job];
    }

    /** `_notify`: a view that adds notification jobs to this batch. */
    method Notify() returns (n: MultiCallNotify)
      ensures fresh(n) && n.multicall == this
    {
      n := new MultiCallNotify(this);
    }

    /** The list comprehension `[job.request() for job in self._job_list]`. */
    method RenderJobs(enc: Encoder) returns (r: Result<seq<string>>)
      ensures r == Texts(enc, Pending())
    {
      var texts: seq<string> := [];
      var i := 0;
      while i < |jobs|
        invariant 0 <= i <= |jobs| && |texts| == i
        invariant forall j :: 0 <= j < i ==> Pending()[j].Render(enc) == Ok(texts[j])
      {
        var t := jobs[i].Pending().Render(enc);
        if t.Err? {
          TextsFirstError(enc, Pending(), i);
          return Err(t.error);
        }
        texts := texts + [t.value];
        i := i + 1;
      }
      TextsAllWritten(enc, Pending(), texts);
      r := Ok(texts);
    }

    /** `_request` (also `__call__`): nothing is sent for an empty batch; a
        job that cannot be written raises before anything is sent and leaves
        the jobs in place; otherwise the body goes to the server once, the job
        list is emptied, and a missing or empty answer becomes an empty
        iterator. `sent` is the body handed to the server, if any. */
    method Request(enc: Encoder) returns (sent: Option<string>, r: Result<Option<MultiCallIterator>>)
      modifies this
      ensures old(jobs) == [] ==> sent == None && r == Ok(None) && jobs == old(jobs)
      ensures old(jobs) != [] && old(Texts(enc, Pending())).Err? ==>
                sent == None && r == Err(old(Texts(enc, Pending())).error) && jobs == old(jobs)
      ensures old(jobs) != [] && old(Texts(enc, Pending())).Ok? ==>
                var body := BatchBody(old(Texts(enc, Pending())).value);
                && sent == Some(body)
                && jobs == []
                && r == Ok(Some(MultiCallIterator(server(body).GetOr([]))))
    {
      if |jobs| < 1 {
        return None, Ok(None);
      }
      var texts := RenderJobs(enc);
      if texts.Err? {
        return None, Err(texts.error);
      }
      var body := BatchBody(texts.value);
      var responses := server(body);
      jobs := [];
      sent := Some(body);
      r := Ok(Some(MultiCallIterator(responses.GetOr([]))));
    }
  }

  /** `MultiCallNotify`: the `_notify` view of a batch. */
  class MultiCallNotify {
    const multicall: MultiCall

    constructor (multicall: MultiCall)
      ensures this.multicall == multicall
    {
      this.multicall := multicall;
    }

    /** `__getattr__`: appends one notification job to the batch. */
    method Attr(name: string) returns (job: MultiCallMethod)
      modifies multicall
      ensures fresh(job)
      ensures multicall.jobs == old(multicall.jobs) + [job]
      ensures job.methodName == name && job.params == List([]) && job.notify
    {
      job := new MultiCallMethod(name, true);
      multicall.jobs := multicall.jobs + [job];
    }
  }

  // ---------------------------------------------------------------------
  // Properties of the batch
  // ---------------------------------------------------------------------

  /** When the jobs before `k` are written and job `k` fails, its exception
      is the batch's. */
  lemma TextsFirstError(enc: Encoder, calls: seq<PendingCall>, k: nat)
    requires k < |calls|
    requires forall j :: 0 <= j < k ==> calls[j].Render(enc).Ok?
    requires calls[k].Render(enc).Err?
    ensures Texts(enc, calls) == Err(calls[k].Render(enc).error)
  {
    var rs := seq(|calls|, i requires 0 <= i < |calls| => calls[i].Render(enc));
    var r := CollectSeq(rs);
    assert rs[k] == calls[k].Render(enc);
    var i :| 0 <= i < |rs| && rs[i] == Err(r.error) && forall j :: 0 <= j < i ==> rs[j].Ok?;
    assert rs[i] == calls[i].Render(enc);
  }

  /** When every job is written, the batch holds their texts in job order. */
  lemma TextsAllWritten(enc: Encoder, calls: seq<PendingCall>, texts: seq<string>)
    requires |texts| == |calls|
    requires forall j :: 0 <= j < |calls| ==> calls[j].Render(enc) == Ok(texts[j])
    ensures Texts(enc, calls) == Ok(texts)
  {
    var rs := seq(|calls|, i requires 0 <= i < |calls| => calls[i].Render(enc));
    assert forall j :: 0 <= j < |rs| ==> rs[j] == Ok(texts[j]);
    var r := CollectSeq(rs);
    assert r.value == texts;
  }

  /** A notification job can never be written (`Payload` has no `notify`), so
      a batch holding one raises `AttributeError` or an earlier job's error,
      and nothing is sent. */
  lemma NotifyJobFailsBatch(enc: Encoder, calls: seq<PendingCall>, k: nat)
    requires k < |calls| && calls[k].notify
    ensures calls[k].Render(enc) == Err(AttributeError)
    ensures Texts(enc, calls).Err?
  {
    var rs := seq(|calls|, i requires 0 <= i < |calls| => calls[i].Render(enc));
    assert rs[k] == calls[k].Render(enc);
  }

  /** The body is the jobs' texts between `[ ` and ` ]`, in job order, each
      followed by a comma unless it is the last. */
  lemma BatchBodyLayout(texts: seq<string>, k: nat)
    requires k < |texts|
    ensures var body := BatchBody(texts);
            var o := 2 + Offset(",", texts, k);
            && body[..2] == "[ " && body[|body| - 2..] == " ]"
            && o + |texts[k]| <= |body| - 2
            && body[o..o + |texts[k]|] == texts[k]
            && (k + 1 < |texts| ==> body[o + |texts[k]|] == ',')
  {
    var j := Join(",", texts);
    var body := BatchBody(texts);
    JoinSegment(",", texts, k);
    var o := Offset(",", texts, k);
    assert body[2 + o..2 + o + |texts[k]|] == j[o..o + |texts[k]|];
    if k + 1 < |texts| {
      assert j[o + |texts[k]|..Offset(",", texts, k + 1)] == ",";
      assert body[2 + o + |texts[k]|] == j[o + |texts[k]|];
    }
  }

  /** Responses built by `Payload.response` come back from the iterator in
      batch order, followed by the `RuntimeError` that ends the generator. */
  method IterateResponses(xs: seq<Value>) returns (produced: seq<Value>, raised: Error)
    ensures produced == xs && raised == RuntimeError
  {
    var it := MultiCallIterator(seq(|xs|, i requires 0 <= i < |xs| => Response(xs[i])));
    produced, raised := Iterate(it);
  }

  /** A whole batch: `mc.add(1, 2)`, then `mc.ping` left uncalled, then
      `mc()`. The body holds the two requests in that order; the uncalled job
      keeps its empty params, so its request has no `params` key. */
  method TwoJobBatch(enc: Encoder, server: string -> Option<seq<Value>>)
    returns (sent: Option<string>, r: Result<Option<MultiCallIterator>>)
    ensures var add := PendingCall("add", Tuple([Int(1), Int(2)]), false).Render(enc);
            var ping := PendingCall("ping", List([]), false).Render(enc);
            && (add.Ok? && ping.Ok? ==> sent == Some(BatchBody([add.value, ping.value])))
            && (add.Err? ==> sent == None && r == Err(add.error))
  {
    var mc := new MultiCall(server);
    var add := mc.Attr("add");
    var _ := add.Call([Int(1), Int(2)], map[]);
    var ping := mc.Attr("ping");
    assert mc.Pending() == [PendingCall("add", Tuple([Int(1), Int(2)]), false), PendingCall("ping", List([]), false)];
    var calls := mc.Pending();
    var t := Texts(enc, calls);
    var renderAdd := calls[0].Render(enc);
    if renderAdd.Err? {
      TextsFirstError(enc, calls, 0);
    } else if calls[1].Render(enc).Ok? {
      TextsAllWritten(enc, calls, [renderAdd.value, calls[1].Render(enc).value]);
    }
    sent, r := mc.Request(enc);
  }

  /** A job that was never called keeps the empty list as params, which is
      falsy, so its request carries no `params` key. */
  lemma UncalledJobRequest(enc: Encoder, name: string)
    ensures PendingCall(name, List([]), false).Render(enc) == enc(Dict(map["method" := Str(name)]))
  {
    JsonClassProperties.DumpSequence([], JsonClass.DefaultOptions());
  }

  /** The iterator does not surface server errors: an error envelope projects
      to its `None` result. */
  lemma ErrorResponseReadsAsNone(code: Value, message: Value, rest: seq<Value>)
    ensures MultiCallIterator([ErrorResponse(code, message)] + rest).Get(0) == Ok(Null)
  {
  }

  /** A missing or empty server answer gives an iterator that ends at once. */
  lemma EmptyAnswer(answer: Option<seq<Value>>)
    requires answer.None? || answer.value == []
    ensures MultiCallIterator(answer.GetOr([])).Len() == 0
  {
  }
}
