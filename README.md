# jsonrpclibveles, modelled in Dafny

jsonrpclibveles is a small JSON-RPC client. This model covers its pure and
simply-stateful core:

- **the wire layer** of `jsonrpc.py` (module `JsonRpc`, `jsonrpc.dfy`): the
  envelopes `Payload` builds (`request`, `response`, `error`), `Fault`, the
  encoder `dumps` (the `Fault` short cut, the method-name check, response or
  request), `loads`, `isbatch`, and the `_Method` call-name builder;
- **batching** in `jsonrpc.py` (module `MultiCalls`, `multicall.dfy`): the
  `MultiCall` job list and its one server round trip, the jobs
  (`MultiCallMethod`), the `_notify` view (`MultiCallNotify`), and the
  `MultiCallIterator` that reads each response's `result`;
- **the `__jsonclass__` codec** of `jsonprclibveles/jsonclass.py` (module
  `JsonClass` for the codec and `JsonClassProperties` for the properties,
  `jsonclass.dfy`): `dump` tags instances of user classes, and `load` checks
  the tags and rebuilds the instances;
- **the request/response log** of `jsonprclibveles/history.py` (module
  `CallHistory`, `history.dfy`);
- **the configuration** of `config.py` (module `Config`, `config.dfy`): the
  `LocalClasses` registry, the codec's defaults and `Config.instance()`.

Shared definitions:

- `Values` (`values.dfy`) is the Python value tree the code handles. It
  covers `None`, bool, int, float (opaque IEEE bits), str, list, tuple, dicts
  with string keys, and instances of user classes.
- An instance is a record, `HostObject`. It holds the class and its module,
  the serialization methods it answers to with what they return, the
  list-valued attributes `getattr` finds, and `__dict__`.
- `Errors` (`errors.dfy`) holds the Python exceptions that can escape, and the
  `Result` type that stands for "returns or raises".
- `Strings` (`strings.dfy`) models `str.join`.

Some things are parameters of the model:

- the JSON text codec (`json.dumps`/`json.loads`);
- the server round trip of a batch;
- the dynamic import of a dotted class tag;
- the constructor call that rebuilds an instance.

Classes with class-level state are modelled as two classes:

- `History` and `Config` keep their lists, registry and `_instance` slot on
  the class.
- The model gives that state its own object, `HistoryClass` or
  `ConfigClass`.
- Every instance holds a reference to that object, so all instances share one
  log and one registry, as in Python.

The envelopes follow JSON-RPC 2.0 in three points: by-position and by-name
params (section 4.2), the -32000 server error code (section 5.1), and batches
as arrays (section 6). Like the code, they carry no `jsonrpc` member and no
`id` member.

Where this model follows the code rather than a plain reading of it:

- `MultiCall._request` empties its job list after the server call returns,
  not before the call is made (jsonrpc.py:203-204).
- A `_notify` job makes the whole batch raise `AttributeError` before anything
  is sent. `dumps` calls `Payload.notify`, which does not exist.
- `MultiCallIterator.__iter__` ends with `raise StopIteration` inside a
  generator, and Python 3.7 and later turn that into `RuntimeError`.
- `None` is not passed through by `dump` or `load`. `value_types` lists the
  value `None`, not its type, so `dump(None)` raises `AttributeError` and
  `load(None)` raises `TypeError`.
- `dump` turns tuples into lists.

## Model

| member | source | states |
|---|---|---|
| `Errors.CollectSeq` | jsonprclibveles/jsonclass.py:46-49 | a for-loop that appends each result succeeds iff every step does, keeps the results in order, and otherwise raises the first failing step's exception |
| `Values.Truthy` | jsonrpc.py:271 | false exactly for `None`, `False`, `0`, `0.0`, `-0.0`, `''`, `[]`, `()` and `{}`, as Python's `if params:` tests |
| `Errors.CollectMap` | jsonprclibveles/jsonclass.py:95-98 | a loop filling a fresh dict succeeds iff every value does, with the same keys and each value's result; otherwise the exception of some failing value escapes |
| `Strings.JoinSegment` | jsonrpc.py:200-201 | `','.join(texts)` holds every text, in order, at its offset, with the separator between neighbours |
| `Config.LocalClasses.Lookup` | config.py:5-7 | a name is found iff it is registered, and then its class is returned |
| `Config.LocalClasses.Add` | config.py:6-7 | the class is stored under its bare name, replacing any earlier class of that name; every other name keeps its class |
| `Config.ConfigClass.constructor` | config.py:10-15 | the defaults are `use_jsonclass = True`, `serialize_method = '_serialize'` and `ignore_attribute = '_ignore'`, with one empty class registry |
| `Config.ConfigClass.Instance` | config.py:21-25 | the instance is created on the first call only; every later call returns that same object |
| `Config.InstanceTwice` | config.py:15-25 | two calls of `instance()` return the same object, and it sees the one class-level registry |
| `CallHistory.HistoryClass.constructor` | jsonprclibveles/history.py:4-7 | the class starts with empty request and response logs and no instance |
| `CallHistory.HistoryClass.Instance` | jsonprclibveles/history.py:9-13 | the instance is created on the first call only; every later call returns that same object, and the logs are untouched |
| `CallHistory.History.AddResponse` | jsonprclibveles/history.py:15-16 | the response is appended at the end of the shared log, `requests` is unchanged, and `response` now returns it |
| `CallHistory.History.AddRequest` | jsonprclibveles/history.py:18-19 | the request is appended at the end of the shared log, `responses` is unchanged, and `request` now returns it |
| `CallHistory.History.Request` | jsonprclibveles/history.py:21-26 | `None` exactly when no request was logged, otherwise the latest one |
| `CallHistory.History.Response` | jsonprclibveles/history.py:28-33 | `None` exactly when no response was logged, otherwise the latest one |
| `CallHistory.History.Clear` | jsonprclibveles/history.py:35-37 | both shared logs are emptied, so both accessors return `None` |
| `CallHistory.SharedLog` | jsonprclibveles/history.py:4-19 | what one instance logs, another instance of the same class reads back |
| `JsonClass.Options` | jsonprclibveles/jsonclass.py:36-40 | a missing or empty serialization method or ignore attribute name becomes the configured default; the caller's ignore list is kept |
| `JsonClass.KeptAttributes` | jsonprclibveles/jsonclass.py:74-78 | exactly the attributes of supported type whose name and value are both outside the ignore list (`_ignore` plus the caller's), with their values |
| `JsonClass.CollectDumped` | jsonprclibveles/jsonclass.py:73-81 | given `dump` results (whose one exception is `AttributeError`), the attribute loop succeeds iff every value dumps, with the same keys and each dumped value; on failure it raises a failing value's `AttributeError` |
| `JsonClass.Dump` | jsonprclibveles/jsonclass.py:36-82 | int, float, str and bool come back unchanged; over the instance record modelled here, whose `_ignore` is a list and whose serializer returns a pair, the only exception `dump` raises is `AttributeError` |
| `JsonClass.TagParts` | jsonprclibveles/jsonclass.py:100-101 | the tag's first two items (for a str, its first two characters as one-character strings); fewer than two give `IndexError`, a dict tag gives `KeyError`, and a tag that cannot be indexed (`None`, a number, a bool, an instance) gives `TypeError` |
| `JsonClass.TagName` | jsonprclibveles/jsonclass.py:59-63 | the tag is the bare class name for a class of module `''` or `'__main__'`, otherwise the module name, a `.` and the class name |
| `JsonClass.IgnoreList` | jsonprclibveles/jsonclass.py:74 | the object's own `_ignore` list (or nothing) followed by the caller's list; a value is in it iff it is in one of the two |
| `JsonClass.SetAttributes` | jsonprclibveles/jsonclass.py:135-138 | every envelope key except the tag becomes an attribute with its value; class and methods are kept, and so is every attribute the envelope does not name |
| `JsonClass.LastDot` | jsonprclibveles/jsonclass.py:117-118 | the last `.` of a dotted tag, which splits it into module path and class name |
| `JsonClass.ResolveClass` | jsonprclibveles/jsonclass.py:102-127 | the empty tag is refused first, then a tag with characters outside `[A-Za-z0-9_.]`; a bare name resolves through the registry or raises "unknown class"; a dotted name goes to the importer with the module path before its last `.` and the class name after it, and raises "could not import" when that fails; a non-string tag raises `TypeError` |
| `JsonClass.Construct` | jsonprclibveles/jsonclass.py:128-134 | list or dict constructor arguments build the instance; any other shape raises `TranslationError` |
| `JsonClass.Load` | jsonprclibveles/jsonclass.py:85-139 | int, float, str and bool come back unchanged; `None` and instances raise `TypeError`; an untagged dict keeps its keys |
| `JsonClass.LoadAsWritten` | jsonprclibveles/jsonclass.py:94-99 | with `iteritems` on Python 3, every dict makes `load` raise |
| `JsonClassProperties.DumpSequence` | jsonprclibveles/jsonclass.py:44-52 | a list or a tuple dumps to a list of the same length whose element i is `dump(obj[i])`; a tuple and a list with the same items dump alike |
| `JsonClassProperties.DumpDictionary` | jsonprclibveles/jsonclass.py:53-58 | a dict dumps to a dict with exactly the same keys, each value dumped; it fails iff some value does |
| `JsonClassProperties.DumpJson` | jsonprclibveles/jsonclass.py:23-58 | on a tree without instances, `dump` succeeds exactly when no `None` occurs, and then yields JSON |
| `JsonClassProperties.DumpPlain` | jsonprclibveles/jsonclass.py:41-58 | `dump` is the identity on trees of bools, numbers, strings, lists and dicts |
| `JsonClassProperties.LoadList` | jsonprclibveles/jsonclass.py:89-93 | a list loads element-wise, in order; the first failing element's exception escapes |
| `JsonClassProperties.LoadDictionary` | jsonprclibveles/jsonclass.py:94-99 | an untagged dict loads to the same keys with each value loaded |
| `JsonClassProperties.LoadPlain` | jsonprclibveles/jsonclass.py:85-99 | `load` is the identity on trees without `None` and without the tag key |
| `JsonClassProperties.RoundTrip` | jsonprclibveles/jsonclass.py:41-99 | `load(dump(x)) == x` for every tree of bools, numbers, strings, lists and dicts with no `__jsonclass__` key |
| `JsonClassProperties.DumpSerialized` | jsonprclibveles/jsonclass.py:59-71 | with a serialization method, the envelope is the tag `[name, params]` with `attrs` merged in as returned, not dumped |
| `JsonClassProperties.DumpFallback` | jsonprclibveles/jsonclass.py:72-82 | without one, the envelope is the tag `[name, []]` plus exactly the kept attributes, each dumped; unsupported attributes are dropped |
| `JsonClassProperties.TagResolvesToClass` | jsonprclibveles/jsonclass.py:59-127 | the tag `dump` writes resolves on `load` to the registered class for a bare name, or to what the importer finds for the module path and class name |
| `JsonClassProperties.LoadTagged` | jsonprclibveles/jsonclass.py:100-138 | a tagged dict loads iff the tag resolves and the arguments are a list or dict; the result is the constructed instance, with its class, methods and own attributes kept, plus every other key's value, not loaded; otherwise the tag's `IndexError`/`KeyError`/`TypeError`, the resolution error or the bad-arguments `TranslationError` escapes, in that order |
| `JsonClassProperties.TaggedRoundTrip` | jsonprclibveles/jsonclass.py:59-138 | an instance whose tag resolves to its class is rebuilt from its serialized arguments, with its serialized attributes set |
| `JsonClassProperties.PointRoundTrip` | jsonprclibveles/jsonclass.py:59-71 | a registered `Point` serializing to `([x, y], {})` dumps to `{"__jsonclass__": ["Point", [x, y]]}` and loads as `Point(x, y)` |
| `JsonClassProperties.InvalidTagRejected` | jsonprclibveles/jsonclass.py:104-107 | a tag with a character outside the allowed set (`bad;tag`) raises `TranslationError` |
| `JsonClassProperties.UnregisteredTagRejected` | jsonprclibveles/jsonclass.py:110-114 | a bare tag that is not in the registry raises `TranslationError` |
| `JsonClassProperties.IteritemsOnPython3` | jsonprclibveles/jsonclass.py:94-99 | as written, `load({"a": 1})` raises `AttributeError`; with `items()` it returns `{"a": 1}` |
| `JsonRpc.Request` | jsonrpc.py:267-273 | a method that is not a `str` raises `ValueError`; otherwise the envelope has `method`, plus `params` exactly when the params are truthy |
| `JsonRpc.Response` | jsonrpc.py:275-277 | exactly one key, `result`, holding the result, `None` included |
| `JsonRpc.ErrorResponse` | jsonrpc.py:279-283 | exactly `result: None` and `error: {code, message}` |
| `JsonRpc.DefaultErrorResponse` | jsonrpc.py:279 | the default error is code -32000 with message `'Server error.'` |
| `JsonRpc.Fault.Error` | jsonrpc.py:253-254 | exactly `code` and `message`, the fault's own; it is what the error envelope nests as `error` |
| `JsonRpc.DefaultFault` | jsonrpc.py:248-251 | a default `Fault` has code -32000, message `'Server error'` and no id |
| `JsonRpc.Envelope` | jsonrpc.py:296-324 | a `Fault` gives its error envelope whatever the other arguments; otherwise a non-`str` method name without `methodresponse` raises `ValueError`; a response wraps the dumped params; a notification raises `AttributeError`; a request is `Payload.request` of the dumped params |
| `JsonRpc.EnvelopeAsWritten` | jsonrpc.py:312-314 | as written, every non-`Fault` call that passes the method-name check raises `AttributeError` at `config.use_jsonclass` |
| `JsonRpc.Dumps` | jsonrpc.py:296-324 | the text is the JSON encoder applied to the envelope; an exception raised while building the envelope escapes |
| `JsonRpc.FaultResponse` | jsonrpc.py:256-257 | `Fault.response()` is the encoded error envelope of the fault's code and message |
| `JsonRpc.Loads` | jsonrpc.py:327-331 | the empty text is `None`; any other text is decoded |
| `JsonRpc.IsBatch` | jsonrpc.py:334-341 | true iff the value is a non-empty list or tuple whose first element is a dict |
| `JsonRpc.Method.Attr` | jsonrpc.py:234-235 | attribute access gives the dotted name `name.attr` |
| `JsonRpc.Method.Call` | jsonrpc.py:224-232 | positional and keyword arguments together raise `ProtocolError` before anything is sent; otherwise the name is sent with the positional tuple if there is one, else the keyword dict |
| `JsonRpc.ChainName` | jsonrpc.py:234-235 | a chain of attribute accesses names the dot-joined path of all its parts |
| `JsonRpc.EnvelopeKinds` | jsonrpc.py:267-283 | a request, a response and an error envelope are told apart by their keys |
| `JsonRpc.FaultEnvelope` | jsonrpc.py:304-306 | the error envelope `dumps` writes for a `Fault` nests exactly `Fault.error()` |
| `JsonRpc.BatchOfResponses` | jsonrpc.py:334-341 | a non-empty list of response envelopes is a batch; a single response or error envelope is not |
| `JsonRpc.UseJsonclassLookup` | jsonrpc.py:312-314 | as written, the request for `add(1, 2)` raises `AttributeError`; the corrected encoder gives `{"method": "add", "params": [1, 2]}` |
| `JsonRpc.RequestWireRoundTrip` | jsonrpc.py:296-331 | for params with no `None` and no instance, `loads(dumps(params, m))` gives back the request envelope of the dumped params, given a JSON codec that round-trips |
| `MultiCalls.PendingCall.Render` | jsonrpc.py:153-154 | a notification job, or params that cannot be dumped, raise `AttributeError`; otherwise the text is the encoded request envelope of the job's name and dumped params |
| `MultiCalls.BatchBody` | jsonrpc.py:200-201 | the body is `[ `, the comma-joined texts and ` ]`, and nothing else |
| `MultiCalls.MultiCallMethod.constructor` | jsonrpc.py:139-142 | a new job has its method name, empty list params and its notify flag |
| `MultiCalls.MultiCallMethod.Attr` | jsonrpc.py:159-162 | attribute access extends the job's own name to `name.attr` and returns the same job |
| `MultiCalls.MultiCallMethod.Call` | jsonrpc.py:144-151 | positional and keyword arguments together raise `ProtocolError` and leave the params as they were; otherwise non-empty keyword arguments win over the positional tuple |
| `MultiCalls.MultiCallIterator.Len` | jsonrpc.py:188-189 | the length is the number of responses |
| `MultiCalls.MultiCallIterator.Get` | jsonrpc.py:184-186 | item i is `results[i]['result']`, with Python's negative indices; an out-of-range index raises `IndexError` |
| `MultiCalls.ResultField` | jsonrpc.py:186 | `item['result']`: the value when present, `KeyError` for a dict without it, `TypeError` for anything else |
| `MultiCalls.Iterate` | jsonrpc.py:179-182 | iteration produces the items in order until one raises; after the last item it raises `RuntimeError` |
| `MultiCalls.MultiCall.constructor` | jsonrpc.py:193-195 | a new batch has an empty job list and its server |
| `MultiCalls.MultiCall.Attr` | jsonrpc.py:212-215 | attribute access appends exactly one new job at the end; earlier jobs stay as they were |
| `MultiCalls.MultiCall.Notify` | jsonrpc.py:208-210 | `_notify` is a fresh view on this batch |
| `MultiCalls.MultiCall.RenderJobs` | jsonrpc.py:200-201 | the jobs' texts in job order, or the first failing job's exception |
| `MultiCalls.MultiCall.Request` | jsonrpc.py:197-206 | an empty batch sends nothing; a job that cannot be written raises, sends nothing and keeps the jobs; otherwise the body `[ t1,...,tn ]` is sent once, the job list is emptied, and a missing answer gives an empty iterator (`if not responses:` at line 204 is modelled by `GetOr([])`: the answer is `None` or a list, and for those the two agree) |
| `MultiCalls.MultiCallNotify.constructor` | jsonrpc.py:166-167 | the view refers to its batch |
| `MultiCalls.MultiCallNotify.Attr` | jsonrpc.py:169-172 | attribute access appends one notification job at the end of the batch |
| `MultiCalls.TextsFirstError` | jsonrpc.py:200-201 | when every job before k is written and job k fails, its exception is the batch's |
| `MultiCalls.TextsAllWritten` | jsonrpc.py:200-201 | when every job is written, the batch's texts are theirs, in job order |
| `MultiCalls.NotifyJobFailsBatch` | jsonrpc.py:319-321 | a notification job always raises `AttributeError`, so a batch holding one cannot be written |
| `MultiCalls.BatchBodyLayout` | jsonrpc.py:200-201 | the body starts with `[ `, ends with ` ]`, and holds each job's text in order, each followed by a comma unless it is the last |
| `MultiCalls.IterateResponses` | jsonrpc.py:179-186 | response envelopes read back in batch order, followed by `RuntimeError` |
| `MultiCalls.TwoJobBatch` | jsonrpc.py:197-215 | calling `add(1, 2)` and then leaving `ping` uncalled sends `[ <add>,<ping> ]`; if `add` cannot be written, nothing is sent |
| `MultiCalls.UncalledJobRequest` | jsonrpc.py:139-154 | a job never called keeps its empty params, so its request has no `params` key |
| `MultiCalls.ErrorResponseReadsAsNone` | jsonrpc.py:184-186 | an error envelope reads as `None`: the iterator does not surface server errors |
| `MultiCalls.EmptyAnswer` | jsonrpc.py:204-206 | a missing or empty answer gives an iterator of length zero |

## Left out

- `ServerProxy` (jsonrpc.py:14-66) is left out. It does URL parsing, owns the transport and logs each request and response. The server round trip of a batch is the function `MultiCall.server`. `_Method` returns the `(name, params)` pair it would hand to `send`.
- `WSTransport` (jsonrpc.py:88-104) is left out: it is websocket I/O.
- `JSONParser` and `JSONTarget` (jsonrpc.py:68-86) are left out: nothing in the core uses them.
- The `log` module that jsonrpc.py imports is not part of this model.
- `jdumps` and `jloads` (jsonrpc.py:286-293) are the JSON text codec. They are the `Encoder` and `Decoder` parameters, and JSON text itself is not modelled.
- The first `_Method` (jsonrpc.py:106-127) is left out: the second definition shadows it.
- `_Notify` (jsonrpc.py:129-135) is left out: it only builds a `_Method` with another `send`, and nothing in the core creates one.
- `__repr__`, `__str__` and `__dir__` are left out: they only format objects for display.
- The `TypeError` branch of `dumps` (jsonrpc.py:298-302) is left out. It fires only when the method name is the type `str` itself, as in `dumps(5, str)`, and the value model cannot represent a type object.
- `import jsonclass` at jsonrpc.py:313 is left out: the corrected encoder applies `dump` unconditionally, as line 314 does.
- `Payload.notify` does not exist. A notification in `dumps` raises `AttributeError`, and no notification envelope is invented.
- `Fault.rpcid` is carried but never used, as in the code.
- `Config.version`, `Config.user_agent` and `PYTHON_VERSION` are left out: the core does not use them, and they depend on the running interpreter.
- jsonclass.py reads its defaults and registry from a `jsonprclibveles.config` module, which is not part of this model. `Config`'s defaults stand in for them, and the registry `load` consults is `LoadEnv.registry`.
- Reflection is replaced by the `HostObject` record: `inspect.getmodule`, `dir`, `getattr` and `__dict__`.
- Values of other built-in types are not modelled: set, bytes and complex take the instance path in Python. Dictionaries with non-string keys are not modelled either.
- Floats are opaque bits, used only for truthiness. Floating-point arithmetic is not modelled.
- `Errors.CollectMap`: dict order is not modelled, so it reports the exception of some failing value, not the first in insertion order. For the same reason the key order of the JSON text is not modelled.
- `JsonClass.ResolveClass`: every failure of a dotted tag's import is `TranslationError`. In the code, a failing `getattr` after a successful import raises `AttributeError`.
- `JsonClass.ResolveClass`: a dotted tag with an empty module path, such as `.Foo`, makes `__import__('')` raise `ValueError`, which `except ImportError` does not catch. The model gives the importer's answer for it instead.
- `JsonClass.Dump`: an `_ignore` attribute that is not a list (a tuple or a str makes `getattr(...) + ignore` raise `TypeError`), and a serialization method that raises or does not return a pair, are not modelled; their exceptions would escape `dump`.
- `MultiCalls.MultiCall.Request`: the server round trip always returns. A round trip that raises would leave the job list in place, since it is emptied only afterwards (jsonrpc.py:202-203); the model cannot show that.
- `JsonClass.Construct`: the constructor call always succeeds. An exception raised by a user class's `__init__` is not modelled.
- `JsonClass.KeptAttributes` and `JsonClass.KeepsAttribute`: the ignore list is matched by structural equality. An attribute of value `1` is kept when the ignore list holds `True`, where Python drops it (`1 in [True]`). Python's `==` also equates `1`, `1.0` and `True`, and never equates NaN with itself.
- `JsonClass.Load`: when several values of one dict fail, the model reports one of their exceptions, not necessarily the first in insertion order.
- `JsonClass.Dump` states only its scalar and error cases in its own contract. Its shapes on containers and instances are the lemmas `DumpSequence`, `DumpDictionary`, `DumpSerialized` and `DumpFallback`.
- History entries are of a generic type. The log stores whatever the transport hands it.
- `if not cls._instance` is modelled as a null test, because an instance of `History` or `Config` is always truthy.

## Findings

| source | as written | input that shows it | evidently intended | confidence | as-written member | corrected member |
|---|---|---|---|---|---|---|
| jsonprclibveles/jsonclass.py:96 | `obj.iteritems()` exists only on Python 2, so on Python 3 `load` raises `AttributeError` on every dict | `load({"a": 1})` | iterate with `items()` and return `{"a": 1}` (same for the `setattr` loop at line 135) | high, not executed | `JsonClass.LoadAsWritten`, `JsonClassProperties.IteritemsOnPython3` | `JsonClass.Load`, `JsonClassProperties.RoundTrip` |
| jsonrpc.py:312 | `config.use_jsonclass` reads an attribute of the imported `config` module, which defines it only on the class `Config`, so `dumps` raises `AttributeError` for every non-`Fault` call | `dumps((1, 2), 'add')` | read the configured default and send `{"method": "add", "params": [1, 2]}` | high, not executed | `JsonRpc.EnvelopeAsWritten`, `JsonRpc.UseJsonclassLookup` | `JsonRpc.Envelope`, `JsonRpc.RequestWireRoundTrip` |
