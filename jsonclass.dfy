/** jsonprclibveles/jsonclass.py: the `__jsonclass__` object codec. `Dump`
    turns Python values into JSON-shaped values, tagging instances of user
    classes; `Load` turns them back, rebuilding tagged instances. */
module JsonClass {
  import opened Errors
  import opened Values
  import Config

  /** The key that marks a dictionary as an encoded instance. */
  const JsonClassKey: string := "__jsonclass__"

  // ---------------------------------------------------------------------
  // Type categories
  // ---------------------------------------------------------------------

  /** `type(obj) in numeric_types + string_types + value_types`: int, float,
      str and bool. `value_types` lists the value `None` rather than its type,
      so `None` never matches. */
  predicate IsScalar(v: Value) {
    v.Bool? || v.Int? || v.Float? || v.Str?
  }

  /** `type(v) in supported_types`: the scalars and dict, list, tuple (again
      never `None`, and never an instance). */
  predicate IsSupported(v: Value) {
    IsScalar(v) || v.List? || v.Tuple? || v.Dict?
  }

  /** A character allowed in a type tag: `invalid_module_chars` is
      `[^a-zA-Z0-9\_\.]`. */
  predicate IsTagChar(c: char) {
    ('a' <= c <= 'z') || ('A' <= c <= 'Z') || ('0' <= c <= '9') || c == '_' || c == '.'
  }

  predicate ValidTagChars(s: string) {
    forall i :: 0 <= i < |s| ==> IsTagChar(s[i])
  }

  // ---------------------------------------------------------------------
  // dump
  // ---------------------------------------------------------------------

  /** The arguments of `dump` once the defaults are filled in. */
  datatype DumpOptions = DumpOptions(serializeMethod: string, ignoreAttribute: string, ignore: seq<Value>)

  /** `dump`'s first lines: a missing or empty method or attribute name falls
      back to the configured default. */
  function Options(serializeMethod: Option<string>, ignoreAttribute: Option<string>, ignore: seq<Value>): (o: DumpOptions)
    ensures o.ignore == ignore
    ensures o.serializeMethod == (if serializeMethod.GetOr("") == "" then Config.DefaultSerializeMethod else serializeMethod.value)
    ensures o.ignoreAttribute == (if ignoreAttribute.GetOr("") == "" then Config.DefaultIgnoreAttribute else ignoreAttribute.value)
  {
    DumpOptions(
      if serializeMethod.GetOr("") == "" then Config.DefaultSerializeMethod else serializeMethod.value,
      if ignoreAttribute.GetOr("") == "" then Config.DefaultIgnoreAttribute else ignoreAttribute.value,
      ignore)
  }

  /** `dump(obj)` with every option left out, as `jsonrpc.dumps` calls it. */
  function DefaultOptions(): DumpOptions {
    Options(None, None, [])
  }

  /** The tag of an instance: the class name, qualified by its module unless
      that module is `''` or `'__main__'`. */
  function TagName(cls: ClassRef): (t: string)
    ensures cls.moduleName in ["", "__main__"] ==> t == cls.name
    ensures cls.moduleName !in ["", "__main__"] ==>
              |t| == |cls.moduleName| + 1 + |cls.name|
              && t[..|cls.moduleName|] == cls.moduleName && t[|cls.moduleName|] == '.'
              && t[|cls.moduleName| + 1..] == cls.name
  {
    if cls.moduleName in ["", "__main__"] then cls.name else cls.moduleName + "." + cls.name
  }

  /** `getattr(obj, ignore_attribute, []) + ignore`. */
  function IgnoreList(h: HostObject, opts: DumpOptions): (l: seq<Value>)
    ensures opts.ignoreAttribute !in h.ignoreLists ==> l == opts.ignore
    ensures opts.ignoreAttribute in h.ignoreLists ==>
              var own := h.ignoreLists[opts.ignoreAttribute];
              |l| == |own| + |opts.ignore| && l[..|own|] == own && l[|own|..] == opts.ignore
    ensures forall x :: x in l <==> x in opts.ignore || (opts.ignoreAttribute in h.ignoreLists && x in h.ignoreLists[opts.ignoreAttribute])
  {
    (if opts.ignoreAttribute in h.ignoreLists then h.ignoreLists[opts.ignoreAttribute] else []) + opts.ignore
  }

  /** The reflection fallback keeps an attribute when its type is supported
      and neither its name nor its value is in the ignore list. */
  predicate KeepsAttribute(name: string, value: Value, ignoreList: seq<Value>) {
    IsSupported(value) && Str(name) !in ignoreList && value !in ignoreList
  }

  /** The attributes the reflection fallback keeps, with their values. */
  function KeptAttributes(h: HostObject, opts: DumpOptions): (kept: map<string, Value>)
    ensures forall k :: k in kept <==> k in h.dict && KeepsAttribute(k, h.dict[k], IgnoreList(h, opts))
    ensures forall k :: k in kept ==> kept[k] == h.dict[k]
  {
    map k | k in h.dict && KeepsAttribute(k, h.dict[k], IgnoreList(h, opts)) :: h.dict[k]
  }

  /** The loop that fills a fresh dict with dumped values. Every failure of
      `dump` is the same `AttributeError`, so the order in which Python visits
      the values does not change which exception escapes. */
  function CollectDumped(rs: map<string, Result<Value>>): (r: Result<map<string, Value>>)
    requires forall k :: k in rs && rs[k].Err? ==> rs[k].error == AttributeError
    ensures r.Ok? <==> forall k :: k in rs ==> rs[k].Ok?
    ensures r.Ok? ==> r.value.Keys == rs.Keys && forall k :: k in rs ==> rs[k] == Ok(r.value[k])
    ensures r.Err? ==> r.error == AttributeError && exists k :: k in rs && rs[k] == Err(r.error)
  {
    if exists k :: k in rs && rs[k].Err? then Err(AttributeError)
    else Ok(map k | k in rs :: rs[k].value)
  }

  /** `dump`. Its one failure is `dump(None)`: `None` falls through to the
      instance path, which finds no module and no `__dict__` for it, and
      raises `AttributeError`; the exception escapes every enclosing list and
      dict. */
  function Dump(v: Value, opts: DumpOptions): (r: Result<Value>)
    ensures r.Err? ==> r.error == AttributeError
    ensures IsScalar(v) ==> r == Ok(v)
    decreases v, 1
  {
    match v
    case Null => Err(AttributeError)
    case Bool(_) => Ok(v)
    case Int(_) => Ok(v)
    case Float(_) => Ok(v)
    case Str(_) => Ok(v)
    case List(xs) =>
      var items :- CollectSeq(DumpItems(v, xs, opts));
      Ok(List(items))
    case Tuple(xs) =>
      // `isinstance(obj_type, tuple)` tests a type against `tuple`: never true.
      var items :- CollectSeq(DumpItems(v, xs, opts));
      Ok(List(items))
    case Dict(d) =>
      var m :- CollectDumped(DumpEntries(v, d, opts));
      Ok(Dict(m))
    case Object(h) =>
      var name := TagName(h.cls);
      if opts.serializeMethod in h.methods then
        var s := h.methods[opts.serializeMethod];
        Ok(Dict(map[JsonClassKey := List([Str(name), s.params])] + s.attrs))
      else
        var attrs :- CollectDumped(DumpEntries(v, KeptAttributes(h, opts), opts));
        Ok(Dict(map[JsonClassKey := List([Str(name), List([])])] + attrs))
  }

  /** The items of a list or tuple `parent`, each dumped, in order. */
  function DumpItems(parent: Value, xs: seq<Value>, opts: DumpOptions): (rs: seq<Result<Value>>)
    requires forall i :: 0 <= i < |xs| ==> xs[i] < parent
    ensures |rs| == |xs| && forall i :: 0 <= i < |xs| ==> rs[i] == Dump(xs[i], opts)
    decreases parent, 0
  {
    seq(|xs|, i requires 0 <= i < |xs| => Dump(xs[i], opts))
  }

  /** The values of a dict, or the kept attributes of an instance, `parent`,
      each dumped under its key. */
  function DumpEntries(parent: Value, d: map<string, Value>, opts: DumpOptions): (rs: map<string, Result<Value>>)
    requires forall k :: k in d ==> d[k] < parent
    ensures rs.Keys == d.Keys && forall k :: k in d ==> rs[k] == Dump(d[k], opts)
    decreases parent, 0
  {
    map k | k in d :: Dump(d[k], opts)
  }

  // ---------------------------------------------------------------------
  // load
  // ---------------------------------------------------------------------

  /** What `load` depends on beyond its argument:
      - `registry`: the class registry, for a tag without a dot;
      - `resolve(modulePath, className)`: `__import__` and `getattr` for a
        dotted tag, `None` when they fail;
      - `construct(cls, args)`: the instance `cls(*args)` or `cls(**args)`
        returns. */
  datatype LoadEnv = LoadEnv(
    registry: map<string, ClassRef>,
    resolve: (string, string) -> Option<ClassRef>,
    construct: (ClassRef, Value) -> HostObject)

  /** `obj['__jsonclass__'][0]` and `obj['__jsonclass__'][1]`. */
  function TagParts(t: Value): (r: Result<(Value, Value)>)
    ensures (t.List? || t.Tuple?) && |t.items| >= 2 ==> r == Ok((t.items[0], t.items[1]))
    ensures (t.List? || t.Tuple?) && |t.items| < 2 ==> r == Err(IndexError)
    ensures t.Str? && |t.s| >= 2 ==> r == Ok((Str([t.s[0]]), Str([t.s[1]])))
    ensures t.Str? && |t.s| < 2 ==> r == Err(IndexError)
    ensures t.Dict? ==> r == Err(KeyError)
    ensures !(t.List? || t.Tuple? || t.Str? || t.Dict?) ==> r == Err(TypeError)
  {
    match t
    case List(xs) => if |xs| < 2 then Err(IndexError) else Ok((xs[0], xs[1]))
    case Tuple(xs) => if |xs| < 2 then Err(IndexError) else Ok((xs[0], xs[1]))
    case Str(s) => if |s| < 2 then Err(IndexError) else Ok((Str([s[0]]), Str([s[1]])))
    case Dict(_) => Err(KeyError)
    case _ => Err(TypeError)
  }

  /** The position of the last `.` of a dotted tag: what `split('.')`,
      `pop()` and `'.'.join(...)` separate into module path and class name. */
  function LastDot(s: string): (i: nat)
    requires '.' in s
    ensures i < |s| && s[i] == '.'
    ensures '.' !in s[i + 1..]
  {
    if s[|s| - 1] == '.' then |s| - 1
    else
      assert '.' in s[..|s| - 1] by {
        var j :| 0 <= j < |s| && s[j] == '.';
        assert s[..|s| - 1][j] == '.';
      }
      LastDot(s[..|s| - 1])
  }

  /** Tag validation and class resolution: the empty tag is refused first,
      then any character outside `[A-Za-z0-9_.]`; a bare name must be a key
      of the registry; a dotted name goes to the resolver. */
  function ResolveClass(name: Value, env: LoadEnv): (r: Result<ClassRef>)
    ensures name == Str("") ==> r == Err(TranslationError(EmptyName))
    ensures name.Str? && name.s != "" && !ValidTagChars(name.s) ==> r == Err(TranslationError(InvalidCharacters))
    ensures !name.Str? ==> r == Err(TypeError)
    ensures name.Str? && ValidTagChars(name.s) && '.' !in name.s && name.s != "" ==>
              r == (if name.s in env.registry then Ok(env.registry[name.s]) else Err(TranslationError(UnknownClass)))
    ensures name.Str? && name.s != "" && ValidTagChars(name.s) && '.' in name.s ==>
              var d := LastDot(name.s);
              var found := env.resolve(name.s[..d], name.s[d + 1..]);
              r == (if found.Some? then Ok(found.value) else Err(TranslationError(ImportFailed)))
    ensures r.Ok? ==> name.Str? && name.s != "" && ValidTagChars(name.s)
  {
    if name == Str("") then Err(TranslationError(EmptyName))
    else if !name.Str? then Err(TypeError)
    else if !ValidTagChars(name.s) then Err(TranslationError(InvalidCharacters))
    else if '.' !in name.s then
      if name.s in env.registry then Ok(env.registry[name.s]) else Err(TranslationError(UnknownClass))
    else
      var d := LastDot(name.s);
      match env.resolve(name.s[..d], name.s[d + 1..])
      case Some(cls) => Ok(cls)
      case None => Err(TranslationError(ImportFailed))
  }

  /** A list of arguments constructs positionally, a dict by keyword; any
      other shape is refused. */
  function Construct(cls: ClassRef, params: Value, env: LoadEnv): (r: Result<HostObject>)
    ensures r.Ok? <==> params.List? || params.Dict?
    ensures r.Ok? ==> r.value == env.construct(cls, params)
    ensures r.Err? ==> r.error == TranslationError(BadConstructorArgs)
  {
    if params.List? || params.Dict? then Ok(env.construct(cls, params))
    else Err(TranslationError(BadConstructorArgs))
  }

  /** The `setattr` loop: every key of the envelope but the tag becomes an
      attribute of the new instance, with its value as it is (not loaded). */
  function SetAttributes(h: HostObject, envelope: map<string, Value>): (r: HostObject)
    ensures r.cls == h.cls && r.methods == h.methods && r.ignoreLists == h.ignoreLists
    ensures r.dict.Keys == h.dict.Keys + (envelope.Keys - {JsonClassKey})
    ensures forall k :: k in envelope && k != JsonClassKey ==> r.dict[k] == envelope[k]
    ensures forall k :: k in h.dict && k !in envelope ==> r.dict[k] == h.dict[k]
  {
    h.(dict := h.dict + map k | k in envelope && k != JsonClassKey :: envelope[k])
  }

  /** `load`, with each dictionary visited by `items()` (see `LoadAsWritten`
      for the `iteritems()` the code calls). */
  ghost function Load(v: Value, env: LoadEnv): (r: Result<Value>)
    ensures IsScalar(v) ==> r == Ok(v)
    ensures v.Null? || v.Object? ==> r == Err(TypeError)
    ensures v.Dict? && JsonClassKey !in v.entries && r.Ok? ==>
              r.value.Dict? && r.value.entries.Keys == v.entries.Keys
    decreases v
  {
    match v
    case Null => Err(TypeError)
    case Bool(_) => Ok(v)
    case Int(_) => Ok(v)
    case Float(_) => Ok(v)
    case Str(_) => Ok(v)
    case Object(_) => Err(TypeError)
    case Tuple(xs) =>
      // not a list; `'__jsonclass__' in obj` is a membership test
      if Str(JsonClassKey) in xs then Err(TypeError) else Err(AttributeError)
    case List(xs) =>
      var rs := seq(|xs|, i requires 0 <= i < |xs| => Load(xs[i], env));
      assert forall i :: 0 <= i < |xs| ==> rs[i] == Load(xs[i], env);
      var items :- CollectSeq(rs);
      Ok(List(items))
    case Dict(d) =>
      if JsonClassKey !in d then
        var m :- CollectMap(map k | k in d :: Load(d[k], env));
        Ok(Dict(m))
      else
        var parts :- TagParts(d[JsonClassKey]);
        var cls :- ResolveClass(parts.0, env);
        var h :- Construct(cls, parts.1, env);
        Ok(Object(SetAttributes(h, d)))
  }

  /** `load` as written: on Python 3 a dictionary has no `iteritems`, so
      every dictionary raises `AttributeError`, a tagged one after its tag
      has been checked and its instance constructed. */
  ghost function LoadAsWritten(v: Value, env: LoadEnv): (r: Result<Value>)
    ensures v.Dict? ==> r.Err?
    decreases v
  {
    match v
    case List(xs) =>
      var rs := seq(|xs|, i requires 0 <= i < |xs| => LoadAsWritten(xs[i], env));
      assert forall i :: 0 <= i < |xs| ==> rs[i] == LoadAsWritten(xs[i], env);
      var items :- CollectSeq(rs);
      Ok(List(items))
    case Dict(d) =>
      if JsonClassKey !in d then Err(AttributeError)
      else
        var parts :- TagParts(d[JsonClassKey]);
        var cls :- ResolveClass(parts.0, env);
        var _ :- Construct(cls, parts.1, env);
        Err(AttributeError)
    case _ => Load(v, env)
  }
}

/** Properties of the codec: shapes of `dump` and `load` on containers and
    instances, tag handling, and the round trips. */
module JsonClassProperties {
  import opened Errors
  import opened Values
  import opened JsonClass
  import Config

  /** A tree of bools, ints, floats, strings, lists and dicts, with no `None`
      and no `__jsonclass__` key at any level. */
  predicate PlainTree(v: Value) {
    match v
    case Bool(_) => true
    case Int(_) => true
    case Float(_) => true
    case Str(_) => true
    case List(xs) => forall i :: 0 <= i < |xs| ==> PlainTree(xs[i])
    case Dict(d) => JsonClassKey !in d && forall k :: k in d ==> PlainTree(d[k])
    case _ => false
  }

  /** `dump` of a list or a tuple: a list of the same length whose element
      `i` is `dump(obj[i])`; it fails exactly when some element does. */
  lemma DumpSequence(xs: seq<Value>, opts: DumpOptions)
    ensures Dump(Tuple(xs), opts) == Dump(List(xs), opts)
    ensures Dump(List(xs), opts).Ok? <==> forall i :: 0 <= i < |xs| ==> Dump(xs[i], opts).Ok?
    ensures Dump(List(xs), opts).Ok? ==>
              Dump(List(xs), opts).value.List? &&
              |Dump(List(xs), opts).value.items| == |xs| &&
              forall i :: 0 <= i < |xs| ==> Dump(xs[i], opts) == Ok(Dump(List(xs), opts).value.items[i])
  {
    var rs := DumpItems(List(xs), xs, opts);
    assert DumpItems(Tuple(xs), xs, opts) == rs;
  }

  /** `dump` of a dict keeps exactly its keys and dumps each value; it fails
      exactly when some value does. */
  lemma DumpDictionary(d: map<string, Value>, opts: DumpOptions)
    ensures Dump(Dict(d), opts).Ok? <==> forall k :: k in d ==> Dump(d[k], opts).Ok?
    ensures Dump(Dict(d), opts).Ok? ==>
              Dump(Dict(d), opts).value.Dict? &&
              Dump(Dict(d), opts).value.entries.Keys == d.Keys &&
              forall k :: k in d ==> Dump(d[k], opts) == Ok(Dump(Dict(d), opts).value.entries[k])
  {
    var rs := DumpEntries(Dict(d), d, opts);
  }

  /** On a tree without instances `dump` succeeds exactly when no `None`
      occurs, and its result is JSON without `None`. */
  lemma {:induction false} DumpJson(v: Value, opts: DumpOptions)
    requires !HasObject(v)
    ensures Dump(v, opts).Ok? <==> !HasNull(v)
    ensures Dump(v, opts).Ok? ==> IsJson(Dump(v, opts).value) && !HasNull(Dump(v, opts).value)
    decreases v
  {
    match v
    case List(xs) =>
      forall i | 0 <= i < |xs| ensures Dump(xs[i], opts).Ok? <==> !HasNull(xs[i])
        ensures Dump(xs[i], opts).Ok? ==> IsJson(Dump(xs[i], opts).value) && !HasNull(Dump(xs[i], opts).value)
      {
        DumpJson(xs[i], opts);
      }
      DumpSequence(xs, opts);
    case Tuple(xs) =>
      forall i | 0 <= i < |xs| ensures Dump(xs[i], opts).Ok? <==> !HasNull(xs[i])
        ensures Dump(xs[i], opts).Ok? ==> IsJson(Dump(xs[i], opts).value) && !HasNull(Dump(xs[i], opts).value)
      {
        DumpJson(xs[i], opts);
      }
      DumpSequence(xs, opts);
    case Dict(d) =>
      forall k | k in d ensures Dump(d[k], opts).Ok? <==> !HasNull(d[k])
        ensures Dump(d[k], opts).Ok? ==> IsJson(Dump(d[k], opts).value) && !HasNull(Dump(d[k], opts).value)
      {
        DumpJson(d[k], opts);
      }
      DumpDictionary(d, opts);
    case _ =>
  }

  /** `dump` is the identity on plain trees. */
  lemma {:induction false} DumpPlain(v: Value, opts: DumpOptions)
    requires PlainTree(v)
    ensures Dump(v, opts) == Ok(v)
    decreases v
  {
    match v
    case List(xs) =>
      forall i | 0 <= i < |xs| ensures Dump(xs[i], opts) == Ok(xs[i]) {
        DumpPlain(xs[i], opts);
      }
      DumpSequence(xs, opts);
      assert Dump(v, opts).value.items == xs;
    case Dict(d) =>
      forall k | k in d ensures Dump(d[k], opts) == Ok(d[k]) {
        DumpPlain(d[k], opts);
      }
      DumpDictionary(d, opts);
      assert Dump(v, opts).value.entries == d;
    case _ =>
  }

  /** `load` of a list: element `i` is `load(obj[i])`; the first failing
      element's exception escapes. */
  lemma LoadList(xs: seq<Value>, env: LoadEnv)
    ensures Load(List(xs), env).Ok? <==> forall i :: 0 <= i < |xs| ==> Load(xs[i], env).Ok?
    ensures Load(List(xs), env).Ok? ==>
              Load(List(xs), env).value.List? &&
              |Load(List(xs), env).value.items| == |xs| &&
              forall i :: 0 <= i < |xs| ==> Load(xs[i], env) == Ok(Load(List(xs), env).value.items[i])
    ensures Load(List(xs), env).Err? ==>
              exists i :: 0 <= i < |xs| && Load(xs[i], env) == Err(Load(List(xs), env).error) &&
                          forall j :: 0 <= j < i ==> Load(xs[j], env).Ok?
  {
    var rs := seq(|xs|, i requires 0 <= i < |xs| => Load(xs[i], env));
    assert forall i :: 0 <= i < |xs| ==> rs[i] == Load(xs[i], env);
  }

  /** `load` of a dict without the tag: the same keys, each value loaded. */
  lemma LoadDictionary(d: map<string, Value>, env: LoadEnv)
    requires JsonClassKey !in d
    ensures Load(Dict(d), env).Ok? <==> forall k :: k in d ==> Load(d[k], env).Ok?
    ensures Load(Dict(d), env).Ok? ==>
              Load(Dict(d), env).value.Dict? &&
              Load(Dict(d), env).value.entries.Keys == d.Keys &&
              forall k :: k in d ==> Load(d[k], env) == Ok(Load(Dict(d), env).value.entries[k])
    ensures Load(Dict(d), env).Err? ==> exists k :: k in d && Load(d[k], env) == Err(Load(Dict(d), env).error)
  {
    var rs := map k | k in d :: Load(d[k], env);
    assert forall k :: k in d ==> rs[k] == Load(d[k], env);
  }

  /** `load` is the identity on plain trees. */
  lemma {:induction false} LoadPlain(v: Value, env: LoadEnv)
    requires PlainTree(v)
    ensures Load(v, env) == Ok(v)
    decreases v
  {
    match v
    case List(xs) =>
      forall i | 0 <= i < |xs| ensures Load(xs[i], env) == Ok(xs[i]) {
        LoadPlain(xs[i], env);
      }
      LoadList(xs, env);
      assert Load(v, env).value.items == xs;
    case Dict(d) =>
      forall k | k in d ensures Load(d[k], env) == Ok(d[k]) {
        LoadPlain(d[k], env);
      }
      LoadDictionary(d, env);
      assert Load(v, env).value.entries == d;
    case _ =>
  }

  /** `dump` of an instance with the serialization method: the tag holds the
      tag name and `params` as returned, then `attrs` are merged in as they
      are (not dumped), overriding the tag if they carry one. */
  lemma DumpSerialized(h: HostObject, opts: DumpOptions)
    requires opts.serializeMethod in h.methods
    ensures var s := h.methods[opts.serializeMethod];
            var r := Dump(Object(h), opts);
            && r.Ok? && r.value.Dict?
            && r.value.entries.Keys == {JsonClassKey} + s.attrs.Keys
            && (forall k :: k in s.attrs ==> r.value.entries[k] == s.attrs[k])
            && (JsonClassKey !in s.attrs ==> r.value.entries[JsonClassKey] == List([Str(TagName(h.cls)), s.params]))
  {
  }

  /** `dump` of an instance without the serialization method: empty
      constructor arguments, and exactly the attributes the fallback keeps,
      each dumped. An attribute that is `None`, an instance, or listed by
      name or value in the ignore list is dropped. */
  lemma DumpFallback(h: HostObject, opts: DumpOptions)
    requires opts.serializeMethod !in h.methods
    ensures var kept := KeptAttributes(h, opts);
            var r := Dump(Object(h), opts);
            && (r.Ok? <==> forall k :: k in kept ==> Dump(kept[k], opts).Ok?)
            && (r.Ok? ==>
                  && r.value.Dict?
                  && r.value.entries.Keys == {JsonClassKey} + kept.Keys
                  && (forall k :: k in kept ==> Dump(kept[k], opts) == Ok(r.value.entries[k]))
                  && (JsonClassKey !in kept ==> r.value.entries[JsonClassKey] == List([Str(TagName(h.cls)), List([])]))
                  && (forall k :: k in h.dict && k != JsonClassKey && !IsSupported(h.dict[k]) ==> k !in r.value.entries))
  {
    var kept := KeptAttributes(h, opts);
    var attrs := CollectDumped(DumpEntries(Object(h), kept, opts));
    if attrs.Ok? {
      var envelope := map[JsonClassKey := List([Str(TagName(h.cls)), List([])])] + attrs.value;
      assert Dump(Object(h), opts) == Ok(Dict(envelope));
      assert envelope.Keys == {JsonClassKey} + kept.Keys;
    }
  }

  /** The tag `dump` writes for a class resolves back to that class: a bare
      name through the registry, a dotted name through the resolver, which is
      handed the module path and the class name. */
  lemma TagResolvesToClass(cls: ClassRef, env: LoadEnv)
    requires cls.name != "" && ValidTagChars(cls.name) && '.' !in cls.name
    requires cls.moduleName !in ["", "__main__"] ==> ValidTagChars(cls.moduleName)
    ensures cls.moduleName in ["", "__main__"] ==>
              ResolveClass(Str(TagName(cls)), env) ==
                (if cls.name in env.registry then Ok(env.registry[cls.name]) else Err(TranslationError(UnknownClass)))
    ensures cls.moduleName !in ["", "__main__"] ==>
              ResolveClass(Str(TagName(cls)), env) ==
                (if env.resolve(cls.moduleName, cls.name).Some? then Ok(env.resolve(cls.moduleName, cls.name).value)
                 else Err(TranslationError(ImportFailed)))
  {
    if cls.moduleName !in ["", "__main__"] {
      DottedTagChars(cls.moduleName, cls.name);
      LastDotOfDotted(cls.moduleName, cls.name);
      var s := cls.moduleName + "." + cls.name;
      assert s[..|cls.moduleName|] == cls.moduleName;
      assert s[|cls.moduleName| + 1..] == cls.name;
    }
  }

  /** `module.name` has only allowed characters when both parts do. */
  lemma DottedTagChars(m: string, n: string)
    requires ValidTagChars(m) && ValidTagChars(n)
    ensures ValidTagChars(m + "." + n)
  {
    var s := m + "." + n;
    forall i | 0 <= i < |s| ensures IsTagChar(s[i]) {
      if i < |m| {
        assert s[i] == m[i];
      } else if i > |m| {
        assert s[i] == n[i - |m| - 1];
      }
    }
  }

  /** The last dot of `module.name` is the one written after the module
      when the class name has none. */
  lemma LastDotOfDotted(m: string, n: string)
    requires '.' !in n
    ensures '.' in m + "." + n && LastDot(m + "." + n) == |m|
  {
    var s := m + "." + n;
    assert s[|m|] == '.';
    assert s[|m| + 1..] == n;
  }

  /** `load` of a tagged dict: the instance is built from the resolved class
      and the constructor arguments, and every other key of the envelope is
      set on it with its value as it stands, not loaded. */
  lemma LoadTagged(d: map<string, Value>, env: LoadEnv)
    requires JsonClassKey in d
    ensures var r := Load(Dict(d), env);
            var parts := TagParts(d[JsonClassKey]);
            && (r.Ok? <==> parts.Ok? && ResolveClass(parts.value.0, env).Ok? && (parts.value.1.List? || parts.value.1.Dict?))
            && (r.Ok? ==>
                  var c := env.construct(ResolveClass(parts.value.0, env).value, parts.value.1);
                  && r.value.Object?
                  && r.value.obj.cls == c.cls && r.value.obj.methods == c.methods
                  && r.value.obj.ignoreLists == c.ignoreLists
                  && r.value.obj.dict.Keys == c.dict.Keys + (d.Keys - {JsonClassKey})
                  && (forall k :: k in d && k != JsonClassKey ==> r.value.obj.dict[k] == d[k])
                  && (forall k :: k in c.dict && k !in d ==> r.value.obj.dict[k] == c.dict[k]))
    ensures var r := Load(Dict(d), env);
            var parts := TagParts(d[JsonClassKey]);
            && (parts.Err? ==> r == Err(parts.error))
            && (parts.Ok? && ResolveClass(parts.value.0, env).Err? ==> r == Err(ResolveClass(parts.value.0, env).error))
            && (parts.Ok? && ResolveClass(parts.value.0, env).Ok? && !(parts.value.1.List? || parts.value.1.Dict?) ==>
                  r == Err(TranslationError(BadConstructorArgs)))
  {
  }

  /** Tagged round trip: an instance whose serialization method returns list
      or dict arguments, and whose tag resolves to its class, is rebuilt by
      `load` from those arguments, with the serialized attributes set on it. */
  lemma TaggedRoundTrip(h: HostObject, opts: DumpOptions, env: LoadEnv)
    requires opts.serializeMethod in h.methods
    requires h.methods[opts.serializeMethod].params.List? || h.methods[opts.serializeMethod].params.Dict?
    requires JsonClassKey !in h.methods[opts.serializeMethod].attrs
    requires ResolveClass(Str(TagName(h.cls)), env) == Ok(h.cls)
    ensures var s := h.methods[opts.serializeMethod];
            var c := env.construct(h.cls, s.params);
            && Dump(Object(h), opts).Ok?
            && Load(Dump(Object(h), opts).value, env) == Ok(Object(c.(dict := c.dict + s.attrs)))
  {
    var s := h.methods[opts.serializeMethod];
    var envelope := map[JsonClassKey := List([Str(TagName(h.cls)), s.params])] + s.attrs;
    assert Dump(Object(h), opts) == Ok(Dict(envelope));
    assert (map k | k in envelope && k != JsonClassKey :: envelope[k]) == s.attrs;
  }

  /** The example of a registered `Point` whose serializer returns
      `([x, y], {})`: `dump` gives `{"__jsonclass__": ["Point", [x, y]]}` and
      `load` builds `Point(x, y)` from it. */
  lemma PointRoundTrip(x: int, y: int, env: LoadEnv, h: HostObject)
    requires h.cls == Values.ClassRef("Point", "__main__")
    requires h.methods == map[Config.DefaultSerializeMethod := Serialized(List([Int(x), Int(y)]), map[])]
    requires "Point" in env.registry && env.registry["Point"] == h.cls
    ensures Dump(Object(h), DefaultOptions()) == Ok(Dict(map[JsonClassKey := List([Str("Point"), List([Int(x), Int(y)])])]))
    ensures Load(Dump(Object(h), DefaultOptions()).value, env) == Ok(Object(env.construct(h.cls, List([Int(x), Int(y)]))))
  {
    var c := env.construct(h.cls, List([Int(x), Int(y)]));
    assert ValidTagChars("Point") by {
      assert forall i :: 0 <= i < 5 ==> IsTagChar("Point"[i]);
    }
    assert DefaultOptions().serializeMethod == Config.DefaultSerializeMethod;
    assert TagName(h.cls) == "Point";
    TagResolvesToClass(h.cls, env);
    TaggedRoundTrip(h, DefaultOptions(), env);
    assert map[JsonClassKey := List([Str("Point"), List([Int(x), Int(y)])])] + map[]
        == map[JsonClassKey := List([Str("Point"), List([Int(x), Int(y)])])];
    assert c.(dict := c.dict + map[]) == c;
  }

  /** A tag with a character outside the allowed set is refused. */
  lemma InvalidTagRejected(env: LoadEnv)
    ensures Load(Dict(map[JsonClassKey := List([Str("bad;tag"), List([])])]), env) == Err(TranslationError(InvalidCharacters))
  {
    assert !IsTagChar("bad;tag"[3]);
    assert ResolveClass(Str("bad;tag"), env) == Err(TranslationError(InvalidCharacters));
  }

  /** A bare tag that is not in the registry is refused. */
  lemma UnregisteredTagRejected(env: LoadEnv)
    requires "Unregistered" !in env.registry
    ensures Load(Dict(map[JsonClassKey := List([Str("Unregistered"), List([])])]), env) == Err(TranslationError(UnknownClass))
  {
    var t := "Unregistered";
    assert ValidTagChars(t) && '.' !in t by {
      assert forall i :: 0 <= i < |t| ==> IsTagChar(t[i]) && t[i] != '.';
    }
    assert ResolveClass(Str(t), env) == Err(TranslationError(UnknownClass));
  }

  /** The iteritems finding: as written, `load` of `{"a": 1}` raises
      `AttributeError` on Python 3, where `load` with `items()` returns the
      dict unchanged. */
  lemma IteritemsOnPython3(env: LoadEnv)
    ensures LoadAsWritten(Dict(map["a" := Int(1)]), env) == Err(AttributeError)
    ensures Load(Dict(map["a" := Int(1)]), env) == Ok(Dict(map["a" := Int(1)]))
  {
    LoadPlain(Dict(map["a" := Int(1)]), env);
  }

  /** Round trip: `load(dump(x)) == x` for every plain tree. */
  lemma RoundTrip(v: Value, opts: DumpOptions, env: LoadEnv)
    requires PlainTree(v)
    ensures Dump(v, opts).Ok? && Load(Dump(v, opts).value, env) == Ok(v)
  {
    DumpPlain(v, opts);
    LoadPlain(v, env);
  }
}
