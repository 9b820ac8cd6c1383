/** Python values as the codec sees them: JSON-shaped data, tuples, and
    instances of user classes. */
module Values {

  /** A class: its `__name__` and the `__name__` of the module that defines it. */
  datatype ClassRef = ClassRef(name: string, moduleName: string)

  /** What a zero-argument serialization method returns: `(params, attrs)`. */
  datatype Serialized = Serialized(params: Value, attrs: map<string, Value>)

  /** An instance of a user class, as far as `jsonclass.dump` inspects it:
      - `cls`: its class (and, through it, the module `inspect.getmodule` finds);
      - `methods`: the zero-argument methods it answers to, by name, with the
        pair each returns when called;
      - `ignoreLists`: list-valued attributes that `getattr` finds by name
        (typically the class-level `_ignore` list);
      - `dict`: its instance attributes, `obj.__dict__`. */
  datatype HostObject = HostObject(
    cls: ClassRef,
    methods: map<string, Serialized>,
    ignoreLists: map<string, seq<Value>>,
    dict: map<string, Value>)

  /** A Python value. `Null` is `None`; a float is kept opaque as its IEEE-754
      bits; dictionaries have string keys. */
  datatype Value =
    | Null
    | Bool(b: bool)
    | Int(i: int)
    | Float(bits: bv64)
    | Str(s: string)
    | List(items: seq<Value>)
    | Tuple(items: seq<Value>)
    | Dict(entries: map<string, Value>)
    | Object(obj: HostObject)

  /** Python truthiness (`if params:`, `if not responses:`); an instance is
      truthy, as user classes here define neither `__bool__` nor `__len__`. */
  predicate Truthy(v: Value): (b: bool)
    ensures !b <==> v == Null || v == Bool(false) || v == Int(0) || v == Str("")
                    || v == List([]) || v == Tuple([]) || v == Dict(map[])
                    || v == Float(0) || v == Float(0x8000_0000_0000_0000)
  {
    match v
    case Null => false
    case Bool(b) => b
    case Int(i) => i != 0
    case Float(bits) => bits & 0x7FFF_FFFF_FFFF_FFFF != 0
    case Str(s) => s != ""
    case List(xs) => xs != []
    case Tuple(xs) => xs != []
    case Dict(d) => d != map[]
    case Object(_) => true
  }

  /** A value that `json.dumps` writes as JSON text and `json.loads` can
      return: no tuples and no instances. */
  predicate IsJson(v: Value) {
    match v
    case Null => true
    case Bool(_) => true
    case Int(_) => true
    case Float(_) => true
    case Str(_) => true
    case List(xs) => forall i :: 0 <= i < |xs| ==> IsJson(xs[i])
    case Tuple(_) => false
    case Dict(d) => forall k :: k in d ==> IsJson(d[k])
    case Object(_) => false
  }

  /** `None` occurs somewhere in a tree of lists, tuples and dictionaries
      (attributes of instances are not looked into). */
  predicate HasNull(v: Value) {
    match v
    case Null => true
    case List(xs) => exists i :: 0 <= i < |xs| && HasNull(xs[i])
    case Tuple(xs) => exists i :: 0 <= i < |xs| && HasNull(xs[i])
    case Dict(d) => exists k :: k in d && HasNull(d[k])
    case _ => false
  }

  /** An instance occurs somewhere in a tree of lists, tuples and dictionaries. */
  predicate HasObject(v: Value) {
    match v
    case Object(_) => true
    case List(xs) => exists i :: 0 <= i < |xs| && HasObject(xs[i])
    case Tuple(xs) => exists i :: 0 <= i < |xs| && HasObject(xs[i])
    case Dict(d) => exists k :: k in d && HasObject(d[k])
    case _ => false
  }
}
