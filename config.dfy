/** config.py: the name-keyed class registry and the codec's option defaults. */
module Config {
  import opened Errors
  import opened Values

  /** `Config.use_jsonclass`, `Config.serialize_method`, `Config.ignore_attribute`. */
  const DefaultUseJsonclass: bool := true
  const DefaultSerializeMethod: string := "_serialize"
  const DefaultIgnoreAttribute: string := "_ignore"

  /** `LocalClasses`: a dictionary from a class's bare `__name__` to the class. */
  class LocalClasses {
    var entries: map<string, ClassRef>

    constructor ()
      ensures entries == map[]
    {
      entries := map[];
    }

    /** `classes.get(name)`. */
    function Lookup(name: string): (r: Option<ClassRef>)
      reads this
      ensures r.Some? <==> name in entries
      ensures r.Some? ==> r.value == entries[name]
    {
      if name in entries then Some(entries[name]) else None
    }

    /** `add(cls)`: `self[cls.__name__] = cls`, replacing an earlier class of
        the same name and leaving every other name as it was. */
    method Add(cls: ClassRef)
      modifies this
      ensures entries == old(entries)[cls.name := cls]
      ensures Lookup(cls.name) == Some(cls)
      ensures forall name :: name != cls.name ==> Lookup(name) == old(Lookup(name))
    {
      entries := entries[cls.name := cls];
    }
  }

  /** The class-level attributes of `Config`: every instance reads these same
      values and the one `classes` registry. */
  class ConfigClass {
    const useJsonclass: bool
    const serializeMethod: string
    const ignoreAttribute: string
    const classes: LocalClasses
    var instance: Config?

    ghost predicate Valid()
      reads this
    {
      instance != null ==> instance.cls == this
    }

    constructor ()
      ensures Valid()
      ensures useJsonclass == DefaultUseJsonclass
      ensures serializeMethod == DefaultSerializeMethod
      ensures ignoreAttribute == DefaultIgnoreAttribute
      ensures fresh(classes) && classes.entries == map[]
      ensures instance == null
    {
      useJsonclass := DefaultUseJsonclass;
      serializeMethod := DefaultSerializeMethod;
      ignoreAttribute := DefaultIgnoreAttribute;
      classes := new LocalClasses();
      instance := null;
    }

    /** `Config.instance()`: creates the instance on the first call only and
        returns that same object on every call. */
    method Instance() returns (c: Config)
      requires Valid()
      modifies this
      ensures Valid()
      ensures old(instance) != null ==> c == old(instance)
      ensures old(instance) == null ==> fresh(c)
      ensures instance == c && c.cls == this
    {
      if instance == null {
        instance := new Config(this);
      }
      c := instance;
    }
  }

  /** An instance of `Config`; its attributes are those of its class. */
  class Config {
    const cls: ConfigClass

    constructor (cls: ConfigClass)
      ensures this.cls == cls
    {
      this.cls := cls;
    }
  }

  /** Two calls of `Config.instance()` give the same object, and it sees the
      class-level registry. */
  method InstanceTwice(k: ConfigClass) returns (a: Config, b: Config)
    requires k.Valid()
    modifies k
    ensures a == b && a.cls.classes == k.classes
  {
    a := k.Instance();
    b := k.Instance();
  }
}
