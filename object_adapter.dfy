/**
 * ObjectAdapter and its NullAdapter sentinel.
 *
 * An adapter wraps a target object.  Reads and writes of a name go to a
 * `get`/`set` + ucfirst(name) method when the adapter's class has one
 * and otherwise to the target's field of that name; a missing or null
 * field reads as a new NullAdapter.  `Get` walks a dotted path through
 * nested adapters.  The magic methods are modelled as called, which is
 * what PHP does for names the adapter itself does not expose (every name
 * but its public `targetObject`) and what the `offset*` delegates do for
 * every name.
 */
module ObjectAdapters {
  import opened PhpStrings

  /**
   * A PHP value stored in a field or returned by a read.  Arrays keep
   * their ordered entries (string keys; a decimal string stands for the
   * integer key PHP would use).  `NewNullAdapter` is what
   * `new NullAdapter()` evaluates to: a NullAdapter nobody else holds,
   * whose target has no fields.  `NewObject` is such a sentinel's own
   * fresh, empty `stdClass` target.
   */
  datatype Value =
    | Null
    | Bool(b: bool)
    | Int(i: int)
    | Str(s: string)
    | Arr(entries: seq<(string, Value)>)
    | Obj(o: Target)
    | Adapter(a: ObjectAdapter)
    | NewNullAdapter
    | NewObject

  /** PHP truthiness, as `?:` uses it: null, false, 0, "", "0" and [] are falsy; objects are truthy. */
  predicate Truthy(v: Value) {
    match v
    case Null => false
    case Bool(b) => b
    case Int(i) => i != 0
    case Str(s) => !IsEmptyString(s)
    case Arr(entries) => entries != []
    case _ => true
  }

  /** `is_a($v, ObjectAdapter::class)`. */
  predicate IsAdapter(v: Value) {
    v.Adapter? || v.NewNullAdapter?
  }

  /** `$v instanceof NullAdapter`. */
  predicate IsNullAdapter(v: Value) {
    v.NewNullAdapter? || (v.Adapter? && v.a.isNull)
  }

  /** Setter calls made through an adapter, in order: (method name, argument). */
  type Log = seq<(string, Value)>

  /**
   * The public methods a subclass adds to ObjectAdapter.  PHP method
   * names are case-insensitive, so `names` holds them lower-cased.
   * `call(m, fields, log)` is the result of calling method `m` with no
   * arguments on an adapter whose target holds `fields` after the setter
   * calls in `log`; method bodies are otherwise not modelled.
   * ObjectAdapter's own methods (`get`, `__get`, `offsetGet`, ...) are
   * never named `get`/`set` + a non-empty suffix's ucfirst, so a lookup
   * never finds them.
   */
  datatype Methods = Methods(names: set<string>, call: (string, map<string, Value>, Log) -> Value) {
    /** Every name is held in its folded form. */
    predicate LowerCased() {
      forall n :: n in names ==> Lower(n) == n
    }

    /** Whether the target declares a method of that name. */
    predicate Has(name: string) {
      Lower(name) in names
    }
  }

  /** With folded names, a lookup finds a method iff one is declared under the same name up to case. */
  lemma HasIgnoresCase(ms: Methods, name: string)
    requires ms.LowerCased()
    ensures ms.Has(name) <==> exists n :: n in ms.names && Lower(n) == Lower(name)
  {
    if ms.Has(name) {
      LowerIdempotent(name);
      assert Lower(Lower(name)) == Lower(name);
    }
  }

  /** The methods of ObjectAdapter and of NullAdapter that a read or write could pick: none. */
  function NoMethods(): Methods {
    Methods({}, (m: string, f: map<string, Value>, l: Log) => Null)
  }

  function GetterName(name: string): string {
    "get" + UcFirst(name)
  }

  function SetterName(name: string): string {
    "set" + UcFirst(name)
  }

  /** Everything a read through one adapter depends on. */
  datatype View = View(methods: Methods, log: Log, targetObject: Value,
                       declared: set<string>, fields: map<string, Value>)

  /** What a read sees through `new NullAdapter()`. */
  function FreshNullView(): View {
    View(NoMethods(), [], NewObject, {}, map[])
  }

  /** `__get`: read one name through an adapter. */
  function ReadIn(v: View, name: string): Value {
    if IsEmptyString(name) then NewNullAdapter
    else if name == "targetObject" then v.targetObject
    else if v.methods.Has(GetterName(name)) then v.methods.call(Lower(GetterName(name)), v.fields, v.log)
    else if name in v.fields && v.fields[name] != Null then v.fields[name]
    else NewNullAdapter
  }

  /**
   * `get($dottedPath, $default)`: read the first segment; descend into
   * an adapter with the rest of the path, otherwise answer the value if
   * it is truthy, else the default if it is not null, else a NullAdapter.
   * The answer is never null, and it is truthy unless it is the default.
   */
  function GetIn(v: View, path: string, default: Value): (r: Value)
    reads *
    ensures r != Null
    ensures Truthy(r) || r == default
    decreases |path|
  {
    var (first, rest) := SplitFirst(path);
    if IsEmptyString(first) then NewNullAdapter
    else
      SplitFirstShrinks(path);
      var x := ReadIn(v, first);
      if x.Adapter? then GetIn(x.a.Snapshot(), rest, default)
      else if x.NewNullAdapter? then GetIn(FreshNullView(), rest, default)
      else if Truthy(x) then x
      else if default != Null then default
      else NewNullAdapter
  }

  /** A plain PHP object: the names its class declares and the fields it currently has. */
  class Target {
    const declared: set<string>
    var fields: map<string, Value>

    constructor (declared: set<string>, fields: map<string, Value>)
      ensures this.declared == declared && this.fields == fields
    {
      this.declared := declared;
      this.fields := fields;
    }
  }

  /** An ObjectAdapter, or an instance of one of its subclasses (NullAdapter when `isNull`). */
  class ObjectAdapter {
    const methods: Methods
    const isNull: bool
    var targetObject: Target
    var setterCalls: Log

    /** `new ObjectAdapter($object)`; the `assert(is_object(...))` is the parameter's type. */
    constructor (methods: Methods, target: Target)
      requires methods.LowerCased()
      ensures this.methods == methods && !isNull
      ensures targetObject == target && setterCalls == []
    {
      this.methods := methods;
      isNull := false;
      targetObject := target;
      setterCalls := [];
    }

    /** `new NullAdapter()`: no argument, a fresh target with no fields, no accessor methods. */
    constructor NullAdapter()
      ensures isNull && methods.names == {}
      ensures fresh(targetObject) && targetObject.declared == {} && targetObject.fields == map[]
      ensures setterCalls == []
    {
      methods := NoMethods();
      isNull := true;
      targetObject := new Target({}, map[]);
      setterCalls := [];
    }

    function Snapshot(): View
      reads this, targetObject
    {
      View(methods, setterCalls, Obj(targetObject), targetObject.declared, targetObject.fields)
    }

    /** NullAdapter's `__toString`: a NullAdapter reads as the empty string. */
    function ToString(): (s: string)
      requires isNull
      ensures |s| == 0
    {
      ""
    }

    /** `__get($property)`. */
    function Read(name: string): (r: Value)
      reads this, targetObject
      ensures IsEmptyString(name) ==> r == NewNullAdapter
      ensures !IsEmptyString(name) && name == "targetObject" ==> r == Obj(targetObject)
      ensures (!IsEmptyString(name) && name != "targetObject" && methods.Has(GetterName(name)))
                ==> r == methods.call(Lower(GetterName(name)), targetObject.fields, setterCalls)
      ensures (!IsEmptyString(name) && name != "targetObject" && !methods.Has(GetterName(name)))
                ==> r == if name in targetObject.fields && targetObject.fields[name] != Value.Null
                         then targetObject.fields[name] else NewNullAdapter
    {
      ReadIn(Snapshot(), name)
    }

    /** `__isset($property)`: `property_exists` on the target, whatever the value and whatever the methods. */
    function Isset(name: string): (b: bool)
      reads this, targetObject
      ensures b <==> name in targetObject.fields || name in targetObject.declared
    {
      name in targetObject.fields || name in targetObject.declared
    }

    /** `__set($property, $value)`; returns the adapter itself. */
    method Write(name: string, value: Value) returns (self: ObjectAdapter)
      requires name == "targetObject" ==> value.Obj?
      modifies this, targetObject
      ensures self == this
      ensures name == "targetObject" ==>
                targetObject == value.o && unchanged(old(targetObject)) && setterCalls == old(setterCalls)
      ensures name != "targetObject" && methods.Has(SetterName(name)) ==>
                targetObject == old(targetObject) && unchanged(targetObject)
                && setterCalls == old(setterCalls) + [(Lower(SetterName(name)), value)]
      ensures name != "targetObject" && !methods.Has(SetterName(name)) ==>
                targetObject == old(targetObject) && targetObject.fields == old(targetObject.fields)[name := value]
                && setterCalls == old(setterCalls)
    {
      if name == "targetObject" {
        targetObject := value.o;
        return this;
      }
      if methods.Has(SetterName(name)) {
        setterCalls := setterCalls + [(Lower(SetterName(name)), value)];
        return this;
      }
      targetObject.fields := targetObject.fields[name := value];
      return this;
    }

    /** `__unset($property)`: removes that one field of the target. */
    method Unset(name: string)
      modifies targetObject
      ensures targetObject.fields == old(targetObject.fields) - {name}
    {
      targetObject.fields := targetObject.fields - {name};
    }

    /** `offsetExists`: the same answer as `__isset`. */
    function OffsetExists(offset: string): (b: bool)
      reads this, targetObject
      ensures b == Isset(offset)
    {
      Isset(offset)
    }

    /** `offsetGet`: the same answer as `__get`. */
    function OffsetGet(offset: string): (r: Value)
      reads this, targetObject
      ensures r == Read(offset)
    {
      Read(offset)
    }

    /** `offsetSet`: the same effect as `__set`. */
    method OffsetSet(offset: string, value: Value)
      requires offset == "targetObject" ==> value.Obj?
      modifies this, targetObject
      ensures offset == "targetObject" ==>
                targetObject == value.o && unchanged(old(targetObject)) && setterCalls == old(setterCalls)
      ensures offset != "targetObject" && methods.Has(SetterName(offset)) ==>
                targetObject == old(targetObject) && unchanged(targetObject)
                && setterCalls == old(setterCalls) + [(Lower(SetterName(offset)), value)]
      ensures offset != "targetObject" && !methods.Has(SetterName(offset)) ==>
                targetObject == old(targetObject) && targetObject.fields == old(targetObject.fields)[offset := value]
                && setterCalls == old(setterCalls)
    {
      var _ := Write(offset, value);
    }

    /** `offsetUnset`: the same effect as `__unset`. */
    method OffsetUnset(offset: string)
      modifies targetObject
      ensures targetObject.fields == old(targetObject.fields) - {offset}
    {
      Unset(offset);
    }

    /** `get($dottedPath, $default)`. */
    function Get(path: string, default: Value): (r: Value)
      reads *
      ensures r != Value.Null
      ensures Truthy(r) || r == default
    {
      GetIn(Snapshot(), path, default)
    }
  }

  /** An empty first segment (`""`, `"."`, `"0.x"`, ...) gives a NullAdapter at once. */
  lemma GetEmptyFirstSegment(a: ObjectAdapter, path: string, default: Value)
    requires IsEmptyString(SplitFirst(path).0)
    ensures a.Get(path, default) == NewNullAdapter
  {
  }

  /** A first segment that reads as an adapter hands the rest of the path to that adapter's `get`. */
  lemma GetDescends(a: ObjectAdapter, path: string, default: Value)
    requires !IsEmptyString(SplitFirst(path).0)
    ensures var x := a.Read(SplitFirst(path).0);
            && (x.Adapter? ==> a.Get(path, default) == x.a.Get(SplitFirst(path).1, default))
            && (x.NewNullAdapter? ==> a.Get(path, default) == GetIn(FreshNullView(), SplitFirst(path).1, default))
  {
  }

  /** A first segment that reads as anything else ends the walk, whatever segments follow. */
  lemma GetStopsAtValue(a: ObjectAdapter, path: string, default: Value)
    requires !IsEmptyString(SplitFirst(path).0)
    requires !IsAdapter(a.Read(SplitFirst(path).0))
    ensures var x := a.Read(SplitFirst(path).0);
            a.Get(path, default) == if Truthy(x) then x else if default != Null then default else NewNullAdapter
  {
  }

  /**
   * Inside a fresh NullAdapter every segment but `targetObject` reads as
   * another NullAdapter, so a walk along any path without that segment
   * ends in a NullAdapter.
   */
  lemma {:induction false} NullChain(path: string, default: Value)
    requires "targetObject" !in Segments(path)
    ensures GetIn(FreshNullView(), path, default) == NewNullAdapter
    decreases |path|
  {
    var (first, rest) := SplitFirst(path);
    assert first == Segments(path)[0];
    if !IsEmptyString(first) {
      SplitFirstShrinks(path);
      assert ReadIn(FreshNullView(), first) == NewNullAdapter;
      if '.' in path {
        assert Segments(path) == [first] + Segments(rest);
        NullChain(rest, default);
      } else {
        assert rest == "";
      }
    }
  }

  /** A path through a missing (or null) name ends in a NullAdapter, as long as no segment is `targetObject`. */
  lemma GetThroughMissing(a: ObjectAdapter, path: string, default: Value)
    requires "targetObject" !in Segments(path)
    requires a.Read(SplitFirst(path).0) == NewNullAdapter
    ensures a.Get(path, default) == NewNullAdapter
  {
    var (first, rest) := SplitFirst(path);
    if !IsEmptyString(first) {
      if '.' in path {
        assert Segments(path) == [first] + Segments(rest);
      }
      NullChain(rest, default);
    }
  }

  /** A single segment naming an adapter ends in that adapter's `get("")`: a NullAdapter. */
  lemma GetSingleAdapterSegment(a: ObjectAdapter, name: string, default: Value)
    requires '.' !in name && !IsEmptyString(name)
    requires IsAdapter(a.Read(name))
    ensures a.Get(name, default) == NewNullAdapter
  {
    assert SplitFirst(name) == (name, "");
    assert SplitFirst("") == ("", "");
    var x := a.Read(name);
    if x.Adapter? {
      assert GetIn(x.a.Snapshot(), "", default) == NewNullAdapter;
    } else {
      assert GetIn(FreshNullView(), "", default) == NewNullAdapter;
    }
  }

  /**
   * Through a fresh NullAdapter every name but `targetObject` (the empty
   * name included) reads as a NullAdapter, `targetObject` reads as its
   * empty target, and no name at all is set.
   */
  lemma FreshNullAdapterReads(a: ObjectAdapter, name: string)
    requires a.isNull && a.methods.names == {}
    requires a.targetObject.fields == map[] && a.targetObject.declared == {}
    ensures name != "targetObject" ==> IsNullAdapter(a.Read(name))
    ensures name == "targetObject" ==> a.Read(name) == Obj(a.targetObject)
    ensures !a.Isset(name)
  {
  }

  /** A non-null value held under a plain name (one with no getter) reads back as stored, and the name counts as set. */
  lemma ReadBackPlainField(a: ObjectAdapter, name: string, value: Value)
    requires !IsEmptyString(name) && name != "targetObject"
    requires !a.methods.Has(GetterName(name))
    requires name in a.targetObject.fields && a.targetObject.fields[name] == value && value != Null
    ensures a.Read(name) == value && a.Isset(name)
  {
  }

  /** A name with a getter reads through the getter even when the target has a field of that name. */
  lemma GetterWinsOverField(a: ObjectAdapter, name: string)
    requires !IsEmptyString(name) && name != "targetObject"
    requires a.methods.Has("get" + name)
    ensures a.Read(name) == a.methods.call(Lower(GetterName(name)), a.targetObject.fields, a.setterCalls)
  {
    UcFirstIgnoredByLookup("get", name);
  }
}
