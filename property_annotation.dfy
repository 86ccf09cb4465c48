/**
 * PropertyAnnotationTrait: accessor routing declared in doc comments.
 *
 * When an object using the trait is built, every public method whose doc
 * comment carries an `@property\getter NAME` or `@property\setter NAME`
 * tag is registered as the getter or setter of NAME.  Reads and writes of
 * NAME then go through the registered method; other names go to the
 * object's own fields.
 */
module PropertyAnnotation {
  import opened Wrappers
  import opened PhpStrings
  import opened AnnotatedProperties
  import OA = ObjectAdapters

  datatype Role = Getter | Setter

  /** What a doc comment registers: a role and the property name it is for. */
  datatype Tag = Tag(role: Role, name: string)

  /** A public method as reflection lists it: its name and its doc comment ("" when it has none). */
  datatype MethodDecl = MethodDecl(name: string, doc: string)

  /** The literal text the pattern looks for: `@property\getter` or `@property\setter`. */
  function TagText(role: Role): (t: string)
    ensures |t| == TagLength
  {
    if role == Getter then "@property\\getter" else "@property\\setter"
  }

  const TagLength: nat := 16

  predicate TagAt(doc: string, p: int, role: Role) {
    0 <= p && p + TagLength <= |doc| && doc[p..p + TagLength] == TagText(role)
  }

  /**
   * The pattern `@property\\(getter|setter)(.*)\n` with the `s` flag
   * matches `doc` from `p` to the newline at `l`: the tag text starts at
   * `p`, and the second group is `doc[p + TagLength..l]`.
   */
  predicate MatchAt(doc: string, p: int, role: Role, l: int) {
    TagAt(doc, p, role) && p + TagLength <= l < |doc| && doc[l] == '\n'
  }

  /** No tag starts at a position from `lo` up to, not including, `hi`. */
  ghost predicate NoTagBetween(doc: string, lo: int, hi: int) {
    forall q, role :: lo <= q < hi ==> !TagAt(doc, q, role)
  }

  /** The leftmost tag at or after `from`. */
  function FirstTag(doc: string, from: nat): (r: Option<(nat, Role)>)
    requires from <= |doc|
    ensures r.Some? ==> from <= r.value.0 && TagAt(doc, r.value.0, r.value.1)
    decreases |doc| - from
  {
    if from + TagLength > |doc| then None
    else if TagAt(doc, from, Getter) then Some((from, Getter))
    else if TagAt(doc, from, Setter) then Some((from, Setter))
    else FirstTag(doc, from + 1)
  }

  /** No tag starts between `from` and the tag found, and none at all after `from` when none is found. */
  lemma {:induction false} FirstTagIsLeftmost(doc: string, from: nat)
    requires from <= |doc|
    ensures FirstTag(doc, from).None? ==> NoTagBetween(doc, from, |doc|)
    ensures FirstTag(doc, from).Some? ==> NoTagBetween(doc, from, FirstTag(doc, from).value.0)
    decreases |doc| - from
  {
    if from + TagLength > |doc| {
      assert NoTagBetween(doc, from, |doc|);
    } else if !TagAt(doc, from, Getter) && !TagAt(doc, from, Setter) {
      FirstTagIsLeftmost(doc, from + 1);
      var hi := if FirstTag(doc, from).None? then |doc| else FirstTag(doc, from).value.0;
      forall q, role | from <= q < hi
        ensures !TagAt(doc, q, role)
      {
        if q == from {
          assert role == Getter || role == Setter;
        }
      }
    }
  }

  /** The last newline before `end`. */
  function LastNewline(doc: string, end: nat): (r: Option<nat>)
    requires end <= |doc|
    ensures r.Some? ==> r.value < end && doc[r.value] == '\n'
    ensures r.None? ==> forall k :: 0 <= k < end ==> doc[k] != '\n'
    ensures r.Some? ==> forall k :: r.value < k < end ==> doc[k] != '\n'
    decreases end
  {
    if end == 0 then None
    else if doc[end - 1] == '\n' then Some(end - 1)
    else LastNewline(doc, end - 1)
  }

  /**
   * `preg_match` followed by `trim($matches[2])`: the match starts at the
   * leftmost tag and, `.*` being greedy and `s` letting it cross lines,
   * ends at the LAST newline of the comment.
   */
  function ParseTag(doc: string): (r: Option<Tag>)
    ensures r.Some? ==> FirstTag(doc, 0).Some? && r.value.role == FirstTag(doc, 0).value.1
    ensures r.Some? && r.value.name != [] ==>
              !IsTrimChar(r.value.name[0]) && !IsTrimChar(r.value.name[|r.value.name| - 1])
  {
    match FirstTag(doc, 0)
    case None => None
    case Some((p, role)) =>
      match LastNewline(doc, |doc|)
      case None => None
      case Some(l) => if p + TagLength <= l then Some(Tag(role, Trim(doc[p + TagLength..l]))) else None
  }

  /** The match from `p` to `l` is the one `preg_match` picks: no match starts earlier, none from `p` ends later. */
  ghost predicate LeftmostLongest(doc: string, p: int, role: Role, l: int) {
    && MatchAt(doc, p, role, l)
    && (forall q, r, k :: MatchAt(doc, q, r, k) ==> p <= q)
    && (forall k :: MatchAt(doc, p, role, k) ==> k <= l)
  }

  /** A parsed tag comes from a match that starts leftmost and ends at the farthest newline. */
  lemma ParseTagSound(doc: string)
    requires ParseTag(doc).Some?
    ensures exists p, l :: LeftmostLongest(doc, p, ParseTag(doc).value.role, l)
              && ParseTag(doc).value.name == Trim(doc[p + TagLength..l])
  {
    var (p, role) := FirstTag(doc, 0).value;
    var l := LastNewline(doc, |doc|).value;
    assert ParseTag(doc) == Some(Tag(role, Trim(doc[p + TagLength..l])));
    FirstMatchIsChosen(doc, p, role, l);
  }

  lemma FirstMatchIsChosen(doc: string, p: nat, role: Role, l: nat)
    requires FirstTag(doc, 0) == Some((p, role)) && LastNewline(doc, |doc|) == Some(l)
    requires p + TagLength <= l
    ensures LeftmostLongest(doc, p, role, l)
  {
    FirstTagIsLeftmost(doc, 0);
    forall q, r, k | MatchAt(doc, q, r, k)
      ensures p <= q
    {
      assert TagAt(doc, q, r);
      assert NoTagBetween(doc, 0, p);
    }
    forall k | MatchAt(doc, p, role, k)
      ensures k <= l
    {
      assert doc[k] == '\n';
    }
  }

  /** Whenever the pattern matches anywhere, a tag is parsed. */
  lemma ParseTagComplete(doc: string, p: int, role: Role, l: int)
    requires MatchAt(doc, p, role, l)
    ensures ParseTag(doc).Some?
  {
    FirstTagIsLeftmost(doc, 0);
    var first := FirstTag(doc, 0);
    assert first.Some?;
    var last := LastNewline(doc, |doc|);
    assert last.Some? && l <= last.value;
  }

  /** A comment whose tag line is followed by a second line, piece by piece. */
  const SampleCapture: string := "a\n@return b"
  const SampleName: string := " " + SampleCapture
  const SampleDoc: string := TagText(Getter) + SampleName + "\n"

  lemma SampleLayout()
    ensures |SampleDoc| == TagLength + |SampleName| + 1
    ensures SampleDoc[TagLength..|SampleDoc| - 1] == SampleName
    ensures SampleDoc[|SampleDoc| - 1] == '\n'
  {
    assert SampleDoc[TagLength..] == SampleName + "\n";
  }

  lemma SampleCaptured()
    ensures Trim(SampleDoc[TagLength..|SampleDoc| - 1]) == SampleCapture
  {
    SampleLayout();
    TrimLeadingSpace(SampleCapture);
  }

  lemma SampleBounds()
    ensures FirstTag(SampleDoc, 0) == Some((0, Getter))
    ensures LastNewline(SampleDoc, |SampleDoc|) == Some(|SampleDoc| - 1)
  {
    SampleLayout();
    assert SampleDoc[..TagLength] == TagText(Getter);
    assert TagAt(SampleDoc, 0, Getter);
  }

  /** The capture does not stop at the first line: a second line of the comment becomes part of the name. */
  lemma CaptureRunsToLastNewline()
    ensures ParseTag(SampleDoc) == Some(Tag(Getter, "a\n@return b"))
    ensures '\n' in ParseTag(SampleDoc).value.name
  {
    SampleBounds();
    SampleCaptured();
  }

  /** The getter and the setter registered for one name. */
  datatype Accessors = Accessors(getter: Option<string>, setter: Option<string>)

  type Table = map<string, Accessors>

  /** The entry of `name` in `t`, or an empty one. */
  function Entry(t: Table, name: string): Accessors {
    if name in t then t[name] else Accessors(None, None)
  }

  /** A method as `initProperties` sees it: its name and the tag its doc comment carries, if any. */
  datatype Candidate = Candidate(methodName: string, tag: Option<Tag>)

  function ToCandidate(m: MethodDecl): Candidate {
    Candidate(m.name, ParseTag(m.doc))
  }

  function Candidates(ms: seq<MethodDecl>): (cs: seq<Candidate>)
    ensures |cs| == |ms| && forall i :: 0 <= i < |ms| ==> cs[i] == ToCandidate(ms[i])
  {
    seq(|ms|, i requires 0 <= i < |ms| => ToCandidate(ms[i]))
  }

  /** One step of `initProperties`: register the method if its doc comment carries a tag. */
  function Register(t: Table, c: Candidate): (r: Table)
    ensures c.tag.None? ==> r == t
    ensures c.tag.Some? ==>
              && r.Keys == t.Keys + {c.tag.value.name}
              && (forall n :: n in t && n != c.tag.value.name ==> r[n] == t[n])
              && (c.tag.value.role == Getter ==> r[c.tag.value.name] == Entry(t, c.tag.value.name).(getter := Some(c.methodName)))
              && (c.tag.value.role == Setter ==> r[c.tag.value.name] == Entry(t, c.tag.value.name).(setter := Some(c.methodName)))
  {
    match c.tag
    case None => t
    case Some(tag) =>
      var a := Entry(t, tag.name);
      t[tag.name := if tag.role == Getter then a.(getter := Some(c.methodName)) else a.(setter := Some(c.methodName))]
  }

  /** `initProperties` over the methods in reflection order, starting from `t`. */
  function Scan(t: Table, cs: seq<Candidate>): (r: Table)
    ensures forall n :: n in r <==> n in t || exists i :: 0 <= i < |cs| && cs[i].tag.Some? && cs[i].tag.value.name == n
    decreases |cs|
  {
    if cs == [] then t else Register(Scan(t, cs[..|cs| - 1]), cs[|cs| - 1])
  }

  /** Scanning one more candidate registers it on top of the scan so far. */
  lemma ScanStep(t: Table, cs: seq<Candidate>, i: nat)
    requires i < |cs|
    ensures Scan(t, cs[..i + 1]) == Register(Scan(t, cs[..i]), cs[i])
  {
    assert cs[..i + 1][..i] == cs[..i];
  }

  /** The last method of `cs` whose doc comment registers it as `role` of `name`. */
  function LastTagged(cs: seq<Candidate>, name: string, role: Role): (r: Option<string>)
    ensures r.Some? ==> exists i :: 0 <= i < |cs| && cs[i] == Candidate(r.value, Some(Tag(role, name)))
    ensures r.None? ==> forall i :: 0 <= i < |cs| ==> cs[i].tag != Some(Tag(role, name))
    decreases |cs|
  {
    if cs == [] then None
    else if cs[|cs| - 1].tag == Some(Tag(role, name)) then Some(cs[|cs| - 1].methodName)
    else LastTagged(cs[..|cs| - 1], name, role)
  }

  function Or(a: Option<string>, b: Option<string>): Option<string> {
    if a.Some? then a else b
  }

  /** The method registered last for a role is the one named, whatever came before it. */
  lemma {:induction false} LastTaggedIsLast(cs: seq<Candidate>, name: string, role: Role, i: int)
    requires 0 <= i < |cs| && cs[i].tag == Some(Tag(role, name))
    requires forall j :: i < j < |cs| ==> cs[j].tag != Some(Tag(role, name))
    ensures LastTagged(cs, name, role) == Some(cs[i].methodName)
    decreases |cs|
  {
    if i < |cs| - 1 {
      LastTaggedIsLast(cs[..|cs| - 1], name, role, i);
    }
  }

  /**
   * After `initProperties`, a name has an entry iff it had one or some
   * method is tagged for it, and each of its accessors is the method
   * tagged last for that role, or the earlier one when none is.
   */
  lemma {:induction false} ScanIsLastTagged(t: Table, cs: seq<Candidate>, name: string)
    ensures name in Scan(t, cs) <==>
              name in t || LastTagged(cs, name, Getter).Some? || LastTagged(cs, name, Setter).Some?
    ensures Entry(Scan(t, cs), name) ==
              Accessors(Or(LastTagged(cs, name, Getter), Entry(t, name).getter),
                        Or(LastTagged(cs, name, Setter), Entry(t, name).setter))
    decreases |cs|
  {
    if cs != [] {
      ScanIsLastTagged(t, cs[..|cs| - 1], name);
    }
  }

  /** Every entry holds at least one accessor. */
  predicate AllUsed(t: Table) {
    forall n :: n in t ==> t[n].getter.Some? || t[n].setter.Some?
  }

  /** `initProperties` only creates an entry to store an accessor in it. */
  lemma ScanKeepsEntriesUsed(t: Table, cs: seq<Candidate>)
    requires AllUsed(t)
    ensures AllUsed(Scan(t, cs))
  {
    forall n | n in Scan(t, cs)
      ensures Scan(t, cs)[n].getter.Some? || Scan(t, cs)[n].setter.Some?
    {
      ScanIsLastTagged(t, cs, n);
    }
  }

  /** Methods without a tag register nothing. */
  lemma {:induction false} UntaggedScanIsIdentity(t: Table, cs: seq<Candidate>)
    requires forall i :: 0 <= i < |cs| ==> cs[i].tag.None?
    ensures Scan(t, cs) == t
    decreases |cs|
  {
    if cs != [] {
      UntaggedScanIsIdentity(t, cs[..|cs| - 1]);
    }
  }

  /** Registering a tag is making sure its name has an entry, then setting the tagged role in it. */
  lemma RegisterInTwoSteps(t: Table, c: Candidate)
    requires c.tag.Some?
    ensures var n := c.tag.value.name;
            var created := t[n := Entry(t, n)];
            Register(t, c) == created[n := if c.tag.value.role == Getter
                                           then created[n].(getter := Some(c.methodName))
                                           else created[n].(setter := Some(c.methodName))]
  {
  }

  lemma SameTable(a: Table, b: Table)
    requires a.Keys == b.Keys && forall n :: n in a ==> a[n] == b[n]
    ensures a == b
  {
  }

  /**
   * An object whose class uses the trait.  `properties` is the trait's
   * private table; `fields` are the object's other properties (declared
   * or dynamic) and `declared` the names its class declares.  Getter
   * bodies are abstract: `call(m, fields, log)` is the result of calling
   * method `m` after the setter calls in `log`.
   */
  class Annotated {
    const declared: set<string>
    const call: (string, map<string, OA.Value>, OA.Log) -> OA.Value
    var fields: map<string, OA.Value>
    var properties: map<string, AnnotatedProperty>
    var setterCalls: OA.Log

    /** No two names share one AnnotatedProperty object. */
    ghost predicate Valid()
      reads this
    {
      forall n, m :: n in properties && m in properties && n != m ==> properties[n] != properties[m]
    }

    /** The accessors stored in the table, name by name. */
    function Table(): Table
      reads this, properties.Values
    {
      map n | n in properties :: Accessors(properties[n].getter, properties[n].setter)
    }

    /** The constructor of an object using the trait calls `initProperties()` with its public methods. */
    constructor (declared: set<string>, fields: map<string, OA.Value>,
                 call: (string, map<string, OA.Value>, OA.Log) -> OA.Value, methods: seq<MethodDecl>)
      ensures Valid() && Table() == Scan(map[], Candidates(methods))
      ensures this.declared == declared && this.call == call
      ensures this.fields == fields && setterCalls == []
    {
      this.declared := declared;
      this.call := call;
      this.fields := fields;
      properties := map[];
      setterCalls := [];
      new;
      InitProperties(methods);
    }

    /** `initProperties()`: register the tagged methods, in order, into the table. */
    method InitProperties(methods: seq<MethodDecl>)
      requires Valid()
      modifies this, properties.Values
      ensures Valid()
      ensures Table() == Scan(old(Table()), Candidates(methods))
      ensures fields == old(fields) && setterCalls == old(setterCalls)
    {
      ghost var t0 := Table();
      ghost var cs := Candidates(methods);
      var i := 0;
      while i < |methods|
        invariant 0 <= i <= |methods|
        invariant Valid()
        invariant Table() == Scan(t0, cs[..i])
        invariant fields == old(fields) && setterCalls == old(setterCalls)
        invariant forall n :: n in properties ==> properties[n] in old(properties.Values) || fresh(properties[n])
      {
        RegisterMethod(methods[i]);
        ScanStep(t0, cs, i);
        i := i + 1;
      }
      assert cs[..i] == cs;
    }

    /** The body of the `initProperties` loop for one method. */
    method RegisterMethod(m: MethodDecl)
      requires Valid()
      modifies this, properties.Values
      ensures Valid()
      ensures Table() == Register(old(Table()), ToCandidate(m))
      ensures fields == old(fields) && setterCalls == old(setterCalls)
      ensures forall n :: n in properties ==> properties[n] in old(properties.Values) || fresh(properties[n])
    {
      var tag := ParseTag(m.doc);
      ghost var before := Table();
      if tag.Some? {
        EnsureEntry(tag.value.name);
        StoreAccessor(tag.value, m.name);
        RegisterInTwoSteps(before, Candidate(m.name, tag));
      }
    }

    /** Give the name an empty entry unless it already has one. */
    method EnsureEntry(name: string)
      requires Valid()
      modifies this
      ensures Valid() && name in properties
      ensures Table() == old(Table())[name := Entry(old(Table()), name)]
      ensures fields == old(fields) && setterCalls == old(setterCalls)
      ensures forall n :: n in properties ==> properties[n] in old(properties.Values) || fresh(properties[n])
    {
      if name !in properties {
        var p := new AnnotatedProperty();
        properties := properties[name := p];
      }
      SameTable(Table(), old(Table())[name := Entry(old(Table()), name)]);
    }

    /** `setGetter($method)` or `setSetter($method)` on the entry of the tag's name. */
    method StoreAccessor(tag: Tag, methodName: string)
      requires Valid() && tag.name in properties
      modifies properties[tag.name]
      ensures Valid()
      ensures Table() == old(Table())[tag.name := if tag.role == Getter
                                                  then old(Table())[tag.name].(getter := Some(methodName))
                                                  else old(Table())[tag.name].(setter := Some(methodName))]
    {
      ghost var before := Table();
      var entry := properties[tag.name];
      if tag.role == Getter {
        entry.SetGetter(methodName);
      } else {
        entry.SetSetter(methodName);
      }
      ghost var after := before[tag.name := Table()[tag.name]];
      forall n | n in before && n != tag.name
        ensures Table()[n] == after[n]
      {
        assert properties[n] != entry;
      }
      SameTable(Table(), after);
    }

    /** `getProperty($property)`: the table entry, or null. */
    function GetProperty(name: string): (r: Option<AnnotatedProperty>)
      reads this
      ensures r.Some? <==> HasProperty(name)
      ensures r.Some? ==> r.value == properties[name]
    {
      if name in properties then Some(properties[name]) else None
    }

    /** `hasProperty($property)`: the name has a table entry. */
    function HasProperty(name: string): (b: bool)
      reads this
      ensures b <==> name in properties
    {
      name in properties
    }

    /** `getProperties()`: the whole table. */
    function GetProperties(): (r: map<string, AnnotatedProperty>)
      reads this
      ensures r.Keys == properties.Keys && forall n :: n in r ==> GetProperty(n) == Some(r[n])
    {
      properties
    }

    /** `__get($property)`: the registered getter's result, else the own field, else null. */
    function Read(name: string): (r: OA.Value)
      reads this, properties.Values
      ensures name in Table() && Table()[name].getter.Some? ==>
                r == call(Table()[name].getter.value, fields, setterCalls)
      ensures !(name in Table() && Table()[name].getter.Some?) ==>
                r == if name in fields then fields[name] else OA.Value.Null
    {
      var entry := GetProperty(name);
      if entry.Some? && entry.value.HasGetter() then call(entry.value.GetGetter().value, fields, setterCalls)
      else if name in fields then fields[name]
      else OA.Value.Null
    }

    /** `__set($property, $value)`: the registered setter, else the own field; returns the object. */
    method Write(name: string, value: OA.Value) returns (self: Annotated)
      requires Valid()
      modifies this
      ensures Valid()
      ensures self == this && properties == old(properties) && Table() == old(Table())
      ensures (name in Table() && Table()[name].setter.Some?) ==>
                fields == old(fields) && setterCalls == old(setterCalls) + [(Table()[name].setter.value, value)]
      ensures !(name in Table() && Table()[name].setter.Some?) ==>
                fields == old(fields)[name := value] && setterCalls == old(setterCalls)
    {
      var entry := GetProperty(name);
      if entry.Some? && entry.value.HasSetter() {
        setterCalls := setterCalls + [(entry.value.GetSetter().value, value)];
        return this;
      }
      fields := fields[name := value];
      return this;
    }

    /** `__isset($property)`: a table entry, or `property_exists` (declared, current, or the table itself). */
    function Isset(name: string): (b: bool)
      reads this
      ensures b <==> HasProperty(name) || name == "properties" || name in declared || name in fields
    {
      HasProperty(name) || name == "properties" || name in declared || name in fields
    }

    /** `__unset($property)`: drop the table entry if there is one, else the own field. */
    method Unset(name: string)
      requires Valid()
      modifies this
      ensures Valid() && !HasProperty(name)
      ensures old(HasProperty(name)) ==>
                properties == old(properties) - {name} && Table() == old(Table()) - {name} && fields == old(fields)
      ensures !old(HasProperty(name)) ==> properties == old(properties) && fields == old(fields) - {name}
      ensures setterCalls == old(setterCalls)
    {
      if HasProperty(name) {
        properties := properties - {name};
      } else {
        fields := fields - {name};
      }
    }
  }
}
