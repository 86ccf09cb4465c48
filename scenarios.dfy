/**
 * The repository's test scripts, replayed on the model.  Each method
 * builds the script's objects, performs its steps and returns what its
 * assertions inspect; the postconditions say what the model answers.
 * Where that differs from what a script expects, the script
 * expects reads routed by `@property\getter` tags rather than
 * by the `get` + ucfirst(name) naming convention.
 */
module Scenarios {
  import opened Wrappers
  import opened PhpStrings
  import opened ObjectAdapters
  import PA = PropertyAnnotation

  /** The lower-cased getter name is three characters longer than the property name. */
  lemma GetterNameLength(name: string)
    ensures |Lower(GetterName(name))| == |name| + 3
  {
  }

  /** A read of a name that finds no getter and no field gives a NullAdapter. */
  lemma ReadMissing(a: ObjectAdapter, name: string)
    requires !IsEmptyString(name) && name != "targetObject"
    requires Lower(GetterName(name)) !in a.methods.names
    requires name !in a.targetObject.fields
    ensures a.Read(name) == NewNullAdapter
  {
  }

  /** A read of a name whose getter PHP finds under the lower-cased name `m` gives that getter's result. */
  lemma ReadGetter(a: ObjectAdapter, name: string, m: string)
    requires !IsEmptyString(name) && name != "targetObject"
    requires Lower(GetterName(name)) == m && m in a.methods.names
    ensures a.Read(name) == a.methods.call(m, a.targetObject.fields, a.setterCalls)
  {
  }

  /** Through a fresh NullAdapter any non-empty name but `targetObject` reads as another fresh NullAdapter. */
  lemma FreshNullAdapterChain(name: string)
    requires !IsEmptyString(name) && name != "targetObject"
    ensures ReadIn(FreshNullView(), name) == NewNullAdapter
  {
  }

  /** The getters of tests/MyAdapterTest.php, under the lower-cased names PHP looks them up by. */
  const GetFirstProp: string := "getfirstprop"
  const GetOtherProp: string := "getotherprop"
  const GetUnsetProp: string := "getunsetprop"

  function MyAdapterTestResults(m: string, f: map<string, Value>, l: Log): Value {
    if m == GetFirstProp then Str("first")
    else if m == GetOtherProp then Str("other")
    else if m == GetUnsetProp then Str("unset")
    else Null
  }

  function MyAdapterTestMethods(): Methods {
    Methods({GetFirstProp, GetOtherProp, GetUnsetProp}, MyAdapterTestResults)
  }

  lemma FirstPropGetter()
    ensures Lower(GetterName("firstProp")) == GetFirstProp
  {
    assert GetterName("firstProp") == "getFirstProp";
  }

  lemma OtherPropGetter()
    ensures Lower(GetterName("otherProp")) == GetOtherProp
  {
    assert GetterName("otherProp") == "getOtherProp";
  }

  lemma UnsetPropGetter()
    ensures Lower(GetterName("unsetProp")) == GetUnsetProp
  {
    assert GetterName("unsetProp") == "getUnsetProp";
  }

  lemma MyAdapterTestMethodsLowerCased()
    ensures MyAdapterTestMethods().LowerCased()
  {
    FirstPropGetter();
    OtherPropGetter();
    UnsetPropGetter();
    LowerIsFixed(GetFirstProp, GetterName("firstProp"));
    LowerIsFixed(GetOtherProp, GetterName("otherProp"));
    LowerIsFixed(GetUnsetProp, GetterName("unsetProp"));
  }

  lemma WrongPropGetter()
    ensures Lower(GetterName("wrongProp")) == "getwrongprop"
  {
    assert GetterName("wrongProp") == "getWrongProp";
  }

  /** The three reads of tests/MyAdapterTest.php that go through a getter. */
  lemma MyAdapterTestGetters(a: ObjectAdapter)
    requires a.methods == MyAdapterTestMethods()
    ensures a.Read("firstProp") == Str("first") && a.Read("otherProp") == Str("other")
    ensures a.Read("unsetProp") == Str("unset")
  {
    FirstPropGetter();
    OtherPropGetter();
    UnsetPropGetter();
    ReadGetter(a, "firstProp", GetFirstProp);
    ReadGetter(a, "otherProp", GetOtherProp);
    ReadGetter(a, "unsetProp", GetUnsetProp);
  }

  /** `prop` has no getter and reads the target's field. */
  lemma MyAdapterTestField(a: ObjectAdapter)
    requires a.methods == MyAdapterTestMethods() && a.targetObject.fields == map["prop" := Str("test")]
    ensures a.Read("prop") == Str("test")
  {
    GetterNameLength("prop");
  }

  /** The names tests/MyAdapterTest.php expects to read as NullAdapters once both unsets are done. */
  lemma MyAdapterTestMisses(a: ObjectAdapter)
    requires a.methods == MyAdapterTestMethods() && a.targetObject.fields == map["prop" := Str("test")]
    ensures a.Read("wrongProp") == NewNullAdapter
    ensures a.Read("unsetLegacyProp") == NewNullAdapter
    ensures a.Read("chained") == NewNullAdapter
  {
    WrongPropGetter();
    ReadMissing(a, "wrongProp");
    GetterNameLength("unsetLegacyProp");
    ReadMissing(a, "unsetLegacyProp");
    GetterNameLength("chained");
    ReadMissing(a, "chained");
  }

  /** `prop` is set and `wrongProp` is not. */
  lemma PropIsset(a: ObjectAdapter)
    requires a.targetObject.fields == map["prop" := Str("test")] && a.targetObject.declared == {}
    ensures a.Isset("prop") && !a.Isset("wrongProp")
  {
  }

  /** The objects tests/MyAdapterTest.php builds, after its two unsets. */
  method MyAdapterTestSetUp() returns (adapter: ObjectAdapter)
    ensures adapter.methods == MyAdapterTestMethods() && !adapter.isNull
    ensures adapter.targetObject.fields == map["prop" := Str("test")] && adapter.targetObject.declared == {}
  {
    var target := new Target({}, map["prop" := Str("test"), "unsetLegacyProp" := Str("legacy")]);
    MyAdapterTestMethodsLowerCased();
    adapter := new ObjectAdapter(MyAdapterTestMethods(), target);
    adapter.OffsetUnset("unsetProp");
    adapter.OffsetUnset("unsetLegacyProp");
    assert adapter.targetObject.fields == map["prop" := Str("test")];
  }

  /**
   * tests/MyAdapterTest.php.  Every assertion holds except the one on
   * `unsetProp`: `getUnsetProp` exists, so the read goes to it.
   */
  method MyAdapterTestScript()
    returns (prop: Value, first: Value, other: Value, wrongIsset: bool, propIsset: bool,
             wrong: Value, unsetProp: Value, unsetLegacy: Value, chained: Value)
    ensures prop == Str("test") && first == Str("first") && other == Str("other")
    ensures !wrongIsset && propIsset
    ensures IsNullAdapter(wrong) && IsNullAdapter(unsetLegacy) && IsNullAdapter(chained)
    ensures unsetProp == Str("unset")
  {
    var adapter := MyAdapterTestSetUp();
    MyAdapterTestGetters(adapter);
    MyAdapterTestField(adapter);
    MyAdapterTestMisses(adapter);
    PropIsset(adapter);
    prop := adapter.Read("prop");
    first := adapter.Read("firstProp");
    other := adapter.Read("otherProp");
    wrongIsset := adapter.OffsetExists("wrongProp");
    propIsset := adapter.OffsetExists("prop");
    wrong := adapter.Read("wrongProp");
    unsetProp := adapter.Read("unsetProp");
    unsetLegacy := adapter.Read("unsetLegacyProp");
    // `->chained->wrong->prop`: each step reads through the NullAdapter the previous one gave.
    chained := adapter.Read("chained");
    FreshNullAdapterChain("wrong");
    FreshNullAdapterChain("prop");
    chained := if chained.NewNullAdapter? then ReadIn(FreshNullView(), "wrong") else chained;
    chained := if chained.NewNullAdapter? then ReadIn(FreshNullView(), "prop") else chained;
  }

  /** The getters of tests/MyAdapter.php, none of them named after a property the script reads. */
  const GetMyProperty1: string := "getmyproperty1"
  const GetMyProperty2: string := "getmyproperty2"
  const GetUnsetProperty: string := "getunsetproperty"

  function MyAdapterResults(m: string, f: map<string, Value>, l: Log): Value {
    if m == GetMyProperty1 then Str("first")
    else if m == GetMyProperty2 then Str("other")
    else if m == GetUnsetProperty then Str("unset")
    else Null
  }

  function MyAdapterMethods(): Methods {
    Methods({GetMyProperty1, GetMyProperty2, GetUnsetProperty}, MyAdapterResults)
  }

  lemma MyFirstPropGetter()
    ensures Lower(GetterName("myFirstProp")) == "getmyfirstprop"
  {
    assert GetterName("myFirstProp") == "getMyFirstProp";
  }

  lemma MyOtherPropGetter()
    ensures Lower(GetterName("myOtherProp")) == "getmyotherprop"
  {
    assert GetterName("myOtherProp") == "getMyOtherProp";
  }

  lemma MyUnsetPropGetter()
    ensures Lower(GetterName("myUnsetProp")) == "getmyunsetprop"
  {
    assert GetterName("myUnsetProp") == "getMyUnsetProp";
  }

  lemma MyProperty1Getter()
    ensures Lower(GetterName("myProperty1")) == GetMyProperty1
  {
    assert GetterName("myProperty1") == "getMyProperty1";
  }

  lemma MyProperty2Getter()
    ensures Lower(GetterName("myProperty2")) == GetMyProperty2
  {
    assert GetterName("myProperty2") == "getMyProperty2";
  }

  lemma UnsetPropertyGetter()
    ensures Lower(GetterName("unsetProperty")) == GetUnsetProperty
  {
    assert GetterName("unsetProperty") == "getUnsetProperty";
  }

  lemma MyAdapterMethodsLowerCased()
    ensures MyAdapterMethods().LowerCased()
  {
    MyProperty1Getter();
    MyProperty2Getter();
    UnsetPropertyGetter();
    LowerIsFixed(GetMyProperty1, GetterName("myProperty1"));
    LowerIsFixed(GetMyProperty2, GetterName("myProperty2"));
    LowerIsFixed(GetUnsetProperty, GetterName("unsetProperty"));
  }

  /** `myFirstProp` and `myOtherProp` find neither a `getMyFirstProp` / `getMyOtherProp` method nor a field. */
  lemma MyAdapterTaggedMisses(a: ObjectAdapter)
    requires a.methods == MyAdapterMethods() && a.targetObject.fields == map["myProp" := Str("test")]
    ensures a.Read("myFirstProp") == NewNullAdapter && a.Read("myOtherProp") == NewNullAdapter
    ensures a.Read("myUnsetProp") == NewNullAdapter
  {
    MyFirstPropGetter();
    ReadMissing(a, "myFirstProp");
    MyOtherPropGetter();
    ReadMissing(a, "myOtherProp");
    MyUnsetPropGetter();
    ReadMissing(a, "myUnsetProp");
  }

  /** Every other name tests/MyAdapter.php reads: only `myProp` finds a value, and only it is set. */
  lemma MyAdapterPlainReads(a: ObjectAdapter)
    requires a.methods == MyAdapterMethods() && a.targetObject.fields == map["myProp" := Str("test")]
    ensures a.Read("myProp") == Str("test")
    ensures a.Read("wrongProp") == NewNullAdapter && a.Read("chained") == NewNullAdapter
    ensures a.targetObject.declared == {} ==> !a.Isset("wrongProp") && a.Isset("myProp")
  {
    GetterNameLength("myProp");
    GetterNameLength("wrongProp");
    ReadMissing(a, "wrongProp");
    GetterNameLength("chained");
    ReadMissing(a, "chained");
  }

  /** `get('myOtherProp')` reads a NullAdapter and asks it for the empty path. */
  lemma MyOtherPropPath(a: ObjectAdapter)
    requires a.methods == MyAdapterMethods() && a.targetObject.fields == map["myProp" := Str("test")]
    ensures a.Get("myOtherProp", Null) == NewNullAdapter
  {
    MyAdapterTaggedMisses(a);
    GetSingleAdapterSegment(a, "myOtherProp", Null);
  }

  /** `get('wrongProp')` reads a NullAdapter and asks it for the empty path. */
  lemma WrongPropPath(a: ObjectAdapter)
    requires a.methods == MyAdapterMethods() && a.targetObject.fields == map["myProp" := Str("test")]
    ensures a.Get("wrongProp", Null) == NewNullAdapter
  {
    MyAdapterPlainReads(a);
    GetSingleAdapterSegment(a, "wrongProp", Null);
  }

  /** A path whose first segment reads as a NullAdapter and has no `targetObject` segment, such as `chained.wrong.prop`. */
  lemma MyAdapterChainedPath(a: ObjectAdapter, path: string)
    requires Segments(path) == ["chained", "wrong", "prop"] && SplitFirst(path).0 == "chained"
    requires a.Read("chained") == NewNullAdapter
    ensures a.Get(path, Null) == NewNullAdapter
  {
    GetThroughMissing(a, path, Null);
  }

  /** The path `.` has an empty first segment. */
  lemma DotPath(a: ObjectAdapter)
    ensures a.Get(".", Null) == NewNullAdapter
  {
    assert SplitFirst(".").0 == "" by {
      SplitJoined("", "");
    }
    GetEmptyFirstSegment(a, ".", Null);
  }

  /** The objects tests/MyAdapter.php builds, after its unset. */
  method MyAdapterSetUp() returns (adapter: ObjectAdapter)
    ensures adapter.methods == MyAdapterMethods() && !adapter.isNull
    ensures adapter.targetObject.fields == map["myProp" := Str("test")] && adapter.targetObject.declared == {}
  {
    var target := new Target({}, map["myProp" := Str("test")]);
    MyAdapterMethodsLowerCased();
    adapter := new ObjectAdapter(MyAdapterMethods(), target);
    adapter.OffsetUnset("myUnsetProp");
    assert adapter.targetObject.fields == map["myProp" := Str("test")];
  }

  /**
   * tests/MyAdapter.php.  The reads of `myFirstProp` and `myOtherProp`,
   * plain or through `get`, find neither a `getMyFirstProp` /
   * `getMyOtherProp` method nor a field, and give NullAdapters.
   */
  method MyAdapterScript()
    returns (myProp: Value, myFirst: Value, myOther: Value, wrongIsset: bool, myPropIsset: bool,
             getOther: Value, getWrong: Value, myUnset: Value, getChained: Value, getDot: Value)
    ensures myProp == Str("test")
    ensures IsNullAdapter(myFirst) && IsNullAdapter(myOther) && IsNullAdapter(getOther)
    ensures !wrongIsset && myPropIsset
    ensures IsNullAdapter(getWrong) && IsNullAdapter(myUnset) && IsNullAdapter(getChained) && IsNullAdapter(getDot)
  {
    var adapter := MyAdapterSetUp();
    MyAdapterTaggedMisses(adapter);
    MyAdapterPlainReads(adapter);
    MyOtherPropPath(adapter);
    WrongPropPath(adapter);
    ChainedPath();
    MyAdapterChainedPath(adapter, "chained.wrong.prop");
    DotPath(adapter);
    myProp := adapter.Read("myProp");
    myFirst := adapter.Read("myFirstProp");
    myOther := adapter.Read("myOtherProp");
    wrongIsset := adapter.OffsetExists("wrongProp");
    myPropIsset := adapter.OffsetExists("myProp");
    getOther := adapter.Get("myOtherProp", Null);
    getWrong := adapter.Get("wrongProp", Null);
    myUnset := adapter.Read("myUnsetProp");
    getChained := adapter.Get("chained.wrong.prop", Null);
    getDot := adapter.Get(".", Null);
  }

  lemma ChainedPath()
    ensures SplitFirst("chained.wrong.prop").0 == "chained"
    ensures Segments("chained.wrong.prop") == ["chained", "wrong", "prop"]
  {
    var segs := ["chained", "wrong", "prop"];
    assert JoinDots(segs) == "chained.wrong.prop";
    SegmentsOfJoin(segs);
    SplitJoined("chained", "wrong.prop");
  }

  /** The doc comment of `getMyFirstProperty` in tests/PropertyAnnotationTest.php, piece by piece, with the file's own indentation. */
  const DocOpening: string := "/**\n     * "
  const DocTag: string := "@property\\getter"
  const PropertyName: string := "myFirstProperty"
  const DocName: string := " " + PropertyName
  const DocClosing: string := "\n     */"
  const FirstPropertyDoc: string := DocOpening + DocTag + DocName + DocClosing

  /** Each part of a four-part concatenation is found back at its offset. */
  lemma ConcatParts(a: string, b: string, c: string, d: string)
    ensures var s := a + b + c + d;
            && s[..|a|] == a
            && s[|a|..|a| + |b|] == b
            && s[|a| + |b|..|a| + |b| + |c|] == c
            && s[|a| + |b| + |c|..] == d
  {
    var s := a + b + c + d;
    assert s[|a|..] == b + c + d;
    assert s[|a| + |b|..] == c + d;
  }

  lemma FirstPropertyDocLayout()
    ensures |FirstPropertyDoc| == 51
    ensures FirstPropertyDoc[11..27] == DocTag == PA.TagText(PA.Getter)
    ensures FirstPropertyDoc[27..43] == DocName
    ensures forall q :: 0 <= q < 11 ==> FirstPropertyDoc[q] != '@'
    ensures FirstPropertyDoc[43] == '\n' && forall q :: 43 < q < 51 ==> FirstPropertyDoc[q] != '\n'
  {
    var doc := FirstPropertyDoc;
    assert |DocOpening| == 11 && |DocTag| == 16 && |DocName| == 16 && |DocClosing| == 8;
    ConcatParts(DocOpening, DocTag, DocName, DocClosing);
    assert forall q :: 0 <= q < 11 ==> doc[q] == doc[..11][q];
    assert forall q :: 43 <= q < 51 ==> doc[q] == doc[43..][q - 43];
  }

  lemma FirstPropertyDocBounds()
    ensures PA.FirstTag(FirstPropertyDoc, 0) == Some((11, PA.Getter))
    ensures PA.LastNewline(FirstPropertyDoc, |FirstPropertyDoc|) == Some(43)
  {
    var doc := FirstPropertyDoc;
    FirstPropertyDocLayout();
    PA.FirstTagIsLeftmost(doc, 0);
    assert PA.TagAt(doc, 11, PA.Getter);
    var first := PA.FirstTag(doc, 0);
    var p := first.value.0;
    assert doc[p..p + 16][0] == doc[p] == '@';
    assert first.value.1 == PA.Getter by {
      assert PA.TagText(PA.Setter)[10] != doc[11..27][10];
    }
  }

  lemma DocNameTrimmed()
    ensures Trim(DocName) == PropertyName
  {
    TrimLeadingSpace(PropertyName);
  }

  lemma FirstPropertyDocName()
    ensures Trim(FirstPropertyDoc[27..43]) == "myFirstProperty"
  {
    FirstPropertyDocLayout();
    DocNameTrimmed();
  }

  /** The tag in `getMyFirstProperty`'s comment registers it as the getter of `myFirstProperty`. */
  lemma FirstPropertyDocTag()
    ensures PA.ParseTag(FirstPropertyDoc) == Some(PA.Tag(PA.Getter, "myFirstProperty"))
  {
    FirstPropertyDocBounds();
    FirstPropertyDocName();
  }

  /** The getter result in tests/PropertyAnnotationTest.php. */
  function AnnotationResults(m: string, f: map<string, Value>, l: Log): Value {
    if m == "getMyFirstProperty" then Str("my_property") else Null
  }

  /**
   * The public methods of the test class that matter: its constructor,
   * whose comment is absent, and the tagged getter.  The trait's own
   * public methods carry no tag and register nothing.
   */
  function AnnotationTestMethods(): seq<PA.MethodDecl> {
    [PA.MethodDecl("__construct", ""), PA.MethodDecl("getMyFirstProperty", FirstPropertyDoc)]
  }

  lemma AnnotationTestCandidates()
    ensures PA.Candidates(AnnotationTestMethods())
              == [PA.Candidate("__construct", None), PA.Candidate("getMyFirstProperty", Some(PA.Tag(PA.Getter, "myFirstProperty")))]
  {
    var ms := AnnotationTestMethods();
    var cs := PA.Candidates(ms);
    assert cs[0] == PA.Candidate("__construct", None) by {
      assert PA.ParseTag(ms[0].doc) == None;
    }
    assert cs[1] == PA.Candidate("getMyFirstProperty", Some(PA.Tag(PA.Getter, "myFirstProperty"))) by {
      FirstPropertyDocTag();
    }
  }

  /** An untagged method followed by one tagged getter leaves a table with just that getter. */
  lemma ScanUntaggedThenGetter(c0: PA.Candidate, m: string, name: string)
    requires c0.tag.None?
    ensures PA.Scan(map[], [c0, PA.Candidate(m, Some(PA.Tag(PA.Getter, name)))])
              == map[name := PA.Accessors(Some(m), None)]
  {
    var cs := [c0, PA.Candidate(m, Some(PA.Tag(PA.Getter, name)))];
    assert cs[..1] == [c0] && cs[..1][..0] == [];
    assert PA.Scan(map[], cs[..1]) == map[];
  }

  lemma AnnotationTestTable()
    ensures PA.Scan(map[], PA.Candidates(AnnotationTestMethods()))
              == map["myFirstProperty" := PA.Accessors(Some("getMyFirstProperty"), None)]
  {
    AnnotationTestCandidates();
    ScanUntaggedThenGetter(PA.Candidate("__construct", None), "getMyFirstProperty", "myFirstProperty");
  }

  /** tests/PropertyAnnotationTest.php: all five assertions hold. */
  method PropertyAnnotationTestScript()
    returns (first: Value, second: Value, firstIsset: bool, secondIsset: bool, invalid: Value)
    ensures first == Str("my_property") && second == Str("my_second_one")
    ensures firstIsset && secondIsset
    ensures invalid == Null
  {
    var test := new PA.Annotated({"mySecondProperty"}, map["mySecondProperty" := Str("my_second_one")],
                                 AnnotationResults, AnnotationTestMethods());
    AnnotationTestTable();
    first := test.Read("myFirstProperty");
    second := test.Read("mySecondProperty");
    firstIsset := test.Isset("myFirstProperty");
    secondIsset := test.Isset("mySecondProperty");
    invalid := test.Read("myInvalidProperty");
  }
}
