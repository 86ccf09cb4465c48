# object-adapter, modelled in Dafny

This project models the core of the PHP library `dandjo/object-adapter` and proves properties of the model.

- `ObjectAdapter` wraps a target object. Reading or writing a name through the adapter goes to a `get`/`set` + `ucfirst(name)` method when the adapter's class has one. Otherwise it goes to the target's field of that name. A missing or null field reads as a new `NullAdapter`.
- `get('a.b.c')` walks a dotted path through nested adapters.
- The `ArrayAccess` methods (`offsetGet`, ...) delegate to the magic methods.
- `NullAdapter` is an adapter over an empty object and prints as the empty string.
- `PropertyAnnotationTrait` reads `@property\getter NAME` and `@property\setter NAME` tags from the doc comments of an object's public methods. It builds a table of `AnnotatedProperty` entries and routes reads and writes of those names through the registered methods.
- `JsonObjectAdapter` normalises its input: an array goes through `json_encode`/`json_decode`, JSON text is decoded, an object is kept as it is, and empty input becomes an empty object. Only the first two are guaranteed to come out in decoded form (every array a list), which is what `SerializeRoundTrip` needs. `update` merges new data in with `array_replace_recursive`, and `jsonSerialize` gives the target back.

Files:

- `wrappers.dfy`: `Option`.
- `php_strings.dfy`: the string behaviour PHP gives these operations. This covers `empty` on strings, `ucfirst`, case-insensitive method names, `trim`, the dot split of a path and decimal array keys.
- `object_adapter.dfy`: `ObjectAdapter` and `NullAdapter`.
- `annotated_property.dfy`: `AnnotatedProperty`.
- `property_annotation.dfy`: the tag parser, the table that `initProperties` builds (as a specification function), and a class using the trait.
- `json_data.dfy`: JSON values and PHP data, `json_encode`, and `json_decode` in both modes.
- `array_replace.dfy`: `array_replace_recursive`.
- `json_object_adapter.dfy`: `JsonObjectAdapter`.
- `scenarios.dfy`: the repository's three test scripts, replayed on the model.

Where the code departs from its own documentation, the model follows the code:

- `__get`/`__set` of `ObjectAdapter` route by the `get`/`set` + `ucfirst` naming convention, not by `@property` tags. As a result, `tests/MyAdapter.php` lines 45, 46 and 49 do not hold on the model, and `tests/MyAdapterTest.php` line 53 does not either. `Scenarios.MyAdapterScript` and `Scenarios.MyAdapterTestScript` state what the model answers instead.
- The tag pattern's `(.*)` runs under the `s` flag. It is greedy, so the captured name ends at the last newline of the comment, not the first (`PropertyAnnotation.CaptureRunsToLastNewline`).
- A tag with an empty name registers the name `""`.

## Model

| member | source | states |
|---|---|---|
| PhpStrings.UcFirstIgnoredByLookup | src/ObjectAdapter.php:63-64 | `get` + `ucfirst(name)` and `get` + `name` find the same method, because PHP compares method names case-insensitively |
| PhpStrings.IsEmptyString | src/ObjectAdapter.php:41 | `empty()` on a name: exactly `""` and `"0"` are empty (no contract; used by `Read`, `GetIn` and `GetEmptyFirstSegment`) |
| PhpStrings.UcFirst | src/ObjectAdapter.php:63 | `ucfirst` keeps the length and changes at most the first character |
| PhpStrings.Lower | src/ObjectAdapter.php:63 | the folded name has the same length, no upper-case letter, and differs from the input only where an upper-case letter became its lower-case form |
| PhpStrings.LowerIdempotent | src/ObjectAdapter.php:63 | folding a folded name changes nothing |
| PhpStrings.TrimLeft | src/Annotation/PropertyAnnotationTrait.php:117 | the result is a suffix of the input; only trim characters were dropped; it does not start with one |
| PhpStrings.TrimRight | src/Annotation/PropertyAnnotationTrait.php:117 | the result is a prefix of the input; only trim characters were dropped; it does not end with one |
| PhpStrings.Trim | src/Annotation/PropertyAnnotationTrait.php:117 | the result is the input with only trim characters removed at both ends, and neither end is a trim character |
| PhpStrings.TrimIdempotent | src/Annotation/PropertyAnnotationTrait.php:117 | trimming a trimmed name changes nothing |
| PhpStrings.TrimLeadingSpace | src/Annotation/PropertyAnnotationTrait.php:117 | the space between the tag and a name is dropped, and the name is kept whole |
| PhpStrings.SplitFirst | src/ObjectAdapter.php:39-45 | the first segment holds no dot; the path is the first segment, a dot and the rest, or the first segment alone when the path has no dot |
| PhpStrings.SplitFirstShrinks | src/ObjectAdapter.php:44-45 | the path handed to the nested `get` is shorter, so the walk ends |
| PhpStrings.Segments | src/ObjectAdapter.php:39 | splitting on dots gives at least one segment and no segment holds a dot |
| PhpStrings.JoinDots | src/ObjectAdapter.php:45 | `implode('.', ...)` (no contract; `JoinSegments`, `SplitJoined` and `SegmentsOfJoin` state it inverts the dot split) |
| PhpStrings.JoinSegments | src/ObjectAdapter.php:39-45 | joining the split segments with dots gives back the path |
| PhpStrings.SplitJoined | src/ObjectAdapter.php:39-40 | for a dot-free `a`, the first segment of `a.b` is `a` and the rest is `b` |
| PhpStrings.SegmentsOfJoin | src/ObjectAdapter.php:39 | splitting dot-free segments joined with dots gives back those segments |
| PhpStrings.RestIsJoinedTail | src/ObjectAdapter.php:39-45 | the rest passed on is exactly the later segments joined with dots |
| PhpStrings.NatToString | src/JsonObjectAdapter.php:51 | an integer key is written as decimal digits that denote it, with no leading zero |
| PhpStrings.NatToStringInjective | src/JsonObjectAdapter.php:51 | two different integer keys are never written the same way |
| ObjectAdapters.GetIn | src/ObjectAdapter.php:37-48 | a dotted-path read never answers null, and its answer is truthy unless it is the default |
| ObjectAdapters.Truthy | src/ObjectAdapter.php:47 | what `?:` treats as true: null, false, 0, `""`, `"0"` and the empty array are false (no contract; `GetIn` and `Get` state their answers with it) |
| ObjectAdapters.IsAdapter | src/ObjectAdapter.php:44 | `is_a(..., ObjectAdapter::class)`: an adapter or a new NullAdapter (no contract; `GetDescends` and `GetStopsAtValue` use it) |
| ObjectAdapters.ReadIn | src/ObjectAdapter.php:55-67 | `__get` over a snapshot of an adapter (no contract of its own; `ObjectAdapter.Read` states its cases) |
| ObjectAdapters.HasIgnoresCase | src/ObjectAdapter.php:63 | with folded method names, a lookup finds a method iff one is declared under the same name up to case |
| ObjectAdapters.Methods.Has | src/ObjectAdapter.php:63 | `method_exists`: the folded name is among the declared ones (no contract; `HasIgnoresCase` states that it ignores case) |
| ObjectAdapters.ObjectAdapter.constructor | src/ObjectAdapter.php:26-30 | the adapter wraps the given object and has made no setter calls |
| ObjectAdapters.ObjectAdapter.NullAdapter | src/NullAdapter.php:20-23 | a NullAdapter wraps a new object with no fields and has no accessor methods |
| ObjectAdapters.ObjectAdapter.ToString | src/NullAdapter.php:28-31 | a NullAdapter prints as the empty string |
| ObjectAdapters.ObjectAdapter.Read | src/ObjectAdapter.php:55-67 | by case: an empty name gives a NullAdapter; `targetObject` gives the target; a name with a getter gives that getter's result; otherwise a non-null field, else a NullAdapter |
| ObjectAdapters.ObjectAdapter.Isset | src/ObjectAdapter.php:92-95 | a name is set iff the target has the field or its class declares it, whatever its value and whatever getters exist |
| ObjectAdapters.ObjectAdapter.Write | src/ObjectAdapter.php:74-86 | returns the adapter itself; `targetObject` replaces the target; otherwise a name with a setter logs one setter call and leaves the target alone; any other name sets the target's field and nothing else |
| ObjectAdapters.ObjectAdapter.Unset | src/ObjectAdapter.php:100-103 | removes exactly that field of the target |
| ObjectAdapters.ObjectAdapter.OffsetExists | src/ObjectAdapter.php:110-113 | answers as `__isset` |
| ObjectAdapters.ObjectAdapter.OffsetGet | src/ObjectAdapter.php:120-123 | answers as `__get` |
| ObjectAdapters.ObjectAdapter.OffsetSet | src/ObjectAdapter.php:130-133 | has the same effect as `__set`, case by case |
| ObjectAdapters.ObjectAdapter.OffsetUnset | src/ObjectAdapter.php:139-142 | removes exactly that field, as `__unset` |
| ObjectAdapters.ObjectAdapter.Get | src/ObjectAdapter.php:37-48 | never answers null; the answer is truthy unless it is the default |
| ObjectAdapters.GetEmptyFirstSegment | src/ObjectAdapter.php:39-43 | an empty first segment (`""`, `"0"`, a leading dot) gives a NullAdapter |
| ObjectAdapters.GetDescends | src/ObjectAdapter.php:44-46 | a first segment that reads as an adapter hands the rest of the path to that adapter's `get` |
| ObjectAdapters.GetStopsAtValue | src/ObjectAdapter.php:47 | any other first segment ends the walk: its value if truthy, else the default if not null, else a NullAdapter |
| ObjectAdapters.NullChain | src/ObjectAdapter.php:57-66 | inside a fresh NullAdapter, every path without a `targetObject` segment ends in a NullAdapter |
| ObjectAdapters.GetThroughMissing | src/ObjectAdapter.php:44-46 | a path whose first segment is missing ends in a NullAdapter, however long it is, when no segment is `targetObject` |
| ObjectAdapters.GetSingleAdapterSegment | src/ObjectAdapter.php:44-45 | a one-segment path naming an adapter ends in that adapter's `get('')`, a NullAdapter |
| ObjectAdapters.FreshNullAdapterReads | src/NullAdapter.php:20-23 | through a new NullAdapter every name but `targetObject` reads as a NullAdapter, `targetObject` reads as its empty target, and no name at all is set |
| ObjectAdapters.ReadBackPlainField | src/ObjectAdapter.php:63-66 | a non-null field with no getter reads back as stored and counts as set |
| ObjectAdapters.GetterWinsOverField | src/ObjectAdapter.php:63-65 | a getter is used even when the target has a field of that name, in whatever case the name is written |
| AnnotatedProperties.AnnotatedProperty.constructor | src/Annotation/AnnotatedProperty.php:20-25 | a new entry has neither a getter nor a setter |
| AnnotatedProperties.AnnotatedProperty.GetGetter | src/Annotation/AnnotatedProperty.php:30-33 | the stored getter, present iff `hasGetter` |
| AnnotatedProperties.AnnotatedProperty.SetGetter | src/Annotation/AnnotatedProperty.php:38-41 | the getter slot holds the method and the setter slot is unchanged |
| AnnotatedProperties.AnnotatedProperty.HasGetter | src/Annotation/AnnotatedProperty.php:46-49 | true iff a getter is stored |
| AnnotatedProperties.AnnotatedProperty.GetSetter | src/Annotation/AnnotatedProperty.php:54-57 | the stored setter, present iff `hasSetter` |
| AnnotatedProperties.AnnotatedProperty.SetSetter | src/Annotation/AnnotatedProperty.php:62-65 | the setter slot holds the method and the getter slot is unchanged |
| AnnotatedProperties.AnnotatedProperty.HasSetter | src/Annotation/AnnotatedProperty.php:70-73 | true iff a setter is stored |
| PropertyAnnotation.TagText | src/Annotation/PropertyAnnotationTrait.php:115 | both tag texts are 16 characters long |
| PropertyAnnotation.MatchAt | src/Annotation/PropertyAnnotationTrait.php:115 | the pattern matches from a tag at `p` to a newline at `l` at least one tag length further on (no contract; the definition `ParseTagSound` and `ParseTagComplete` are stated against) |
| PropertyAnnotation.FirstTag | src/Annotation/PropertyAnnotationTrait.php:115 | an answer is a tag at or after the position |
| PropertyAnnotation.FirstTagIsLeftmost | src/Annotation/PropertyAnnotationTrait.php:115 | no tag starts before the one found, and none at all when none is found |
| PropertyAnnotation.LastNewline | src/Annotation/PropertyAnnotationTrait.php:115 | finds the last newline before a position, or there is none |
| PropertyAnnotation.ParseTag | src/Annotation/PropertyAnnotationTrait.php:115-117 | a parsed tag has the role of the leftmost tag, and its name neither starts nor ends with a trim character; `ParseTagSound` and `ParseTagComplete` state the rest |
| PropertyAnnotation.ParseTagSound | src/Annotation/PropertyAnnotationTrait.php:115-117 | a parsed tag comes from a match of the pattern that starts leftmost and ends at the farthest newline; its name is the trimmed capture |
| PropertyAnnotation.LeftmostLongest | src/Annotation/PropertyAnnotationTrait.php:115 | the match `preg_match` reports: no match starts earlier, and none from the same start ends later (no contract; a definition) |
| PropertyAnnotation.FirstMatchIsChosen | src/Annotation/PropertyAnnotationTrait.php:115 | the first tag and the last newline delimit the match the pattern picks: leftmost, then longest |
| PropertyAnnotation.ParseTagComplete | src/Annotation/PropertyAnnotationTrait.php:115-116 | whenever the pattern matches anywhere in the comment, a tag is parsed |
| PropertyAnnotation.CaptureRunsToLastNewline | src/Annotation/PropertyAnnotationTrait.php:115-117 | a comment with a second line after the tag registers a name that includes that line |
| PropertyAnnotation.Candidates | src/Annotation/PropertyAnnotationTrait.php:112-115 | one candidate per public method, in order, with the tag its comment carries |
| PropertyAnnotation.Register | src/Annotation/PropertyAnnotationTrait.php:116-126 | an untagged method changes nothing; a tagged one adds its name and sets only the tagged role of that entry to the method, creating the entry empty if needed |
| PropertyAnnotation.Scan | src/Annotation/PropertyAnnotationTrait.php:112-128 | a name has an entry after the scan iff it had one before or some scanned method carries a tag for it |
| PropertyAnnotation.ScanStep | src/Annotation/PropertyAnnotationTrait.php:112-127 | scanning one more method registers it on top of the methods before it |
| PropertyAnnotation.LastTagged | src/Annotation/PropertyAnnotationTrait.php:112-126 | reference definition: some method is tagged for that role and name iff an answer is given, and the answer is one of them |
| PropertyAnnotation.LastTaggedIsLast | src/Annotation/PropertyAnnotationTrait.php:121-126 | the answer is the last method tagged for that role and name |
| PropertyAnnotation.ScanIsLastTagged | src/Annotation/PropertyAnnotationTrait.php:112-126 | after the scan a name has an entry iff it had one or some method is tagged for it; each accessor is the method tagged last for its role, else the previous one |
| PropertyAnnotation.ScanKeepsEntriesUsed | src/Annotation/PropertyAnnotationTrait.php:118-126 | every entry the scan creates holds a getter or a setter |
| PropertyAnnotation.UntaggedScanIsIdentity | src/Annotation/PropertyAnnotationTrait.php:116 | methods without a tag register nothing |
| PropertyAnnotation.Annotated.constructor | tests/PropertyAnnotationTest.php:11-14 | the table is what the scan of the public methods gives, starting empty; no entry object is shared by two names |
| PropertyAnnotation.Annotated.InitProperties | src/Annotation/PropertyAnnotationTrait.php:109-129 | the table afterwards is the scan of the methods over the old table; the other state is unchanged |
| PropertyAnnotation.Annotated.RegisterMethod | src/Annotation/PropertyAnnotationTrait.php:113-127 | one loop step changes the table exactly as registering that method's tag |
| PropertyAnnotation.Annotated.EnsureEntry | src/Annotation/PropertyAnnotationTrait.php:118-120 | the name now has an entry; an existing entry is kept and a new one is empty |
| PropertyAnnotation.Annotated.StoreAccessor | src/Annotation/PropertyAnnotationTrait.php:121-126 | only the tagged role of that one entry changes |
| PropertyAnnotation.Annotated.GetProperties | src/Annotation/PropertyAnnotationTrait.php:81-84 | the whole table: the same names, each with its entry |
| PropertyAnnotation.Annotated.GetProperty | src/Annotation/PropertyAnnotationTrait.php:91-94 | the entry of the name, present iff `hasProperty` |
| PropertyAnnotation.Annotated.HasProperty | src/Annotation/PropertyAnnotationTrait.php:101-104 | true iff the name has an entry |
| PropertyAnnotation.Annotated.Read | src/Annotation/PropertyAnnotationTrait.php:30-37 | a name with a registered getter gives that getter's result; any other name gives the object's own field, or null |
| PropertyAnnotation.Annotated.Write | src/Annotation/PropertyAnnotationTrait.php:45-54 | returns the object; a registered setter gets one call and the fields stay unchanged; otherwise the own field is set; the table never changes |
| PropertyAnnotation.Annotated.Isset | src/Annotation/PropertyAnnotationTrait.php:60-63 | true iff the name has an entry or is a property of the object, the table itself included |
| PropertyAnnotation.Annotated.Unset | src/Annotation/PropertyAnnotationTrait.php:68-75 | a registered name loses its entry and the fields stay; otherwise the own field is removed and the table stays |
| JsonData.EncodeDecodeObjects | src/JsonObjectAdapter.php:50-55 | re-encoding what object-mode `json_decode` produced gives the same JSON |
| JsonData.DecodeObjectsIsDecoded | src/JsonObjectAdapter.php:53-55 | object-mode decoding only produces lists as arrays |
| JsonData.DecodeObjectsEncode | src/JsonObjectAdapter.php:85-88 | data in decoded form survives encoding and object-mode decoding unchanged |
| JsonData.EncodeDecodeAssoc | src/JsonObjectAdapter.php:73-75 | keyed-array decoding then encoding gives back JSON that has no empty or list-like object |
| JsonData.EncodeDecodeAssocOnlyIf | src/JsonObjectAdapter.php:73-75 | only such JSON survives: JSON that keyed-array decoding then encoding gives back has no empty or list-like object |
| JsonData.EmptyObjectBecomesList | src/JsonObjectAdapter.php:75 | an empty object comes back from keyed-array decoding as an empty array, which encodes as a list |
| JsonData.Empty | src/JsonObjectAdapter.php:36 | `empty()` on PHP data: null, false, 0, `""`, `"0"` and the empty array; never an object (no contract; `Normalize` and `ArrayInput` state their cases with it) |
| JsonData.Encode | src/JsonObjectAdapter.php:51 | `json_encode` (no contract; `EncodeDecodeObjects`, `DecodeObjectsEncode` and `EncodeDecodeAssoc` state its round trips) |
| JsonData.IsList | src/JsonObjectAdapter.php:51 | `json_encode` writes an array as a list exactly when its keys are 0, 1, ... in order (no contract; a definition used by `Encode` and `NormalizeArray`) |
| JsonData.DecodeObjects | src/JsonObjectAdapter.php:54 | `json_decode` in object mode (no contract; `DecodeObjectsIsDecoded` states that only lists come out as arrays) |
| JsonData.DecodeAssoc | src/JsonObjectAdapter.php:73-75 | `json_decode(..., true)` leaves no object anywhere in the result |
| ArrayReplace.Lookup | src/JsonObjectAdapter.php:76 | a key is found iff it is present, and the answer is its entry |
| ArrayReplace.Put | src/JsonObjectAdapter.php:76 | writing a key keeps the keys in place and appends a new key at the end |
| ArrayReplace.PutLookup | src/JsonObjectAdapter.php:76 | after writing a key it holds the new value and every other key keeps its value |
| ArrayReplace.Merged | src/JsonObjectAdapter.php:76 | the value one key of the new data leaves: the recursive merge when both sides are arrays, the new value otherwise (no contract; `ReplaceLookup` states it key by key) |
| ArrayReplace.Replace | src/JsonObjectAdapter.php:76 | `array_replace_recursive` (no contract; `ReplaceLookup`, `ReplaceKeys` and `ReplaceKeySet` state what it does) |
| ArrayReplace.ReplaceLookup | src/JsonObjectAdapter.php:76 | key by key: a key of the new data holds the recursive merge of the old and new values (a merge only when both are arrays); every other key keeps its old value |
| ArrayReplace.ReplaceKeys | src/JsonObjectAdapter.php:76 | the old keys stay first and in order, and no key repeats |
| ArrayReplace.ReplaceKeySet | src/JsonObjectAdapter.php:76 | a key is in the result iff it is in either side |
| JsonObjectAdapters.Normalize | src/JsonObjectAdapter.php:48-58 | the normalised input is never empty; empty input that is not text (null, false, 0, an empty array) becomes an empty object; any other non-array, non-text input, an object included, is kept as it is |
| JsonObjectAdapters.NormalizeArray | src/JsonObjectAdapter.php:50-55 | a non-empty array keeps its JSON, comes out in decoded form, and becomes an object iff it is not a list |
| JsonObjectAdapters.NormalizeText | src/JsonObjectAdapter.php:53-58 | JSON text gives its decoded value unless that is empty; text that decodes to an empty value, or is not JSON, gives an empty object; the result is in decoded form |
| JsonObjectAdapters.DecodeText | src/JsonObjectAdapter.php:53-54 | decoding text in object mode always gives data in decoded form (every array a list) |
| JsonObjectAdapters.DecodeTextAssoc | src/JsonObjectAdapter.php:72-73 | decoding text as keyed arrays leaves no object anywhere in the result |
| JsonObjectAdapters.Incoming | src/JsonObjectAdapter.php:69-74 | an object or text argument comes out with no object left in it; an object becomes an array with the object's own keys, in order, and re-encodes to the object's JSON when no object in it could be taken for a list; any other argument is passed on as it is |
| JsonObjectAdapters.ArrayInput | src/JsonObjectAdapter.php:33-41 | empty decoded input gives no elements; otherwise there are elements iff the decoded input is an array, and then they are its entries |
| JsonObjectAdapters.MergedData | src/JsonObjectAdapter.php:69-76 | the merge is defined iff the current and the new data are both arrays |
| JsonObjectAdapters.CurrentIsArray | src/JsonObjectAdapter.php:75 | the current data of any adapter is an array with the target's own keys, in order, so `update` only fails on its argument |
| JsonObjectAdapters.MergedDataLookup | src/JsonObjectAdapter.php:63-76 | `update` keeps the keys the new data lacks and merges or replaces the keys it has |
| JsonObjectAdapters.JsonObjectAdapter.constructor | src/JsonObjectAdapter.php:48-60 | the target is the normalised input |
| JsonObjectAdapters.JsonObjectAdapter.Create | src/JsonObjectAdapter.php:22-25 | a new adapter over the normalised input |
| JsonObjectAdapters.JsonObjectAdapter.CreateArray | src/JsonObjectAdapter.php:31-42 | one new adapter per element, under the same key and in the same order, all distinct; no result iff the decoded input is neither empty nor an array (empty input gives an empty list) |
| JsonObjectAdapters.JsonObjectAdapter.CreateEach | src/JsonObjectAdapter.php:39-41 | the `array_map` loop: one new adapter per element, under the same key and in the same order, all distinct |
| JsonObjectAdapters.JsonObjectAdapter.Update | src/JsonObjectAdapter.php:67-79 | succeeds iff the merge is defined; on success returns the adapter, whose target is the normalised merge in decoded form; on failure nothing changes |
| JsonObjectAdapters.JsonObjectAdapter.JsonSerialize | src/JsonObjectAdapter.php:85-88 | the whole target |
| JsonObjectAdapters.SerializeRoundTrip | src/JsonObjectAdapter.php:85-88 | object-mode decoding of what the adapter serialises gives back its target |
| Scenarios.ReadMissing | src/ObjectAdapter.php:63-66 | a name with no getter and no field reads as a NullAdapter |
| Scenarios.ReadGetter | src/ObjectAdapter.php:63-64 | a name whose getter is found reads as that getter's result |
| Scenarios.FreshNullAdapterChain | src/ObjectAdapter.php:66 | a chained read through a NullAdapter gives another NullAdapter |
| Scenarios.MyAdapterTestSetUp | tests/MyAdapterTest.php:38-44 | after the two unsets the target holds only `prop` |
| Scenarios.MyAdapterTestGetters | tests/MyAdapterTest.php:48-53 | `firstProp`, `otherProp` and `unsetProp` read through their getters |
| Scenarios.MyAdapterTestField | tests/MyAdapterTest.php:47 | `prop` reads the target's field |
| Scenarios.MyAdapterTestMisses | tests/MyAdapterTest.php:52-55 | `wrongProp`, `unsetLegacyProp` and `chained` read as NullAdapters |
| Scenarios.PropIsset | tests/MyAdapterTest.php:50-51 | `prop` is set and `wrongProp` is not |
| Scenarios.MyAdapterTestScript | tests/MyAdapterTest.php:38-56 | all assertions hold but the one on `unsetProp`, which reads `"unset"` through `getUnsetProp` |
| Scenarios.MyAdapterSetUp | tests/MyAdapter.php:37-41 | after the unset the target holds only `myProp` |
| Scenarios.MyAdapterTaggedMisses | tests/MyAdapter.php:45-51 | `myFirstProp`, `myOtherProp` and `myUnsetProp` find no getter of that name and no field, and read as NullAdapters |
| Scenarios.MyAdapterPlainReads | tests/MyAdapter.php:44-48 | `myProp` reads the field and is set; `wrongProp` and `chained` read as NullAdapters and `wrongProp` is not set |
| Scenarios.MyOtherPropPath | tests/MyAdapter.php:49 | `get('myOtherProp')` gives a NullAdapter |
| Scenarios.WrongPropPath | tests/MyAdapter.php:50 | `get('wrongProp')` gives a NullAdapter |
| Scenarios.MyAdapterChainedPath | tests/MyAdapter.php:52 | `get('chained.wrong.prop')` gives a NullAdapter |
| Scenarios.DotPath | tests/MyAdapter.php:53 | `get('.')` gives a NullAdapter |
| Scenarios.ChainedPath | tests/MyAdapter.php:52 | `chained.wrong.prop` splits into its three segments |
| Scenarios.MyAdapterScript | tests/MyAdapter.php:37-53 | `myFirstProp`, `myOtherProp` and `get('myOtherProp')` give NullAdapters, not the expected strings; the other assertions hold |
| Scenarios.FirstPropertyDocTag | tests/PropertyAnnotationTest.php:18-21 | the comment of `getMyFirstProperty` registers it as the getter of `myFirstProperty` |
| Scenarios.AnnotationTestTable | tests/PropertyAnnotationTest.php:11-24 | the table built for the test class holds exactly that getter |
| Scenarios.PropertyAnnotationTestScript | tests/PropertyAnnotationTest.php:28-36 | all five assertions hold |

## Left out

- Reflection is not modelled. A class's public methods are given as a sequence of names and doc comments, and an adapter's methods as a set of lower-cased names, which the `ObjectAdapter` constructor requires (`Methods.LowerCased`).
- Method bodies are not modelled. A getter's result is a parameter `call(method, fields, setterCalls)`, and a setter call is recorded in a log instead of run.
- PHP's own dispatch rules are not modelled. The magic methods are modelled as called. PHP calls them for every name except a property the class itself declares, such as `targetObject`. Properties a subclass declares are not modelled.
- In `__get` and `get`, an empty-looking name (`""` or `"0"`) is the only `empty()` case, since names are strings.
- ObjectAdapters.ObjectAdapter.Write: `__set('targetObject', $v)` is limited by a requires to a plain `Target` object (`Obj`). PHP also stores a non-object, another adapter (`Adapter`), a read's `NullAdapter` (`NewNullAdapter`) or a fresh `stdClass` (`NewObject`) there. The model's `Target` field cannot hold any of those.
- ObjectAdapters.ObjectAdapter.OffsetSet: the same requires as `Write`, for the same reason.
- ObjectAdapters.ObjectAdapter.constructor: the parameter's type is `Target`, so the model only wraps plain objects. `assert(is_object($object))` would also accept another adapter, a `NullAdapter` or a `stdClass`, and a failing assertion is not modelled.
- A `NullAdapter` that a read returns is the immutable value `NewNullAdapter`, and `GetIn` always reads it as a fresh, empty view. Storing such a NullAdapter in a field, writing through it and aliasing it are not modelled. In PHP, `$n = $a->missing; $a->f = $n; $n->x = 'v';` makes `$a->get('f.x')` answer `'v'`.
- JsonObjectAdapters.JsonObjectAdapter.constructor: `parent::__construct`'s `assert(is_object(...))` becomes a requires that the normalised input is an object.
- JsonObjectAdapters.JsonObjectAdapter.Update: the requires that the merged data normalises to an object is also that assertion. `update` given an adapter object (whose `json_encode` goes through `jsonSerialize`) is not modelled.
- JsonObjectAdapters.JsonObjectAdapter: the adapter behaviour inherited from `ObjectAdapter` (reads, writes, `get`) is modelled once, in `ObjectAdapters`, over `Target` objects and not over JSON data.
- JsonObjectAdapters.JsonObjectAdapter.Create: `new static` creates the called subclass; the model always creates a `JsonObjectAdapter`.
- JsonObjectAdapters.JsonObjectAdapter.CreateArray: `array_map` is written as a loop; the `TypeError` on a non-array is the `None` result.
- JSON text is not modelled. Parsing text is a parameter `parse`. `json_encode` never fails. Numbers are integers (no floats), and duplicate object keys are not modelled.
- Floats are not modelled in the adapter's values either (`ObjectAdapters.Value`). So `get`'s `?:` never meets a `0.0` field, which PHP treats as false.
- PropertyAnnotation.Annotated: a read, write or unset of the name `properties` in PHP touches the trait's private table. The model keeps the table apart and counts the name only in `__isset`.
- PropertyAnnotation.Annotated.Table: the table is a map, so PHP's insertion order of entries is not kept.
- src/Reflection/AdapterProperty.php and src/ObjectAdapterInterface.php are not part of this model.
