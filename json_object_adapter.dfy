/**
 * JsonObjectAdapter: an ObjectAdapter over decoded JSON.
 *
 * Its constructor normalizes the input to a `stdClass` tree: an array is
 * sent through `json_encode`/`json_decode`, a string is decoded, and an
 * empty result becomes an empty object.  `update` merges new data into
 * the current data with `array_replace_recursive` and rebuilds the target
 * from the result.  Decoding of JSON text is a parameter, `parse`, which
 * answers None for text that is not JSON.
 */
module JsonObjectAdapters {
  import opened Wrappers
  import opened JsonData
  import opened ArrayReplace

  type Parser = string -> Option<Json>

  /** `json_decode($text)` in object mode; invalid text decodes to null. */
  function DecodeText(text: string, parse: Parser): (r: Data)
    ensures Decoded(r)
  {
    match parse(text)
    case Some(j) => DecodeObjectsIsDecoded(j); DecodeObjects(j)
    case None => DNull
  }

  /** `json_decode($text, true)`; invalid text decodes to null. */
  function DecodeTextAssoc(text: string, parse: Parser): (r: Data)
    ensures NoObjects(r)
  {
    match parse(text)
    case Some(j) => DecodeAssoc(j)
    case None => DNull
  }

  /** The constructor's steps before `parent::__construct`: encode an array, decode a string, replace empty by `{}`. */
  function Normalize(json: Data, parse: Parser): (r: Data)
    ensures !Empty(r)
    ensures !json.DStr? && Empty(json) ==> r == DObject([])
    ensures !json.DStr? && !json.DArray? && !Empty(json) ==> r == json
  {
    var decoded :=
      if json.DArray? then DecodeObjects(Encode(json))
      else if json.DStr? then DecodeText(json.s, parse)
      else json;
    if Empty(decoded) then DObject([]) else decoded
  }

  /** An array with entries is rebuilt as the same JSON data, now in decoded form. */
  lemma NormalizeArray(es: Entries, parse: Parser)
    requires es != []
    ensures Encode(Normalize(DArray(es), parse)) == Encode(DArray(es))
    ensures Decoded(Normalize(DArray(es), parse))
    ensures Normalize(DArray(es), parse).DObject? <==> !IsList(es)
  {
    EncodeDecodeObjects(Encode(DArray(es)));
    DecodeObjectsIsDecoded(Encode(DArray(es)));
  }

  /** Text that decodes to a non-empty value gives that value; anything else an empty object. */
  lemma NormalizeText(text: string, parse: Parser)
    ensures parse(text).Some? && !Empty(DecodeObjects(parse(text).value)) ==>
              Normalize(DStr(text), parse) == DecodeObjects(parse(text).value)
    ensures parse(text).Some? && Empty(DecodeObjects(parse(text).value)) ==>
              Normalize(DStr(text), parse) == DObject([])
    ensures parse(text).None? ==> Normalize(DStr(text), parse) == DObject([])
    ensures Decoded(Normalize(DStr(text), parse))
  {
    if parse(text).Some? {
      DecodeObjectsIsDecoded(parse(text).value);
    }
  }

  /**
   * `createArray`'s input after decoding: no entries for empty input, the
   * entries of an array, or None when `array_map` gets a non-empty non-array.
   */
  function ArrayInput(json: Data, parse: Parser): (r: Option<Entries>)
    ensures var d := if json.DStr? then DecodeText(json.s, parse) else json;
            && (Empty(d) ==> r == Some([]))
            && (!Empty(d) ==> (r.Some? <==> d.DArray?))
            && (!Empty(d) && d.DArray? ==> r == Some(d.entries))
  {
    var decoded := if json.DStr? then DecodeText(json.s, parse) else json;
    if Empty(decoded) then Some([])
    else if decoded.DArray? then Some(decoded.entries)
    else None
  }

  /** `update`'s new data after its conversions: an object is re-encoded and a string decoded, both as keyed arrays. */
  function Incoming(json: Data, parse: Parser): (r: Data)
    ensures json.DObject? || json.DStr? ==> NoObjects(r)
    ensures json.DObject? ==> r.DArray? && Keys(r.entries) == Keys(json.members)
    ensures json.DObject? && AssocSafe(Encode(json)) ==> Encode(r) == Encode(json)
    ensures !json.DObject? && !json.DStr? ==> r == json
  {
    if json.DObject? then
      var r := DecodeAssoc(Encode(json));
      if AssocSafe(Encode(json)) then EncodeDecodeAssoc(Encode(json)); r else r
    else if json.DStr? then DecodeTextAssoc(json.s, parse)
    else json
  }

  /** The recursive replacement of the current data by the incoming data, or None when either side is not an array. */
  function MergedData(target: Data, json: Data, parse: Parser): (r: Option<Entries>)
    ensures r.Some? ==> Incoming(json, parse).DArray?
    ensures r.Some? <==> DecodeAssoc(Encode(target)).DArray? && Incoming(json, parse).DArray?
  {
    var current := DecodeAssoc(Encode(target));
    var incoming := Incoming(json, parse);
    if current.DArray? && incoming.DArray? then Some(Replace(current.entries, incoming.entries)) else None
  }

  /** Every object's current data is a keyed array, so `update` only fails on its argument. */
  lemma CurrentIsArray(target: Data)
    requires target.DObject?
    ensures DecodeAssoc(Encode(target)).DArray?
    ensures Keys(DecodeAssoc(Encode(target)).entries) == Keys(target.members)
  {
  }

  /**
   * Key by key, `update` keeps the keys the new data lacks and merges or
   * replaces the keys it has.
   */
  lemma MergedDataLookup(target: Data, json: Data, parse: Parser, k: string)
    requires MergedData(target, json, parse).Some?
    requires Distinct(Incoming(json, parse).entries)
    ensures var current := DecodeAssoc(Encode(target)).entries;
            var incoming := Incoming(json, parse).entries;
            Lookup(MergedData(target, json, parse).value, k) ==
              if k in Keys(incoming) then Some(Merged(Lookup(current, k), Lookup(incoming, k).value))
              else Lookup(current, k)
  {
    ReplaceLookup(DecodeAssoc(Encode(target)).entries, Incoming(json, parse).entries, k);
  }

  class JsonObjectAdapter {
    var targetObject: Data

    /** A new adapter over the normalized input; the base constructor demands that the result be an object. */
    constructor (json: Data, parse: Parser)
      requires Normalize(json, parse).DObject?
      ensures targetObject == Normalize(json, parse)
    {
      targetObject := Normalize(json, parse);
    }

    /** The static factory: a new adapter over the input. */
    static method Create(json: Data, parse: Parser) returns (a: JsonObjectAdapter)
      requires Normalize(json, parse).DObject?
      ensures fresh(a) && a.targetObject == Normalize(json, parse)
    {
      a := new JsonObjectAdapter(json, parse);
    }

    /**
     * The static list factory: one new adapter per element, under the same
     * key and in the same order; None stands for the TypeError that
     * `array_map` raises on a non-array.
     */
    static method CreateArray(json: Data, parse: Parser) returns (r: Option<seq<(string, JsonObjectAdapter)>>)
      requires ArrayInput(json, parse).Some? ==>
                 forall i :: 0 <= i < |ArrayInput(json, parse).value| ==>
                   Normalize(ArrayInput(json, parse).value[i].1, parse).DObject?
      ensures r.Some? <==> ArrayInput(json, parse).Some?
      ensures r.Some? ==>
                var es := ArrayInput(json, parse).value;
                && |r.value| == |es|
                && (forall i :: 0 <= i < |es| ==>
                      && r.value[i].0 == es[i].0
                      && fresh(r.value[i].1)
                      && r.value[i].1.targetObject == Normalize(es[i].1, parse))
                && (forall i, j :: 0 <= i < j < |es| ==> r.value[i].1 != r.value[j].1)
    {
      var input := ArrayInput(json, parse);
      if input.None? {
        return None;
      }
      var out := CreateEach(input.value, parse);
      return Some(out);
    }

    /** The `array_map` over the elements: one `create` per element, in order. */
    static method CreateEach(es: Entries, parse: Parser) returns (out: seq<(string, JsonObjectAdapter)>)
      requires forall i :: 0 <= i < |es| ==> Normalize(es[i].1, parse).DObject?
      ensures |out| == |es|
      ensures forall i :: 0 <= i < |es| ==>
                && out[i].0 == es[i].0
                && fresh(out[i].1)
                && out[i].1.targetObject == Normalize(es[i].1, parse)
      ensures forall i, j :: 0 <= i < j < |es| ==> out[i].1 != out[j].1
    {
      out := [];
      var i := 0;
      while i < |es|
        invariant 0 <= i <= |es| && |out| == i
        invariant forall n :: 0 <= n < i ==>
                    && out[n].0 == es[n].0
                    && fresh(out[n].1)
                    && out[n].1.targetObject == Normalize(es[n].1, parse)
        invariant forall n, m :: 0 <= n < m < i ==> out[n].1 != out[m].1
      {
        var a := Create(es[i].1, parse);
        out := out + [(es[i].0, a)];
        i := i + 1;
      }
    }

    /**
     * Merge the new data into the current data and
     * rebuild the target from the result; None stands for the TypeError
     * `array_replace_recursive` raises when the new data is not an array.
     */
    method Update(json: Data, parse: Parser) returns (r: Option<JsonObjectAdapter>)
      requires MergedData(targetObject, json, parse).Some? ==>
                 Normalize(DArray(MergedData(targetObject, json, parse).value), parse).DObject?
      modifies this
      ensures r.Some? <==> MergedData(old(targetObject), json, parse).Some?
      ensures r.None? ==> targetObject == old(targetObject)
      ensures r.Some? ==>
                r.value == this && targetObject == Normalize(DArray(MergedData(old(targetObject), json, parse).value), parse)
      ensures r.Some? ==> Decoded(targetObject) && DecodeObjects(Encode(targetObject)) == targetObject
    {
      var merged := MergedData(targetObject, json, parse);
      if merged.None? {
        return None;
      }
      if merged.value != [] {
        NormalizeArray(merged.value, parse);
      }
      targetObject := Normalize(DArray(merged.value), parse);
      DecodeObjectsEncode(targetObject);
      return Some(this);
    }

    /** `jsonSerialize()`: the whole target. */
    function JsonSerialize(): (d: Data)
      reads this
      ensures d == targetObject
    {
      targetObject
    }
  }

  /** What an adapter serializes decodes back to its target, once the target is in decoded form. */
  lemma SerializeRoundTrip(a: JsonObjectAdapter)
    requires Decoded(a.targetObject)
    ensures DecodeObjects(Encode(a.JsonSerialize())) == a.targetObject
  {
    DecodeObjectsEncode(a.targetObject);
  }
}
