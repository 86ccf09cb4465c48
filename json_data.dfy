/**
 * JSON values and the PHP data that `json_decode` produces and
 * `json_encode` consumes.  The text form is not modelled: encoding maps
 * PHP data to a JSON value and decoding maps a JSON value back, in one
 * of PHP's two modes (objects as `stdClass`, or as keyed arrays).
 */
module JsonData {
  import opened PhpStrings

  /** A JSON document: numbers are integers, object members keep their order. */
  datatype Json =
    | JNull
    | JBool(b: bool)
    | JInt(i: int)
    | JStr(s: string)
    | JList(items: seq<Json>)
    | JObject(members: seq<(string, Json)>)

  /**
   * PHP data: `DArray` is a PHP array (list or keyed; a decimal string
   * stands for an integer key), `DObject` a `stdClass` object.
   */
  datatype Data =
    | DNull
    | DBool(b: bool)
    | DInt(i: int)
    | DStr(s: string)
    | DArray(entries: seq<(string, Data)>)
    | DObject(members: seq<(string, Data)>)

  /** An array `json_encode` writes as a JSON list: its keys are 0, 1, ... in order. */
  predicate IsList(es: seq<(string, Data)>) {
    forall i :: 0 <= i < |es| ==> es[i].0 == NatToString(i)
  }

  /** `empty($x)`: null, false, 0, "", "0" and the empty array; never an object. */
  predicate Empty(d: Data) {
    match d
    case DNull => true
    case DBool(b) => !b
    case DInt(i) => i == 0
    case DStr(s) => IsEmptyString(s)
    case DArray(es) => es == []
    case DObject(_) => false
  }

  /** `json_encode`: lists for arrays keyed 0..n-1, objects for other arrays and for every object. */
  function Encode(d: Data): Json
    decreases d
  {
    match d
    case DNull => JNull
    case DBool(b) => JBool(b)
    case DInt(i) => JInt(i)
    case DStr(s) => JStr(s)
    case DArray(es) =>
      if IsList(es) then JList(seq(|es|, i requires 0 <= i < |es| => Encode(es[i].1)))
      else JObject(seq(|es|, i requires 0 <= i < |es| => (es[i].0, Encode(es[i].1))))
    case DObject(ms) => JObject(seq(|ms|, i requires 0 <= i < |ms| => (ms[i].0, Encode(ms[i].1))))
  }

  /** `json_decode($text)`: JSON objects become `stdClass` objects, lists become arrays keyed 0..n-1. */
  function DecodeObjects(j: Json): Data
    decreases j
  {
    match j
    case JNull => DNull
    case JBool(b) => DBool(b)
    case JInt(i) => DInt(i)
    case JStr(s) => DStr(s)
    case JList(items) => DArray(seq(|items|, i requires 0 <= i < |items| => (NatToString(i), DecodeObjects(items[i]))))
    case JObject(ms) => DObject(seq(|ms|, i requires 0 <= i < |ms| => (ms[i].0, DecodeObjects(ms[i].1))))
  }

  /** PHP data with no object anywhere in it. */
  predicate NoObjects(d: Data)
    decreases d
  {
    match d
    case DArray(es) => forall i :: 0 <= i < |es| ==> NoObjects(es[i].1)
    case DObject(_) => false
    case _ => true
  }

  /** `json_decode($text, true)`: JSON objects become keyed arrays too, so no object is left anywhere. */
  function DecodeAssoc(j: Json): (r: Data)
    ensures NoObjects(r)
    decreases j
  {
    match j
    case JNull => DNull
    case JBool(b) => DBool(b)
    case JInt(i) => DInt(i)
    case JStr(s) => DStr(s)
    case JList(items) => DArray(seq(|items|, i requires 0 <= i < |items| => (NatToString(i), DecodeAssoc(items[i]))))
    case JObject(ms) => DArray(seq(|ms|, i requires 0 <= i < |ms| => (ms[i].0, DecodeAssoc(ms[i].1))))
  }

  /** Data as `json_decode` in object mode produces it: every array is a list. */
  predicate Decoded(d: Data)
    decreases d
  {
    match d
    case DArray(es) => IsList(es) && forall i :: 0 <= i < |es| ==> Decoded(es[i].1)
    case DObject(ms) => forall i :: 0 <= i < |ms| ==> Decoded(ms[i].1)
    case _ => true
  }

  /** Encoding what object-mode decoding produced gives back the same JSON. */
  lemma {:induction false} EncodeDecodeObjects(j: Json)
    ensures Encode(DecodeObjects(j)) == j
    decreases j
  {
    match j
    case JList(items) =>
      forall i | 0 <= i < |items| ensures Encode(DecodeObjects(items[i])) == items[i] {
        EncodeDecodeObjects(items[i]);
      }
    case JObject(ms) =>
      forall i | 0 <= i < |ms| ensures Encode(DecodeObjects(ms[i].1)) == ms[i].1 {
        EncodeDecodeObjects(ms[i].1);
      }
    case _ =>
  }

  /** Object-mode decoding only produces lists as arrays. */
  lemma {:induction false} DecodeObjectsIsDecoded(j: Json)
    ensures Decoded(DecodeObjects(j))
    decreases j
  {
    match j
    case JList(items) =>
      forall i | 0 <= i < |items| ensures Decoded(DecodeObjects(items[i])) {
        DecodeObjectsIsDecoded(items[i]);
      }
    case JObject(ms) =>
      forall i | 0 <= i < |ms| ensures Decoded(DecodeObjects(ms[i].1)) {
        DecodeObjectsIsDecoded(ms[i].1);
      }
    case _ =>
  }

  /** Object-mode decoding of the encoding gives back data of that form unchanged. */
  lemma {:induction false} DecodeObjectsEncode(d: Data)
    requires Decoded(d)
    ensures DecodeObjects(Encode(d)) == d
    decreases d
  {
    match d
    case DArray(es) =>
      forall i | 0 <= i < |es| ensures DecodeObjects(Encode(es[i].1)) == es[i].1 {
        DecodeObjectsEncode(es[i].1);
      }
    case DObject(ms) =>
      forall i | 0 <= i < |ms| ensures DecodeObjects(Encode(ms[i].1)) == ms[i].1 {
        DecodeObjectsEncode(ms[i].1);
      }
    case _ =>
  }

  /**
   * JSON that keyed-array decoding does not alter: no object in it is
   * empty or has the keys 0, 1, ... in order, which `json_encode` would
   * write back as a list.
   */
  predicate AssocSafe(j: Json)
    decreases j
  {
    match j
    case JList(items) => forall i :: 0 <= i < |items| ==> AssocSafe(items[i])
    case JObject(ms) =>
      && (exists i :: 0 <= i < |ms| && ms[i].0 != NatToString(i))
      && forall i :: 0 <= i < |ms| ==> AssocSafe(ms[i].1)
    case _ => true
  }

  /** Keyed-array decoding round-trips the JSON whose objects cannot be taken for lists (the converse is EncodeDecodeAssocOnlyIf). */
  lemma {:induction false} EncodeDecodeAssoc(j: Json)
    requires AssocSafe(j)
    ensures Encode(DecodeAssoc(j)) == j
    decreases j
  {
    match j
    case JList(items) =>
      forall i | 0 <= i < |items| ensures Encode(DecodeAssoc(items[i])) == items[i] {
        EncodeDecodeAssoc(items[i]);
      }
    case JObject(ms) =>
      var es := DecodeAssoc(j).entries;
      assert !IsList(es) by {
        var i :| 0 <= i < |ms| && ms[i].0 != NatToString(i);
        assert es[i].0 != NatToString(i);
      }
      forall i | 0 <= i < |ms| ensures Encode(DecodeAssoc(ms[i].1)) == ms[i].1 {
        EncodeDecodeAssoc(ms[i].1);
      }
    case _ =>
  }

  /** Only such JSON round-trips: an empty or list-like object anywhere comes back as a list. */
  lemma {:induction false} EncodeDecodeAssocOnlyIf(j: Json)
    requires Encode(DecodeAssoc(j)) == j
    ensures AssocSafe(j)
    decreases j
  {
    match j
    case JList(items) =>
      var es := DecodeAssoc(j).entries;
      assert IsList(es);
      forall i | 0 <= i < |items| ensures AssocSafe(items[i]) {
        assert Encode(es[i].1) == items[i];
        EncodeDecodeAssocOnlyIf(items[i]);
      }
    case JObject(ms) =>
      var es := DecodeAssoc(j).entries;
      if IsList(es) {
        assert false;
      }
      var i :| 0 <= i < |es| && es[i].0 != NatToString(i);
      assert ms[i].0 != NatToString(i);
      forall k | 0 <= k < |ms| ensures AssocSafe(ms[k].1) {
        assert Encode(DecodeAssoc(j)).members[k] == ms[k];
        EncodeDecodeAssocOnlyIf(ms[k].1);
      }
    case _ =>
  }

  /** An empty JSON object comes back from keyed-array decoding as an empty list. */
  lemma EmptyObjectBecomesList()
    ensures DecodeAssoc(JObject([])) == DArray([])
    ensures Encode(DecodeAssoc(JObject([]))) == JList([])
  {
    assert IsList([]);
  }
}
