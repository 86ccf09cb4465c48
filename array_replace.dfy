/**
 * `array_replace_recursive($dest, $src)` on the entries of PHP arrays.
 *
 * For each entry of `$src`, in order: when `$dest` holds an array under
 * that key and the new value is an array too, the two are merged the
 * same way; otherwise the new value replaces the old one in place, or is
 * appended when the key is new.  Entries of `$dest` whose key `$src`
 * lacks are kept as they are.
 */
module ArrayReplace {
  import opened Wrappers
  import opened JsonData

  type Entries = seq<(string, Data)>

  function Keys(es: Entries): (ks: seq<string>)
    ensures |ks| == |es| && forall i :: 0 <= i < |es| ==> ks[i] == es[i].0
  {
    seq(|es|, i requires 0 <= i < |es| => es[i].0)
  }

  /** No key occurs twice, as in every PHP array. */
  predicate Distinct(es: Entries) {
    forall i, j :: 0 <= i < j < |es| ==> es[i].0 != es[j].0
  }

  /** `$es[$k]`, or nothing when the key is absent. */
  function Lookup(es: Entries, k: string): (r: Option<Data>)
    ensures r.None? <==> k !in Keys(es)
    ensures r.Some? ==> exists i :: 0 <= i < |es| && es[i] == (k, r.value)
    decreases |es|
  {
    if es == [] then None
    else if es[0].0 == k then Some(es[0].1)
    else Lookup(es[1..], k)
  }

  /** `$es[$k] = $v`: overwrite the entry in place, or append a new one. */
  function Put(es: Entries, k: string, v: Data): (r: Entries)
    ensures k in Keys(es) ==> Keys(r) == Keys(es)
    ensures k !in Keys(es) ==> Keys(r) == Keys(es) + [k]
    decreases |es|
  {
    if es == [] then [(k, v)]
    else if es[0].0 == k then [(k, v)] + es[1..]
    else [es[0]] + Put(es[1..], k, v)
  }

  lemma {:induction false} PutLookup(es: Entries, k: string, v: Data, k': string)
    ensures Lookup(Put(es, k, v), k') == if k' == k then Some(v) else Lookup(es, k')
    decreases |es|
  {
    if es != [] && es[0].0 != k {
      PutLookup(es[1..], k, v, k');
      assert Put(es, k, v)[1..] == Put(es[1..], k, v);
    }
  }

  lemma PutKeepsDistinct(es: Entries, k: string, v: Data)
    requires Distinct(es)
    ensures Distinct(Put(es, k, v))
  {
    var r := Put(es, k, v);
    forall i, j | 0 <= i < j < |r|
      ensures r[i].0 != r[j].0
    {
      assert Keys(r)[i] == r[i].0 && Keys(r)[j] == r[j].0;
      if k !in Keys(es) && j == |es| {
        assert Keys(es)[i] == es[i].0;
      } else {
        assert Keys(es)[i] == es[i].0 && Keys(es)[j] == es[j].0;
      }
    }
  }

  function Size(d: Data): nat
    decreases d
  {
    match d
    case DArray(es) => 1 + Sum(seq(|es|, i requires 0 <= i < |es| => Size(es[i].1)))
    case DObject(ms) => 1 + Sum(seq(|ms|, i requires 0 <= i < |ms| => Size(ms[i].1)))
    case _ => 1
  }

  function Sum(ns: seq<nat>): nat {
    if ns == [] then 0 else ns[0] + Sum(ns[1..])
  }

  /** The size of the values held by some entries, the measure the merge recursion decreases. */
  function SizeAll(es: Entries): nat {
    Sum(seq(|es|, i requires 0 <= i < |es| => Size(es[i].1)))
  }

  lemma SizeAllSplit(es: Entries)
    requires es != []
    ensures SizeAll(es) == Size(es[0].1) + SizeAll(es[1..])
  {
    var ns := seq(|es|, i requires 0 <= i < |es| => Size(es[i].1));
    assert ns[1..] == seq(|es| - 1, i requires 0 <= i < |es| - 1 => Size(es[1..][i].1));
  }

  /** The value a source entry leaves under its key, given what the destination held there. */
  function Merged(prev: Option<Data>, v: Data): Data
    decreases SizeAll(if v.DArray? then v.entries else []), 1
  {
    if prev.Some? && prev.value.DArray? && v.DArray? then DArray(Replace(prev.value.entries, v.entries)) else v
  }

  /** `array_replace_recursive($dest, $src)`. */
  function Replace(dest: Entries, src: Entries): Entries
    decreases SizeAll(src), 0
  {
    if src == [] then dest
    else
      var (k, v) := src[0];
      SizeAllSplit(src);
      Replace(Put(dest, k, Merged(Lookup(dest, k), v)), src[1..])
  }

  /**
   * Key by key: a key of `src` ends up with the merge of the old and new
   * values, every other key keeps its old value.
   */
  lemma {:induction false} ReplaceLookup(dest: Entries, src: Entries, k: string)
    requires Distinct(src)
    ensures Lookup(Replace(dest, src), k) ==
              if k in Keys(src) then Some(Merged(Lookup(dest, k), Lookup(src, k).value)) else Lookup(dest, k)
    decreases |src|
  {
    if src != [] {
      var (k0, v0) := src[0];
      var dest' := Put(dest, k0, Merged(Lookup(dest, k0), v0));
      assert Distinct(src[1..]);
      assert Keys(src) == [k0] + Keys(src[1..]);
      ReplaceLookup(dest', src[1..], k);
      PutLookup(dest, k0, Merged(Lookup(dest, k0), v0), k);
    }
  }

  /** The keys of `dest` stay first and in place, and no key is duplicated. */
  lemma {:induction false} ReplaceKeys(dest: Entries, src: Entries)
    requires Distinct(dest)
    ensures Distinct(Replace(dest, src))
    ensures |dest| <= |Replace(dest, src)| && Keys(Replace(dest, src))[..|dest|] == Keys(dest)
    decreases |src|
  {
    if src != [] {
      var (k0, v0) := src[0];
      var v := Merged(Lookup(dest, k0), v0);
      var dest' := Put(dest, k0, v);
      PutKeepsDistinct(dest, k0, v);
      ReplaceKeys(dest', src[1..]);
      var r := Replace(dest', src[1..]);
      assert Replace(dest, src) == r;
      assert Keys(dest')[..|dest|] == Keys(dest);
      assert Keys(r)[..|dest|] == Keys(r)[..|dest'|][..|dest|];
    }
  }

  /** The keys of the result are those of both sides. */
  lemma {:induction false} ReplaceKeySet(dest: Entries, src: Entries, k: string)
    ensures k in Keys(Replace(dest, src)) <==> k in Keys(dest) || k in Keys(src)
    decreases |src|
  {
    if src != [] {
      var (k0, v0) := src[0];
      var dest' := Put(dest, k0, Merged(Lookup(dest, k0), v0));
      ReplaceKeySet(dest', src[1..], k);
      assert Replace(dest, src) == Replace(dest', src[1..]);
      assert Keys(src) == [k0] + Keys(src[1..]);
      assert k in Keys(dest') <==> k in Keys(dest) || k == k0;
    }
  }
}
