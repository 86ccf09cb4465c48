/**
 * String operations with the meaning PHP gives them in the adapter:
 * `empty()` on a name, `ucfirst`, case-insensitive method names,
 * `trim`, the `.`-split of a dotted path and the decimal form of an
 * integer array key.
 */
module PhpStrings {

  /** PHP `empty()` on a string: exactly "" and "0" are empty. */
  predicate IsEmptyString(s: string) {
    s == "" || s == "0"
  }

  /** ASCII case mapping; PHP 8's `ucfirst` and method-name folding are locale-independent ASCII. */
  function LowerChar(c: char): char {
    if 'A' <= c <= 'Z' then (c as int + 32) as char else c
  }

  function UpperChar(c: char): char {
    if 'a' <= c <= 'z' then (c as int - 32) as char else c
  }

  /** The case-folded form under which PHP compares method names. */
  function Lower(s: string): (r: string)
    ensures |r| == |s|
    ensures forall i :: 0 <= i < |r| ==> !('A' <= r[i] <= 'Z')
    ensures forall i :: 0 <= i < |s| ==>
              r[i] == s[i] || ('A' <= s[i] <= 'Z' && r[i] as int == s[i] as int + 32)
  {
    seq(|s|, i requires 0 <= i < |s| => LowerChar(s[i]))
  }

  /** A name that is the folded form of another is already folded. */
  lemma LowerIsFixed(s: string, t: string)
    requires Lower(t) == s
    ensures Lower(s) == s
  {
    LowerIdempotent(t);
  }

  /** Folding a folded name changes nothing. */
  lemma LowerIdempotent(s: string)
    ensures Lower(Lower(s)) == Lower(s)
  {
    assert forall i :: 0 <= i < |s| ==> Lower(Lower(s))[i] == Lower(s)[i];
  }

  /** PHP `ucfirst`: only the first character may change. */
  function UcFirst(s: string): (r: string)
    ensures |r| == |s| && (s != "" ==> r[1..] == s[1..])
  {
    if s == "" then "" else [UpperChar(s[0])] + s[1..]
  }

  /** `ucfirst` never changes which method a name finds: method lookup ignores case. */
  lemma UcFirstIgnoredByLookup(prefix: string, s: string)
    ensures Lower(prefix + UcFirst(s)) == Lower(prefix + s)
  {
    var a, b := prefix + UcFirst(s), prefix + s;
    assert |a| == |b|;
    forall i | 0 <= i < |a|
      ensures Lower(a)[i] == Lower(b)[i]
    {
      if i == |prefix| {
        assert a[i] == UpperChar(s[0]) && b[i] == s[0];
      } else if i > |prefix| {
        assert a[i] == s[i - |prefix|] == b[i];
      }
    }
  }

  /** The characters PHP's `trim` removes by default: " \t\n\r\0\x0B". */
  predicate IsTrimChar(c: char) {
    c == ' ' || c == '\t' || c == '\n' || c == '\r' || c == '\0' || c == 11 as char
  }

  /** `ltrim`: drops the leading run of trim characters and nothing else. */
  function TrimLeft(s: string): (r: string)
    ensures |r| <= |s| && r == s[|s| - |r|..]
    ensures forall k :: 0 <= k < |s| - |r| ==> IsTrimChar(s[k])
    ensures r == [] || !IsTrimChar(r[0])
    decreases |s|
  {
    if s != [] && IsTrimChar(s[0]) then TrimLeft(s[1..]) else s
  }

  /** `rtrim`: drops the trailing run of trim characters and nothing else. */
  function TrimRight(s: string): (r: string)
    ensures |r| <= |s| && r == s[..|r|]
    ensures forall k :: |r| <= k < |s| ==> IsTrimChar(s[k])
    ensures r == [] || !IsTrimChar(r[|r| - 1])
    decreases |s|
  {
    if s != [] && IsTrimChar(s[|s| - 1]) then TrimRight(s[..|s| - 1]) else s
  }

  /** `r` is `s` with only trim characters removed before index `i` and after `r`. */
  predicate StripsTo(s: string, i: int, r: string) {
    && 0 <= i <= |s| - |r|
    && r == s[i..i + |r|]
    && (forall k :: 0 <= k < i ==> IsTrimChar(s[k]))
    && (forall k :: i + |r| <= k < |s| ==> IsTrimChar(s[k]))
  }

  /** `trim`: the part of `s` left after removing trim characters from both ends. */
  function Trim(s: string): (r: string)
    ensures exists i :: StripsTo(s, i, r)
    ensures r == [] || (!IsTrimChar(r[0]) && !IsTrimChar(r[|r| - 1]))
  {
    var l := TrimLeft(s);
    var r := TrimRight(l);
    var i := |s| - |l|;
    assert StripsTo(s, i, r);
    r
  }

  /** Trimming twice is trimming once. */
  lemma TrimIdempotent(s: string)
    ensures Trim(Trim(s)) == Trim(s)
  {
    var t := Trim(s);
    assert TrimLeft(t) == t;
    assert TrimRight(t) == t;
  }

  /** A name that neither starts nor ends with a trim character loses only the space put before it. */
  lemma TrimLeadingSpace(name: string)
    requires name != [] && !IsTrimChar(name[0]) && !IsTrimChar(name[|name| - 1])
    ensures Trim(" " + name) == name
  {
    assert (" " + name)[1..] == name;
  }

  /**
   * The first segment of a dotted path and the rest joined back with
   * dots: `preg_split('/\./', p)`, then `array_shift`, then
   * `implode('.', ...)` of what is left.
   */
  function SplitFirst(path: string): (r: (string, string))
    ensures '.' !in r.0
    ensures '.' in path ==> path == r.0 + "." + r.1
    ensures '.' !in path ==> r.0 == path && r.1 == ""
    decreases |path|
  {
    if path == [] then ("", "")
    else if path[0] == '.' then ("", path[1..])
    else
      var (first, rest) := SplitFirst(path[1..]);
      assert path == [path[0]] + path[1..];
      ([path[0]] + first, rest)
  }

  /** What is left after the first segment is strictly shorter than a non-empty path. */
  lemma SplitFirstShrinks(path: string)
    requires path != ""
    ensures |SplitFirst(path).1| < |path|
  {
    if '.' in path {
      assert |path| == |SplitFirst(path).0| + 1 + |SplitFirst(path).1|;
    }
  }

  /** `preg_split('/\./', path)`: the dot-separated segments, at least one. */
  function Segments(path: string): (segs: seq<string>)
    ensures |segs| >= 1
    ensures forall k :: 0 <= k < |segs| ==> '.' !in segs[k]
    decreases |path|
  {
    var (first, rest) := SplitFirst(path);
    if '.' in path then [first] + Segments(rest) else [first]
  }

  /** `implode('.', segs)`. */
  function JoinDots(segs: seq<string>): string
    requires |segs| >= 1
    decreases |segs|
  {
    if |segs| == 1 then segs[0] else segs[0] + "." + JoinDots(segs[1..])
  }

  /** Splitting on dots and joining with dots gives the path back. */
  lemma {:induction false} JoinSegments(path: string)
    ensures JoinDots(Segments(path)) == path
    decreases |path|
  {
    var (first, rest) := SplitFirst(path);
    if '.' in path {
      JoinSegments(rest);
      assert Segments(path)[1..] == Segments(rest);
    }
  }

  /** The first segment is everything before the first dot, and the rest everything after it. */
  lemma {:induction false} SplitJoined(a: string, b: string)
    requires '.' !in a
    ensures SplitFirst(a + "." + b) == (a, b)
    decreases |a|
  {
    var path := a + "." + b;
    if a != [] {
      assert path[1..] == a[1..] + "." + b;
      SplitJoined(a[1..], b);
      assert [a[0]] + a[1..] == a;
    } else {
      assert path == "." + b;
    }
  }

  /** Joining dot-free segments with dots and splitting again gives the segments back. */
  lemma {:induction false} SegmentsOfJoin(segs: seq<string>)
    requires |segs| >= 1
    requires forall k :: 0 <= k < |segs| ==> '.' !in segs[k]
    ensures Segments(JoinDots(segs)) == segs
    decreases |segs|
  {
    if |segs| > 1 {
      SplitJoined(segs[0], JoinDots(segs[1..]));
      SegmentsOfJoin(segs[1..]);
      assert '.' in JoinDots(segs) by {
        assert JoinDots(segs)[|segs[0]|] == '.';
      }
    }
  }

  /** The `rest` of SplitFirst is exactly `implode('.', ...)` of the segments after the first. */
  lemma RestIsJoinedTail(path: string)
    requires '.' in path
    ensures |Segments(path)| >= 2
    ensures SplitFirst(path).1 == JoinDots(Segments(path)[1..])
  {
    var rest := SplitFirst(path).1;
    JoinSegments(rest);
    assert Segments(path)[1..] == Segments(rest);
  }

  function DigitChar(d: nat): char
    requires d < 10
  {
    ('0' as int + d) as char
  }

  predicate AllDigits(s: string) {
    forall k :: 0 <= k < |s| ==> '0' <= s[k] <= '9'
  }

  /** The number a string of decimal digits denotes, most significant digit first. */
  function DigitsValue(s: string): nat
    requires AllDigits(s)
  {
    if s == [] then 0 else 10 * DigitsValue(s[..|s| - 1]) + (s[|s| - 1] as int - '0' as int)
  }

  /**
   * The decimal form of a non-negative integer, as PHP writes an integer
   * array key: digits that denote `n`, with no leading zero.
   */
  function NatToString(n: nat): (s: string)
    ensures |s| >= 1 && AllDigits(s)
    ensures DigitsValue(s) == n
    ensures |s| > 1 ==> s[0] != '0'
    decreases n
  {
    if n < 10 then [DigitChar(n)]
    else
      var p := NatToString(n / 10);
      assert (p + [DigitChar(n % 10)])[..|p|] == p;
      p + [DigitChar(n % 10)]
  }

  /** Distinct numbers have distinct decimal forms, so a key names one position. */
  lemma NatToStringInjective(m: nat, n: nat)
    requires NatToString(m) == NatToString(n)
    ensures m == n
  {
  }
}
