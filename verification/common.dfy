/**
 * Helpers shared by every module of the model: an Option type, the handful of
 * PHP and JavaScript string operations the core relies on (`strpos`, `explode`,
 * `implode`, `trim`, `strtoupper`, `lcfirst`, PHP's falsy strings), and PHP's
 * ordered arrays, modelled as sequences of key/value pairs with distinct keys.
 */
module Common {

  datatype Option<+T> = None | Some(value: T) {
    function GetOr(default: T): T {
      if Some? then value else default
    }
  }

  /** A PHP value as it travels through hooks and JSON responses. */
  datatype Value =
    | VNull
    | VBool(b: bool)
    | VInt(i: int)
    | VStr(s: string)
    | VArray(entries: seq<(string, Value)>)

  // ---------------------------------------------------------------------------
  // Strings
  // ---------------------------------------------------------------------------

  /** `strpos($s, $sub) !== false`, JavaScript's `s.includes(sub)`. */
  predicate Contains(s: string, sub: string)
    decreases |s|
  {
    sub <= s || (|s| > 0 && Contains(s[1..], sub))
  }

  lemma {:induction false} ContainsWithin(s: string, sub: string, i: nat)
    requires i + |sub| <= |s| && s[i..i + |sub|] == sub
    ensures Contains(s, sub)
    decreases i
  {
    if i > 0 {
      assert s[1..][i - 1..i - 1 + |sub|] == s[i..i + |sub|];
      ContainsWithin(s[1..], sub, i - 1);
    } else {
      assert s[..|sub|] == sub;
    }
  }

  /** A string containing `big` contains everything `big` contains. */
  lemma {:induction false} ContainsTransitive(s: string, big: string, small: string)
    requires Contains(s, big) && Contains(big, small)
    ensures Contains(s, small)
    decreases |s| + |big|
  {
    if big <= s {
      if small <= big {
        assert small <= s;
      } else {
        ContainsTransitive(s[1..], big[1..], small);
        assert Contains(s[1..], small);
      }
    } else {
      ContainsTransitive(s[1..], big, small);
    }
  }

  /** Index of the first occurrence of `c`, as `strpos($s, $c)`. */
  function IndexOf(s: string, c: char): (r: Option<nat>)
    ensures r.None? <==> c !in s
    ensures r.Some? ==> r.value < |s| && s[r.value] == c && c !in s[..r.value]
    ensures r.Some? ==> forall k :: 0 <= k < r.value ==> s[k] != c
  {
    if |s| == 0 then None
    else if s[0] == c then Some(0)
    else
      match IndexOf(s[1..], c)
      case None => None
      case Some(i) => assert s[..i + 1] == [s[0]] + s[1..][..i]; Some(i + 1)
  }

  /** Index of the last occurrence of `c`. */
  function LastIndexOf(s: string, c: char): (r: Option<nat>)
    ensures r.None? <==> c !in s
    ensures r.Some? ==> r.value < |s| && s[r.value] == c && c !in s[r.value + 1..]
    ensures r.Some? ==> forall k :: r.value < k < |s| ==> s[k] != c
  {
    if |s| == 0 then None
    else if s[|s| - 1] == c then Some(|s| - 1)
    else
      match LastIndexOf(s[..|s| - 1], c)
      case None => None
      case Some(i) => assert s[i + 1..] == s[..|s| - 1][i + 1..] + [s[|s| - 1]]; Some(i)
  }

  /** The first occurrence, identified by position. */
  lemma IndexOfAt(s: string, c: char, i: nat)
    requires i < |s| && s[i] == c && forall k :: 0 <= k < i ==> s[k] != c
    ensures IndexOf(s, c) == Some(i)
  {
  }

  /** The last occurrence, identified by position. */
  lemma LastIndexOfAt(s: string, c: char, i: nat)
    requires i < |s| && s[i] == c && forall k :: i < k < |s| ==> s[k] != c
    ensures LastIndexOf(s, c) == Some(i)
  {
  }

  /** PHP's `explode($sep, $s)` for a one-character separator. */
  function Split(s: string, sep: char): (r: seq<string>)
    ensures |r| >= 1
    ensures forall i :: 0 <= i < |r| ==> sep !in r[i]
    decreases |s|
  {
    match IndexOf(s, sep)
    case None => [s]
    case Some(i) => [s[..i]] + Split(s[i + 1..], sep)
  }

  /** PHP's `implode($sep, $parts)`, JavaScript's `parts.join(sep)`. */
  function Join(parts: seq<string>, sep: string): string
    decreases |parts|
  {
    if |parts| == 0 then ""
    else if |parts| == 1 then parts[0]
    else parts[0] + sep + Join(parts[1..], sep)
  }

  /** `explode` at a first separator at position `i`. */
  lemma SplitAt(s: string, sep: char, i: nat)
    requires i < |s| && s[i] == sep && forall k :: 0 <= k < i ==> s[k] != sep
    ensures Split(s, sep) == [s[..i]] + Split(s[i + 1..], sep)
  {
    IndexOfAt(s, sep, i);
  }

  /** `explode` of a string without the separator. */
  lemma SplitWhole(s: string, sep: char)
    requires forall k :: 0 <= k < |s| ==> s[k] != sep
    ensures Split(s, sep) == [s]
  {
  }

  /** `implode` undoes `explode`. */
  lemma {:induction false} JoinSplit(s: string, sep: char)
    ensures Join(Split(s, sep), [sep]) == s
    decreases |s|
  {
    match IndexOf(s, sep)
    case None =>
    case Some(i) =>
      var rest := Split(s[i + 1..], sep);
      JoinSplit(s[i + 1..], sep);
      assert Split(s, sep) == [s[..i]] + rest;
      assert ([s[..i]] + rest)[1..] == rest;
      assert Join(Split(s, sep), [sep]) == s[..i] + [sep] + s[i + 1..];
      assert s == s[..i] + [sep] + s[i + 1..];
  }

  /** The one-character separator does not occur inside any part. */
  lemma {:induction false} SplitPartsAreSegments(s: string, sep: char)
    ensures |Split(s, sep)| == 1 <==> sep !in s
  {
  }

  /** PHP treats "" and "0" as false. */
  predicate IsFalsyString(s: string) {
    s == "" || s == "0"
  }

  /** Characters PHP's `trim` removes by default. */
  const TrimWhitespace: set<char> := {' ', '\t', '\n', '\r', '\0', '\U{0B}'}

  function TrimLeft(s: string, chars: set<char>): (r: string)
    ensures r <= s || (|r| <= |s| && s[|s| - |r|..] == r)
    ensures |r| > 0 ==> r[0] !in chars
    ensures forall i :: 0 <= i < |s| - |r| ==> s[i] in chars
    decreases |s|
  {
    if |s| > 0 && s[0] in chars then TrimLeft(s[1..], chars) else s
  }

  function TrimRight(s: string, chars: set<char>): (r: string)
    ensures r <= s
    ensures |r| > 0 ==> r[|r| - 1] !in chars
    ensures forall i :: |r| <= i < |s| ==> s[i] in chars
    decreases |s|
  {
    if |s| > 0 && s[|s| - 1] in chars then TrimRight(s[..|s| - 1], chars) else s
  }

  /** PHP's `trim($s, $chars)`: strip the given characters at both ends. */
  function Trim(s: string, chars: set<char>): (r: string)
    ensures |r| > 0 ==> r[0] !in chars && r[|r| - 1] !in chars
  {
    TrimRight(TrimLeft(s, chars), chars)
  }

  function UpperChar(c: char): char {
    if 'a' <= c <= 'z' then (c as int - 'a' as int + 'A' as int) as char else c
  }

  function LowerChar(c: char): char {
    if 'A' <= c <= 'Z' then (c as int - 'A' as int + 'a' as int) as char else c
  }

  /** PHP 8's locale-independent `strtoupper`: only ASCII letters change. */
  function ToUpper(s: string): (r: string)
    ensures |r| == |s| && forall i :: 0 <= i < |s| ==> r[i] == UpperChar(s[i])
  {
    seq(|s|, i requires 0 <= i < |s| => UpperChar(s[i]))
  }

  /** PHP's `lcfirst`. */
  function Lcfirst(s: string): (r: string)
    ensures |r| == |s| && (|s| > 0 ==> r[0] == LowerChar(s[0]) && r[1..] == s[1..])
  {
    if |s| == 0 then s else [LowerChar(s[0])] + s[1..]
  }

  function DigitChar(d: nat): char
    requires d < 10
  {
    ('0' as int + d) as char
  }

  /** Decimal rendering of a natural number, as PHP and JavaScript interpolate it. */
  function NatToString(n: nat): (r: string)
    ensures |r| >= 1
    ensures forall i :: 0 <= i < |r| ==> '0' <= r[i] <= '9'
  {
    if n < 10 then [DigitChar(n)] else NatToString(n / 10) + [DigitChar(n % 10)]
  }

  function IntToString(i: int): string {
    if i < 0 then "-" + NatToString(-i) else NatToString(i)
  }

  // ---------------------------------------------------------------------------
  // PHP ordered arrays: key/value pairs in insertion order, keys distinct
  // ---------------------------------------------------------------------------

  predicate DistinctKeys<K(==), V>(e: seq<(K, V)>) {
    forall i, j :: 0 <= i < j < |e| ==> e[i].0 != e[j].0
  }

  function KeysOf<K, V>(e: seq<(K, V)>): (r: seq<K>)
    ensures |r| == |e| && forall i :: 0 <= i < |e| ==> r[i] == e[i].0
  {
    seq(|e|, i requires 0 <= i < |e| => e[i].0)
  }

  /** Position of key `k`, the first one if keys repeat. */
  function Find<K(==), V>(e: seq<(K, V)>, k: K): (r: Option<nat>)
    ensures r.Some? ==> r.value < |e| && e[r.value].0 == k
    ensures r.Some? ==> forall j :: 0 <= j < r.value ==> e[j].0 != k
    ensures r.None? <==> forall j :: 0 <= j < |e| ==> e[j].0 != k
  {
    if |e| == 0 then None
    else if e[0].0 == k then Some(0)
    else
      match Find(e[1..], k)
      case None => None
      case Some(i) => Some(i + 1)
  }

  /** `Find` returns the first position holding the key. */
  lemma FindFirst<K, V>(e: seq<(K, V)>, k: K, i: nat)
    requires i < |e| && e[i].0 == k
    requires forall j :: 0 <= j < i ==> e[j].0 != k
    ensures Find(e, k) == Some(i)
  {
  }

  predicate HasKey<K(==), V>(e: seq<(K, V)>, k: K) {
    Find(e, k).Some?
  }

  /** `$array[$k] ?? null`. */
  function Lookup<K(==), V>(e: seq<(K, V)>, k: K): (r: Option<V>)
    ensures r.Some? <==> HasKey(e, k)
  {
    match Find(e, k)
    case None => None
    case Some(i) => Some(e[i].1)
  }

  /** Looking a key up in a non-empty array: the head first, then the rest. */
  lemma LookupCons<K, V>(x: (K, V), t: seq<(K, V)>, k: K)
    ensures Lookup([x] + t, k) == if x.0 == k then Some(x.1) else Lookup(t, k)
  {
    assert ([x] + t)[1..] == t;
  }

  lemma LookupConsAll<K, V>(x: (K, V), t: seq<(K, V)>)
    ensures forall k :: Lookup([x] + t, k) == if x.0 == k then Some(x.1) else Lookup(t, k)
  {
    assert ([x] + t)[1..] == t;
  }

  /** With distinct keys, a lookup finds exactly the pair stored under the key. */
  lemma LookupAt<K, V>(e: seq<(K, V)>, i: nat)
    requires DistinctKeys(e) && i < |e|
    ensures Find(e, e[i].0) == Some(i) && Lookup(e, e[i].0) == Some(e[i].1)
  {
  }

  /**
   * `$array[$k] = $v`: a present key keeps its position and gets the new
   * value, an absent key is appended.
   */
  function Put<K(==,!new), V>(e: seq<(K, V)>, k: K, v: V): (r: seq<(K, V)>)
    ensures DistinctKeys(e) ==> DistinctKeys(r)
    ensures HasKey(e, k) ==> |r| == |e| && KeysOf(r) == KeysOf(e)
    ensures !HasKey(e, k) ==> r == e + [(k, v)]
    ensures Lookup(r, k) == Some(v)
    ensures forall k' :: k' != k ==> Lookup(r, k') == Lookup(e, k')
  {
    PutLookup(e, k, v);
    match Find(e, k)
    case Some(i) => e[i := (k, v)]
    case None => e + [(k, v)]
  }

  lemma PutLookup<K(!new), V>(e: seq<(K, V)>, k: K, v: V)
    ensures Find(e, k).Some? ==> Lookup(e[Find(e, k).value := (k, v)], k) == Some(v)
    ensures Find(e, k).Some? ==>
      forall k' :: k' != k ==> Lookup(e[Find(e, k).value := (k, v)], k') == Lookup(e, k')
    ensures Find(e, k).None? ==> Lookup(e + [(k, v)], k) == Some(v)
    ensures Find(e, k).None? ==> forall k' :: k' != k ==> Lookup(e + [(k, v)], k') == Lookup(e, k')
  {
    match Find(e, k)
    case Some(i) =>
      var r := e[i := (k, v)];
      FindFirst(r, k, i);
      forall k' | k' != k ensures Lookup(r, k') == Lookup(e, k') {
        FindSameKeys(e, r, k');
      }
    case None =>
      var r := e + [(k, v)];
      FindFirst(r, k, |e|);
      forall k' | k' != k ensures Lookup(r, k') == Lookup(e, k') {
        match Find(e, k')
        case None =>
        case Some(j) => FindFirst(r, k', j);
      }
  }

  /** Lookup depends only on the keys and on the values at the keys' first positions. */
  lemma FindSameKeys<K, V>(a: seq<(K, V)>, b: seq<(K, V)>, k: K)
    requires |a| == |b| && forall i :: 0 <= i < |a| ==> a[i].0 == b[i].0
    ensures Find(a, k) == Find(b, k)
  {
    match Find(a, k)
    case None =>
    case Some(i) =>
  }

  /** `unset($array[$k])`. */
  function RemoveKey<K(==,!new), V>(e: seq<(K, V)>, k: K): (r: seq<(K, V)>)
    requires DistinctKeys(e)
    ensures DistinctKeys(r)
    ensures !HasKey(r, k)
    ensures HasKey(e, k) ==> |r| == |e| - 1
    ensures !HasKey(e, k) ==> r == e
    ensures forall k' :: k' != k ==> Lookup(r, k') == Lookup(e, k')
  {
    match Find(e, k)
    case None => e
    case Some(i) =>
      RemoveAtLookup(e, i);
      e[..i] + e[i + 1..]
  }

  lemma RemoveAtLookup<K(!new), V>(e: seq<(K, V)>, i: nat)
    requires DistinctKeys(e) && i < |e|
    ensures DistinctKeys(e[..i] + e[i + 1..])
    ensures !HasKey(e[..i] + e[i + 1..], e[i].0)
    ensures forall k' :: k' != e[i].0 ==> Lookup(e[..i] + e[i + 1..], k') == Lookup(e, k')
  {
    var r := e[..i] + e[i + 1..];
    assert forall j :: 0 <= j < |r| ==> r[j] == (if j < i then e[j] else e[j + 1]);
    forall k' | k' != e[i].0 ensures Lookup(r, k') == Lookup(e, k') {
      match Find(e, k')
      case None =>
      case Some(j) =>
        if j < i {
          FindFirst(r, k', j);
        } else {
          assert j != i;
          FindFirst(r, k', j - 1);
        }
    }
  }

  /** Builds an ordered array by successive assignments, left to right. */
  function PutAll<K(==,!new), V>(e: seq<(K, V)>, pairs: seq<(K, V)>): (r: seq<(K, V)>)
    ensures DistinctKeys(e) ==> DistinctKeys(r)
    decreases |pairs|
  {
    if |pairs| == 0 then e
    else Put(PutAll(e, pairs[..|pairs| - 1]), pairs[|pairs| - 1].0, pairs[|pairs| - 1].1)
  }

  /** The value the last pair with key `k` carries, if any. */
  function LastValue<K(==), V>(pairs: seq<(K, V)>, k: K): (r: Option<V>)
    ensures r.None? <==> !HasKey(pairs, k)
    decreases |pairs|
  {
    if |pairs| == 0 then None
    else if pairs[|pairs| - 1].0 == k then Some(pairs[|pairs| - 1].1)
    else LastValue(pairs[..|pairs| - 1], k)
  }

  /**
   * After successive assignments a key holds the value of its last
   * assignment; a key never assigned keeps its old value.
   */
  lemma {:induction false} PutAllLookup<K(!new), V>(e: seq<(K, V)>, pairs: seq<(K, V)>, k: K)
    ensures Lookup(PutAll(e, pairs), k) == if HasKey(pairs, k) then LastValue(pairs, k) else Lookup(e, k)
    decreases |pairs|
  {
    if |pairs| > 0 {
      var init := pairs[..|pairs| - 1];
      var last := pairs[|pairs| - 1];
      PutAllLookup(e, init, k);
      HasKeyInit(pairs, k);
      PutStepLookup(PutAll(e, init), last, k);
    }
  }

  /** One assignment: the assigned key reads the new value, any other key its old one. */
  lemma PutStepLookup<K(!new), V>(before: seq<(K, V)>, last: (K, V), k: K)
    ensures Lookup(Put(before, last.0, last.1), k) == if last.0 == k then Some(last.1) else Lookup(before, k)
  {
  }

  /** A key occurs in a non-empty array iff it occurs before the last pair or is the last pair's key. */
  lemma HasKeyInit<K, V>(pairs: seq<(K, V)>, k: K)
    requires |pairs| > 0
    ensures HasKey(pairs, k) <==> HasKey(pairs[..|pairs| - 1], k) || pairs[|pairs| - 1].0 == k
  {
    assert pairs[..|pairs| - 1] + [pairs[|pairs| - 1]] == pairs;
    HasKeySnoc(pairs[..|pairs| - 1], pairs[|pairs| - 1], k);
  }

  /** A key occurs in an array extended by one pair iff it occurs before or is the new key. */
  lemma HasKeySnoc<K, V>(init: seq<(K, V)>, last: (K, V), k: K)
    ensures HasKey(init + [last], k) <==> HasKey(init, k) || last.0 == k
  {
    var s := init + [last];
    if HasKey(init, k) {
      FindFirst(s, k, Find(init, k).value);
    } else if last.0 == k {
      FindFirst(s, k, |init|);
    }
  }

  /** The last pair with a key supplies `LastValue`. */
  lemma {:induction false} LastValueAt<K, V>(pairs: seq<(K, V)>, i: nat)
    requires i < |pairs| && forall j :: i < j < |pairs| ==> pairs[j].0 != pairs[i].0
    ensures LastValue(pairs, pairs[i].0) == Some(pairs[i].1)
    decreases |pairs|
  {
    if i < |pairs| - 1 {
      LastValueAt(pairs[..|pairs| - 1], i);
    }
  }

  /** With distinct keys the last pair with a key is the only one. */
  lemma LastValueDistinct<K, V>(pairs: seq<(K, V)>, k: K)
    requires DistinctKeys(pairs)
    ensures LastValue(pairs, k) == Lookup(pairs, k)
    decreases |pairs|
  {
    if |pairs| > 0 {
      var init := pairs[..|pairs| - 1];
      assert DistinctKeys(init);
      LastValueDistinct(init, k);
      if pairs[|pairs| - 1].0 != k {
        if HasKey(init, k) {
          FindFirst(pairs, k, Find(init, k).value);
        } else if HasKey(pairs, k) {
          FindFirst(init, k, Find(pairs, k).value);
        }
      } else {
        LookupAt(pairs, |pairs| - 1);
      }
    }
  }

  /** `explode` undoes `implode` when no part contains the separator. */
  lemma {:induction false} SplitJoin(parts: seq<string>, sep: char)
    requires |parts| >= 1
    requires forall i :: 0 <= i < |parts| ==> sep !in parts[i]
    ensures Split(Join(parts, [sep]), sep) == parts
    decreases |parts|
  {
    if |parts| > 1 {
      var rest := Join(parts[1..], [sep]);
      var s := parts[0] + [sep] + rest;
      assert IndexOf(s, sep) == Some(|parts[0]|) by {
        assert s[|parts[0]|] == sep;
        assert s[..|parts[0]|] == parts[0];
      }
      assert s[|parts[0]| + 1..] == rest;
      SplitJoin(parts[1..], sep);
      assert [parts[0]] + parts[1..] == parts;
    }
  }

  /**
   * Assigning the same key twice keeps the key in its first slot with the
   * second value: the array is the one a single assignment of that value gives.
   */
  lemma {:induction false} PutTwice<K(!new), V>(e: seq<(K, V)>, k: K, v1: V, v2: V)
    ensures Put(Put(e, k, v1), k, v2) == Put(e, k, v2)
  {
    var once := Put(e, k, v1);
    match Find(e, k)
    case Some(i) =>
      FindSameKeys(e, once, k);
    case None =>
      FindFirst(once, k, |e|);
      assert once[|e| := (k, v2)] == e + [(k, v2)];
  }

  /** The first `n` assignments are the first `n - 1` followed by the `n`-th. */
  lemma PutAllPrefix<K(!new), V>(e: seq<(K, V)>, pairs: seq<(K, V)>, n: nat)
    requires 0 < n <= |pairs|
    ensures PutAll(e, pairs[..n]) == Put(PutAll(e, pairs[..n - 1]), pairs[n - 1].0, pairs[n - 1].1)
  {
    assert pairs[..n][..n - 1] == pairs[..n - 1];
  }

  /** Assignments in two runs are the assignments of both, in order. */
  lemma {:induction false} PutAllAppend<K(!new), V>(e: seq<(K, V)>, a: seq<(K, V)>, b: seq<(K, V)>)
    ensures PutAll(e, a + b) == PutAll(PutAll(e, a), b)
    decreases |b|
  {
    if |b| == 0 {
      assert a + b == a;
    } else {
      var init := b[..|b| - 1];
      var last := b[|b| - 1];
      PutAllAppend(e, a, init);
      assert (a + b)[..|a + b| - 1] == a + init && (a + b)[|a + b| - 1] == last;
      calc {
        PutAll(e, a + b);
        Put(PutAll(e, a + init), last.0, last.1);
        Put(PutAll(PutAll(e, a), init), last.0, last.1);
        PutAll(PutAll(e, a), b);
      }
    }
  }
}
