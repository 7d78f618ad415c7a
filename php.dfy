/**
 * The few PHP runtime notions the container relies on: values with object
 * identity, `ltrim($s, '\\')`, `explode('@', $s)`, string truthiness and
 * ordered arrays with integer or string keys.
 */
module Php {

  datatype Option<+T> = None | Some(value: T)

  /** A PHP value. An object carries its identity (`===` compares ids), the
      class it was built from and the constructor arguments it received. */
  datatype Value =
    | Null
    | Bool(b: bool)
    | Int(i: int)
    | Str(s: string)
    | Obj(id: nat, cls: string, args: seq<Value>)

  /** `isset($m[$k])`: the key is present and its value is not null. */
  predicate Isset(m: map<string, Value>, k: string)
  {
    k in m && m[k] != Null
  }

  /** A string that `ltrim($s, '\\')` leaves unchanged. */
  predicate IsNormalized(s: string)
  {
    s == [] || s[0] != '\\'
  }

  /** `ltrim($s, '\\')`: removes every leading backslash. */
  function Normalize(s: string): (r: string)
    ensures IsNormalized(r)
    decreases |s|
  {
    if |s| > 0 && s[0] == '\\' then Normalize(s[1..]) else s
  }

  /** What ltrim removes is a run of backslashes at the front, and nothing else. */
  lemma {:induction false} NormalizeStrips(s: string)
    ensures var r := Normalize(s); |r| <= |s| && r == s[|s| - |r|..]
    ensures var r := Normalize(s); forall i :: 0 <= i < |s| - |r| ==> s[i] == '\\'
    decreases |s|
  {
    if |s| > 0 && s[0] == '\\' {
      NormalizeStrips(s[1..]);
    }
  }

  lemma NormalizeFixesNormalized(s: string)
    requires IsNormalized(s)
    ensures Normalize(s) == s
  {
  }

  /** A second `ltrim` changes nothing. */
  lemma NormalizeIdempotent(s: string)
    ensures Normalize(Normalize(s)) == Normalize(s)
  {
    NormalizeFixesNormalized(Normalize(s));
  }

  /** PHP string truthiness of an optional string argument: null, "" and "0" are false. */
  predicate Truthy(m: Option<string>)
  {
    m.Some? && m.value != "" && m.value != "0"
  }

  // ---------------------------------------------------------------------
  // explode($sep, $s)
  // ---------------------------------------------------------------------

  /** Index of the first occurrence of `c` in `s`. */
  function IndexOf(c: char, s: string): (i: nat)
    requires c in s
    ensures i < |s| && s[i] == c && c !in s[..i]
  {
    if s[0] == c then 0 else 1 + IndexOf(c, s[1..])
  }

  /** `implode($sep, $parts)`. */
  function Join(sep: char, parts: seq<string>): string
    requires |parts| >= 1
  {
    if |parts| == 1 then parts[0] else parts[0] + [sep] + Join(sep, parts[1..])
  }

  /** Number of occurrences of `c` in `s`. */
  function Count(c: char, s: string): nat
  {
    if s == [] then 0 else (if s[0] == c then 1 else 0) + Count(c, s[1..])
  }

  /** `explode($sep, $s)`: the maximal separator-free pieces, in order. */
  function Explode(sep: char, s: string): (r: seq<string>)
    ensures |r| >= 1
    ensures forall i :: 0 <= i < |r| ==> sep !in r[i]
    ensures Join(sep, r) == s
    decreases |s|
  {
    if sep !in s then [s]
    else
      var i := IndexOf(sep, s);
      assert s == s[..i] + [sep] + s[i + 1..];
      [s[..i]] + Explode(sep, s[i + 1..])
  }

  lemma CountAppend(c: char, a: string, b: string)
    ensures Count(c, a + b) == Count(c, a) + Count(c, b)
  {
    if a == [] {
      assert a + b == b;
    } else {
      assert (a + b)[0] == a[0];
      assert (a + b)[1..] == a[1..] + b;
      CountAppend(c, a[1..], b);
    }
  }

  lemma CountAbsent(c: char, s: string)
    requires c !in s
    ensures Count(c, s) == 0
  {
    if s != [] {
      CountAbsent(c, s[1..]);
    }
  }

  /** `explode` yields one more piece than there are separators. */
  lemma {:induction false} ExplodeLength(sep: char, s: string)
    ensures |Explode(sep, s)| == Count(sep, s) + 1
    decreases |s|
  {
    if sep !in s {
      CountAbsent(sep, s);
    } else {
      var i := IndexOf(sep, s);
      assert s == s[..i] + ([sep] + s[i + 1..]);
      CountAppend(sep, s[..i], [sep] + s[i + 1..]);
      CountAbsent(sep, s[..i]);
      assert ([sep] + s[i + 1..])[1..] == s[i + 1..];
      ExplodeLength(sep, s[i + 1..]);
    }
  }

  // ---------------------------------------------------------------------
  // Ordered PHP arrays
  // ---------------------------------------------------------------------

  datatype Key = IntKey(i: int) | StrKey(s: string)

  /** A PHP array as its entries in insertion order. */
  type Entries = seq<(Key, Value)>

  /** `array_key_exists($k, $a) ? $a[$k] : <absent>`. */
  function Lookup(a: Entries, k: Key): Option<Value>
  {
    if a == [] then None else if a[0].0 == k then Some(a[0].1) else Lookup(a[1..], k)
  }

  /** `unset($a[$k])`. */
  function Remove(a: Entries, k: Key): (r: Entries)
    ensures Lookup(r, k) == None
    ensures forall k' :: k' != k ==> Lookup(r, k') == Lookup(a, k')
  {
    if a == [] then []
    else if a[0].0 == k then Remove(a[1..], k)
    else [a[0]] + Remove(a[1..], k)
  }

  /** `$a[$k] = $v`: overwrites in place when the key exists, appends otherwise. */
  function Put(a: Entries, k: Key, v: Value): (r: Entries)
    ensures Lookup(r, k) == Some(v)
    ensures forall k' :: k' != k ==> Lookup(r, k') == Lookup(a, k')
  {
    if a == [] then [(k, v)]
    else if a[0].0 == k then [(k, v)] + a[1..]
    else [a[0]] + Put(a[1..], k, v)
  }

  /** `array_values($a)`. */
  function Values(a: Entries): (r: seq<Value>)
    ensures |r| == |a|
    ensures forall i :: 0 <= i < |a| ==> r[i] == a[i].1
  {
    if a == [] then [] else [a[0].1] + Values(a[1..])
  }

  /** The entries of `a` whose key is not in `ks`, in their original order. */
  function Without(a: Entries, ks: set<Key>): (r: Entries)
    ensures forall k :: k in ks ==> Lookup(r, k) == None
    ensures forall k :: k !in ks ==> Lookup(r, k) == Lookup(a, k)
  {
    if a == [] then []
    else if a[0].0 in ks then Without(a[1..], ks)
    else [a[0]] + Without(a[1..], ks)
  }

  lemma {:induction false} WithoutNothing(a: Entries)
    ensures Without(a, {}) == a
  {
    if a != [] {
      WithoutNothing(a[1..]);
    }
  }

  /** Unsetting a key and then filtering is filtering by one more key. */
  lemma {:induction false} WithoutRemove(a: Entries, k: Key, ks: set<Key>)
    ensures Without(Remove(a, k), ks) == Without(a, {k} + ks)
  {
    if a != [] {
      WithoutRemove(a[1..], k, ks);
    }
  }

  /** Filtering by a key that is absent changes nothing. */
  lemma {:induction false} WithoutAbsent(a: Entries, k: Key, ks: set<Key>)
    requires Lookup(a, k).None?
    ensures Without(a, {k} + ks) == Without(a, ks)
  {
    if a != [] {
      WithoutAbsent(a[1..], k, ks);
    }
  }
}
