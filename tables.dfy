/** Rows of a database table kept in creation order, with generated primary keys. */
module Tables {
  import opened Common
  import opened Strings

  /** The keys a generator has handed out once its counter reached `n`. */
  function IssuedKeys(n: nat): set<string> {
    set k | 0 <= k < n :: NatToString(k)
  }

  /** The next key is new, and handing it out extends the issued set by it alone. */
  lemma NextKeyFresh(n: nat)
    ensures NatToString(n) !in IssuedKeys(n)
    ensures IssuedKeys(n + 1) == IssuedKeys(n) + {NatToString(n)}
  {
    if NatToString(n) in IssuedKeys(n) {
      var k :| 0 <= k < n && NatToString(k) == NatToString(n);
      NatToStringInjective(k, n);
    }
  }

  /** No two rows share a key. */
  predicate DistinctBy<T, K(==)>(s: seq<T>, key: T -> K) {
    forall i, j :: 0 <= i < j < |s| ==> key(s[i]) != key(s[j])
  }

  lemma DistinctAppend<T, K>(s: seq<T>, x: T, key: T -> K)
    requires DistinctBy(s, key)
    requires forall i :: 0 <= i < |s| ==> key(s[i]) != key(x)
    ensures DistinctBy(s + [x], key)
  {
  }

  /** Replacing a row by one with the same key keeps the keys distinct. */
  lemma DistinctUpdate<T, K>(s: seq<T>, k: nat, x: T, key: T -> K)
    requires DistinctBy(s, key) && k < |s| && key(x) == key(s[k])
    ensures DistinctBy(s[k := x], key)
  {
  }

  /** `s` without its row at `k`. */
  function RemoveAt<T>(s: seq<T>, k: nat): (r: seq<T>)
    requires k < |s|
    ensures |r| == |s| - 1
    ensures forall i :: 0 <= i < k ==> r[i] == s[i]
    ensures forall i :: k <= i < |r| ==> r[i] == s[i + 1]
  {
    s[..k] + s[k + 1..]
  }

  /** Removing the row holding a key removes that key and keeps all the others. */
  lemma {:induction false} RemoveByKey<T, K>(s: seq<T>, k: nat, key: T -> K)
    requires DistinctBy(s, key) && k < |s|
    ensures DistinctBy(RemoveAt(s, k), key)
    ensures forall i :: 0 <= i < |s| - 1 ==> key(RemoveAt(s, k)[i]) != key(s[k])
    ensures forall x :: x in RemoveAt(s, k) <==> x in s && key(x) != key(s[k])
  {
    var r := RemoveAt(s, k);
    forall x | x in s && key(x) != key(s[k])
      ensures x in r
    {
      var i :| 0 <= i < |s| && s[i] == x;
      if i < k { assert r[i] == x; } else { assert i != k; assert r[i - 1] == x; }
    }
    forall x | x in r
      ensures x in s && key(x) != key(s[k])
    {
      var i :| 0 <= i < |r| && r[i] == x;
      if i < k { assert x == s[i]; } else { assert x == s[i + 1]; }
    }
  }

  /** The index of the first row whose key is `k`. */
  function FirstWith<T, K(==)>(s: seq<T>, key: T -> K, k: K): (r: Option<nat>)
    ensures r.None? <==> forall i :: 0 <= i < |s| ==> key(s[i]) != k
    ensures r.Some? ==> r.value < |s| && key(s[r.value]) == k
    ensures r.Some? ==> forall i :: 0 <= i < r.value ==> key(s[i]) != k
  {
    if s == [] then None
    else if key(s[0]) == k then Some(0)
    else match FirstWith(s[1..], key, k)
      case None => None
      case Some(i) => Some(i + 1)
  }

  /** With distinct keys, the row holding a key is the only one. */
  lemma OnlyRowWithKey<T, K>(s: seq<T>, key: T -> K, k: K)
    requires DistinctBy(s, key) && FirstWith(s, key, k).Some?
    ensures forall i :: 0 <= i < |s| && key(s[i]) == k ==> i == FirstWith(s, key, k).value
  {
  }

  /** The rows satisfying `p`, in order. */
  function Where<T(!new)>(s: seq<T>, p: T -> bool): (r: seq<T>)
    ensures |r| <= |s|
    ensures forall x :: x in r <==> x in s && p(x)
    decreases |s|
  {
    if s == [] then []
    else Where(s[..|s| - 1], p) + (if p(s[|s| - 1]) then [s[|s| - 1]] else [])
  }

  /** `s` backwards: the newest row first. */
  function Reversed<T>(s: seq<T>): (r: seq<T>)
    ensures |r| == |s|
    ensures forall i :: 0 <= i < |s| ==> r[i] == s[|s| - 1 - i]
  {
    if s == [] then [] else [s[|s| - 1]] + Reversed(s[..|s| - 1])
  }

  /** Reversing keeps exactly the same rows. */
  lemma ReversedSameRows<T>(s: seq<T>)
    ensures forall x :: x in Reversed(s) <==> x in s
  {
    var r := Reversed(s);
    forall x | x in s
      ensures x in r
    {
      var i :| 0 <= i < |s| && s[i] == x;
      assert r[|s| - 1 - i] == x;
    }
  }

  /** `s` without its first `n` rows. */
  function Drop<T>(s: seq<T>, n: nat): (r: seq<T>)
    ensures |r| == if n <= |s| then |s| - n else 0
    ensures forall i :: 0 <= i < |r| ==> r[i] == s[n + i]
  {
    if n <= |s| then s[n..] else []
  }
}
