/** The List<T> and LINQ operations the stores rely on: Where, Count,
    Contains, Remove (first occurrence), RemoveAll, Find / FirstOrDefault,
    stated once over sequences. */
module Lists {
  import opened Wrappers

  /** Where(p).ToList(): the elements satisfying p, in their order. */
  function Filter<T>(s: seq<T>, p: T -> bool): (r: seq<T>)
    ensures |r| <= |s|
    ensures forall i :: 0 <= i < |r| ==> r[i] in s && p(r[i])
    ensures forall i :: 0 <= i < |s| && p(s[i]) ==> s[i] in r
  {
    if |s| == 0 then []
    else (if p(s[0]) then [s[0]] else []) + Filter(s[1..], p)
  }

  /** Filtering distributes over concatenation: the order of the kept
      elements is the order of the list. */
  lemma {:induction false} FilterConcat<T>(a: seq<T>, b: seq<T>, p: T -> bool)
    ensures Filter(a + b, p) == Filter(a, p) + Filter(b, p)
  {
    if |a| == 0 {
      assert a + b == b;
    } else {
      assert (a + b)[0] == a[0];
      assert (a + b)[1..] == a[1..] + b;
      FilterConcat(a[1..], b, p);
    }
  }

  /** Filtering one element. */
  lemma FilterSingle<T>(x: T, p: T -> bool)
    ensures Filter([x], p) == if p(x) then [x] else []
  {
    assert [x][1..] == [];
  }

  /** Filtering twice is filtering once by the conjunction. */
  lemma {:induction false} FilterFilter<T>(s: seq<T>, p: T -> bool, q: T -> bool, pq: T -> bool)
    requires forall x :: pq(x) == (p(x) && q(x))
    ensures Filter(Filter(s, p), q) == Filter(s, pq)
  {
    if |s| > 0 {
      FilterFilter(s[1..], p, q, pq);
      var head := if p(s[0]) then [s[0]] else [];
      FilterConcat(head, Filter(s[1..], p), q);
      FilterSingle(s[0], q);
    }
  }

  /** Filters by equivalent predicates agree. */
  lemma {:induction false} FilterExt<T>(s: seq<T>, p: T -> bool, q: T -> bool)
    requires forall x :: x in s ==> p(x) == q(x)
    ensures Filter(s, p) == Filter(s, q)
  {
    if |s| > 0 {
      assert forall x :: x in s[1..] ==> x in s;
      FilterExt(s[1..], p, q);
    }
  }

  /** Every element is kept exactly when the predicate holds for all. */
  lemma {:induction false} FilterAll<T>(s: seq<T>, p: T -> bool)
    requires forall i :: 0 <= i < |s| ==> p(s[i])
    ensures Filter(s, p) == s
  {
    if |s| > 0 {
      FilterAll(s[1..], p);
      assert s == [s[0]] + s[1..];
    }
  }

  /** Count(p): how many elements satisfy p. */
  function Count<T>(s: seq<T>, p: T -> bool): (n: nat)
    ensures n <= |s|
    ensures n == 0 <==> forall i :: 0 <= i < |s| ==> !p(s[i])
  {
    if |s| == 0 then 0
    else (if p(s[0]) then 1 else 0) + Count(s[1..], p)
  }

  /** Count(p) is the length of Where(p). */
  lemma {:induction false} CountFilter<T>(s: seq<T>, p: T -> bool)
    ensures Count(s, p) == |Filter(s, p)|
  {
    if |s| > 0 {
      CountFilter(s[1..], p);
    }
  }

  /** A stronger predicate never counts more. */
  lemma {:induction false} CountMonotone<T>(s: seq<T>, p: T -> bool, q: T -> bool)
    requires forall x :: p(x) ==> q(x)
    ensures Count(s, p) <= Count(s, q)
  {
    if |s| > 0 {
      CountMonotone(s[1..], p, q);
    }
  }

  /** Counting over a concatenation. */
  lemma {:induction false} CountConcat<T>(a: seq<T>, b: seq<T>, p: T -> bool)
    ensures Count(a + b, p) == Count(a, p) + Count(b, p)
  {
    if |a| == 0 {
      assert a + b == b;
    } else {
      assert (a + b)[0] == a[0];
      assert (a + b)[1..] == a[1..] + b;
      CountConcat(a[1..], b, p);
    }
  }

  /** The element-wise key of a list. */
  function Keys<T, K>(s: seq<T>, key: T -> K): (r: seq<K>)
    ensures |r| == |s| && forall i :: 0 <= i < |s| ==> r[i] == key(s[i])
  {
    if |s| == 0 then [] else [key(s[0])] + Keys(s[1..], key)
  }

  /** How many entries of ks equal k. */
  function Occurrences<K(==)>(ks: seq<K>, k: K): nat
  {
    if |ks| == 0 then 0 else (if ks[0] == k then 1 else 0) + Occurrences(ks[1..], k)
  }

  function Sum(xs: seq<nat>): nat
  {
    if |xs| == 0 then 0 else xs[0] + Sum(xs[1..])
  }

  /** Occurrences of every key of a distinct key list add up to the number
      of entries whose key is one of them. */
  lemma {:induction false} SumOccurrences<K>(ks: seq<K>, keys: seq<K>)
    requires forall i, j :: 0 <= i < j < |keys| ==> keys[i] != keys[j]
    requires forall i :: 0 <= i < |ks| ==> ks[i] in keys
    ensures Sum(OccurrencesOf(ks, keys)) == |ks|
  {
    if |ks| > 0 {
      var rest := ks[1..];
      assert forall i :: 0 <= i < |rest| ==> rest[i] == ks[i + 1];
      SumOccurrences(rest, keys);
      SumShift(ks, keys);
    } else {
      SumNone(keys);
    }
  }

  lemma {:induction false} SumNone<K>(keys: seq<K>)
    ensures Sum(OccurrencesOf([], keys)) == 0
  {
    if |keys| > 0 {
      SumNone(keys[1..]);
    }
  }

  /** The occurrence counts of each key of keys in ks. */
  function OccurrencesOf<K(==)>(ks: seq<K>, keys: seq<K>): (r: seq<nat>)
    ensures |r| == |keys|
  {
    if |keys| == 0 then [] else [Occurrences(ks, keys[0])] + OccurrencesOf(ks, keys[1..])
  }

  /** Entry i of OccurrencesOf counts the key keys[i]. */
  lemma {:induction false} OccurrencesOfAt<K>(ks: seq<K>, keys: seq<K>, i: nat)
    requires i < |keys|
    ensures OccurrencesOf(ks, keys)[i] == Occurrences(ks, keys[i])
  {
    if i > 0 {
      OccurrencesOfAt(ks, keys[1..], i - 1);
    }
  }

  /** Dropping the first entry of ks lowers the total by one. */
  lemma {:induction false} SumShift<K>(ks: seq<K>, keys: seq<K>)
    requires |ks| > 0
    requires forall i, j :: 0 <= i < j < |keys| ==> keys[i] != keys[j]
    requires ks[0] in keys
    ensures Sum(OccurrencesOf(ks, keys)) == Sum(OccurrencesOf(ks[1..], keys)) + 1
  {
    if keys[0] == ks[0] {
      assert ks[0] !in keys[1..] by {
        forall j | 0 <= j < |keys[1..]| ensures keys[1..][j] != ks[0] {
          assert keys[1..][j] == keys[j + 1];
        }
      }
      SumNotIn(ks, keys[1..]);
    } else {
      assert forall i, j :: 0 <= i < j < |keys[1..]| ==> keys[1..][i] != keys[1..][j] by {
        forall i, j | 0 <= i < j < |keys[1..]| ensures keys[1..][i] != keys[1..][j] {
          assert keys[1..][i] == keys[i + 1] && keys[1..][j] == keys[j + 1];
        }
      }
      SumShift(ks, keys[1..]);
    }
  }

  /** A key that is not listed does not change the total when dropped. */
  lemma {:induction false} SumNotIn<K>(ks: seq<K>, keys: seq<K>)
    requires |ks| > 0 && ks[0] !in keys
    ensures Sum(OccurrencesOf(ks, keys)) == Sum(OccurrencesOf(ks[1..], keys))
  {
    if |keys| > 0 {
      SumNotIn(ks, keys[1..]);
    }
  }

  /** The per-key counts over a complete, distinct key list add up to the
      length of the list. */
  lemma {:induction false} CountsByKeySum<T, K>(s: seq<T>, key: T -> K, keys: seq<K>)
    requires forall i, j :: 0 <= i < j < |keys| ==> keys[i] != keys[j]
    requires forall x :: key(x) in keys
    ensures Sum(OccurrencesOf(Keys(s, key), keys)) == |s|
  {
    var ks := Keys(s, key);
    forall i | 0 <= i < |ks| ensures ks[i] in keys {
      assert ks[i] == key(s[i]);
    }
    SumOccurrences(ks, keys);
  }

  /** Counting by a key equal to k is counting the occurrences of k among
      the keys. */
  lemma {:induction false} CountKey<T, K>(s: seq<T>, key: T -> K, k: K, p: T -> bool)
    requires forall x :: p(x) == (key(x) == k)
    ensures Count(s, p) == Occurrences(Keys(s, key), k)
  {
    if |s| > 0 {
      CountKey(s[1..], key, k, p);
      assert Keys(s, key)[1..] == Keys(s[1..], key);
    }
  }

  /** The index of the first occurrence of x. */
  function IndexOf<T(==)>(s: seq<T>, x: T): (i: nat)
    requires x in s
    ensures i < |s| && s[i] == x && x !in s[..i]
  {
    if s[0] == x then 0
    else
      var j := IndexOf(s[1..], x);
      assert s[..j + 1] == [s[0]] + s[1..][..j];
      j + 1
  }

  /** List.Remove(x): drops the first occurrence of x, if any. */
  function Remove<T(==)>(s: seq<T>, x: T): (r: seq<T>)
    ensures x in s ==> |r| == |s| - 1
    ensures x !in s ==> r == s
  {
    if x in s then
      var i := IndexOf(s, x);
      s[..i] + s[i + 1..]
    else s
  }

  /** Remove drops exactly one occurrence of x and keeps every other
      element. */
  lemma RemoveMultiset<T>(s: seq<T>, x: T)
    requires x in s
    ensures multiset(Remove(s, x)) == multiset(s) - multiset{x}
  {
    var i := IndexOf(s, x);
    assert s == s[..i] + [s[i]] + s[i + 1..];
    assert Remove(s, x) == s[..i] + s[i + 1..];
  }

  /** A list without repeated elements. */
  predicate Distinct<T(==)>(s: seq<T>) {
    forall i, j :: 0 <= i < j < |s| ==> s[i] != s[j]
  }

  /** What Remove keeps: the elements of the list other than x, where the
      list has no repetitions. */
  lemma {:induction false} RemoveMembers<T>(s: seq<T>, x: T, y: T)
    requires Distinct(s)
    ensures y in Remove(s, x) <==> y in s && y != x
  {
    if x in s {
      var i := IndexOf(s, x);
      var r := Remove(s, x);
      if y in r {
        var k :| 0 <= k < |r| && r[k] == y;
        RemoveIndex(s, x, k);
        var k' := if k < i then k else k + 1;
        assert s[k'] == y && k' != i;
      }
      if y in s && y != x {
        var k :| 0 <= k < |s| && s[k] == y;
        var k' := if k < i then k else k - 1;
        RemoveIndex(s, x, k');
        assert r[k'] == y;
      }
    }
  }

  /** Position k after removing the first x: the element before the
      removed one keeps its place, the later ones move down by one. */
  lemma RemoveIndex<T>(s: seq<T>, x: T, k: nat)
    requires x in s && k < |s| - 1
    ensures Remove(s, x)[k] == if k < IndexOf(s, x) then s[k] else s[k + 1]
  {
    var i := IndexOf(s, x);
    var r := s[..i] + s[i + 1..];
    assert Remove(s, x) == r;
    if k < i { assert r[k] == s[..i][k]; } else { assert r[k] == s[i + 1..][k - i]; }
  }

  /** Removing keeps a list free of repetitions. */
  lemma {:induction false} RemoveDistinct<T>(s: seq<T>, x: T)
    requires Distinct(s)
    ensures Distinct(Remove(s, x))
  {
    if x in s {
      var i := IndexOf(s, x);
      var r := s[..i] + s[i + 1..];
      assert Remove(s, x) == r;
      forall a, b | 0 <= a < b < |r| ensures r[a] != r[b] {
        var a' := if a < i then a else a + 1;
        var b' := if b < i then b else b + 1;
        assert r[a] == s[a'] by {
          if a < i { assert r[a] == s[..i][a]; } else { assert r[a] == s[i + 1..][a - i]; }
        }
        assert r[b] == s[b'] by {
          if b < i { assert r[b] == s[..i][b]; } else { assert r[b] == s[i + 1..][b - i]; }
        }
      }
    }
  }

  /** Concatenation is associative. */
  lemma AppendAssoc<T>(a: seq<T>, b: seq<T>, c: seq<T>)
    ensures (a + b) + c == a + (b + c)
  {
  }

  /** Appending an absent element keeps a list free of repetitions. */
  lemma AppendDistinct<T>(s: seq<T>, x: T)
    requires Distinct(s) && x !in s
    ensures Distinct(s + [x])
  {
  }

  /** Find(p) / FirstOrDefault(p): the first element satisfying p. */
  function Find<T>(s: seq<T>, p: T -> bool): (r: Option<T>)
    ensures r.None? <==> forall i :: 0 <= i < |s| ==> !p(s[i])
    ensures r.Some? ==> exists i :: 0 <= i < |s| && s[i] == r.value && p(r.value) &&
                                     forall j :: 0 <= j < i ==> !p(s[j])
  {
    if |s| == 0 then None
    else if p(s[0]) then Some(s[0])
    else
      var r := Find(s[1..], p);
      assert r.Some? ==> exists i :: 1 <= i < |s| && s[i] == r.value && p(r.value) &&
                                     forall j :: 0 <= j < i ==> !p(s[j]) by {
        if r.Some? {
          var i :| 0 <= i < |s[1..]| && s[1..][i] == r.value && p(r.value) &&
                   forall j :: 0 <= j < i ==> !p(s[1..][j]);
          assert s[i + 1] == r.value;
          forall j | 0 <= j < i + 1 ensures !p(s[j]) {
            if j > 0 { assert s[j] == s[1..][j - 1]; }
          }
        }
      }
      r
  }

  /** FindIndex(p): the position of the first element satisfying p. */
  function FindIndex<T>(s: seq<T>, p: T -> bool): (r: Option<nat>)
    ensures r.None? <==> forall i :: 0 <= i < |s| ==> !p(s[i])
    ensures r.Some? ==> r.value < |s| && p(s[r.value]) && forall j :: 0 <= j < r.value ==> !p(s[j])
  {
    if |s| == 0 then None
    else if p(s[0]) then Some(0)
    else
      match FindIndex(s[1..], p)
      case None =>
        assert forall i :: 1 <= i < |s| ==> s[i] == s[1..][i - 1];
        None
      case Some(k) =>
        assert forall j :: 1 <= j < k + 1 ==> s[j] == s[1..][j - 1];
        Some(k + 1)
  }

  /** An element appended after none that satisfies p is the first
      match. */
  lemma FindIndexAppend<T>(s: seq<T>, x: T, p: T -> bool)
    requires FindIndex(s, p).None? && p(x)
    ensures FindIndex(s + [x], p) == Some(|s|)
  {
    assert forall j :: 0 <= j < |s| ==> (s + [x])[j] == s[j];
    assert (s + [x])[|s|] == x;
  }

  /** Removing the first element that satisfies p, by reference, takes out
      exactly that position. */
  lemma RemoveFirstMatch<T>(s: seq<T>, p: T -> bool, i: nat)
    requires i < |s| && p(s[i]) && forall j :: 0 <= j < i ==> !p(s[j])
    ensures Remove(s, s[i]) == s[..i] + s[i + 1..]
  {
    var j := IndexOf(s, s[i]);
    assert !p(s[j]) || i <= j;
  }

  /** Counting by q among the elements satisfying p is counting by their
      conjunction. */
  lemma CountFiltered<T>(s: seq<T>, p: T -> bool, q: T -> bool, pq: T -> bool)
    requires forall x :: pq(x) == (p(x) && q(x))
    ensures Count(Filter(s, p), q) == Count(s, pq)
  {
    CountFilter(Filter(s, p), q);
    FilterFilter(s, p, q, pq);
    CountFilter(s, pq);
  }

  /** RemoveAll(p): the elements not satisfying p, in order, and how many
      were dropped. */
  lemma RemoveAllCount<T>(s: seq<T>, p: T -> bool, notP: T -> bool)
    requires forall x :: notP(x) == !p(x)
    ensures |Filter(s, notP)| + Count(s, p) == |s|
  {
    CountFilter(s, notP);
    CountComplement(s, p, notP);
  }

  lemma {:induction false} CountComplement<T>(s: seq<T>, p: T -> bool, notP: T -> bool)
    requires forall x :: notP(x) == !p(x)
    ensures Count(s, notP) + Count(s, p) == |s|
  {
    if |s| > 0 {
      CountComplement(s[1..], p, notP);
    }
  }
}
