/** Generic operations on the store's collections: the `reduce` sums, the
    id-keyed `find`/`findIndex`/`map`/`filter` the store uses, and the facts
    about them that the ledger's proofs rest on. A key function picks the
    identity field of a record (see the `...Key` functions of Types). */
module Seqs {
  import opened Types

  /** `s.reduce((sum, x) => sum + f(x), 0)` over real amounts. */
  function SumR<T>(s: seq<T>, f: T -> real): real {
    if |s| == 0 then 0.0 else f(s[0]) + SumR(s[1..], f)
  }

  /** The same reduction over integer quantities. */
  function SumI<T>(s: seq<T>, f: T -> int): int {
    if |s| == 0 then 0 else f(s[0]) + SumI(s[1..], f)
  }

  lemma {:induction false} SumRConcat<T>(a: seq<T>, b: seq<T>, f: T -> real)
    ensures SumR(a + b, f) == SumR(a, f) + SumR(b, f)
  {
    if |a| == 0 {
      assert a + b == b;
    } else {
      assert (a + b)[1..] == a[1..] + b;
      SumRConcat(a[1..], b, f);
    }
  }

  lemma {:induction false} SumIConcat<T>(a: seq<T>, b: seq<T>, f: T -> int)
    ensures SumI(a + b, f) == SumI(a, f) + SumI(b, f)
  {
    if |a| == 0 {
      assert a + b == b;
    } else {
      assert (a + b)[1..] == a[1..] + b;
      SumIConcat(a[1..], b, f);
    }
  }

  /** Adding one more element to the end of a prefix adds its term. */
  lemma {:induction false} SumRSnoc<T>(s: seq<T>, i: int, f: T -> real)
    requires 0 <= i < |s|
    ensures SumR(s[..i + 1], f) == SumR(s[..i], f) + f(s[i])
  {
    assert s[..i + 1] == s[..i] + [s[i]];
    SumRConcat(s[..i], [s[i]], f);
  }

  lemma {:induction false} SumISnoc<T>(s: seq<T>, i: int, f: T -> int)
    requires 0 <= i < |s|
    ensures SumI(s[..i + 1], f) == SumI(s[..i], f) + f(s[i])
  {
    assert s[..i + 1] == s[..i] + [s[i]];
    SumIConcat(s[..i], [s[i]], f);
  }

  /** Overwriting one element changes a sum by the difference of its terms. */
  lemma {:induction false} SumRUpdate<T>(s: seq<T>, k: int, v: T, f: T -> real)
    requires 0 <= k < |s|
    ensures SumR(s[k := v], f) == SumR(s, f) - f(s[k]) + f(v)
  {
    assert s == s[..k] + [s[k]] + s[k + 1..];
    assert s[k := v] == s[..k] + [v] + s[k + 1..];
    SumRConcat(s[..k] + [s[k]], s[k + 1..], f);
    SumRConcat(s[..k], [s[k]], f);
    SumRConcat(s[..k] + [v], s[k + 1..], f);
    SumRConcat(s[..k], [v], f);
  }

  lemma {:induction false} SumIUpdate<T>(s: seq<T>, k: int, v: T, f: T -> int)
    requires 0 <= k < |s|
    ensures SumI(s[k := v], f) == SumI(s, f) - f(s[k]) + f(v)
  {
    assert s == s[..k] + [s[k]] + s[k + 1..];
    assert s[k := v] == s[..k] + [v] + s[k + 1..];
    SumIConcat(s[..k] + [s[k]], s[k + 1..], f);
    SumIConcat(s[..k], [s[k]], f);
    SumIConcat(s[..k] + [v], s[k + 1..], f);
    SumIConcat(s[..k], [v], f);
  }

  /** Removing one element drops its term from a sum. */
  lemma {:induction false} SumRRemove<T>(s: seq<T>, k: int, f: T -> real)
    requires 0 <= k < |s|
    ensures SumR(s[..k] + s[k + 1..], f) == SumR(s, f) - f(s[k])
  {
    assert s == s[..k] + [s[k]] + s[k + 1..];
    SumRConcat(s[..k] + [s[k]], s[k + 1..], f);
    SumRConcat(s[..k], [s[k]], f);
    SumRConcat(s[..k], s[k + 1..], f);
  }

  lemma {:induction false} SumIRemove<T>(s: seq<T>, k: int, f: T -> int)
    requires 0 <= k < |s|
    ensures SumI(s[..k] + s[k + 1..], f) == SumI(s, f) - f(s[k])
  {
    assert s == s[..k] + [s[k]] + s[k + 1..];
    SumIConcat(s[..k] + [s[k]], s[k + 1..], f);
    SumIConcat(s[..k], [s[k]], f);
    SumIConcat(s[..k], s[k + 1..], f);
  }

  /** A sum of non-negative terms is bounded by a sum of terms that are pointwise at least as large. */
  lemma {:induction false} SumRMonotone<T>(s: seq<T>, f: T -> real, g: T -> real)
    requires forall i :: 0 <= i < |s| ==> f(s[i]) <= g(s[i])
    ensures SumR(s, f) <= SumR(s, g)
  {
    if |s| > 0 {
      SumRMonotone(s[1..], f, g);
    }
  }

  /** Sums that agree term by term are equal. */
  lemma {:induction false} SumRPointwise<T>(s: seq<T>, f: T -> real, g: T -> real)
    requires forall i :: 0 <= i < |s| ==> f(s[i]) == g(s[i])
    ensures SumR(s, f) == SumR(s, g)
  {
    if |s| > 0 {
      SumRPointwise(s[1..], f, g);
    }
  }

  lemma {:induction false} SumIPointwise<T>(s: seq<T>, f: T -> int, g: T -> int)
    requires forall i :: 0 <= i < |s| ==> f(s[i]) == g(s[i])
    ensures SumI(s, f) == SumI(s, g)
  {
    if |s| > 0 {
      SumIPointwise(s[1..], f, g);
    }
  }

  /** A sum of zero terms is zero. */
  lemma {:induction false} SumRZero<T>(s: seq<T>, f: T -> real)
    requires forall i :: 0 <= i < |s| ==> f(s[i]) == 0.0
    ensures SumR(s, f) == 0.0
  {
    if |s| > 0 {
      SumRZero(s[1..], f);
    }
  }

  lemma {:induction false} SumIZero<T>(s: seq<T>, f: T -> int)
    requires forall i :: 0 <= i < |s| ==> f(s[i]) == 0
    ensures SumI(s, f) == 0
  {
    if |s| > 0 {
      SumIZero(s[1..], f);
    }
  }

  /** `s.filter(p)`: the elements satisfying p, in their order. */
  function Filter<T(!new)>(s: seq<T>, p: T -> bool): (r: seq<T>)
    ensures |r| <= |s|
    ensures forall x :: x in r <==> x in s && p(x)
  {
    if |s| == 0 then []
    else
      var rest := Filter(s[1..], p);
      assert forall x :: x in s <==> x == s[0] || x in s[1..];
      if p(s[0]) then [s[0]] + rest else rest
  }

  /** A filter every element passes keeps the whole sequence. */
  lemma {:induction false} FilterAll<T(!new)>(s: seq<T>, p: T -> bool)
    requires forall i :: 0 <= i < |s| ==> p(s[i])
    ensures Filter(s, p) == s
  {
    if |s| > 0 {
      FilterAll(s[1..], p);
    }
  }

  /** Filter, then reduce, is the reduction of the terms that vanish off the filter. */
  lemma {:induction false} FilterSumR<T(!new)>(s: seq<T>, p: T -> bool, f: T -> real, g: T -> real)
    requires forall i :: 0 <= i < |s| ==> g(s[i]) == if p(s[i]) then f(s[i]) else 0.0
    ensures SumR(Filter(s, p), f) == SumR(s, g)
  {
    if |s| > 0 {
      FilterSumR(s[1..], p, f, g);
      var rest := Filter(s[1..], p);
      assert ([s[0]] + rest)[1..] == rest;
    }
  }

  /** The length of a filter counts the elements that pass. */
  lemma {:induction false} FilterCount<T(!new)>(s: seq<T>, p: T -> bool, g: T -> int)
    requires forall i :: 0 <= i < |s| ==> g(s[i]) == if p(s[i]) then 1 else 0
    ensures |Filter(s, p)| == SumI(s, g)
  {
    if |s| > 0 {
      FilterCount(s[1..], p, g);
    }
  }

  /** A filter of a sequence with one more element in front. */
  lemma {:induction false} FilterPrepend<T(!new)>(x: T, s: seq<T>, p: T -> bool)
    ensures Filter([x] + s, p) == if p(x) then [x] + Filter(s, p) else Filter(s, p)
  {
    assert ([x] + s)[1..] == s;
  }

  /** No two elements share an id. */
  ghost predicate UniqueKeys<T>(s: seq<T>, key: T -> string) {
    forall i, j :: 0 <= i < j < |s| ==> key(s[i]) != key(s[j])
  }

  predicate HasKey<T>(s: seq<T>, key: T -> string, id: string) {
    exists i :: 0 <= i < |s| && key(s[i]) == id
  }

  /** `findIndex(x => key(x) === id)`: the first position holding id, or -1. */
  function IndexOf<T>(s: seq<T>, key: T -> string, id: string): (k: int)
    ensures -1 <= k < |s|
    ensures 0 <= k ==> key(s[k]) == id && forall j :: 0 <= j < k ==> key(s[j]) != id
    ensures k == -1 <==> !HasKey(s, key, id)
  {
    if |s| == 0 then -1
    else if key(s[0]) == id then 0
    else
      var r := IndexOf(s[1..], key, id);
      assert forall j :: 1 <= j < |s| ==> s[1..][j - 1] == s[j];
      if r == -1 then -1 else r + 1
  }

  /** Growing a prefix by one element adds exactly that element's id. */
  lemma {:induction false} HasKeyPrefix<T>(s: seq<T>, i: int, key: T -> string, id: string)
    requires 0 <= i < |s|
    ensures HasKey(s[..i + 1], key, id) <==> HasKey(s[..i], key, id) || key(s[i]) == id
  {
    if HasKey(s[..i], key, id) {
      var k :| 0 <= k < i && key(s[..i][k]) == id;
      assert s[..i + 1][k] == s[..i][k];
    }
    if key(s[i]) == id {
      assert s[..i + 1][i] == s[i];
    }
    if HasKey(s[..i + 1], key, id) && key(s[i]) != id {
      var k :| 0 <= k < i + 1 && key(s[..i + 1][k]) == id;
      assert s[..i][k] == s[..i + 1][k];
    }
  }

  /** `find(x => key(x) === id)`: the first element holding id. */
  function Find<T>(s: seq<T>, key: T -> string, id: string): (r: Option<T>)
    ensures r.Some? <==> HasKey(s, key, id)
    ensures r.Some? ==> r.value == s[IndexOf(s, key, id)] && key(r.value) == id
  {
    var k := IndexOf(s, key, id);
    if k == -1 then None else Some(s[k])
  }

  /** With distinct ids the element holding id is the one at any position holding it. */
  lemma {:induction false} FindUnique<T>(s: seq<T>, key: T -> string, k: int)
    requires UniqueKeys(s, key)
    requires 0 <= k < |s|
    ensures IndexOf(s, key, key(s[k])) == k
    ensures Find(s, key, key(s[k])) == Some(s[k])
  {
  }

  /** `map(x => key(x) === id ? f(x) : x)`. */
  function MapWhere<T>(s: seq<T>, key: T -> string, id: string, f: T -> T): (r: seq<T>)
    ensures |r| == |s|
    ensures forall i :: 0 <= i < |s| ==> r[i] == if key(s[i]) == id then f(s[i]) else s[i]
  {
    seq(|s|, i requires 0 <= i < |s| => if key(s[i]) == id then f(s[i]) else s[i])
  }

  /** With distinct ids, the `map` touches exactly the one element holding id. */
  lemma {:induction false} MapWhereUnique<T>(s: seq<T>, key: T -> string, k: int, f: T -> T)
    requires UniqueKeys(s, key)
    requires 0 <= k < |s|
    ensures MapWhere(s, key, key(s[k]), f) == s[k := f(s[k])]
  {
  }

  /** `map` over an id nobody holds changes nothing. */
  lemma {:induction false} MapWhereAbsent<T>(s: seq<T>, key: T -> string, id: string, f: T -> T)
    requires !HasKey(s, key, id)
    ensures MapWhere(s, key, id, f) == s
  {
  }

  /** A `map` whose update keeps ids keeps them distinct. */
  lemma {:induction false} MapWhereKeepsKeys<T>(s: seq<T>, key: T -> string, id: string, f: T -> T)
    requires forall i :: 0 <= i < |s| ==> key(f(s[i])) == key(s[i])
    ensures forall i :: 0 <= i < |s| ==> key(MapWhere(s, key, id, f)[i]) == key(s[i])
    ensures UniqueKeys(s, key) ==> UniqueKeys(MapWhere(s, key, id, f), key)
  {
  }

  /** `filter(x => key(x) !== id)`. */
  function Without<T>(s: seq<T>, key: T -> string, id: string): (r: seq<T>)
    ensures |r| <= |s|
    ensures forall i :: 0 <= i < |r| ==> r[i] in s && key(r[i]) != id
    ensures forall i :: 0 <= i < |s| && key(s[i]) != id ==> s[i] in r
  {
    if |s| == 0 then []
    else if key(s[0]) == id then Without(s[1..], key, id)
    else [s[0]] + Without(s[1..], key, id)
  }

  /** Filtering out an id nobody holds changes nothing. */
  lemma {:induction false} WithoutAbsent<T>(s: seq<T>, key: T -> string, id: string)
    requires !HasKey(s, key, id)
    ensures Without(s, key, id) == s
  {
    if |s| > 0 {
      assert !HasKey(s[1..], key, id) by {
        forall j | 0 <= j < |s[1..]| ensures key(s[1..][j]) != id {
          assert s[1..][j] == s[j + 1];
        }
      }
      WithoutAbsent(s[1..], key, id);
    }
  }

  lemma {:induction false} WithoutConcat<T>(a: seq<T>, b: seq<T>, key: T -> string, id: string)
    ensures Without(a + b, key, id) == Without(a, key, id) + Without(b, key, id)
  {
    if |a| == 0 {
      assert a + b == b;
    } else {
      assert (a + b)[1..] == a[1..] + b;
      WithoutConcat(a[1..], b, key, id);
    }
  }

  /** With distinct ids, the id at position k occurs nowhere else. */
  lemma {:induction false} UniqueElsewhere<T>(s: seq<T>, key: T -> string, k: int)
    requires UniqueKeys(s, key)
    requires 0 <= k < |s|
    ensures !HasKey(s[..k], key, key(s[k]))
    ensures !HasKey(s[k + 1..], key, key(s[k]))
  {
    var id := key(s[k]);
    forall j | 0 <= j < k ensures key(s[..k][j]) != id {
      assert s[..k][j] == s[j];
    }
    var t := s[k + 1..];
    forall j | 0 <= j < |t| ensures key(t[j]) != id {
      assert t[j] == s[k + 1 + j];
    }
  }

  /** With distinct ids, filtering out the id at position k removes exactly that element. */
  lemma {:induction false} WithoutUnique<T>(s: seq<T>, key: T -> string, k: int)
    requires UniqueKeys(s, key)
    requires 0 <= k < |s|
    ensures Without(s, key, key(s[k])) == s[..k] + s[k + 1..]
  {
    var id := key(s[k]);
    var a, b := s[..k], s[k + 1..];
    assert s == a + ([s[k]] + b);
    WithoutConcat(a, [s[k]] + b, key, id);
    WithoutConcat([s[k]], b, key, id);
    UniqueElsewhere(s, key, k);
    WithoutAbsent(a, key, id);
    WithoutAbsent(b, key, id);
    assert [s[k]][1..] == [];
  }

  /** Filtering keeps ids distinct. */
  lemma {:induction false} WithoutKeepsUnique<T>(s: seq<T>, key: T -> string, id: string)
    requires UniqueKeys(s, key)
    ensures UniqueKeys(Without(s, key, id), key)
  {
    if |s| > 0 {
      assert UniqueKeys(s[1..], key) by {
        forall i, j | 0 <= i < j < |s[1..]| ensures key(s[1..][i]) != key(s[1..][j]) {
          assert s[1..][i] == s[i + 1] && s[1..][j] == s[j + 1];
        }
      }
      WithoutKeepsUnique(s[1..], key, id);
      var rest := Without(s[1..], key, id);
      if key(s[0]) != id {
        forall j | 0 <= j < |rest| ensures key(rest[j]) != key(s[0]) {
          assert rest[j] in s[1..];
        }
        var r := [s[0]] + rest;
        forall i, j | 0 <= i < j < |r| ensures key(r[i]) != key(r[j]) {
          if i > 0 {
            assert r[i] == rest[i - 1] && r[j] == rest[j - 1];
          } else {
            assert r[j] == rest[j - 1];
          }
        }
      }
    }
  }

  /** Putting an element with a new id at the end keeps ids distinct. */
  lemma {:induction false} AppendKeepsUnique<T>(s: seq<T>, x: T, key: T -> string)
    requires UniqueKeys(s, key)
    requires !HasKey(s, key, key(x))
    ensures UniqueKeys(s + [x], key)
  {
    var r := s + [x];
    forall i, j | 0 <= i < j < |r| ensures key(r[i]) != key(r[j]) {
      assert r[i] == s[i];
      if j < |s| {
        assert r[j] == s[j];
      }
    }
  }

  /** Filtering out the id of an element just put in front of a sequence
      that did not hold it gives that sequence back: delete undoes add. */
  lemma {:induction false} WithoutPrepended<T>(x: T, s: seq<T>, key: T -> string)
    requires !HasKey(s, key, key(x))
    ensures Without([x] + s, key, key(x)) == s
  {
    assert ([x] + s)[1..] == s;
    WithoutAbsent(s, key, key(x));
  }

  /** Distinct ids carry over to a sequence holding the same ids in the same places. */
  lemma {:induction false} SameKeysUnique<T>(a: seq<T>, b: seq<T>, key: T -> string)
    requires UniqueKeys(a, key)
    requires |b| == |a| && forall k :: 0 <= k < |a| ==> key(b[k]) == key(a[k])
    ensures UniqueKeys(b, key)
  {
  }

  /** Putting an element with a new id in front keeps ids distinct. */
  lemma {:induction false} PrependKeepsUnique<T>(x: T, s: seq<T>, key: T -> string)
    requires UniqueKeys(s, key)
    requires !HasKey(s, key, key(x))
    ensures UniqueKeys([x] + s, key)
  {
    var r := [x] + s;
    forall i, j | 0 <= i < j < |r| ensures key(r[i]) != key(r[j]) {
      assert r[j] == s[j - 1];
      if i > 0 {
        assert r[i] == s[i - 1];
      }
    }
  }
}
