/** `Array.prototype.sort` with the comparator `(a, b) => key(b) - key(a)`:
    descending order by a real key, by insertion, plus `slice(0, n)` of the
    result and the facts the screens rely on (a sorted prefix holds the
    largest keys, ids stay distinct under a permutation). */
module Sorting {
  import opened Seqs

  ghost predicate SortedDesc<T>(s: seq<T>, key: T -> real) {
    forall i, j :: 0 <= i < j < |s| ==> key(s[i]) >= key(s[j])
  }

  /** Puts x after every element whose key is at least x's. */
  function InsertDesc<T>(x: T, s: seq<T>, key: T -> real): (r: seq<T>)
    requires SortedDesc(s, key)
    ensures |r| == |s| + 1
    ensures multiset(r) == multiset(s) + multiset{x}
    ensures SortedDesc(r, key)
  {
    if |s| == 0 then [x]
    else if key(s[0]) < key(x) then [x] + s
    else
      var rest := InsertDesc(x, s[1..], key);
      assert s == [s[0]] + s[1..];
      forall k | 0 <= k < |rest| ensures key(s[0]) >= key(rest[k]) {
        assert rest[k] in multiset(rest);
        assert rest[k] == x || rest[k] in s[1..];
      }
      [s[0]] + rest
  }

  /** Sorts descending by key: the result is ordered and holds exactly the
      elements of s. */
  method SortDesc<T>(s: seq<T>, key: T -> real) returns (r: seq<T>)
    ensures SortedDesc(r, key)
    ensures multiset(r) == multiset(s)
  {
    r := [];
    for i := 0 to |s|
      invariant SortedDesc(r, key)
      invariant multiset(r) == multiset(s[..i])
    {
      assert s[..i + 1] == s[..i] + [s[i]];
      r := InsertDesc(s[i], r, key);
    }
    assert s[..|s|] == s;
  }

  /** `slice(0, n)`. */
  function Take<T>(s: seq<T>, n: nat): (r: seq<T>)
    ensures |r| <= n && r <= s
    ensures |s| <= n ==> r == s
    ensures |s| >= n ==> |r| == n
  {
    if |s| <= n then s else s[..n]
  }

  /** The first n of a descending sequence are its n largest: nothing left
      behind has a larger key than anything taken. */
  lemma {:induction false} TakeSortedIsTop<T>(s: seq<T>, n: nat, key: T -> real)
    requires SortedDesc(s, key)
    ensures multiset(Take(s, n)) <= multiset(s)
    ensures forall x, y :: x in Take(s, n) && y in multiset(s) - multiset(Take(s, n)) ==> key(y) <= key(x)
  {
    var t := Take(s, n);
    var rest := s[|t|..];
    assert s == t + rest;
    assert multiset(s) == multiset(t) + multiset(rest);
    forall x, y | x in t && y in multiset(s) - multiset(t) ensures key(y) <= key(x) {
      assert y in rest;
      var i :| 0 <= i < |t| && t[i] == x;
      var j :| 0 <= j < |rest| && rest[j] == y;
      assert s[i] == x && s[|t| + j] == y;
    }
  }

  /** Two positions holding one value make it occur twice. */
  lemma {:induction false} MultisetTwice<T>(s: seq<T>, i: int, j: int)
    requires 0 <= i < j < |s| && s[i] == s[j]
    ensures multiset(s)[s[i]] >= 2
  {
    assert s == s[..j] + [s[j]] + s[j + 1..];
    assert s[i] in s[..j];
  }

  /** A value occurring twice sits at two positions. */
  lemma {:induction false} TwicePositions<T>(s: seq<T>, v: T)
    requires multiset(s)[v] >= 2
    ensures exists i, j :: 0 <= i < j < |s| && s[i] == v && s[j] == v
  {
    assert s == [s[0]] + s[1..];
    assert multiset(s) == multiset{s[0]} + multiset(s[1..]);
    if s[0] == v {
      assert v in multiset(s[1..]);
      var k :| 0 <= k < |s[1..]| && s[1..][k] == v;
      assert s[0] == v && s[k + 1] == v;
    } else {
      TwicePositions(s[1..], v);
      var i, j :| 0 <= i < j < |s[1..]| && s[1..][i] == v && s[1..][j] == v;
      assert s[i + 1] == v && s[j + 1] == v;
    }
  }

  /** Two positions of a reordering come from two positions of the original. */
  lemma {:induction false} SourcePositions<T>(a: seq<T>, b: seq<T>, i: int, j: int) returns (p: int, q: int)
    requires multiset(a) == multiset(b)
    requires 0 <= i < j < |b|
    ensures 0 <= p < |a| && 0 <= q < |a| && p != q
    ensures a[p] == b[i] && a[q] == b[j]
  {
    if b[i] == b[j] {
      MultisetTwice(b, i, j);
      TwicePositions(a, b[i]);
      p, q :| 0 <= p < q < |a| && a[p] == b[i] && a[q] == b[i];
    } else {
      assert b[i] in multiset(a) && b[j] in multiset(a);
      p :| 0 <= p < |a| && a[p] == b[i];
      q :| 0 <= q < |a| && a[q] == b[j];
    }
  }

  /** Reordering keeps ids distinct. */
  lemma {:induction false} PermutationKeepsUnique<T>(a: seq<T>, b: seq<T>, key: T -> string)
    requires UniqueKeys(a, key)
    requires multiset(a) == multiset(b)
    ensures UniqueKeys(b, key)
  {
    forall i, j | 0 <= i < j < |b| ensures key(b[i]) != key(b[j]) {
      var p, q := SourcePositions(a, b, i, j);
      assert key(a[p]) != key(a[q]);
    }
  }
}
