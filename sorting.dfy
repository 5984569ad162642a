/**
 * The order `sort_values` puts a column's cells in (ascending, missing values
 * last) and a stable sorting permutation for it.
 */
module Sorting {
  import opened Text
  import opened Cells

  /**
   * `a` may come before `b`: missing values go last, integers compare as
   * numbers, strings by code points. Integers and strings never meet in a
   * column that can be sorted (see Comparable); ranking them is arbitrary.
   */
  predicate KeyLe(a: Cell, b: Cell) {
    if b.Null? then true
    else if a.Null? then false
    else if a.Int? && b.Int? then a.n <= b.n
    else if a.Str? && b.Str? then !LexLt(b.s, a.s)
    else a.Int?
  }

  /** Python can order the column: it does not mix integers with strings. */
  predicate Comparable(keys: seq<Cell>) {
    !(exists i, j :: 0 <= i < |keys| && 0 <= j < |keys| && keys[i].Int? && keys[j].Str?)
  }

  lemma KeyLeTotal(a: Cell, b: Cell)
    ensures KeyLe(a, b) || KeyLe(b, a)
  {
    if a.Str? && b.Str? {
      LexTrichotomy(a.s, b.s);
      if LexLt(a.s, b.s) {
        LexLtAsymmetric(a.s, b.s);
      }
    }
  }

  lemma KeyLeTransitive(a: Cell, b: Cell, c: Cell)
    requires KeyLe(a, b) && KeyLe(b, c)
    ensures KeyLe(a, c)
  {
    if a.Str? && b.Str? && c.Str? && LexLt(c.s, a.s) {
      LexTrichotomy(c.s, b.s);
      if LexLt(c.s, b.s) {
        assert false;
      } else if c.s == b.s {
        assert false;
      } else {
        LexLtTransitive(b.s, c.s, a.s);
      }
    }
  }

  predicate InRange(s: seq<nat>, n: nat) {
    forall i :: 0 <= i < |s| ==> s[i] < n
  }

  /** Row indices listed in an order whose keys never decrease. */
  predicate SortedBy(keys: seq<Cell>, p: seq<nat>)
    requires InRange(p, |keys|)
  {
    forall i, j :: 0 <= i < j < |p| ==> KeyLe(keys[p[i]], keys[p[j]])
  }

  /** The column itself is already in sorted order. */
  predicate Sorted(keys: seq<Cell>) {
    forall i, j :: 0 <= i < j < |keys| ==> KeyLe(keys[i], keys[j])
  }

  function Range(n: nat): (r: seq<nat>)
    ensures |r| == n && InRange(r, n)
    ensures forall i :: 0 <= i < n ==> r[i] == i
  {
    if n == 0 then [] else Range(n - 1) + [n - 1]
  }

  /** Insert row `x` after every row whose key is not greater than its own. */
  function Insert(keys: seq<Cell>, x: nat, s: seq<nat>): (r: seq<nat>)
    requires x < |keys| && InRange(s, |keys|)
    ensures |r| == |s| + 1 && InRange(r, |keys|)
    ensures forall y :: y in r <==> y == x || y in s
  {
    if s == [] then [x]
    else if KeyLe(keys[s[0]], keys[x]) then
      assert s == [s[0]] + s[1..];
      [s[0]] + Insert(keys, x, s[1..])
    else [x] + s
  }

  /** The first `n` rows in stable sorted order (insertion sort). */
  function Order(keys: seq<Cell>, n: nat): (r: seq<nat>)
    requires n <= |keys|
    ensures |r| == n && InRange(r, |keys|)
  {
    if n == 0 then [] else Insert(keys, n - 1, Order(keys, n - 1))
  }

  function SortOrder(keys: seq<Cell>): (p: seq<nat>)
    ensures |p| == |keys| && InRange(p, |keys|)
  {
    Order(keys, |keys|)
  }

  lemma {:induction false} InsertMultiset(keys: seq<Cell>, x: nat, s: seq<nat>)
    requires x < |keys| && InRange(s, |keys|)
    ensures multiset(Insert(keys, x, s)) == multiset(s) + multiset{x}
  {
    if s != [] && KeyLe(keys[s[0]], keys[x]) {
      InsertMultiset(keys, x, s[1..]);
      assert s == [s[0]] + s[1..];
    }
  }

  /** No row is lost or repeated: the order is a permutation of the rows. */
  lemma {:induction false} OrderPermutation(keys: seq<Cell>, n: nat)
    requires n <= |keys|
    ensures multiset(Order(keys, n)) == multiset(Range(n))
  {
    if n > 0 {
      OrderPermutation(keys, n - 1);
      InsertMultiset(keys, n - 1, Order(keys, n - 1));
      assert Range(n) == Range(n - 1) + [n - 1];
    }
  }

  lemma {:induction false} InsertSorted(keys: seq<Cell>, x: nat, s: seq<nat>)
    requires x < |keys| && InRange(s, |keys|) && SortedBy(keys, s)
    ensures SortedBy(keys, Insert(keys, x, s))
  {
    var r := Insert(keys, x, s);
    if s == [] {
    } else if KeyLe(keys[s[0]], keys[x]) {
      InsertSorted(keys, x, s[1..]);
      var t := Insert(keys, x, s[1..]);
      assert r == [s[0]] + t;
      forall j | 0 <= j < |t|
        ensures KeyLe(keys[s[0]], keys[t[j]])
      {
        assert t[j] in t;
        if t[j] != x {
          var k :| 0 <= k < |s[1..]| && s[1..][k] == t[j];
          assert s[k + 1] == t[j];
        }
      }
    } else {
      KeyLeTotal(keys[s[0]], keys[x]);
      forall j | 0 <= j < |s|
        ensures KeyLe(keys[x], keys[s[j]])
      {
        if j > 0 {
          KeyLeTransitive(keys[x], keys[s[0]], keys[s[j]]);
        }
      }
    }
  }

  /** The order lists keys in non-decreasing order. */
  lemma {:induction false} OrderSorted(keys: seq<Cell>, n: nat)
    requires n <= |keys|
    ensures InRange(Order(keys, n), |keys|) && SortedBy(keys, Order(keys, n))
  {
    if n > 0 {
      OrderSorted(keys, n - 1);
      InsertSorted(keys, n - 1, Order(keys, n - 1));
    }
  }

  lemma {:induction false} InsertLast(keys: seq<Cell>, x: nat, s: seq<nat>)
    requires x < |keys| && InRange(s, |keys|)
    requires forall i :: 0 <= i < |s| ==> KeyLe(keys[s[i]], keys[x])
    ensures Insert(keys, x, s) == s + [x]
  {
    if s != [] {
      InsertLast(keys, x, s[1..]);
      assert s == [s[0]] + s[1..];
    }
  }

  /** On a column that is already sorted the order is the identity. */
  lemma {:induction false} OrderIdentity(keys: seq<Cell>, n: nat)
    requires n <= |keys| && Sorted(keys)
    ensures Order(keys, n) == Range(n)
  {
    if n > 0 {
      var s := Range(n - 1);
      OrderIdentity(keys, n - 1);
      forall i | 0 <= i < |s|
        ensures KeyLe(keys[s[i]], keys[n - 1])
      {
        assert s[i] == i;
      }
      InsertLast(keys, n - 1, s);
      assert Range(n) == s + [n - 1];
    }
  }

  /** A sequence with the multiset of `0..n-1` lists each row once. */
  lemma PermutationDistinct(p: seq<nat>, n: nat)
    requires multiset(p) == multiset(Range(n))
    ensures forall i, j :: 0 <= i < j < |p| ==> p[i] != p[j]
  {
    forall i, j | 0 <= i < j < |p|
      ensures p[i] != p[j]
    {
      RangeMultiplicity(n, p[i]);
      assert p == p[..i] + [p[i]] + p[i + 1..j] + [p[j]] + p[j + 1..];
    }
  }

  lemma {:induction false} RangeMultiplicity(n: nat, x: nat)
    ensures multiset(Range(n))[x] <= 1
  {
    if n > 0 {
      RangeMultiplicity(n - 1, x);
      if x == n - 1 {
        assert x !in Range(n - 1);
      }
    }
  }

  /** A sorting permutation: every row once, keys non-decreasing, identity on sorted input. */
  lemma SortOrderCorrect(keys: seq<Cell>)
    ensures InRange(SortOrder(keys), |keys|) && SortedBy(keys, SortOrder(keys))
    ensures multiset(SortOrder(keys)) == multiset(Range(|keys|))
    ensures forall i, j :: 0 <= i < j < |keys| ==> SortOrder(keys)[i] != SortOrder(keys)[j]
    ensures Sorted(keys) ==> SortOrder(keys) == Range(|keys|)
  {
    OrderSorted(keys, |keys|);
    OrderPermutation(keys, |keys|);
    PermutationDistinct(SortOrder(keys), |keys|);
    if Sorted(keys) {
      OrderIdentity(keys, |keys|);
    }
  }
}
