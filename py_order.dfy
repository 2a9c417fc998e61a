/**
 * Python's ordering of `str` values and `sorted(set(xs))`: the duplicate-free list of the
 * elements of `xs` in ascending order.
 */
module PyOrder {

  /** Python's `a < b` on `str`: code-point lexicographic order, a proper prefix sorting first. */
  predicate Less(a: string, b: string)
    decreases |a|
  {
    |b| > 0 && (|a| == 0 || a[0] < b[0] || (a[0] == b[0] && Less(a[1..], b[1..])))
  }

  lemma {:induction false} LessIrreflexive(a: string)
    ensures !Less(a, a)
  {
    if |a| > 0 {
      LessIrreflexive(a[1..]);
    }
  }

  lemma {:induction false} LessTransitive(a: string, b: string, c: string)
    requires Less(a, b) && Less(b, c)
    ensures Less(a, c)
  {
    if |a| > 0 && a[0] == b[0] && b[0] == c[0] {
      LessTransitive(a[1..], b[1..], c[1..]);
    }
  }

  lemma {:induction false} LessTotal(a: string, b: string)
    requires a != b
    ensures Less(a, b) || Less(b, a)
  {
    if |a| > 0 && |b| > 0 && a[0] == b[0] {
      assert a == [a[0]] + a[1..] && b == [b[0]] + b[1..];
      LessTotal(a[1..], b[1..]);
    }
  }

  lemma LessAsymmetric(a: string, b: string)
    requires Less(a, b)
    ensures !Less(b, a)
  {
    if Less(b, a) {
      LessTransitive(a, b, a);
      LessIrreflexive(a);
    }
  }

  /** Every element is strictly below every later one: ascending and duplicate-free. */
  predicate StrictlySorted(s: seq<string>)
  {
    forall i, j | 0 <= i < j < |s| :: Less(s[i], s[j])
  }

  /** Inserts `x` into its place in `s` unless it is already there. */
  function InsertUnique(x: string, s: seq<string>): (r: seq<string>)
    requires StrictlySorted(s)
    ensures StrictlySorted(r)
    ensures forall e :: e in r <==> e in s || e == x
    ensures |r| <= |s| + 1
  {
    if |s| == 0 then [x]
    else if x == s[0] then s
    else if Less(x, s[0]) then
      assert forall j | 0 < j < |s| :: Less(x, s[j]) by {
        forall j | 0 < j < |s| ensures Less(x, s[j]) { LessTransitive(x, s[0], s[j]); }
      }
      [x] + s
    else
      LessTotal(x, s[0]);
      var t := InsertUnique(x, s[1..]);
      assert forall e | e in t :: Less(s[0], e);
      [s[0]] + t
  }

  /** `sorted(set(xs))` */
  function SortUnique(xs: seq<string>): (r: seq<string>)
    ensures StrictlySorted(r)
    ensures |r| <= |xs|
  {
    if |xs| == 0 then [] else InsertUnique(xs[0], SortUnique(xs[1..]))
  }

  /** `sorted(set(xs))` holds exactly the elements of `xs`. */
  lemma {:induction false} SortUniqueMembers(xs: seq<string>)
    ensures forall e :: e in SortUnique(xs) <==> e in xs
  {
    if |xs| > 0 {
      SortUniqueMembers(xs[1..]);
      assert forall e :: e in xs <==> e == xs[0] || e in xs[1..];
    }
  }

  /** A strictly sorted list is determined by its elements. */
  lemma {:induction false} StrictlySortedUnique(a: seq<string>, b: seq<string>)
    requires StrictlySorted(a) && StrictlySorted(b)
    requires forall e :: e in a <==> e in b
    ensures a == b
  {
    assert |a| > 0 ==> a[0] in b;
    assert |b| > 0 ==> b[0] in a;
    if |a| > 0 && |b| > 0 {
      assert a[0] in b && b[0] in a;
      if a[0] != b[0] {
        var k :| 0 <= k < |a| && a[k] == b[0];
        var m :| 0 <= m < |b| && b[m] == a[0];
        assert Less(a[0], b[0]);
        assert Less(b[0], a[0]);
        LessAsymmetric(a[0], b[0]);
      }
      forall e ensures e in a[1..] <==> e in b[1..] {
        if e in a[1..] {
          var i :| 1 <= i < |a| && a[i] == e;
          LessIrreflexive(e);
          assert e != a[0] && e in b;
          var j :| 0 <= j < |b| && b[j] == e;
          assert j != 0 && b[1..][j - 1] == e;
        }
        if e in b[1..] {
          var i :| 1 <= i < |b| && b[i] == e;
          LessIrreflexive(e);
          assert e != b[0] && e in a;
          var j :| 0 <= j < |a| && a[j] == e;
          assert j != 0 && a[1..][j - 1] == e;
        }
      }
      StrictlySortedUnique(a[1..], b[1..]);
    }
  }

  /** Sorting a list that is already strictly sorted gives it back. */
  lemma SortUniqueOfSorted(xs: seq<string>)
    requires StrictlySorted(xs)
    ensures SortUnique(xs) == xs
  {
    SortUniqueMembers(xs);
    StrictlySortedUnique(SortUnique(xs), xs);
  }

  /** A prefix of a strictly sorted list is strictly sorted. */
  lemma TakeStrictlySorted(s: seq<string>, n: nat)
    requires StrictlySorted(s)
    ensures StrictlySorted(if n < |s| then s[..n] else s)
  {
  }
}
