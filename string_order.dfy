/**
 * The order of Go's string comparison (byte by byte, a proper prefix first)
 * and sort.Strings, which the command listing uses.
 */
module StringOrder {

  /** `a` sorts no later than `b`. */
  predicate Below(a: string, b: string)
  {
    a == [] || (b != [] && (a[0] < b[0] || (a[0] == b[0] && Below(a[1..], b[1..]))))
  }

  lemma {:induction false} BelowTotal(a: string, b: string)
    ensures Below(a, b) || Below(b, a)
  {
    if a != [] && b != [] && a[0] == b[0] {
      BelowTotal(a[1..], b[1..]);
    }
  }

  lemma {:induction false} BelowAntisymmetric(a: string, b: string)
    requires Below(a, b) && Below(b, a)
    ensures a == b
  {
    if a != [] && b != [] {
      BelowAntisymmetric(a[1..], b[1..]);
      assert a == [a[0]] + a[1..] && b == [b[0]] + b[1..];
    }
  }

  lemma {:induction false} BelowTransitive(a: string, b: string, c: string)
    requires Below(a, b) && Below(b, c)
    ensures Below(a, c)
  {
    if a != [] && b != [] && c != [] && a[0] == b[0] && b[0] == c[0] {
      BelowTransitive(a[1..], b[1..], c[1..]);
    }
  }

  /** Ascending order. */
  predicate Sorted(s: seq<string>)
  {
    forall i, j :: 0 <= i < j < |s| ==> Below(s[i], s[j])
  }

  /** No string occurs twice. */
  predicate Distinct(s: seq<string>)
  {
    forall i, j :: 0 <= i < j < |s| ==> s[i] != s[j]
  }

  /** A sequence has no repeats exactly when its multiset counts every string at most once. */
  lemma {:induction false} DistinctCounts(s: seq<string>)
    ensures Distinct(s) <==> forall x :: multiset(s)[x] <= 1
  {
    if s != [] {
      var n := |s| - 1;
      DistinctCounts(s[..n]);
      assert s == s[..n] + [s[n]];
      assert multiset(s) == multiset(s[..n]) + multiset{s[n]};
      if Distinct(s) {
        assert Distinct(s[..n]);
        assert s[n] !in s[..n];
      } else {
        var i, j :| 0 <= i < j < |s| && s[i] == s[j];
        if j < n {
          assert s[..n][i] == s[..n][j];
          assert !Distinct(s[..n]);
          var x :| multiset(s[..n])[x] > 1;
          assert multiset(s)[x] > 1;
        } else {
          assert s[i] in s[..n];
          assert multiset(s)[s[n]] >= 2;
        }
      }
    }
  }

  /** Two ascending sequences without repeats that hold the same strings are the same sequence. */
  lemma {:induction false} SortedUnique(s: seq<string>, t: seq<string>)
    requires Sorted(s) && Distinct(s) && Sorted(t) && Distinct(t)
    requires forall x :: x in s <==> x in t
    ensures s == t
    decreases |s|
  {
    if s == [] {
      assert forall i :: 0 <= i < |t| ==> t[i] !in s;
    } else {
      assert s[0] in s;
      assert t != [];
      assert t[0] in t;
      var k :| 0 <= k < |t| && t[k] == s[0];
      var m :| 0 <= m < |s| && s[m] == t[0];
      assert s[0] == t[0] by {
        if s[0] != t[0] {
          assert Below(s[0], s[m]);
          assert Below(t[0], t[k]);
          BelowAntisymmetric(s[0], t[0]);
        }
      }
      forall x
        ensures x in s[1..] <==> x in t[1..]
      {
        if x in s[1..] {
          var i :| 0 <= i < |s| - 1 && s[1..][i] == x;
          assert s[i + 1] == x && x != s[0];
          assert x in s;
          var j :| 0 <= j < |t| && t[j] == x;
          assert j != 0 && t[1..][j - 1] == x;
        }
        if x in t[1..] {
          var i :| 0 <= i < |t| - 1 && t[1..][i] == x;
          assert t[i + 1] == x && x != t[0];
          assert x in t;
          var j :| 0 <= j < |s| && s[j] == x;
          assert j != 0 && s[1..][j - 1] == x;
        }
      }
      SortedUnique(s[1..], t[1..]);
      assert s == [s[0]] + s[1..] && t == [t[0]] + t[1..];
    }
  }

  /** Inserts `x` into an ascending sequence after every string that sorts no later than it. */
  method Insert(t: seq<string>, x: string) returns (u: seq<string>)
    requires Sorted(t)
    ensures Sorted(u)
    ensures multiset(u) == multiset(t) + multiset{x}
  {
    var j := 0;
    while j < |t| && Below(t[j], x)
      invariant 0 <= j <= |t|
      invariant forall k :: 0 <= k < j ==> Below(t[k], x)
    {
      j := j + 1;
    }
    if j < |t| {
      BelowTotal(t[j], x);
      forall k | j <= k < |t|
        ensures Below(x, t[k])
      {
        if k > j {
          BelowTransitive(x, t[j], t[k]);
        }
      }
    }
    u := t[..j] + [x] + t[j..];
    assert t == t[..j] + t[j..];
    forall a, b | 0 <= a < b < |u|
      ensures Below(u[a], u[b])
    {
      if a < j && b > j {
        BelowTransitive(u[a], x, u[b]);
      }
    }
  }

  /** sort.Strings: the strings in ascending order, each kept as often as it occurs. */
  method SortStrings(s: seq<string>) returns (t: seq<string>)
    ensures Sorted(t)
    ensures multiset(t) == multiset(s)
  {
    t := [];
    for i := 0 to |s|
      invariant Sorted(t)
      invariant multiset(t) == multiset(s[..i])
    {
      assert s[..i + 1] == s[..i] + [s[i]];
      t := Insert(t, s[i]);
    }
    assert s[..|s|] == s;
  }
}
