/** Python's ordering of byte strings and `sorted()` over a list of them:
    lexicographic by character code, a proper prefix before its extensions. */
module PySort {

  /** `a <= b` on Python strings: a prefix is below its extensions, and
      otherwise the first character decides. */
  predicate Below(a: string, b: string)
    ensures a <= b ==> Below(a, b)
    ensures Below(a, b) && |a| > 0 ==> |b| > 0 && a[0] <= b[0]
  {
    |a| == 0 || (|b| > 0 && (a[0] < b[0] || (a[0] == b[0] && Below(a[1..], b[1..]))))
  }

  /** Any two strings are ordered one way or the other. */
  lemma {:induction false} BelowTotal(a: string, b: string)
    ensures Below(a, b) || Below(b, a)
  {
    if |a| > 0 && |b| > 0 && a[0] == b[0] {
      BelowTotal(a[1..], b[1..]);
    }
  }

  /** Strings ordered both ways are equal. */
  lemma {:induction false} BelowAntisymmetric(a: string, b: string)
    requires Below(a, b) && Below(b, a)
    ensures a == b
  {
    if |a| > 0 && |b| > 0 {
      BelowAntisymmetric(a[1..], b[1..]);
      assert a == [a[0]] + a[1..] && b == [b[0]] + b[1..];
    }
  }

  /** The order is transitive. */
  lemma {:induction false} BelowTransitive(a: string, b: string, c: string)
    requires Below(a, b) && Below(b, c)
    ensures Below(a, c)
  {
    if |a| > 0 && a[0] == b[0] && b[0] == c[0] {
      BelowTransitive(a[1..], b[1..], c[1..]);
    }
  }

  /** Every element is at most every later element. */
  predicate Sorted(s: seq<string>)
  {
    forall i, j :: 0 <= i < j < |s| ==> Below(s[i], s[j])
  }

  lemma {:induction false} BelowReflexive(a: string)
    ensures Below(a, a)
  {
    if |a| > 0 {
      BelowReflexive(a[1..]);
    }
  }

  /** A head at most every element of a sorted tail makes a sorted list. */
  lemma ConsSorted(h: string, t: seq<string>)
    requires Sorted(t)
    requires forall y :: y in multiset(t) ==> Below(h, y)
    ensures Sorted([h] + t)
  {
    var r := [h] + t;
    forall i, j | 0 <= i < j < |r| ensures Below(r[i], r[j]) {
      if i > 0 {
        assert r[i] == t[i - 1] && r[j] == t[j - 1];
      } else {
        assert r[j] == t[j - 1];
        assert t[j - 1] in multiset(t);
      }
    }
  }

  /** The head of a sorted list is at most every element of its tail. */
  lemma HeadBelowTail(s: seq<string>)
    requires Sorted(s) && s != []
    ensures forall y :: y in multiset(s[1..]) ==> Below(s[0], y)
  {
    forall y | y in multiset(s[1..]) ensures Below(s[0], y) {
      var j :| 0 <= j < |s[1..]| && s[1..][j] == y;
      assert s[j + 1] == y;
    }
  }

  /** `x` inserted into sorted `s` before the first element it is below. */
  function Insert(x: string, s: seq<string>): (r: seq<string>)
    requires Sorted(s)
    ensures multiset(r) == multiset(s) + multiset{x}
    ensures Sorted(r)
  {
    if s == [] then [x]
    else if Below(x, s[0]) then
      assert forall y :: y in multiset(s) ==> Below(x, y) by {
        forall y | y in multiset(s) ensures Below(x, y) {
          var j :| 0 <= j < |s| && s[j] == y;
          if j > 0 { BelowTransitive(x, s[0], s[j]); }
        }
      }
      ConsSorted(x, s);
      [x] + s
    else
      BelowTotal(x, s[0]);
      HeadBelowTail(s);
      assert s == [s[0]] + s[1..];
      var tail := Insert(x, s[1..]);
      ConsSorted(s[0], tail);
      [s[0]] + tail
  }

  /** `sorted(xs)`: the elements of `xs`, in ascending order. */
  function SortStrings(xs: seq<string>): (r: seq<string>)
    ensures multiset(r) == multiset(xs)
    ensures Sorted(r)
  {
    if xs == [] then []
    else
      assert xs == [xs[0]] + xs[1..];
      Insert(xs[0], SortStrings(xs[1..]))
  }

  lemma SortedTail(s: seq<string>)
    requires Sorted(s) && s != []
    ensures Sorted(s[1..])
  {
    forall i, j | 0 <= i < j < |s[1..]| ensures Below(s[1..][i], s[1..][j]) {
      assert s[1..][i] == s[i + 1] && s[1..][j] == s[j + 1];
    }
  }

  /** The head of a sorted list is at most each of its elements. */
  lemma SortedHeadBelow(s: seq<string>, y: string)
    requires Sorted(s) && y in multiset(s)
    ensures s != [] && Below(s[0], y)
  {
    var j :| 0 <= j < |s| && s[j] == y;
    if j == 0 { BelowReflexive(y); }
  }

  /** Two sorted orderings of the same strings start with the same string. */
  lemma SameHead(a: seq<string>, b: seq<string>)
    requires Sorted(a) && Sorted(b) && multiset(a) == multiset(b) && a != []
    ensures b != [] && a[0] == b[0]
  {
    assert a[0] in multiset(a);
    SortedHeadBelow(b, a[0]);
    assert b[0] in multiset(b);
    SortedHeadBelow(a, b[0]);
    BelowAntisymmetric(a[0], b[0]);
  }

  lemma SameTails(a: seq<string>, b: seq<string>)
    requires a != [] && b != [] && a[0] == b[0] && multiset(a) == multiset(b)
    ensures multiset(a[1..]) == multiset(b[1..])
  {
    assert a == [a[0]] + a[1..] && b == [b[0]] + b[1..];
    assert multiset(a[1..]) == multiset(a) - multiset{a[0]};
    assert multiset(b[1..]) == multiset(b) - multiset{b[0]};
  }

  /** Two sorted orderings of the same strings are the same list, so
      `SortStrings` is the one ordering `sorted()` can produce. */
  lemma {:induction false} SortedUnique(a: seq<string>, b: seq<string>)
    requires Sorted(a) && Sorted(b)
    requires multiset(a) == multiset(b)
    ensures a == b
  {
    if a == [] {
      assert |b| == |multiset(b)| == 0;
    } else {
      SameHead(a, b);
      SameTails(a, b);
      SortedTail(a);
      SortedTail(b);
      SortedUnique(a[1..], b[1..]);
      assert a == [a[0]] + a[1..] && b == [b[0]] + b[1..];
    }
  }
}
