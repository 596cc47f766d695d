/**
 * Python's ordering of strings (code point by code point, a proper prefix
 * first) and `sorted` of a set of strings.
 */
module StringOrder {

  /** `a < b` on strings. */
  predicate Below(a: string, b: string)
    decreases |a|
  {
    |b| > 0 && (|a| == 0 || a[0] < b[0] || (a[0] == b[0] && Below(a[1..], b[1..])))
  }

  lemma {:induction false} BelowIrreflexive(a: string)
    ensures !Below(a, a)
    decreases |a|
  {
    if |a| > 0 {
      BelowIrreflexive(a[1..]);
    }
  }

  lemma {:induction false} BelowTransitive(a: string, b: string, c: string)
    requires Below(a, b) && Below(b, c)
    ensures Below(a, c)
    decreases |a|
  {
    if |a| > 0 && a[0] == b[0] && b[0] == c[0] {
      BelowTransitive(a[1..], b[1..], c[1..]);
    }
  }

  lemma {:induction false} BelowAsymmetric(a: string, b: string)
    requires Below(a, b)
    ensures !Below(b, a)
    decreases |a|
  {
    if |a| > 0 && a[0] == b[0] {
      BelowAsymmetric(a[1..], b[1..]);
    }
  }

  /** Any two different strings are ordered one way or the other. */
  lemma {:induction false} BelowTotal(a: string, b: string)
    ensures a == b || Below(a, b) || Below(b, a)
    decreases |a|
  {
    if |a| > 0 && |b| > 0 && a[0] == b[0] {
      BelowTotal(a[1..], b[1..]);
      assert a == [a[0]] + a[1..] && b == [b[0]] + b[1..];
    }
  }

  /** `m` is the smallest member of `s`. */
  predicate Least(m: string, s: set<string>) {
    m in s && forall y :: y in s && y != m ==> Below(m, y)
  }

  lemma {:induction false} LeastExists(s: set<string>)
    requires s != {}
    ensures exists m :: Least(m, s)
    decreases |s|
  {
    var x :| x in s;
    if s == {x} {
      assert Least(x, s);
    } else {
      LeastExists(s - {x});
      var m :| Least(m, s - {x});
      BelowTotal(x, m);
      if Below(x, m) {
        forall y | y in s && y != x ensures Below(x, y) {
          if y != m {
            BelowTransitive(x, m, y);
          }
        }
        assert Least(x, s);
      } else {
        assert Least(m, s);
      }
    }
  }

  lemma LeastUnique(s: set<string>)
    ensures forall a, b :: Least(a, s) && Least(b, s) ==> a == b
  {
    forall a, b | Least(a, s) && Least(b, s) ensures a == b {
      if a != b {
        BelowAsymmetric(a, b);
      }
    }
  }

  /** `sorted(s)` */
  function SortedSet(s: set<string>): seq<string>
    decreases s
  {
    if s == {} then []
    else
      LeastExists(s);
      LeastUnique(s);
      var m :| Least(m, s);
      [m] + SortedSet(s - {m})
  }

  predicate StrictlyAscending(r: seq<string>) {
    forall i, j :: 0 <= i < j < |r| ==> Below(r[i], r[j])
  }

  /** `sorted` of a set lists every member once, in ascending order. */
  lemma {:induction false} SortedSetSpec(s: set<string>)
    ensures StrictlyAscending(SortedSet(s))
    ensures forall x :: x in SortedSet(s) <==> x in s
    ensures |SortedSet(s)| == |s|
    decreases s
  {
    if s != {} {
      LeastExists(s);
      LeastUnique(s);
      var m :| Least(m, s);
      var rest := SortedSet(s - {m});
      SortedSetSpec(s - {m});
      assert SortedSet(s) == [m] + rest;
      forall i, j | 0 <= i < j < |[m] + rest| ensures Below(([m] + rest)[i], ([m] + rest)[j]) {
        if i == 0 {
          assert rest[j - 1] in s - {m};
        }
      }
    }
  }

  /** A strictly ascending list is determined by its members. */
  lemma {:induction false} AscendingUnique(r: seq<string>, t: seq<string>)
    requires StrictlyAscending(r) && StrictlyAscending(t)
    requires forall x :: x in r <==> x in t
    ensures r == t
    decreases |r|
  {
    if |r| > 0 {
      assert r[0] in t;
    }
    if |t| > 0 {
      assert t[0] in r;
    }
    if |r| > 0 {
      var j :| 0 <= j < |t| && t[j] == r[0];
      var i :| 0 <= i < |r| && r[i] == t[0];
      if i > 0 && j > 0 {
        BelowAsymmetric(r[0], t[0]);
        assert false;
      }
      assert r[0] == t[0];
      forall x ensures x in r[1..] <==> x in t[1..] {
        if x in r[1..] {
          var i :| 1 <= i < |r| && r[i] == x;
          BelowIrreflexive(x);
          assert x != r[0] && x in r;
          assert x in t;
          var j :| 0 <= j < |t| && t[j] == x;
          assert j != 0 && t[1..][j - 1] == x;
        }
        if x in t[1..] {
          var i :| 1 <= i < |t| && t[i] == x;
          BelowIrreflexive(x);
          assert x != t[0] && x in t;
          assert x in r;
          var j :| 0 <= j < |r| && r[j] == x;
          assert j != 0 && r[1..][j - 1] == x;
        }
      }
      AscendingUnique(r[1..], t[1..]);
      assert r == [r[0]] + r[1..] && t == [t[0]] + t[1..];
    }
  }
}
