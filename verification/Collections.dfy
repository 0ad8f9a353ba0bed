/** Facts about sequences and sets that several components need. */
module Collections {

  function Elements<T(==)>(s: seq<T>): set<T> {
    set x | x in s
  }

  function Reversed<T>(p: seq<T>): (r: seq<T>)
    ensures |r| == |p| && forall i :: 0 <= i < |p| ==> r[i] == p[|p| - 1 - i]
  {
    if p == [] then [] else Reversed(p[1..]) + [p[0]]
  }

  lemma SubsetCount<T>(some: set<T>, all: set<T>)
    requires some <= all
    ensures |some| <= |all|
    ensures |some| == |all| ==> some == all
  {
    assert all == some + (all - some);
  }

  ghost predicate OneToOne<K, V>(m: map<K, V>) {
    forall j, k :: j in m && k in m && m[j] == m[k] ==> j == k
  }

  /** A map has no more values than keys, and as many exactly when it is one-to-one. */
  lemma {:induction false} ValueCount<K, V>(m: map<K, V>)
    ensures |m.Values| <= |m| && (|m.Values| == |m| <==> OneToOne(m))
    decreases |m|
  {
    if m == map[] {
      assert m.Values == {};
    } else {
      var k :| k in m;
      var rest := m - {k};
      assert m.Keys == rest.Keys + {k};
      assert |m.Keys| == |rest.Keys| + 1;
      ValueCount(rest);
      ValuesWith(m, k);
      if m[k] in rest.Values {
        var j :| j in rest && rest[j] == m[k];
        assert m.Values == rest.Values;
        assert j != k && m[j] == m[k];
      } else {
        assert OneToOne(m) <==> OneToOne(rest);
      }
    }
  }

  lemma ValuesWith<K, V>(m: map<K, V>, k: K)
    requires k in m
    ensures m.Values == (m - {k}).Values + {m[k]}
  {
    var rest := m - {k};
    forall v | v in m.Values ensures v in rest.Values + {m[k]} {
      var j :| j in m && m[j] == v;
      if j != k {
        assert rest[j] == v;
      }
    }
  }
}
