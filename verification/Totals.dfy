/** Sums over finite maps: the aggregates that the services ask the database for. */
module Totals {

  /** The smallest key, so that sums are taken in one fixed order. */
  function Least(s: set<nat>): (k: nat)
    requires s != {}
    ensures k in s && forall j :: j in s ==> k <= j
  {
    LeastExists(s);
    var k :| k in s && forall j :: j in s ==> k <= j;
    k
  }

  lemma LeastExists(s: set<nat>)
    requires s != {}
    ensures exists k :: k in s && forall j :: j in s ==> k <= j
  {
    var k := FindLeast(s);
  }

  lemma FindLeast(s: set<nat>) returns (k: nat)
    requires s != {}
    ensures k in s && forall j :: j in s ==> k <= j
  {
    k :| k in s;
    var rest := s - {k};
    assert forall j :: j in s ==> j == k || j in rest;
    if rest != {} {
      var least := FindLeast(rest);
      if least < k { k := least; }
    }
  }

  function Total(m: map<nat, int>): int
    decreases |m|
  {
    if m.Keys == {} then 0
    else
      var k := Least(m.Keys);
      assert |m.Keys| == |m|;
      assert (m - {k}).Keys == m.Keys - {k};
      assert |m - {k}| == |(m - {k}).Keys|;
      m[k] + Total(m - {k})
  }

  /** Any key may be taken out first. */
  lemma {:induction false} TotalDrop(m: map<nat, int>, k: nat)
    requires k in m
    ensures Total(m) == m[k] + Total(m - {k})
    decreases |m|
  {
    var j := Least(m.Keys);
    if j != k {
      var m1, m2 := m - {j}, m - {k};
      assert |m1.Keys| < |m.Keys| && |m2.Keys| < |m.Keys| by {
        assert m1.Keys == m.Keys - {j} && m2.Keys == m.Keys - {k};
      }
      assert |m1| == |m1.Keys| && |m2| == |m2.Keys| && |m| == |m.Keys|;
      TotalDrop(m1, k);
      TotalDrop(m2, j);
      assert m1 - {k} == m2 - {j};
    }
  }

  lemma TotalPut(m: map<nat, int>, k: nat, v: int)
    ensures Total(m[k := v]) == Total(m) - (if k in m then m[k] else 0) + v
  {
    TotalDrop(m[k := v], k);
    if k in m {
      TotalDrop(m, k);
      assert m[k := v] - {k} == m - {k};
    } else {
      assert m[k := v] - {k} == m;
    }
  }

  lemma {:induction false} TotalMonotone(m: map<nat, int>, n: map<nat, int>)
    requires m.Keys == n.Keys
    requires forall k :: k in m ==> m[k] <= n[k]
    ensures Total(m) <= Total(n)
    decreases |m|
  {
    if m.Keys != {} {
      var k := Least(m.Keys);
      assert |m.Keys| == |m| && (m - {k}).Keys == m.Keys - {k} && |m - {k}| == |(m - {k}).Keys|;
      TotalMonotone(m - {k}, n - {k});
    }
  }

  lemma {:induction false} TotalNonNegative(m: map<nat, int>)
    requires forall k :: k in m ==> m[k] >= 0
    ensures Total(m) >= 0
    ensures forall k :: k in m ==> m[k] <= Total(m)
    decreases |m|
  {
    if m.Keys != {} {
      forall k | k in m ensures m[k] <= Total(m) && Total(m) >= 0 {
        assert |m.Keys| == |m| && (m - {k}).Keys == m.Keys - {k} && |m - {k}| == |(m - {k}).Keys|;
        TotalDrop(m, k);
        TotalNonNegative(m - {k});
      }
      var k := Least(m.Keys);
      assert m[k] <= Total(m) && Total(m) >= 0;
    }
  }
}
