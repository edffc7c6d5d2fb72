/** Amounts added up per key in a Map, which keeps its keys in the order of their first use. */
module Buckets {
  datatype Entry<K> = Entry(key: K, amount: int)

  function Total<K>(es: seq<Entry<K>>): int
  {
    if es == [] then 0 else Total(es[..|es| - 1]) + es[|es| - 1].amount
  }

  function SumAt<K(==)>(es: seq<Entry<K>>, k: K): int
  {
    if es == [] then 0
    else SumAt(es[..|es| - 1], k) + if es[|es| - 1].key == k then es[|es| - 1].amount else 0
  }

  /** What the entries with one of these keys add up to. */
  function TotalWithin<K(==)>(es: seq<Entry<K>>, ks: seq<K>): int
  {
    if es == [] then 0
    else TotalWithin(es[..|es| - 1], ks) + if es[|es| - 1].key in ks then es[|es| - 1].amount else 0
  }

  /** The keys in the order of their first use. */
  function FirstSeen<K(==)>(es: seq<Entry<K>>): seq<K>
  {
    if es == [] then []
    else
      var init := FirstSeen(es[..|es| - 1]);
      if es[|es| - 1].key in init then init else init + [es[|es| - 1].key]
  }

  function SumsAt<K(==)>(es: seq<Entry<K>>, ks: seq<K>): (sums: seq<Entry<K>>)
    ensures |sums| == |ks|
  {
    seq(|ks|, i requires 0 <= i < |ks| => Entry(ks[i], SumAt(es, ks[i])))
  }

  /** The entries of the Map when every entry has been added. */
  function Fold<K(==)>(es: seq<Entry<K>>): seq<Entry<K>>
  {
    SumsAt(es, FirstSeen(es))
  }

  /** Array.from(map.entries()) of a Map with these keys in order */
  function EntriesOf<K(==)>(ks: seq<K>, sums: map<K, int>): seq<Entry<K>>
    requires forall k :: k in ks ==> k in sums
  {
    seq(|ks|, i requires 0 <= i < |ks| => Entry(ks[i], sums[ks[i]]))
  }

  lemma EntriesAreSums<K>(es: seq<Entry<K>>, ks: seq<K>, sums: map<K, int>)
    requires forall k :: k in ks ==> k in sums && sums[k] == SumAt(es, k)
    ensures EntriesOf(ks, sums) == SumsAt(es, ks)
  {
  }

  ghost predicate Distinct<K>(ks: seq<K>)
  {
    forall i, j :: 0 <= i < j < |ks| ==> ks[i] != ks[j]
  }

  lemma {:induction false} FirstSeenExact<K>(es: seq<Entry<K>>)
    ensures Distinct(FirstSeen(es))
    ensures forall i :: 0 <= i < |es| ==> es[i].key in FirstSeen(es)
    ensures forall k :: k in FirstSeen(es) ==> exists i :: 0 <= i < |es| && es[i].key == k
  {
    if es != [] {
      var init := es[..|es| - 1];
      FirstSeenExact(init);
      forall k | k in FirstSeen(init) ensures exists i :: 0 <= i < |es| && es[i].key == k {
        var i :| 0 <= i < |init| && init[i].key == k;
        assert es[i].key == k;
      }
      forall i | 0 <= i < |es| ensures es[i].key in FirstSeen(es) {
        assert i < |init| ==> init[i] == es[i];
      }
    }
  }

  /** One more entry adds its amount to the sum of its key, if that is among the distinct keys at all. */
  lemma {:induction false} OneMoreEntry<K>(es: seq<Entry<K>>, e: Entry<K>, ks: seq<K>)
    requires Distinct(ks)
    ensures Total(SumsAt(es + [e], ks)) == Total(SumsAt(es, ks)) + if e.key in ks then e.amount else 0
  {
    assert (es + [e])[..|es|] == es;
    if ks != [] {
      var init := ks[..|ks| - 1];
      OneMoreEntry(es, e, init);
      assert ks == init + [ks[|ks| - 1]];
      assert SumsAt(es, ks)[..|ks| - 1] == SumsAt(es, init);
      assert SumsAt(es + [e], ks)[..|ks| - 1] == SumsAt(es + [e], init);
    }
  }

  lemma {:induction false} NothingYet<K>(ks: seq<K>)
    ensures Total(SumsAt([], ks)) == 0
  {
    if ks != [] {
      NothingYet(ks[..|ks| - 1]);
      assert SumsAt([], ks)[..|ks| - 1] == SumsAt([], ks[..|ks| - 1]);
    }
  }

  /** Distinct keys collect exactly the entries that have one of them. */
  lemma {:induction false} SumsAreExact<K>(es: seq<Entry<K>>, ks: seq<K>)
    requires Distinct(ks)
    ensures Total(SumsAt(es, ks)) == TotalWithin(es, ks)
  {
    if es == [] {
      NothingYet(ks);
    } else {
      var init := es[..|es| - 1];
      SumsAreExact(init, ks);
      OneMoreEntry(init, es[|es| - 1], ks);
      assert es == init + [es[|es| - 1]];
    }
  }

  lemma {:induction false} AllWithin<K>(es: seq<Entry<K>>, ks: seq<K>)
    requires forall i :: 0 <= i < |es| ==> es[i].key in ks
    ensures TotalWithin(es, ks) == Total(es)
  {
    if es != [] {
      AllWithin(es[..|es| - 1], ks);
    }
  }

  /** Folding into buckets neither loses nor invents an amount. */
  lemma FoldConserves<K>(es: seq<Entry<K>>)
    ensures Total(Fold(es)) == Total(es)
  {
    FirstSeenExact(es);
    SumsAreExact(es, FirstSeen(es));
    AllWithin(es, FirstSeen(es));
  }

  ghost predicate Ascending<K>(es: seq<Entry<K>>, before: (K, K) -> bool)
  {
    forall i, j :: 0 <= i < j < |es| ==> es[i].key == es[j].key || before(es[i].key, es[j].key)
  }

  ghost predicate StrictlyAscending<K(!new)>(ks: seq<K>, before: (K, K) -> bool)
  {
    forall i, j :: 0 <= i < j < |ks| ==> before(ks[i], ks[j])
  }

  /** Entries that come in order leave the buckets in strict order, so sorting them changes nothing. */
  lemma {:induction false} OrderIsKept<K(!new)>(es: seq<Entry<K>>, before: (K, K) -> bool)
    requires Ascending(es, before)
    ensures StrictlyAscending(FirstSeen(es), before)
  {
    if es != [] {
      var init, last := es[..|es| - 1], es[|es| - 1];
      OrderIsKept(init, before);
      FirstSeenExact(init);
      if last.key !in FirstSeen(init) {
        forall i | 0 <= i < |FirstSeen(init)| ensures before(FirstSeen(init)[i], last.key) {
          var k := FirstSeen(init)[i];
          assert k in FirstSeen(init);
          var j :| 0 <= j < |init| && init[j].key == k;
          assert es[j].key == k && es[|es| - 1].key == last.key;
        }
      }
    }
  }
}
