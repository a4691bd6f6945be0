/**
  The part of the Prometheus client library the exporter relies on: a process-wide
  registry of collectors. A collector is identified by its metric name and its constant
  label values; registering one whose identity is already present makes `MustRegister`
  panic. The registry is modelled as the multiset of identities registered so far, so a
  key that occurs twice is exactly the state in which the program would have panicked.
 */
module Prometheus {

  /** The identity of one gauge: its name and the `city_id` and `city_name` constant labels. */
  datatype GaugeKey = GaugeKey(name: string, cityId: string, cityName: string)

  /** Pairwise different entries. */
  predicate Distinct<T(==)>(s: seq<T>) {
    forall i, j :: 0 <= i < j < |s| ==> s[i] != s[j]
  }

  /** No identity was registered twice, i.e. no `MustRegister` call has panicked. */
  predicate NoDuplicates(entries: multiset<GaugeKey>) {
    forall k :: k in entries ==> entries[k] == 1
  }

  class Registry {
    var entries: multiset<GaugeKey>

    /** Registers every key of `keys`. */
    method MustRegister(keys: seq<GaugeKey>)
      modifies this
      ensures entries == old(entries) + multiset(keys)
    {
      entries := entries + multiset(keys);
    }
  }

  lemma {:induction false} DistinctCounts<T>(s: seq<T>)
    requires Distinct(s)
    ensures forall x :: x in multiset(s) ==> multiset(s)[x] == 1
  {
    if s != [] {
      var init := s[..|s| - 1];
      var last := s[|s| - 1];
      assert s == init + [last];
      assert Distinct(init);
      DistinctCounts(init);
      assert last !in init;
      assert multiset(s) == multiset(init) + multiset{last};
    }
  }

  lemma {:induction false} CountsDistinct<T>(s: seq<T>)
    requires forall x :: x in multiset(s) ==> multiset(s)[x] == 1
    ensures Distinct(s)
  {
    if s != [] {
      var init := s[..|s| - 1];
      var last := s[|s| - 1];
      assert s == init + [last];
      assert multiset(s) == multiset(init) + multiset{last};
      assert multiset(s)[last] == multiset(init)[last] + 1;
      assert last !in multiset(init);
      forall x | x in multiset(init)
        ensures multiset(init)[x] == 1
      {
        assert multiset(s)[x] >= multiset(init)[x];
      }
      CountsDistinct(init);
      forall i, j | 0 <= i < j < |s|
        ensures s[i] != s[j]
      {
        if j < |s| - 1 {
          assert s[i] == init[i] && s[j] == init[j];
        } else {
          assert s[i] == init[i];
          assert init[i] in multiset(init);
        }
      }
    }
  }

  /**
    Registering `keys` into a registry without duplicates leaves it without duplicates
    exactly when `MustRegister` would not panic: the keys are pairwise different and none
    is registered already.
   */
  lemma RegisterKeepsNoDuplicates(entries: multiset<GaugeKey>, keys: seq<GaugeKey>)
    requires NoDuplicates(entries)
    ensures NoDuplicates(entries + multiset(keys))
        <==> Distinct(keys) && forall i :: 0 <= i < |keys| ==> keys[i] !in entries
  {
    var after := entries + multiset(keys);
    if NoDuplicates(after) {
      forall x | x in multiset(keys)
        ensures multiset(keys)[x] == 1
      {
        assert after[x] == entries[x] + multiset(keys)[x];
      }
      CountsDistinct(keys);
      forall i | 0 <= i < |keys|
        ensures keys[i] !in entries
      {
        assert keys[i] in multiset(keys);
        assert after[keys[i]] == entries[keys[i]] + multiset(keys)[keys[i]];
      }
    }
    if Distinct(keys) && forall i :: 0 <= i < |keys| ==> keys[i] !in entries {
      DistinctCounts(keys);
      forall x | x in after
        ensures after[x] == 1
      {
        if x in multiset(keys) {
          var i :| 0 <= i < |keys| && keys[i] == x;
          assert x !in entries;
        }
      }
    }
  }
}
