/**
 * The CRD availability cache of the progressive-delivery service
 * (pkg/services/crd/nocachefetcher.go): per cluster, the
 * CustomResourceDefinitions last listed there, refreshed on every lookup.
 *
 * The cluster client pool is not modelled as an object: every operation that
 * walks it receives `pool`, the clusters the pool knows at the time of the
 * call together with the outcome of each cluster's List call.
 */
module Crd {

  type Cluster = string

  /** A CustomResourceDefinition, reduced to the name the cache looks up. */
  datatype CustomResourceDefinition = CustomResourceDefinition(name: string)

  /** Outcome of one cluster client's List call for CustomResourceDefinitions. */
  datatype CrdListResult =
    | Listed(items: seq<CustomResourceDefinition>)
    | ListFailed(message: string)

  /** True iff `m1` and `m2` agree on `c`: both lack it, or both map it to the same list. */
  predicate SameEntry(m1: map<Cluster, seq<CustomResourceDefinition>>,
                      m2: map<Cluster, seq<CustomResourceDefinition>>, c: Cluster)
  {
    (c in m1 <==> c in m2) && (c in m1 ==> m1[c] == m2[c])
  }

  /** The entries written by a refresh: the clusters whose List call succeeded. */
  function Listings(pool: map<Cluster, CrdListResult>): map<Cluster, seq<CustomResourceDefinition>>
  {
    map c | c in pool && pool[c].Listed? :: pool[c].items
  }

  /**
   * The cache after one refresh over `pool`: a cluster whose List call
   * succeeded has its entry replaced wholesale, every other cluster (failed,
   * or not in the pool) keeps what it had.
   */
  function Refreshed(crds: map<Cluster, seq<CustomResourceDefinition>>,
                     pool: map<Cluster, CrdListResult>): (r: map<Cluster, seq<CustomResourceDefinition>>)
    ensures forall c :: c in pool && pool[c].Listed? ==> c in r && r[c] == pool[c].items
    ensures forall c :: c in pool && pool[c].ListFailed? ==> SameEntry(crds, r, c)
    ensures forall c :: c !in pool ==> SameEntry(crds, r, c)
    ensures r.Keys == crds.Keys + Listings(pool).Keys
  {
    crds + Listings(pool)
  }

  /** True iff the cached list of `clusterName` holds a definition called `name`. */
  predicate HasCrd(crds: map<Cluster, seq<CustomResourceDefinition>>, clusterName: Cluster, name: string)
  {
    clusterName in crds &&
    exists i :: 0 <= i < |crds[clusterName]| && crds[clusterName][i].name == name
  }

  /** Refreshing twice over the same outcomes leaves the cache as one refresh does. */
  lemma RefreshIdempotent(crds: map<Cluster, seq<CustomResourceDefinition>>,
                          pool: map<Cluster, CrdListResult>)
    ensures Refreshed(Refreshed(crds, pool), pool) == Refreshed(crds, pool)
  {
  }

  /** `k` refreshes in a row over the same outcomes. */
  function RefreshedTimes(crds: map<Cluster, seq<CustomResourceDefinition>>,
                          pool: map<Cluster, CrdListResult>, k: nat): map<Cluster, seq<CustomResourceDefinition>>
  {
    if k == 0 then crds else Refreshed(RefreshedTimes(crds, pool, k - 1), pool)
  }

  /**
   * However many lookups have refreshed the cache, as long as every List call
   * keeps its outcome the cache is what the first refresh made it; so every
   * lookup in such a run gives the same answer for the same cluster and name
   * (HasCrd of the cache, which the equality below fixes).
   */
  lemma {:induction false} RepeatedRefreshIsOneRefresh(crds: map<Cluster, seq<CustomResourceDefinition>>,
                                                       pool: map<Cluster, CrdListResult>, k: nat)
    requires k >= 1
    ensures RefreshedTimes(crds, pool, k) == Refreshed(crds, pool)
  {
    if k > 1 {
      RepeatedRefreshIsOneRefresh(crds, pool, k - 1);
      RefreshIdempotent(crds, pool);
    }
  }

  /**
   * Two refreshes in a row: for each cluster the last successful List call
   * wins, and a cluster neither call listed keeps its original entry.
   */
  lemma LastSuccessfulRefreshWins(crds: map<Cluster, seq<CustomResourceDefinition>>,
                                  first: map<Cluster, CrdListResult>,
                                  second: map<Cluster, CrdListResult>, c: Cluster)
    ensures c in second && second[c].Listed? ==>
      c in Refreshed(Refreshed(crds, first), second) &&
      Refreshed(Refreshed(crds, first), second)[c] == second[c].items
    ensures !(c in second && second[c].Listed?) && c in first && first[c].Listed? ==>
      c in Refreshed(Refreshed(crds, first), second) &&
      Refreshed(Refreshed(crds, first), second)[c] == first[c].items
    ensures !(c in second && second[c].Listed?) && !(c in first && first[c].Listed?) ==>
      SameEntry(crds, Refreshed(Refreshed(crds, first), second), c)
  {
  }

  /**
   * What a lookup answers after its refresh: for a cluster whose List call
   * succeeded, whether the listed items hold the name; for any other cluster,
   * the answer the cache gave before (stale but available), which is false
   * for a cluster the cache never listed.
   */
  lemma AvailabilityAfterRefresh(crds: map<Cluster, seq<CustomResourceDefinition>>,
                                 pool: map<Cluster, CrdListResult>, c: Cluster, name: string)
    ensures c in pool && pool[c].Listed? ==>
      (HasCrd(Refreshed(crds, pool), c, name) <==>
       exists i :: 0 <= i < |pool[c].items| && pool[c].items[i].name == name)
    ensures !(c in pool && pool[c].Listed?) ==>
      HasCrd(Refreshed(crds, pool), c, name) == HasCrd(crds, c, name)
    ensures c !in Refreshed(crds, pool) ==> !HasCrd(Refreshed(crds, pool), c, name)
  {
  }

  /** The cache state: the CRDs last listed per cluster. */
  class NoCacheFetcher {
    var crds: map<Cluster, seq<CustomResourceDefinition>>

    /** A fresh fetcher knows no cluster yet. */
    constructor ()
      ensures crds == map[]
    {
      crds := map[];
    }

    /**
     * Walks the pool's clients in unspecified order. A cluster whose List
     * call succeeded gets its entry replaced by the returned items; a failure
     * is swallowed and leaves the entry alone; clusters outside the pool are
     * not touched.
     */
    method UpdateCRDList(pool: map<Cluster, CrdListResult>)
      modifies this
      ensures crds == Refreshed(old(crds), pool)
    {
      var remaining := pool.Keys;
      while remaining != {}
        invariant remaining <= pool.Keys
        invariant forall c :: c in pool && c !in remaining && pool[c].Listed? ==>
          c in crds && crds[c] == pool[c].items
        invariant forall c :: !(c in pool && c !in remaining && pool[c].Listed?) ==>
          SameEntry(old(crds), crds, c)
        decreases remaining
      {
        var clusterName :| clusterName in remaining;
        if pool[clusterName].Listed? {
          crds := crds[clusterName := pool[clusterName].items];
        }
        remaining := remaining - {clusterName};
      }
      ghost var r := Refreshed(old(crds), pool);
      assert crds.Keys == r.Keys by {
        forall c | c in crds ensures c in r {
          assert !(c in pool && pool[c].Listed?) ==> SameEntry(old(crds), crds, c);
        }
        forall c | c in r ensures c in crds {
          assert !(c in pool && pool[c].Listed?) ==> SameEntry(old(crds), crds, c);
        }
      }
      forall c | c in crds ensures crds[c] == r[c] {
        assert !(c in pool && pool[c].Listed?) ==> SameEntry(old(crds), crds, c) && SameEntry(old(crds), r, c);
      }
    }

    /**
     * Refreshes the cache, then searches the cached list of `clusterName` for
     * a definition called `name`. A cluster without an entry has the empty
     * list, so the answer is false and nothing fails.
     */
    method IsAvailable(pool: map<Cluster, CrdListResult>, clusterName: Cluster, name: string)
      returns (available: bool)
      modifies this
      ensures crds == Refreshed(old(crds), pool)
      ensures available <==> HasCrd(crds, clusterName, name)
    {
      UpdateCRDList(pool);
      var list := if clusterName in crds then crds[clusterName] else [];
      var i := 0;
      while i < |list|
        invariant 0 <= i <= |list|
        invariant forall j :: 0 <= j < i ==> list[j].name != name
      {
        if list[i].name == name {
          return true;
        }
        i := i + 1;
      }
      return false;
    }
  }
}
