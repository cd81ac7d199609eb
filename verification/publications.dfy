// From per-cluster endpoint lists to the resource list a save publishes, for
// every order in which a map may be traversed.
module Publications {
  import opened Endpoints
  import opened Seqs
  import opened Text

  function At(lb: LbMap, cluster: string): seq<Locality> {
    if cluster in lb then lb[cluster] else []
  }

  /** Static lists first, then what discovery found for the same cluster. */
  function Merge(statics: LbMap, dynamics: LbMap): LbMap {
    map k | k in statics.Keys + dynamics.Keys :: At(statics, k) + At(dynamics, k)
  }

  /** What discovery returns: a cluster appears only with a first endpoint, one endpoint a locality. */
  predicate Discovered(dynamics: LbMap) {
    forall k :: k in dynamics ==>
      dynamics[k] != [] && forall i :: 0 <= i < |dynamics[k]| ==> |dynamics[k][i].lbEndpoints| == 1
  }

  function NameOf(load: ClusterLoad): string {
    load.clusterName
  }

  function Names(eps: seq<ClusterLoad>): set<string> {
    set i | 0 <= i < |eps| :: eps[i].clusterName
  }

  /** One resource for every cluster of the map, in some order. */
  predicate IsPublication(lb: LbMap, eps: seq<ClusterLoad>) {
    && Distinct(Map(NameOf, eps))
    && Names(eps) == lb.Keys
    && forall i :: 0 <= i < |eps| ==> eps[i].clusterName in lb && eps[i].endpoints == lb[eps[i].clusterName]
  }

  function EntriesAt(lb: LbMap, cluster: string): seq<Entry> {
    LocalityEntries(cluster, At(lb, cluster))
  }

  ghost predicate SameEntries(a: LbMap, b: LbMap) {
    forall k :: multiset(EntriesAt(a, k)) == multiset(EntriesAt(b, k))
  }

  // ----- entries of joined lists

  lemma LocalityEntriesNext(cluster: string, locs: seq<Locality>, loc: Locality)
    ensures LocalityEntries(cluster, locs + [loc]) ==
            LocalityEntries(cluster, locs) + LbEntries(cluster, loc.zone, loc.priority, loc.lbEndpoints)
  {
    assert (locs + [loc])[..|locs|] == locs;
  }

  lemma {:induction false} LocalityEntriesAppend(cluster: string, a: seq<Locality>, b: seq<Locality>)
    ensures LocalityEntries(cluster, a + b) == LocalityEntries(cluster, a) + LocalityEntries(cluster, b)
  {
    if b == [] {
      assert a + b == a;
    } else {
      hide LocalityEntries, LbEntries;
      var short, last := b[..|b| - 1], b[|b| - 1];
      assert b == short + [last] && a + b == a + short + [last];
      LocalityEntriesAppend(cluster, a, short);
      LocalityEntriesNext(cluster, short, last);
      LocalityEntriesNext(cluster, a + short, last);
    }
  }

  lemma {:induction false} LocalityEntriesCluster(cluster: string, locs: seq<Locality>)
    ensures forall e :: e in LocalityEntries(cluster, locs) ==> e.cluster == cluster
  {
    if locs != [] {
      LocalityEntriesCluster(cluster, locs[..|locs| - 1]);
    }
  }

  lemma LocalityEntriesWithout(cluster: string, locs: seq<Locality>, i: nat)
    requires i < |locs|
    ensures multiset(LocalityEntries(cluster, locs)) ==
            multiset(LocalityEntries(cluster, Without(locs, i))) + multiset(LocalityEntries(cluster, [locs[i]]))
  {
    assert locs == locs[..i] + ([locs[i]] + locs[i + 1..]);
    LocalityEntriesAppend(cluster, locs[..i], [locs[i]] + locs[i + 1..]);
    LocalityEntriesAppend(cluster, [locs[i]], locs[i + 1..]);
    LocalityEntriesAppend(cluster, locs[..i], locs[i + 1..]);
  }

  /** A lister may return endpoints in any order: the entries are the same. */
  lemma {:induction false} PermutedLocalities(cluster: string, a: seq<Locality>, b: seq<Locality>)
    requires multiset(a) == multiset(b)
    ensures multiset(LocalityEntries(cluster, a)) == multiset(LocalityEntries(cluster, b))
  {
    if a == [] {
      assert |multiset(b)| == 0;
    } else {
      assert a[0] in multiset(b);
      var k := Find(a[0], b);
      LocalityEntriesWithout(cluster, a, 0);
      LocalityEntriesWithout(cluster, b, k);
      PermutedLocalities(cluster, Without(a, 0), Without(b, k));
    }
  }

  // ----- a publication holds each cluster's entries and no others

  lemma DropLast(lb: LbMap, eps: seq<ClusterLoad>)
    requires IsPublication(lb, eps) && eps != []
    ensures IsPublication(lb - {eps[|eps| - 1].clusterName}, eps[..|eps| - 1])
  {
    var n := |eps| - 1;
    var short := eps[..n];
    assert forall i :: 0 <= i < n ==> Map(NameOf, eps)[i] == short[i].clusterName;
    assert Map(NameOf, eps)[n] == eps[n].clusterName;
    forall k | k in lb && k != eps[n].clusterName ensures k in Names(short) {
      var i :| 0 <= i < |eps| && eps[i].clusterName == k;
      assert short[i].clusterName == k;
    }
  }

  /** How often an entry is published is how often its own cluster's list holds it. */
  lemma {:induction false} PublicationCount(lb: LbMap, eps: seq<ClusterLoad>, e: Entry)
    requires IsPublication(lb, eps)
    ensures multiset(Entries(eps))[e] == multiset(EntriesAt(lb, e.cluster))[e]
  {
    if eps == [] {
      assert lb.Keys == {};
    } else {
      var last := eps[|eps| - 1];
      var rest := lb - {last.clusterName};
      DropLast(lb, eps);
      PublicationCount(rest, eps[..|eps| - 1], e);
      LocalityEntriesCluster(last.clusterName, last.endpoints);
      if e.cluster == last.clusterName {
        assert At(rest, e.cluster) == [];
      } else {
        assert At(rest, e.cluster) == At(lb, e.cluster);
        assert e !in multiset(LocalityEntries(last.clusterName, last.endpoints));
      }
    }
  }

  lemma PublishOne(lb: LbMap, remaining: set<string>, eps: seq<ClusterLoad>, k: string)
    requires k in remaining && remaining <= lb.Keys
    requires IsPublication(lb - remaining, eps)
    ensures IsPublication(lb - (remaining - {k}), eps + [ClusterLoad(k, lb[k])])
  {
    var more := eps + [ClusterLoad(k, lb[k])];
    var names := Map(NameOf, eps);
    assert forall i :: 0 <= i < |eps| ==> names[i] == eps[i].clusterName && names[i] in Names(eps);
    assert k !in Names(eps);
    assert Map(NameOf, more) == names + [k];
    assert forall i :: 0 <= i < |eps| ==> more[i] == eps[i];
    assert more[|eps|].clusterName == k;
    assert Names(more) == Names(eps) + {k};
  }

  lemma {:induction false} PublicationExists(lb: LbMap) returns (eps: seq<ClusterLoad>)
    ensures IsPublication(lb, eps)
    decreases lb.Keys
  {
    if lb.Keys == {} {
      eps := [];
    } else {
      var k :| k in lb;
      var rest := PublicationExists(lb - {k});
      hide IsPublication;
      PublishOne(lb, {k}, rest, k);
      assert {k} - {k} == {} && lb - {} == lb;
      eps := rest + [ClusterLoad(k, lb[k])];
    }
  }

  lemma PublicationPossible(lb: LbMap)
    ensures exists eps :: IsPublication(lb, eps)
  {
    var eps := PublicationExists(lb);
  }

  /** The fingerprint of these lists alone, whatever their order. */
  ghost function FingerprintOf(lb: LbMap): (lines: seq<string>)
    ensures forall eps :: IsPublication(lb, eps) ==> Fingerprint(eps) == lines
  {
    PublicationPossible(lb);
    var eps :| IsPublication(lb, eps);
    assert forall other :: IsPublication(lb, other) ==> Fingerprint(other) == Fingerprint(eps) by {
      forall other | IsPublication(lb, other) ensures Fingerprint(other) == Fingerprint(eps) {
        FingerprintCanonical(lb, other, lb, eps);
      }
    }
    Fingerprint(eps)
  }

  lemma MergedAt(statics: LbMap, dynamics: LbMap, k: string)
    ensures At(Merge(statics, dynamics), k) == At(statics, k) + At(dynamics, k)
  {
  }

  lemma MergeNothing(statics: LbMap)
    ensures Merge(statics, map[]) == statics
  {
    forall k | k in statics ensures Merge(statics, map[])[k] == statics[k] {
      assert At(statics, k) + At(map[], k) == statics[k];
    }
  }

  /** A publication shows what the static lists alone and the discovered ones alone would show. */
  lemma PublishedParts(statics: LbMap, dynamics: LbMap, eps: seq<ClusterLoad>, fixed: seq<ClusterLoad>, found: seq<ClusterLoad>)
    requires IsPublication(Merge(statics, dynamics), eps) && IsPublication(statics, fixed) && IsPublication(dynamics, found)
    ensures multiset(Entries(eps)) == multiset(Entries(fixed) + Entries(found))
  {
    hide IsPublication, Merge, Entries;
    forall e: Entry ensures multiset(Entries(eps))[e] == multiset(Entries(fixed) + Entries(found))[e] {
      PublicationCount(Merge(statics, dynamics), eps, e);
      PublicationCount(statics, fixed, e);
      PublicationCount(dynamics, found, e);
      MergedAt(statics, dynamics, e.cluster);
      LocalityEntriesAppend(e.cluster, At(statics, e.cluster), At(dynamics, e.cluster));
    }
  }

  lemma SameListsSameEntries(lbA: LbMap, a: seq<ClusterLoad>, lbB: LbMap, b: seq<ClusterLoad>)
    requires IsPublication(lbA, a) && IsPublication(lbB, b)
    requires SameEntries(lbA, lbB)
    ensures multiset(Entries(a)) == multiset(Entries(b))
  {
    forall e: Entry ensures multiset(Entries(a))[e] == multiset(Entries(b))[e] {
      PublicationCount(lbA, a, e);
      PublicationCount(lbB, b, e);
    }
  }

  lemma SameEntriesSameList(lbA: LbMap, a: seq<ClusterLoad>, lbB: LbMap, b: seq<ClusterLoad>, k: string)
    requires IsPublication(lbA, a) && IsPublication(lbB, b)
    requires multiset(Entries(a)) == multiset(Entries(b))
    ensures multiset(EntriesAt(lbA, k)) == multiset(EntriesAt(lbB, k))
  {
    LocalityEntriesCluster(k, At(lbA, k));
    LocalityEntriesCluster(k, At(lbB, k));
    forall e: Entry ensures multiset(EntriesAt(lbA, k))[e] == multiset(EntriesAt(lbB, k))[e] {
      if e.cluster == k {
        PublicationCount(lbA, a, e);
        PublicationCount(lbB, b, e);
      } else {
        assert e !in EntriesAt(lbA, k) && e !in EntriesAt(lbB, k);
      }
    }
  }

  /** Publications hold the same entries exactly when every cluster's lists do. */
  lemma PublicationEntries(lbA: LbMap, a: seq<ClusterLoad>, lbB: LbMap, b: seq<ClusterLoad>)
    requires IsPublication(lbA, a) && IsPublication(lbB, b)
    ensures multiset(Entries(a)) == multiset(Entries(b)) <==> SameEntries(lbA, lbB)
  {
    if SameEntries(lbA, lbB) {
      SameListsSameEntries(lbA, a, lbB, b);
    }
    if multiset(Entries(a)) == multiset(Entries(b)) {
      forall k ensures multiset(EntriesAt(lbA, k)) == multiset(EntriesAt(lbB, k)) {
        SameEntriesSameList(lbA, a, lbB, b, k);
      }
    }
  }

  /** Neither the traversal order of the maps nor the order inside a cluster's
      list shows in the fingerprint. */
  lemma FingerprintCanonical(lbA: LbMap, a: seq<ClusterLoad>, lbB: LbMap, b: seq<ClusterLoad>)
    requires IsPublication(lbA, a) && IsPublication(lbB, b)
    requires forall k :: multiset(At(lbA, k)) == multiset(At(lbB, k))
    ensures Fingerprint(a) == Fingerprint(b)
  {
    forall k ensures multiset(EntriesAt(lbA, k)) == multiset(EntriesAt(lbB, k)) {
      PermutedLocalities(k, At(lbA, k), At(lbB, k));
    }
    PublicationEntries(lbA, a, lbB, b);
    SameEntriesSameFingerprint(a, b);
  }

  // ----- which clusters are published

  lemma PublishedEntry(lb: LbMap, eps: seq<ClusterLoad>, e: Entry)
    requires IsPublication(lb, eps)
    ensures e in Entries(eps) <==> e in EntriesAt(lb, e.cluster)
  {
    PublicationCount(lb, eps, e);
    assert e in Entries(eps) <==> e in multiset(Entries(eps));
    assert e in EntriesAt(lb, e.cluster) <==> e in multiset(EntriesAt(lb, e.cluster));
  }

  lemma DiscoveredEntry(statics: LbMap, dynamics: LbMap, k: string) returns (e: Entry)
    requires Discovered(dynamics) && k in dynamics
    ensures e.cluster == k && e in EntriesAt(Merge(statics, dynamics), k)
  {
    var locs := At(statics, k) + dynamics[k];
    var last := locs[|locs| - 1];
    assert last == dynamics[k][|dynamics[k]| - 1];
    e := LbEntries(k, last.zone, last.priority, last.lbEndpoints)[0];
    assert locs == At(Merge(statics, dynamics), k);
  }

  /** Every cluster is a static one or has an endpoint of its own. */
  lemma PublishedNames(statics: LbMap, dynamics: LbMap, eps: seq<ClusterLoad>, k: string)
    requires Discovered(dynamics) && IsPublication(Merge(statics, dynamics), eps)
    ensures k in Names(eps) <==> (k in statics || exists e :: e in Entries(eps) && e.cluster == k)
  {
    var lb := Merge(statics, dynamics);
    if e :| e in Entries(eps) && e.cluster == k {
      PublishedEntry(lb, eps, e);
    }
    if k in dynamics {
      var e := DiscoveredEntry(statics, dynamics, k);
      PublishedEntry(lb, eps, e);
    }
  }

  // ----- what the fingerprints of one store's saves decide

  /** No zone and no address of these lists holds a pipe. */
  predicate TidyMap(lb: LbMap) {
    forall k :: k in lb ==> AllTidy(EntriesAt(lb, k))
  }

  predicate PipeFreeZones(lb: LbMap) {
    forall k, i :: k in lb && 0 <= i < |lb[k]| ==> PipeFree(lb[k][i].zone)
  }

  lemma {:induction false} ZonesOfEntries(cluster: string, locs: seq<Locality>)
    requires forall i :: 0 <= i < |locs| ==> PipeFree(locs[i].zone)
    ensures forall e :: e in LocalityEntries(cluster, locs) ==> PipeFree(e.zone)
  {
    if locs != [] {
      ZonesOfEntries(cluster, locs[..|locs| - 1]);
    }
  }

  lemma TidyPublication(lb: LbMap, eps: seq<ClusterLoad>)
    requires IsPublication(lb, eps) && TidyMap(lb)
    ensures AllTidy(Entries(eps))
  {
    hide IsPublication, Tidy, Entries;
    forall e | e in Entries(eps) ensures Tidy(e) {
      PublishedEntry(lb, eps, e);
    }
  }

  /** Two saves over the same static lists have one fingerprint exactly when they publish the
      same endpoints. Nothing is asked of the static lists: their lines occur on both sides. */
  lemma SavesDecided(statics: LbMap, dynA: LbMap, a: seq<ClusterLoad>, dynB: LbMap, b: seq<ClusterLoad>)
    requires IsPublication(Merge(statics, dynA), a) && TidyMap(dynA)
    requires IsPublication(Merge(statics, dynB), b) && TidyMap(dynB)
    ensures Fingerprint(a) == Fingerprint(b) <==> multiset(Entries(a)) == multiset(Entries(b))
  {
    hide IsPublication, Merge, TidyMap, AllTidy, Entries, Fingerprint;
    var fixed := PublicationExists(statics);
    var foundA := PublicationExists(dynA);
    var foundB := PublicationExists(dynB);
    PublishedParts(statics, dynA, a, fixed, foundA);
    PublishedParts(statics, dynB, b, fixed, foundB);
    TidyPublication(dynA, foundA);
    TidyPublication(dynB, foundB);
    FingerprintIff(a, b, Entries(fixed), Entries(foundA), Entries(foundB));
  }

  lemma SameEntriesSameNames(statics: LbMap, dynA: LbMap, a: seq<ClusterLoad>, dynB: LbMap, b: seq<ClusterLoad>)
    requires Discovered(dynA) && IsPublication(Merge(statics, dynA), a)
    requires Discovered(dynB) && IsPublication(Merge(statics, dynB), b)
    requires multiset(Entries(a)) == multiset(Entries(b))
    ensures Names(a) == Names(b)
  {
    hide IsPublication, Merge, Entries, Discovered;
    forall k ensures k in Names(a) <==> k in Names(b) {
      PublishedNames(statics, dynA, a, k);
      PublishedNames(statics, dynB, b, k);
      assert forall e :: e in Entries(a) <==> e in multiset(Entries(a));
      assert forall e :: e in Entries(b) <==> e in multiset(Entries(b));
    }
  }

  /** What a save that sees an unchanged fingerprint may conclude: every cluster
      has the same endpoints as before, up to order and metadata, and the same
      clusters are published. */
  lemma FingerprintAgreement(statics: LbMap, dynA: LbMap, a: seq<ClusterLoad>, dynB: LbMap, b: seq<ClusterLoad>)
    requires Discovered(dynA) && IsPublication(Merge(statics, dynA), a) && TidyMap(dynA)
    requires Discovered(dynB) && IsPublication(Merge(statics, dynB), b) && TidyMap(dynB)
    ensures Fingerprint(a) == Fingerprint(b) <==> SameEntries(Merge(statics, dynA), Merge(statics, dynB))
    ensures Fingerprint(a) == Fingerprint(b) ==> Names(a) == Names(b)
  {
    hide Fingerprint, TidyMap, Merge, Entries, IsPublication, SameEntries, Discovered, Names;
    SavesDecided(statics, dynA, a, dynB, b);
    PublicationEntries(Merge(statics, dynA), a, Merge(statics, dynB), b);
    if Fingerprint(a) == Fingerprint(b) {
      SameEntriesSameNames(statics, dynA, a, dynB, b);
    }
  }
}
