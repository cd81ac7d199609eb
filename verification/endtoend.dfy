// From the objects in the cluster to the snapshot a node is served.
module EndToEnd {
  import opened Convergence
  import opened Discovery
  import opened Endpoints
  import opened Guarantees
  import opened Protocol
  import opened Publications
  import opened Refinement
  import opened Safety
  import opened Stores
  import opened Text
  import opened Wrappers

  /** Discovery finds exactly what the items ask of this cluster. */
  ghost predicate Finds(d: Cluster, items: seq<Item>, dynamics: LbMap) {
    forall k :: At(dynamics, k) == Wanted(d, items, k)
  }

  /** A save finds what the cluster holds, in whatever order its listers answer. */
  ghost predicate SavesFind(c: Cluster, items: seq<Item>, l: Label) {
    l.RunSave? ==> l.finding.Found? && exists d :: Reordered(c, d) && Finds(d, items, l.finding.dynamics)
  }

  /** The endpoints a cluster of the configuration should have. */
  ghost function Due(statics: LbMap, c: Cluster, items: seq<Item>, k: string): seq<Entry> {
    LocalityEntries(k, At(statics, k) + Wanted(c, items, k))
  }

  ghost predicate AddressesDue(validIP: string -> bool, statics: LbMap, c: Cluster, items: seq<Item>) {
    forall k :: Passing(validIP, Due(statics, c, items, k))
  }

  /** The zones of nodes are label values, which hold no pipe. */
  predicate ZoneLabels(c: Cluster) {
    forall node :: node in c.nodes && c.zoneLabel in c.nodes[node] ==> PipeFree(c.nodes[node][c.zoneLabel])
  }

  /** A list shows every endpoint as often as it is due in its cluster. */
  ghost predicate Shows(eps: seq<ClusterLoad>, statics: LbMap, c: Cluster, items: seq<Item>) {
    forall e: Entry :: multiset(Entries(eps))[e] == multiset(Due(statics, c, items, e.cluster))[e]
  }

  /** The static lists or the cluster call for this endpoint: it is in a static list, or it is that
      of a pod an item picks, of an address of a service, or of one of an enabled canary. */
  ghost predicate CalledFor(statics: LbMap, c: Cluster, items: seq<Item>, e: Entry) {
    exists loc :: Shown(e.cluster, loc, e) &&
      ((e.cluster in statics && loc in statics[e.cluster])
       || FromPod(c, items, e.cluster, loc)
       || FromService(c, items, e.cluster, false, loc) || FromService(c, items, e.cluster, true, loc))
  }

  lemma DueMeans(statics: LbMap, c: Cluster, items: seq<Item>, e: Entry)
    ensures e in Due(statics, c, items, e.cluster) <==> CalledFor(statics, c, items, e)
  {
    hide Wanted, FromPod, FromService, Shown, LocalityEntries;
    LocalityMembers(e.cluster, At(statics, e.cluster) + Wanted(c, items, e.cluster), e);
    forall loc ensures loc in Wanted(c, items, e.cluster) <==>
      (FromPod(c, items, e.cluster, loc) || FromService(c, items, e.cluster, false, loc) || FromService(c, items, e.cluster, true, loc))
    {
      WantedMembers(c, items, e.cluster, loc);
    }
  }

  lemma ShowsMeans(eps: seq<ClusterLoad>, statics: LbMap, c: Cluster, items: seq<Item>)
    requires Shows(eps, statics, c, items)
    ensures forall e :: e in Entries(eps) <==> CalledFor(statics, c, items, e)
  {
    hide Due, Entries, CalledFor;
    forall e ensures e in Entries(eps) <==> CalledFor(statics, c, items, e) {
      DueMeans(statics, c, items, e);
      assert e in Entries(eps) <==> e in multiset(Entries(eps));
      assert e in Due(statics, c, items, e.cluster) <==> e in multiset(Due(statics, c, items, e.cluster));
    }
  }

  lemma FoundIsDue(statics: LbMap, c: Cluster, d: Cluster, items: seq<Item>, dynamics: LbMap, eps: seq<ClusterLoad>)
    requires Reordered(c, d) && Unambiguous(c, items) && Finds(d, items, dynamics)
    requires IsPublication(Merge(statics, dynamics), eps)
    ensures Shows(eps, statics, c, items)
  {
    hide Reordered, Unambiguous, Wanted, IsPublication, Merge, At, Entries, LocalityEntries;
    forall e: Entry ensures multiset(Entries(eps))[e] == multiset(Due(statics, c, items, e.cluster))[e] {
      var k := e.cluster;
      PublicationCount(Merge(statics, dynamics), eps, e);
      MergedAt(statics, dynamics, k);
      WantedReordered(c, d, items, k);
      PermutedLocalities(k, At(statics, k) + Wanted(d, items, k), At(statics, k) + Wanted(c, items, k));
    }
  }

  lemma DuePasses(validIP: string -> bool, statics: LbMap, c: Cluster, items: seq<Item>, eps: seq<ClusterLoad>)
    requires AddressesDue(validIP, statics, c, items) && Shows(eps, statics, c, items)
    ensures AddressesPass(validIP, eps)
  {
    hide Due, Entries;
    forall e | e in Entries(eps) ensures validIP(e.address) {
      assert e in multiset(Entries(eps));
      assert e in multiset(Due(statics, c, items, e.cluster));
      assert Passing(validIP, Due(statics, c, items, e.cluster));
    }
  }

  lemma FoundZones(c: Cluster, d: Cluster, items: seq<Item>, dynamics: LbMap)
    requires Reordered(c, d) && Finds(d, items, dynamics) && ZoneLabels(c)
    ensures PipeFreeZones(dynamics)
  {
    hide Wanted;
    forall k, i | k in dynamics && 0 <= i < |dynamics[k]| ensures PipeFree(dynamics[k][i].zone) {
      assert At(dynamics, k)[i] in Wanted(d, items, k);
      WantedZone(d, items, k, dynamics[k][i]);
    }
  }

  /** A step of the drain is as convergence asks. */
  lemma DrainStepOk(validIP: string -> bool, config: Config, c: Cluster, items: seq<Item>, sample: seq<ClusterLoad>, l: Label)
    requires IsTaskLabel(l) && SavesFind(c, items, l) && (l.RunPush? ==> l.outcome.Pushed?)
    requires l.RunSave? ==> FindingOk(config, l.finding)
    requires Unambiguous(c, items) && AddressesDue(validIP, config.statics, c, items) && ZoneLabels(c)
    requires Shows(sample, config.statics, c, items)
    ensures CalmFor(validIP, multiset(Entries(sample)), l) && ZonesHoldNoPipe(l)
  {
    hide Unambiguous, AddressesDue, Reordered, Finds, Entries, Due, AddressesPass, Discovered, IsPublication, Merge;
    hide PipeFreeZones, ZoneLabels;
    if l.RunSave? {
      var d :| Reordered(c, d) && Finds(d, items, l.finding.dynamics);
      FoundIsDue(config.statics, c, d, items, l.finding.dynamics, l.finding.eps);
      DuePasses(validIP, config.statics, c, items, l.finding.eps);
      FoundZones(c, d, items, l.finding.dynamics);
      assert multiset(Entries(l.finding.eps)) == multiset(Entries(sample));
    }
  }

  lemma DueNames(statics: LbMap, c: Cluster, items: seq<Item>, eps: seq<ClusterLoad>, k: string)
    requires PublishedFrom(statics, eps) && Shows(eps, statics, c, items)
    ensures k in Names(eps) <==> k in statics || Wanted(c, items, k) != []
  {
    hide IsPublication, Merge, Entries, Wanted, Names, Discovered;
    var dynamics :| Discovered(dynamics) && IsPublication(Merge(statics, dynamics), eps);
    PublishedNames(statics, dynamics, eps, k);
    var due := Due(statics, c, items, k);
    LocalityEntriesCluster(k, At(statics, k) + Wanted(c, items, k));
    forall e: Entry | e.cluster == k ensures e in Entries(eps) <==> e in due {
      assert e in Entries(eps) <==> e in multiset(Entries(eps));
      assert e in due <==> e in multiset(due);
    }
    if Wanted(c, items, k) != [] {
      var e := WantedEntry(statics, c, items, k);
    } else if k !in statics {
      assert due == [];
    }
  }

  lemma WantedEntry(statics: LbMap, c: Cluster, items: seq<Item>, k: string) returns (e: Entry)
    requires Wanted(c, items, k) != []
    ensures e in Due(statics, c, items, k) && e.cluster == k
  {
    hide Wanted;
    var locs := At(statics, k) + Wanted(c, items, k);
    var last := locs[|locs| - 1];
    assert last in Wanted(c, items, k);
    WantedSingles(c, items, k, last);
    e := LbEntries(k, last.zone, last.priority, last.lbEndpoints)[0];
  }

  /** At the end the node is served, under its store's version and with the secrets the store had,
      every endpoint as often as it is due: those called for and no others. Its clusters are the
      static ones and those with an endpoint. */
  ghost predicate Served(s: State, end: State, id: string, c: Cluster, items: seq<Item>)
    requires id in s.storeMap && s.storeMap[id] < |s.stores|
  {
    var st := s.stores[s.storeMap[id]];
    && !end.crashed && id in end.cache && s.storeMap[id] < |end.stores|
    && end.cache[id].version == end.stores[s.storeMap[id]].version
    && end.cache[id].secrets == st.config.secrets + st.secrets
    && Shows(end.cache[id].endpoints, st.config.statics, c, items)
    && (forall e :: e in Entries(end.cache[id].endpoints) <==> CalledFor(st.config.statics, c, items, e))
    && forall k :: k in Names(end.cache[id].endpoints) <==> k in st.config.statics || Wanted(c, items, k) != []
  }

  /** A node at rest: nothing is pending, its store is live, and it has a snapshot. */
  ghost predicate AtRest(s: State, id: string) {
    && !s.crashed && s.tasks == [] && id in s.cache
    && id in s.storeMap && s.storeMap[id] < |s.stores| && !s.stores[s.storeMap[id]].stopped
  }

  /** After any history, take a moment at which nothing is pending and the node has a live store
      and some snapshot. If the cluster stays as it is, one Sync, followed by its tasks in any
      order until none is left, ends with the node served what the cluster and the static lists
      call for: every endpoint as often as it is due, and no cluster besides the static ones
      and those with an endpoint. */
  lemma ClusterServed(validIP: string -> bool, before: seq<Label>, drain: seq<Label>, id: string, c: Cluster, items: seq<Item>)
    requires CanRun(validIP, INITIAL, before)
    requires IPsHoldNoPipe(validIP) && forall l :: l in before ==> ZonesHoldNoPipe(l)
    requires
      var s := Run(validIP, INITIAL, before);
      && AtRest(s, id)
      && AddressesDue(validIP, s.stores[s.storeMap[id]].config.statics, c, items)
    requires Unambiguous(c, items) && ZoneLabels(c)
    requires
      var s := Run(validIP, INITIAL, before);
      && CanRun(validIP, Apply(validIP, s, Visit(SyncTick, id)), drain)
      && Run(validIP, Apply(validIP, s, Visit(SyncTick, id)), drain).tasks == []
    requires forall l :: l in drain ==> IsTaskLabel(l) && SavesFind(c, items, l) && (l.RunPush? ==> l.outcome.Pushed?)
    ensures
      var s := Run(validIP, INITIAL, before);
      var end := Run(validIP, Apply(validIP, s, Visit(SyncTick, id)), drain);
      Served(s, end, id, c, items)
  {
    var s := Run(validIP, INITIAL, before);
    TidyLists(validIP, before);
    VisitStep(validIP, s, SyncTick, id);
    hide Apply, Enabled, CanRun, Run, SavesFind, AddressesDue, Unambiguous, ZoneLabels, Wanted;
    hide ZonesHoldNoPipe, IPsHoldNoPipe, Entries, Names, ListsSatisfy, Inv, Served;
    ServedFrom(validIP, s, drain, SyncTick, id, c, items);
  }

  /** The same after a pod or endpoints event, if the cache shows the version of the node's store. */
  lemma EventServed(validIP: string -> bool, before: seq<Label>, drain: seq<Label>, id: string, c: Cluster, items: seq<Item>)
    requires CanRun(validIP, INITIAL, before)
    requires IPsHoldNoPipe(validIP) && forall l :: l in before ==> ZonesHoldNoPipe(l)
    requires
      var s := Run(validIP, INITIAL, before);
      && AtRest(s, id) && s.cache[id].version == s.stores[s.storeMap[id]].version
      && AddressesDue(validIP, s.stores[s.storeMap[id]].config.statics, c, items)
    requires Unambiguous(c, items) && ZoneLabels(c)
    requires
      var s := Run(validIP, INITIAL, before);
      && CanRun(validIP, Apply(validIP, s, Visit(PodEvent, id)), drain)
      && Run(validIP, Apply(validIP, s, Visit(PodEvent, id)), drain).tasks == []
    requires forall l :: l in drain ==> IsTaskLabel(l) && SavesFind(c, items, l) && (l.RunPush? ==> l.outcome.Pushed?)
    ensures
      var s := Run(validIP, INITIAL, before);
      var end := Run(validIP, Apply(validIP, s, Visit(PodEvent, id)), drain);
      Served(s, end, id, c, items)
  {
    var s := Run(validIP, INITIAL, before);
    TidyLists(validIP, before);
    VisitStep(validIP, s, PodEvent, id);
    hide Apply, Enabled, CanRun, Run, SavesFind, AddressesDue, Unambiguous, ZoneLabels, Wanted;
    hide ZonesHoldNoPipe, IPsHoldNoPipe, Entries, Names, ListsSatisfy, Inv, Served;
    ServedFrom(validIP, s, drain, PodEvent, id, c, items);
  }

  /** The same from any state that satisfies the invariants. */
  lemma ServedFrom(validIP: string -> bool, s: State, drain: seq<Label>, visitor: Visitor, id: string, c: Cluster, items: seq<Item>)
    requires Inv(s) && ListsSatisfy(TidilyPublished, s) && AtRest(s, id) && Starts(s, visitor, id)
    requires Enabled(s, Visit(visitor, id)) && CanRun(validIP, Apply(validIP, s, Visit(visitor, id)), drain)
    requires Run(validIP, Apply(validIP, s, Visit(visitor, id)), drain).tasks == []
    requires IPsHoldNoPipe(validIP) && AddressesDue(validIP, s.stores[s.storeMap[id]].config.statics, c, items)
    requires Unambiguous(c, items) && ZoneLabels(c)
    requires forall l :: l in drain ==> IsTaskLabel(l) && SavesFind(c, items, l) && (l.RunPush? ==> l.outcome.Pushed?)
    ensures Served(s, Run(validIP, Apply(validIP, s, Visit(visitor, id)), drain), id, c, items)
  {
    hide Apply, Enabled, CanRun, Run, SavesFind, Shows, AddressesDue, Unambiguous, ZoneLabels, Wanted, FindingOk, CalmFor;
    hide ZonesHoldNoPipe, IPsHoldNoPipe, Entries, Names, ListsSatisfy, Inv, CalledFor;
    var r := s.storeMap[id];
    VisitStep(validIP, s, visitor, id);
    var t := Visited(visitor, r);
    var s1 := s.(tasks := s.tasks + [t]);
    assert s1.tasks == [t] && t.ref == r && (t == SyncCall(r) || t == Notify(r));
    FindingsOk(validIP, s1, drain, r);
    var first := FirstSaveOfDrain(validIP, s1, drain, r);
    SampleIsDue(s.stores[r].config, c, items, first);
    var sample := first.finding.eps;
    forall l | l in drain ensures CalmFor(validIP, multiset(Entries(sample)), l) && ZonesHoldNoPipe(l) {
      DrainStepOk(validIP, s.stores[r].config, c, items, sample, l);
    }
    DrainRepairs(validIP, s, drain, visitor, id, multiset(Entries(sample)));
    StepKeepsInv(validIP, s, Visit(visitor, id));
    EndIsDue(validIP, s1, drain, r, s.stores[r].config.statics, c, items, sample);
    var end := Run(validIP, s1, drain);
    ShowsMeans(end.cache[id].endpoints, s.stores[r].config.statics, c, items);
  }

  lemma SampleIsDue(config: Config, c: Cluster, items: seq<Item>, l: Label)
    requires l.RunSave? && FindingOk(config, l.finding) && SavesFind(c, items, l) && Unambiguous(c, items)
    ensures l.finding.Found? && Shows(l.finding.eps, config.statics, c, items)
  {
    hide Reordered, Finds, Shows, Unambiguous, IsPublication, Merge, Discovered;
    var d :| Reordered(c, d) && Finds(d, items, l.finding.dynamics);
    FoundIsDue(config.statics, c, d, items, l.finding.dynamics, l.finding.eps);
  }

  /** What the store holds in the end is a publication of what is due. */
  lemma EndIsDue(validIP: string -> bool, s: State, ls: seq<Label>, r: Ref, statics: LbMap, c: Cluster, items: seq<Item>,
                 sample: seq<ClusterLoad>)
    requires Inv(s) && CanRun(validIP, s, ls) && r < |s.stores| && s.stores[r].config.statics == statics
    requires Shows(sample, statics, c, items)
    requires
      var end := Run(validIP, s, ls);
      r < |end.stores| && end.stores[r].last.Some? && multiset(Entries(end.stores[r].last.value)) == multiset(Entries(sample))
    ensures
      var eps := Run(validIP, s, ls).stores[r].last.value;
      && Shows(eps, statics, c, items)
      && forall k :: k in Names(eps) <==> k in statics || Wanted(c, items, k) != []
  {
    RunKeepsInv(validIP, s, ls);
    RunGrows(validIP, s, ls);
    var end := Run(validIP, s, ls);
    hide Apply, Enabled, CanRun, Run, Wanted, Entries, Names, Due, PublishedFrom;
    assert StoreOk(end.stores[r]);
    var eps := end.stores[r].last.value;
    forall k ensures k in Names(eps) <==> k in statics || Wanted(c, items, k) != [] {
      DueNames(statics, c, items, eps, k);
    }
  }

  // ----- such a history and such a drain exist

  lemma NoneWanted(c: Cluster, items: seq<Item>, k: string)
    requires forall i :: 0 <= i < |items| ==> items[i].clusterName != k
    ensures Wanted(c, items, k) == []
  {
    var wanted := Wanted(c, items, k);
    hide Wanted;
    if wanted != [] {
      WantedMade(c, items, k, wanted[0]);
    }
  }

  /** The map that discovery makes of the cluster. */
  ghost function FoundMap(c: Cluster, items: seq<Item>): LbMap {
    map k | k in (set i | 0 <= i < |items| :: items[i].clusterName) && Wanted(c, items, k) != [] :: Wanted(c, items, k)
  }

  lemma FoundMapOk(c: Cluster, items: seq<Item>)
    ensures Discovered(FoundMap(c, items)) && Finds(c, items, FoundMap(c, items))
  {
    hide Wanted;
    var dynamics := FoundMap(c, items);
    forall k ensures At(dynamics, k) == Wanted(c, items, k) {
      if forall i :: 0 <= i < |items| ==> items[i].clusterName != k {
        NoneWanted(c, items, k);
      } else {
        var i :| 0 <= i < |items| && items[i].clusterName == k;
        assert k in (set j | 0 <= j < |items| :: items[j].clusterName);
      }
    }
    forall k, i | k in dynamics && 0 <= i < |dynamics[k]| ensures |dynamics[k][i].lbEndpoints| == 1 {
      assert dynamics[k][i] in Wanted(c, items, k);
      WantedSingles(c, items, k, dynamics[k][i]);
    }
  }

  /** A save that finds the cluster as it is. */
  lemma SaveForCluster(validIP: string -> bool, config: Config, c: Cluster, items: seq<Item>) returns (finding: Finding)
    requires Reordered(c, c) && Unambiguous(c, items) && AddressesDue(validIP, config.statics, c, items)
    ensures finding.Found? && FindingOk(config, finding) && Usable(validIP, finding).Some?
    ensures Finds(c, items, finding.dynamics)
  {
    hide Reordered, Unambiguous, AddressesDue, Finds, Discovered, IsPublication, Merge, FoundMap, AddressesPass;
    FoundMapOk(c, items);
    var eps := PublicationExists(Merge(config.statics, FoundMap(c, items)));
    FoundIsDue(config.statics, c, c, items, FoundMap(c, items), eps);
    DuePasses(validIP, config.statics, c, items, eps);
    finding := Found(FoundMap(c, items), eps);
  }

  /** In a cluster whose listers answer, every node at rest has a drain that ClusterServed speaks
      of, and, if the cache shows its store's version, one that EventServed speaks of. */
  lemma ClusterDrainPossible(validIP: string -> bool, before: seq<Label>, visitor: Visitor, id: string, c: Cluster, items: seq<Item>)
    returns (drain: seq<Label>)
    requires CanRun(validIP, INITIAL, before) && AtRest(Run(validIP, INITIAL, before), id)
    requires
      var s := Run(validIP, INITIAL, before);
      Starts(s, visitor, id) && AddressesDue(validIP, s.stores[s.storeMap[id]].config.statics, c, items)
    requires c.pods.Success? && c.endpoints.Success? && Unambiguous(c, items)
    ensures
      var s1 := Apply(validIP, Run(validIP, INITIAL, before), Visit(visitor, id));
      && CanRun(validIP, s1, drain) && Run(validIP, s1, drain).tasks == []
    ensures forall l :: l in drain ==> IsTaskLabel(l) && SavesFind(c, items, l) && (l.RunPush? ==> l.outcome.Pushed?)
  {
    hide CanRun, Run, Apply, Enabled, Unambiguous, AddressesDue, Finds, FindingOk;
    var s := Run(validIP, INITIAL, before);
    assert Reordered(c, c);
    var finding := SaveForCluster(validIP, s.stores[s.storeMap[id]].config, c, items);
    hide Reordered, Usable, Entries, Starts;
    drain := RepairPossible(validIP, before, visitor, id, finding);
    forall l | l in drain ensures IsTaskLabel(l) && SavesFind(c, items, l) && (l.RunPush? ==> l.outcome.Pushed?) {
      assert CalmFor(validIP, multiset(Entries(finding.eps)), l);
    }
  }

  /** A history after which a node is at rest, with its store's version in the cache. */
  lemma RestPossible(validIP: string -> bool, id: string) returns (before: seq<Label>)
    ensures CanRun(validIP, INITIAL, before) && AtRest(Run(validIP, INITIAL, before), id)
    ensures
      var s := Run(validIP, INITIAL, before);
      var st := s.stores[s.storeMap[id]];
      st.config.statics == map[] && s.cache[id].version == st.version
    ensures forall l :: l in before ==> ZonesHoldNoPipe(l)
  {
    var first, s := NewNode(validIP, id, []);
    var r := s.storeMap[id];
    var push := RunPush(0, "v", Pushed);
    PushIsAStep(validIP, s, [], r, "v", Pushed);
    hide Apply, Enabled;
    OneStep(validIP, s, push);
    RunAppend(validIP, INITIAL, first, [push]);
    before := first + [push];
  }

  /** So there are a history, a cluster and drains as ClusterServed and EventServed ask for. */
  lemma ClusterServedApplies(validIP: string -> bool, id: string, visitor: Visitor)
    returns (before: seq<Label>, drain: seq<Label>, c: Cluster, items: seq<Item>)
    requires !visitor.RotationTick?
    ensures CanRun(validIP, INITIAL, before) && AtRest(Run(validIP, INITIAL, before), id)
    ensures forall l :: l in before ==> ZonesHoldNoPipe(l)
    ensures
      var s := Run(validIP, INITIAL, before);
      && s.cache[id].version == s.stores[s.storeMap[id]].version
      && AddressesDue(validIP, s.stores[s.storeMap[id]].config.statics, c, items)
    ensures Unambiguous(c, items) && ZoneLabels(c)
    ensures
      var s1 := Apply(validIP, Run(validIP, INITIAL, before), Visit(visitor, id));
      && CanRun(validIP, s1, drain) && Run(validIP, s1, drain).tasks == []
    ensures forall l :: l in drain ==> IsTaskLabel(l) && SavesFind(c, items, l) && (l.RunPush? ==> l.outcome.Pushed?)
  {
    hide CanRun, Run, Apply, Enabled, AddressesDue, Unambiguous;
    before := RestPossible(validIP, id);
    c, items := Cluster(Success([]), Success([]), map[], map[], ""), [];
    assert AddressesDue(validIP, map[], c, items) by { NothingDue(validIP, c); }
    assert Unambiguous(c, items) by { NothingAmbiguous(c); }
    drain := ClusterDrainPossible(validIP, before, visitor, id, c, items);
  }

  lemma NothingDue(validIP: string -> bool, c: Cluster)
    ensures AddressesDue(validIP, map[], c, [])
  {
    forall k ensures Passing(validIP, Due(map[], c, [], k)) {
      NoneWanted(c, [], k);
      assert At(map[], k) + Wanted(c, [], k) == [];
    }
  }

  lemma NothingAmbiguous(c: Cluster)
    requires c.endpoints.Success?
    ensures Unambiguous(c, [])
  {
  }
}
