// One ConfigStore: the effect of each of its critical sections as a function on
// values, and the class whose methods reach that effect with loops and
// assignments.
module Stores {
  import opened Endpoints
  import opened Publications
  import opened Seqs
  import opened Sorting
  import opened Wrappers

  datatype Secret = Secret(name: string, data: string)

  /** The ConfigMap a configuration came from. */
  datatype Owner = Owner(name: string, namespace: string)

  datatype Config = Config(id: string, owner: Owner, statics: LbMap, secrets: seq<Secret>)

  datatype Store = Store(
    config: Config,
    version: string,
    last: Option<seq<ClusterLoad>>,
    lastArray: Option<seq<string>>,
    secrets: seq<Secret>,
    stopped: bool)

  datatype Snapshot = Snapshot(version: string, endpoints: seq<ClusterLoad>, secrets: seq<Secret>)

  /** How building and setting a snapshot may end. A failed set may or may not have stored it. */
  datatype PushOutcome = BuildFailed | SetFailed(stored: bool) | Pushed

  datatype CheckOutcome = Keeps | Resets | Panics

  // ----- critical sections as functions

  /** nil and the empty list differ here, so a store's first good save always counts as a change. */
  predicate Changed(st: Store, lines: seq<string>) {
    st.lastArray != Some(lines)
  }

  function Commit(st: Store, eps: seq<ClusterLoad>, lines: seq<string>): Store {
    if Changed(st, lines) then st.(last := Some(eps), lastArray := Some(lines)) else st
  }

  function SnapshotOf(st: Store): Snapshot {
    Snapshot(st.version, match st.last case None => [] case Some(eps) => eps, st.config.secrets + st.secrets)
  }

  predicate IsStored(outcome: PushOutcome) {
    outcome.Pushed? || (outcome.SetFailed? && outcome.stored)
  }

  /** The second half of Sync, which compares the cached version with the store's own. */
  function Check(st: Store, cached: Option<Snapshot>): CheckOutcome {
    if st.last.None? then Keeps
    else match cached
      case None => Panics
      case Some(snap) => if snap.version != "" && snap.version != st.version then Resets else Keeps
  }

  function Reset(st: Store): Store {
    st.(last := None, lastArray := None)
  }

  /** The list and the array that stands for it are set together and agree. */
  predicate Coherent(st: Store) {
    match st.last
    case None => st.lastArray.None?
    case Some(eps) => st.lastArray == Some(Fingerprint(eps))
  }

  // ----- the class

  datatype Goroutine = PushLater | SaveLater

  /** Goroutines started and not yet run. */
  class Scheduler {
    var waiting: seq<Goroutine>

    constructor ()
      ensures waiting == []
    {
      waiting := [];
    }
  }

  class SnapshotCache {
    var snapshots: map<string, Snapshot>

    constructor ()
      ensures snapshots == map[]
    {
      snapshots := map[];
    }

    function Get(id: string): Option<Snapshot>
      reads this
    {
      if id in snapshots then Some(snapshots[id]) else None
    }
  }

  predicate HasBadAddress(validIP: string -> bool, lb: LbMap) {
    exists k :: k in lb && exists e :: e in EntriesAt(lb, k) && !validIP(e.address)
  }

  /** The effect of one save on a store, and the goroutines it starts. */
  ghost predicate Saved(validIP: string -> bool, before: Store, found: Result<LbMap>, after: Store, started: seq<Goroutine>) {
    if found.Failure? || HasBadAddress(validIP, Merge(before.config.statics, found.value)) then
      after == before && started == []
    else
      exists eps ::
        && IsPublication(Merge(before.config.statics, found.value), eps)
        && AddressesPass(validIP, eps)
        && after == Commit(before, eps, Fingerprint(eps))
        && started == if Changed(before, Fingerprint(eps)) then [PushLater] else []
  }

  /** The effect of a Sync that no other goroutine interrupts: a save, then the check. */
  ghost predicate Synced(validIP: string -> bool, before: Store, found: Result<LbMap>, cached: Option<Snapshot>,
                         after: Store, started: seq<Goroutine>, panicked: bool) {
    if before.stopped then after == before && started == [] && !panicked
    else exists mid: Store, first: seq<Goroutine> ::
      && Saved(validIP, before, found, mid, first)
      && var outcome := Check(mid, cached);
      && (panicked <==> outcome.Panics?)
      && after == (if outcome.Resets? then Reset(mid) else mid)
      && started == first + Restarted(outcome)
  }

  function Restarted(outcome: CheckOutcome): seq<Goroutine> {
    if outcome.Resets? then [SaveLater] else []
  }

  lemma SyncedBy(validIP: string -> bool, before: Store, found: Result<LbMap>, cached: Option<Snapshot>,
                 mid: Store, first: seq<Goroutine>)
    requires !before.stopped && Saved(validIP, before, found, mid, first)
    ensures
      var outcome := Check(mid, cached);
      Synced(validIP, before, found, cached, if outcome.Resets? then Reset(mid) else mid, first + Restarted(outcome), outcome.Panics?)
  {
    hide Saved, Check, Reset;
  }

  lemma EntriesGrow(eps: seq<ClusterLoad>, load: ClusterLoad)
    ensures Entries(eps + [load]) == Entries(eps) + LocalityEntries(load.clusterName, load.endpoints)
    ensures Lines(eps + [load]) == Lines(eps) + Map(Line, LocalityEntries(load.clusterName, load.endpoints))
  {
    assert (eps + [load])[..|eps|] == eps;
  }

  lemma BadAddressPublished(validIP: string -> bool, lb: LbMap, eps: seq<ClusterLoad>)
    requires IsPublication(lb, eps)
    ensures HasBadAddress(validIP, lb) <==> !AddressesPass(validIP, eps)
  {
    if k :| k in lb && exists e :: e in EntriesAt(lb, k) && !validIP(e.address) {
      var e :| e in EntriesAt(lb, k) && !validIP(e.address);
      LocalityEntriesCluster(k, lb[k]);
      PublishedEntry(lb, eps, e);
    }
    if e :| e in Entries(eps) && !validIP(e.address) {
      PublishedEntry(lb, eps, e);
      assert e.cluster in lb;
    }
  }

  class ConfigStore {
    const config: Config
    const validIP: string -> bool
    const cache: SnapshotCache
    const scheduler: Scheduler
    var version: string
    var lastEndpoints: Option<seq<ClusterLoad>>
    var lastEndpointsArray: Option<seq<string>>
    var secrets: seq<Secret>
    var isStopped: bool

    function View(): Store
      reads this
    {
      Store(config, version, lastEndpoints, lastEndpointsArray, secrets, isStopped)
    }

    /** A store before its first save. A static list that does not parse is logged and left out. */
    constructor (id: string, owner: Owner, parsed: Result<LbMap>, configSecrets: seq<Secret>, first: seq<Secret>,
                 validIP: string -> bool, cache: SnapshotCache, scheduler: Scheduler)
      ensures View() == Store(Config(id, owner, if parsed.Success? then parsed.value else map[], configSecrets), "", None, None, first, false)
      ensures this.validIP == validIP && this.cache == cache && this.scheduler == scheduler
    {
      this.config := Config(id, owner, if parsed.Success? then parsed.value else map[], configSecrets);
      this.validIP, this.cache, this.scheduler := validIP, cache, scheduler;
      version, secrets, isStopped := "", first, false;
      lastEndpoints, lastEndpointsArray := None, None;
    }

    method CopyStatics() returns (lb: LbMap)
      ensures lb == config.statics
    {
      lb := map[];
      var keys := config.statics.Keys;
      while keys != {}
        invariant keys <= config.statics.Keys
        invariant lb == config.statics - keys
        decreases |keys|
      {
        var k :| k in keys;
        lb := lb[k := config.statics[k]];
        keys := keys - {k};
      }
    }

    method AppendDiscovered(dynamics: LbMap) returns (lb: LbMap)
      ensures lb == Merge(config.statics, dynamics)
    {
      hide IsPublication;
      lb := CopyStatics();
      var keys := dynamics.Keys;
      while keys != {}
        invariant keys <= dynamics.Keys
        invariant lb.Keys == config.statics.Keys + (dynamics.Keys - keys)
        invariant forall k :: k in lb ==> lb[k] == At(config.statics, k) + if k in keys then [] else At(dynamics, k)
        decreases |keys|
      {
        var k :| k in keys;
        lb := lb[k := (if k in lb then lb[k] else []) + dynamics[k]];
        keys := keys - {k};
      }
    }

    method LocalityLines(clusterName: string, loc: Locality) returns (lines: seq<string>, bad: bool)
      ensures lines == Map(Line, LbEntries(clusterName, loc.zone, loc.priority, loc.lbEndpoints))
      ensures bad <==> !Passing(validIP, LbEntries(clusterName, loc.zone, loc.priority, loc.lbEndpoints))
    {
      hide Line;
      lines, bad := [], false;
      var lbs := loc.lbEndpoints;
      ghost var es := LbEntries(clusterName, loc.zone, loc.priority, lbs);
      var j := 0;
      while j < |lbs|
        invariant 0 <= j <= |lbs|
        invariant lines == Map(Line, es[..j])
        invariant bad <==> exists k :: 0 <= k < j && !validIP(es[k].address)
      {
        lines := lines + [Line(Entry(clusterName, loc.zone, loc.priority, lbs[j].address, lbs[j].port, lbs[j].healthPort))];
        if !validIP(lbs[j].address) {
          bad := true;
        }
        j := j + 1;
      }
      assert es[..|lbs|] == es;
    }

    /** The lines of one cluster, and whether one of its addresses is not an IP. */
    method ClusterLines(clusterName: string, ep: seq<Locality>) returns (lines: seq<string>, bad: bool)
      ensures lines == Map(Line, LocalityEntries(clusterName, ep))
      ensures bad <==> !Passing(validIP, LocalityEntries(clusterName, ep))
    {
      lines, bad := [], false;
      var i := 0;
      while i < |ep|
        invariant 0 <= i <= |ep|
        invariant lines == Map(Line, LocalityEntries(clusterName, ep[..i]))
        invariant bad <==> !Passing(validIP, LocalityEntries(clusterName, ep[..i]))
      {
        hide Line, Passing, LbEntries;
        var more, alsoBad := LocalityLines(clusterName, ep[i]);
        assert ep[..i + 1][..i] == ep[..i];
        PassingAppend(validIP, LocalityEntries(clusterName, ep[..i]), LbEntries(clusterName, ep[i].zone, ep[i].priority, ep[i].lbEndpoints));
        lines := lines + more;
        bad := bad || alsoBad;
        i := i + 1;
      }
      assert ep[..|ep|] == ep;
    }

    /** One resource a cluster, in whatever order the map is traversed. */
    method Publish(lb: LbMap) returns (eps: seq<ClusterLoad>, lines: seq<string>, isInvalidIP: bool)
      ensures IsPublication(lb, eps)
      ensures lines == Lines(eps)
      ensures isInvalidIP <==> HasBadAddress(validIP, lb)
    {
      eps, lines, isInvalidIP := [], [], false;
      var keys := lb.Keys;
      while keys != {}
        invariant keys <= lb.Keys
        invariant IsPublication(lb - keys, eps)
        invariant lines == Lines(eps)
        invariant !isInvalidIP <==> AddressesPass(validIP, eps)
        decreases |keys|
      {
        hide Line, Passing, IsPublication;
        var k :| k in keys;
        var more, bad := ClusterLines(k, lb[k]);
        PassingAppend(validIP, Entries(eps), LocalityEntries(k, lb[k]));
        PublishOne(lb, keys, eps, k);
        EntriesGrow(eps, ClusterLoad(k, lb[k]));
        eps := eps + [ClusterLoad(k, lb[k])];
        lines := lines + more;
        isInvalidIP := isInvalidIP || bad;
        keys := keys - {k};
      }
      assert lb - {} == lb;
      BadAddressPublished(validIP, lb, eps);
    }

    /** The part of saveLastEndpoints that runs outside the mutex: the resources to
        publish and their fingerprint, or nothing when some address is not an IP. */
    method Compute(dynamics: LbMap) returns (r: Option<(seq<ClusterLoad>, seq<string>)>)
      ensures r.Some? ==>
        && IsPublication(Merge(config.statics, dynamics), r.value.0)
        && r.value.1 == Fingerprint(r.value.0)
        && AddressesPass(validIP, r.value.0)
      ensures r.None? <==> HasBadAddress(validIP, Merge(config.statics, dynamics))
    {
      var lb := AppendDiscovered(dynamics);
      var eps, lines, isInvalidIP := Publish(lb);
      BadAddressPublished(validIP, lb, eps);
      if isInvalidIP {
        return None;
      }
      var sorted := new string[|lines|](i requires 0 <= i < |lines| => lines[i]);
      assert sorted[..] == lines;
      SortStrings(sorted);
      r := Some((eps, sorted[..]));
    }

    /** The part of saveLastEndpoints that runs under the mutex. */
    method CommitSave(eps: seq<ClusterLoad>, lines: seq<string>)
      modifies this, scheduler
      ensures View() == Commit(old(View()), eps, lines)
      ensures version == old(version) && secrets == old(secrets) && isStopped == old(isStopped)
      ensures if old(lastEndpointsArray) == Some(lines) then lastEndpoints == old(lastEndpoints) && lastEndpointsArray == old(lastEndpointsArray)
              else lastEndpoints == Some(eps) && lastEndpointsArray == Some(lines)
      ensures scheduler.waiting == old(scheduler.waiting) + if Changed(old(View()), lines) then [PushLater] else []
    {
      if lastEndpointsArray != Some(lines) {
        lastEndpoints := Some(eps);
        lastEndpointsArray := Some(lines);
        scheduler.waiting := scheduler.waiting + [PushLater];
      }
    }

    /** A whole save. It leaves the store alone when a lister fails or an address is bad. */
    method SaveLastEndpoints(found: Result<LbMap>)
      modifies this, scheduler
      ensures old(scheduler.waiting) <= scheduler.waiting
      ensures Saved(validIP, old(View()), found, View(), scheduler.waiting[|old(scheduler.waiting)|..])
      ensures version == old(version) && secrets == old(secrets) && isStopped == old(isStopped)
      ensures lastEndpointsArray == old(lastEndpointsArray) ==>
        lastEndpoints == old(lastEndpoints) && scheduler.waiting == old(scheduler.waiting)
      ensures lastEndpointsArray != old(lastEndpointsArray) ==>
        && lastEndpoints.Some? && lastEndpointsArray == Some(Fingerprint(lastEndpoints.value))
        && scheduler.waiting == old(scheduler.waiting) + [PushLater]
    {
      if found.Failure? {
        return;
      }
      var computed := Compute(found.value);
      if computed.None? {
        return;
      }
      CommitSave(computed.value.0, computed.value.1);
    }

    /** `newVersion` is the identifier the retry loop settles on. */
    method Push(newVersion: string, outcome: PushOutcome)
      requires newVersion != version
      modifies this, cache
      ensures View() == old(View()).(version := newVersion)
      ensures version == newVersion && secrets == old(secrets) && isStopped == old(isStopped)
      ensures lastEndpoints == old(lastEndpoints) && lastEndpointsArray == old(lastEndpointsArray)
      ensures outcome == Pushed || outcome == SetFailed(true) ==> cache.snapshots == old(cache.snapshots)[config.id :=
        Snapshot(newVersion, if lastEndpoints.Some? then lastEndpoints.value else [], config.secrets + secrets)]
      ensures outcome == BuildFailed || outcome == SetFailed(false) ==> cache.snapshots == old(cache.snapshots)
      ensures cache.snapshots == if IsStored(outcome) then old(cache.snapshots)[config.id := SnapshotOf(View())] else old(cache.snapshots)
    {
      version := newVersion;
      if outcome.BuildFailed? {
        return;
      }
      var snap := Snapshot(version, if lastEndpoints.None? then [] else lastEndpoints.value, config.secrets + secrets);
      if outcome.Pushed? || outcome.stored {
        cache.snapshots := cache.snapshots[config.id := snap];
      }
    }

    method LoadNewSecrets(created: Result<seq<Secret>>) returns (ok: bool)
      modifies this
      ensures ok == created.Success?
      ensures View() == if ok then old(View()).(secrets := created.value) else old(View())
      ensures secrets == if created.Success? then created.value else old(secrets)
      ensures version == old(version) && isStopped == old(isStopped)
      ensures lastEndpoints == old(lastEndpoints) && lastEndpointsArray == old(lastEndpointsArray)
    {
      if created.Failure? {
        return false;
      }
      secrets := created.value;
      return true;
    }

    /** New: a store with its first secrets and its first save, or nothing when the secrets
        cannot be created. */
    static method New(id: string, owner: Owner, parsed: Result<LbMap>, configSecrets: seq<Secret>, created: Result<seq<Secret>>,
                      found: Result<LbMap>, validIP: string -> bool, cache: SnapshotCache, scheduler: Scheduler)
      returns (r: Result<ConfigStore>)
      modifies scheduler
      ensures old(scheduler.waiting) <= scheduler.waiting
      ensures r.Success? <==> created.Success?
      ensures r.Failure? ==> scheduler.waiting == old(scheduler.waiting)
      ensures r.Success? ==>
        && fresh(r.value) && r.value.validIP == validIP && r.value.cache == cache && r.value.scheduler == scheduler
        && var config := Config(id, owner, if parsed.Success? then parsed.value else map[], configSecrets);
        && Saved(validIP, Store(config, "", None, None, created.value, false), found, r.value.View(),
                 scheduler.waiting[|old(scheduler.waiting)|..])
        && r.value.config == config && r.value.version == "" && r.value.secrets == created.value && !r.value.isStopped
    {
      hide Saved;
      var cs := new ConfigStore(id, owner, parsed, configSecrets, [], validIP, cache, scheduler);
      var ok := cs.LoadNewSecrets(created);
      if !ok {
        return Failure;
      }
      cs.SaveLastEndpoints(found);
      return Success(cs);
    }

    method Stop()
      modifies this
      ensures View() == old(View()).(stopped := true)
    {
      isStopped := true;
    }

    /** The part of Sync that runs under the mutex; a missing snapshot is dereferenced there. */
    method CheckVersion() returns (panicked: bool)
      modifies this, scheduler
      ensures panicked <==> Check(old(View()), old(cache.Get(config.id))).Panics?
      ensures panicked <==> old(lastEndpoints).Some? && config.id !in cache.snapshots
      ensures version == old(version) && secrets == old(secrets) && isStopped == old(isStopped)
      ensures
        if old(lastEndpoints).Some? && config.id in cache.snapshots
           && cache.snapshots[config.id].version != "" && cache.snapshots[config.id].version != version
        then lastEndpoints.None? && lastEndpointsArray.None? && scheduler.waiting == old(scheduler.waiting) + [SaveLater]
        else lastEndpoints == old(lastEndpoints) && lastEndpointsArray == old(lastEndpointsArray) && scheduler.waiting == old(scheduler.waiting)
      ensures View() == if Check(old(View()), old(cache.Get(config.id))).Resets? then Reset(old(View())) else old(View())
      ensures scheduler.waiting == old(scheduler.waiting) + Restarted(Check(old(View()), old(cache.Get(config.id))))
    {
      panicked := false;
      if lastEndpoints.Some? {
        var snap := cache.Get(config.id);
        if snap.None? {
          return true;
        }
        if |snap.value.version| > 0 && snap.value.version != version {
          lastEndpoints := None;
          lastEndpointsArray := None;
          scheduler.waiting := scheduler.waiting + [SaveLater];
        }
      }
    }

    /** NewPod, DeletePod and NewEndpoint: a save unless the store is stopped. */
    method NewPod(found: Result<LbMap>)
      modifies this, scheduler
      ensures old(scheduler.waiting) <= scheduler.waiting
      ensures
        var started := scheduler.waiting[|old(scheduler.waiting)|..];
        if old(isStopped) then View() == old(View()) && started == [] else Saved(validIP, old(View()), found, View(), started)
      ensures version == old(version) && secrets == old(secrets) && isStopped == old(isStopped)
    {
      if isStopped {
        return;
      }
      SaveLastEndpoints(found);
    }

    /** Sync, when no other goroutine runs between its two halves. */
    method Sync(found: Result<LbMap>) returns (panicked: bool)
      modifies this, scheduler
      ensures old(scheduler.waiting) <= scheduler.waiting
      ensures Synced(validIP, old(View()), found, old(cache.Get(config.id)), View(), scheduler.waiting[|old(scheduler.waiting)|..], panicked)
      ensures version == old(version) && secrets == old(secrets) && isStopped == old(isStopped)
      ensures old(isStopped) ==> lastEndpoints == old(lastEndpoints) && lastEndpointsArray == old(lastEndpointsArray)
    {
      if isStopped {
        assert scheduler.waiting[|old(scheduler.waiting)|..] == [];
        return false;
      }
      hide Saved, Commit, Check, Reset, Synced;
      SaveLastEndpoints(found);
      ghost var mid, first := View(), scheduler.waiting[|old(scheduler.waiting)|..];
      assert cache.Get(config.id) == old(cache.Get(config.id));
      SyncedBy(validIP, old(View()), found, old(cache.Get(config.id)), mid, first);
      panicked := CheckVersion();
      assert scheduler.waiting[|old(scheduler.waiting)|..] == first + Restarted(Check(mid, old(cache.Get(config.id))));
    }
  }
}
