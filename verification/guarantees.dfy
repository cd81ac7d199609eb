// The promises of the protocol, stated for every run from the initial state.
module Guarantees {
  import opened Endpoints
  import opened Protocol
  import opened Publications
  import opened Safety
  import opened Stores
  import opened Text

  lemma Reachable(validIP: string -> bool, ls: seq<Label>)
    requires CanRun(validIP, INITIAL, ls)
    ensures Inv(Run(validIP, INITIAL, ls))
  {
    RunKeepsInv(validIP, INITIAL, ls);
  }

  /** No lost update: if the cache shows a store's version and none of its pushes is
      waiting, the cache shows exactly the endpoints and secrets the store holds. */
  lemma NoLostUpdate(validIP: string -> bool, ls: seq<Label>, r: Ref)
    requires CanRun(validIP, INITIAL, ls)
    ensures
      var s := Run(validIP, INITIAL, ls);
      r < |s.stores| && s.stores[r].config.id in s.cache && s.cache[s.stores[r].config.id].version == s.stores[r].version
      && s.stores[r].last.Some? && Push(r) !in s.tasks
      ==> s.cache[s.stores[r].config.id] == SnapshotOf(s.stores[r])
  {
    Reachable(validIP, ls);
    var s := Run(validIP, INITIAL, ls);
    if r < |s.stores| {
      assert NotLost(s, r);
    }
  }

  /** At most one live store per ID, and it is the registered one or the one about to be. */
  lemma OneLiveStore(validIP: string -> bool, ls: seq<Label>, a: Ref, b: Ref)
    requires CanRun(validIP, INITIAL, ls)
    ensures
      var s := Run(validIP, INITIAL, ls);
      a < |s.stores| && b < |s.stores| && !s.stores[a].stopped && !s.stores[b].stopped
      ==> (s.stores[a].config.id == s.stores[b].config.id ==> a == b)
          && (Registered(s, a) || s.handler == Registering(a))
  {
    Reachable(validIP, ls);
  }

  /** Every key of the store map is the ID of the store under it. */
  lemma KeysAreIds(validIP: string -> bool, ls: seq<Label>, id: string)
    requires CanRun(validIP, INITIAL, ls)
    ensures
      var s := Run(validIP, INITIAL, ls);
      id in s.storeMap ==> s.storeMap[id] < |s.stores| && s.stores[s.storeMap[id]].config.id == id
  {
    Reachable(validIP, ls);
  }

  /** A store's list and array are both unset, or the array is the sorted fingerprint of the list. */
  lemma CoherentStores(validIP: string -> bool, ls: seq<Label>, r: Ref)
    requires CanRun(validIP, INITIAL, ls)
    ensures
      var s := Run(validIP, INITIAL, ls);
      r < |s.stores| ==> Coherent(s.stores[r])
  {
    Reachable(validIP, ls);
  }

  // ----- what never changes, and what never comes back

  ghost predicate Grows(s: State, s': State) {
    && |s.stores| <= |s'.stores|
    && s.used <= s'.used
    && forall r :: 0 <= r < |s.stores| ==>
         s'.stores[r].config == s.stores[r].config && (s.stores[r].stopped ==> s'.stores[r].stopped)
  }

  /** Configurations are fixed and stopping is permanent, over any run. */
  lemma {:induction false} RunGrows(validIP: string -> bool, s: State, ls: seq<Label>)
    requires Inv(s) && CanRun(validIP, s, ls)
    ensures Grows(s, Run(validIP, s, ls))
    decreases |ls|
  {
    if ls != [] {
      StepKeepsInv(validIP, s, ls[0]);
      StepGrows(validIP, s, ls[0]);
      RunGrows(validIP, Apply(validIP, s, ls[0]), ls[1..]);
    }
  }

  lemma TaskUsed(validIP: string -> bool, s: State, l: Label)
    requires IsTaskLabel(l) && TaskEnabled(s, l)
    ensures s.used <= RunTask(validIP, s, l).used
  {
  }

  lemma StepGrows(validIP: string -> bool, s: State, l: Label)
    requires Enabled(s, l)
    ensures Grows(s, Apply(validIP, s, l))
  {
    hide RunTask, RunHandler;
    if IsTaskLabel(l) {
      TaskFrame(validIP, s, l);
      TaskUsed(validIP, s, l);
    } else {
      HandlerFrame(validIP, s, l);
    }
  }

  // ----- properties of published lists

  /** A property of a list published over the given static lists. */
  type ListProperty = (LbMap, seq<ClusterLoad>) -> bool

  /** Every list a store holds or a computed save may still publish has the property, and so
      has every cached one, for the static lists of the store it came from. */
  ghost predicate ListsSatisfy(ok: ListProperty, s: State)
    requires RefsOk(s)
  {
    && (forall r :: 0 <= r < |s.stores| ==> StoreSatisfies(ok, s.stores[r]))
    && (forall t :: t in s.tasks ==> TaskSatisfies(ok, s.stores[t.ref].config, t))
    && (forall id :: id in s.cache ==> SnapshotSatisfies(ok, s.cache[id]))
  }

  predicate StoreSatisfies(ok: ListProperty, st: Store) {
    st.last.Some? ==> ok(st.config.statics, st.last.value)
  }

  predicate TaskSatisfies(ok: ListProperty, config: Config, t: Task) {
    t.SaveCommit? ==> ok(config.statics, t.eps)
  }

  ghost predicate SnapshotSatisfies(ok: ListProperty, snap: Snapshot) {
    snap.endpoints == [] || exists statics :: ok(statics, snap.endpoints)
  }

  /** The list that passes the IP check in this step, if one does, has the property. */
  ghost predicate FindingSatisfies(validIP: string -> bool, ok: ListProperty, l: Label) {
    (l.RunSave? || l.NewStore?) && Usable(validIP, l.finding).Some? ==>
      forall config :: FindingOk(config, l.finding) ==> ok(config.statics, l.finding.eps)
  }

  lemma StoreAfterSatisfies(ok: ListProperty, s: State, l: Label)
    requires IsTaskLabel(l) && TaskEnabled(s, l)
    requires StoreSatisfies(ok, s.stores[s.tasks[l.i].ref]) && TaskSatisfies(ok, s.stores[s.tasks[l.i].ref].config, s.tasks[l.i])
    ensures StoreSatisfies(ok, StoreAfter(s, l))
    ensures SnapshotSatisfies(ok, SnapshotOf(StoreAfter(s, l)))
  {
  }

  lemma StartedSatisfies(validIP: string -> bool, ok: ListProperty, s: State, l: Label)
    requires IsTaskLabel(l) && TaskEnabled(s, l) && FindingSatisfies(validIP, ok, l)
    ensures forall t :: t in Started(validIP, s, l) ==> TaskSatisfies(ok, s.stores[s.tasks[l.i].ref].config, t)
  {
    hide IsPublication, Discovered;
  }

  lemma CacheAfterSatisfies(validIP: string -> bool, ok: ListProperty, s: State, l: Label)
    requires IsTaskLabel(l) && TaskEnabled(s, l)
    requires SnapshotSatisfies(ok, SnapshotOf(StoreAfter(s, l)))
    requires forall id :: id in s.cache ==> SnapshotSatisfies(ok, s.cache[id])
    ensures forall id :: id in RunTask(validIP, s, l).cache ==> SnapshotSatisfies(ok, RunTask(validIP, s, l).cache[id])
  {
    hide Started, SnapshotSatisfies, StoreAfter;
  }

  lemma TaskStepSatisfies(validIP: string -> bool, ok: ListProperty, s: State, l: Label)
    requires RefsOk(s) && ListsSatisfy(ok, s) && IsTaskLabel(l) && TaskEnabled(s, l) && FindingSatisfies(validIP, ok, l)
    requires RefsOk(RunTask(validIP, s, l))
    ensures ListsSatisfy(ok, RunTask(validIP, s, l))
  {
    hide RunTask, StoreAfter, Started, StoreSatisfies, TaskSatisfies, SnapshotSatisfies, FindingSatisfies;
    assert s.tasks[l.i] in s.tasks;
    TaskFrame(validIP, s, l);
    StartedSatisfies(validIP, ok, s, l);
    StoreAfterSatisfies(ok, s, l);
    CacheAfterSatisfies(validIP, ok, s, l);
  }

  lemma FirstSaveSatisfies(validIP: string -> bool, ok: ListProperty, config: Config, secrets: seq<Secret>, finding: Finding)
    requires FindingOk(config, finding) && FindingSatisfies(validIP, ok, NewStore(secrets, finding))
    ensures StoreSatisfies(ok, FirstSave(validIP, config, secrets, finding))
  {
  }

  lemma HandlerStepSatisfies(validIP: string -> bool, ok: ListProperty, s: State, l: Label)
    requires RefsOk(s) && ListsSatisfy(ok, s) && !IsTaskLabel(l) && HandlerEnabled(s, l) && FindingSatisfies(validIP, ok, l)
    requires RefsOk(RunHandler(validIP, s, l))
    ensures ListsSatisfy(ok, RunHandler(validIP, s, l))
  {
    hide RunHandler, FirstSave, SnapshotSatisfies, FindingSatisfies, FindingOk;
    HandlerFrame(validIP, s, l);
    if l.NewStore? {
      FirstSaveSatisfies(validIP, ok, s.handler.config, l.secrets, l.finding);
    }
  }

  lemma StepSatisfies(validIP: string -> bool, ok: ListProperty, s: State, l: Label)
    requires Inv(s) && ListsSatisfy(ok, s) && Enabled(s, l) && FindingSatisfies(validIP, ok, l)
    ensures Inv(Apply(validIP, s, l)) && ListsSatisfy(ok, Apply(validIP, s, l))
  {
    hide ListsSatisfy, FindingSatisfies, MapOk, DataOk, VersionsOk;
    StepKeepsInv(validIP, s, l);
    if IsTaskLabel(l) {
      TaskStepSatisfies(validIP, ok, s, l);
    } else {
      HandlerStepSatisfies(validIP, ok, s, l);
    }
  }

  lemma {:induction false} RunSatisfies(validIP: string -> bool, ok: ListProperty, s: State, ls: seq<Label>)
    requires Inv(s) && ListsSatisfy(ok, s) && CanRun(validIP, s, ls)
    requires forall l :: l in ls ==> FindingSatisfies(validIP, ok, l)
    ensures Inv(Run(validIP, s, ls)) && ListsSatisfy(ok, Run(validIP, s, ls))
    decreases |ls|
  {
    if ls != [] {
      hide Apply, Enabled, Inv, ListsSatisfy, FindingSatisfies;
      StepSatisfies(validIP, ok, s, ls[0]);
      RunSatisfies(validIP, ok, Apply(validIP, s, ls[0]), ls[1..]);
    }
  }

  /** No address that fails the IP check is ever stored or served. */
  lemma AddressSafety(validIP: string -> bool, ls: seq<Label>, load: ClusterLoad, loc: Locality, lb: LbEndpoint)
    requires CanRun(validIP, INITIAL, ls) && loc in load.endpoints && lb in loc.lbEndpoints
    ensures
      var s := Run(validIP, INITIAL, ls);
      && (forall r :: 0 <= r < |s.stores| && s.stores[r].last.Some? && load in s.stores[r].last.value ==> validIP(lb.address))
      && (forall id :: id in s.cache && load in s.cache[id].endpoints ==> validIP(lb.address))
  {
    var ok: ListProperty := (statics, eps) => AddressesPass(validIP, eps);
    forall l | l in ls ensures FindingSatisfies(validIP, ok, l) {
    }
    RunSatisfies(validIP, ok, INITIAL, ls);
    var s := Run(validIP, INITIAL, ls);
    hide Run, CanRun, Entries;
    forall r | 0 <= r < |s.stores| && s.stores[r].last.Some? && load in s.stores[r].last.value ensures validIP(lb.address) {
      assert StoreSatisfies(ok, s.stores[r]);
      PassingMeans(validIP, s.stores[r].last.value);
    }
    forall id | id in s.cache && load in s.cache[id].endpoints ensures validIP(lb.address) {
      assert SnapshotSatisfies(ok, s.cache[id]);
      PassingMeans(validIP, s.cache[id].endpoints);
    }
  }

  // ----- when a save starts a push

  /** An IP address holds no pipe. */
  ghost predicate IPsHoldNoPipe(validIP: string -> bool) {
    forall a: string :: validIP(a) ==> PipeFree(a)
  }

  /** No zone that discovery finds in this step holds a pipe. A zone is the value of a node label. */
  predicate ZonesHoldNoPipe(l: Label) {
    (l.RunSave? || l.NewStore?) && l.finding.Found? ==> PipeFreeZones(l.finding.dynamics)
  }

  /** The list is published over these static lists, and what discovery added to them is tidy. */
  ghost predicate TidilyPublished(statics: LbMap, eps: seq<ClusterLoad>) {
    exists dynamics :: Discovered(dynamics) && IsPublication(Merge(statics, dynamics), eps) && TidyMap(dynamics)
  }

  lemma TidyDynamics(validIP: string -> bool, statics: LbMap, dynamics: LbMap, eps: seq<ClusterLoad>)
    requires IPsHoldNoPipe(validIP) && IsPublication(Merge(statics, dynamics), eps)
    requires AddressesPass(validIP, eps) && PipeFreeZones(dynamics)
    ensures TidyMap(dynamics)
  {
    hide IsPublication, Merge, Entries;
    forall k | k in dynamics ensures AllTidy(EntriesAt(dynamics, k)) {
      ZonesOfEntries(k, dynamics[k]);
      LocalityEntriesCluster(k, dynamics[k]);
      MergedAt(statics, dynamics, k);
      LocalityEntriesAppend(k, At(statics, k), At(dynamics, k));
      forall e | e in EntriesAt(dynamics, k) ensures Tidy(e) {
        PublishedEntry(Merge(statics, dynamics), eps, e);
      }
    }
  }

  lemma TidyFinding(validIP: string -> bool, l: Label)
    requires IPsHoldNoPipe(validIP) && ZonesHoldNoPipe(l)
    ensures FindingSatisfies(validIP, TidilyPublished, l)
  {
    hide IsPublication, Merge, AddressesPass, PipeFreeZones, TidyMap, Discovered;
    if (l.RunSave? || l.NewStore?) && Usable(validIP, l.finding).Some? {
      forall config | FindingOk(config, l.finding) ensures TidilyPublished(config.statics, l.finding.eps) {
        TidyDynamics(validIP, config.statics, l.finding.dynamics, l.finding.eps);
      }
    }
  }

  /** In a run whose zones hold no pipe, what discovery added to any stored list is tidy. */
  lemma TidyLists(validIP: string -> bool, ls: seq<Label>)
    requires CanRun(validIP, INITIAL, ls) && IPsHoldNoPipe(validIP) && forall l :: l in ls ==> ZonesHoldNoPipe(l)
    ensures Inv(Run(validIP, INITIAL, ls)) && ListsSatisfy(TidilyPublished, Run(validIP, INITIAL, ls))
  {
    hide ZonesHoldNoPipe, FindingSatisfies;
    forall l | l in ls ensures FindingSatisfies(validIP, TidilyPublished, l) {
      TidyFinding(validIP, l);
    }
    RunSatisfies(validIP, TidilyPublished, INITIAL, ls);
  }

  lemma TidyDecides(statics: LbMap, a: seq<ClusterLoad>, b: seq<ClusterLoad>)
    requires TidilyPublished(statics, a) && TidilyPublished(statics, b)
    ensures Fingerprint(a) == Fingerprint(b) <==> multiset(Entries(a)) == multiset(Entries(b))
    ensures Fingerprint(a) == Fingerprint(b) ==> Names(a) == Names(b)
  {
    hide IsPublication, Merge, TidyMap, Discovered, Entries, Fingerprint, Names;
    var dynA :| Discovered(dynA) && IsPublication(Merge(statics, dynA), a) && TidyMap(dynA);
    var dynB :| Discovered(dynB) && IsPublication(Merge(statics, dynB), b) && TidyMap(dynB);
    SavesDecided(statics, dynA, a, dynB, b);
    if Fingerprint(a) == Fingerprint(b) {
      SameEntriesSameNames(statics, dynA, a, dynB, b);
    }
  }

  /** A commit starts a push exactly when the store holds no list or the endpoints, up to
      order and metadata, have changed; when it does not, the published clusters are the same.
      The static lists may hold anything. */
  lemma PushIffChanged(validIP: string -> bool, ls: seq<Label>, t: Task)
    requires CanRun(validIP, INITIAL, ls) && IPsHoldNoPipe(validIP) && forall l :: l in ls ==> ZonesHoldNoPipe(l)
    requires t in Run(validIP, INITIAL, ls).tasks && t.SaveCommit?
    ensures
      var s := Run(validIP, INITIAL, ls);
      t.ref < |s.stores| &&
      var last := s.stores[t.ref].last;
      && (Changed(s.stores[t.ref], t.lines) <==> (last.None? || multiset(Entries(last.value)) != multiset(Entries(t.eps))))
      && (!Changed(s.stores[t.ref], t.lines) ==> Names(last.value) == Names(t.eps))
  {
    hide IPsHoldNoPipe, ZonesHoldNoPipe, TidilyPublished, PublishedFrom, Entries, Fingerprint, Names;
    TidyLists(validIP, ls);
    var s := Run(validIP, INITIAL, ls);
    hide Run, CanRun;
    var st := s.stores[t.ref];
    assert TaskOk(st.config, t) && StoreOk(st);
    assert TaskSatisfies(TidilyPublished, st.config, t) && StoreSatisfies(TidilyPublished, st);
    if st.last.Some? {
      TidyDecides(st.config.statics, st.last.value, t.eps);
    }
  }

  // ----- Sync and a missing snapshot

  /** The action that compares versions crashes exactly when the store holds a list and
      the cache holds no snapshot under its ID; no other action crashes. */
  lemma CrashIff(validIP: string -> bool, s: State, l: Label)
    requires Enabled(s, l)
    ensures Apply(validIP, s, l).crashed <==>
      (l.RunRecheck? && s.stores[s.tasks[l.i].ref].last.Some? && s.stores[s.tasks[l.i].ref].config.id !in s.cache)
  {
  }

  // ----- single steps of the handler

  lemma StartConfigStep(validIP: string -> bool, s: State, config: Config)
    requires !s.crashed && s.handler.Idle? && config.id !in s.storeMap
    ensures Enabled(s, StartConfig(config)) && Apply(validIP, s, StartConfig(config)) == s.(handler := Building(config))
  {
  }

  lemma NewStoreStep(validIP: string -> bool, s: State, secrets: seq<Secret>, finding: Finding)
    requires !s.crashed && s.handler.Building? && FindingOk(s.handler.config, finding)
    ensures Enabled(s, NewStore(secrets, finding)) && Apply(validIP, s, NewStore(secrets, finding)) == AddStore(validIP, s, secrets, finding)
  {
    hide FindingOk, AddStore;
  }

  lemma RegisterStep(validIP: string -> bool, s: State, r: Ref)
    requires !s.crashed && s.handler == Registering(r) && r < |s.stores|
    ensures Enabled(s, Register)
    ensures Apply(validIP, s, Register) == s.(storeMap := s.storeMap[s.stores[r].config.id := r], handler := Idle)
  {
  }

  lemma StartDeleteStep(validIP: string -> bool, s: State, id: string)
    requires !s.crashed && s.handler.Idle? && id in s.storeMap && s.storeMap[id] < |s.stores|
    ensures Enabled(s, StartDelete(id))
    ensures Apply(validIP, s, StartDelete(id)) == StopStore(s, s.storeMap[id]).(handler := Draining(s.storeMap[id]))
  {
  }

  lemma ClearStep(validIP: string -> bool, s: State, r: Ref)
    requires !s.crashed && s.handler == Draining(r) && r < |s.stores|
    ensures Enabled(s, ClearSnapshot)
    ensures Apply(validIP, s, ClearSnapshot) == s.(cache := s.cache - {s.stores[r].config.id}, handler := Cleared(r))
  {
  }

  lemma RemoveStep(validIP: string -> bool, s: State, r: Ref)
    requires !s.crashed && s.handler == Cleared(r) && r < |s.stores|
    ensures Enabled(s, Remove)
    ensures Apply(validIP, s, Remove) == s.(storeMap := s.storeMap - {s.stores[r].config.id}, handler := Idle)
  {
  }

  /** A visit puts its task at the end of the queue. */
  lemma VisitStep(validIP: string -> bool, s: State, visitor: Visitor, id: string)
    requires !s.crashed && id in s.storeMap && s.storeMap[id] < |s.stores|
    ensures Enabled(s, Visit(visitor, id))
    ensures Apply(validIP, s, Visit(visitor, id)) == s.(tasks := s.tasks + [Visited(visitor, s.storeMap[id])])
  {
  }

  /** The action of the last pending task, when it changes neither its store nor the cache. */
  lemma TailStep(validIP: string -> bool, s: State, base: seq<Task>, t: Task, l: Label)
    requires !s.crashed && s.tasks == base + [t]
    requires IsTaskLabel(l) && !l.RunPush? && l.i == |base| && TaskEnabled(s, l) && !CrashesNow(s, l)
    requires StoreAfter(s, l) == s.stores[t.ref]
    ensures Enabled(s, l) && Apply(validIP, s, l) == s.(tasks := base + Started(validIP, s, l))
  {
    hide StoreAfter, Started;
    assert s.tasks[..|base|] == base && s.tasks[|base| + 1..] == [];
    assert base + [] + Started(validIP, s, l) == base + Started(validIP, s, l);
    assert s.stores[t.ref := s.stores[t.ref]] == s.stores;
  }

  /** A Sync of a live store that holds a list can crash as soon as its ID has no snapshot. */
  lemma SyncWithoutSnapshot(validIP: string -> bool, s: State, id: string) returns (ls: seq<Label>)
    requires !s.crashed && id in s.storeMap && id !in s.cache
    requires s.storeMap[id] < |s.stores| && s.stores[s.storeMap[id]].config.id == id
    requires !s.stores[s.storeMap[id]].stopped && s.stores[s.storeMap[id]].last.Some?
    ensures CanRun(validIP, s, ls) && Run(validIP, s, ls).crashed
  {
    var r, n := s.storeMap[id], |s.tasks|;
    ls := [Visit(SyncTick, id), RunSync(n), RunSave(n, ListerFailed), RunRecheck(n)];
    var s1 := s.(tasks := s.tasks + [SyncCall(r)]);
    var s2 := s.(tasks := s.tasks + [Save(r, true)]);
    var s3 := s.(tasks := s.tasks + [Recheck(r)]);
    VisitStep(validIP, s, SyncTick, id);
    TailStep(validIP, s1, s.tasks, SyncCall(r), ls[1]);
    TailStep(validIP, s2, s.tasks, Save(r, true), ls[2]);
    hide Apply, RunTask;
    CrashStep(validIP, s3, ls[3]);
    RunCons(validIP, s3, ls[3..]);
    RunCons(validIP, s2, ls[2..]);
    RunCons(validIP, s1, ls[1..]);
    RunCons(validIP, s, ls);
  }

  lemma CrashStep(validIP: string -> bool, s: State, l: Label)
    requires Enabled(s, l) && IsTaskLabel(l) && CrashesNow(s, l)
    ensures Apply(validIP, s, l).crashed
  {
  }

  /** So a run from the start can crash: a Sync that overtakes a new store's first push. */
  lemma SyncOvertakesFirstPush(validIP: string -> bool, id: string, secrets: seq<Secret>) returns (ls: seq<Label>)
    ensures CanRun(validIP, INITIAL, ls) && Run(validIP, INITIAL, ls).crashed
  {
    var first, s := NewNode(validIP, id, secrets);
    var rest := SyncWithoutSnapshot(validIP, s, id);
    RunAppend(validIP, INITIAL, first, rest);
    ls := first + rest;
  }

  /** A first ConfigMap, for a node without endpoints. */
  lemma NewNode(validIP: string -> bool, id: string, secrets: seq<Secret>) returns (ls: seq<Label>, s: State)
    ensures CanRun(validIP, INITIAL, ls) && s == Run(validIP, INITIAL, ls)
    ensures !s.crashed && id in s.storeMap && s.storeMap[id] < |s.stores| && s.cache == map[]
    ensures var st := s.stores[s.storeMap[id]]; st.config.id == id && !st.stopped && st.last.Some? && st.config.statics == map[]
    ensures s.tasks == [Push(s.storeMap[id])] && s.used == {} && forall l :: l in ls ==> ZonesHoldNoPipe(l)
  {
    var config := Config(id, Owner("cm", "ns"), map[], []);
    var finding := Found(map[], []);
    NothingFound(validIP, config);
    hide Apply, Enabled, FindingOk, Usable;
    ls := [StartConfig(config), NewStore(secrets, finding), Register];
    var s1 := INITIAL.(handler := Building(config));
    var s2 := AddStore(validIP, s1, secrets, finding);
    s := s2.(storeMap := map[id := 0], handler := Idle);
    StartConfigStep(validIP, INITIAL, config);
    NewStoreStep(validIP, s1, secrets, finding);
    RegisterStep(validIP, s2, 0);
    RunCons(validIP, s2, ls[2..]);
    RunCons(validIP, s1, ls[1..]);
    RunCons(validIP, INITIAL, ls);
  }

  lemma NothingFound(validIP: string -> bool, config: Config)
    requires config.statics == map[]
    ensures FindingOk(config, Found(map[], [])) && Usable(validIP, Found(map[], [])).Some?
  {
    MergeNothing(map[]);
    assert IsPublication(map[], []) && Discovered(map[]);
    assert AddressesPass(validIP, []);
  }

  /** Work that ends in a check. A Sync that has not begun looks at the stop flag first. */
  predicate Checking(t: Task) {
    t.Recheck? || ((t.Save? || t.SaveCommit?) && t.check)
  }

  /** A Sync of this store can still come to its check, or is about to. */
  ghost predicate CanCheck(s: State, r: Ref)
    requires r < |s.stores|
  {
    !s.stores[r].stopped || exists t :: t in s.tasks && t.ref == r && Checking(t)
  }

  /** Every node whose store can be checked has a snapshot, and so has one whose store is being
      built. Stopped stores of other nodes need none. */
  ghost predicate AllCached(s: State) {
    && (forall r :: 0 <= r < |s.stores| && CanCheck(s, r) ==> s.stores[r].config.id in s.cache)
    && (s.handler.Building? ==> s.handler.config.id in s.cache)
  }

  lemma StartedChecking(validIP: string -> bool, s: State, l: Label)
    requires IsTaskLabel(l) && TaskEnabled(s, l)
    ensures forall t :: t in Started(validIP, s, l) && Checking(t) ==>
      !s.stores[s.tasks[l.i].ref].stopped || Checking(s.tasks[l.i])
  {
    hide FindingOk, Fingerprint, AddressesPass;
  }

  /** The action of a task makes no store checkable that was not. */
  lemma TaskCanCheck(validIP: string -> bool, s: State, l: Label, r: Ref)
    requires IsTaskLabel(l) && TaskEnabled(s, l) && r < |s.stores|
    ensures r < |RunTask(validIP, s, l).stores| && (CanCheck(RunTask(validIP, s, l), r) ==> CanCheck(s, r))
  {
    TaskFrame(validIP, s, l);
    StartedChecking(validIP, s, l);
    assert s.tasks[l.i] in s.tasks;
    hide RunTask, TaskEnabled, Started, Checking;
  }

  lemma TaskKeepsCached(validIP: string -> bool, s: State, l: Label)
    requires AllCached(s) && IsTaskLabel(l) && TaskEnabled(s, l)
    ensures AllCached(RunTask(validIP, s, l)) && s.cache.Keys <= RunTask(validIP, s, l).cache.Keys
  {
    TaskFrame(validIP, s, l);
    TaskCache(validIP, s, l);
    forall r | 0 <= r < |s.stores| ensures r < |RunTask(validIP, s, l).stores| && (CanCheck(RunTask(validIP, s, l), r) ==> CanCheck(s, r)) {
      TaskCanCheck(validIP, s, l, r);
    }
    hide RunTask, TaskEnabled, StoreAfter, Started, CanCheck;
  }

  /** Nor does the handler, but for the store it builds. */
  lemma HandlerCanCheck(validIP: string -> bool, s: State, l: Label, r: Ref)
    requires !IsTaskLabel(l) && HandlerEnabled(s, l) && r < |s.stores|
    ensures r < |RunHandler(validIP, s, l).stores| && (CanCheck(RunHandler(validIP, s, l), r) ==> CanCheck(s, r))
  {
    HandlerFrame(validIP, s, l);
    hide RunHandler, HandlerEnabled;
  }

  lemma HandlerKeepsCached(validIP: string -> bool, s: State, l: Label)
    requires AllCached(s) && !IsTaskLabel(l) && HandlerEnabled(s, l)
    requires !l.ClearSnapshot? && (l.StartConfig? ==> l.config.id in s.cache)
    ensures AllCached(RunHandler(validIP, s, l)) && RunHandler(validIP, s, l).cache == s.cache
  {
    if l.NewStore? {
      FirstSaveConfig(validIP, s, l);
    }
    HandlerFrame(validIP, s, l);
    forall r | 0 <= r < |s.stores|
      ensures r < |RunHandler(validIP, s, l).stores| && (CanCheck(RunHandler(validIP, s, l), r) ==> CanCheck(s, r))
    {
      HandlerCanCheck(validIP, s, l, r);
    }
    assert RunHandler(validIP, s, l).cache == s.cache;
    assert RunHandler(validIP, s, l).handler.Building? ==> s.handler == RunHandler(validIP, s, l).handler || l.StartConfig?;
    hide FirstSave, FindingOk, Visited, Usable, CanCheck;
  }

  lemma FirstSaveConfig(validIP: string -> bool, s: State, l: Label)
    requires l.NewStore? && s.handler.Building?
    ensures FirstSave(validIP, s.handler.config, l.secrets, l.finding).config == s.handler.config
  {
  }

  lemma StepKeepsCached(validIP: string -> bool, s: State, l: Label)
    requires AllCached(s) && Enabled(s, l) && !l.ClearSnapshot? && (l.StartConfig? ==> l.config.id in s.cache)
    ensures AllCached(Apply(validIP, s, l)) && !Apply(validIP, s, l).crashed && s.cache.Keys <= Apply(validIP, s, l).cache.Keys
  {
    CrashIff(validIP, s, l);
    if IsTaskLabel(l) {
      TaskKeepsCached(validIP, s, l);
      assert s.tasks[l.i] in s.tasks && s.tasks[l.i].ref < |s.stores|;
      assert l.RunRecheck? ==> CanCheck(s, s.tasks[l.i].ref);
    } else {
      HandlerKeepsCached(validIP, s, l);
    }
    hide RunTask, RunHandler, TaskEnabled, HandlerEnabled, CanCheck;
  }

  /** While every node that can be checked has its snapshot, because none is deleted and none is
      new, nothing crashes. */
  lemma {:induction false} SnapshotsPreventCrash(validIP: string -> bool, s: State, ls: seq<Label>)
    requires AllCached(s) && !s.crashed && CanRun(validIP, s, ls)
    requires forall l :: l in ls ==> !l.ClearSnapshot? && (l.StartConfig? ==> l.config.id in s.cache)
    ensures !Run(validIP, s, ls).crashed && AllCached(Run(validIP, s, ls))
    decreases |ls|
  {
    if ls != [] {
      StepKeepsCached(validIP, s, ls[0]);
      hide Apply, Enabled, AllCached;
      SnapshotsPreventCrash(validIP, Apply(validIP, s, ls[0]), ls[1..]);
    }
  }

  lemma RunCons(validIP: string -> bool, s: State, ls: seq<Label>)
    requires ls != [] && Enabled(s, ls[0]) && CanRun(validIP, Apply(validIP, s, ls[0]), ls[1..])
    ensures CanRun(validIP, s, ls)
    ensures Run(validIP, s, ls) == Run(validIP, Apply(validIP, s, ls[0]), ls[1..])
  {
  }

  lemma {:induction false} RunAppend(validIP: string -> bool, s: State, a: seq<Label>, b: seq<Label>)
    requires CanRun(validIP, s, a) && CanRun(validIP, Run(validIP, s, a), b)
    ensures CanRun(validIP, s, a + b) && Run(validIP, s, a + b) == Run(validIP, Run(validIP, s, a), b)
    decreases |a|
  {
    hide Apply, Enabled;
    if a == [] {
      assert a + b == b;
    } else {
      var s' := Apply(validIP, s, a[0]);
      RunAppend(validIP, s', a[1..], b);
      assert (a + b)[0] == a[0] && (a + b)[1..] == a[1..] + b;
      RunCons(validIP, s, a + b);
      RunCons(validIP, s, a);
    }
  }
}
