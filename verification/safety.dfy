// What holds in every state that any interleaving can reach.
module Safety {
  import opened Endpoints
  import opened Protocol
  import opened Publications
  import opened Stores

  predicate HoldsRef(h: Handler) {
    h.Registering? || h.Draining? || h.Cleared?
  }

  /** References are in range, and every key of the store map is its store's ID. */
  ghost predicate RefsOk(s: State) {
    && (forall t :: t in s.tasks ==> t.ref < |s.stores|)
    && (forall id :: id in s.storeMap ==> s.storeMap[id] < |s.stores| && s.stores[s.storeMap[id]].config.id == id)
    && (HoldsRef(s.handler) ==> s.handler.ref < |s.stores|)
  }

  predicate Registered(s: State, r: Ref)
    requires r < |s.stores|
  {
    var id := s.stores[r].config.id;
    id in s.storeMap && s.storeMap[id] == r
  }

  /** No live store is under this ID in the store map. */
  ghost predicate Vacant(s: State, id: string)
    requires RefsOk(s)
  {
    id in s.storeMap ==> s.stores[s.storeMap[id]].stopped
  }

  /** A live store is in the store map, or is the one the handler is about to put there. */
  ghost predicate MapOk(s: State)
    requires RefsOk(s)
  {
    && (forall r :: 0 <= r < |s.stores| && !s.stores[r].stopped ==> Registered(s, r) || s.handler == Registering(r))
    && match s.handler
       case Idle => true
       case Building(config) => Vacant(s, config.id)
       case Registering(r) => !s.stores[r].stopped && Vacant(s, s.stores[r].config.id)
       case Draining(r) => s.stores[r].stopped && Registered(s, r)
       case Cleared(r) => s.stores[r].stopped && Registered(s, r)
  }

  ghost predicate PublishedFrom(statics: LbMap, eps: seq<ClusterLoad>) {
    exists dynamics :: Discovered(dynamics) && IsPublication(Merge(statics, dynamics), eps)
  }

  ghost predicate StoreOk(st: Store) {
    Coherent(st) && (st.last.Some? ==> PublishedFrom(st.config.statics, st.last.value))
  }

  ghost predicate TaskOk(config: Config, t: Task) {
    t.SaveCommit? ==> t.lines == Fingerprint(t.eps) && PublishedFrom(config.statics, t.eps)
  }

  /** Stored and computed lists are publications, next to the fingerprint that belongs to them. */
  ghost predicate DataOk(s: State)
    requires RefsOk(s)
  {
    && (forall r :: 0 <= r < |s.stores| ==> StoreOk(s.stores[r]))
    && (forall t :: t in s.tasks ==> TaskOk(s.stores[t.ref].config, t))
  }

  /** While the cache shows a store's own version and no Push of it is waiting,
      the cache shows what the store holds. */
  ghost predicate NotLost(s: State, r: Ref)
    requires r < |s.stores|
  {
    var st := s.stores[r];
    var cached := CachedFor(s, r);
    cached.Some? && cached.value.version == st.version && Push(r) !in s.tasks ==>
      && cached.value.secrets == st.config.secrets + st.secrets
      && (st.last.Some? ==> cached.value.endpoints == st.last.value)
  }

  ghost predicate VersionsOk(s: State)
    requires RefsOk(s)
  {
    && "" !in s.used
    && (forall r :: 0 <= r < |s.stores| ==> s.stores[r].version == "" || s.stores[r].version in s.used)
    && (forall id :: id in s.cache ==> s.cache[id].version in s.used)
    && (forall r :: 0 <= r < |s.stores| ==> NotLost(s, r))
  }

  ghost predicate Inv(s: State) {
    RefsOk(s) && MapOk(s) && DataOk(s) && VersionsOk(s)
  }

  // ----- one step

  lemma StartedRef(validIP: string -> bool, s: State, l: Label)
    requires IsTaskLabel(l) && TaskEnabled(s, l)
    ensures forall t :: t in Started(validIP, s, l) ==> t.ref == s.tasks[l.i].ref
  {
  }

  /** The action of a task leaves every store's configuration and stop flag as they are. */
  lemma TaskKeepsConfig(s: State, l: Label)
    requires IsTaskLabel(l) && TaskEnabled(s, l)
    ensures StoreAfter(s, l).config == s.stores[s.tasks[l.i].ref].config
    ensures StoreAfter(s, l).stopped == s.stores[s.tasks[l.i].ref].stopped
  {
  }

  /** The action of a task touches its own store only, and of that neither configuration nor stop flag. */
  lemma TaskFrame(validIP: string -> bool, s: State, l: Label)
    requires IsTaskLabel(l) && TaskEnabled(s, l)
    ensures
      var s' := RunTask(validIP, s, l);
      var ref := s.tasks[l.i].ref;
      && s'.storeMap == s.storeMap && s'.handler == s.handler && |s'.stores| == |s.stores|
      && (forall r :: 0 <= r < |s.stores| ==> s'.stores[r].config == s.stores[r].config && s'.stores[r].stopped == s.stores[r].stopped)
      && (forall r :: 0 <= r < |s.stores| && r != ref ==> s'.stores[r] == s.stores[r])
      && (forall t :: t in s'.tasks ==> t in s.tasks || (t in Started(validIP, s, l) && t.ref == ref))
      && (!s'.crashed && !s.crashed ==> s'.stores[ref] == StoreAfter(s, l))
      && (s'.stores[ref] == StoreAfter(s, l) || s'.stores[ref] == s.stores[ref])
  {
    hide StoreAfter, Started, CacheAfter;
    TaskKeepsConfig(s, l);
    StartedRef(validIP, s, l);
  }

  /** A step of the handler, or a visit, adds at most one store and one task, and changes stop flags only. */
  lemma HandlerFrame(validIP: string -> bool, s: State, l: Label)
    requires !IsTaskLabel(l) && HandlerEnabled(s, l)
    ensures
      var s' := RunHandler(validIP, s, l);
      && |s.stores| <= |s'.stores| <= |s.stores| + 1
      && (forall r :: 0 <= r < |s.stores| ==> s'.stores[r] == s.stores[r].(stopped := s'.stores[r].stopped))
      && (forall r :: 0 <= r < |s.stores| && s.stores[r].stopped ==> s'.stores[r].stopped)
      && (|s'.stores| == |s.stores| + 1 ==>
            l.NewStore? && s'.stores[|s.stores|] == FirstSave(validIP, s.handler.config, l.secrets, l.finding))
      && (forall t :: t in s.tasks ==> t in s'.tasks)
      && (forall t :: t in s'.tasks && t !in s.tasks ==>
            (!t.Save? && !t.SaveCommit? && !t.Recheck? && t.ref < |s'.stores|) && (t.Push? ==> t.ref == |s.stores| && l.NewStore?))
      && s'.used == s.used && s'.crashed == s.crashed
      && (forall id :: id in s'.cache ==> id in s.cache && s'.cache[id] == s.cache[id])
  {
  }

  lemma TaskStepMap(validIP: string -> bool, s: State, l: Label)
    requires RefsOk(s) && MapOk(s) && IsTaskLabel(l) && TaskEnabled(s, l)
    ensures RefsOk(RunTask(validIP, s, l)) && MapOk(RunTask(validIP, s, l))
  {
    hide RunTask, StoreAfter, Started;
    TaskFrame(validIP, s, l);
  }

  /** A step of the handler, or a visit, changes the store map under one ID at most. */
  lemma HandlerMap(validIP: string -> bool, s: State, l: Label)
    requires RefsOk(s) && !IsTaskLabel(l) && HandlerEnabled(s, l)
    ensures
      var s' := RunHandler(validIP, s, l);
      && (forall id :: id in s'.storeMap ==>
            || (id in s.storeMap && s'.storeMap[id] == s.storeMap[id])
            || (l.Register? && s'.storeMap[id] == s.handler.ref && s.stores[s.handler.ref].config.id == id))
      && (HoldsRef(s'.handler) ==> s'.handler.ref < |s'.stores|)
  {
    hide FirstSave, FindingOk, Visited;
  }

  /** Where the handler may come to stand, and what it clears. */
  lemma HandlerMoves(validIP: string -> bool, s: State, l: Label)
    requires RefsOk(s) && !IsTaskLabel(l) && HandlerEnabled(s, l)
    ensures
      var s' := RunHandler(validIP, s, l);
      && (s'.handler.Building? ==> s'.handler == s.handler || (l.StartConfig? && s'.handler.config == l.config))
      && (HoldsRef(s'.handler) ==>
            || (HoldsRef(s.handler) && s'.handler.ref == s.handler.ref)
            || (s.handler.Building? && l.NewStore? && s'.handler.ref == |s.stores|)
            || (l.StartDelete? && l.id in s.storeMap && s'.handler.ref == s.storeMap[l.id]))
      && (forall id :: id in s.cache && id !in s'.cache ==>
            HoldsRef(s.handler) && l.ClearSnapshot? && s.stores[s.handler.ref].config.id == id)
  {
    hide FirstSave, FindingOk, Visited;
  }

  /** The action of a task takes no snapshot away, and writes one under its own store's ID only. */
  lemma TaskCache(validIP: string -> bool, s: State, l: Label)
    requires IsTaskLabel(l) && TaskEnabled(s, l)
    ensures
      var s' := RunTask(validIP, s, l);
      && s.cache.Keys <= s'.cache.Keys
      && (forall id :: id in s'.cache && id !in s.cache ==> l.RunPush? && id == s.stores[s.tasks[l.i].ref].config.id)
  {
    hide StoreAfter, Started, SnapshotOf;
  }

  lemma HandlerStepRefs(validIP: string -> bool, s: State, l: Label)
    requires RefsOk(s) && !IsTaskLabel(l) && HandlerEnabled(s, l)
    ensures RefsOk(RunHandler(validIP, s, l))
  {
    HandlerFrame(validIP, s, l);
    HandlerMap(validIP, s, l);
    assert l.Register? ==> s.handler.ref < |s.stores|;
    hide RunHandler, HandlerEnabled, FirstSave, Visited;
  }

  lemma StopKeepsMap(s: State, r: Ref)
    requires RefsOk(s) && r < |s.stores|
    requires forall q :: 0 <= q < |s.stores| && !s.stores[q].stopped ==> Registered(s, q) || s.handler == Registering(q)
    ensures var s' := StopStore(s, r);
      RefsOk(s') && forall q :: 0 <= q < |s.stores| && !s'.stores[q].stopped ==> Registered(s', q) || s.handler == Registering(q)
  {
  }

  lemma NewStoreMap(validIP: string -> bool, s: State, secrets: seq<Secret>, finding: Finding)
    requires RefsOk(s) && MapOk(s) && s.handler.Building?
    ensures RefsOk(AddStore(validIP, s, secrets, finding)) && MapOk(AddStore(validIP, s, secrets, finding))
  {
    var s' := AddStore(validIP, s, secrets, finding);
    assert forall r :: 0 <= r < |s.stores| ==> s'.stores[r] == s.stores[r];
    assert !s'.stores[|s.stores|].stopped && s'.stores[|s.stores|].config == s.handler.config;
    assert forall r :: 0 <= r < |s.stores| && Registered(s, r) ==> Registered(s', r);
  }

  lemma RegisterMap(validIP: string -> bool, s: State)
    requires RefsOk(s) && MapOk(s) && HandlerEnabled(s, Register)
    requires RefsOk(RunHandler(validIP, s, Register))
    ensures MapOk(RunHandler(validIP, s, Register))
  {
    var s' := RunHandler(validIP, s, Register);
    forall r | 0 <= r < |s.stores| && !s.stores[r].stopped ensures Registered(s', r) {
      assert Registered(s, r) || s.handler == Registering(r);
    }
  }

  lemma RemoveMap(validIP: string -> bool, s: State)
    requires RefsOk(s) && MapOk(s) && HandlerEnabled(s, Remove)
    requires RefsOk(RunHandler(validIP, s, Remove))
    ensures MapOk(RunHandler(validIP, s, Remove))
  {
    var s' := RunHandler(validIP, s, Remove);
    forall r | 0 <= r < |s.stores| && !s.stores[r].stopped ensures Registered(s', r) {
      assert Registered(s, r);
    }
  }

  lemma QuietMap(validIP: string -> bool, s: State, l: Label)
    requires RefsOk(s) && MapOk(s) && !IsTaskLabel(l) && HandlerEnabled(s, l) && (l.Visit? || l.AbandonConfig? || l.ClearSnapshot?)
    requires RefsOk(RunHandler(validIP, s, l))
    ensures MapOk(RunHandler(validIP, s, l))
  {
    hide FirstSave, FindingOk, Visited;
  }

  lemma StoppingMap(validIP: string -> bool, s: State, l: Label)
    requires RefsOk(s) && MapOk(s) && !IsTaskLabel(l) && HandlerEnabled(s, l) && (l.StartConfig? || l.StartDelete?)
    requires RefsOk(RunHandler(validIP, s, l))
    ensures MapOk(RunHandler(validIP, s, l))
  {
    hide FirstSave, FindingOk, Visited;
    if l.StartDelete? {
      StopKeepsMap(s, s.storeMap[l.id]);
    } else if l.config.id in s.storeMap {
      StopKeepsMap(s, s.storeMap[l.config.id]);
    }
  }

  lemma HandlerStepMap(validIP: string -> bool, s: State, l: Label)
    requires RefsOk(s) && MapOk(s) && !IsTaskLabel(l) && HandlerEnabled(s, l)
    requires RefsOk(RunHandler(validIP, s, l))
    ensures MapOk(RunHandler(validIP, s, l))
  {
    if l.StartConfig? || l.StartDelete? {
      StoppingMap(validIP, s, l);
    } else if l.NewStore? {
      NewStoreMap(validIP, s, l.secrets, l.finding);
    } else if l.Register? {
      RegisterMap(validIP, s);
    } else if l.Remove? {
      RemoveMap(validIP, s);
    } else {
      QuietMap(validIP, s, l);
    }
    hide MapOk, FirstSave, AddStore, StopStore, Visited;
  }

  lemma StoreAfterOk(s: State, l: Label)
    requires IsTaskLabel(l) && TaskEnabled(s, l)
    requires StoreOk(s.stores[s.tasks[l.i].ref]) && TaskOk(s.stores[s.tasks[l.i].ref].config, s.tasks[l.i])
    ensures StoreOk(StoreAfter(s, l))
  {
  }

  lemma StartedOk(validIP: string -> bool, s: State, l: Label)
    requires IsTaskLabel(l) && TaskEnabled(s, l)
    ensures forall t :: t in Started(validIP, s, l) ==> TaskOk(s.stores[s.tasks[l.i].ref].config, t)
  {
  }

  lemma TaskStepData(validIP: string -> bool, s: State, l: Label)
    requires RefsOk(s) && DataOk(s) && IsTaskLabel(l) && TaskEnabled(s, l)
    requires RefsOk(RunTask(validIP, s, l))
    ensures DataOk(RunTask(validIP, s, l))
  {
    hide RunTask, StoreAfter, Started, StoreOk, TaskOk;
    assert s.tasks[l.i] in s.tasks;
    TaskFrame(validIP, s, l);
    StartedOk(validIP, s, l);
    StoreAfterOk(s, l);
  }

  lemma HandlerStepData(validIP: string -> bool, s: State, l: Label)
    requires RefsOk(s) && DataOk(s) && !IsTaskLabel(l) && HandlerEnabled(s, l)
    requires RefsOk(RunHandler(validIP, s, l))
    ensures DataOk(RunHandler(validIP, s, l))
  {
    hide RunHandler, FirstSave;
    var s' := RunHandler(validIP, s, l);
    HandlerFrame(validIP, s, l);
    forall t | t in s'.tasks ensures TaskOk(s'.stores[t.ref].config, t) {
      assert t in s.tasks || !t.SaveCommit?;
    }
    if l.NewStore? {
      FirstSaveOk(validIP, s.handler.config, l.secrets, l.finding);
    }
  }

  lemma FirstSaveOk(validIP: string -> bool, config: Config, secrets: seq<Secret>, finding: Finding)
    requires FindingOk(config, finding)
    ensures StoreOk(FirstSave(validIP, config, secrets, finding))
  {
  }

  lemma TaskStepNotLost(validIP: string -> bool, s: State, l: Label, q: Ref)
    requires RefsOk(s) && VersionsOk(s) && IsTaskLabel(l) && TaskEnabled(s, l) && q < |s.stores|
    ensures NotLost(RunTask(validIP, s, l), q)
  {
    hide FindingOk, AddressesPass, Fingerprint, Check;
    var s' := RunTask(validIP, s, l);
    var t := s.tasks[l.i];
    TaskKeepsConfig(s, l);
    if !CrashesNow(s, l) && Push(q) !in s'.tasks {
      if t != Push(q) {
        assert Push(q) !in s.tasks;
        assert NotLost(s, q);
      }
      if t.ref == q && (l.RunCommit? || l.RunRotate?) {
        assert Push(q) !in Started(validIP, s, l);
        assert s'.stores[q] == s.stores[q];
      }
    }
  }

  lemma TaskStepVersions(validIP: string -> bool, s: State, l: Label)
    requires RefsOk(s) && VersionsOk(s) && IsTaskLabel(l) && TaskEnabled(s, l)
    requires RefsOk(RunTask(validIP, s, l))
    ensures VersionsOk(RunTask(validIP, s, l))
  {
    TaskKeepsConfig(s, l);
    forall q | 0 <= q < |s.stores| ensures NotLost(RunTask(validIP, s, l), q) {
      TaskStepNotLost(validIP, s, l, q);
    }
  }

  lemma HandlerStepNotLost(validIP: string -> bool, s: State, l: Label, q: Ref)
    requires RefsOk(s) && VersionsOk(s) && !IsTaskLabel(l) && HandlerEnabled(s, l)
    requires q < |RunHandler(validIP, s, l).stores|
    ensures NotLost(RunHandler(validIP, s, l), q)
  {
    hide RunHandler, HandlerEnabled;
    var s' := RunHandler(validIP, s, l);
    HandlerFrame(validIP, s, l);
    if q < |s.stores| {
      assert NotLost(s, q);
    } else {
      assert s'.stores[q].version == "";
    }
  }

  lemma HandlerStepVersions(validIP: string -> bool, s: State, l: Label)
    requires RefsOk(s) && VersionsOk(s) && !IsTaskLabel(l) && HandlerEnabled(s, l)
    requires RefsOk(RunHandler(validIP, s, l))
    ensures VersionsOk(RunHandler(validIP, s, l))
  {
    hide RunHandler, HandlerEnabled, NotLost;
    var s' := RunHandler(validIP, s, l);
    HandlerFrame(validIP, s, l);
    forall q | 0 <= q < |s'.stores| ensures NotLost(s', q) {
      HandlerStepNotLost(validIP, s, l, q);
    }
  }

  /** Every step keeps the invariant. */
  lemma StepKeepsInv(validIP: string -> bool, s: State, l: Label)
    requires Inv(s) && Enabled(s, l)
    ensures Inv(Apply(validIP, s, l))
  {
    if IsTaskLabel(l) {
      TaskStepMap(validIP, s, l);
      TaskStepData(validIP, s, l);
      TaskStepVersions(validIP, s, l);
    } else {
      HandlerStepRefs(validIP, s, l);
      HandlerStepMap(validIP, s, l);
      HandlerStepData(validIP, s, l);
      HandlerStepVersions(validIP, s, l);
    }
  }

  lemma {:induction false} RunKeepsInv(validIP: string -> bool, s: State, ls: seq<Label>)
    requires Inv(s) && CanRun(validIP, s, ls)
    ensures Inv(Run(validIP, s, ls))
    decreases |ls|
  {
    if ls != [] {
      StepKeepsInv(validIP, s, ls[0]);
      RunKeepsInv(validIP, Apply(validIP, s, ls[0]), ls[1..]);
    }
  }
}
