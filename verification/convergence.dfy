// One Sync repairs a node's snapshot, and a node that needs no repair is left alone.
module Convergence {
  import opened Endpoints
  import opened Frames
  import opened Guarantees
  import opened Protocol
  import opened Publications
  import opened Safety
  import opened Stores
  import opened Wrappers

  ghost predicate Matches(s: State, r: Ref)
    requires r < |s.stores|
  {
    CachedFor(s, r).Some? && CachedFor(s, r).value.version == s.stores[r].version
  }

  // ----- a repairing Sync

  /** An action of a pending task in a quiet environment: listers answer and give the
      wanted fingerprint, and pushes succeed. */
  predicate Calm(validIP: string -> bool, target: seq<string>, l: Label) {
    && IsTaskLabel(l)
    && (l.RunSave? ==> Usable(validIP, l.finding).Some? && Fingerprint(l.finding.eps) == target)
    && (l.RunPush? ==> l.outcome.Pushed?)
  }

  predicate Saves(t: Task) {
    t.Notify? || t.SyncCall? || t.Save? || t.SaveCommit?
  }

  predicate Checks(t: Task) {
    t.SyncCall? || Checking(t)
  }

  /** Some work of store r will save, if it is not stopped before. */
  ghost predicate WillSave(s: State, r: Ref) {
    exists t :: t in s.tasks && t.ref == r && Saves(t)
  }

  ghost predicate WillCheck(s: State, r: Ref) {
    exists t :: t in s.tasks && t.ref == r && Checks(t)
  }

  predicate RepairTask(target: seq<string>, t: Task) {
    !t.Rotate? && (t.SaveCommit? ==> t.lines == target)
  }

  /** The cache shows the store's version, or something pending will bring that about. */
  ghost predicate WillMatch(s: State, r: Ref)
    requires r < |s.stores|
  {
    Matches(s, r) || Push(r) in s.tasks || WillCheck(s, r) || (s.stores[r].last.None? && WillSave(s, r))
  }

  /** A live store with a snapshot, whose pending work can only repair it. Other pending work
      belongs to stores of other nodes. */
  ghost predicate Ready(s: State, r: Ref, target: seq<string>) {
    && !s.crashed
    && r < |s.stores| && !s.stores[r].stopped && (s.stores[r].last.None? <==> s.stores[r].lastArray.None?)
    && CachedFor(s, r).Some? && CachedFor(s, r).value.version != ""
    && (forall t :: t in s.tasks && t.ref == r ==> RepairTask(target, t))
    && (forall t :: t in s.tasks && t.ref != r ==> t.ref < |s.stores| && s.stores[t.ref].config.id != s.stores[r].config.id)
  }

  /** What holds at every point of the repair of store r, in any order of its tasks. */
  ghost predicate Repairing(s: State, r: Ref, target: seq<string>) {
    && Ready(s, r, target)
    && (s.stores[r].lastArray == Some(target) || WillSave(s, r))
    && WillMatch(s, r)
  }

  lemma StillPending(validIP: string -> bool, s: State, l: Label, t: Task)
    requires IsTaskLabel(l) && TaskEnabled(s, l) && !CrashesNow(s, l)
    requires (t in s.tasks && t != s.tasks[l.i]) || t in Started(validIP, s, l)
    ensures t in RunTask(validIP, s, l).tasks
  {
  }

  /** This step is one of store r's own tasks, and does not crash. */
  predicate OwnStep(s: State, l: Label, r: Ref) {
    IsTaskLabel(l) && TaskEnabled(s, l) && !CrashesNow(s, l) && s.tasks[l.i].ref == r
  }

  lemma RepairingSave(validIP: string -> bool, s: State, l: Label, r: Ref, target: seq<string>)
    requires Repairing(s, r, target) && OwnStep(s, l, r) && Calm(validIP, target, l)
    ensures
      var s' := RunTask(validIP, s, l);
      r < |s'.stores| && (s'.stores[r].lastArray == Some(target) || WillSave(s', r))
  {
    hide FindingOk, AddressesPass, Fingerprint;
    var s' := RunTask(validIP, s, l);
    var t := s.tasks[l.i];
    assert t in s.tasks;
    if l.RunSync? || l.RunNotify? {
      StillPending(validIP, s, l, Save(r, l.RunSync?));
      assert Saves(Save(r, l.RunSync?));
    } else if l.RunSave? {
      var next := SaveCommit(r, l.finding.eps, target, t.check);
      StillPending(validIP, s, l, next);
      assert Saves(next);
    } else if l.RunRecheck? && Check(s.stores[r], CachedFor(s, r)).Resets? {
      StillPending(validIP, s, l, Save(r, false));
      assert Saves(Save(r, false));
    } else if !l.RunCommit? && s.stores[r].lastArray != Some(target) {
      var u :| u in s.tasks && u.ref == r && Saves(u);
      StillPending(validIP, s, l, u);
    }
  }

  lemma MatchAfterPush(validIP: string -> bool, s: State, l: Label, r: Ref, target: seq<string>)
    requires Ready(s, r, target) && l.RunPush? && OwnStep(s, l, r) && Calm(validIP, target, l)
    ensures r < |RunTask(validIP, s, l).stores| && Matches(RunTask(validIP, s, l), r)
  {
    assert s.tasks[l.i] in s.tasks;
  }

  lemma MatchAfterRecheck(validIP: string -> bool, s: State, l: Label, r: Ref, target: seq<string>)
    requires Repairing(s, r, target) && l.RunRecheck? && OwnStep(s, l, r)
    ensures r < |RunTask(validIP, s, l).stores| && WillMatch(RunTask(validIP, s, l), r)
  {
    var s' := RunTask(validIP, s, l);
    assert s.tasks[l.i] in s.tasks;
    if s.stores[r].last.None? {
      var u :| u in s.tasks && u.ref == r && Saves(u);
      StillPending(validIP, s, l, u);
    } else if Matches(s, r) {
      assert Matches(s', r);
    } else {
      StillPending(validIP, s, l, Save(r, false));
      assert Saves(Save(r, false));
    }
  }

  lemma MatchAfterSave(validIP: string -> bool, s: State, l: Label, r: Ref, target: seq<string>)
    requires Repairing(s, r, target) && (l.RunNotify? || l.RunSync? || l.RunSave?) && OwnStep(s, l, r) && Calm(validIP, target, l)
    ensures r < |RunTask(validIP, s, l).stores| && WillMatch(RunTask(validIP, s, l), r)
  {
    hide FindingOk, AddressesPass, Fingerprint, Commit;
    var s' := RunTask(validIP, s, l);
    var t := s.tasks[l.i];
    assert t in s.tasks;
    RepairingSave(validIP, s, l, r, target);
    assert s'.stores[r] == s.stores[r] && s'.cache == s.cache;
    var next := if l.RunSave? then SaveCommit(r, l.finding.eps, target, t.check) else Save(r, l.RunSync?);
    StillPending(validIP, s, l, next);
    if Matches(s, r) {
    } else if Push(r) in s.tasks {
      StillPending(validIP, s, l, Push(r));
    } else if WillCheck(s, r) {
      var u :| u in s.tasks && u.ref == r && Checks(u);
      var v := if u == t then next else u;
      StillPending(validIP, s, l, v);
      assert Checks(v);
    } else {
      assert Saves(next);
    }
  }

  lemma MatchAfterCommit(validIP: string -> bool, s: State, l: Label, r: Ref, target: seq<string>)
    requires Repairing(s, r, target) && l.RunCommit? && OwnStep(s, l, r)
    ensures r < |RunTask(validIP, s, l).stores| && WillMatch(RunTask(validIP, s, l), r)
  {
    var s' := RunTask(validIP, s, l);
    var t := s.tasks[l.i];
    assert t in s.tasks;
    if Changed(s.stores[r], target) {
      StillPending(validIP, s, l, Push(r));
    } else {
      assert s'.stores[r] == s.stores[r] && s'.cache == s.cache;
      if Push(r) in s.tasks {
        StillPending(validIP, s, l, Push(r));
      } else if WillCheck(s, r) {
        var u :| u in s.tasks && u.ref == r && Checks(u);
        var v := if u == t then Recheck(r) else u;
        StillPending(validIP, s, l, v);
        assert Checks(v);
      }
    }
  }

  lemma RepairingMatch(validIP: string -> bool, s: State, l: Label, r: Ref, target: seq<string>)
    requires Repairing(s, r, target) && OwnStep(s, l, r) && Calm(validIP, target, l)
    ensures r < |RunTask(validIP, s, l).stores| && WillMatch(RunTask(validIP, s, l), r)
  {
    assert s.tasks[l.i] in s.tasks && RepairTask(target, s.tasks[l.i]);
    hide Repairing, WillMatch, RunTask, CrashesNow;
    if l.RunPush? {
      RepairingIsReady(s, r, target);
      MatchAfterPush(validIP, s, l, r, target);
      assert WillMatch(RunTask(validIP, s, l), r) by { MatchIsEnough(RunTask(validIP, s, l), r); }
    } else if l.RunRecheck? {
      MatchAfterRecheck(validIP, s, l, r, target);
    } else if l.RunCommit? {
      MatchAfterCommit(validIP, s, l, r, target);
    } else {
      MatchAfterSave(validIP, s, l, r, target);
    }
  }

  lemma RepairingIsReady(s: State, r: Ref, target: seq<string>)
    requires Repairing(s, r, target)
    ensures Ready(s, r, target)
  {
  }

  lemma MatchIsEnough(s: State, r: Ref)
    requires r < |s.stores| && Matches(s, r)
    ensures WillMatch(s, r)
  {
  }

  lemma StartedInRepair(validIP: string -> bool, s: State, l: Label, target: seq<string>)
    requires IsTaskLabel(l) && TaskEnabled(s, l) && Calm(validIP, target, l)
    requires RepairTask(target, s.tasks[l.i])
    ensures forall t :: t in Started(validIP, s, l) ==> RepairTask(target, t)
  {
  }

  lemma ReadyStore(validIP: string -> bool, s: State, l: Label, r: Ref, target: seq<string>)
    requires Ready(s, r, target) && OwnStep(s, l, r)
    ensures
      var s' := RunTask(validIP, s, l);
      && r < |s'.stores| && !s'.stores[r].stopped && (s'.stores[r].last.None? <==> s'.stores[r].lastArray.None?)
      && CachedFor(s', r).Some? && CachedFor(s', r).value.version != ""
  {
    TaskKeepsConfig(s, l);
    assert s.tasks[l.i] in s.tasks && RepairTask(target, s.tasks[l.i]);
  }

  lemma ReadyOwnStep(validIP: string -> bool, s: State, l: Label, r: Ref, target: seq<string>)
    requires Ready(s, r, target) && OwnStep(s, l, r) && Calm(validIP, target, l)
    ensures Ready(RunTask(validIP, s, l), r, target)
  {
    assert s.tasks[l.i] in s.tasks && RepairTask(target, s.tasks[l.i]);
    ReadyStore(validIP, s, l, r, target);
    StartedInRepair(validIP, s, l, target);
    TaskFrame(validIP, s, l);
    assert RunTask(validIP, s, l).crashed == s.crashed;
    hide RunTask, CachedFor, RepairTask, StoreAfter, Started, TaskEnabled;
  }

  lemma RepairingOwnStep(validIP: string -> bool, s: State, l: Label, r: Ref, target: seq<string>)
    requires Repairing(s, r, target) && OwnStep(s, l, r) && Calm(validIP, target, l)
    ensures Repairing(RunTask(validIP, s, l), r, target)
  {
    RepairingIsReady(s, r, target);
    ReadyOwnStep(validIP, s, l, r, target);
    RepairingSave(validIP, s, l, r, target);
    RepairingMatch(validIP, s, l, r, target);
    hide Ready, RunTask, WillMatch, WillSave, OwnStep;
  }

  // ----- steps of other nodes

  /** The step is a task of a store of another node, and does not crash. */
  ghost predicate OthersStep(s: State, l: Label, r: Ref)
    requires r < |s.stores|
  {
    && IsTaskLabel(l) && TaskEnabled(s, l) && !CrashesNow(s, l)
    && s.stores[s.tasks[l.i].ref].config.id != s.stores[r].config.id
  }

  lemma OthersFrame(validIP: string -> bool, s: State, l: Label, r: Ref)
    requires r < |s.stores| && OthersStep(s, l, r)
    ensures
      var s' := RunTask(validIP, s, l);
      && |s'.stores| == |s.stores| && s'.stores[r] == s.stores[r] && CachedFor(s', r) == CachedFor(s, r)
      && s'.crashed == s.crashed
      && forall t: Task :: t.ref == r ==> (t in s'.tasks <==> t in s.tasks)
  {
    TaskKeepsConfig(s, l);
    StartedRef(validIP, s, l);
    hide StoreAfter, Started;
    var s' := RunTask(validIP, s, l);
    forall t: Task | t.ref == r && t in s.tasks ensures t in s'.tasks {
      StillPending(validIP, s, l, t);
    }
  }

  lemma ReadyOthersStep(validIP: string -> bool, s: State, l: Label, r: Ref, target: seq<string>)
    requires Ready(s, r, target) && OthersStep(s, l, r)
    ensures Ready(RunTask(validIP, s, l), r, target)
  {
    OthersFrame(validIP, s, l, r);
    TaskFrame(validIP, s, l);
    hide RunTask, CachedFor, RepairTask, StoreAfter, Started, TaskEnabled;
  }

  lemma RepairingOthersStep(validIP: string -> bool, s: State, l: Label, r: Ref, target: seq<string>)
    requires Repairing(s, r, target) && OthersStep(s, l, r)
    ensures Repairing(RunTask(validIP, s, l), r, target)
  {
    OthersFrame(validIP, s, l, r);
    ReadyOthersStep(validIP, s, l, r, target);
    hide RunTask, CachedFor, Ready, Saves, Checks, OthersStep;
    var s' := RunTask(validIP, s, l);
    if WillSave(s, r) {
      var u :| u in s.tasks && u.ref == r && Saves(u);
      assert u in s'.tasks;
    }
    if WillCheck(s, r) {
      var u :| u in s.tasks && u.ref == r && Checks(u);
      assert u in s'.tasks;
    }
  }

  // ----- the repair of one store alone

  /** All pending work is that of store r. */
  predicate AllOwn(s: State, r: Ref) {
    forall t :: t in s.tasks ==> t.ref == r
  }

  lemma RepairingStep(validIP: string -> bool, s: State, l: Label, r: Ref, target: seq<string>)
    requires Repairing(s, r, target) && AllOwn(s, r) && Enabled(s, l) && Calm(validIP, target, l)
    ensures Repairing(Apply(validIP, s, l), r, target) && AllOwn(Apply(validIP, s, l), r)
    ensures r < |s.stores| && r < |Apply(validIP, s, l).stores| && Apply(validIP, s, l).stores[r].secrets == s.stores[r].secrets
  {
    assert r < |s.stores| && RepairTask(target, s.tasks[l.i]) by { RepairingIsReady(s, r, target); assert s.tasks[l.i] in s.tasks; }
    StepFields(validIP, s, l, r);
    assert s.tasks[l.i] in s.tasks && s.tasks[l.i].ref == r;
    assert !CrashesNow(s, l);
    TaskFrame(validIP, s, l);
    RepairingOwnStep(validIP, s, l, r, target);
    hide RunTask, Repairing, Started, StoreAfter;
  }

  lemma {:induction false} RepairingRun(validIP: string -> bool, s: State, ls: seq<Label>, r: Ref, target: seq<string>)
    requires Repairing(s, r, target) && AllOwn(s, r) && CanRun(validIP, s, ls)
    requires forall l :: l in ls ==> Calm(validIP, target, l)
    ensures Repairing(Run(validIP, s, ls), r, target)
    ensures r < |s.stores| && r < |Run(validIP, s, ls).stores| && Run(validIP, s, ls).stores[r].secrets == s.stores[r].secrets
    decreases |ls|
  {
    assert r < |s.stores| by { RepairingIsReady(s, r, target); }
    if ls != [] {
      hide Apply, Enabled, Repairing, AllOwn, Calm;
      RepairingStep(validIP, s, ls[0], r, target);
      RepairingRun(validIP, Apply(validIP, s, ls[0]), ls[1..], r, target);
    }
  }

  /** A Sync starts a repair; so does a pod or endpoints event, if the cache shows the store's version. */
  predicate Starts(s: State, visitor: Visitor, id: string)
    requires id in s.storeMap && s.storeMap[id] < |s.stores| && id in s.cache
  {
    visitor.SyncTick? || (visitor.PodEvent? && s.cache[id].version == s.stores[s.storeMap[id]].version)
  }

  lemma RepairStarts(validIP: string -> bool, s: State, visitor: Visitor, id: string, target: seq<string>)
    requires Inv(s) && !s.crashed && s.tasks == [] && id in s.storeMap && id in s.cache
    requires !s.stores[s.storeMap[id]].stopped && Starts(s, visitor, id)
    ensures Enabled(s, Visit(visitor, id))
    ensures Repairing(Apply(validIP, s, Visit(visitor, id)), s.storeMap[id], target)
    ensures AllOwn(Apply(validIP, s, Visit(visitor, id)), s.storeMap[id])
  {
    KeyIsId(s, id);
    VisitStep(validIP, s, visitor, id);
    CachedVersion(s, id);
    var r := s.storeMap[id];
    assert StoreOk(s.stores[r]);
    hide Inv, Apply, Enabled, PublishedFrom;
    var s' := s.(tasks := s.tasks + [Visited(visitor, r)]);
    assert s'.tasks[0] == Visited(visitor, r);
    assert Saves(s'.tasks[0]) && (visitor.SyncTick? ==> Checks(s'.tasks[0]));
    assert visitor.PodEvent? ==> Matches(s', r);
  }

  lemma CachedVersion(s: State, id: string)
    requires Inv(s) && id in s.cache
    ensures s.cache[id].version != ""
  {
  }

  lemma RepairEnds(s: State, r: Ref, target: seq<string>)
    requires Inv(s) && Repairing(s, r, target) && s.tasks == []
    ensures s.stores[r].lastArray == Some(target) && s.stores[r].last.Some?
    ensures Fingerprint(s.stores[r].last.value) == target
    ensures s.stores[r].config.id in s.cache && s.cache[s.stores[r].config.id] == SnapshotOf(s.stores[r])
  {
    assert StoreOk(s.stores[r]);
    assert NotLost(s, r);
  }

  /** Every save of the drain finds endpoints that amount to `wanted`, and every push succeeds. */
  predicate CalmFor(validIP: string -> bool, wanted: multiset<Entry>, l: Label) {
    && IsTaskLabel(l)
    && (l.RunSave? ==> Usable(validIP, l.finding).Some? && multiset(Entries(l.finding.eps)) == wanted)
    && (l.RunPush? ==> l.outcome.Pushed?)
  }

  /** The first two actions of any drain are the start of the visit's work and its save. */
  lemma FirstSaveOfDrain(validIP: string -> bool, s: State, drain: seq<Label>, r: Ref) returns (sample: Label)
    requires !s.crashed && (s.tasks == [SyncCall(r)] || s.tasks == [Notify(r)]) && r < |s.stores| && !s.stores[r].stopped
    requires CanRun(validIP, s, drain) && Run(validIP, s, drain).tasks == []
    requires forall l :: l in drain ==> IsTaskLabel(l)
    ensures sample in drain && sample.RunSave?
  {
    assert drain[0].i == 0;
    var s2 := Apply(validIP, s, drain[0]);
    assert s2.tasks == [Save(r, s.tasks[0].SyncCall?)];
    var rest := drain[1..];
    assert rest[0] in drain;
    assert rest[0].i == 0;
    sample := rest[0];
  }

  /** Where all that is pending is one store's, every save finds something for that store. */
  lemma {:induction false} FindingsOk(validIP: string -> bool, s: State, ls: seq<Label>, r: Ref)
    requires CanRun(validIP, s, ls) && r < |s.stores| && forall t :: t in s.tasks ==> t.ref == r
    requires forall l :: l in ls ==> IsTaskLabel(l)
    ensures forall l :: l in ls && l.RunSave? ==> FindingOk(s.stores[r].config, l.finding)
    decreases |ls|
  {
    if ls != [] {
      var l := ls[0];
      assert s.tasks[l.i] in s.tasks;
      TaskFrame(validIP, s, l);
      hide FindingOk, RunTask, CrashesNow, Started, StoreAfter;
      FindingsOk(validIP, Apply(validIP, s, l), ls[1..], r);
    }
  }

  /** Convergence. After any history, take a moment at which nothing is pending and the
      node has a live store and some snapshot, whoever wrote it. One Sync, followed by its
      tasks in any order until none is left, ends with the cache showing the store's own
      version and exactly the endpoints the cluster has, up to order and metadata, next to the
      secrets the store had. */
  lemma SyncConverges(validIP: string -> bool, before: seq<Label>, drain: seq<Label>, id: string, wanted: multiset<Entry>)
    requires CanRun(validIP, INITIAL, before)
    requires
      var s := Run(validIP, INITIAL, before);
      && !s.crashed && s.tasks == [] && id in s.cache
      && id in s.storeMap && s.storeMap[id] < |s.stores| && !s.stores[s.storeMap[id]].stopped
    requires
      var s := Run(validIP, INITIAL, before);
      && CanRun(validIP, Apply(validIP, s, Visit(SyncTick, id)), drain)
      && Run(validIP, Apply(validIP, s, Visit(SyncTick, id)), drain).tasks == []
    requires forall l :: l in drain ==> CalmFor(validIP, wanted, l)
    requires IPsHoldNoPipe(validIP) && forall l :: l in before + drain ==> ZonesHoldNoPipe(l)
    ensures
      var s := Run(validIP, INITIAL, before);
      var end := Run(validIP, Apply(validIP, s, Visit(SyncTick, id)), drain);
      && !end.crashed && |drain| <= 8
      && s.storeMap[id] < |end.stores| && id in end.cache && end.cache[id] == SnapshotOf(end.stores[s.storeMap[id]])
      && end.cache[id].version == end.stores[s.storeMap[id]].version
      && end.stores[s.storeMap[id]].last == Some(end.cache[id].endpoints)
      && multiset(Entries(end.cache[id].endpoints)) == wanted
      && end.cache[id].secrets == s.stores[s.storeMap[id]].config.secrets + s.stores[s.storeMap[id]].secrets
  {
    var s := Run(validIP, INITIAL, before);
    Reachable(validIP, before);
    assert forall l :: l in before ==> l in before + drain;
    assert forall l :: l in drain ==> l in before + drain;
    TidyLists(validIP, before);
    VisitStep(validIP, s, SyncTick, id);
    hide CanRun, Run, Apply, Enabled, ZonesHoldNoPipe, IPsHoldNoPipe;
    DrainRepairs(validIP, s, drain, SyncTick, id, wanted);
  }

  /** Convergence of a pod or endpoints event. Where nothing is pending and the cache shows the
      version of a live store, one such event, followed by its tasks until none is left, does
      the same: store and cache end with what the cluster has. */
  lemma EventConverges(validIP: string -> bool, before: seq<Label>, drain: seq<Label>, id: string, wanted: multiset<Entry>)
    requires CanRun(validIP, INITIAL, before)
    requires
      var s := Run(validIP, INITIAL, before);
      && !s.crashed && s.tasks == [] && id in s.cache
      && id in s.storeMap && s.storeMap[id] < |s.stores| && !s.stores[s.storeMap[id]].stopped
      && s.cache[id].version == s.stores[s.storeMap[id]].version
    requires
      var s := Run(validIP, INITIAL, before);
      && CanRun(validIP, Apply(validIP, s, Visit(PodEvent, id)), drain)
      && Run(validIP, Apply(validIP, s, Visit(PodEvent, id)), drain).tasks == []
    requires forall l :: l in drain ==> CalmFor(validIP, wanted, l)
    requires IPsHoldNoPipe(validIP) && forall l :: l in before + drain ==> ZonesHoldNoPipe(l)
    ensures
      var s := Run(validIP, INITIAL, before);
      var end := Run(validIP, Apply(validIP, s, Visit(PodEvent, id)), drain);
      && !end.crashed && |drain| <= 4
      && s.storeMap[id] < |end.stores| && id in end.cache
      && end.cache[id].version == end.stores[s.storeMap[id]].version
      && end.stores[s.storeMap[id]].last == Some(end.cache[id].endpoints)
      && multiset(Entries(end.cache[id].endpoints)) == wanted
      && end.cache[id].secrets == s.stores[s.storeMap[id]].config.secrets + s.stores[s.storeMap[id]].secrets
  {
    var s := Run(validIP, INITIAL, before);
    Reachable(validIP, before);
    assert forall l :: l in before ==> l in before + drain;
    assert forall l :: l in drain ==> l in before + drain;
    TidyLists(validIP, before);
    VisitStep(validIP, s, PodEvent, id);
    hide CanRun, Run, Apply, Enabled, ZonesHoldNoPipe, IPsHoldNoPipe;
    DrainRepairs(validIP, s, drain, PodEvent, id, wanted);
  }

  /** Both, from any state that satisfies the invariant. */
  lemma DrainRepairs(validIP: string -> bool, s: State, drain: seq<Label>, visitor: Visitor, id: string, wanted: multiset<Entry>)
    requires Inv(s) && ListsSatisfy(TidilyPublished, s) && !s.crashed && s.tasks == [] && id in s.cache
    requires id in s.storeMap && s.storeMap[id] < |s.stores| && !s.stores[s.storeMap[id]].stopped && Starts(s, visitor, id)
    requires Enabled(s, Visit(visitor, id))
    requires CanRun(validIP, Apply(validIP, s, Visit(visitor, id)), drain)
    requires Run(validIP, Apply(validIP, s, Visit(visitor, id)), drain).tasks == []
    requires IPsHoldNoPipe(validIP) && forall l :: l in drain ==> CalmFor(validIP, wanted, l) && ZonesHoldNoPipe(l)
    ensures
      var end := Run(validIP, Apply(validIP, s, Visit(visitor, id)), drain);
      && !end.crashed && |drain| <= (if visitor.SyncTick? then 8 else 4)
      && s.storeMap[id] < |end.stores| && id in end.cache && end.cache[id] == SnapshotOf(end.stores[s.storeMap[id]])
      && end.stores[s.storeMap[id]].last == Some(end.cache[id].endpoints)
      && multiset(Entries(end.cache[id].endpoints)) == wanted
      && end.stores[s.storeMap[id]].config == s.stores[s.storeMap[id]].config
      && end.stores[s.storeMap[id]].secrets == s.stores[s.storeMap[id]].secrets
  {
    hide Apply, Enabled, CanRun, Run, Inv, Repairing, ListsSatisfy, Entries, IPsHoldNoPipe, ZonesHoldNoPipe, TidilyPublished;
    hide FindingSatisfies, FindingOk;
    var visit := Visit(visitor, id);
    var r := s.storeMap[id];
    KeyIsId(s, id);
    VisitStep(validIP, s, visitor, id);
    var t := Visited(visitor, r);
    var s1 := s.(tasks := s.tasks + [t]);
    assert s1.tasks == [t] && (t == SyncCall(r) || t == Notify(r));
    VisitFindsNothing(validIP, TidilyPublished, visit);
    StepSatisfies(validIP, TidilyPublished, s, visit);
    var first := FirstSaveOfDrain(validIP, s1, drain, r);
    assert CalmFor(validIP, wanted, first);
    var sample := first.finding.eps;
    FindingsOk(validIP, s1, drain, r);
    SampleIsTidy(validIP, s.stores[r].config, first);
    RepairStarts(validIP, s, visitor, id, Fingerprint(sample));
    TargetReached(validIP, s1, drain, r, sample, wanted);
    DrainingTerminates(validIP, s1, drain);
    MeasureSmall(t, t);
  }

  lemma VisitFindsNothing(validIP: string -> bool, ok: ListProperty, l: Label)
    requires l.Visit?
    ensures FindingSatisfies(validIP, ok, l)
  {
  }

  lemma SampleIsTidy(validIP: string -> bool, config: Config, l: Label)
    requires l.RunSave? && FindingOk(config, l.finding) && Usable(validIP, l.finding).Some?
    requires IPsHoldNoPipe(validIP) && ZonesHoldNoPipe(l)
    ensures TidilyPublished(config.statics, l.finding.eps)
  {
    hide FindingOk, IPsHoldNoPipe, ZonesHoldNoPipe, TidilyPublished;
    TidyFinding(validIP, l);
  }

  lemma KeyIsId(s: State, id: string)
    requires Inv(s) && id in s.storeMap
    ensures s.storeMap[id] < |s.stores| && s.stores[s.storeMap[id]].config.id == id
  {
  }

  lemma CalmForTarget(validIP: string -> bool, wanted: multiset<Entry>, sample: seq<ClusterLoad>, l: Label)
    requires CalmFor(validIP, wanted, l) && multiset(Entries(sample)) == wanted
    ensures Calm(validIP, Fingerprint(sample), l)
  {
    if l.RunSave? {
      SameEntriesSameFingerprint(l.finding.eps, sample);
    }
  }

  lemma TargetReached(validIP: string -> bool, s: State, drain: seq<Label>, r: Ref, sample: seq<ClusterLoad>, wanted: multiset<Entry>)
    requires Inv(s) && ListsSatisfy(TidilyPublished, s) && Repairing(s, r, Fingerprint(sample)) && AllOwn(s, r)
    requires TidilyPublished(s.stores[r].config.statics, sample) && multiset(Entries(sample)) == wanted
    requires CanRun(validIP, s, drain) && Run(validIP, s, drain).tasks == []
    requires IPsHoldNoPipe(validIP) && forall l :: l in drain ==> CalmFor(validIP, wanted, l) && ZonesHoldNoPipe(l)
    ensures
      var end := Run(validIP, s, drain);
      && !end.crashed && r < |end.stores| && end.stores[r].config == s.stores[r].config
      && s.stores[r].config.id in end.cache && end.cache[s.stores[r].config.id] == SnapshotOf(end.stores[r])
      && end.stores[r].last == Some(end.cache[s.stores[r].config.id].endpoints)
      && end.stores[r].secrets == s.stores[r].secrets
      && multiset(Entries(end.cache[s.stores[r].config.id].endpoints)) == wanted
  {
    hide Apply, Enabled, CalmFor, Calm, TidilyPublished, FindingSatisfies, ZonesHoldNoPipe;
    var target := Fingerprint(sample);
    forall l | l in drain ensures Calm(validIP, target, l) && FindingSatisfies(validIP, TidilyPublished, l) {
      CalmForTarget(validIP, wanted, sample, l);
      TidyFinding(validIP, l);
    }
    RepairingRun(validIP, s, drain, r, target);
    RunGrows(validIP, s, drain);
    RunSatisfies(validIP, TidilyPublished, s, drain);
    var end := Run(validIP, s, drain);
    hide Run, CanRun;
    RepairEnds(end, r, target);
    assert StoreSatisfies(TidilyPublished, end.stores[r]);
    TidyDecides(s.stores[r].config.statics, end.stores[r].last.value, sample);
  }

  // ----- such a drain exists

  lemma {:induction false} LongerThanAll(used: set<string>) returns (n: nat)
    ensures forall v :: v in used ==> |v| < n
    decreases |used|
  {
    if used == {} {
      n := 1;
    } else {
      var v :| v in used;
      var m := LongerThanAll(used - {v});
      n := if m > |v| then m else |v| + 1;
    }
  }

  /** There is always a version that was never used. */
  lemma FreshVersion(used: set<string>) returns (version: string)
    ensures version != "" && version !in used
  {
    var n := LongerThanAll(used);
    version := seq(n + 1, i => 'x');
  }

  // ----- pending work is never stuck

  /** In any state that has not crashed, every pending task can act, whatever the listers, the
      certificates and the cache do. */
  lemma TaskNeverStuck(s: State, i: nat) returns (l: Label)
    requires RefsOk(s) && !s.crashed && i < |s.tasks|
    ensures IsTaskLabel(l) && l.i == i && Enabled(s, l)
  {
    var t := s.tasks[i];
    assert t in s.tasks;
    var version := FreshVersion(s.used);
    l := match t
      case Notify(_) => RunNotify(i)
      case SyncCall(_) => RunSync(i)
      case Rotate(_) => RunRotate(i, Failure)
      case Save(_, _) => RunSave(i, ListerFailed)
      case SaveCommit(_, _, _, _) => RunCommit(i)
      case Recheck(_) => RunRecheck(i)
      case Push(_) => RunPush(i, version, BuildFailed);
  }

  /** So a schedule of the pending work that cannot be made longer has emptied the queue, or
      crashed. */
  lemma LongestDrainEmpties(validIP: string -> bool, s: State, ls: seq<Label>)
    requires Inv(s) && CanRun(validIP, s, ls) && forall l :: l in ls ==> IsTaskLabel(l)
    requires forall l :: IsTaskLabel(l) ==> !Enabled(Run(validIP, s, ls), l)
    ensures |ls| <= Measure(s.tasks) + 1
    ensures Run(validIP, s, ls).crashed || Run(validIP, s, ls).tasks == []
  {
    RunKeepsInv(validIP, s, ls);
    DrainingTerminates(validIP, s, ls);
    var end := Run(validIP, s, ls);
    hide Run, CanRun, Enabled, MapOk, DataOk, VersionsOk;
    if !end.crashed && end.tasks != [] {
      var l := TaskNeverStuck(end, 0);
    }
  }

  /** And from every state there is a schedule that does. */
  lemma {:induction false} DrainPossible(validIP: string -> bool, s: State) returns (ls: seq<Label>)
    requires Inv(s) && !s.crashed
    ensures CanRun(validIP, s, ls) && forall l :: l in ls ==> IsTaskLabel(l)
    ensures Run(validIP, s, ls).crashed || Run(validIP, s, ls).tasks == []
    decreases Measure(s.tasks)
  {
    hide Apply, Enabled, MapOk, DataOk, VersionsOk, Measure, RefsOk;
    ls := [];
    if s.tasks != [] {
      var l := TaskNeverStuck(s, 0);
      var s' := Apply(validIP, s, l);
      TaskStepShrinks(validIP, s, l);
      StepKeepsInv(validIP, s, l);
      if !s'.crashed {
        ls := DrainPossible(validIP, s');
      }
      var rest := ls;
      ls := [l] + rest;
      assert ls[1..] == rest;
      RunCons(validIP, s, ls);
    }
  }

  /** If the cluster can be found as wanted, all that a repair has started can run to its end. */
  lemma {:induction false} DrainExists(validIP: string -> bool, s: State, r: Ref, finding: Finding) returns (drain: seq<Label>)
    requires Usable(validIP, finding).Some? && r < |s.stores| && FindingOk(s.stores[r].config, finding)
    requires Repairing(s, r, Fingerprint(finding.eps)) && AllOwn(s, r)
    ensures forall l :: l in drain ==> CalmFor(validIP, multiset(Entries(finding.eps)), l)
    ensures forall l :: l in drain && l.RunSave? ==> l.finding == finding
    ensures CanRun(validIP, s, drain) && Run(validIP, s, drain).tasks == []
    decreases Measure(s.tasks)
  {
    drain := [];
    if s.tasks != [] {
      var t := s.tasks[0];
      assert t in s.tasks && RepairTask(Fingerprint(finding.eps), t);
      var version := FreshVersion(s.used);
      var l :=
        if t.Notify? then RunNotify(0)
        else if t.SyncCall? then RunSync(0)
        else if t.Save? then RunSave(0, finding)
        else if t.SaveCommit? then RunCommit(0)
        else if t.Recheck? then RunRecheck(0)
        else RunPush(0, version, Pushed);
      RepairingStep(validIP, s, l, r, Fingerprint(finding.eps));
      TaskStepShrinks(validIP, s, l);
      StepFields(validIP, s, l, r);
      hide Apply, Enabled, Repairing, Ready, FindingOk, Measure, Fingerprint, Entries, AllOwn;
      var rest := DrainExists(validIP, Apply(validIP, s, l), r, finding);
      drain := [l] + rest;
      assert drain[1..] == rest;
      RunCons(validIP, s, drain);
    }
  }

  /** So a Sync or an event whose store can find its endpoints has a drain as convergence speaks
      of, all of whose saves find just that. */
  lemma RepairPossible(validIP: string -> bool, before: seq<Label>, visitor: Visitor, id: string, finding: Finding) returns (drain: seq<Label>)
    requires CanRun(validIP, INITIAL, before)
    requires
      var s := Run(validIP, INITIAL, before);
      && !s.crashed && s.tasks == [] && id in s.cache
      && id in s.storeMap && s.storeMap[id] < |s.stores| && !s.stores[s.storeMap[id]].stopped && Starts(s, visitor, id)
      && FindingOk(s.stores[s.storeMap[id]].config, finding) && Usable(validIP, finding).Some?
    ensures
      var s1 := Apply(validIP, Run(validIP, INITIAL, before), Visit(visitor, id));
      && CanRun(validIP, s1, drain) && Run(validIP, s1, drain).tasks == []
    ensures forall l :: l in drain ==> CalmFor(validIP, multiset(Entries(finding.eps)), l)
    ensures forall l :: l in drain && l.RunSave? ==> l.finding == finding
  {
    var s := Run(validIP, INITIAL, before);
    Reachable(validIP, before);
    VisitStep(validIP, s, visitor, id);
    KeyIsId(s, id);
    RepairStarts(validIP, s, visitor, id, Fingerprint(finding.eps));
    hide Apply, Enabled, CanRun, Run, Inv, Repairing;
    drain := DrainExists(validIP, Apply(validIP, s, Visit(visitor, id)), s.storeMap[id], finding);
  }

  // ----- visits that repair nothing

  /** A Sync or an event of a stopped store ends in the very state it began in. */
  lemma StoppedStoreIgnores(validIP: string -> bool, s: State, drain: seq<Label>, visitor: Visitor, id: string)
    requires !s.crashed && s.tasks == [] && id in s.storeMap && s.storeMap[id] < |s.stores|
    requires s.stores[s.storeMap[id]].stopped && !visitor.RotationTick?
    requires Enabled(s, Visit(visitor, id)) && CanRun(validIP, Apply(validIP, s, Visit(visitor, id)), drain)
    requires Run(validIP, Apply(validIP, s, Visit(visitor, id)), drain).tasks == [] && forall l :: l in drain ==> IsTaskLabel(l)
    ensures Run(validIP, Apply(validIP, s, Visit(visitor, id)), drain) == s
  {
    var t := Visited(visitor, s.storeMap[id]);
    VisitStep(validIP, s, visitor, id);
    var s1 := s.(tasks := s.tasks + [t]);
    assert s1.tasks == [t];
    var l, rest := drain[0], drain[1..];
    assert l.i == 0;
    TailStep(validIP, s1, [], t, l);
    assert s1.(tasks := []) == s;
    hide Apply, Enabled;
    RunCons(validIP, s1, drain);
    NoWorkNoRun(validIP, s, rest);
  }

  lemma NoWorkNoRun(validIP: string -> bool, s: State, ls: seq<Label>)
    requires s.tasks == [] && CanRun(validIP, s, ls) && forall l :: l in ls ==> IsTaskLabel(l)
    ensures ls == []
  {
  }

  /** The state with these secrets in store r and in its snapshot, under this version. */
  function Republished(s: State, r: Ref, version: string, secrets: seq<Secret>): State
    requires r < |s.stores|
  {
    var st := s.stores[r];
    s.(used := s.used + {version},
       stores := s.stores[r := st.(secrets := secrets, version := version)],
       cache := s.cache[st.config.id := Snapshot(version, if st.last.Some? then st.last.value else [], st.config.secrets + secrets)])
  }

  /** A rotation, on a store live or stopped: if the secrets can be created and are pushed, store
      and cache end with them and nothing else changes; if they cannot be, nothing changes at all. */
  lemma RotationServes(validIP: string -> bool, s: State, drain: seq<Label>, id: string, created: Result<seq<Secret>>)
    requires Inv(s) && !s.crashed && s.tasks == [] && id in s.storeMap && s.storeMap[id] < |s.stores|
    requires Enabled(s, Visit(RotationTick, id)) && CanRun(validIP, Apply(validIP, s, Visit(RotationTick, id)), drain)
    requires Run(validIP, Apply(validIP, s, Visit(RotationTick, id)), drain).tasks == []
    requires forall l :: l in drain ==> IsTaskLabel(l) && (l.RunRotate? ==> l.created == created) && (l.RunPush? ==> l.outcome.Pushed?)
    ensures
      var end := Run(validIP, Apply(validIP, s, Visit(RotationTick, id)), drain);
      var r := s.storeMap[id];
      if created.Failure? then end == s
      else exists version :: version !in s.used && end == Republished(s, r, version, created.value)
  {
    hide Apply, Enabled, Inv, Run, CanRun;
    var r := s.storeMap[id];
    KeyIsId(s, id);
    VisitStep(validIP, s, RotationTick, id);
    var s1 := s.(tasks := s.tasks + [Rotate(r)]);
    assert s1.tasks == [Rotate(r)] && s1.(tasks := []) == s;
    var l, rest := RotateFirst(validIP, s1, drain, r, created);
    assert forall k :: k in rest ==> k in drain;
    if created.Failure? {
      NoWorkNoRun(validIP, s, rest);
      NothingRun(validIP, s);
    } else {
      var s2 := s1.(stores := s.stores[r := s.stores[r].(secrets := created.value)], tasks := [Push(r)]);
      PushRuns(validIP, s2, rest, r);
      assert s2.used == s.used;
      RepublishedAgain(s, s2, r, created.value);
    }
  }

  lemma RepublishedAgain(s: State, s2: State, r: Ref, secrets: seq<Secret>)
    requires r < |s.stores| && s.tasks == []
    requires s2 == s.(stores := s.stores[r := s.stores[r].(secrets := secrets)], tasks := [Push(r)])
    ensures forall version :: Republished(s2, r, version, s2.stores[r].secrets).(tasks := []) == Republished(s, r, version, secrets)
  {
  }

  lemma NothingRun(validIP: string -> bool, s: State)
    ensures CanRun(validIP, s, []) && Run(validIP, s, []) == s
  {
  }

  /** The first action of the drain renews the secrets, or fails to. */
  lemma RotateFirst(validIP: string -> bool, s: State, drain: seq<Label>, r: Ref, created: Result<seq<Secret>>)
    returns (l: Label, rest: seq<Label>)
    requires !s.crashed && s.tasks == [Rotate(r)] && r < |s.stores| && CanRun(validIP, s, drain) && Run(validIP, s, drain).tasks == []
    requires forall k :: k in drain ==> IsTaskLabel(k) && (k.RunRotate? ==> k.created == created)
    ensures drain == [l] + rest
    ensures
      var s' := if created.Failure? then s.(tasks := [])
                else s.(stores := s.stores[r := s.stores[r].(secrets := created.value)], tasks := [Push(r)]);
      CanRun(validIP, s', rest) && Run(validIP, s, drain) == Run(validIP, s', rest)
  {
    l, rest := drain[0], drain[1..];
    assert l in drain;
    RotateStep(validIP, s, l, r);
    hide Apply, Enabled;
    RunCons(validIP, s, drain);
  }

  lemma RotateStep(validIP: string -> bool, s: State, l: Label, r: Ref)
    requires s.tasks == [Rotate(r)] && r < |s.stores| && Enabled(s, l) && IsTaskLabel(l)
    ensures l.RunRotate?
    ensures Apply(validIP, s, l) ==
      if l.created.Failure? then s.(tasks := [])
      else s.(stores := s.stores[r := s.stores[r].(secrets := l.created.value)], tasks := [Push(r)])
  {
    assert l.i == 0 && s.stores[r := s.stores[r]] == s.stores;
    hide FindingOk;
  }

  lemma PushRuns(validIP: string -> bool, s: State, ls: seq<Label>, r: Ref)
    requires !s.crashed && s.tasks == [Push(r)] && r < |s.stores| && CanRun(validIP, s, ls) && Run(validIP, s, ls).tasks == []
    requires forall l :: l in ls ==> IsTaskLabel(l) && (l.RunPush? ==> l.outcome.Pushed?)
    ensures exists version ::
      version !in s.used && Run(validIP, s, ls) == Republished(s, r, version, s.stores[r].secrets).(tasks := [])
  {
    var l, rest := ls[0], ls[1..];
    assert l in ls && l.i == 0 && l.RunPush?;
    var s' := Apply(validIP, s, l);
    assert s'.tasks == [];
    StepCache(validIP, s, l);
    hide SnapshotOf;
    assert forall k :: k in rest ==> k in ls;
    RunCons(validIP, s, ls);
    NoWorkNoRun(validIP, s', rest);
    assert l.version !in s.used;
  }

  // ----- the repair of all nodes at once

  /** Store `ref` of a node is ready, and registered under the node's ID. */
  ghost predicate NodeReady(s: State, id: string, target: seq<string>) {
    && id in s.storeMap && s.storeMap[id] < |s.stores| && s.stores[s.storeMap[id]].config.id == id
    && Ready(s, s.storeMap[id], target)
  }

  predicate NodeTask(s: State, ids: set<string>, t: Task) {
    t.ref < |s.stores| && s.stores[t.ref].config.id in ids && Registered(s, t.ref)
  }

  /** Every node is ready, and nothing is pending but work of their stores. `due` gives each node
      a list that shows what it should be served. */
  ghost predicate AllReady(s: State, due: map<string, seq<ClusterLoad>>) {
    && !s.crashed
    && (forall id :: id in due ==> NodeReady(s, id, Fingerprint(due[id])))
    && (forall t :: t in s.tasks ==> NodeTask(s, due.Keys, t))
  }

  /** A Sync tick, or a pod or endpoints event, of one of the nodes, or an action of pending work in
      a quiet environment: a save finds what is due for its node, and pushes succeed. */
  ghost predicate CalmStep(validIP: string -> bool, due: map<string, seq<ClusterLoad>>, s: State, l: Label) {
    if IsTaskLabel(l) then
      && l.i < |s.tasks| && s.tasks[l.i].ref < |s.stores|
      && var id := s.stores[s.tasks[l.i].ref].config.id;
      && id in due && CalmFor(validIP, multiset(Entries(due[id])), l)
    else l.Visit? && !l.visitor.RotationTick? && l.id in due
  }

  ghost predicate CalmRun(validIP: string -> bool, due: map<string, seq<ClusterLoad>>, s: State, ls: seq<Label>)
    requires CanRun(validIP, s, ls)
    decreases |ls|
  {
    ls != [] ==> CalmStep(validIP, due, s, ls[0]) && CalmRun(validIP, due, Apply(validIP, s, ls[0]), ls[1..])
  }

  /** Whose task this is, and that it does not crash. */
  lemma StepOwner(validIP: string -> bool, due: map<string, seq<ClusterLoad>>, s: State, l: Label) returns (id: string)
    requires AllReady(s, due) && Enabled(s, l) && IsTaskLabel(l) && CalmStep(validIP, due, s, l)
    ensures id in due && NodeReady(s, id, Fingerprint(due[id])) && OwnStep(s, l, s.storeMap[id])
    ensures Calm(validIP, Fingerprint(due[id]), l)
    ensures forall other :: other in due && other != id ==> NodeReady(s, other, Fingerprint(due[other])) && OthersStep(s, l, s.storeMap[other])
  {
    assert s.tasks[l.i] in s.tasks && NodeTask(s, due.Keys, s.tasks[l.i]);
    id := s.stores[s.tasks[l.i].ref].config.id;
    assert NodeReady(s, id, Fingerprint(due[id]));
    hide Fingerprint, Entries, FindingOk;
    CalmForTarget(validIP, multiset(Entries(due[id])), due[id], l);
  }

  /** A task keeps every node ready, and every repair under way. */
  lemma NodeAfterTask(validIP: string -> bool, due: map<string, seq<ClusterLoad>>, s: State, l: Label, id: string)
    requires AllReady(s, due) && Enabled(s, l) && IsTaskLabel(l) && CalmStep(validIP, due, s, l) && id in due
    ensures
      var s', r, target := Apply(validIP, s, l), s.storeMap[id], Fingerprint(due[id]);
      && NodeReady(s', id, target) && s'.storeMap == s.storeMap && !s'.crashed
      && (Repairing(s, r, target) ==> Repairing(s', r, target))
  {
    hide Fingerprint, CalmFor, Calm, RunTask, Ready, Repairing, StoreAfter, Started, CrashesNow, AllReady;
    var owner := StepOwner(validIP, due, s, l);
    var r, target := s.storeMap[id], Fingerprint(due[id]);
    TaskFrame(validIP, s, l);
    if id == owner {
      ReadyOwnStep(validIP, s, l, r, target);
      if Repairing(s, r, target) {
        RepairingOwnStep(validIP, s, l, r, target);
      }
    } else {
      ReadyOthersStep(validIP, s, l, r, target);
      if Repairing(s, r, target) {
        RepairingOthersStep(validIP, s, l, r, target);
      }
    }
    ReadyRuns(RunTask(validIP, s, l), r, target);
  }

  lemma ReadyRuns(s: State, r: Ref, target: seq<string>)
    requires Ready(s, r, target)
    ensures !s.crashed
  {
  }

  lemma TasksAfterTask(validIP: string -> bool, due: map<string, seq<ClusterLoad>>, s: State, l: Label)
    requires AllReady(s, due) && Enabled(s, l) && IsTaskLabel(l)
    ensures forall t :: t in Apply(validIP, s, l).tasks ==> NodeTask(Apply(validIP, s, l), due.Keys, t)
  {
    TaskFrame(validIP, s, l);
    assert s.tasks[l.i] in s.tasks;
    hide RunTask, Started, StoreAfter, TaskEnabled, NodeReady;
  }

  lemma ReadyAfterTask(validIP: string -> bool, due: map<string, seq<ClusterLoad>>, s: State, l: Label)
    requires AllReady(s, due) && Enabled(s, l) && IsTaskLabel(l) && CalmStep(validIP, due, s, l)
    ensures AllReady(Apply(validIP, s, l), due)
  {
    hide Apply, Enabled, NodeReady, NodeTask, CalmStep, Fingerprint;
    TasksAfterTask(validIP, due, s, l);
    forall id | id in due ensures NodeReady(Apply(validIP, s, l), id, Fingerprint(due[id])) {
      NodeAfterTask(validIP, due, s, l, id);
    }
    NotCrashed(validIP, due, s, l);
  }

  lemma NotCrashed(validIP: string -> bool, due: map<string, seq<ClusterLoad>>, s: State, l: Label)
    requires AllReady(s, due) && Enabled(s, l) && IsTaskLabel(l) && CalmStep(validIP, due, s, l)
    ensures !Apply(validIP, s, l).crashed
  {
    hide AllReady, Apply, Enabled, CalmStep, Fingerprint;
    var owner := StepOwner(validIP, due, s, l);
    NodeAfterTask(validIP, due, s, l, owner);
  }

  /** A tick starts the repair of its node and leaves the others as they are. */
  lemma NodeAfterTick(validIP: string -> bool, due: map<string, seq<ClusterLoad>>, s: State, l: Label, id: string)
    requires AllReady(s, due) && l.Visit? && !l.visitor.RotationTick? && l.id in due && id in due
    ensures Enabled(s, l)
    ensures
      var s', r, target := Apply(validIP, s, l), s.storeMap[id], Fingerprint(due[id]);
      && NodeReady(s', id, target) && s'.storeMap == s.storeMap && !s'.crashed
      && ((id == l.id && l.visitor.SyncTick?) || Repairing(s, r, target) ==> Repairing(s', r, target))
  {
    hide Apply, Enabled, Fingerprint, Repairing, Ready;
    var r, q, target := s.storeMap[id], s.storeMap[l.id], Fingerprint(due[id]);
    assert NodeReady(s, id, target) && NodeReady(s, l.id, Fingerprint(due[l.id]));
    VisitStep(validIP, s, l.visitor, l.id);
    hide AllReady;
    var t := Visited(l.visitor, q);
    assert t == SyncCall(q) || t == Notify(q);
    VisitKeepsReady(s, t, r, target);
    if id == l.id && l.visitor.SyncTick? {
      TickRepairs(s, r, target);
    } else if Repairing(s, r, target) {
      VisitKeepsRepairing(s, t, r, target);
    }
  }

  lemma VisitKeepsReady(s: State, t: Task, r: Ref, target: seq<string>)
    requires Ready(s, r, target) && (t == SyncCall(t.ref) || t == Notify(t.ref)) && t.ref < |s.stores|
    requires t.ref != r ==> s.stores[t.ref].config.id != s.stores[r].config.id
    ensures Ready(s.(tasks := s.tasks + [t]), r, target)
  {
    hide CachedFor;
    SameCache(s, s.(tasks := s.tasks + [t]), r);
  }

  lemma SameCache(s: State, s': State, r: Ref)
    requires r < |s.stores| && s'.stores == s.stores && s'.cache == s.cache
    ensures CachedFor(s', r) == CachedFor(s, r)
  {
  }

  lemma TickRepairs(s: State, r: Ref, target: seq<string>)
    requires Ready(s.(tasks := s.tasks + [SyncCall(r)]), r, target)
    ensures Repairing(s.(tasks := s.tasks + [SyncCall(r)]), r, target)
  {
    var s' := s.(tasks := s.tasks + [SyncCall(r)]);
    assert s'.tasks[|s.tasks|] == SyncCall(r);
    assert Saves(SyncCall(r)) && Checks(SyncCall(r));
    assert WillSave(s', r) && WillCheck(s', r);
    hide Ready;
  }

  lemma VisitKeepsRepairing(s: State, t: Task, r: Ref, target: seq<string>)
    requires Repairing(s, r, target) && Ready(s.(tasks := s.tasks + [t]), r, target)
    ensures Repairing(s.(tasks := s.tasks + [t]), r, target)
  {
    RepairingIsReady(s, r, target);
    assert r < |s.stores|;
    hide WillSave, WillMatch;
    PendingGrows(s, s.(tasks := s.tasks + [t]), r);
  }

  lemma PendingGrows(s: State, s': State, r: Ref)
    requires r < |s.stores| && s'.stores == s.stores && s'.cache == s.cache && forall t :: t in s.tasks ==> t in s'.tasks
    ensures WillSave(s, r) ==> WillSave(s', r)
    ensures WillMatch(s, r) ==> WillMatch(s', r)
  {
    if WillSave(s, r) {
      var u :| u in s.tasks && u.ref == r && Saves(u);
      assert u in s'.tasks;
    }
    if WillCheck(s, r) {
      var u :| u in s.tasks && u.ref == r && Checks(u);
      assert u in s'.tasks;
    }
  }

  lemma ReadyAfterTick(validIP: string -> bool, due: map<string, seq<ClusterLoad>>, s: State, l: Label)
    requires AllReady(s, due) && l.Visit? && !l.visitor.RotationTick? && l.id in due
    ensures Enabled(s, l) && AllReady(Apply(validIP, s, l), due)
  {
    hide Fingerprint, Ready;
    NodeAfterTick(validIP, due, s, l, l.id);
    forall id | id in due ensures NodeReady(Apply(validIP, s, l), id, Fingerprint(due[id])) {
      NodeAfterTick(validIP, due, s, l, id);
    }
    assert NodeReady(s, l.id, Fingerprint(due[l.id]));
    VisitStep(validIP, s, l.visitor, l.id);
    hide Apply, Enabled;
  }

  lemma {:induction false} AllReadyRun(validIP: string -> bool, due: map<string, seq<ClusterLoad>>, s: State, ls: seq<Label>)
    requires AllReady(s, due) && CanRun(validIP, s, ls) && CalmRun(validIP, due, s, ls)
    ensures AllReady(Run(validIP, s, ls), due)
    decreases |ls|
  {
    if ls != [] {
      if IsTaskLabel(ls[0]) {
        ReadyAfterTask(validIP, due, s, ls[0]);
      } else {
        ReadyAfterTick(validIP, due, s, ls[0]);
      }
      hide Apply, Enabled, AllReady, CalmStep;
      AllReadyRun(validIP, due, Apply(validIP, s, ls[0]), ls[1..]);
    }
  }

  /** From its tick on, a node is under repair. */
  lemma {:induction false} NodeRun(validIP: string -> bool, due: map<string, seq<ClusterLoad>>, s: State, ls: seq<Label>, id: string)
    requires AllReady(s, due) && CanRun(validIP, s, ls) && CalmRun(validIP, due, s, ls) && id in due && id in s.storeMap
    requires Repairing(s, s.storeMap[id], Fingerprint(due[id])) || Visit(SyncTick, id) in ls
    ensures Run(validIP, s, ls).storeMap == s.storeMap
    ensures Repairing(Run(validIP, s, ls), s.storeMap[id], Fingerprint(due[id]))
    decreases |ls|
  {
    hide AllReady, Repairing, Fingerprint, CalmFor, Enabled, Apply;
    if ls != [] {
      assert Enabled(s, ls[0]) && CalmStep(validIP, due, s, ls[0]);
      var s' := Apply(validIP, s, ls[0]);
      if IsTaskLabel(ls[0]) {
        NodeAfterTask(validIP, due, s, ls[0], id);
        ReadyAfterTask(validIP, due, s, ls[0]);
      } else {
        NodeAfterTick(validIP, due, s, ls[0], id);
        ReadyAfterTick(validIP, due, s, ls[0]);
      }
      hide CalmStep;
      NodeRun(validIP, due, s', ls[1..], id);
    }
  }

  lemma AllReadyAtRest(s: State, due: map<string, seq<ClusterLoad>>)
    requires Inv(s) && !s.crashed && s.tasks == []
    requires forall id :: id in due ==> id in s.cache && id in s.storeMap && !s.stores[s.storeMap[id]].stopped
    ensures AllReady(s, due)
  {
    hide Fingerprint;
    forall id | id in due ensures NodeReady(s, id, Fingerprint(due[id])) {
      KeyIsId(s, id);
      CachedVersion(s, id);
      assert StoreOk(s.stores[s.storeMap[id]]);
      hide Inv, PublishedFrom;
    }
  }

  lemma RepairedNode(validIP: string -> bool, due: map<string, seq<ClusterLoad>>, s: State, ls: seq<Label>, id: string)
    requires Inv(s) && ListsSatisfy(TidilyPublished, s) && AllReady(s, due) && id in due && id in s.storeMap
    requires CanRun(validIP, s, ls) && CalmRun(validIP, due, s, ls) && Visit(SyncTick, id) in ls
    requires Run(validIP, s, ls).tasks == []
    requires s.storeMap[id] < |s.stores| && s.stores[s.storeMap[id]].config.id == id
    requires TidilyPublished(s.stores[s.storeMap[id]].config.statics, due[id])
    requires IPsHoldNoPipe(validIP) && forall l :: l in ls ==> ZonesHoldNoPipe(l)
    ensures InOrder(s, Run(validIP, s, ls), id, multiset(Entries(due[id])))
  {
    hide AllReady, Repairing, Apply, Enabled, CalmStep, TidilyPublished, FindingSatisfies, ZonesHoldNoPipe, Fingerprint, Entries;
    var r := s.storeMap[id];
    NodeRun(validIP, due, s, ls, id);
    RunGrows(validIP, s, ls);
    forall l | l in ls ensures FindingSatisfies(validIP, TidilyPublished, l) {
      TidyFinding(validIP, l);
    }
    RunSatisfies(validIP, TidilyPublished, s, ls);
    var end := Run(validIP, s, ls);
    hide Run, CanRun, CalmRun;
    RepairEnds(end, r, Fingerprint(due[id]));
    assert StoreSatisfies(TidilyPublished, end.stores[r]);
    TidyDecides(s.stores[r].config.statics, end.stores[r].last.value, due[id]);
  }

  /** The node's store at s is the one whose version and endpoints are cached at the end, and
      the endpoints are the wanted ones. */
  ghost predicate InOrder(s: State, end: State, id: string, wanted: multiset<Entry>) {
    && id in s.storeMap && s.storeMap[id] < |end.stores| && id in end.cache
    && end.cache[id] == SnapshotOf(end.stores[s.storeMap[id]])
    && end.stores[s.storeMap[id]].last == Some(end.cache[id].endpoints)
    && multiset(Entries(end.cache[id].endpoints)) == wanted
  }

  /** Convergence of all nodes. After any history, take a moment at which nothing is pending, and
      any live nodes that have a snapshot. Let each get a Sync tick, at least one, at any time, with
      any pod and endpoints events, and let the tasks of all of them run in any interleaving until none is left. Then each of these
      nodes is served what is due for it, under its store's own version. */
  lemma AllNodesConverge(validIP: string -> bool, before: seq<Label>, ls: seq<Label>, due: map<string, seq<ClusterLoad>>)
    requires CanRun(validIP, INITIAL, before)
    requires
      var s := Run(validIP, INITIAL, before);
      && !s.crashed && s.tasks == []
      && forall id :: id in due ==>
        && id in s.cache && id in s.storeMap && s.storeMap[id] < |s.stores| && !s.stores[s.storeMap[id]].stopped
        && TidilyPublished(s.stores[s.storeMap[id]].config.statics, due[id])
    requires
      var s := Run(validIP, INITIAL, before);
      && CanRun(validIP, s, ls) && CalmRun(validIP, due, s, ls) && Run(validIP, s, ls).tasks == []
    requires forall id :: id in due ==> Visit(SyncTick, id) in ls
    requires IPsHoldNoPipe(validIP) && forall l :: l in before + ls ==> ZonesHoldNoPipe(l)
    ensures
      var s := Run(validIP, INITIAL, before);
      var end := Run(validIP, s, ls);
      !end.crashed && forall id :: id in due ==> InOrder(s, end, id, multiset(Entries(due[id])))
  {
    hide Apply, Enabled, CalmStep, ZonesHoldNoPipe, IPsHoldNoPipe, TidilyPublished, InOrder, Entries, Fingerprint;
    var s := Run(validIP, INITIAL, before);
    assert forall l :: l in before ==> l in before + ls;
    assert forall l :: l in ls ==> l in before + ls;
    TidyLists(validIP, before);
    AllReadyAtRest(s, due);
    AllReadyRun(validIP, due, s, ls);
    forall id | id in due ensures InOrder(s, Run(validIP, s, ls), id, multiset(Entries(due[id]))) {
      KeyIsId(s, id);
      hide AllReady, Inv, ListsSatisfy;
      RepairedNode(validIP, due, s, ls, id);
    }
  }

  // ----- such a run of all nodes exists

  /** What a save of each node could find: something usable, that shows what is due. */
  ghost predicate Findable(validIP: string -> bool, due: map<string, seq<ClusterLoad>>, findings: map<string, Finding>, s: State) {
    forall id :: id in due ==>
      && id in findings && id in s.storeMap && s.storeMap[id] < |s.stores|
      && FindingOk(s.stores[s.storeMap[id]].config, findings[id])
      && Usable(validIP, findings[id]).Some? && findings[id].eps == due[id]
  }

  lemma CalmCons(validIP: string -> bool, due: map<string, seq<ClusterLoad>>, s: State, l: Label, rest: seq<Label>)
    returns (ls: seq<Label>)
    requires Enabled(s, l) && CalmStep(validIP, due, s, l)
    requires CanRun(validIP, Apply(validIP, s, l), rest) && CalmRun(validIP, due, Apply(validIP, s, l), rest)
    ensures ls == [l] + rest && CanRun(validIP, s, ls) && CalmRun(validIP, due, s, ls)
    ensures Run(validIP, s, ls) == Run(validIP, Apply(validIP, s, l), rest)
  {
    hide Apply, Enabled, CalmStep;
    ls := [l] + rest;
    assert ls[1..] == rest;
    RunCons(validIP, s, ls);
  }

  /** A calm step of the first pending task. */
  lemma CalmTask(validIP: string -> bool, due: map<string, seq<ClusterLoad>>, findings: map<string, Finding>, s: State) returns (l: Label)
    requires AllReady(s, due) && Findable(validIP, due, findings, s) && s.tasks != []
    ensures IsTaskLabel(l) && Enabled(s, l) && CalmStep(validIP, due, s, l)
    ensures l.RunSave? ==> exists id :: id in due && l.finding == findings[id]
  {
    hide FindingOk, Fingerprint, Entries;
    var t := s.tasks[0];
    assert t in s.tasks && NodeTask(s, due.Keys, t);
    var id := s.stores[t.ref].config.id;
    assert NodeReady(s, id, Fingerprint(due[id])) && RepairTask(Fingerprint(due[id]), t);
    var version := FreshVersion(s.used);
    l :=
      if t.Notify? then RunNotify(0)
      else if t.SyncCall? then RunSync(0)
      else if t.Save? then RunSave(0, findings[id])
      else if t.SaveCommit? then RunCommit(0)
      else if t.Recheck? then RunRecheck(0)
      else RunPush(0, version, Pushed);
  }

  lemma FindableAfter(validIP: string -> bool, due: map<string, seq<ClusterLoad>>, findings: map<string, Finding>, s: State, l: Label)
    requires Findable(validIP, due, findings, s) && Enabled(s, l) && (IsTaskLabel(l) || l.Visit?)
    ensures Findable(validIP, due, findings, Apply(validIP, s, l))
  {
    if IsTaskLabel(l) {
      TaskFrame(validIP, s, l);
      assert Apply(validIP, s, l) == RunTask(validIP, s, l);
    } else {
      HandlerFrame(validIP, s, l);
      assert Apply(validIP, s, l).stores == s.stores && Apply(validIP, s, l).storeMap == s.storeMap;
    }
    hide Apply, RunTask, RunHandler, FindingOk, Usable, Enabled;
  }

  lemma {:induction false} AllDrain(validIP: string -> bool, due: map<string, seq<ClusterLoad>>, findings: map<string, Finding>, s: State)
    returns (ls: seq<Label>)
    requires AllReady(s, due) && Findable(validIP, due, findings, s)
    ensures CanRun(validIP, s, ls) && CalmRun(validIP, due, s, ls) && Run(validIP, s, ls).tasks == []
    ensures forall l :: l in ls && l.RunSave? ==> exists id :: id in due && l.finding == findings[id]
    decreases Measure(s.tasks)
  {
    hide Apply, Enabled, CalmStep, AllReady, Findable, Measure;
    ls := [];
    if s.tasks != [] {
      var l := CalmTask(validIP, due, findings, s);
      ReadyAfterTask(validIP, due, s, l);
      FindableAfter(validIP, due, findings, s, l);
      TaskStepShrinks(validIP, s, l);
      NotCrashed(validIP, due, s, l);
      var rest := AllDrain(validIP, due, findings, Apply(validIP, s, l));
      ls := CalmCons(validIP, due, s, l, rest);
    }
  }

  lemma {:induction false} TicksThenDrain(validIP: string -> bool, due: map<string, seq<ClusterLoad>>, findings: map<string, Finding>, s: State,
                                          ids: set<string>) returns (ls: seq<Label>)
    requires AllReady(s, due) && Findable(validIP, due, findings, s) && ids <= due.Keys
    ensures CanRun(validIP, s, ls) && CalmRun(validIP, due, s, ls) && Run(validIP, s, ls).tasks == []
    ensures forall id :: id in ids ==> Visit(SyncTick, id) in ls
    ensures forall l :: l in ls && l.RunSave? ==> exists id :: id in due && l.finding == findings[id]
    ensures forall l :: l in ls ==> !l.NewStore?
    decreases ids
  {
    hide Apply, Enabled, AllReady, Findable;
    if ids == {} {
      ls := AllDrain(validIP, due, findings, s);
      CalmBuildsNothing(validIP, due, s, ls);
    } else {
      var id :| id in ids;
      var l := Visit(SyncTick, id);
      ReadyAfterTick(validIP, due, s, l);
      FindableAfter(validIP, due, findings, s, l);
      var rest := TicksThenDrain(validIP, due, findings, Apply(validIP, s, l), ids - {id});
      ls := CalmCons(validIP, due, s, l, rest);
    }
  }

  lemma {:induction false} CalmBuildsNothing(validIP: string -> bool, due: map<string, seq<ClusterLoad>>, s: State, ls: seq<Label>)
    requires CanRun(validIP, s, ls) && CalmRun(validIP, due, s, ls)
    ensures forall l :: l in ls ==> !l.NewStore?
    decreases |ls|
  {
    if ls != [] {
      hide Apply, Enabled, CalmFor;
      CalmBuildsNothing(validIP, due, Apply(validIP, s, ls[0]), ls[1..]);
    }
  }

  /** So if for each of these nodes a save can find what is due, with zones that hold no pipe,
      there is a run as AllNodesConverge asks for. */
  lemma AllNodesRepairPossible(validIP: string -> bool, before: seq<Label>, due: map<string, seq<ClusterLoad>>,
                               findings: map<string, Finding>) returns (ls: seq<Label>)
    requires CanRun(validIP, INITIAL, before)
    requires
      var s := Run(validIP, INITIAL, before);
      && !s.crashed && s.tasks == [] && Findable(validIP, due, findings, s)
      && forall id :: id in due ==> id in s.cache && !s.stores[s.storeMap[id]].stopped && PipeFreeZones(findings[id].dynamics)
    ensures
      var s := Run(validIP, INITIAL, before);
      && CanRun(validIP, s, ls) && CalmRun(validIP, due, s, ls) && Run(validIP, s, ls).tasks == []
    ensures forall id :: id in due ==> Visit(SyncTick, id) in ls
    ensures forall l :: l in ls ==> ZonesHoldNoPipe(l)
  {
    var s := Run(validIP, INITIAL, before);
    Reachable(validIP, before);
    AllReadyAtRest(s, due);
    hide Run, CanRun, CalmRun, AllReady, Inv, PipeFreeZones;
    ls := TicksThenDrain(validIP, due, findings, s, due.Keys);
  }

  // ----- a Sync with nothing to repair

  /** Once a store has pushed, the cache shows its version. */
  ghost predicate Agrees(s: State, r: Ref) {
    r < |s.stores| && s.stores[r].version != "" ==> Matches(s, r)
  }

  /** A store that can no longer do anything: stopped, out of the store map, with no work pending. */
  ghost predicate Quiet(s: State, q: Ref)
    requires q < |s.stores|
  {
    s.stores[q].stopped && !Registered(s, q) && forall t :: t in s.tasks ==> t.ref != q
  }

  /** Of all stores there are at `end`, those with the ID of r, other than r, were quiet at s. */
  ghost predicate OthersQuiet(s: State, end: State, r: Ref)
    requires r < |end.stores|
  {
    forall q :: 0 <= q < |end.stores| && q != r && end.stores[q].config.id == end.stores[r].config.id ==>
      q < |s.stores| && Quiet(s, q)
  }

  lemma QuietTaskStep(validIP: string -> bool, s: State, l: Label, q: Ref)
    requires RefsOk(s) && IsTaskLabel(l) && TaskEnabled(s, l) && q < |s.stores| && Quiet(s, q)
    ensures q < |RunTask(validIP, s, l).stores| && Quiet(RunTask(validIP, s, l), q)
  {
    TaskFrame(validIP, s, l);
    assert s.tasks[l.i] in s.tasks;
    hide RunTask, TaskEnabled, Started, StoreAfter;
  }

  lemma QuietHandlerStep(validIP: string -> bool, s: State, l: Label, q: Ref)
    requires RefsOk(s) && MapOk(s) && !IsTaskLabel(l) && HandlerEnabled(s, l) && q < |s.stores| && Quiet(s, q)
    ensures q < |RunHandler(validIP, s, l).stores| && Quiet(RunHandler(validIP, s, l), q)
  {
    HandlerFrame(validIP, s, l);
    HandlerMap(validIP, s, l);
    NewTaskRef(validIP, s, l, q);
    assert l.Register? ==> s.handler.Registering?;
    hide RunHandler, HandlerEnabled;
  }

  /** A visit, and a new store, start work for a registered store or the new one. */
  lemma NewTaskRef(validIP: string -> bool, s: State, l: Label, q: Ref)
    requires RefsOk(s) && !IsTaskLabel(l) && HandlerEnabled(s, l) && q < |s.stores| && !Registered(s, q)
    ensures forall t :: t in RunHandler(validIP, s, l).tasks && t !in s.tasks ==> t.ref != q
  {
    hide FirstSave, FindingOk;
  }

  /** Quiet stores stay quiet. */
  lemma QuietStep(validIP: string -> bool, s: State, l: Label, q: Ref)
    requires Inv(s) && Enabled(s, l) && q < |s.stores| && Quiet(s, q)
    ensures q < |Apply(validIP, s, l).stores| && Quiet(Apply(validIP, s, l), q)
  {
    hide Quiet, RunTask, RunHandler, RefsOk, MapOk, DataOk, VersionsOk, TaskEnabled, HandlerEnabled;
    if IsTaskLabel(l) {
      QuietTaskStep(validIP, s, l, q);
    } else {
      QuietHandlerStep(validIP, s, l, q);
    }
  }

  lemma OthersQuietStep(validIP: string -> bool, s: State, l: Label, end: State, r: Ref)
    requires Inv(s) && Enabled(s, l) && r < |end.stores| && OthersQuiet(s, end, r)
    ensures OthersQuiet(Apply(validIP, s, l), end, r)
  {
    hide Apply, Enabled, Inv, Quiet;
    forall q | 0 <= q < |end.stores| && q != r && end.stores[q].config.id == end.stores[r].config.id
      ensures q < |Apply(validIP, s, l).stores| && Quiet(Apply(validIP, s, l), q)
    {
      QuietStep(validIP, s, l, q);
    }
  }

  /** No work is pending but r's own that could write under the ID of r. */
  ghost predicate OnlyWriter(s: State, r: Ref)
    requires RefsOk(s) && r < |s.stores|
  {
    forall t :: t in s.tasks && s.stores[t.ref].config.id == s.stores[r].config.id ==> t.ref == r
  }

  lemma OthersCannotWrite(s: State, end: State, r: Ref)
    requires Inv(s) && Grows(s, end) && r < |s.stores| && OthersQuiet(s, end, r)
    ensures OnlyWriter(s, r)
  {
    hide MapOk, DataOk, VersionsOk;
  }

  lemma AgreesTaskStep(validIP: string -> bool, s: State, l: Label, r: Ref)
    requires RefsOk(s) && IsTaskLabel(l) && TaskEnabled(s, l) && r < |s.stores| && OnlyWriter(s, r) && Agrees(s, r)
    requires l.RunPush? && s.tasks[l.i].ref == r ==> l.outcome.Pushed?
    ensures Agrees(RunTask(validIP, s, l), r)
  {
    hide Started, FindingOk;
    TaskKeepsConfig(s, l);
    assert s.tasks[l.i] in s.tasks;
  }

  /** The handler clears no snapshot of a live store. */
  lemma CacheKept(validIP: string -> bool, s: State, l: Label, r: Ref)
    requires RefsOk(s) && MapOk(s) && !IsTaskLabel(l) && HandlerEnabled(s, l)
    requires r < |s.stores| ==> !s.stores[r].stopped
    ensures r < |s.stores| ==>
      var id := s.stores[r].config.id;
      id in s.cache ==> id in RunHandler(validIP, s, l).cache
  {
    hide FirstSave, FindingOk, Visited;
  }

  lemma AgreesHandlerStep(validIP: string -> bool, s: State, l: Label, r: Ref)
    requires RefsOk(s) && MapOk(s) && !IsTaskLabel(l) && HandlerEnabled(s, l) && Agrees(s, r)
    requires r < |s.stores| ==> !s.stores[r].stopped
    ensures Agrees(RunHandler(validIP, s, l), r)
  {
    var s' := RunHandler(validIP, s, l);
    HandlerFrame(validIP, s, l);
    CacheKept(validIP, s, l, r);
    hide RunHandler, HandlerEnabled;
    if r < |s.stores| {
      assert s'.stores[r].version == s.stores[r].version && s'.stores[r].config == s.stores[r].config;
    } else if r < |s'.stores| {
      assert s'.stores[r].version == "";
    }
  }

  /** Every push of store r in this run succeeds. */
  ghost predicate PushesSucceed(validIP: string -> bool, s: State, ls: seq<Label>, r: Ref)
    requires CanRun(validIP, s, ls)
    decreases |ls|
  {
    ls != [] ==>
      && (ls[0].RunPush? && s.tasks[ls[0].i].ref == r ==> ls[0].outcome.Pushed?)
      && PushesSucceed(validIP, Apply(validIP, s, ls[0]), ls[1..], r)
  }

  lemma AgreesStep(validIP: string -> bool, s: State, l: Label, end: State, r: Ref)
    requires Inv(s) && Enabled(s, l) && Grows(s, end) && Agrees(s, r)
    requires l.RunPush? && s.tasks[l.i].ref == r ==> l.outcome.Pushed?
    requires r < |end.stores| && !end.stores[r].stopped && OthersQuiet(s, end, r)
    ensures Agrees(Apply(validIP, s, l), r)
  {
    hide Agrees, RunTask, RunHandler, RefsOk, MapOk, DataOk, VersionsOk, OthersQuiet, TaskEnabled, HandlerEnabled, OnlyWriter;
    if r < |s.stores| {
      OthersCannotWrite(s, end, r);
    }
    if !IsTaskLabel(l) {
      AgreesHandlerStep(validIP, s, l, r);
    } else if r < |s.stores| {
      AgreesTaskStep(validIP, s, l, r);
    } else {
      NotYetBuilt(validIP, s, l, r);
    }
  }

  lemma NotYetBuilt(validIP: string -> bool, s: State, l: Label, r: Ref)
    requires IsTaskLabel(l) && TaskEnabled(s, l) && r >= |s.stores|
    ensures Agrees(RunTask(validIP, s, l), r)
  {
    TaskFrame(validIP, s, l);
  }

  lemma {:induction false} AgreesRun(validIP: string -> bool, s: State, ls: seq<Label>, r: Ref)
    requires Inv(s) && CanRun(validIP, s, ls) && Agrees(s, r) && PushesSucceed(validIP, s, ls, r)
    requires
      var end := Run(validIP, s, ls);
      r < |end.stores| && !end.stores[r].stopped && OthersQuiet(s, end, r)
    ensures Agrees(Run(validIP, s, ls), r)
    decreases |ls|
  {
    if ls != [] {
      hide Apply, Enabled, Inv, Agrees, OthersQuiet, Grows;
      var s', end := Apply(validIP, s, ls[0]), Run(validIP, s, ls);
      RunGrows(validIP, s, ls);
      StepKeepsInv(validIP, s, ls[0]);
      AgreesStep(validIP, s, ls[0], end, r);
      OthersQuietStep(validIP, s, ls[0], end, r);
      AgreesRun(validIP, s', ls[1..], r);
    }
  }

  /** Version agreement. Take any history and a store r, built already or still to be built, whose
      version the cache shows if it has pushed. If in the run that follows none of its pushes
      fails, and the other stores of its ID were quiet from the start, then as long as r is live
      the cache shows its version from its first push on, whatever other nodes do. */
  lemma VersionAgreement(validIP: string -> bool, before: seq<Label>, ls: seq<Label>, r: Ref)
    requires CanRun(validIP, INITIAL, before)
    requires
      var s := Run(validIP, INITIAL, before);
      Agrees(s, r) && CanRun(validIP, s, ls) && PushesSucceed(validIP, s, ls, r)
    requires
      var s := Run(validIP, INITIAL, before);
      var end := Run(validIP, s, ls);
      r < |end.stores| && !end.stores[r].stopped && OthersQuiet(s, end, r)
    ensures
      var end := Run(validIP, Run(validIP, INITIAL, before), ls);
      end.stores[r].version != "" ==>
        end.stores[r].config.id in end.cache && end.cache[end.stores[r].config.id].version == end.stores[r].version
  {
    Reachable(validIP, before);
    AgreesRun(validIP, Run(validIP, INITIAL, before), ls, r);
  }

  /** No spurious repair: whatever the history, a Sync of a live store whose version the cache
      shows, that finds the endpoints the store already has, with nothing else pending, ends in
      the very state it began in. */
  lemma QuietSync(validIP: string -> bool, ls: seq<Label>, id: string, finding: Finding) returns (sync: seq<Label>)
    requires CanRun(validIP, INITIAL, ls)
    requires
      var s := Run(validIP, INITIAL, ls);
      && !s.crashed && s.tasks == [] && id in s.storeMap && s.storeMap[id] < |s.stores|
      && var st := s.stores[s.storeMap[id]];
      && !st.stopped && st.last.Some? && id in s.cache && s.cache[id].version == st.version
      && FindingOk(st.config, finding) && Usable(validIP, finding).Some?
      && multiset(Entries(finding.eps)) == multiset(Entries(st.last.value))
    ensures
      var s := Run(validIP, INITIAL, ls);
      && sync == [Visit(SyncTick, id), RunSync(0), RunSave(0, finding), RunCommit(0), RunRecheck(0)]
      && CanRun(validIP, s, sync) && Run(validIP, s, sync) == s
  {
    var s := Run(validIP, INITIAL, ls);
    var r := s.storeMap[id];
    Reachable(validIP, ls);
    KeyIsId(s, id);
    assert StoreOk(s.stores[r]);
    hide Inv, Run, CanRun, Entries, Fingerprint;
    SameEntriesSameFingerprint(finding.eps, s.stores[r].last.value);
    sync := QuietRun(validIP, s, id, finding);
  }

  lemma QuietRun(validIP: string -> bool, s: State, id: string, finding: Finding) returns (sync: seq<Label>)
    requires !s.crashed && s.tasks == [] && id in s.storeMap && s.storeMap[id] < |s.stores|
    requires
      var st := s.stores[s.storeMap[id]];
      && !st.stopped && st.last.Some? && Matches(s, s.storeMap[id])
      && FindingOk(st.config, finding) && Usable(validIP, finding).Some?
      && st.lastArray == Some(Fingerprint(finding.eps))
    ensures sync == [Visit(SyncTick, id), RunSync(0), RunSave(0, finding), RunCommit(0), RunRecheck(0)]
    ensures CanRun(validIP, s, sync) && Run(validIP, s, sync) == s
  {
    var r := s.storeMap[id];
    sync := [Visit(SyncTick, id), RunSync(0), RunSave(0, finding), RunCommit(0), RunRecheck(0)];
    var s1 := s.(tasks := [SyncCall(r)]);
    var s2 := s.(tasks := [Save(r, true)]);
    var s3 := s.(tasks := [SaveCommit(r, finding.eps, Fingerprint(finding.eps), true)]);
    var s4 := s.(tasks := [Recheck(r)]);
    VisitStep(validIP, s, SyncTick, id);
    TailStep(validIP, s1, [], SyncCall(r), sync[1]);
    TailStep(validIP, s2, [], Save(r, true), sync[2]);
    TailStep(validIP, s3, [], SaveCommit(r, finding.eps, Fingerprint(finding.eps), true), sync[3]);
    TailStep(validIP, s4, [], Recheck(r), sync[4]);
    assert s4.(tasks := []) == s;
    hide Apply, Enabled;
    RunCons(validIP, s4, sync[4..]);
    RunCons(validIP, s3, sync[3..]);
    RunCons(validIP, s2, sync[2..]);
    RunCons(validIP, s1, sync[1..]);
    RunCons(validIP, s, sync);
  }
}
