// When a deleted node's snapshot stays deleted.
module Retirement {
  import opened Convergence
  import opened Endpoints
  import opened Guarantees
  import opened Protocol
  import opened Publications
  import opened Safety
  import opened Seqs
  import opened Sorting
  import opened Stores
  import opened Wrappers

  /** No snapshot, no registered store and no work of the handler under this ID. */
  ghost predicate Retired(s: State, id: string)
    requires RefsOk(s)
  {
    && id !in s.cache && id !in s.storeMap
    && (s.handler.Building? ==> s.handler.config.id != id)
    && (HoldsRef(s.handler) ==> s.stores[s.handler.ref].config.id != id)
  }

  /** A save of this store can still find a list that differs from the one the store holds:
      the static endpoints pass the IP check, and either they alone are not what the store
      holds or there is an address to add to them. */
  ghost predicate CanFindChange(validIP: string -> bool, st: Store) {
    && !HasBadAddress(validIP, st.config.statics)
    && (st.lastArray != Some(FingerprintOf(st.config.statics)) || exists a: string :: validIP(a))
  }

  /** The pending tasks of a stopped store that can still lead to a push. */
  ghost predicate Publishes(validIP: string -> bool, st: Store, t: Task) {
    match t
    case Push(_) => true
    case Rotate(_) => true
    case SaveCommit(_, _, lines, _) => Changed(st, lines)
    case Save(_, _) => CanFindChange(validIP, st)
    case _ => false
  }

  ghost predicate CanPublish(validIP: string -> bool, s: State, id: string)
    requires RefsOk(s)
  {
    exists t :: t in s.tasks && s.stores[t.ref].config.id == id && Publishes(validIP, s.stores[t.ref], t)
  }

  predicate DefinesNode(l: Label, id: string) {
    l.StartConfig? && l.config.id == id
  }

  // ----- what a pending save can still find

  ghost predicate FindsChange(validIP: string -> bool, st: Store, finding: Finding) {
    FindingOk(st.config, finding) && Usable(validIP, finding).Some? && Changed(st, Fingerprint(finding.eps))
  }

  lemma EntriesOfParts(statics: LbMap, dynamics: LbMap, k: string)
    ensures EntriesAt(Merge(statics, dynamics), k) == EntriesAt(statics, k) + EntriesAt(dynamics, k)
  {
    MergedAt(statics, dynamics, k);
    LocalityEntriesAppend(k, At(statics, k), At(dynamics, k));
  }

  lemma BadStaticsStay(validIP: string -> bool, statics: LbMap, dynamics: LbMap)
    requires HasBadAddress(validIP, statics)
    ensures HasBadAddress(validIP, Merge(statics, dynamics))
  {
    var k :| k in statics && exists e :: e in EntriesAt(statics, k) && !validIP(e.address);
    var e :| e in EntriesAt(statics, k) && !validIP(e.address);
    EntriesOfParts(statics, dynamics, k);
    assert e in EntriesAt(Merge(statics, dynamics), k);
  }

  lemma NothingToDiscover(validIP: string -> bool, statics: LbMap, dynamics: LbMap)
    requires Discovered(dynamics) && !HasBadAddress(validIP, Merge(statics, dynamics))
    requires forall a: string :: !validIP(a)
    ensures Merge(statics, dynamics) == statics
  {
    forall k ensures k !in dynamics {
      if k in dynamics {
        var e := DiscoveredEntry(statics, dynamics, k);
        assert false;
      }
    }
    assert dynamics == map[];
    MergeNothing(statics);
  }

  lemma FoundChange(validIP: string -> bool, st: Store, finding: Finding)
    requires FindsChange(validIP, st, finding)
    ensures CanFindChange(validIP, st)
  {
    hide Entries, Fingerprint, Merge, IsPublication, Discovered;
    var statics, dynamics := st.config.statics, finding.dynamics;
    BadAddressPublished(validIP, Merge(statics, dynamics), finding.eps);
    if HasBadAddress(validIP, statics) {
      BadStaticsStay(validIP, statics, dynamics);
    }
    if forall a: string :: !validIP(a) {
      NothingToDiscover(validIP, statics, dynamics);
      assert Fingerprint(finding.eps) == FingerprintOf(statics);
    }
  }

  /** What discovery would find if this address were all there is. */
  function Lone(a: string): LbMap {
    map["" := [Locality("", 0, [LbEndpoint(a, 0, 0, map[])])]]
  }

  lemma LoneEntries(a: string)
    ensures Discovered(Lone(a))
    ensures EntriesAt(Lone(a), "") == [Entry("", "", 0, a, 0, 0)]
    ensures forall k :: k != "" ==> EntriesAt(Lone(a), k) == []
  {
    var loc := Lone(a)[""][0];
    assert EntriesAt(Lone(a), "") == LocalityEntries("", []) + LbEntries("", "", 0, loc.lbEndpoints);
  }

  lemma LonePublication(a: string) returns (found: seq<ClusterLoad>)
    ensures IsPublication(Lone(a), found) && Entries(found) == [Entry("", "", 0, a, 0, 0)]
  {
    found := [ClusterLoad("", Lone(a)[""])];
    LoneEntries(a);
    assert Entries(found) == Entries([]) + EntriesAt(Lone(a), "");
  }

  lemma OneMoreAddress(validIP: string -> bool, statics: LbMap, a: string) returns (finding: Finding)
    requires !HasBadAddress(validIP, statics) && validIP(a)
    ensures finding.Found? && Discovered(finding.dynamics)
    ensures IsPublication(Merge(statics, finding.dynamics), finding.eps)
    ensures AddressesPass(validIP, finding.eps)
    ensures Fingerprint(finding.eps) != FingerprintOf(statics)
  {
    hide Entries, Fingerprint, IsPublication, Discovered, Lone, Merge, HasBadAddress, AddressesPass;
    var eps := PublicationExists(Merge(statics, Lone(a)));
    var fixed := PublicationExists(statics);
    var found := LonePublication(a);
    LoneEntries(a);
    PublishedParts(statics, Lone(a), eps, fixed, found);
    LongerFingerprint(eps, fixed, Entry("", "", 0, a, 0, 0));
    StillGood(validIP, statics, a);
    BadAddressPublished(validIP, Merge(statics, Lone(a)), eps);
    finding := Found(Lone(a), eps);
  }

  lemma LongerFingerprint(eps: seq<ClusterLoad>, fixed: seq<ClusterLoad>, more: Entry)
    requires multiset(Entries(eps)) == multiset(Entries(fixed) + [more])
    ensures Fingerprint(eps) != Fingerprint(fixed)
  {
    hide Entries, Line;
    SortSeqCorrect(Lines(eps));
    SortSeqCorrect(Lines(fixed));
    assert |Fingerprint(eps)| == |multiset(Fingerprint(eps))| == |Entries(eps)|;
    assert |Fingerprint(fixed)| == |multiset(Fingerprint(fixed))| == |Entries(fixed)|;
    assert |Entries(eps)| == |multiset(Entries(eps))| == |multiset(Entries(fixed) + [more])| == |Entries(fixed) + [more]|;
  }

  lemma StillGood(validIP: string -> bool, statics: LbMap, a: string)
    requires !HasBadAddress(validIP, statics) && validIP(a)
    ensures !HasBadAddress(validIP, Merge(statics, Lone(a)))
  {
    hide EntriesAt, Lone, Merge;
    LoneEntries(a);
    forall k, e | e in EntriesAt(Merge(statics, Lone(a)), k) ensures validIP(e.address) {
      EntriesOfParts(statics, Lone(a), k);
      if e !in EntriesAt(Lone(a), k) {
        assert e in EntriesAt(statics, k);
        NoneElsewhere(statics, k);
      }
    }
  }

  lemma NoneElsewhere(lb: LbMap, k: string)
    ensures k !in lb ==> EntriesAt(lb, k) == []
  {
  }

  /** The condition says just when there is such a finding. */
  lemma CanFindChangeIff(validIP: string -> bool, st: Store)
    ensures CanFindChange(validIP, st) <==> exists finding :: FindsChange(validIP, st, finding)
  {
    if finding :| FindsChange(validIP, st, finding) {
      FoundChange(validIP, st, finding);
    }
    if CanFindChange(validIP, st) {
      var finding := ChangeToFind(validIP, st);
    }
  }

  /** A save that discovers nothing publishes the static endpoints. */
  lemma StaticsAlone(validIP: string -> bool, config: Config) returns (finding: Finding)
    requires !HasBadAddress(validIP, config.statics)
    ensures FindingOk(config, finding) && Usable(validIP, finding).Some?
    ensures IsPublication(config.statics, finding.eps)
  {
    var eps := PublicationExists(config.statics);
    hide IsPublication, Entries;
    BadAddressPublished(validIP, config.statics, eps);
    MergeNothing(config.statics);
    assert Discovered(map[]);
    finding := Found(map[], eps);
  }

  lemma ChangeToFind(validIP: string -> bool, st: Store) returns (finding: Finding)
    requires CanFindChange(validIP, st)
    ensures FindsChange(validIP, st, finding)
  {
    var statics := st.config.statics;
    hide IsPublication, Fingerprint, Entries, Merge, Discovered, HasBadAddress;
    if st.lastArray != Some(FingerprintOf(statics)) {
      finding := StaticsAlone(validIP, st.config);
    } else {
      var a :| validIP(a);
      finding := OneMoreAddress(validIP, statics, a);
    }
  }

  // ----- nothing pending can publish: the snapshot stays away

  lemma RetiredAreStopped(s: State, id: string, r: Ref)
    requires RefsOk(s) && MapOk(s) && Retired(s, id) && r < |s.stores| && s.stores[r].config.id == id
    ensures s.stores[r].stopped
  {
  }

  lemma QuietTask(validIP: string -> bool, s: State, l: Label, id: string)
    requires RefsOk(s) && MapOk(s) && Retired(s, id) && !CanPublish(validIP, s, id)
    requires IsTaskLabel(l) && TaskEnabled(s, l) && s.stores[s.tasks[l.i].ref].config.id == id
    ensures !CrashesNow(s, l) ==> StoreAfter(s, l) == s.stores[s.tasks[l.i].ref]
    ensures !l.RunPush?
    ensures forall t :: t in Started(validIP, s, l) ==> !Publishes(validIP, s.stores[s.tasks[l.i].ref], t)
  {
    var t := s.tasks[l.i];
    assert t in s.tasks && !Publishes(validIP, s.stores[t.ref], t);
    RetiredAreStopped(s, id, t.ref);
    if l.RunSave? && Usable(validIP, l.finding).Some? {
      CanFindChangeIff(validIP, s.stores[t.ref]);
      assert !FindsChange(validIP, s.stores[t.ref], l.finding);
    }
  }

  lemma RetiredTaskStep(validIP: string -> bool, s: State, l: Label, id: string)
    requires RefsOk(s) && MapOk(s) && Retired(s, id) && !CanPublish(validIP, s, id)
    requires IsTaskLabel(l) && TaskEnabled(s, l)
    requires RefsOk(RunTask(validIP, s, l))
    ensures Retired(RunTask(validIP, s, l), id) && !CanPublish(validIP, RunTask(validIP, s, l), id)
  {
    TaskFrame(validIP, s, l);
    TaskCache(validIP, s, l);
    HandlerRefOk(s);
    var r := s.tasks[l.i].ref;
    if s.stores[r].config.id == id {
      QuietTask(validIP, s, l, id);
      QuietStores(validIP, s, l);
    }
    hide RunTask, StoreAfter, Started, Publishes, CanFindChange, TaskEnabled, MapOk, CrashesNow;
    var s' := RunTask(validIP, s, l);
    forall t | t in s'.tasks && s'.stores[t.ref].config.id == id ensures !Publishes(validIP, s'.stores[t.ref], t) {
      assert s'.stores[t.ref] == s.stores[t.ref];
      assert t in s.tasks || t in Started(validIP, s, l);
    }
  }

  lemma QuietStores(validIP: string -> bool, s: State, l: Label)
    requires IsTaskLabel(l) && TaskEnabled(s, l)
    requires !CrashesNow(s, l) ==> StoreAfter(s, l) == s.stores[s.tasks[l.i].ref]
    ensures RunTask(validIP, s, l).stores == s.stores
  {
    hide StoreAfter, Started;
  }

  lemma PublishesSame(validIP: string -> bool, a: Store, b: Store, t: Task)
    requires a.config == b.config && a.lastArray == b.lastArray
    ensures Publishes(validIP, a, t) <==> Publishes(validIP, b, t)
  {
  }

  lemma RetiredHandlerTasks(validIP: string -> bool, s: State, l: Label, id: string)
    requires RefsOk(s) && Retired(s, id) && !CanPublish(validIP, s, id)
    requires !IsTaskLabel(l) && HandlerEnabled(s, l) && !DefinesNode(l, id)
    requires RefsOk(RunHandler(validIP, s, l))
    ensures !CanPublish(validIP, RunHandler(validIP, s, l), id)
  {
    hide Publishes;
    var s' := RunHandler(validIP, s, l);
    HandlerFrame(validIP, s, l);
    NewTaskElsewhere(validIP, s, l, id);
    hide RunHandler;
    forall t | t in s'.tasks && s'.stores[t.ref].config.id == id ensures !Publishes(validIP, s'.stores[t.ref], t) {
      assert t in s.tasks;
      PublishesSame(validIP, s.stores[t.ref], s'.stores[t.ref], t);
    }
  }

  lemma NewTaskElsewhere(validIP: string -> bool, s: State, l: Label, id: string)
    requires RefsOk(s) && Retired(s, id)
    requires !IsTaskLabel(l) && HandlerEnabled(s, l)
    requires RefsOk(RunHandler(validIP, s, l))
    ensures var s' := RunHandler(validIP, s, l);
      forall t :: t in s'.tasks && t !in s.tasks ==> s'.stores[t.ref].config.id != id
  {
  }

  lemma RetiredHandlerStep(validIP: string -> bool, s: State, l: Label, id: string)
    requires RefsOk(s) && Retired(s, id) && !CanPublish(validIP, s, id)
    requires !IsTaskLabel(l) && HandlerEnabled(s, l) && !DefinesNode(l, id)
    requires RefsOk(RunHandler(validIP, s, l))
    ensures Retired(RunHandler(validIP, s, l), id) && !CanPublish(validIP, RunHandler(validIP, s, l), id)
  {
    RetiredHandlerTasks(validIP, s, l, id);
    hide CanPublish;
  }

  lemma {:induction false} RetiredStays(validIP: string -> bool, s: State, ls: seq<Label>, id: string)
    requires Inv(s) && Retired(s, id) && !CanPublish(validIP, s, id)
    requires CanRun(validIP, s, ls) && forall l :: l in ls ==> !DefinesNode(l, id)
    ensures id !in Run(validIP, s, ls).cache && id !in Run(validIP, s, ls).storeMap
    decreases |ls|
  {
    if ls != [] {
      StepKeepsInv(validIP, s, ls[0]);
      if IsTaskLabel(ls[0]) {
        RetiredTaskStep(validIP, s, ls[0], id);
      } else {
        RetiredHandlerStep(validIP, s, ls[0], id);
      }
      RetiredStays(validIP, Apply(validIP, s, ls[0]), ls[1..], id);
    }
  }

  // ----- something pending can publish: the snapshot may come back

  lemma PushRecreates(validIP: string -> bool, s: State, r: Ref) returns (ls: seq<Label>)
    requires !s.crashed && Push(r) in s.tasks && r < |s.stores|
    ensures CanRun(validIP, s, ls) && s.stores[r].config.id in Run(validIP, s, ls).cache
    ensures forall l :: l in ls ==> !l.StartConfig?
  {
    var i :| 0 <= i < |s.tasks| && s.tasks[i] == Push(r);
    var version := FreshVersion(s.used);
    ls := [RunPush(i, version, Pushed)];
    RunCons(validIP, s, ls);
  }

  lemma TaskThenPush(validIP: string -> bool, s: State, l: Label, r: Ref) returns (ls: seq<Label>)
    requires !s.crashed && IsTaskLabel(l) && TaskEnabled(s, l) && !CrashesNow(s, l)
    requires s.tasks[l.i].ref == r && Push(r) in Started(validIP, s, l)
    ensures CanRun(validIP, s, ls) && s.stores[r].config.id in Run(validIP, s, ls).cache
    ensures forall k :: k in ls ==> !k.StartConfig?
  {
    TaskKeepsConfig(s, l);
    var rest := PushRecreates(validIP, Apply(validIP, s, l), r);
    ls := [l] + rest;
    assert ls[1..] == rest;
    RunCons(validIP, s, ls);
  }

  lemma CommitRecreates(validIP: string -> bool, s: State, t: Task) returns (ls: seq<Label>)
    requires !s.crashed && t in s.tasks && t.SaveCommit? && t.ref < |s.stores| && Changed(s.stores[t.ref], t.lines)
    ensures CanRun(validIP, s, ls) && s.stores[t.ref].config.id in Run(validIP, s, ls).cache
    ensures forall l :: l in ls ==> !l.StartConfig?
  {
    var i :| 0 <= i < |s.tasks| && s.tasks[i] == t;
    ls := TaskThenPush(validIP, s, RunCommit(i), t.ref);
  }

  lemma SaveLeavesCommit(validIP: string -> bool, s: State, l: Label)
    requires Enabled(s, l) && l.RunSave? && Usable(validIP, l.finding).Some?
    ensures
      var s' := Apply(validIP, s, l);
      var t := s.tasks[l.i];
      && !s'.crashed && s'.stores == s.stores
      && SaveCommit(t.ref, l.finding.eps, Fingerprint(l.finding.eps), t.check) in s'.tasks
  {
  }

  lemma SaveRecreates(validIP: string -> bool, s: State, t: Task) returns (ls: seq<Label>)
    requires !s.crashed && t in s.tasks && t.Save? && t.ref < |s.stores| && CanFindChange(validIP, s.stores[t.ref])
    ensures CanRun(validIP, s, ls) && s.stores[t.ref].config.id in Run(validIP, s, ls).cache
    ensures forall l :: l in ls ==> !l.StartConfig?
  {
    var i :| 0 <= i < |s.tasks| && s.tasks[i] == t;
    var st := s.stores[t.ref];
    var finding := ChangeToFind(validIP, st);
    hide CanFindChange;
    var l := RunSave(i, finding);
    SaveLeavesCommit(validIP, s, l);
    var rest := CommitRecreates(validIP, Apply(validIP, s, l), SaveCommit(t.ref, finding.eps, Fingerprint(finding.eps), t.check));
    ls := [l] + rest;
    assert ls[1..] == rest;
    RunCons(validIP, s, ls);
  }

  lemma Recreates(validIP: string -> bool, s: State, id: string) returns (ls: seq<Label>)
    requires RefsOk(s) && !s.crashed && CanPublish(validIP, s, id)
    ensures CanRun(validIP, s, ls) && id in Run(validIP, s, ls).cache
    ensures forall l :: l in ls ==> !l.StartConfig?
  {
    var t :| t in s.tasks && s.stores[t.ref].config.id == id && Publishes(validIP, s.stores[t.ref], t);
    match t
    case Push(r) => ls := PushRecreates(validIP, s, r);
    case Rotate(r) =>
      var i :| 0 <= i < |s.tasks| && s.tasks[i] == t;
      ls := TaskThenPush(validIP, s, RunRotate(i, Success([])), r);
    case SaveCommit(_, _, _, _) => ls := CommitRecreates(validIP, s, t);
    case Save(_, _) => ls := SaveRecreates(validIP, s, t);
  }

  /** Once an ID is retired, no run brings its snapshot back without a new ConfigMap for it,
      exactly when no pending task of its old stores can still publish. */
  lemma RetirementIff(validIP: string -> bool, s: State, id: string)
    requires Inv(s) && !s.crashed && Retired(s, id)
    ensures
      (forall ls :: CanRun(validIP, s, ls) && (forall l :: l in ls ==> !DefinesNode(l, id)) ==> id !in Run(validIP, s, ls).cache)
      <==> !CanPublish(validIP, s, id)
  {
    if CanPublish(validIP, s, id) {
      var ls := Recreates(validIP, s, id);
      assert CanRun(validIP, s, ls) && forall l :: l in ls ==> !DefinesNode(l, id);
    } else {
      forall ls | CanRun(validIP, s, ls) && (forall l :: l in ls ==> !DefinesNode(l, id)) ensures id !in Run(validIP, s, ls).cache {
        RetiredStays(validIP, s, ls, id);
      }
    }
  }

  // ----- the end of DeleteConfigMap

  /** Clearing and removing in one go retires the ID; with no task of its stores pending, for good. */
  lemma DeleteRetires(validIP: string -> bool, s: State)
    requires Inv(s) && !s.crashed && s.handler.Draining?
    ensures
      var id := s.stores[s.handler.ref].config.id;
      var s' := Apply(validIP, Apply(validIP, s, ClearSnapshot), Remove);
      && Inv(s') && Retired(s', id)
      && ((forall t :: t in s.tasks ==> s.stores[t.ref].config.id != id) ==> !CanPublish(validIP, s', id))
  {
    var s1 := Apply(validIP, s, ClearSnapshot);
    StepKeepsInv(validIP, s, ClearSnapshot);
    StepKeepsInv(validIP, s1, Remove);
  }

  /** A snapshot without a registered store, and with no work of the handler under its ID. */
  ghost predicate Orphaned(s: State, id: string)
    requires RefsOk(s)
  {
    && id in s.cache && id !in s.storeMap
    && (s.handler.Building? ==> s.handler.config.id != id)
    && (HoldsRef(s.handler) ==> s.stores[s.handler.ref].config.id != id)
  }

  lemma OrphanedTaskStep(validIP: string -> bool, s: State, l: Label, id: string)
    requires RefsOk(s) && Orphaned(s, id) && IsTaskLabel(l) && TaskEnabled(s, l)
    requires RefsOk(RunTask(validIP, s, l))
    ensures Orphaned(RunTask(validIP, s, l), id)
  {
    hide RunTask, TaskEnabled, RefsOk;
    TaskFrame(validIP, s, l);
    TaskCache(validIP, s, l);
    HandlerRefOk(s);
  }

  lemma HandlerRefOk(s: State)
    requires RefsOk(s)
    ensures HoldsRef(s.handler) ==> s.handler.ref < |s.stores|
  {
  }

  lemma OrphanedHandlerStep(validIP: string -> bool, s: State, l: Label, id: string)
    requires RefsOk(s) && Orphaned(s, id) && !IsTaskLabel(l) && HandlerEnabled(s, l) && !DefinesNode(l, id)
    requires RefsOk(RunHandler(validIP, s, l))
    ensures Orphaned(RunHandler(validIP, s, l), id)
  {
    HandlerFrame(validIP, s, l);
    HandlerMap(validIP, s, l);
    HandlerMoves(validIP, s, l);
    assert l.Register? ==> HoldsRef(s.handler);
    if l.NewStore? {
      FirstSaveConfig(validIP, s, l);
    }
    hide RunHandler, HandlerEnabled, FirstSave, Visited;
  }

  lemma OrphanedStep(validIP: string -> bool, s: State, l: Label, id: string)
    requires Inv(s) && Orphaned(s, id) && Enabled(s, l) && !DefinesNode(l, id)
    ensures Inv(Apply(validIP, s, l)) && Orphaned(Apply(validIP, s, l), id)
  {
    StepKeepsInv(validIP, s, l);
    hide MapOk, DataOk, VersionsOk, RefsOk, RunTask, RunHandler, TaskEnabled, HandlerEnabled, Orphaned;
    if IsTaskLabel(l) {
      OrphanedTaskStep(validIP, s, l, id);
    } else {
      OrphanedHandlerStep(validIP, s, l, id);
    }
  }

  /** Nothing but a new ConfigMap for its ID ever takes such a snapshot away. */
  lemma {:induction false} OrphanStays(validIP: string -> bool, s: State, ls: seq<Label>, id: string)
    requires Inv(s) && Orphaned(s, id)
    requires CanRun(validIP, s, ls) && forall l :: l in ls ==> !DefinesNode(l, id)
    ensures id in Run(validIP, s, ls).cache && id !in Run(validIP, s, ls).storeMap
    decreases |ls|
  {
    if ls != [] {
      OrphanedStep(validIP, s, ls[0], id);
      hide Apply, Enabled, Inv, Orphaned;
      OrphanStays(validIP, Apply(validIP, s, ls[0]), ls[1..], id);
    }
  }

  /** But a certificate rotation that visits the store between the two brings the snapshot
      back for a node that no longer exists, and there it stays. */
  lemma RotationBetween(validIP: string -> bool, s: State, secrets: seq<Secret>) returns (ls: seq<Label>)
    requires Inv(s) && !s.crashed && s.handler.Draining?
    ensures CanRun(validIP, s, ls) && Inv(Run(validIP, s, ls))
    ensures Orphaned(Run(validIP, s, ls), s.stores[s.handler.ref].config.id)
  {
    hide Apply, Enabled, MapOk, DataOk, VersionsOk, Run, CanRun;
    var visit, s3 := RotationVisits(validIP, s);
    var rest := RotationRecreates(validIP, s3, s.tasks, s.handler.ref, secrets);
    RunAppend(validIP, s, visit, rest);
    ls := visit + rest;
    RunKeepsInv(validIP, s, ls);
  }

  /** The rotation finds the store between the two steps. */
  lemma RotationVisits(validIP: string -> bool, s: State) returns (ls: seq<Label>, s3: State)
    requires Inv(s) && !s.crashed && s.handler.Draining?
    ensures CanRun(validIP, s, ls) && s3 == Run(validIP, s, ls)
    ensures s3.stores == s.stores && s3.tasks == s.tasks + [Rotate(s.handler.ref)] && !s3.crashed && s3.handler.Idle?
    ensures s3.storeMap == s.storeMap - {s.stores[s.handler.ref].config.id}
  {
    var r := s.handler.ref;
    var id := s.stores[r].config.id;
    DrainingIsRegistered(s);
    hide Inv, RefsOk;
    var s1 := s.(cache := s.cache - {id}, handler := Cleared(r));
    var s2 := s1.(tasks := s.tasks + [Rotate(r)]);
    s3 := s2.(storeMap := s.storeMap - {id}, handler := Idle);
    ls := [ClearSnapshot, Visit(RotationTick, id), Remove];
    hide Apply, Enabled;
    ClearStep(validIP, s, r);
    VisitStep(validIP, s1, RotationTick, id);
    RemoveStep(validIP, s2, r);
    RunCons(validIP, s2, ls[2..]);
    RunCons(validIP, s1, ls[1..]);
    RunCons(validIP, s, ls);
  }

  lemma DrainingIsRegistered(s: State)
    requires Inv(s) && s.handler.Draining?
    ensures s.handler.ref < |s.stores| && Registered(s, s.handler.ref)
  {
  }

  lemma RotationRecreates(validIP: string -> bool, s: State, base: seq<Task>, r: Ref, secrets: seq<Secret>) returns (ls: seq<Label>)
    requires !s.crashed && r < |s.stores| && s.tasks == base + [Rotate(r)]
    ensures CanRun(validIP, s, ls) && s.stores[r].config.id in Run(validIP, s, ls).cache
    ensures Run(validIP, s, ls).storeMap == s.storeMap && Run(validIP, s, ls).handler == s.handler
  {
    var n := |base|;
    var version := FreshVersion(s.used);
    ls := [RunRotate(n, Success(secrets)), RunPush(n, version, Pushed)];
    var s1 := Apply(validIP, s, ls[0]);
    assert s1.tasks == base + [Push(r)];
    var s2 := Apply(validIP, s1, ls[1]);
    assert s.stores[r].config.id in s2.cache;
    hide Apply, Enabled;
    RunCons(validIP, s1, ls[1..]);
    RunCons(validIP, s, ls);
  }

  // ----- exactness

  function DeleteSteps(ids: seq<string>): seq<Label> {
    if ids == [] then [] else [StartDelete(ids[0]), ClearSnapshot, Remove] + DeleteSteps(ids[1..])
  }

  lemma NoSteps()
    ensures DeleteSteps([]) == []
  {
  }

  lemma {:induction false} DeleteStepsNext(ids: seq<string>, id: string)
    ensures DeleteSteps(ids + [id]) == DeleteSteps(ids) + [StartDelete(id), ClearSnapshot, Remove]
  {
    if ids == [] {
      assert [id][1..] == [];
    } else {
      assert (ids + [id])[1..] == ids[1..] + [id];
      DeleteStepsNext(ids[1..], id);
    }
  }

  ghost predicate DeletedExactly(s: State, s': State, ids: set<string>)
    requires RefsOk(s)
  {
    && s'.storeMap == s.storeMap - ids && s'.cache == s.cache - ids
    && s'.tasks == s.tasks && s'.used == s.used && s'.handler == s.handler && s'.crashed == s.crashed
    && |s'.stores| == |s.stores|
    && forall r :: 0 <= r < |s.stores| ==>
         s'.stores[r] == s.stores[r].(stopped := s.stores[r].stopped || (Registered(s, r) && s.stores[r].config.id in ids))
  }

  lemma DeleteOne(validIP: string -> bool, s: State, id: string) returns (s': State)
    requires Inv(s) && !s.crashed && s.handler.Idle? && id in s.storeMap
    ensures CanRun(validIP, s, [StartDelete(id), ClearSnapshot, Remove]) && s' == Run(validIP, s, [StartDelete(id), ClearSnapshot, Remove])
    ensures Inv(s') && DeletedExactly(s, s', {id})
  {
    hide Apply, Enabled, MapOk, DataOk, VersionsOk;
    var ls := [StartDelete(id), ClearSnapshot, Remove];
    var r := s.storeMap[id];
    var s1 := StopStore(s, r).(handler := Draining(r));
    var s2 := s1.(cache := s.cache - {id}, handler := Cleared(r));
    s' := s2.(storeMap := s.storeMap - {id}, handler := Idle);
    OneDeleted(s, id);
    hide RefsOk, DeletedExactly;
    assert s1.stores[r].config.id == id;
    StartDeleteStep(validIP, s, id);
    ClearStep(validIP, s1, r);
    RemoveStep(validIP, s2, r);
    RunCons(validIP, s2, ls[2..]);
    RunCons(validIP, s1, ls[1..]);
    RunCons(validIP, s, ls);
    RunKeepsInv(validIP, s, ls);
  }

  lemma OneDeleted(s: State, id: string)
    requires RefsOk(s) && id in s.storeMap && s.handler.Idle?
    ensures DeletedExactly(s, StopStore(s, s.storeMap[id]).(cache := s.cache - {id}, storeMap := s.storeMap - {id}), {id})
  {
  }

  /** Undisturbed, deleting a list of registered IDs removes exactly those from the store map,
      clears exactly their snapshots, stops exactly their stores and changes nothing else. */
  lemma {:induction false} DeletionIsExact(validIP: string -> bool, s: State, ids: seq<string>)
    requires Inv(s) && !s.crashed && s.handler.Idle? && Distinct(ids)
    requires forall id :: id in ids ==> id in s.storeMap
    ensures CanRun(validIP, s, DeleteSteps(ids))
    ensures DeletedExactly(s, Run(validIP, s, DeleteSteps(ids)), set id | id in ids)
    decreases |ids|
  {
    hide Apply, Enabled, Run, CanRun, Inv, DeletedExactly, Distinct, RefsOk;
    RefsFromInv(s, s);
    if ids == [] {
      DeleteNothing(validIP, s);
      assert (set id | id in ids) == {};
    } else {
      var first, rest := ids[0], ids[1..];
      var s1 := DeleteOne(validIP, s, first);
      OthersRemain(s, s1, ids);
      DeletionIsExact(validIP, s1, rest);
      RunAppend(validIP, s, [StartDelete(first), ClearSnapshot, Remove], DeleteSteps(rest));
      RefsFromInv(s, s1);
      DeletionsCompose(s, s1, Run(validIP, s1, DeleteSteps(rest)), first, set id | id in rest);
      assert (set id | id in ids) == {first} + (set id | id in rest);
    }
  }

  /** The IDs whose registered store came from this ConfigMap. */
  function Owned(s: State, owner: Owner): set<string> {
    set id | id in s.storeMap && s.storeMap[id] < |s.stores| && s.stores[s.storeMap[id]].config.owner == owner
  }

  /** Undisturbed, deleting a ConfigMap removes exactly the IDs of its own name and namespace
      from the store map, clears exactly their snapshots and stops exactly their stores, in
      whatever order the map is traversed. */
  lemma OwnerDeletion(validIP: string -> bool, s: State, owner: Owner, ids: seq<string>)
    requires Inv(s) && !s.crashed && s.handler.Idle?
    requires Distinct(ids) && (set id | id in ids) == Owned(s, owner)
    ensures CanRun(validIP, s, DeleteSteps(ids))
    ensures DeletedExactly(s, Run(validIP, s, DeleteSteps(ids)), Owned(s, owner))
    ensures Owned(Run(validIP, s, DeleteSteps(ids)), owner) == {}
  {
    hide Run, CanRun, Inv, DeleteSteps, Distinct;
    RefsFromInv(s, s);
    forall id | id in ids ensures id in s.storeMap {
      assert id in (set other | other in ids);
      assert id in Owned(s, owner);
    }
    DeletionIsExact(validIP, s, ids);
  }

  lemma DeleteNothing(validIP: string -> bool, s: State)
    requires RefsOk(s)
    ensures CanRun(validIP, s, []) && Run(validIP, s, []) == s && DeletedExactly(s, s, {})
  {
    assert s.storeMap - {} == s.storeMap && s.cache - {} == s.cache;
  }

  lemma RefsFromInv(s: State, s1: State)
    requires Inv(s) && Inv(s1)
    ensures RefsOk(s) && RefsOk(s1)
  {
  }

  lemma OthersRemain(s: State, s1: State, ids: seq<string>)
    requires ids != [] && Distinct(ids) && RefsOk(s) && DeletedExactly(s, s1, {ids[0]})
    requires forall id :: id in ids ==> id in s.storeMap
    ensures Distinct(ids[1..]) && forall id :: id in ids[1..] ==> id in s1.storeMap
    ensures ids[0] !in ids[1..]
    ensures s1.crashed == s.crashed && s1.handler == s.handler
  {
  }

  lemma DeletionsCompose(s: State, s1: State, s2: State, id: string, ids: set<string>)
    requires RefsOk(s) && RefsOk(s1) && DeletedExactly(s, s1, {id}) && DeletedExactly(s1, s2, ids) && id !in ids
    ensures DeletedExactly(s, s2, {id} + ids)
  {
    assert s.storeMap - {id} - ids == s.storeMap - ({id} + ids);
    assert s.cache - {id} - ids == s.cache - ({id} + ids);
    hide RefsOk;
    forall r | 0 <= r < |s.stores|
      ensures s2.stores[r] == s.stores[r].(stopped := s.stores[r].stopped || (Registered(s, r) && s.stores[r].config.id in {id} + ids))
    {
      assert s1.stores[r].config == s.stores[r].config;
      assert s.stores[r].config.id != id ==> (Registered(s1, r) <==> Registered(s, r));
      hide Registered;
    }
  }
}
