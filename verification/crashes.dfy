// When a run can end in the crash of a Sync that finds no snapshot.
module Crashes {
  import opened Convergence
  import opened Endpoints
  import opened Guarantees
  import opened Protocol
  import opened Publications
  import opened Retirement
  import opened Safety
  import opened Stores

  // ----- lists are stored only where the static endpoints pass

  ghost function GoodStatics(validIP: string -> bool): ListProperty {
    (statics, eps) => !HasBadAddress(validIP, statics)
  }

  lemma GoodFinding(validIP: string -> bool, l: Label)
    ensures FindingSatisfies(validIP, GoodStatics(validIP), l)
  {
    hide IsPublication, Merge, Entries, Discovered, HasBadAddress;
    if (l.RunSave? || l.NewStore?) && Usable(validIP, l.finding).Some? {
      forall config | FindingOk(config, l.finding) ensures !HasBadAddress(validIP, config.statics) {
        BadAddressPublished(validIP, Merge(config.statics, l.finding.dynamics), l.finding.eps);
        if HasBadAddress(validIP, config.statics) {
          BadStaticsStay(validIP, config.statics, l.finding.dynamics);
        }
      }
    }
  }

  /** What every reachable state satisfies. */
  ghost predicate Sound(validIP: string -> bool, s: State) {
    Inv(s) && ListsSatisfy(GoodStatics(validIP), s)
  }

  lemma SoundStep(validIP: string -> bool, s: State, l: Label)
    requires Sound(validIP, s) && Enabled(s, l)
    ensures Sound(validIP, Apply(validIP, s, l))
  {
    hide Inv, ListsSatisfy, Apply, Enabled, FindingSatisfies;
    GoodFinding(validIP, l);
    StepSatisfies(validIP, GoodStatics(validIP), s, l);
  }

  lemma SoundReachable(validIP: string -> bool, ls: seq<Label>)
    requires CanRun(validIP, INITIAL, ls)
    ensures Sound(validIP, Run(validIP, INITIAL, ls))
  {
    hide FindingSatisfies;
    forall l | l in ls ensures FindingSatisfies(validIP, GoodStatics(validIP), l) {
      GoodFinding(validIP, l);
    }
    RunSatisfies(validIP, GoodStatics(validIP), INITIAL, ls);
  }

  // ----- the condition

  predicate Saving(t: Task) {
    t.Save? || t.SaveCommit?
  }

  /** The store holds a list, or a save can still give it one. */
  ghost predicate CanHold(validIP: string -> bool, s: State, r: Ref)
    requires r < |s.stores|
  {
    || s.stores[r].last.Some?
    || (&& !HasBadAddress(validIP, s.stores[r].config.statics)
        && (!s.stores[r].stopped || exists t :: t in s.tasks && t.ref == r && Saving(t)))
  }

  /** A node without snapshot, whose store can come to a check while it holds a list. */
  ghost predicate InDanger(validIP: string -> bool, s: State, r: Ref)
    requires r < |s.stores|
  {
    s.stores[r].config.id !in s.cache && CanCheck(s, r) && CanHold(validIP, s, r)
  }

  /** Some store is in danger, or the one being built will be. */
  ghost predicate CanCrash(validIP: string -> bool, s: State) {
    || (exists r :: 0 <= r < |s.stores| && InDanger(validIP, s, r))
    || (s.handler.Building? && s.handler.config.id !in s.cache && !HasBadAddress(validIP, s.handler.config.statics))
  }

  /** No snapshot is cleared, and no node is defined that has none. */
  predicate Tame(ids: set<string>, l: Label) {
    !l.ClearSnapshot? && (l.StartConfig? ==> l.config.id in ids)
  }

  // ----- where no store is in danger, none gets into it

  lemma OtherStaysSafe(validIP: string -> bool, s: State, l: Label, r: Ref)
    requires RefsOk(s) && IsTaskLabel(l) && TaskEnabled(s, l) && r < |s.stores| && r != s.tasks[l.i].ref && !InDanger(validIP, s, r)
    ensures r < |RunTask(validIP, s, l).stores| && !InDanger(validIP, RunTask(validIP, s, l), r)
  {
    TaskFrame(validIP, s, l);
    TaskCache(validIP, s, l);
    hide RunTask, TaskEnabled, StoreAfter, Started, HasBadAddress, Checking, Saving, RefsOk;
  }

  lemma StartedSaving(validIP: string -> bool, s: State, l: Label)
    requires IsTaskLabel(l) && TaskEnabled(s, l)
    ensures forall t :: t in Started(validIP, s, l) && Saving(t) ==>
      !s.stores[s.tasks[l.i].ref].stopped || Saving(s.tasks[l.i]) || (l.RunRecheck? && s.stores[s.tasks[l.i].ref].last.Some?)
  {
    hide FindingOk, Fingerprint, AddressesPass;
  }

  /** What a task does to the list its own store holds. */
  lemma ListAfter(s: State, l: Label)
    requires IsTaskLabel(l) && TaskEnabled(s, l)
    ensures StoreAfter(s, l).last.Some? ==> s.stores[s.tasks[l.i].ref].last.Some? || s.tasks[l.i].SaveCommit?
  {
    hide FindingOk;
  }

  lemma PendingIsGood(validIP: string -> bool, s: State, t: Task)
    requires Sound(validIP, s) && t in s.tasks && t.SaveCommit?
    ensures t.ref < |s.stores| && !HasBadAddress(validIP, s.stores[t.ref].config.statics)
  {
    hide HasBadAddress;
    assert TaskSatisfies(GoodStatics(validIP), s.stores[t.ref].config, t);
  }

  lemma HeldIsGood(validIP: string -> bool, s: State, r: Ref)
    requires Sound(validIP, s) && r < |s.stores| && s.stores[r].last.Some?
    ensures !HasBadAddress(validIP, s.stores[r].config.statics)
  {
    hide HasBadAddress;
    assert StoreSatisfies(GoodStatics(validIP), s.stores[r]);
  }

  /** What a store could hold after its own task it could hold before. */
  lemma OwnCanHold(validIP: string -> bool, s: State, l: Label)
    requires Sound(validIP, s) && IsTaskLabel(l) && TaskEnabled(s, l)
    ensures
      var r, s' := s.tasks[l.i].ref, RunTask(validIP, s, l);
      r < |s'.stores| && (CanHold(validIP, s', r) ==> CanHold(validIP, s, r))
  {
    var t := s.tasks[l.i];
    assert t in s.tasks;
    TaskFrame(validIP, s, l);
    StartedSaving(validIP, s, l);
    ListAfter(s, l);
    if t.SaveCommit? {
      PendingIsGood(validIP, s, t);
    }
    if s.stores[t.ref].last.Some? {
      HeldIsGood(validIP, s, t.ref);
    }
    hide RunTask, TaskEnabled, StoreAfter, Started, HasBadAddress, Sound;
  }

  lemma OwnStaysSafe(validIP: string -> bool, s: State, l: Label)
    requires Sound(validIP, s) && IsTaskLabel(l) && TaskEnabled(s, l) && !InDanger(validIP, s, s.tasks[l.i].ref)
    ensures
      var r, s' := s.tasks[l.i].ref, RunTask(validIP, s, l);
      r < |s'.stores| && !InDanger(validIP, s', r)
  {
    OwnCanHold(validIP, s, l);
    TaskCanCheck(validIP, s, l, s.tasks[l.i].ref);
    TaskCache(validIP, s, l);
    TaskFrame(validIP, s, l);
    hide RunTask, TaskEnabled, StoreAfter, Started, CanHold, CanCheck, Sound;
  }

  lemma TaskStaysSafe(validIP: string -> bool, s: State, l: Label)
    requires Sound(validIP, s) && !CanCrash(validIP, s) && IsTaskLabel(l) && Enabled(s, l)
    ensures !CanCrash(validIP, Apply(validIP, s, l)) && !Apply(validIP, s, l).crashed
  {
    var r := s.tasks[l.i].ref;
    assert !InDanger(validIP, s, r);
    CrashIff(validIP, s, l);
    assert s.tasks[l.i] in s.tasks;
    assert l.RunRecheck? ==> CanCheck(s, r) && Checking(s.tasks[l.i]);
    TaskFrame(validIP, s, l);
    TaskCache(validIP, s, l);
    forall q | 0 <= q < |RunTask(validIP, s, l).stores| ensures !InDanger(validIP, RunTask(validIP, s, l), q) {
      if q == r {
        OwnStaysSafe(validIP, s, l);
      } else {
        OtherStaysSafe(validIP, s, l, q);
      }
    }
    hide RunTask, TaskEnabled, StoreAfter, Started, HasBadAddress, Sound, CanCheck;
  }

  lemma OldStaysSafe(validIP: string -> bool, s: State, l: Label, r: Ref)
    requires RefsOk(s) && !IsTaskLabel(l) && HandlerEnabled(s, l) && !l.ClearSnapshot?
    requires r < |s.stores| && !InDanger(validIP, s, r)
    ensures r < |RunHandler(validIP, s, l).stores| && !InDanger(validIP, RunHandler(validIP, s, l), r)
  {
    HandlerFrame(validIP, s, l);
    HandlerMoves(validIP, s, l);
    HandlerCanCheck(validIP, s, l, r);
    hide RunHandler, HandlerEnabled, HasBadAddress, CanCheck, FirstSave, Visited;
  }

  lemma NewIsSafe(validIP: string -> bool, s: State, secrets: seq<Secret>, finding: Finding)
    requires RefsOk(s) && s.handler.Building? && FindingOk(s.handler.config, finding)
    requires s.handler.config.id in s.cache || HasBadAddress(validIP, s.handler.config.statics)
    ensures !InDanger(validIP, AddStore(validIP, s, secrets, finding), |s.stores|)
  {
    var st := FirstSave(validIP, s.handler.config, secrets, finding);
    if HasBadAddress(validIP, s.handler.config.statics) {
      GoodFinding(validIP, NewStore(secrets, finding));
      assert Usable(validIP, finding).None?;
      assert st.last.None?;
    }
    hide HasBadAddress, FindingOk;
  }

  lemma HandlerStaysSafe(validIP: string -> bool, s: State, l: Label)
    requires Sound(validIP, s) && !CanCrash(validIP, s) && !IsTaskLabel(l) && Enabled(s, l) && Tame(s.cache.Keys, l)
    ensures !CanCrash(validIP, Apply(validIP, s, l)) && !Apply(validIP, s, l).crashed
  {
    HandlerFrame(validIP, s, l);
    HandlerMoves(validIP, s, l);
    forall r | 0 <= r < |RunHandler(validIP, s, l).stores| ensures !InDanger(validIP, RunHandler(validIP, s, l), r) {
      if r < |s.stores| {
        OldStaysSafe(validIP, s, l, r);
      } else {
        NewIsSafe(validIP, s, l.secrets, l.finding);
      }
    }
    hide RunHandler, HasBadAddress, InDanger, FirstSave, Visited, MapOk, DataOk, VersionsOk;
  }

  lemma {:induction false} StaysSafe(validIP: string -> bool, s: State, ls: seq<Label>, ids: set<string>)
    requires Sound(validIP, s) && !CanCrash(validIP, s) && !s.crashed && ids <= s.cache.Keys
    requires CanRun(validIP, s, ls) && forall l :: l in ls ==> Tame(ids, l)
    ensures !Run(validIP, s, ls).crashed
    decreases |ls|
  {
    if ls != [] {
      var l := ls[0];
      assert l in ls && Tame(ids, l);
      SoundStep(validIP, s, l);
      SnapshotsGrow(validIP, s, l);
      if IsTaskLabel(l) {
        TaskStaysSafe(validIP, s, l);
      } else {
        HandlerStaysSafe(validIP, s, l);
      }
      hide Apply, Enabled, Sound, CanCrash;
      StaysSafe(validIP, Apply(validIP, s, l), ls[1..], ids);
    }
  }

  lemma SnapshotsGrow(validIP: string -> bool, s: State, l: Label)
    requires Sound(validIP, s) && Enabled(s, l) && !l.ClearSnapshot?
    ensures s.cache.Keys <= Apply(validIP, s, l).cache.Keys
  {
    if IsTaskLabel(l) {
      TaskCache(validIP, s, l);
    } else {
      HandlerMoves(validIP, s, l);
    }
    hide RunTask, RunHandler;
  }

  // ----- where a store is in danger, it can crash

  predicate Mild(l: Label) {
    !l.ClearSnapshot? && !l.StartConfig?
  }

  lemma IndexOf(s: State, t: Task) returns (i: nat)
    requires t in s.tasks
    ensures i < |s.tasks| && s.tasks[i] == t
  {
    i :| 0 <= i < |s.tasks| && s.tasks[i] == t;
  }

  /** Takes one step, then goes on as `rest` does. */
  lemma Then(validIP: string -> bool, s: State, l: Label, rest: seq<Label>) returns (ls: seq<Label>)
    requires Enabled(s, l) && Mild(l) && CanRun(validIP, Apply(validIP, s, l), rest)
    requires Run(validIP, Apply(validIP, s, l), rest).crashed && forall k :: k in rest ==> Mild(k)
    ensures CanRun(validIP, s, ls) && Run(validIP, s, ls).crashed && forall k :: k in ls ==> Mild(k)
  {
    hide Apply, Enabled;
    ls := [l] + rest;
    assert ls[1..] == rest;
    RunCons(validIP, s, ls);
  }

  lemma RecheckCrashes(validIP: string -> bool, s: State, r: Ref) returns (ls: seq<Label>)
    requires !s.crashed && Recheck(r) in s.tasks && r < |s.stores| && s.stores[r].last.Some? && s.stores[r].config.id !in s.cache
    ensures CanRun(validIP, s, ls) && Run(validIP, s, ls).crashed && forall k :: k in ls ==> Mild(k)
  {
    var i := IndexOf(s, Recheck(r));
    CrashStep(validIP, s, RunRecheck(i));
    NothingToRun(validIP, Apply(validIP, s, RunRecheck(i)));
    ls := Then(validIP, s, RunRecheck(i), []);
  }

  lemma NothingToRun(validIP: string -> bool, s: State)
    ensures CanRun(validIP, s, []) && Run(validIP, s, []) == s
  {
  }

  /** A commit, then a check that belongs to it or was pending before. */
  lemma CommitCrashes(validIP: string -> bool, s: State, t: Task) returns (ls: seq<Label>)
    requires !s.crashed && t in s.tasks && t.SaveCommit? && t.ref < |s.stores| && Coherent(s.stores[t.ref])
    requires s.stores[t.ref].config.id !in s.cache && (t.check || Recheck(t.ref) in s.tasks)
    ensures CanRun(validIP, s, ls) && Run(validIP, s, ls).crashed && forall k :: k in ls ==> Mild(k)
  {
    var i := IndexOf(s, t);
    var l := RunCommit(i);
    assert t.check ==> Recheck(t.ref) in Started(validIP, s, l);
    StillPending(validIP, s, l, Recheck(t.ref));
    TaskKeepsConfig(s, l);
    var s' := Apply(validIP, s, l);
    assert s'.cache == s.cache && s'.stores[t.ref] == StoreAfter(s, l) && s'.stores[t.ref].last.Some?;
    var rest := RecheckCrashes(validIP, s', t.ref);
    ls := Then(validIP, s, l, rest);
  }

  lemma SaveCrashes(validIP: string -> bool, s: State, t: Task) returns (ls: seq<Label>)
    requires !s.crashed && t in s.tasks && t.Save? && t.ref < |s.stores| && Coherent(s.stores[t.ref])
    requires !HasBadAddress(validIP, s.stores[t.ref].config.statics)
    requires s.stores[t.ref].config.id !in s.cache && (t.check || Recheck(t.ref) in s.tasks)
    ensures CanRun(validIP, s, ls) && Run(validIP, s, ls).crashed && forall k :: k in ls ==> Mild(k)
  {
    hide HasBadAddress, FindingOk, Fingerprint, Entries;
    var i := IndexOf(s, t);
    var finding := StaticsAlone(validIP, s.stores[t.ref].config);
    var l := RunSave(i, finding);
    SaveLeavesCommit(validIP, s, l);
    var commit := SaveCommit(t.ref, finding.eps, Fingerprint(finding.eps), t.check);
    if !t.check {
      StillPending(validIP, s, l, Recheck(t.ref));
    }
    var s' := Apply(validIP, s, l);
    assert s'.cache == s.cache;
    var rest := CommitCrashes(validIP, s', commit);
    ls := Then(validIP, s, l, rest);
  }

  lemma SyncCrashes(validIP: string -> bool, s: State, r: Ref) returns (ls: seq<Label>)
    requires !s.crashed && r < |s.stores| && !s.stores[r].stopped && Registered(s, r) && Coherent(s.stores[r])
    requires !HasBadAddress(validIP, s.stores[r].config.statics) && s.stores[r].config.id !in s.cache
    ensures CanRun(validIP, s, ls) && Run(validIP, s, ls).crashed && forall k :: k in ls ==> Mild(k)
  {
    hide HasBadAddress, Coherent;
    var id, n := s.stores[r].config.id, |s.tasks|;
    var s1 := s.(tasks := s.tasks + [SyncCall(r)]);
    var s2 := s.(tasks := s.tasks + [Save(r, true)]);
    VisitStep(validIP, s, SyncTick, id);
    TailStep(validIP, s1, s.tasks, SyncCall(r), RunSync(n));
    assert s2.tasks[n] == Save(r, true);
    hide Apply, Enabled;
    var last := SaveCrashes(validIP, s2, Save(r, true));
    var rest := Then(validIP, s1, RunSync(n), last);
    ls := Then(validIP, s, Visit(SyncTick, id), rest);
  }

  lemma LiveCrashes(validIP: string -> bool, s: State, r: Ref) returns (ls: seq<Label>)
    requires Sound(validIP, s) && !s.crashed && r < |s.stores| && !s.stores[r].stopped
    requires !HasBadAddress(validIP, s.stores[r].config.statics) && s.stores[r].config.id !in s.cache
    ensures CanRun(validIP, s, ls) && Run(validIP, s, ls).crashed && forall k :: k in ls ==> Mild(k)
  {
    hide HasBadAddress, Coherent, PublishedFrom, ListsSatisfy;
    assert StoreOk(s.stores[r]);
    if Registered(s, r) {
      ls := SyncCrashes(validIP, s, r);
    } else {
      RegisterStep(validIP, s, r);
      hide Apply, Enabled, Inv;
      var s' := s.(storeMap := s.storeMap[s.stores[r].config.id := r], handler := Idle);
      var rest := SyncCrashes(validIP, s', r);
      ls := Then(validIP, s, Register, rest);
    }
  }

  lemma StoppedCrashes(validIP: string -> bool, s: State, r: Ref) returns (ls: seq<Label>)
    requires Sound(validIP, s) && !s.crashed && r < |s.stores| && s.stores[r].stopped && InDanger(validIP, s, r)
    ensures CanRun(validIP, s, ls) && Run(validIP, s, ls).crashed && forall k :: k in ls ==> Mild(k)
  {
    hide HasBadAddress, Coherent, PublishedFrom, ListsSatisfy;
    assert StoreOk(s.stores[r]);
    if s.stores[r].last.Some? {
      HeldIsGood(validIP, s, r);
    }
    var t :| t in s.tasks && t.ref == r && Checking(t);
    hide Inv, CanRun, Run;
    if t.Save? {
      ls := SaveCrashes(validIP, s, t);
    } else if t.SaveCommit? {
      ls := CommitCrashes(validIP, s, t);
    } else if s.stores[r].last.Some? {
      ls := RecheckCrashes(validIP, s, r);
    } else {
      var u :| u in s.tasks && u.ref == r && Saving(u);
      if u.Save? {
        ls := SaveCrashes(validIP, s, u);
      } else {
        ls := CommitCrashes(validIP, s, u);
      }
    }
  }

  lemma BuildingCrashes(validIP: string -> bool, s: State) returns (ls: seq<Label>)
    requires Sound(validIP, s) && !s.crashed && s.handler.Building? && s.handler.config.id !in s.cache
    requires !HasBadAddress(validIP, s.handler.config.statics)
    ensures CanRun(validIP, s, ls) && Run(validIP, s, ls).crashed && forall k :: k in ls ==> Mild(k)
  {
    var l := NewStore([], ListerFailed);
    NewStoreStep(validIP, s, [], ListerFailed);
    SoundStep(validIP, s, l);
    var s' := AddStore(validIP, s, [], ListerFailed);
    assert s'.stores[|s.stores|].config == s.handler.config && !s'.stores[|s.stores|].stopped && s'.cache == s.cache;
    hide Apply, Enabled, HasBadAddress, Sound, AddStore;
    var rest := LiveCrashes(validIP, s', |s.stores|);
    ls := Then(validIP, s, l, rest);
  }

  lemma DangerCrashes(validIP: string -> bool, s: State) returns (ls: seq<Label>)
    requires Sound(validIP, s) && !s.crashed && CanCrash(validIP, s)
    ensures CanRun(validIP, s, ls) && Run(validIP, s, ls).crashed && forall k :: k in ls ==> Mild(k)
  {
    hide CanRun, Run, Sound, HasBadAddress, CanCheck;
    if r :| 0 <= r < |s.stores| && InDanger(validIP, s, r) {
      if s.stores[r].stopped {
        ls := StoppedCrashes(validIP, s, r);
      } else {
        if s.stores[r].last.Some? {
          HeldIsGood(validIP, s, r);
        }
        ls := LiveCrashes(validIP, s, r);
      }
    } else {
      ls := BuildingCrashes(validIP, s);
    }
  }

  /** After any history, some run that clears no snapshot and defines no node without one can
      crash exactly when there is, built or being built, a store without snapshot that can come
      to a check, because it is live or a check of it is pending, and that holds a list or can
      still be given one. */
  lemma CrashPossibleIff(validIP: string -> bool, before: seq<Label>)
    requires CanRun(validIP, INITIAL, before) && !Run(validIP, INITIAL, before).crashed
    ensures
      var s := Run(validIP, INITIAL, before);
      (exists ls :: CanRun(validIP, s, ls) && (forall l :: l in ls ==> Tame(s.cache.Keys, l)) && Run(validIP, s, ls).crashed)
      <==> CanCrash(validIP, s)
  {
    var s := Run(validIP, INITIAL, before);
    SoundReachable(validIP, before);
    hide Sound, CanCrash, Run, CanRun;
    if CanCrash(validIP, s) {
      var ls := DangerCrashes(validIP, s);
      assert forall l :: l in ls ==> Mild(l) && Tame(s.cache.Keys, l);
    } else {
      forall ls | CanRun(validIP, s, ls) && (forall l :: l in ls ==> Tame(s.cache.Keys, l)) ensures !Run(validIP, s, ls).crashed {
        StaysSafe(validIP, s, ls, s.cache.Keys);
      }
    }
  }
}
