// What the methods of ConfigStore guarantee is what runs of the protocol do.
module Refinement {
  import opened Endpoints
  import opened Guarantees
  import opened Protocol
  import opened Publications
  import opened Stores
  import opened Wrappers

  function TaskOf(r: Ref, g: Goroutine): Task {
    match g
    case PushLater => Push(r)
    case SaveLater => Save(r, false)
  }

  function TasksOf(r: Ref, gs: seq<Goroutine>): seq<Task> {
    seq(|gs|, i requires 0 <= i < |gs| => TaskOf(r, gs[i]))
  }

  lemma LastTask(base: seq<Task>, t: Task, started: seq<Task>)
    ensures Finish(base + [t], |base|, started) == base + started
  {
    assert (base + [t])[..|base|] == base && (base + [t])[|base| + 1..] == [];
    assert base + [] + started == base + started;
  }

  lemma TasksAppend(r: Ref, a: seq<Goroutine>, b: seq<Goroutine>)
    ensures TasksOf(r, a + b) == TasksOf(r, a) + TasksOf(r, b)
  {
  }

  /** What a save leaves pending: what it started, then the check if it belongs to a Sync. */
  function Left(base: seq<Task>, r: Ref, started: seq<Goroutine>, check: bool): seq<Task> {
    base + TasksOf(r, started) + After(r, check)
  }

  /** A save as the method specifies it is a pending save that computes and then commits. */
  lemma SaveIsARun(validIP: string -> bool, s: State, base: seq<Task>, r: Ref, check: bool, found: Result<LbMap>,
                   after: Store, started: seq<Goroutine>) returns (ls: seq<Label>)
    requires !s.crashed && r < |s.stores| && s.tasks == base + [Save(r, check)]
    requires found.Success? ==> Discovered(found.value)
    requires Saved(validIP, s.stores[r], found, after, started)
    ensures CanRun(validIP, s, ls)
    ensures Run(validIP, s, ls) == s.(stores := s.stores[r := after], tasks := Left(base, r, started, check))
  {
    hide Apply, Enabled, CanRun, Run, Commit, HasBadAddress, IsPublication, Merge, AddressesPass, Discovered, Fingerprint, Left;
    if found.Failure? || HasBadAddress(validIP, Merge(s.stores[r].config.statics, found.value)) {
      ls := SkippedSave(validIP, s, base, r, check);
    } else {
      var eps :|
        && IsPublication(Merge(s.stores[r].config.statics, found.value), eps)
        && AddressesPass(validIP, eps)
        && after == Commit(s.stores[r], eps, Fingerprint(eps))
        && started == if Changed(s.stores[r], Fingerprint(eps)) then [PushLater] else [];
      ls := CommittedSave(validIP, s, base, r, check, Found(found.value, eps), started);
    }
  }

  lemma SkippedSave(validIP: string -> bool, s: State, base: seq<Task>, r: Ref, check: bool) returns (ls: seq<Label>)
    requires !s.crashed && r < |s.stores| && s.tasks == base + [Save(r, check)]
    ensures CanRun(validIP, s, ls)
    ensures Run(validIP, s, ls) == s.(stores := s.stores[r := s.stores[r]], tasks := Left(base, r, [], check))
  {
    var l := RunSave(|base|, ListerFailed);
    TailStep(validIP, s, base, Save(r, check), l);
    assert s.stores[r := s.stores[r]] == s.stores;
    assert base + TasksOf(r, []) == base;
    hide Apply, Enabled;
    ls := [l];
    RunCons(validIP, s, ls);
  }

  lemma CommittedSave(validIP: string -> bool, s: State, base: seq<Task>, r: Ref, check: bool, finding: Finding, started: seq<Goroutine>)
    returns (ls: seq<Label>)
    requires !s.crashed && r < |s.stores| && s.tasks == base + [Save(r, check)]
    requires FindingOk(s.stores[r].config, finding) && Usable(validIP, finding).Some?
    requires started == if Changed(s.stores[r], Fingerprint(finding.eps)) then [PushLater] else []
    ensures CanRun(validIP, s, ls)
    ensures Run(validIP, s, ls) ==
      s.(stores := s.stores[r := Commit(s.stores[r], finding.eps, Fingerprint(finding.eps))], tasks := Left(base, r, started, check))
  {
    hide Apply, Enabled, FindingOk, Commit, Left;
    var t := SaveCommit(r, finding.eps, Fingerprint(finding.eps), check);
    var s1 := s.(tasks := base + [t]);
    var save := RunSave(|base|, finding);
    TailStep(validIP, s, base, Save(r, check), save);
    CommitIsAStep(validIP, s1, base, t, started);
    ls := [save, RunCommit(|base|)];
    RunCons(validIP, s1, ls[1..]);
    RunCons(validIP, s, ls);
  }

  lemma CommitIsAStep(validIP: string -> bool, s: State, base: seq<Task>, t: Task, started: seq<Goroutine>)
    requires !s.crashed && t.SaveCommit? && t.ref < |s.stores| && s.tasks == base + [t]
    requires started == if Changed(s.stores[t.ref], t.lines) then [PushLater] else []
    ensures Enabled(s, RunCommit(|base|))
    ensures Apply(validIP, s, RunCommit(|base|)) ==
      s.(stores := s.stores[t.ref := Commit(s.stores[t.ref], t.eps, t.lines)], tasks := Left(base, t.ref, started, t.check))
  {
    var more := TasksOf(t.ref, started) + After(t.ref, t.check);
    LastTask(base, t, more);
    assert Started(validIP, s, RunCommit(|base|)) == more;
    assert base + more == Left(base, t.ref, started, t.check);
  }

  /** A pod or endpoints event as the method specifies it is a run of the pending notification. */
  lemma NewPodIsARun(validIP: string -> bool, s: State, base: seq<Task>, r: Ref, found: Result<LbMap>,
                     after: Store, started: seq<Goroutine>) returns (ls: seq<Label>)
    requires !s.crashed && r < |s.stores| && s.tasks == base + [Notify(r)]
    requires found.Success? ==> Discovered(found.value)
    requires if s.stores[r].stopped then after == s.stores[r] && started == [] else Saved(validIP, s.stores[r], found, after, started)
    ensures CanRun(validIP, s, ls)
    ensures Run(validIP, s, ls) == s.(stores := s.stores[r := after], tasks := base + TasksOf(r, started))
  {
    var l := RunNotify(|base|);
    TailStep(validIP, s, base, Notify(r), l);
    hide Apply, Enabled, Saved;
    if s.stores[r].stopped {
      ls := [l];
      RunCons(validIP, s, ls);
      assert s.stores[r := after] == s.stores;
    } else {
      var s1 := s.(tasks := base + [Save(r, false)]);
      hide CanRun, Run;
      var rest := SaveIsARun(validIP, s1, base, r, false, found, after, started);
      assert Left(base, r, started, false) == base + TasksOf(r, started);
      ls := [l] + rest;
      assert ls[1..] == rest;
      RunCons(validIP, s, ls);
    }
  }

  /** A Sync as the method specifies it is a run of the pending Sync: its start, a save, a
      commit unless nothing usable was found, and the check, which crashes the process exactly
      when the method panics. */
  lemma SyncIsARun(validIP: string -> bool, s: State, base: seq<Task>, r: Ref, found: Result<LbMap>,
                   after: Store, started: seq<Goroutine>, panicked: bool) returns (ls: seq<Label>)
    requires !s.crashed && r < |s.stores| && s.tasks == base + [SyncCall(r)]
    requires found.Success? ==> Discovered(found.value)
    requires Synced(validIP, s.stores[r], found, CachedFor(s, r), after, started, panicked)
    ensures CanRun(validIP, s, ls) && Run(validIP, s, ls).crashed == panicked
    ensures !panicked ==> Run(validIP, s, ls) == s.(stores := s.stores[r := after], tasks := base + TasksOf(r, started))
  {
    var l := RunSync(|base|);
    TailStep(validIP, s, base, SyncCall(r), l);
    hide Apply, Enabled, Saved, Check, CachedFor, CanRun, Run;
    if s.stores[r].stopped {
      ls := [l];
      OneStep(validIP, s, l);
      assert s.stores[r := after] == s.stores;
      assert base + TasksOf(r, []) == base;
    } else {
      var mid: Store, first: seq<Goroutine> :|
        && Saved(validIP, s.stores[r], found, mid, first)
        && var outcome := Check(mid, CachedFor(s, r));
        && (panicked <==> outcome.Panics?)
        && after == (if outcome.Resets? then Reset(mid) else mid)
        && started == first + Restarted(outcome);
      var outcome := Check(mid, CachedFor(s, r));
      var s1 := s.(tasks := base + [Save(r, true)]);
      SameCached(s, s1, r);
      var rest := SaveThenCheck(validIP, s1, base, r, found, mid, first);
      TasksAppend(r, first, Restarted(outcome));
      Regrouped(base, TasksOf(r, first), TasksOf(r, Restarted(outcome)));
      hide TasksOf, Reset, Restarted;
      ls := [l] + rest;
      assert ls[1..] == rest;
      RunCons(validIP, s, ls);
    }
  }

  lemma Regrouped(a: seq<Task>, b: seq<Task>, c: seq<Task>)
    ensures a + b + c == a + (b + c)
  {
  }

  lemma SameCached(s: State, s1: State, r: Ref)
    requires r < |s.stores| && |s1.stores| == |s.stores| && s1.cache == s.cache && s1.stores[r].config == s.stores[r].config
    ensures CachedFor(s1, r) == CachedFor(s, r)
  {
  }

  lemma SavedKeepsConfig(validIP: string -> bool, before: Store, found: Result<LbMap>, after: Store, started: seq<Goroutine>)
    requires Saved(validIP, before, found, after, started)
    ensures after.config == before.config
  {
  }

  lemma SaveThenCheck(validIP: string -> bool, s: State, base: seq<Task>, r: Ref, found: Result<LbMap>,
                      mid: Store, first: seq<Goroutine>) returns (ls: seq<Label>)
    requires !s.crashed && r < |s.stores| && s.tasks == base + [Save(r, true)]
    requires found.Success? ==> Discovered(found.value)
    requires Saved(validIP, s.stores[r], found, mid, first)
    ensures CanRun(validIP, s, ls)
    ensures
      var outcome := Check(mid, CachedFor(s, r));
      && (Run(validIP, s, ls).crashed <==> outcome.Panics?)
      && (!outcome.Panics? ==>
            Run(validIP, s, ls) == s.(stores := s.stores[r := if outcome.Resets? then Reset(mid) else mid],
                                      tasks := base + TasksOf(r, first) + TasksOf(r, Restarted(outcome))))
  {
    hide Apply, Enabled, Saved, Check, CanRun, Run, CachedFor;
    SavedKeepsConfig(validIP, s.stores[r], found, mid, first);
    var save := SaveIsARun(validIP, s, base, r, true, found, mid, first);
    var s1 := s.(stores := s.stores[r := mid], tasks := Left(base, r, first, true));
    SameCached(s, s1, r);
    CheckIsAStep(validIP, s1, base + TasksOf(r, first), r);
    var check := [RunRecheck(|base + TasksOf(r, first)|)];
    OneStep(validIP, s1, check[0]);
    RunAppend(validIP, s, save, check);
    assert s.stores[r := mid][r := Reset(mid)] == s.stores[r := Reset(mid)];
    assert s.stores[r := mid][r := mid] == s.stores[r := mid];
    ls := save + check;
  }

  lemma OneStep(validIP: string -> bool, s: State, l: Label)
    requires Enabled(s, l)
    ensures CanRun(validIP, s, [l]) && Run(validIP, s, [l]) == Apply(validIP, s, l)
  {
    hide Apply, Enabled;
    RunCons(validIP, s, [l]);
  }

  /** The locked half of Sync as the method specifies it is one step. */
  lemma CheckIsAStep(validIP: string -> bool, s: State, base: seq<Task>, r: Ref)
    requires !s.crashed && r < |s.stores| && s.tasks == base + [Recheck(r)]
    ensures Enabled(s, RunRecheck(|base|))
    ensures
      var s' := Apply(validIP, s, RunRecheck(|base|));
      var outcome := Check(s.stores[r], CachedFor(s, r));
      && (s'.crashed <==> outcome.Panics?)
      && (!outcome.Panics? ==>
            s' == s.(stores := s.stores[r := if outcome.Resets? then Reset(s.stores[r]) else s.stores[r]],
                     tasks := base + TasksOf(r, Restarted(outcome))))
  {
    var outcome := Check(s.stores[r], CachedFor(s, r));
    if !outcome.Panics? {
      var started := TasksOf(r, Restarted(outcome));
      LastTask(base, Recheck(r), started);
      assert Started(validIP, s, RunRecheck(|base|)) == started;
    }
  }

  /** A certificate rotation, LoadNewSecrets and then Push as the methods specify them, is a
      run of the pending rotation, given a version that is new. */
  lemma RotationIsARun(validIP: string -> bool, s: State, base: seq<Task>, r: Ref, created: Result<seq<Secret>>,
                       version: string, outcome: PushOutcome) returns (ls: seq<Label>)
    requires !s.crashed && r < |s.stores| && s.tasks == base + [Rotate(r)] && version != "" && version !in s.used
    ensures CanRun(validIP, s, ls)
    ensures created.Failure? ==> Run(validIP, s, ls) == s.(tasks := base)
    ensures created.Success? ==>
      var after := s.stores[r].(secrets := created.value, version := version);
      Run(validIP, s, ls) == s.(
        stores := s.stores[r := after], tasks := base, used := s.used + {version},
        cache := if IsStored(outcome) then s.cache[after.config.id := SnapshotOf(after)] else s.cache)
  {
    var rotate := RunRotate(|base|, created);
    if created.Failure? {
      TailStep(validIP, s, base, Rotate(r), rotate);
      assert base + [] == base;
      OneStep(validIP, s, rotate);
      ls := [rotate];
    } else {
      var s1 := s.(stores := s.stores[r := s.stores[r].(secrets := created.value)], tasks := base + [Push(r)]);
      LastTask(base, Rotate(r), [Push(r)]);
      assert Enabled(s, rotate) && Apply(validIP, s, rotate) == s1;
      PushIsAStep(validIP, s1, base, r, version, outcome);
      assert s.stores[r := s1.stores[r]][r := s1.stores[r].(version := version)] == s.stores[r := s1.stores[r].(version := version)];
      hide Apply, Enabled;
      ls := [rotate, RunPush(|base|, version, outcome)];
      RunCons(validIP, s1, ls[1..]);
      RunCons(validIP, s, ls);
    }
  }

  /** Push as the method specifies it is one step, given a version that is new. */
  lemma PushIsAStep(validIP: string -> bool, s: State, base: seq<Task>, r: Ref, version: string, outcome: PushOutcome)
    requires !s.crashed && r < |s.stores| && s.tasks == base + [Push(r)] && version != "" && version !in s.used
    ensures Enabled(s, RunPush(|base|, version, outcome))
    ensures
      var after := s.stores[r].(version := version);
      Apply(validIP, s, RunPush(|base|, version, outcome)) == s.(
        stores := s.stores[r := after], tasks := base, used := s.used + {version},
        cache := if IsStored(outcome) then s.cache[after.config.id := SnapshotOf(after)] else s.cache)
  {
    LastTask(base, Push(r), []);
    assert base + [] == base;
  }

  /** A store as the handler adds it is a new store after a save as the method specifies it,
      and a push is pending exactly if that save started one. */
  lemma FirstSaveIsASave(validIP: string -> bool, config: Config, secrets: seq<Secret>, finding: Finding) returns (found: Result<LbMap>)
    requires FindingOk(config, finding)
    ensures Saved(validIP, Store(config, "", None, None, secrets, false), found, FirstSave(validIP, config, secrets, finding),
                  if Usable(validIP, finding).Some? then [PushLater] else [])
  {
    found := if finding.Found? then Success(finding.dynamics) else Failure;
    if finding.Found? {
      BadAddressPublished(validIP, Merge(config.statics, finding.dynamics), finding.eps);
    }
  }
}
