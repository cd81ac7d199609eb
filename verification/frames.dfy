// What each field of a store and of the cache is made of, step by step and over
// whole runs, in terms of labels and fields alone.
module Frames {
  import opened Endpoints
  import opened Guarantees
  import opened Protocol
  import opened Safety
  import opened Stores
  import opened Wrappers

  /** The label is an action of a pending task of store r. */
  predicate Owns(s: State, l: Label, r: Ref)
    requires Enabled(s, l)
  {
    IsTaskLabel(l) && s.tasks[l.i].ref == r
  }

  /** Configuration, secrets and version of a store: only its own rotations and pushes change them. */
  lemma StepFields(validIP: string -> bool, s: State, l: Label, r: Ref)
    requires Enabled(s, l) && r < |s.stores|
    ensures r < |Apply(validIP, s, l).stores|
    ensures
      var st, st' := s.stores[r], Apply(validIP, s, l).stores[r];
      && st'.config == st.config
      && st'.secrets == (if Owns(s, l, r) && l.RunRotate? && l.created.Success? then l.created.value else st.secrets)
      && st'.version == (if Owns(s, l, r) && l.RunPush? then l.version else st.version)
  {
    if IsTaskLabel(l) {
      TaskFrame(validIP, s, l);
      CrashIff(validIP, s, l);
      if s.tasks[l.i].ref == r {
        TaskFields(s, l);
      }
    } else {
      HandlerFrame(validIP, s, l);
    }
    hide RunTask, RunHandler, TaskEnabled, HandlerEnabled, StoreAfter, Started;
  }

  lemma TaskFields(s: State, l: Label)
    requires IsTaskLabel(l) && TaskEnabled(s, l)
    ensures
      var st, st' := s.stores[s.tasks[l.i].ref], StoreAfter(s, l);
      && st'.config == st.config && st'.stopped == st.stopped
      && st'.secrets == (if l.RunRotate? && l.created.Success? then l.created.value else st.secrets)
      && st'.version == (if l.RunPush? then l.version else st.version)
  {
    hide FindingOk;
  }

  /** The list and its array: only a commit and a check of the store's own change them. */
  lemma StepLists(validIP: string -> bool, s: State, l: Label, r: Ref)
    requires Enabled(s, l) && r < |s.stores| && !Apply(validIP, s, l).crashed
    ensures r < |Apply(validIP, s, l).stores|
    ensures
      var st, st' := s.stores[r], Apply(validIP, s, l).stores[r];
      if Owns(s, l, r) && l.RunCommit? && st.lastArray != Some(s.tasks[l.i].lines) then
        st'.last == Some(s.tasks[l.i].eps) && st'.lastArray == Some(s.tasks[l.i].lines)
      else if Owns(s, l, r) && l.RunRecheck? && st.last.Some? && st.config.id in s.cache
        && s.cache[st.config.id].version != "" && s.cache[st.config.id].version != st.version then
        st'.last.None? && st'.lastArray.None?
      else st'.last == st.last && st'.lastArray == st.lastArray
  {
    if IsTaskLabel(l) {
      TaskFrame(validIP, s, l);
      if s.tasks[l.i].ref == r {
        TaskLists(s, l);
      }
    } else {
      HandlerFrame(validIP, s, l);
    }
    hide RunTask, RunHandler, HandlerEnabled, StoreAfter, Started;
  }

  lemma TaskLists(s: State, l: Label)
    requires IsTaskLabel(l) && TaskEnabled(s, l)
    ensures
      var st, st' := s.stores[s.tasks[l.i].ref], StoreAfter(s, l);
      if l.RunCommit? && st.lastArray != Some(s.tasks[l.i].lines) then
        st'.last == Some(s.tasks[l.i].eps) && st'.lastArray == Some(s.tasks[l.i].lines)
      else if l.RunRecheck? && st.last.Some? && st.config.id in s.cache
        && s.cache[st.config.id].version != "" && s.cache[st.config.id].version != st.version then
        st'.last.None? && st'.lastArray.None?
      else st'.last == st.last && st'.lastArray == st.lastArray
  {
    hide FindingOk;
  }

  /** The stop flag: set by the handler when it defines or deletes the store's ID, and never unset. */
  lemma StepStopped(validIP: string -> bool, s: State, l: Label, r: Ref)
    requires Enabled(s, l) && r < |s.stores|
    ensures r < |Apply(validIP, s, l).stores|
    ensures Apply(validIP, s, l).stores[r].stopped <==>
      || s.stores[r].stopped
      || (l.StartConfig? && l.config.id in s.storeMap && s.storeMap[l.config.id] == r)
      || (l.StartDelete? && s.storeMap[l.id] == r)
  {
    if IsTaskLabel(l) {
      TaskFrame(validIP, s, l);
      hide RunTask;
    }
    hide FirstSave, FindingOk, Visited, Started, StoreAfter;
  }

  /** A new store: what the handler was building, with the secrets made for it, and a list only if
      every address that was found is an IP. */
  lemma StepBuilds(validIP: string -> bool, s: State, l: Label)
    requires Enabled(s, l) && l.NewStore?
    ensures
      var s' := Apply(validIP, s, l);
      && |s'.stores| == |s.stores| + 1
      && var st := s'.stores[|s.stores|];
      && st.config == s.handler.config && st.secrets == l.secrets && st.version == "" && !st.stopped
      && (if l.finding.Found? && AddressesPass(validIP, l.finding.eps) then st.last == Some(l.finding.eps) && st.lastArray == Some(Fingerprint(l.finding.eps))
          else st.last.None? && st.lastArray.None?)
  {
    hide FindingOk, Fingerprint, AddressesPass;
  }

  /** No other step builds one. */
  lemma StepCounts(validIP: string -> bool, s: State, l: Label)
    requires Enabled(s, l)
    ensures |Apply(validIP, s, l).stores| == if l.NewStore? then |s.stores| + 1 else |s.stores|
  {
    if IsTaskLabel(l) {
      TaskFrame(validIP, s, l);
    }
    hide RunTask, FirstSave, FindingOk, Visited;
  }

  /** The cache: a push that is stored writes its store's own fields under its ID, the handler clears
      the ID it is deleting, and nothing else changes it. */
  lemma StepCache(validIP: string -> bool, s: State, l: Label)
    requires Enabled(s, l)
    ensures l.RunPush? ==> s.tasks[l.i].ref < |s.stores|
    ensures l.ClearSnapshot? ==> HoldsRef(s.handler) && s.handler.ref < |s.stores|
    ensures Apply(validIP, s, l).cache ==
      if l.RunPush? && (l.outcome == Pushed || l.outcome == SetFailed(true)) then
        var st := s.stores[s.tasks[l.i].ref];
        s.cache[st.config.id := Snapshot(l.version, if st.last.Some? then st.last.value else [], st.config.secrets + st.secrets)]
      else if l.ClearSnapshot? then s.cache - {s.stores[s.handler.ref].config.id}
      else s.cache
  {
    hide FirstSave, FindingOk, Visited, Started;
  }

  // ----- over runs

  /** The secrets that a run's labels call for: those of the last rotation of store r that
      succeeded, or those the store was built with. */
  ghost function LastSecrets(validIP: string -> bool, s: State, ls: seq<Label>, r: Ref, given: seq<Secret>): seq<Secret>
    requires CanRun(validIP, s, ls)
    decreases |ls|
  {
    if ls == [] then given
    else
      var l := ls[0];
      var next :=
        if l.RunRotate? && s.tasks[l.i].ref == r && l.created.Success? then l.created.value
        else if l.NewStore? && |s.stores| == r then l.secrets
        else given;
      LastSecrets(validIP, Apply(validIP, s, l), ls[1..], r, next)
  }

  lemma {:induction false} SecretsFollow(validIP: string -> bool, s: State, ls: seq<Label>, r: Ref, given: seq<Secret>)
    requires CanRun(validIP, s, ls) && (r < |s.stores| ==> s.stores[r].secrets == given)
    ensures r < |Run(validIP, s, ls).stores| ==> Run(validIP, s, ls).stores[r].secrets == LastSecrets(validIP, s, ls, r, given)
    decreases |ls|
  {
    if ls != [] {
      var l := ls[0];
      StepCounts(validIP, s, l);
      if r < |s.stores| {
        StepFields(validIP, s, l, r);
      } else if l.NewStore? {
        StepBuilds(validIP, s, l);
      }
      assert l.RunRotate? ==> IsTaskLabel(l) && l.i < |s.tasks| && s.tasks[l.i].ref < |s.stores|;
      var next :=
        if l.RunRotate? && s.tasks[l.i].ref == r && l.created.Success? then l.created.value
        else if l.NewStore? && |s.stores| == r then l.secrets
        else given;
      hide Apply, Enabled;
      SecretsFollow(validIP, Apply(validIP, s, l), ls[1..], r, next);
    }
  }

  /** In every reachable state a store's common secrets are those of its last successful rotation,
      or else those it was built with; saves, checks and pushes leave them alone. */
  lemma SecretsOverRuns(validIP: string -> bool, ls: seq<Label>, r: Ref)
    requires CanRun(validIP, INITIAL, ls)
    ensures r < |Run(validIP, INITIAL, ls).stores| ==>
      Run(validIP, INITIAL, ls).stores[r].secrets == LastSecrets(validIP, INITIAL, ls, r, [])
  {
    SecretsFollow(validIP, INITIAL, ls, r, []);
  }

  /** And a cached snapshot that has its store's version, with no push of it waiting, shows the
      configuration's secrets followed by those. */
  lemma SecretsServed(validIP: string -> bool, ls: seq<Label>, r: Ref)
    requires CanRun(validIP, INITIAL, ls)
    ensures
      var s := Run(validIP, INITIAL, ls);
      r < |s.stores| && s.stores[r].config.id in s.cache && s.cache[s.stores[r].config.id].version == s.stores[r].version
      && Push(r) !in s.tasks
      ==> s.cache[s.stores[r].config.id].secrets == s.stores[r].config.secrets + LastSecrets(validIP, INITIAL, ls, r, [])
  {
    Reachable(validIP, ls);
    SecretsOverRuns(validIP, ls, r);
    var s := Run(validIP, INITIAL, ls);
    hide Run, LastSecrets, CanRun;
    if r < |s.stores| {
      assert NotLost(s, r);
    }
  }
}
