// All stores together: pending goroutines and callbacks, the store map, the
// snapshot cache and the ConfigMap handler, as a transition system. A label is
// one atomic action; a run is any sequence of enabled labels, so every
// interleaving is a run.
module Protocol {
  import opened Endpoints
  import opened Publications
  import opened Stores
  import opened Wrappers

  type Ref = nat

  datatype Task =
    | Notify(ref: Ref)                // NewPod, DeletePod or NewEndpoint, not yet begun
    | SyncCall(ref: Ref)              // Sync, not yet begun
    | Rotate(ref: Ref)                // LoadNewSecrets, to be followed by a Push
    | Save(ref: Ref, check: bool)     // saveLastEndpoints, to be followed by Sync's second half or by nothing
    | SaveCommit(ref: Ref, eps: seq<ClusterLoad>, lines: seq<string>, check: bool)  // computed, waiting for the mutex
    | Recheck(ref: Ref)               // the second half of Sync
    | Push(ref: Ref)

  /** Where the one ConfigMap handler stands. */
  datatype Handler =
    | Idle
    | Building(config: Config)        // NewConfigMap, after stopping the store under that ID
    | Registering(ref: Ref)           // NewConfigMap, holding a new store
    | Draining(ref: Ref)              // DeleteConfigMap, after Stop
    | Cleared(ref: Ref)               // DeleteConfigMap, after ClearSnapshot

  datatype State = State(
    stores: seq<Store>,
    storeMap: map<string, Ref>,
    cache: map<string, Snapshot>,
    tasks: seq<Task>,
    used: set<string>,                // every version handed out so far
    handler: Handler,
    crashed: bool)

  datatype Visitor = PodEvent | SyncTick | RotationTick

  /** What a save gets from the listers, and the order in which it then traverses its map. */
  datatype Finding = ListerFailed | Found(dynamics: LbMap, eps: seq<ClusterLoad>)

  datatype Label =
    | Visit(visitor: Visitor, id: string)  // StoreMap.Range hands a store to its callback
    | RunNotify(i: nat)
    | RunSync(i: nat)
    | RunRotate(i: nat, created: Result<seq<Secret>>)
    | RunSave(i: nat, finding: Finding)
    | RunCommit(i: nat)
    | RunRecheck(i: nat)
    | RunPush(i: nat, version: string, outcome: PushOutcome)
    | StartConfig(config: Config)
    | AbandonConfig                        // SaveResources or LoadNewSecrets failed
    | NewStore(secrets: seq<Secret>, finding: Finding)
    | Register
    | StartDelete(id: string)
    | ClearSnapshot
    | Remove

  const INITIAL := State([], map[], map[], [], {}, Idle, false)

  // ----- parts of a step

  /** Task i is done and has started others. */
  function Finish(tasks: seq<Task>, i: nat, started: seq<Task>): (r: seq<Task>)
    requires i < |tasks|
    ensures forall t :: t in r ==> t in tasks || t in started
    ensures forall t :: t in started ==> t in r
    ensures forall t :: t in tasks && t != tasks[i] ==> t in r
  {
    tasks[..i] + tasks[i + 1..] + started
  }

  predicate FindingOk(config: Config, finding: Finding) {
    finding.Found? ==> Discovered(finding.dynamics) && IsPublication(Merge(config.statics, finding.dynamics), finding.eps)
  }

  /** The lists a save goes on with: none when a lister failed or an address is bad. */
  function Usable(validIP: string -> bool, finding: Finding): Option<seq<ClusterLoad>> {
    if finding.Found? && AddressesPass(validIP, finding.eps) then Some(finding.eps) else None
  }

  function CachedFor(s: State, r: Ref): Option<Snapshot>
    requires r < |s.stores|
  {
    var id := s.stores[r].config.id;
    if id in s.cache then Some(s.cache[id]) else None
  }

  function After(ref: Ref, check: bool): seq<Task> {
    if check then [Recheck(ref)] else []
  }

  predicate IsTask(s: State, i: nat) {
    i < |s.tasks| && s.tasks[i].ref < |s.stores|
  }

  // ----- actions of pending tasks

  predicate IsTaskLabel(l: Label) {
    l.RunNotify? || l.RunSync? || l.RunRotate? || l.RunSave? || l.RunCommit? || l.RunRecheck? || l.RunPush?
  }

  predicate TaskEnabled(s: State, l: Label)
    requires IsTaskLabel(l)
  {
    && IsTask(s, l.i)
    && var t := s.tasks[l.i];
    match l
    case RunNotify(_) => t.Notify?
    case RunSync(_) => t.SyncCall?
    case RunRotate(_, _) => t.Rotate?
    case RunSave(_, finding) => t.Save? && FindingOk(s.stores[t.ref].config, finding)
    case RunCommit(_) => t.SaveCommit?
    case RunRecheck(_) => t.Recheck?
    case RunPush(_, version, _) => t.Push? && version != "" && version !in s.used
  }

  predicate CrashesNow(s: State, l: Label)
    requires IsTaskLabel(l) && TaskEnabled(s, l)
  {
    l.RunRecheck? && Check(s.stores[s.tasks[l.i].ref], CachedFor(s, s.tasks[l.i].ref)).Panics?
  }

  /** What the action does to its store. */
  function StoreAfter(s: State, l: Label): Store
    requires IsTaskLabel(l) && TaskEnabled(s, l)
  {
    var t := s.tasks[l.i];
    var st := s.stores[t.ref];
    match l
    case RunRotate(_, created) => if created.Success? then st.(secrets := created.value) else st
    case RunCommit(_) => Commit(st, t.eps, t.lines)
    case RunRecheck(_) => if Check(st, CachedFor(s, t.ref)).Resets? then Reset(st) else st
    case RunPush(_, version, _) => st.(version := version)
    case _ => st
  }

  /** What it does to the snapshot cache. */
  function CacheAfter(s: State, l: Label): map<string, Snapshot>
    requires IsTaskLabel(l) && TaskEnabled(s, l)
  {
    if l.RunPush? && IsStored(l.outcome)
    then s.cache[s.stores[s.tasks[l.i].ref].config.id := SnapshotOf(StoreAfter(s, l))]
    else s.cache
  }

  /** What it leaves to be done later. */
  function Started(validIP: string -> bool, s: State, l: Label): seq<Task>
    requires IsTaskLabel(l) && TaskEnabled(s, l)
  {
    var t := s.tasks[l.i];
    match l
    case RunNotify(_) => if s.stores[t.ref].stopped then [] else [Save(t.ref, false)]
    case RunSync(_) => if s.stores[t.ref].stopped then [] else [Save(t.ref, true)]
    case RunRotate(_, created) => if created.Success? then [Push(t.ref)] else []
    case RunSave(_, finding) =>
      var usable := Usable(validIP, finding);
      if usable.Some? then [SaveCommit(t.ref, usable.value, Fingerprint(usable.value), t.check)] else After(t.ref, t.check)
    case RunCommit(_) => (if Changed(s.stores[t.ref], t.lines) then [Push(t.ref)] else []) + After(t.ref, t.check)
    case RunRecheck(_) => if Check(s.stores[t.ref], CachedFor(s, t.ref)).Resets? then [Save(t.ref, false)] else []
    case RunPush(_, _, _) => []
  }

  function RunTask(validIP: string -> bool, s: State, l: Label): State
    requires IsTaskLabel(l) && TaskEnabled(s, l)
  {
    if CrashesNow(s, l) then s.(crashed := true)
    else s.(
      stores := s.stores[s.tasks[l.i].ref := StoreAfter(s, l)],
      cache := CacheAfter(s, l),
      tasks := Finish(s.tasks, l.i, Started(validIP, s, l)),
      used := if l.RunPush? then s.used + {l.version} else s.used)
  }

  // ----- visits and the ConfigMap handler

  function Visited(visitor: Visitor, r: Ref): Task {
    match visitor
    case PodEvent => Notify(r)
    case SyncTick => SyncCall(r)
    case RotationTick => Rotate(r)
  }

  predicate HandlerEnabled(s: State, l: Label)
    requires !IsTaskLabel(l)
  {
    match l
    case Visit(_, id) => id in s.storeMap && s.storeMap[id] < |s.stores|
    case StartConfig(config) => s.handler.Idle? && (config.id in s.storeMap ==> s.storeMap[config.id] < |s.stores|)
    case AbandonConfig => s.handler.Building?
    case NewStore(_, finding) => s.handler.Building? && FindingOk(s.handler.config, finding)
    case Register => s.handler.Registering? && s.handler.ref < |s.stores|
    case StartDelete(id) => s.handler.Idle? && id in s.storeMap && s.storeMap[id] < |s.stores|
    case ClearSnapshot => s.handler.Draining? && s.handler.ref < |s.stores|
    case Remove => s.handler.Cleared? && s.handler.ref < |s.stores|
  }

  function StopStore(s: State, r: Ref): State
    requires r < |s.stores|
  {
    s.(stores := s.stores[r := s.stores[r].(stopped := true)])
  }

  /** A store right after its first save. */
  function FirstSave(validIP: string -> bool, config: Config, secrets: seq<Secret>, finding: Finding): Store {
    var st := Store(config, "", None, None, secrets, false);
    match Usable(validIP, finding)
    case None => st
    case Some(eps) => Commit(st, eps, Fingerprint(eps))
  }

  /** A new store and its first save. No other goroutine can see the store before that save commits. */
  function AddStore(validIP: string -> bool, s: State, secrets: seq<Secret>, finding: Finding): State
    requires s.handler.Building?
  {
    var r := |s.stores|;
    s.(stores := s.stores + [FirstSave(validIP, s.handler.config, secrets, finding)],
       tasks := s.tasks + (if Usable(validIP, finding).Some? then [Push(r)] else []),
       handler := Registering(r))
  }

  function RunHandler(validIP: string -> bool, s: State, l: Label): State
    requires !IsTaskLabel(l) && HandlerEnabled(s, l)
  {
    match l
    case Visit(visitor, id) => s.(tasks := s.tasks + [Visited(visitor, s.storeMap[id])])
    case StartConfig(config) =>
      (if config.id in s.storeMap then StopStore(s, s.storeMap[config.id]) else s).(handler := Building(config))
    case AbandonConfig => s.(handler := Idle)
    case NewStore(secrets, finding) => AddStore(validIP, s, secrets, finding)
    case Register => s.(storeMap := s.storeMap[s.stores[s.handler.ref].config.id := s.handler.ref], handler := Idle)
    case StartDelete(id) => StopStore(s, s.storeMap[id]).(handler := Draining(s.storeMap[id]))
    case ClearSnapshot => s.(cache := s.cache - {s.stores[s.handler.ref].config.id}, handler := Cleared(s.handler.ref))
    case Remove => s.(storeMap := s.storeMap - {s.stores[s.handler.ref].config.id}, handler := Idle)
  }

  // ----- steps

  predicate Enabled(s: State, l: Label) {
    !s.crashed && if IsTaskLabel(l) then TaskEnabled(s, l) else HandlerEnabled(s, l)
  }

  function Apply(validIP: string -> bool, s: State, l: Label): State
    requires Enabled(s, l)
  {
    if IsTaskLabel(l) then RunTask(validIP, s, l) else RunHandler(validIP, s, l)
  }

  // ----- runs

  predicate CanRun(validIP: string -> bool, s: State, ls: seq<Label>)
    decreases |ls|
  {
    ls == [] || (Enabled(s, ls[0]) && CanRun(validIP, Apply(validIP, s, ls[0]), ls[1..]))
  }

  function Run(validIP: string -> bool, s: State, ls: seq<Label>): State
    requires CanRun(validIP, s, ls)
    decreases |ls|
  {
    if ls == [] then s else Run(validIP, Apply(validIP, s, ls[0]), ls[1..])
  }

  // ----- draining

  function Weight(t: Task): nat {
    match t
    case Push(_) => 1
    case Rotate(_) => 2
    case SaveCommit(_, _, _, check) => if check then 6 else 2
    case Save(_, check) => if check then 7 else 3
    case Recheck(_) => 4
    case Notify(_) => 4
    case SyncCall(_) => 8
  }

  function Measure(tasks: seq<Task>): nat {
    if tasks == [] then 0 else Measure(tasks[..|tasks| - 1]) + Weight(tasks[|tasks| - 1])
  }

  lemma {:induction false} MeasureAppend(a: seq<Task>, b: seq<Task>)
    ensures Measure(a + b) == Measure(a) + Measure(b)
  {
    if b == [] {
      assert a + b == a;
    } else {
      assert (a + b)[..|a + b| - 1] == a + b[..|b| - 1];
      MeasureAppend(a, b[..|b| - 1]);
    }
  }

  lemma MeasureFinish(tasks: seq<Task>, i: nat, started: seq<Task>)
    requires i < |tasks|
    ensures Measure(Finish(tasks, i, started)) == Measure(tasks) - Weight(tasks[i]) + Measure(started)
  {
    assert tasks == tasks[..i] + [tasks[i]] + tasks[i + 1..];
    MeasureAppend(tasks[..i] + [tasks[i]], tasks[i + 1..]);
    MeasureAppend(tasks[..i], [tasks[i]]);
    MeasureAppend(tasks[..i] + tasks[i + 1..], started);
    MeasureAppend(tasks[..i], tasks[i + 1..]);
    assert Measure([tasks[i]]) == Measure([]) + Weight(tasks[i]);
  }

  lemma MeasureSmall(a: Task, b: Task)
    ensures Measure([]) == 0 && Measure([a]) == Weight(a) && Measure([a, b]) == Weight(a) + Weight(b)
  {
    assert [a, b][..1] == [a];
    assert [a][..0] == [];
  }

  lemma CommitIsLighter(validIP: string -> bool, s: State, l: Label)
    requires l.RunCommit? && TaskEnabled(s, l)
    ensures Measure(Started(validIP, s, l)) < Weight(s.tasks[l.i])
  {
    hide Measure, Changed;
    var t := s.tasks[l.i];
    var p, c := Push(t.ref), Recheck(t.ref);
    MeasureSmall(p, c);
    MeasureSmall(c, c);
    var none: seq<Task> := [];
    assert [p] + [c] == [p, c] && [p] + none == [p] && none + [c] == [c] && none + none == none;
  }

  lemma StartedIsLighter(validIP: string -> bool, s: State, l: Label)
    requires IsTaskLabel(l) && TaskEnabled(s, l)
    ensures Measure(Started(validIP, s, l)) < Weight(s.tasks[l.i])
  {
    if l.RunCommit? {
      CommitIsLighter(validIP, s, l);
    } else {
      var more := Started(validIP, s, l);
      if more != [] {
        MeasureSmall(more[0], more[0]);
        assert more == [more[0]];
      }
    }
  }

  /** Every action of a pending task that does not crash brings the queue closer to empty. */
  lemma TaskStepShrinks(validIP: string -> bool, s: State, l: Label)
    requires Enabled(s, l) && IsTaskLabel(l)
    ensures var s' := Apply(validIP, s, l); s'.crashed || Measure(s'.tasks) < Measure(s.tasks)
  {
    StartedIsLighter(validIP, s, l);
    MeasureFinish(s.tasks, l.i, Started(validIP, s, l));
  }

  lemma {:induction false} CrashedStops(validIP: string -> bool, s: State, ls: seq<Label>)
    requires CanRun(validIP, s, ls) && s.crashed
    ensures ls == []
  {
  }

  /** Without new events, no schedule of the pending tasks runs longer than their measure. */
  lemma {:induction false} DrainingTerminates(validIP: string -> bool, s: State, ls: seq<Label>)
    requires CanRun(validIP, s, ls) && forall l :: l in ls ==> IsTaskLabel(l)
    ensures |ls| <= Measure(s.tasks) + 1
    ensures !Run(validIP, s, ls).crashed ==> |ls| + Measure(Run(validIP, s, ls).tasks) <= Measure(s.tasks)
    decreases |ls|
  {
    if ls != [] {
      var s' := Apply(validIP, s, ls[0]);
      TaskStepShrinks(validIP, s, ls[0]);
      assert forall l :: l in ls[1..] ==> l in ls;
      if s'.crashed {
        CrashedStops(validIP, s', ls[1..]);
      } else {
        DrainingTerminates(validIP, s', ls[1..]);
      }
    }
  }
}
