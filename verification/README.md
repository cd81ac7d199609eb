# Envoy control plane: endpoint reconciliation

A Dafny 4.11 model of the part of envoy-control-plane that keeps the endpoints served to
Envoy nodes in step with a Kubernetes cluster: `ConfigStore`, the ConfigMap handler around
it, endpoint discovery, the snapshot's secret list, and the rewrite of route weights.
`dafny verify dfyconfig.toml` checks it.

## How it is laid out

- `text`, `sorting`, `endpoints`, `publications`: the line a save prints for an endpoint, the
  sorted array of lines (the *fingerprint*), and the list of resources a save publishes.
- `stores`: the critical sections of `ConfigStore` as functions on values, and the class whose
  loops and assignments reach them.
- `protocol`: all stores, the store map, the snapshot cache, the ConfigMap handler and every
  goroutine that has been started, as one transition system. A label is one atomic action: a
  save computes outside the mutex in one action and commits under it in another, a Sync is
  three actions, a rotation two. A run is any sequence of enabled labels.
- `safety`, `guarantees`: the invariant, and what it gives for every run from the empty state.
- `frames`: what each step may change of a store and of the cache, field by field, and whose
  secrets a store has after any run.
- `convergence`: a Sync repairs a node, and Syncs of all nodes repair all of them; an event brings
  a node up to date, a rotation serves new secrets, and a node in order is left alone.
  `crashes`: when a run can crash.
- `retirement`, `lifecycle`: deletion, and the ConfigMap handler as methods that run protocol
  steps with the steps of other goroutines in between.
- `refinement`: what the methods of `ConfigStore` promise is what runs of the protocol do. Both
  sides use the same functions (`Commit`, `Check`, `Reset`, `SnapshotOf`).
- `discovery`, `slices`, `secrets`, `weights`: endpoint collection, Go's `append`, snapshot
  secrets, annotation weights. `basics` holds integers, options and lists.
- `endtoend`: discovery and convergence together, from the objects in the cluster to what a
  node is served.

## Where the code falls short of what one would expect

Each of these is proved with the exact condition under which the expectation holds.

- A Sync dereferences the snapshot even when the cache has none, so a Sync that overtakes a new
  store's first push ends the process (`Guarantees.CrashIff`, `SyncOvertakesFirstPush`). From
  which states a run can come to that is settled by `Crashes.CrashPossibleIff`.
- A rotation that visits a store between the clearing of its snapshot and its removal from the
  store map brings the snapshot back (`Retirement.RotationBetween`, `RetirementIff`), and only a
  new ConfigMap for that ID ever takes it away again (`OrphanStays`).
- `append` on a static list with spare capacity overwrites lists published earlier
  (`Slices.AllIntactIff`, `TwoAppendsIff`).
- Service lookup ignores namespaces, so two objects of one name make the result depend on
  lister order (`Discovery.GetEndpointOrderIff`).
- An update of labels alone is dropped although labels decide whether a ConfigMap is selected
  at all, and may decide a node's ID. Keys come in a new order each time, so it also matters
  whether some of them fail (`Lifecycle.HarmlessIff`, `DroppedUpdateIff`, `DroppedSelection`,
  `DroppedBehindFailure`).

## Assumptions

- `net.ParseIP` is a parameter `validIP`, any predicate on strings. Where the fingerprint must
  tell endpoints apart, a string that passes holds no pipe, and neither does a zone that
  discovery finds, which is the value of a node label. Static endpoints may hold anything:
  their lines occur in every fingerprint of their store. The encoding by itself needs that
  (`Endpoints.PipeInZoneCollides`, `LineUniqueIff`).
- A pushed version is one never used before; the code compares with the store's last one only.
- For dropped updates: a key fails, or works, the same way before and after. The condition on
  labels (`Lifecycle.DroppedUpdateIff`) is for ConfigMaps no two keys of which name one node;
  `Lifecycle.HarmlessIff` is for all.
- The informer delivers ConfigMap events one at a time. Other goroutines interleave freely.
- The value-level lists of `stores` and `protocol` share no spare slice capacity; `slices`
  shows when that is so.
- What listers, parsers, certificate creation, snapshot building and `SetSnapshot` return is an
  input of the step or method that uses it, and may be a failure at any time.

## Model

| member | source | states |
|---|---|---|
| Text.DecimalRoundTrip | pkg/configstore/configStore.go:506-514 | the digits printed by %d read back as the number |
| Endpoints.LineRoundTrip | pkg/configstore/configStore.go:506-514 | a line parses back to its endpoint whatever the cluster is called, if zone and address hold no pipe |
| Endpoints.LineSplits | e2e/main_test.go:169-181 | split on the pipe, a line gives cluster, zone, priority, address, port and health port, in this order |
| Endpoints.LineUniqueIff | pkg/configstore/configStore.go:506-514 | a line stands for one endpoint only exactly when cluster and zone hold no pipe |
| Endpoints.FingerprintIff | pkg/configstore/configStore.go:501-544 | two lists over a common part, whatever that holds, have equal fingerprints exactly when they hold the same endpoints counted with repetition |
| Endpoints.PipeInZoneCollides | pkg/configstore/configStore.go:506-514 | of the encoding alone: two lists with different clusters under one fingerprint, if a zone may hold a pipe |
| Endpoints.EntriesMembers | pkg/configstore/configStore.go:501-514 | the entries of a list are exactly its endpoints, each under its own cluster, zone and priority |
| Sorting.SortStrings | pkg/configstore/configStore.go:539 | the in-place sort ends in the sorted form of the old contents |
| Sorting.SortSeqCorrect | pkg/configstore/configStore.go:539 | that form is sorted and a permutation |
| Sorting.SortedUnique | pkg/configstore/configStore.go:538-544 | a list has one sorted permutation, so comparing sorted arrays ignores order |
| Sorting.StrLeMeans | pkg/configstore/configStore.go:539 | a prefix sorts first, and otherwise the first character that differs decides |
| Publications.PublicationEntries | pkg/configstore/configStore.go:501-530 | two publications hold the same endpoints exactly when their clusters' lists do, for any map order |
| Publications.FingerprintCanonical | pkg/configstore/configStore.go:501-544 | neither map order nor the order within a cluster shows in the fingerprint |
| Publications.PublishedNames | pkg/configstore/configStore.go:479-530 | a cluster is published exactly if it is static or has an endpoint |
| Publications.SavesDecided | pkg/configstore/configStore.go:479-544 | two saves of one store have one fingerprint exactly when they publish the same endpoints; nothing is asked of the static ones |
| Publications.FingerprintAgreement | pkg/configstore/configStore.go:479-550 | such saves agree cluster by cluster and publish the same clusters, and conversely |
| Stores.ConfigStore.constructor | pkg/configstore/configStore.go:68-90 | the fields of a store before its first secrets and its first save |
| Stores.ConfigStore.New | pkg/configstore/configStore.go:67-100 | no store if its secrets cannot be created; else a fresh live one that has these secrets, no version, and one save behind it |
| Stores.ConfigStore.AppendDiscovered | pkg/configstore/configStore.go:479-495 | each cluster gets its static endpoints followed by the discovered ones |
| Stores.ConfigStore.Publish | pkg/configstore/configStore.go:497-530 | one resource a cluster, the lines of all endpoints, and whether an address is bad |
| Stores.ConfigStore.Compute | pkg/configstore/configStore.go:476-539 | a publication of the merged lists with its fingerprint, or nothing exactly when an address is bad |
| Stores.ConfigStore.SaveLastEndpoints | pkg/configstore/configStore.go:476-551 | version, secrets and stop flag stay; list and array are replaced together, with a push started, exactly if the fingerprint changed, and a failed or rejected save changes nothing |
| Stores.ConfigStore.Push | pkg/configstore/configStore.go:122-152 | only the version moves, whatever happens; if stored, the cache shows that version, the list, and the configuration's secrets followed by the store's |
| Stores.ConfigStore.LoadNewSecrets | pkg/configstore/configStore.go:175-187 | secrets are replaced whole or not at all |
| Stores.ConfigStore.Stop | pkg/configstore/configStore.go:560-563 | only the stop flag changes |
| Stores.ConfigStore.NewPod | pkg/configstore/configStore.go:106-112 | a stopped store ignores the event, a live one saves; version, secrets and stop flag stay |
| Stores.ConfigStore.CheckVersion | pkg/configstore/configStore.go:572-591 | list and array are dropped and a save started exactly if a list is held and another version cached; a list without snapshot crashes; nothing else changes |
| Stores.ConfigStore.Sync | pkg/configstore/configStore.go:565-592 | uninterrupted: a save followed by that check, on a live store only |
| Stores.BadAddressPublished | pkg/configstore/configStore.go:516-536 | a publication shows a bad address exactly if some merged list has one |
| Refinement.SaveIsARun | pkg/configstore/configStore.go:476-551 | a save as the method specifies it is a compute and a commit of the protocol |
| Refinement.NewPodIsARun | pkg/configstore/configStore.go:106-120 | a pod or endpoints event as the method specifies it is a run of its notification |
| Refinement.SyncIsARun | pkg/configstore/configStore.go:565-592 | an uninterrupted Sync as the method specifies it is a run of start, compute, commit and check, which crashes exactly when the method panics |
| Refinement.RotationIsARun | internal/internal.go:179-197 | LoadNewSecrets and then Push as the methods specify them are a run of the rotation |
| Refinement.FirstSaveIsASave | pkg/configstore/configStore.go:67-100 | the store the handler adds is a new store after one save |
| Protocol.TaskStepShrinks | pkg/configstore/configStore.go:541-591 | every action of pending work brings the queue closer to empty |
| Protocol.DrainingTerminates | pkg/configstore/configStore.go:541-591 | without new events every schedule of the pending work ends, within a bound |
| Convergence.TaskNeverStuck | pkg/configstore/configStore.go:122-152 | until a crash every pending task can act, whatever its environment answers |
| Convergence.LongestDrainEmpties | pkg/configstore/configStore.go:541-591 | so a schedule that cannot be made longer has emptied the queue or crashed |
| Safety.StepKeepsInv | pkg/configstore/configStore.go:122-592 | every step of every goroutine keeps the invariant |
| Frames.StepFields | pkg/configstore/configStore.go:122-187 | per step: configurations never change, secrets only by a rotation of the store that succeeds, versions only by its push |
| Frames.StepLists | pkg/configstore/configStore.go:541-591 | per step: list and array change only by the store's own commit or check, and how |
| Frames.StepStopped | pkg/configstore/configStore.go:560-563 | per step: a stop flag is set only when the handler defines or deletes the ID the store is registered under, and never unset |
| Frames.StepCache | pkg/configstore/configStore.go:137-144 | per step: the cache changes by a stored push of that store's own fields and by the handler's clearing, and by nothing else |
| Frames.StepBuilds | pkg/configstore/configStore.go:67-100 | a new store has what was being built, the secrets made for it, and a list only if all addresses found pass |
| Frames.SecretsOverRuns | pkg/configstore/configStore.go:175-187 | in every reachable state a store has the secrets of its last successful rotation, or those it was built with |
| Frames.SecretsServed | pkg/configstore/configStore.go:137-144 | and a cached snapshot with its store's version, no push waiting, shows the configuration's secrets followed by those |
| Guarantees.NoLostUpdate | pkg/configstore/configStore.go:122-152 | in every reachable state, a cached version equal to the store's with no push waiting means the cached snapshot is what the store holds |
| Guarantees.OneLiveStore | pkg/configmapsstore/configMapsStore.go:90-111 | at most one live store per ID, and it is the registered one or the one being registered |
| Guarantees.KeysAreIds | pkg/configmapsstore/configMapsStore.go:111 | every key of the store map is its store's ID |
| Guarantees.CoherentStores | pkg/configstore/configStore.go:541-591 | list and array are both unset, or the array is the sorted fingerprint of the list |
| Guarantees.RunGrows | pkg/configstore/configStore.go:560-563 | configurations are fixed and stopping is permanent over any run |
| Guarantees.AddressSafety | pkg/configstore/configStore.go:516-536 | no endpoint of any stored or cached list has an address that fails the IP check |
| Guarantees.PushIffChanged | pkg/configstore/configStore.go:544-550 | a commit starts a push exactly when nothing was held or the endpoints changed; else the same clusters are published |
| Guarantees.CrashIff | pkg/configstore/configStore.go:575-583 | an action crashes exactly when it compares versions for a store with endpoints and no snapshot |
| Guarantees.SyncWithoutSnapshot | pkg/configstore/configStore.go:565-583 | any live store with endpoints and no snapshot can be synced into that crash |
| Guarantees.SyncOvertakesFirstPush | pkg/configstore/configStore.go:565-583 | a run from the start that crashes |
| Guarantees.SnapshotsPreventCrash | pkg/configstore/configStore.go:565-583 | while every node whose store is live or has a check pending keeps a snapshot no run crashes, whatever stopped stores removed nodes have left |
| Crashes.CrashPossibleIff | pkg/configstore/configStore.go:565-592 | after any history, some run without deletions and new nodes crashes exactly when a store without snapshot, built or being built, is live or has a check pending and holds a list or can be given one |
| Convergence.SyncConverges | pkg/configstore/configStore.go:476-592 | after any history, one Sync and any drain of its work end with the store's version, the cluster's endpoints and the store's secrets in the cache, whatever the static endpoints hold |
| Convergence.RepairPossible | pkg/configstore/configStore.go:476-592 | such a drain exists, for a Sync or an event and any usable finding, with all its saves finding just that |
| Convergence.EventConverges | internal/internal.go:81-132 | after any history, where the cache shows a live store's version, one pod or endpoints event and any drain end with store and cache showing the cluster's endpoints |
| Convergence.StoppedStoreIgnores | pkg/configstore/configStore.go:106-112 | an event or Sync of a stopped store ends in the state it began in |
| Convergence.RotationServes | internal/internal.go:179-197 | a rotation ends with the new secrets in store and cache under a new version, or, if they cannot be created, with nothing changed |
| Convergence.VersionAgreement | pkg/configstore/configStore.go:122-152 | from any moment at which the other stores of an ID are quiet, and while no push of its live store fails, the cache shows that store's version from its first push on |
| Convergence.AllNodesConverge | internal/internal.go:149-173 | after any history, Sync ticks of any live nodes with snapshots, interleaved with each other, with events and with all their work until none is left, end with every one of them served what is due |
| Convergence.AllNodesRepairPossible | internal/internal.go:149-173 | such a run exists |
| Convergence.QuietSync | pkg/configstore/configStore.go:565-592 | in any reachable state whose cache shows the store's version, a Sync that finds nothing new ends in the state it began in |
| EndToEnd.FoundIsDue | pkg/configstore/configStore.go:310-530 | what a save finds shows every endpoint as often as the cluster and the static lists call for, in whatever order listers answer |
| EndToEnd.ClusterServed | pkg/configstore/configStore.go:310-592 | after any history, one Sync of an unchanging cluster and any drain end with the node served exactly the endpoints called for, field by field, as often as they are due, its clusters and its secrets |
| EndToEnd.EventServed | internal/internal.go:81-132 | the same after one pod or endpoints event, where the cache showed the store's version |
| EndToEnd.ClusterDrainPossible | pkg/configstore/configStore.go:310-592 | in a cluster whose listers answer such a drain exists for every node at rest |
| EndToEnd.ClusterServedApplies | pkg/configstore/configStore.go:310-592 | a history, a cluster and drains that meet all conditions of ClusterServed and of EventServed |
| Retirement.CanFindChangeIff | pkg/configstore/configStore.go:479-550 | a save can find a change exactly when the static endpoints pass the IP check and either differ from what the store holds or have an address to add to them |
| Retirement.RetirementIff | pkg/configmapsstore/configMapsStore.go:125-132 | a retired ID stays without snapshot exactly when no pending work of its stores can publish |
| Retirement.DeleteRetires | pkg/configmapsstore/configMapsStore.go:125-132 | clear and remove in one go retire the ID, for good if no work of its stores is pending |
| Retirement.RotationBetween | internal/internal.go:179-197 | a rotation between clear and remove leaves a snapshot for a removed node |
| Retirement.OrphanStays | pkg/configmapsstore/configMapsStore.go:125-132 | that snapshot stays over every run without a new ConfigMap for the ID |
| Retirement.DeletionIsExact | pkg/configmapsstore/configMapsStore.go:125-132 | undisturbed, deleting any list of registered IDs removes exactly these, their snapshots and nothing else |
| Retirement.OwnerDeletion | pkg/configmapsstore/configMapsStore.go:117-136 | undisturbed, deleting a ConfigMap does that for exactly the IDs of its own name and namespace, in any order |
| Lifecycle.CheckConfigMapLabels | pkg/configmapsstore/configMapsStore.go:32-47 | a ConfigMap counts by name if names are given, else by its label |
| Lifecycle.HarmlessIff | pkg/api/informers.go:144-147 | dropping an update makes no difference exactly when everything it would do the ConfigMap has done already |
| Lifecycle.DroppedUpdateIff | pkg/api/informers.go:144-147 | whatever orders the keys come in, a dropped label update is harmless exactly when the ConfigMap is not selected, or no key parses, or it was selected before, every key that parses keeps the label it uses, and no key fails unless it is the only one; for keys that name different nodes |
| Lifecycle.SameOrderIff | pkg/api/informers.go:144-147 | if the keys come in one order both times: harmless if not selected, or selected before with all labels kept that are read; in no other case for keys that name different nodes |
| Lifecycle.DroppedSelection | pkg/api/informers.go:144-147 | a dropped update that selects a ConfigMap: all definitions are the same, yet its nodes are never loaded |
| Lifecycle.DroppedBehindFailure | pkg/configmapsstore/configMapsStore.go:57-61 | a dropped update that moves no key, yet would have loaded a key that a failing one had hidden |
| Lifecycle.OthersRun | internal/internal.go:81-132 | other goroutines leave store map, configurations and stop flags alone |
| Lifecycle.Controller.Replace | pkg/configmapsstore/configMapsStore.go:90-111 | the old store is stopped and replaced by one built with the given secrets, or on failure stays registered and stopped; other IDs are untouched |
| Lifecycle.ConfigMeans | pkg/configmapsstore/configMapsStore.go:57-80 | a key defines the ID in its YAML, or its own name if there is none, with the version label if it uses one; its configuration holds the YAML's endpoints and secrets and the ConfigMap's name and namespace |
| Lifecycle.Controller.NewConfigMap | pkg/configmapsstore/configMapsStore.go:49-115 | every node a key names has a fresh live store with what that key says, built with the secrets made for it; nodes no key names are untouched; on a failure, keys before it are done, and the failing one has a stopped store or none |
| Lifecycle.Controller.DefineThenDelete | pkg/configmapsstore/configMapsStore.go:49-136 | deleting a ConfigMap that was just defined leaves none of its nodes, and the old registry if it had none before |
| Lifecycle.Controller.DeleteNode | pkg/configmapsstore/configMapsStore.go:125-132 | one ID leaves the store map, whatever others do meanwhile, and its store is stopped, its snapshot cleared and its key removed, in this order |
| Lifecycle.Controller.DeleteConfigMap | pkg/configmapsstore/configMapsStore.go:117-136 | exactly the stores of this name and namespace are stopped, cleared and removed; undisturbed, exactly their snapshots are gone and nothing else has changed |
| Discovery.GetEndpoint | pkg/api/informers.go:267-289 | the first object of that name in lister order, and for a name that ends in -canary the first that is enabled; none exactly if there is none |
| Discovery.GetEndpointOrderIff | pkg/api/informers.go:267-289 | the result ignores lister order exactly when all matches are one object |
| Discovery.IsPodReady | pkg/configstore/configStore.go:298-308 | running with a true Ready condition |
| Discovery.GetLocalityLbEndpoints | pkg/configstore/configStore.go:310-426 | fails exactly when a needed lister fails, else every cluster's list has exactly the endpoints of picked pods, services and enabled canaries |
| Discovery.WantedMembers | pkg/configstore/configStore.go:222-426 | a cluster's endpoints are, field by field, those of pods its items pick, of its services and of enabled canaries, no others: zone, priority, address, both ports and metadata |
| Discovery.WantedSpelledOut | pkg/configstore/configStore.go:310-426 | and in order and counted: by item the picked pods, then by item the service's addresses followed by its canary's |
| Discovery.SpellingExists | pkg/configstore/configStore.go:310-426 | functions that meet those descriptions exist |
| Discovery.PodEndpointMeans | pkg/configstore/configStore.go:222-296 | the endpoint made from a pod is the one with its node's zone or "unknown", the item's priority and ports, its IP, and its name, node and labels |
| Discovery.AddressEndpointMeans | pkg/configstore/configStore.go:222-296 | the same for a service address, with its own node and its pod's labels, flagged main or canary |
| Discovery.CanaryGate | pkg/configstore/configStore.go:366-422 | an endpoint flagged canary implies an object of the service's name and an enabled one of its canary's |
| Discovery.ListerOrderHidden | pkg/configstore/configStore.go:310-544 | with unambiguous names, lister order shows in no cluster's endpoints and not in the fingerprint |
| Slices.Append | pkg/configstore/configStore.go:494 | append writes in place when capacity suffices and else moves to a new array |
| Slices.StaticList.Save | pkg/configstore/configStore.go:479-495 | saves never change a static list, and without spare capacity no earlier published list |
| Slices.TwoAppendsIff | pkg/configstore/configStore.go:494 | when a second save leaves the first published list intact |
| Slices.AllIntactIff | pkg/configstore/configStore.go:168-168 | all published lists stay intact over all saves exactly when the static list has no spare capacity |
| SnapshotSecrets.SecretStore.constructor | pkg/resources/resources.go:51-82 | the parsed list has exactly the capacity it needs |
| SnapshotSecrets.SecretStore.LoadNewSecrets | pkg/configstore/configStore.go:175-187 | rotation replaces the array of common secrets or leaves it, and changes no published snapshot |
| SnapshotSecrets.SecretStore.GetConfigSnapshot | pkg/utils/utils.go:34-48 | a snapshot shows the configuration's secrets then the current common ones, and earlier snapshots stay as they were |
| SnapshotSecrets.ListValues | pkg/utils/utils.go:35-38 | the pointers of a snapshot's list show those secrets in that order |
| Weights.CastsKeepLowBits | pkg/config/configType.go:114-125 | the casts of a weight keep it modulo 2^32 |
| Weights.ParseUintIff | pkg/config/configType.go:114-125 | exactly the numerals of numbers below 2^64 parse, to that number, with any leading zeros |
| Weights.HasClusterWeights | pkg/config/configType.go:83-91 | whether an annotation sets a weight |
| Weights.RewriteMeans | pkg/config/configType.go:293-318 | succeeds exactly when every used annotation is a number; then annotated clusters read back as it modulo 2^32 and all else is unchanged |
| Weights.TraverseStops | pkg/config/configType.go:293-318 | on a failure the elements before it are rewritten, it as far as the rewrite got, and those after it untouched |
| Weights.SecondRunIsNoOp | pkg/config/configType.go:293-318 | a second run changes nothing |
| Weights.ListenerMeans | pkg/config/configType.go:240-276 | succeeds exactly when every connection manager unpacks and every annotation used there is a number; then its clusters read back as annotated and no other filter changes |
| Weights.SecondListenerRunIsNoOp | pkg/config/configType.go:240-276 | a second run over a listener changes nothing |
| Weights.GuardSound | pkg/config/configType.go:153-162 | without weight annotations the rewrite would change nothing, and fail only on a connection manager that does not unpack |
| Weights.RouteConfiguration.Mutate | pkg/config/configType.go:293-318 | the loops in place reach the specified rewrite, and on an error its part up to the failing cluster |
| Weights.Listener.Mutate | pkg/config/configType.go:240-276 | the same inside the connection managers of a listener |
| Weights.Resources.SaveResources | pkg/config/configType.go:127-173 | succeeds exactly when all sections parse and, if a weight is set, all managers unpack and all used annotations are numbers; then every weighted cluster of routes and listeners has its weight and nothing else differs from what was parsed; on failure, what was rewritten so far |
| Weights.SavedAgain | pkg/config/configType.go:153-162 | rewriting resources that have their weights changes nothing |

## Left out

- Stores.ConfigStore.SaveLastEndpoints: lists are values, so sharing of slice arrays between saves is not part of it; `slices` covers that.
- Stores.ConfigStore.Push: the retry loop for a new identifier is a parameter that differs from the old version.
- Sorting.SortStrings: the library's algorithm is replaced by an insertion sort with the same result.
- Stores.ConfigStore.Sync: steps of other goroutines between its two halves are in `protocol`, where a Sync is three labels.
- Lifecycle.CheckConfigMapLabels: the two flags come split; a label flag without an equals sign, which ends the process at the first ConfigMap, is not modelled.
- Weights.Resources.SaveResources: removal of client-certificate requirements from listeners is not modelled.
- Endpoint fields other than zone, priority, address, ports and metadata, which no decision reads.
- The namespace filled into kubernetes items: no lookup uses it, so items carry none.
- Parsing of YAML, templates and protobuf, certificate creation, xDS serving, web handlers, metrics and flags: libraries and I/O.
- Wall-clock periods: a drain, sync or rotation period is "at any later moment", and other goroutines may run in between.
- A step that finds pods changing between two lister calls of one save: one save reads one state of the listers.
- Informer start-up, leader election and process shutdown.
