// Endpoint discovery: which pods and service addresses become endpoints of
// which cluster, and in which order.
module Discovery {
  import opened Endpoints
  import opened Integers
  import opened Publications
  import opened Seqs
  import opened Wrappers

  const CANARY_SUFFIX := "-canary"
  const ANNOTATION_CANARY_ENABLED := "envoy-control-plane/canary.enabled"
  const DEFAULT_ZONE := "unknown"
  const META_POD_NAME := "k8s.pod.name"
  const META_POD_LABELS := "k8s.pod.labels."
  const META_ENDPOINT_IP := "k8s.endpoint.ip"
  const META_NODE_NAME := "k8s.node.name"
  const POD_LABEL_IGNORE := "pod-template-hash"

  type Labels = map<string, string>

  datatype Condition = Condition(kind: string, status: string)

  datatype Pod = Pod(name: string, labels: Labels, podIP: string, nodeName: string, deleted: bool, phase: string, conditions: seq<Condition>)

  datatype TargetRef = TargetRef(kind: string, namespace: string, name: string)

  datatype Address = Address(ip: string, nodeName: Option<string>, targetRef: Option<TargetRef>)

  datatype EndpointsObject = EndpointsObject(namespace: string, name: string, annotations: Labels, subsets: seq<seq<Address>>)

  /** One entry of the configuration's kubernetes section. */
  datatype Item = Item(
    clusterName: string, port: uint32, healthPort: uint32, priority: uint32, selector: Option<Labels>, service: string)

  /** What the listers hold. Lists come in whatever order the lister gives them. */
  datatype Cluster = Cluster(
    pods: Result<seq<Pod>>,
    endpoints: Result<seq<EndpointsObject>>,
    podLabels: map<(string, string), Labels>,   // by namespace and name
    nodes: map<string, Labels>,
    zoneLabel: string)

  // ----- listers

  predicate Selects(selector: Labels, labels: Labels) {
    forall k :: k in selector ==> k in labels && labels[k] == selector[k]
  }

  function Selected(selector: Labels): Pod -> seq<Pod> {
    (pod: Pod) => if Selects(selector, pod.labels) then [pod] else []
  }

  function ListPods(c: Cluster, selector: Labels): Result<seq<Pod>> {
    match c.pods
    case Failure => Failure
    case Success(pods) => Success(FlatMap(Selected(selector), pods))
  }

  predicate HasSuffix(s: string, suffix: string) {
    |s| >= |suffix| && s[|s| - |suffix|..] == suffix
  }

  /** An object is a match under its name, but a canary only if its annotation enables it. */
  predicate Admitted(name: string, e: EndpointsObject) {
    && e.name == name
    && (HasSuffix(name, CANARY_SUFFIX) ==>
          ANNOTATION_CANARY_ENABLED in e.annotations && e.annotations[ANNOTATION_CANARY_ENABLED] == "true")
  }

  /** The first match in lister order. */
  function FirstAdmitted(name: string, eps: seq<EndpointsObject>): (r: Option<EndpointsObject>)
    ensures r.Some? ==> r.value in eps && Admitted(name, r.value)
    ensures r.None? ==> forall e :: e in eps ==> !Admitted(name, e)
  {
    if eps == [] then None else if Admitted(name, eps[0]) then Some(eps[0]) else FirstAdmitted(name, eps[1..])
  }

  lemma FirstAdmittedAt(name: string, eps: seq<EndpointsObject>, i: nat)
    requires i < |eps| && Admitted(name, eps[i]) && forall j :: 0 <= j < i ==> !Admitted(name, eps[j])
    ensures FirstAdmitted(name, eps) == Some(eps[i])
  {
    if i > 0 {
      FirstAdmittedAt(name, eps[1..], i - 1);
    }
  }

  // The search in plain terms: what a name is the name of, and which objects may answer to it.

  ghost predicate IsCanaryName(name: string) {
    exists service :: name == service + "-canary"
  }

  predicate CanaryEnabled(e: EndpointsObject) {
    "envoy-control-plane/canary.enabled" in e.annotations && e.annotations["envoy-control-plane/canary.enabled"] == "true"
  }

  /** A service is found under its name, and a canary too, but only while it is enabled. */
  ghost predicate Answers(name: string, e: EndpointsObject) {
    e.name == name && (IsCanaryName(name) ==> CanaryEnabled(e))
  }

  /** The first object that answers, or none if none does. */
  ghost predicate IsFound(name: string, eps: seq<EndpointsObject>, found: Option<EndpointsObject>) {
    match found
    case None => forall i :: 0 <= i < |eps| ==> !Answers(name, eps[i])
    case Some(e) => exists i :: 0 <= i < |eps| && eps[i] == e && Answers(name, e) && forall j :: 0 <= j < i ==> !Answers(name, eps[j])
  }

  lemma SuffixMeans(name: string)
    ensures HasSuffix(name, CANARY_SUFFIX) <==> IsCanaryName(name)
  {
    if HasSuffix(name, CANARY_SUFFIX) {
      assert name == name[..|name| - |CANARY_SUFFIX|] + "-canary";
    }
    if service: string :| name == service + "-canary" {
      assert name[|service|..] == "-canary";
    }
  }

  lemma AdmittedMeans(name: string, e: EndpointsObject)
    ensures Admitted(name, e) <==> Answers(name, e)
  {
    SuffixMeans(name);
  }

  lemma {:induction false} FoundIff(name: string, eps: seq<EndpointsObject>, found: Option<EndpointsObject>)
    ensures IsFound(name, eps, found) <==> found == FirstAdmitted(name, eps)
  {
    hide Admitted, Answers;
    forall e ensures Admitted(name, e) <==> Answers(name, e) {
      AdmittedMeans(name, e);
    }
    if found.Some? && IsFound(name, eps, found) {
      var i :| 0 <= i < |eps| && eps[i] == found.value && Answers(name, found.value) && forall j :: 0 <= j < i ==> !Answers(name, eps[j]);
      FirstAdmittedAt(name, eps, i);
    }
    if found == FirstAdmitted(name, eps) {
      FirstIsFound(name, eps);
    }
  }

  lemma {:induction false} FirstIsFound(name: string, eps: seq<EndpointsObject>)
    ensures IsFound(name, eps, FirstAdmitted(name, eps))
  {
    hide Admitted, Answers;
    forall e ensures Admitted(name, e) <==> Answers(name, e) {
      AdmittedMeans(name, e);
    }
    if eps == [] {
    } else if Admitted(name, eps[0]) {
      assert eps[0] == FirstAdmitted(name, eps).value;
    } else {
      FirstIsFound(name, eps[1..]);
      var found := FirstAdmitted(name, eps[1..]);
      if found.Some? {
        var i :| 0 <= i < |eps[1..]| && eps[1..][i] == found.value && forall j :: 0 <= j < i ==> !Answers(name, eps[1..][j]);
        forall j | 0 <= j < i + 1 ensures !Answers(name, eps[j]) {
          assert j > 0 ==> eps[j] == eps[1..][j - 1];
        }
        assert eps[i + 1] == found.value;
      } else {
        forall j | 0 <= j < |eps| ensures !Answers(name, eps[j]) {
          assert j > 0 ==> eps[j] == eps[1..][j - 1];
        }
      }
    }
  }

  method GetEndpoint(c: Cluster, name: string) returns (r: Result<Option<EndpointsObject>>)
    ensures r.Failure? <==> c.endpoints.Failure?
    ensures r.Success? ==> IsFound(name, c.endpoints.value, r.value)
    ensures r == if c.endpoints.Success? then Success(FirstAdmitted(name, c.endpoints.value)) else Failure
  {
    if c.endpoints.Failure? {
      return Failure;
    }
    var eps := c.endpoints.value;
    var i := 0;
    while i < |eps|
      invariant 0 <= i <= |eps|
      invariant forall j :: 0 <= j < i ==> !Admitted(name, eps[j])
    {
      var gated := HasSuffix(name, CANARY_SUFFIX) &&
        !(ANNOTATION_CANARY_ENABLED in eps[i].annotations && eps[i].annotations[ANNOTATION_CANARY_ENABLED] == "true");
      if !gated && eps[i].name == name {
        FirstAdmittedAt(name, eps, i);
        FoundIff(name, eps, Some(eps[i]));
        return Success(Some(eps[i]));
      }
      i := i + 1;
    }
    assert FirstAdmitted(name, eps).None?;
    FoundIff(name, eps, None);
    return Success(None);
  }

  ghost predicate OneMatch(name: string, eps: seq<EndpointsObject>) {
    forall a, b :: a in eps && b in eps && Admitted(name, a) && Admitted(name, b) ==> a == b
  }

  lemma OneMatchAnyOrder(name: string, eps: seq<EndpointsObject>, other: seq<EndpointsObject>)
    requires OneMatch(name, eps) && multiset(other) == multiset(eps)
    ensures FirstAdmitted(name, other) == FirstAdmitted(name, eps)
  {
    SameMembers(other, eps);
  }

  lemma TwoMatchesReorder(name: string, eps: seq<EndpointsObject>) returns (other: seq<EndpointsObject>)
    requires !OneMatch(name, eps)
    ensures multiset(other) == multiset(eps) && FirstAdmitted(name, other) != FirstAdmitted(name, eps)
  {
    var a, b :| a in eps && b in eps && Admitted(name, a) && Admitted(name, b) && a != b;
    var x := if FirstAdmitted(name, eps) == Some(a) then b else a;
    var k := Find(x, eps);
    other := [x] + Without(eps, k);
    FirstAdmittedAt(name, other, 0);
  }

  /** The search looks at names only, in every namespace. Its result does not depend on lister
      order exactly when all matches are the same object. */
  lemma GetEndpointOrderIff(name: string, eps: seq<EndpointsObject>)
    ensures (forall other :: multiset(other) == multiset(eps) ==> FirstAdmitted(name, other) == FirstAdmitted(name, eps))
      <==> OneMatch(name, eps)
  {
    if OneMatch(name, eps) {
      forall other | multiset(other) == multiset(eps) ensures FirstAdmitted(name, other) == FirstAdmitted(name, eps) {
        OneMatchAnyOrder(name, eps, other);
      }
    } else {
      var other := TwoMatchesReorder(name, eps);
    }
  }

  // ----- one endpoint

  ghost predicate IsReady(pod: Pod) {
    pod.phase == "Running" && exists i :: 0 <= i < |pod.conditions| && pod.conditions[i] == Condition("Ready", "True")
  }

  method IsPodReady(pod: Pod) returns (ready: bool)
    ensures ready <==> IsReady(pod)
  {
    if pod.phase == "Running" {
      for i := 0 to |pod.conditions|
        invariant forall j :: 0 <= j < i ==> pod.conditions[j] != Condition("Ready", "True")
      {
        if pod.conditions[i].kind == "Ready" && pod.conditions[i].status == "True" {
          return true;
        }
      }
    }
    return false;
  }

  /** The pods that serve: with an address, scheduled, not being deleted, and ready. */
  ghost predicate Serves(pod: Pod) {
    pod.podIP != "" && pod.nodeName != "" && !pod.deleted && IsReady(pod)
  }

  function ZoneOf(c: Cluster, node: string): string {
    if node in c.nodes && c.zoneLabel in c.nodes[node] && c.nodes[node][c.zoneLabel] != "" then c.nodes[node][c.zoneLabel]
    else DEFAULT_ZONE
  }

  lemma PrefixCancels(prefix: string)
    ensures forall a, b: string :: prefix + a == prefix + b ==> a == b
  {
    forall a: string, b: string | prefix + a == prefix + b ensures a == b {
      assert (prefix + a)[|prefix|..] == a && (prefix + b)[|prefix|..] == b;
    }
  }

  /** A pod's labels under their metadata keys; the template hash is left out. */
  function LabelMetadata(labels: Labels): Labels {
    PrefixCancels(META_POD_LABELS);
    map k | k in labels && k != POD_LABEL_IGNORE :: META_POD_LABELS + k := labels[k]
  }

  function PodMetadata(pod: Pod): Labels {
    LabelMetadata(pod.labels)[META_POD_NAME := pod.name][META_ENDPOINT_IP := pod.podIP][META_NODE_NAME := pod.nodeName]
  }

  /** The name and labels of an address's pod, if it is a pod's. */
  function TargetMetadata(c: Cluster, a: Address): Labels {
    if a.targetRef.Some? && a.targetRef.value.kind == "Pod" then
      var key := (a.targetRef.value.namespace, a.targetRef.value.name);
      LabelMetadata(if key in c.podLabels then c.podLabels[key] else map[])[META_POD_NAME := a.targetRef.value.name]
    else map[]
  }

  function AddressMetadata(c: Cluster, a: Address): Labels {
    var m0 := TargetMetadata(c, a);
    var m1 := if a.nodeName.Some? then m0[META_NODE_NAME := a.nodeName.value] else m0;
    m1[META_ENDPOINT_IP := a.ip]
  }

  function LbMetadata(isCanary: bool, metadata: Labels): map<string, MetaValue> {
    map["canary" := Flag(isCanary), "stage" := Str(if isCanary then "canary" else "main")]
      + map k | k in metadata :: Str(metadata[k])
  }

  function MakeEndpoint(c: Cluster, item: Item, isCanary: bool, node: string, address: string, metadata: Labels): (loc: Locality)
    ensures |loc.lbEndpoints| == 1
  {
    Locality(ZoneOf(c, node), item.priority, [LbEndpoint(address, item.port, item.healthPort, LbMetadata(isCanary, metadata))])
  }

  // ----- the lists, in order

  ghost function PodEndpoint(c: Cluster, item: Item): Pod -> seq<Locality> {
    (pod: Pod) => if Serves(pod) then [MakeEndpoint(c, item, false, pod.nodeName, pod.podIP, PodMetadata(pod))] else []
  }

  function AddressLocality(c: Cluster, item: Item, isCanary: bool, a: Address): (loc: Locality)
    ensures |loc.lbEndpoints| == 1
  {
    MakeEndpoint(c, item, isCanary, if a.nodeName.Some? then a.nodeName.value else "", a.ip, AddressMetadata(c, a))
  }

  function AddressEndpoint(c: Cluster, item: Item, isCanary: bool): Address -> seq<Locality> {
    (a: Address) => [AddressLocality(c, item, isCanary, a)]
  }

  function SubsetEndpoints(c: Cluster, item: Item, isCanary: bool): seq<Address> -> seq<Locality> {
    (subset: seq<Address>) => FlatMap(AddressEndpoint(c, item, isCanary), subset)
  }

  function ObjectEndpoints(c: Cluster, item: Item, isCanary: bool, e: Option<EndpointsObject>): seq<Locality> {
    if e.Some? then FlatMap(SubsetEndpoints(c, item, isCanary), e.value.subsets) else []
  }

  /** What one item contributes through its selector: the serving pods it selects, in lister order. */
  ghost function BySelector(c: Cluster, cluster: string): Item -> seq<Locality> {
    (item: Item) =>
      if item.clusterName == cluster && item.selector.Some? && c.pods.Success?
      then FlatMap(PodEndpoint(c, item), FlatMap(Selected(item.selector.value), c.pods.value)) else []
  }

  function ServiceEndpoints(c: Cluster, item: Item, eps: seq<EndpointsObject>): seq<Locality> {
    var main := FirstAdmitted(item.service, eps);
    if main.None? then []
    else
      ObjectEndpoints(c, item, false, main) + ObjectEndpoints(c, item, true, FirstAdmitted(item.service + CANARY_SUFFIX, eps))
  }

  /** What one item contributes through its service: the main addresses, then, if there is a
      main object at all, the addresses of an enabled canary. */
  function ByService(c: Cluster, cluster: string): Item -> seq<Locality> {
    (item: Item) =>
      if item.clusterName == cluster && item.service != "" && c.endpoints.Success? then
        ServiceEndpoints(c, item, c.endpoints.value)
      else []
  }

  /** A cluster's endpoints: first those of every selector, then those of every service. */
  ghost function Wanted(c: Cluster, items: seq<Item>, cluster: string): seq<Locality> {
    FlatMap(BySelector(c, cluster), items) + FlatMap(ByService(c, cluster), items)
  }

  // ----- collecting them

  predicate NoneEmpty(lb: LbMap) {
    forall k :: k in lb ==> lb[k] != []
  }

  /** `after` is `before` with a list appended to one cluster. */
  ghost predicate Grew(before: LbMap, after: LbMap, cluster: string, more: seq<Locality>) {
    && NoneEmpty(after)
    && forall k :: At(after, k) == At(before, k) + if k == cluster then more else []
  }

  method AppendOne(lb: LbMap, cluster: string, loc: Locality) returns (r: LbMap)
    requires NoneEmpty(lb)
    ensures Grew(lb, r, cluster, [loc])
  {
    r := lb[cluster := (if cluster in lb then lb[cluster] else []) + [loc]];
  }

  lemma GrewMore(a: LbMap, b: LbMap, c: LbMap, cluster: string, x: seq<Locality>, y: seq<Locality>)
    requires Grew(a, b, cluster, x) && Grew(b, c, cluster, y)
    ensures Grew(a, c, cluster, x + y)
  {
    forall k ensures At(c, k) == At(a, k) + if k == cluster then x + y else [] {
      assert At(b, k) == At(a, k) + if k == cluster then x else [];
      assert At(a, k) + x + y == At(a, k) + (x + y);
    }
  }

  method AddPod(c: Cluster, item: Item, pod: Pod, lb: LbMap) returns (r: LbMap)
    requires NoneEmpty(lb)
    ensures Grew(lb, r, item.clusterName, PodEndpoint(c, item)(pod))
  {
    if |pod.podIP| == 0 || |pod.nodeName| == 0 {
      return lb;
    }
    if pod.deleted {
      return lb;
    }
    var ready := IsPodReady(pod);
    if !ready {
      return lb;
    }
    r := AppendOne(lb, item.clusterName, MakeEndpoint(c, item, false, pod.nodeName, pod.podIP, PodMetadata(pod)));
  }

  method AddPods(c: Cluster, item: Item, pods: seq<Pod>, lb: LbMap) returns (r: LbMap)
    requires NoneEmpty(lb)
    ensures Grew(lb, r, item.clusterName, FlatMap(PodEndpoint(c, item), pods))
  {
    hide PodEndpoint, FlatMap;
    r := lb;
    ghost var f := PodEndpoint(c, item);
    FlatMapNone(f, pods);
    var i := 0;
    while i < |pods|
      invariant 0 <= i <= |pods|
      invariant Grew(lb, r, item.clusterName, FlatMap(f, pods[..i]))
    {
      ghost var before := r;
      r := AddPod(c, item, pods[i], r);
      FlatMapNext(f, pods, i);
      GrewMore(lb, before, r, item.clusterName, FlatMap(f, pods[..i]), f(pods[i]));
      i := i + 1;
    }
    assert pods[..|pods|] == pods;
  }

  method AddAddress(c: Cluster, item: Item, isCanary: bool, a: Address, lb: LbMap) returns (r: LbMap)
    requires NoneEmpty(lb)
    ensures Grew(lb, r, item.clusterName, AddressEndpoint(c, item, isCanary)(a))
  {
    hide MakeEndpoint, AddressMetadata;
    var node := if a.nodeName.Some? then a.nodeName.value else "";
    r := AppendOne(lb, item.clusterName, MakeEndpoint(c, item, isCanary, node, a.ip, AddressMetadata(c, a)));
  }

  method AddSubset(c: Cluster, item: Item, isCanary: bool, subset: seq<Address>, lb: LbMap) returns (r: LbMap)
    requires NoneEmpty(lb)
    ensures Grew(lb, r, item.clusterName, FlatMap(AddressEndpoint(c, item, isCanary), subset))
  {
    hide AddressEndpoint, FlatMap;
    r := lb;
    ghost var f := AddressEndpoint(c, item, isCanary);
    FlatMapNone(f, subset);
    var i := 0;
    while i < |subset|
      invariant 0 <= i <= |subset|
      invariant Grew(lb, r, item.clusterName, FlatMap(f, subset[..i]))
    {
      ghost var before := r;
      r := AddAddress(c, item, isCanary, subset[i], r);
      FlatMapNext(f, subset, i);
      GrewMore(lb, before, r, item.clusterName, FlatMap(f, subset[..i]), f(subset[i]));
      i := i + 1;
    }
    assert subset[..|subset|] == subset;
  }

  method AddObject(c: Cluster, item: Item, isCanary: bool, e: EndpointsObject, lb: LbMap) returns (r: LbMap)
    requires NoneEmpty(lb)
    ensures Grew(lb, r, item.clusterName, ObjectEndpoints(c, item, isCanary, Some(e)))
  {
    hide AddressEndpoint, FlatMap;
    r := lb;
    ghost var f := SubsetEndpoints(c, item, isCanary);
    FlatMapNone(f, e.subsets);
    var i := 0;
    while i < |e.subsets|
      invariant 0 <= i <= |e.subsets|
      invariant Grew(lb, r, item.clusterName, FlatMap(f, e.subsets[..i]))
    {
      ghost var before := r;
      r := AddSubset(c, item, isCanary, e.subsets[i], r);
      FlatMapNext(f, e.subsets, i);
      GrewMore(lb, before, r, item.clusterName, FlatMap(f, e.subsets[..i]), f(e.subsets[i]));
      i := i + 1;
    }
    assert e.subsets[..|e.subsets|] == e.subsets;
  }

  /** One item's selector. */
  method AddSelected(c: Cluster, item: Item, lb: LbMap) returns (r: Result<LbMap>)
    requires NoneEmpty(lb)
    ensures r.Failure? <==> item.selector.Some? && c.pods.Failure?
    ensures r.Success? ==> Grew(lb, r.value, item.clusterName, BySelector(c, item.clusterName)(item))
  {
    if item.selector.None? {
      return Success(lb);
    }
    var pods := ListPods(c, item.selector.value);
    if pods.Failure? {
      return Failure;
    }
    var more := AddPods(c, item, pods.value, lb);
    return Success(more);
  }

  /** One item's service, and its canary. */
  method AddService(c: Cluster, item: Item, lb: LbMap) returns (r: Result<LbMap>)
    requires NoneEmpty(lb)
    ensures r.Failure? <==> item.service != "" && c.endpoints.Failure?
    ensures r.Success? ==> Grew(lb, r.value, item.clusterName, ByService(c, item.clusterName)(item))
  {
    if |item.service| == 0 {
      return Success(lb);
    }
    var found := GetEndpoint(c, item.service);
    if found.Failure? {
      return Failure;
    }
    if found.value.None? {
      return Success(lb);
    }
    var one := AddObject(c, item, false, found.value.value, lb);
    var canary := GetEndpoint(c, item.service + CANARY_SUFFIX);
    if canary.Failure? {
      return Failure;
    }
    if canary.value.None? {
      return Success(one);
    }
    var two := AddObject(c, item, true, canary.value.value, one);
    GrewMore(lb, one, two, item.clusterName, ObjectEndpoints(c, item, false, found.value), ObjectEndpoints(c, item, true, canary.value));
    return Success(two);
  }

  lemma OtherClusters(c: Cluster, item: Item, k: string)
    ensures BySelector(c, k)(item) == if k == item.clusterName then BySelector(c, item.clusterName)(item) else []
    ensures ByService(c, k)(item) == if k == item.clusterName then ByService(c, item.clusterName)(item) else []
  {
  }

  /** Every cluster's list is what it was in `was`, followed by what the first i items contribute. */
  ghost predicate Collected(part: string -> Item -> seq<Locality>, items: seq<Item>, i: nat, was: LbMap, lb: LbMap)
    requires i <= |items|
  {
    forall k :: At(lb, k) == At(was, k) + FlatMap(part(k), items[..i])
  }

  ghost function Selectors(c: Cluster): string -> Item -> seq<Locality> {
    k => BySelector(c, k)
  }

  function Services(c: Cluster): string -> Item -> seq<Locality> {
    k => ByService(c, k)
  }

  lemma CollectedNone(part: string -> Item -> seq<Locality>, items: seq<Item>, was: LbMap)
    ensures Collected(part, items, 0, was, was)
  {
    forall k ensures At(was, k) == At(was, k) + FlatMap(part(k), items[..0]) {
      FlatMapNone(part(k), items);
    }
  }

  lemma CollectedNext(part: string -> Item -> seq<Locality>, items: seq<Item>, i: nat, was: LbMap, before: LbMap, after: LbMap)
    requires i < |items| && Collected(part, items, i, was, before)
    requires forall k :: At(after, k) == At(before, k) + part(k)(items[i])
    ensures Collected(part, items, i + 1, was, after)
  {
    hide FlatMap, At;
    forall k ensures At(after, k) == At(was, k) + FlatMap(part(k), items[..i + 1]) {
      FlatMapNext(part(k), items, i);
      Regroup(At(was, k), FlatMap(part(k), items[..i]), part(k)(items[i]));
    }
  }

  lemma CollectedAll(part: string -> Item -> seq<Locality>, items: seq<Item>, was: LbMap, lb: LbMap)
    requires Collected(part, items, |items|, was, lb)
    ensures forall k :: At(lb, k) == At(was, k) + FlatMap(part(k), items)
  {
    assert items[..|items|] == items;
  }

  lemma Regroup<T>(a: seq<T>, b: seq<T>, c: seq<T>)
    ensures a + b + c == a + (b + c)
  {
  }

  lemma SelectorStep(c: Cluster, items: seq<Item>, i: nat, before: LbMap, after: LbMap)
    requires i < |items| && Collected(Selectors(c), items, i, map[], before)
    requires Grew(before, after, items[i].clusterName, BySelector(c, items[i].clusterName)(items[i]))
    ensures Collected(Selectors(c), items, i + 1, map[], after)
  {
    hide Collected, BySelector;
    forall k ensures At(after, k) == At(before, k) + Selectors(c)(k)(items[i]) {
      OtherClusters(c, items[i], k);
    }
    CollectedNext(Selectors(c), items, i, map[], before, after);
  }

  method CollectSelected(c: Cluster, items: seq<Item>) returns (r: Result<LbMap>)
    ensures r.Failure? <==> exists i :: 0 <= i < |items| && items[i].selector.Some? && c.pods.Failure?
    ensures r.Success? ==> NoneEmpty(r.value) && forall k :: At(r.value, k) == FlatMap(BySelector(c, k), items)
  {
    hide FlatMap, BySelector, Grew, Collected;
    var lb: LbMap := map[];
    CollectedNone(Selectors(c), items, lb);
    var i := 0;
    while i < |items|
      invariant 0 <= i <= |items| && NoneEmpty(lb)
      invariant forall j :: 0 <= j < i ==> !(items[j].selector.Some? && c.pods.Failure?)
      invariant Collected(Selectors(c), items, i, map[], lb)
    {
      ghost var before := lb;
      var added := AddSelected(c, items[i], lb);
      if added.Failure? {
        return Failure;
      }
      lb := added.value;
      SelectorStep(c, items, i, before, lb);
      i := i + 1;
    }
    CollectedAll(Selectors(c), items, map[], lb);
    forall k ensures At(lb, k) == FlatMap(BySelector(c, k), items) {
      assert At(lb, k) == At(map[], k) + FlatMap(Selectors(c)(k), items);
    }
    return Success(lb);
  }

  lemma ServiceStep(c: Cluster, items: seq<Item>, i: nat, selected: LbMap, before: LbMap, after: LbMap)
    requires i < |items| && Collected(Services(c), items, i, selected, before)
    requires Grew(before, after, items[i].clusterName, ByService(c, items[i].clusterName)(items[i]))
    ensures Collected(Services(c), items, i + 1, selected, after)
  {
    hide Collected, ByService;
    forall k ensures At(after, k) == At(before, k) + Services(c)(k)(items[i]) {
      OtherClusters(c, items[i], k);
    }
    CollectedNext(Services(c), items, i, selected, before, after);
  }

  method CollectServices(c: Cluster, items: seq<Item>, selected: LbMap) returns (r: Result<LbMap>)
    requires NoneEmpty(selected)
    ensures r.Failure? <==> exists i :: 0 <= i < |items| && items[i].service != "" && c.endpoints.Failure?
    ensures r.Success? ==> NoneEmpty(r.value) && forall k :: At(r.value, k) == At(selected, k) + FlatMap(ByService(c, k), items)
  {
    hide FlatMap, ByService, Grew, Collected;
    var lb := selected;
    CollectedNone(Services(c), items, lb);
    var i := 0;
    while i < |items|
      invariant 0 <= i <= |items| && NoneEmpty(lb)
      invariant forall j :: 0 <= j < i ==> !(items[j].service != "" && c.endpoints.Failure?)
      invariant Collected(Services(c), items, i, selected, lb)
    {
      ghost var before := lb;
      var added := AddService(c, items[i], lb);
      if added.Failure? {
        return Failure;
      }
      lb := added.value;
      ServiceStep(c, items, i, selected, before, lb);
      i := i + 1;
    }
    CollectedAll(Services(c), items, selected, lb);
    forall k ensures At(lb, k) == At(selected, k) + FlatMap(ByService(c, k), items) {
      assert Services(c)(k) == ByService(c, k);
    }
    return Success(lb);
  }

  lemma WantedParts(c: Cluster, items: seq<Item>, k: string)
    ensures Wanted(c, items, k) == FlatMap(BySelector(c, k), items) + FlatMap(ByService(c, k), items)
  {
  }

  /** The item asks a lister that fails. */
  predicate Needs(c: Cluster, item: Item) {
    (item.selector.Some? && c.pods.Failure?) || (item.service != "" && c.endpoints.Failure?)
  }

  /** getLocalityLbEndpoints: it fails exactly when a lister that some item needs fails, and else
      gives every cluster the list `Wanted` spells out. */
  method GetLocalityLbEndpoints(c: Cluster, items: seq<Item>) returns (r: Result<LbMap>)
    ensures r.Failure? <==> exists i :: 0 <= i < |items| && Needs(c, items[i])
    ensures r.Success? ==> Discovered(r.value) && forall k :: At(r.value, k) == Wanted(c, items, k)
    ensures r.Success? ==> forall k, loc :: k in r.value && loc in r.value[k] <==>
      (FromPod(c, items, k, loc) || FromService(c, items, k, false, loc) || FromService(c, items, k, true, loc))
  {
    hide Wanted, FromPod, FromService;
    var selected := CollectSelected(c, items);
    if selected.Failure? {
      return Failure;
    }
    r := CollectServices(c, items, selected.value);
    if r.Success? {
      forall k ensures At(r.value, k) == Wanted(c, items, k) {
        WantedParts(c, items, k);
      }
      forall k, i | k in r.value && 0 <= i < |r.value[k]| ensures |r.value[k][i].lbEndpoints| == 1 {
        assert At(r.value, k)[i] in Wanted(c, items, k);
        WantedSingles(c, items, k, r.value[k][i]);
      }
      forall k, loc ensures k in r.value && loc in r.value[k] <==>
        (FromPod(c, items, k, loc) || FromService(c, items, k, false, loc) || FromService(c, items, k, true, loc))
      {
        WantedMembers(c, items, k, loc);
      }
    }
  }

  // ----- what the lists contain

  // First in terms of the functions above, then field by field.

  /** An endpoint made from a serving pod that an item selects. */
  ghost predicate MadeFromPod(c: Cluster, items: seq<Item>, cluster: string, loc: Locality) {
    exists i, pod ::
      && 0 <= i < |items| && items[i].clusterName == cluster && items[i].selector.Some?
      && c.pods.Success? && pod in c.pods.value && Selects(items[i].selector.value, pod.labels) && Serves(pod)
      && loc == MakeEndpoint(c, items[i], false, pod.nodeName, pod.podIP, PodMetadata(pod))
  }

  ghost predicate MadeFromObject(c: Cluster, item: Item, isCanary: bool, e: Option<EndpointsObject>, loc: Locality) {
    e.Some? && exists s, a :: s in e.value.subsets && a in s && loc == AddressLocality(c, item, isCanary, a)
  }

  /** An endpoint made from a service address, or from one of its canary if there is a main object. */
  ghost predicate MadeFromService(c: Cluster, items: seq<Item>, cluster: string, isCanary: bool, loc: Locality) {
    exists i ::
      && 0 <= i < |items| && items[i].clusterName == cluster && items[i].service != "" && c.endpoints.Success?
      && FirstAdmitted(items[i].service, c.endpoints.value).Some?
      && MadeFromObject(c, items[i], isCanary,
           FirstAdmitted(if isCanary then items[i].service + CANARY_SUFFIX else items[i].service, c.endpoints.value), loc)
  }

  lemma SelectorMembers(c: Cluster, items: seq<Item>, cluster: string, loc: Locality)
    ensures loc in FlatMap(BySelector(c, cluster), items) <==> MadeFromPod(c, items, cluster, loc)
  {
    FlatMapMember(BySelector(c, cluster), items, loc);
    forall i | 0 <= i < |items| && items[i].clusterName == cluster && items[i].selector.Some? && c.pods.Success?
      ensures loc in BySelector(c, cluster)(items[i]) <==>
        exists pod :: pod in c.pods.value && Selects(items[i].selector.value, pod.labels) && Serves(pod)
          && loc == MakeEndpoint(c, items[i], false, pod.nodeName, pod.podIP, PodMetadata(pod))
    {
      var sel := Selected(items[i].selector.value);
      var chosen := FlatMap(sel, c.pods.value);
      FlatMapMember(PodEndpoint(c, items[i]), chosen, loc);
      forall pod ensures pod in chosen <==> pod in c.pods.value && Selects(items[i].selector.value, pod.labels) {
        FlatMapMember(sel, c.pods.value, pod);
      }
    }
  }

  lemma ObjectMembers(c: Cluster, item: Item, isCanary: bool, e: Option<EndpointsObject>, loc: Locality)
    ensures loc in ObjectEndpoints(c, item, isCanary, e) <==> MadeFromObject(c, item, isCanary, e, loc)
  {
    if e.Some? {
      FlatMapMember(SubsetEndpoints(c, item, isCanary), e.value.subsets, loc);
      forall s: seq<Address> ensures loc in SubsetEndpoints(c, item, isCanary)(s) <==>
        exists a :: a in s && loc == AddressLocality(c, item, isCanary, a)
      {
        FlatMapMember(AddressEndpoint(c, item, isCanary), s, loc);
      }
    }
  }

  lemma ServiceMembers(c: Cluster, items: seq<Item>, cluster: string, loc: Locality)
    ensures loc in FlatMap(ByService(c, cluster), items) <==>
      (MadeFromService(c, items, cluster, false, loc) || MadeFromService(c, items, cluster, true, loc))
  {
    FlatMapMember(ByService(c, cluster), items, loc);
    if c.endpoints.Success? {
      forall i | 0 <= i < |items|
        ensures loc in ServiceEndpoints(c, items[i], c.endpoints.value) <==>
          FirstAdmitted(items[i].service, c.endpoints.value).Some? &&
          (MadeFromObject(c, items[i], false, FirstAdmitted(items[i].service, c.endpoints.value), loc)
           || MadeFromObject(c, items[i], true, FirstAdmitted(items[i].service + CANARY_SUFFIX, c.endpoints.value), loc))
      {
        ObjectMembers(c, items[i], false, FirstAdmitted(items[i].service, c.endpoints.value), loc);
        ObjectMembers(c, items[i], true, FirstAdmitted(items[i].service + CANARY_SUFFIX, c.endpoints.value), loc);
      }
    }
  }

  lemma WantedMade(c: Cluster, items: seq<Item>, cluster: string, loc: Locality)
    ensures loc in Wanted(c, items, cluster) <==>
      (MadeFromPod(c, items, cluster, loc) || MadeFromService(c, items, cluster, false, loc) || MadeFromService(c, items, cluster, true, loc))
  {
    SelectorMembers(c, items, cluster, loc);
    ServiceMembers(c, items, cluster, loc);
  }

  // ----- field by field

  /** The zone of a node is its zone label, or "unknown" if the node is not known or has none. */
  predicate InZone(c: Cluster, node: string, zone: string) {
    if node in c.nodes && c.zoneLabel in c.nodes[node] && c.nodes[node][c.zoneLabel] != "" then zone == c.nodes[node][c.zoneLabel]
    else zone == "unknown"
  }

  /** One endpoint at this address, with the item's priority and ports. */
  predicate IsEndpoint(item: Item, address: string, loc: Locality) {
    && loc.priority == item.priority && |loc.lbEndpoints| == 1
    && loc.lbEndpoints[0].address == address
    && loc.lbEndpoints[0].port == item.port && loc.lbEndpoints[0].healthPort == item.healthPort
  }

  /** The metadata has these entries, one for every label but the template hash, and no others. */
  ghost predicate ShowsLabels(m: map<string, MetaValue>, entries: map<string, MetaValue>, labels: Labels) {
    && (forall k :: k in entries ==> k in m && m[k] == entries[k])
    && (forall l :: l in labels && l != "pod-template-hash" ==>
          "k8s.pod.labels." + l in m && m["k8s.pod.labels." + l] == Str(labels[l]))
    && (forall k :: k in m ==> k in entries || exists l :: l in labels && l != "pod-template-hash" && k == "k8s.pod.labels." + l)
  }

  ghost predicate ShowsPod(m: map<string, MetaValue>, pod: Pod) {
    ShowsLabels(m,
      map["canary" := Flag(false), "stage" := Str("main"),
          "k8s.pod.name" := Str(pod.name), "k8s.endpoint.ip" := Str(pod.podIP), "k8s.node.name" := Str(pod.nodeName)],
      pod.labels)
  }

  function Strs(m: Labels): map<string, MetaValue> {
    map k | k in m :: Str(m[k])
  }

  /** An address's IP, its node if it has one, and its pod if it is a pod's. */
  function AddressEntries(a: Address): Labels {
    (if a.targetRef.Some? && a.targetRef.value.kind == "Pod" then map["k8s.pod.name" := a.targetRef.value.name] else map[])
      + (if a.nodeName.Some? then map["k8s.node.name" := a.nodeName.value] else map[])
      + map["k8s.endpoint.ip" := a.ip]
  }

  /** The labels of that pod, if the pod is known. */
  function AddressLabels(c: Cluster, a: Address): Labels {
    if a.targetRef.Some? && a.targetRef.value.kind == "Pod" && (a.targetRef.value.namespace, a.targetRef.value.name) in c.podLabels
    then c.podLabels[(a.targetRef.value.namespace, a.targetRef.value.name)] else map[]
  }

  ghost predicate ShowsAddress(m: map<string, MetaValue>, c: Cluster, isCanary: bool, a: Address) {
    ShowsLabels(m,
      map["canary" := Flag(isCanary), "stage" := Str(if isCanary then "canary" else "main")] + Strs(AddressEntries(a)),
      AddressLabels(c, a))
  }

  /** The item selects the pod, and the pod serves: it has an address, is scheduled, is not being
      deleted, runs, and is ready. */
  ghost predicate Picks(item: Item, pod: Pod) {
    && item.selector.Some?
    && (forall k :: k in item.selector.value ==> k in pod.labels && pod.labels[k] == item.selector.value[k])
    && pod.podIP != "" && pod.nodeName != "" && !pod.deleted && pod.phase == "Running"
    && exists i :: 0 <= i < |pod.conditions| && pod.conditions[i] == Condition("Ready", "True")
  }

  ghost predicate IsPodEndpoint(c: Cluster, item: Item, pod: Pod, loc: Locality) {
    IsEndpoint(item, pod.podIP, loc) && InZone(c, pod.nodeName, loc.zone) && ShowsPod(loc.lbEndpoints[0].metadata, pod)
  }

  ghost predicate IsAddressEndpoint(c: Cluster, item: Item, isCanary: bool, a: Address, loc: Locality) {
    && IsEndpoint(item, a.ip, loc)
    && InZone(c, if a.nodeName.Some? then a.nodeName.value else "", loc.zone)
    && ShowsAddress(loc.lbEndpoints[0].metadata, c, isCanary, a)
  }

  lemma MakeMeans(c: Cluster, item: Item, isCanary: bool, node: string, address: string, metadata: Labels, loc: Locality)
    ensures loc == MakeEndpoint(c, item, isCanary, node, address, metadata) <==>
      IsEndpoint(item, address, loc) && InZone(c, node, loc.zone) && loc.lbEndpoints[0].metadata == LbMetadata(isCanary, metadata)
  {
    hide LbMetadata;
    if IsEndpoint(item, address, loc) && InZone(c, node, loc.zone) && loc.lbEndpoints[0].metadata == LbMetadata(isCanary, metadata) {
      assert loc.lbEndpoints == [LbEndpoint(address, item.port, item.healthPort, LbMetadata(isCanary, metadata))];
    }
  }

  /** The labels' keys are none of the others. */
  lemma LabelKeysApart(l: string)
    ensures var k := "k8s.pod.labels." + l;
      k != "canary" && k != "stage" && k != "k8s.pod.name" && k != "k8s.endpoint.ip" && k != "k8s.node.name"
  {
    var k := "k8s.pod.labels." + l;
    assert k[0] == 'k' && k[4] == 'p' && k[8] == 'l';
  }

  /** There is one map with given entries and labels. */
  lemma ShownOnce(m: map<string, MetaValue>, n: map<string, MetaValue>, entries: map<string, MetaValue>, labels: Labels)
    requires ShowsLabels(m, entries, labels) && ShowsLabels(n, entries, labels)
    ensures m == n
  {
    forall k | k in m ensures k in n && n[k] == m[k] {
      if k !in entries {
        var l :| l in labels && l != "pod-template-hash" && k == "k8s.pod.labels." + l;
      }
    }
    forall k | k in n ensures k in m {
      if k !in entries {
        var l :| l in labels && l != "pod-template-hash" && k == "k8s.pod.labels." + l;
      }
    }
  }

  lemma LabelMetadataKeys(labels: Labels)
    ensures forall l :: l in labels && l != "pod-template-hash" ==>
      "k8s.pod.labels." + l in LabelMetadata(labels) && LabelMetadata(labels)["k8s.pod.labels." + l] == labels[l]
    ensures forall k :: k in LabelMetadata(labels) ==> exists l :: l in labels && l != "pod-template-hash" && k == "k8s.pod.labels." + l
  {
    PrefixCancels(META_POD_LABELS);
    forall l | l in labels && l != "pod-template-hash"
      ensures "k8s.pod.labels." + l in LabelMetadata(labels) && LabelMetadata(labels)["k8s.pod.labels." + l] == labels[l]
    {
      assert META_POD_LABELS + l in LabelMetadata(labels);
    }
  }

  predicate ApartKey(k: string) {
    k != "canary" && k != "stage" && k != "k8s.pod.name" && k != "k8s.endpoint.ip" && k != "k8s.node.name"
  }

  /** Labels and other entries, shown together. */
  lemma LabelsShown(isCanary: bool, labels: Labels, others: Labels, entries: map<string, MetaValue>)
    requires forall k :: k in others ==> k == "k8s.pod.name" || k == "k8s.endpoint.ip" || k == "k8s.node.name"
    requires entries == map["canary" := Flag(isCanary), "stage" := Str(if isCanary then "canary" else "main")] + Strs(others)
    ensures ShowsLabels(LbMetadata(isCanary, LabelMetadata(labels) + others), entries, labels)
  {
    hide LabelMetadata;
    var all := LabelMetadata(labels) + others;
    var m := LbMetadata(isCanary, all);
    LabelMetadataKeys(labels);
    NoStageAmongLabels(labels);
    EntriesShown(isCanary, all, others, entries);
    forall l | l in labels && l != "pod-template-hash" ensures "k8s.pod.labels." + l in m && m["k8s.pod.labels." + l] == Str(labels[l]) {
      LabelKeysApart(l);
      LabelShown(isCanary, all, "k8s.pod.labels." + l);
    }
    forall k | k in m ensures k in entries || exists l :: l in labels && l != "pod-template-hash" && k == "k8s.pod.labels." + l {
      LabelShown(isCanary, all, k);
    }
    hide LbMetadata;
  }

  lemma NoStageAmongLabels(labels: Labels)
    ensures "canary" !in LabelMetadata(labels) && "stage" !in LabelMetadata(labels)
  {
    hide LabelMetadata;
    LabelMetadataKeys(labels);
    forall l: string ensures ApartKey("k8s.pod.labels." + l) {
      LabelKeysApart(l);
    }
  }

  /** Metadata shows what it is given, next to the stage. */
  lemma LabelShown(isCanary: bool, all: Labels, k: string)
    ensures k in LbMetadata(isCanary, all) <==> k == "canary" || k == "stage" || k in all
    ensures k in all ==> LbMetadata(isCanary, all)[k] == Str(all[k])
  {
  }

  lemma EntriesShown(isCanary: bool, all: Labels, others: Labels, entries: map<string, MetaValue>)
    requires forall k :: k in others ==> k in all && all[k] == others[k]
    requires entries == map["canary" := Flag(isCanary), "stage" := Str(if isCanary then "canary" else "main")] + Strs(others)
    requires "canary" !in all && "stage" !in all
    ensures forall k :: k in entries ==> k in LbMetadata(isCanary, all) && LbMetadata(isCanary, all)[k] == entries[k]
  {
  }

  lemma PodMetadataShown(pod: Pod)
    ensures ShowsPod(LbMetadata(false, PodMetadata(pod)), pod)
  {
    hide LabelMetadata, LbMetadata, ShowsLabels;
    var others := map["k8s.pod.name" := pod.name, "k8s.endpoint.ip" := pod.podIP, "k8s.node.name" := pod.nodeName];
    var entries := map["canary" := Flag(false), "stage" := Str("main"),
        "k8s.pod.name" := Str(pod.name), "k8s.endpoint.ip" := Str(pod.podIP), "k8s.node.name" := Str(pod.nodeName)];
    assert entries == map["canary" := Flag(false), "stage" := Str("main")] + Strs(others);
    assert PodMetadata(pod) == LabelMetadata(pod.labels) + others;
    LabelsShown(false, pod.labels, others, entries);
  }

  lemma UpdateIsSum(m: Labels, k: string, v: string)
    ensures m[k := v] == m + map[k := v]
  {
  }

  lemma SumsRegroup(m: Labels, a: Labels, b: Labels)
    ensures m + a + b == m + (a + b)
  {
  }

  lemma NoLabels()
    ensures LabelMetadata(map[]) == map[]
  {
  }

  lemma TargetParts(c: Cluster, a: Address, pod: Labels)
    requires pod == if a.targetRef.Some? && a.targetRef.value.kind == "Pod" then map["k8s.pod.name" := a.targetRef.value.name] else map[]
    ensures TargetMetadata(c, a) == LabelMetadata(AddressLabels(c, a)) + pod
  {
    hide LabelMetadata;
    NoLabels();
    if a.targetRef.Some? && a.targetRef.value.kind == "Pod" {
      UpdateIsSum(LabelMetadata(AddressLabels(c, a)), "k8s.pod.name", a.targetRef.value.name);
    }
  }

  lemma NodeParts(c: Cluster, a: Address, node: Labels)
    requires node == if a.nodeName.Some? then map["k8s.node.name" := a.nodeName.value] else map[]
    ensures AddressMetadata(c, a) == TargetMetadata(c, a) + node + map["k8s.endpoint.ip" := a.ip]
  {
    hide TargetMetadata;
    var m0 := TargetMetadata(c, a);
    if a.nodeName.Some? {
      UpdateIsSum(m0, "k8s.node.name", a.nodeName.value);
    } else {
      assert m0 + map[] == m0;
    }
    UpdateIsSum(m0 + node, "k8s.endpoint.ip", a.ip);
  }

  lemma AddressMetadataParts(c: Cluster, a: Address)
    ensures AddressMetadata(c, a) == LabelMetadata(AddressLabels(c, a)) + AddressEntries(a)
  {
    hide LabelMetadata, AddressMetadata, TargetMetadata, AddressLabels;
    var pod := if a.targetRef.Some? && a.targetRef.value.kind == "Pod" then map["k8s.pod.name" := a.targetRef.value.name] else map[];
    var node := if a.nodeName.Some? then map["k8s.node.name" := a.nodeName.value] else map[];
    TargetParts(c, a, pod);
    NodeParts(c, a, node);
    SumsRegroup(LabelMetadata(AddressLabels(c, a)), pod, node);
    SumsRegroup(LabelMetadata(AddressLabels(c, a)), pod + node, map["k8s.endpoint.ip" := a.ip]);
  }

  lemma AddressMetadataShown(c: Cluster, isCanary: bool, a: Address)
    ensures ShowsAddress(LbMetadata(isCanary, AddressMetadata(c, a)), c, isCanary, a)
  {
    hide LabelMetadata, LbMetadata, ShowsLabels, AddressMetadata;
    AddressMetadataParts(c, a);
    LabelsShown(isCanary, AddressLabels(c, a), AddressEntries(a),
      map["canary" := Flag(isCanary), "stage" := Str(if isCanary then "canary" else "main")] + Strs(AddressEntries(a)));
  }

  lemma PodEndpointMeans(c: Cluster, item: Item, pod: Pod, loc: Locality)
    ensures loc == MakeEndpoint(c, item, false, pod.nodeName, pod.podIP, PodMetadata(pod)) <==> IsPodEndpoint(c, item, pod, loc)
  {
    hide MakeEndpoint, PodMetadata, LbMetadata, ShowsLabels, IsEndpoint, InZone;
    MakeMeans(c, item, false, pod.nodeName, pod.podIP, PodMetadata(pod), loc);
    PodMetadataShown(pod);
    if IsPodEndpoint(c, item, pod, loc) {
      assert |loc.lbEndpoints| == 1 by { OneEndpoint(item, pod.podIP, loc); }
      var entries := map["canary" := Flag(false), "stage" := Str("main"),
          "k8s.pod.name" := Str(pod.name), "k8s.endpoint.ip" := Str(pod.podIP), "k8s.node.name" := Str(pod.nodeName)];
      ShownOnce(loc.lbEndpoints[0].metadata, LbMetadata(false, PodMetadata(pod)), entries, pod.labels);
    }
  }

  lemma OneEndpoint(item: Item, address: string, loc: Locality)
    requires IsEndpoint(item, address, loc)
    ensures |loc.lbEndpoints| == 1
  {
  }

  lemma AddressShownOnce(c: Cluster, isCanary: bool, a: Address, m: map<string, MetaValue>, n: map<string, MetaValue>)
    requires ShowsAddress(m, c, isCanary, a) && ShowsAddress(n, c, isCanary, a)
    ensures m == n
  {
    ShownOnce(m, n,
      map["canary" := Flag(isCanary), "stage" := Str(if isCanary then "canary" else "main")] + Strs(AddressEntries(a)),
      AddressLabels(c, a));
  }

  lemma AddressEndpointMeans(c: Cluster, item: Item, isCanary: bool, a: Address, loc: Locality)
    ensures loc == AddressLocality(c, item, isCanary, a) <==> IsAddressEndpoint(c, item, isCanary, a, loc)
  {
    hide MakeEndpoint, AddressMetadata, LbMetadata, ShowsAddress, IsEndpoint, InZone;
    var node := if a.nodeName.Some? then a.nodeName.value else "";
    MakeMeans(c, item, isCanary, node, a.ip, AddressMetadata(c, a), loc);
    AddressMetadataShown(c, isCanary, a);
    if IsAddressEndpoint(c, item, isCanary, a, loc) {
      OneEndpoint(item, a.ip, loc);
      AddressShownOnce(c, isCanary, a, loc.lbEndpoints[0].metadata, LbMetadata(isCanary, AddressMetadata(c, a)));
    }
  }

  /** An endpoint of a pod that an item of this cluster picks. */
  ghost predicate FromPod(c: Cluster, items: seq<Item>, cluster: string, loc: Locality) {
    exists i, pod ::
      && 0 <= i < |items| && items[i].clusterName == cluster
      && c.pods.Success? && pod in c.pods.value && Picks(items[i], pod) && IsPodEndpoint(c, items[i], pod, loc)
  }

  /** The address is one of the object that the service's name, or its canary's, is found under;
      a canary counts only if the service itself is found. */
  ghost predicate Offers(c: Cluster, item: Item, isCanary: bool, a: Address) {
    && item.service != "" && c.endpoints.Success?
    && exists main, e, subset ::
         && IsFound(item.service, c.endpoints.value, Some(main))
         && IsFound(if isCanary then item.service + "-canary" else item.service, c.endpoints.value, Some(e))
         && subset in e.subsets && a in subset
  }

  ghost predicate FromService(c: Cluster, items: seq<Item>, cluster: string, isCanary: bool, loc: Locality) {
    exists i, a ::
      && 0 <= i < |items| && items[i].clusterName == cluster
      && Offers(c, items[i], isCanary, a) && IsAddressEndpoint(c, items[i], isCanary, a, loc)
  }

  lemma PodMadeIff(c: Cluster, items: seq<Item>, cluster: string, loc: Locality)
    ensures MadeFromPod(c, items, cluster, loc) <==> FromPod(c, items, cluster, loc)
  {
    hide MakeEndpoint, PodMetadata, IsPodEndpoint;
    forall item, pod: Pod ensures loc == MakeEndpoint(c, item, false, pod.nodeName, pod.podIP, PodMetadata(pod)) <==> IsPodEndpoint(c, item, pod, loc) {
      PodEndpointMeans(c, item, pod, loc);
    }
    forall item: Item, pod: Pod ensures Picks(item, pod) <==> item.selector.Some? && Selects(item.selector.value, pod.labels) && Serves(pod) {
    }
    hide Picks, Selects, Serves;
  }

  lemma ObjectMadeIff(c: Cluster, item: Item, isCanary: bool, loc: Locality)
    requires item.service != "" && c.endpoints.Success?
    ensures
      var eps := c.endpoints.value;
      FirstAdmitted(item.service, eps).Some?
      && MadeFromObject(c, item, isCanary, FirstAdmitted(if isCanary then item.service + CANARY_SUFFIX else item.service, eps), loc)
      <==> exists a :: Offers(c, item, isCanary, a) && IsAddressEndpoint(c, item, isCanary, a, loc)
  {
    hide FirstAdmitted, IsFound, AddressLocality, IsAddressEndpoint;
    var eps, name := c.endpoints.value, if isCanary then item.service + CANARY_SUFFIX else item.service;
    forall a ensures loc == AddressLocality(c, item, isCanary, a) <==> IsAddressEndpoint(c, item, isCanary, a, loc) {
      AddressEndpointMeans(c, item, isCanary, a, loc);
    }
    forall found ensures IsFound(item.service, eps, found) <==> found == FirstAdmitted(item.service, eps) {
      FoundIff(item.service, eps, found);
    }
    forall found ensures IsFound(name, eps, found) <==> found == FirstAdmitted(name, eps) {
      FoundIff(name, eps, found);
    }
    if FirstAdmitted(item.service, eps).Some? && MadeFromObject(c, item, isCanary, FirstAdmitted(name, eps), loc) {
      var e := FirstAdmitted(name, eps).value;
      var s, a :| s in e.subsets && a in s && loc == AddressLocality(c, item, isCanary, a);
      assert IsFound(item.service, eps, Some(FirstAdmitted(item.service, eps).value)) && IsFound(name, eps, Some(e));
      assert Offers(c, item, isCanary, a);
    }
  }

  lemma ServiceMadeIff(c: Cluster, items: seq<Item>, cluster: string, isCanary: bool, loc: Locality)
    ensures MadeFromService(c, items, cluster, isCanary, loc) <==> FromService(c, items, cluster, isCanary, loc)
  {
    hide Offers, IsAddressEndpoint, MadeFromObject, FirstAdmitted;
    forall i | 0 <= i < |items| && Offered(c, items[i])
      ensures
        FirstAdmitted(items[i].service, c.endpoints.value).Some?
        && MadeFromObject(c, items[i], isCanary,
             FirstAdmitted(if isCanary then items[i].service + CANARY_SUFFIX else items[i].service, c.endpoints.value), loc)
        <==> exists a :: Offers(c, items[i], isCanary, a) && IsAddressEndpoint(c, items[i], isCanary, a, loc)
    {
      ObjectMadeIff(c, items[i], isCanary, loc);
    }
    forall item, a ensures Offers(c, item, isCanary, a) ==> Offered(c, item) {
      OffersNeeds(c, item, isCanary, a);
    }
  }

  predicate Offered(c: Cluster, item: Item) {
    item.service != "" && c.endpoints.Success?
  }

  lemma OffersNeeds(c: Cluster, item: Item, isCanary: bool, a: Address)
    ensures Offers(c, item, isCanary, a) ==> Offered(c, item)
  {
  }

  /** A cluster's endpoints are those of the pods its items pick, of the addresses of its services,
      and of the addresses of enabled canaries of services that exist; no others. */
  lemma WantedMembers(c: Cluster, items: seq<Item>, cluster: string, loc: Locality)
    ensures loc in Wanted(c, items, cluster) <==>
      (FromPod(c, items, cluster, loc) || FromService(c, items, cluster, false, loc) || FromService(c, items, cluster, true, loc))
  {
    hide Wanted, FromPod, FromService, MadeFromPod, MadeFromService;
    WantedMade(c, items, cluster, loc);
    PodMadeIff(c, items, cluster, loc);
    ServiceMadeIff(c, items, cluster, false, loc);
    ServiceMadeIff(c, items, cluster, true, loc);
  }

  // ----- in order, and counted

  /** One endpoint for a pod that the item picks, none for another. */
  ghost predicate SpellsPods(c: Cluster, pod: Item -> Pod -> seq<Locality>) {
    forall item: Item, p: Pod ::
      if Picks(item, p) then |pod(item)(p)| == 1 && IsPodEndpoint(c, item, p, pod(item)(p)[0]) else pod(item)(p) == []
  }

  ghost predicate SpellsAddresses(c: Cluster, address: Item -> bool -> Address -> Locality) {
    forall item: Item, isCanary: bool, a: Address :: IsAddressEndpoint(c, item, isCanary, a, address(item)(isCanary)(a))
  }

  ghost predicate SpellsLookup(c: Cluster, lookup: string -> Option<EndpointsObject>) {
    c.endpoints.Success? ==> forall name: string :: IsFound(name, c.endpoints.value, lookup(name))
  }

  ghost function PodsOf(c: Cluster, cluster: string, pod: Item -> Pod -> seq<Locality>): Item -> seq<Locality> {
    (item: Item) =>
      if item.clusterName == cluster && item.selector.Some? && c.pods.Success? then FlatMap(pod(item), c.pods.value) else []
  }

  function AddressesOf(address: Address -> Locality): seq<Address> -> seq<Locality> {
    (subset: seq<Address>) => Map(address, subset)
  }

  function ObjectOf(address: Address -> Locality, found: Option<EndpointsObject>): seq<Locality> {
    if found.None? then [] else FlatMap(AddressesOf(address), found.value.subsets)
  }

  ghost function ServicesOf(c: Cluster, cluster: string, address: Item -> bool -> Address -> Locality,
                            lookup: string -> Option<EndpointsObject>): Item -> seq<Locality> {
    (item: Item) =>
      if item.clusterName == cluster && item.service != "" && c.endpoints.Success? && lookup(item.service).Some?
      then ObjectOf(address(item)(false), lookup(item.service)) + ObjectOf(address(item)(true), lookup(item.service + "-canary"))
      else []
  }

  lemma PodsSpelled(c: Cluster, item: Item, cluster: string, pod: Item -> Pod -> seq<Locality>)
    requires SpellsPods(c, pod)
    ensures BySelector(c, cluster)(item) == PodsOf(c, cluster, pod)(item)
  {
    if item.clusterName == cluster && item.selector.Some? && c.pods.Success? {
      var f, sel := PodEndpoint(c, item), Selected(item.selector.value);
      forall i | 0 <= i < |c.pods.value| ensures pod(item)(c.pods.value[i]) == FlatMap(f, sel(c.pods.value[i])) {
        PodSpelled(c, item, pod, c.pods.value[i]);
      }
      hide FlatMap, PodEndpoint, Selected, SpellsPods;
      FlatMapTwice(f, sel, pod(item), c.pods.value);
    }
  }

  lemma PodSpelled(c: Cluster, item: Item, pod: Item -> Pod -> seq<Locality>, p: Pod)
    requires SpellsPods(c, pod) && item.selector.Some?
    ensures pod(item)(p) == FlatMap(PodEndpoint(c, item), Selected(item.selector.value)(p))
  {
    hide MakeEndpoint, IsPodEndpoint, FlatMap;
    assert FlatMap(PodEndpoint(c, item), []) == [] by { FlatMapNone(PodEndpoint(c, item), [p]); assert [p][..0] == []; }
    FlatMapOne(PodEndpoint(c, item), p);
    if Picks(item, p) {
      PodEndpointMeans(c, item, p, pod(item)(p)[0]);
      assert pod(item)(p) == [pod(item)(p)[0]];
    }
  }

  lemma ObjectSpelled(c: Cluster, item: Item, isCanary: bool, address: Item -> bool -> Address -> Locality, found: Option<EndpointsObject>)
    requires SpellsAddresses(c, address)
    ensures ObjectEndpoints(c, item, isCanary, found) == ObjectOf(address(item)(isCanary), found)
  {
    hide AddressLocality, IsAddressEndpoint, FlatMap;
    if found.Some? {
      var f, g := AddressEndpoint(c, item, isCanary), address(item)(isCanary);
      forall a: Address ensures f(a) == [g(a)] {
        AddressEndpointMeans(c, item, isCanary, a, g(a));
      }
      forall i | 0 <= i < |found.value.subsets|
        ensures SubsetEndpoints(c, item, isCanary)(found.value.subsets[i]) == AddressesOf(g)(found.value.subsets[i])
      {
        FlatMapSingles(f, g, found.value.subsets[i]);
      }
      FlatMapSame(SubsetEndpoints(c, item, isCanary), AddressesOf(g), found.value.subsets);
    }
  }

  lemma ServicesSpelled(c: Cluster, item: Item, cluster: string, address: Item -> bool -> Address -> Locality,
                        lookup: string -> Option<EndpointsObject>)
    requires SpellsAddresses(c, address) && SpellsLookup(c, lookup)
    ensures ByService(c, cluster)(item) == ServicesOf(c, cluster, address, lookup)(item)
  {
    hide ObjectEndpoints, ObjectOf, SpellsAddresses, IsFound, FirstAdmitted;
    if c.endpoints.Success? {
      FoundIff(item.service, c.endpoints.value, lookup(item.service));
      FoundIff(item.service + "-canary", c.endpoints.value, lookup(item.service + "-canary"));
      ObjectSpelled(c, item, false, address, lookup(item.service));
      ObjectSpelled(c, item, true, address, lookup(item.service + "-canary"));
    }
  }

  /** A cluster's endpoints in order and counted: item by item, the pods it picks as the lister
      gives them; then item by item, the addresses of its service, subset by subset, followed by
      those of the service's canary. `pod`, `address` and `lookup` may be any functions that meet
      the descriptions field by field. */
  lemma WantedSpelledOut(c: Cluster, items: seq<Item>, cluster: string, pod: Item -> Pod -> seq<Locality>,
                         address: Item -> bool -> Address -> Locality, lookup: string -> Option<EndpointsObject>)
    requires SpellsPods(c, pod) && SpellsAddresses(c, address) && SpellsLookup(c, lookup)
    ensures Wanted(c, items, cluster) ==
      FlatMap(PodsOf(c, cluster, pod), items) + FlatMap(ServicesOf(c, cluster, address, lookup), items)
  {
    hide BySelector, ByService, PodsOf, ServicesOf, FlatMap, SpellsPods, SpellsAddresses, SpellsLookup;
    forall i | 0 <= i < |items| ensures BySelector(c, cluster)(items[i]) == PodsOf(c, cluster, pod)(items[i]) {
      PodsSpelled(c, items[i], cluster, pod);
    }
    forall i | 0 <= i < |items| ensures ByService(c, cluster)(items[i]) == ServicesOf(c, cluster, address, lookup)(items[i]) {
      ServicesSpelled(c, items[i], cluster, address, lookup);
    }
    FlatMapSame(BySelector(c, cluster), PodsOf(c, cluster, pod), items);
    FlatMapSame(ByService(c, cluster), ServicesOf(c, cluster, address, lookup), items);
  }

  /** There are such functions. */
  lemma SpellingExists(c: Cluster)
    ensures exists pod, address, lookup :: SpellsPods(c, pod) && SpellsAddresses(c, address) && SpellsLookup(c, lookup)
  {
    var pod := (item: Item) => (p: Pod) =>
      if Picks(item, p) then [MakeEndpoint(c, item, false, p.nodeName, p.podIP, PodMetadata(p))] else [];
    var address := (item: Item) => (isCanary: bool) => (a: Address) => AddressLocality(c, item, isCanary, a);
    var lookup := (name: string) => if c.endpoints.Success? then FirstAdmitted(name, c.endpoints.value) else None;
    hide MakeEndpoint, AddressLocality, FirstAdmitted, IsPodEndpoint, IsAddressEndpoint, IsFound, Picks, PodMetadata;
    forall item: Item, p: Pod | Picks(item, p) ensures IsPodEndpoint(c, item, p, pod(item)(p)[0]) {
      PodEndpointMeans(c, item, p, pod(item)(p)[0]);
    }
    forall item: Item, isCanary: bool, a: Address ensures IsAddressEndpoint(c, item, isCanary, a, address(item)(isCanary)(a)) {
      AddressEndpointMeans(c, item, isCanary, a, address(item)(isCanary)(a));
    }
    if c.endpoints.Success? {
      forall name: string ensures IsFound(name, c.endpoints.value, lookup(name)) {
        FoundIff(name, c.endpoints.value, lookup(name));
      }
    }
    assert SpellsPods(c, pod) && SpellsAddresses(c, address) && SpellsLookup(c, lookup);
  }

  lemma WantedSingles(c: Cluster, items: seq<Item>, cluster: string, loc: Locality)
    requires loc in Wanted(c, items, cluster)
    ensures |loc.lbEndpoints| == 1
  {
    WantedMade(c, items, cluster, loc);
  }

  /** Endpoints carry the canary flag only where there is an object of the service's own name, and
      the canary object's annotation enables it. */
  lemma CanaryGate(c: Cluster, items: seq<Item>, cluster: string, loc: Locality)
    requires loc in Wanted(c, items, cluster)
    requires |loc.lbEndpoints| == 1 && "canary" in loc.lbEndpoints[0].metadata && loc.lbEndpoints[0].metadata["canary"] == Flag(true)
    ensures exists i, main, e ::
      && 0 <= i < |items| && items[i].clusterName == cluster && c.endpoints.Success?
      && main in c.endpoints.value && main.name == items[i].service
      && e in c.endpoints.value && e.name == items[i].service + "-canary"
      && "envoy-control-plane/canary.enabled" in e.annotations && e.annotations["envoy-control-plane/canary.enabled"] == "true"
  {
    hide Wanted, InZone, IsEndpoint, Picks, IsFound, FromPod, FromService;
    WantedMembers(c, items, cluster, loc);
    if FromPod(c, items, cluster, loc) || FromService(c, items, cluster, false, loc) {
      MainsNotFlagged(c, items, cluster, loc);
    }
    assert FromService(c, items, cluster, true, loc);
    var i, main, e := CanaryOffered(c, items, cluster, loc);
    FoundMeans(items[i].service, c.endpoints.value, main);
    FoundMeans(items[i].service + "-canary", c.endpoints.value, e);
    assert IsCanaryName(items[i].service + "-canary");
  }

  lemma MainsNotFlagged(c: Cluster, items: seq<Item>, cluster: string, loc: Locality)
    requires FromPod(c, items, cluster, loc) || FromService(c, items, cluster, false, loc)
    ensures |loc.lbEndpoints| == 1 && "canary" in loc.lbEndpoints[0].metadata && loc.lbEndpoints[0].metadata["canary"] == Flag(false)
  {
    hide InZone, Picks, Offers;
  }

  lemma CanaryOffered(c: Cluster, items: seq<Item>, cluster: string, loc: Locality) returns (i: nat, main: EndpointsObject, e: EndpointsObject)
    requires FromService(c, items, cluster, true, loc)
    ensures i < |items| && items[i].clusterName == cluster && c.endpoints.Success?
    ensures IsFound(items[i].service, c.endpoints.value, Some(main))
    ensures IsFound(items[i].service + "-canary", c.endpoints.value, Some(e))
  {
    hide IsFound, IsAddressEndpoint;
    var j, a :| 0 <= j < |items| && items[j].clusterName == cluster
      && Offers(c, items[j], true, a) && IsAddressEndpoint(c, items[j], true, a, loc);
    i := j;
    var m, f, subset :|
      && IsFound(items[i].service, c.endpoints.value, Some(m))
      && IsFound(items[i].service + "-canary", c.endpoints.value, Some(f))
      && subset in f.subsets && a in subset;
    main, e := m, f;
  }

  lemma FoundMeans(name: string, eps: seq<EndpointsObject>, e: EndpointsObject)
    requires IsFound(name, eps, Some(e))
    ensures e in eps && e.name == name && (IsCanaryName(name) ==> CanaryEnabled(e))
  {
  }

  // ----- lister order

  /** The same listers, answering in another order. */
  ghost predicate Reordered(c: Cluster, d: Cluster) {
    && d == c.(pods := d.pods, endpoints := d.endpoints)
    && c.pods.Success? && d.pods.Success? && multiset(c.pods.value) == multiset(d.pods.value)
    && c.endpoints.Success? && d.endpoints.Success? && multiset(c.endpoints.value) == multiset(d.endpoints.value)
  }

  /** No item's service, nor its canary, is found under the same name in two objects. */
  ghost predicate Unambiguous(c: Cluster, items: seq<Item>) {
    c.endpoints.Success? && forall i :: 0 <= i < |items| ==>
      OneMatch(items[i].service, c.endpoints.value) && OneMatch(items[i].service + CANARY_SUFFIX, c.endpoints.value)
  }

  lemma SameMake(c: Cluster, d: Cluster)
    requires d == c.(pods := d.pods, endpoints := d.endpoints)
    ensures forall item, isCanary, node, address, metadata ::
      MakeEndpoint(d, item, isCanary, node, address, metadata) == MakeEndpoint(c, item, isCanary, node, address, metadata)
    ensures forall a :: AddressMetadata(d, a) == AddressMetadata(c, a)
  {
  }

  lemma SelectorReordered(c: Cluster, d: Cluster, item: Item, cluster: string)
    requires Reordered(c, d)
    ensures multiset(BySelector(c, cluster)(item)) == multiset(BySelector(d, cluster)(item))
  {
    if item.clusterName == cluster && item.selector.Some? {
      var sel := Selected(item.selector.value);
      var pc, pd := FlatMap(sel, c.pods.value), FlatMap(sel, d.pods.value);
      FlatMapPermutation(sel, c.pods.value, d.pods.value);
      FlatMapPermutation(PodEndpoint(c, item), pc, pd);
      SameMake(c, d);
      forall i | 0 <= i < |pd| ensures multiset(PodEndpoint(c, item)(pd[i])) == multiset(PodEndpoint(d, item)(pd[i])) {
      }
      FlatMapSimilar(PodEndpoint(c, item), PodEndpoint(d, item), pd);
    }
  }

  lemma ObjectReordered(c: Cluster, d: Cluster, item: Item, isCanary: bool, e: Option<EndpointsObject>)
    requires Reordered(c, d)
    ensures multiset(ObjectEndpoints(c, item, isCanary, e)) == multiset(ObjectEndpoints(d, item, isCanary, e))
  {
    if e.Some? {
      SameMake(c, d);
      var f, g := SubsetEndpoints(c, item, isCanary), SubsetEndpoints(d, item, isCanary);
      forall i | 0 <= i < |e.value.subsets| ensures multiset(f(e.value.subsets[i])) == multiset(g(e.value.subsets[i])) {
        var s := e.value.subsets[i];
        forall j | 0 <= j < |s|
          ensures multiset(AddressEndpoint(c, item, isCanary)(s[j])) == multiset(AddressEndpoint(d, item, isCanary)(s[j]))
        {
        }
        FlatMapSimilar(AddressEndpoint(c, item, isCanary), AddressEndpoint(d, item, isCanary), s);
      }
      FlatMapSimilar(f, g, e.value.subsets);
    }
  }

  lemma ServiceReordered(c: Cluster, d: Cluster, item: Item, cluster: string)
    requires Reordered(c, d)
    requires OneMatch(item.service, c.endpoints.value) && OneMatch(item.service + CANARY_SUFFIX, c.endpoints.value)
    ensures multiset(ByService(c, cluster)(item)) == multiset(ByService(d, cluster)(item))
  {
    OneMatchAnyOrder(item.service, c.endpoints.value, d.endpoints.value);
    OneMatchAnyOrder(item.service + CANARY_SUFFIX, c.endpoints.value, d.endpoints.value);
    ObjectReordered(c, d, item, false, FirstAdmitted(item.service, c.endpoints.value));
    ObjectReordered(c, d, item, true, FirstAdmitted(item.service + CANARY_SUFFIX, c.endpoints.value));
  }

  /** With unambiguous service names, lister order does not show in a cluster's endpoints,
      counted with repetition. */
  lemma WantedReordered(c: Cluster, d: Cluster, items: seq<Item>, k: string)
    requires Reordered(c, d) && Unambiguous(c, items)
    ensures multiset(Wanted(c, items, k)) == multiset(Wanted(d, items, k))
  {
    hide BySelector, ByService, FlatMap, Reordered;
    forall i | 0 <= i < |items|
      ensures multiset(BySelector(c, k)(items[i])) == multiset(BySelector(d, k)(items[i]))
      ensures multiset(ByService(c, k)(items[i])) == multiset(ByService(d, k)(items[i]))
    {
      SelectorReordered(c, d, items[i], k);
      ServiceReordered(c, d, items[i], k);
    }
    FlatMapSimilar(BySelector(c, k), BySelector(d, k), items);
    FlatMapSimilar(ByService(c, k), ByService(d, k), items);
  }

  /** So it shows neither there nor in the fingerprint that a save computes. */
  lemma ListerOrderHidden(c: Cluster, d: Cluster, items: seq<Item>, statics: LbMap,
                          dynC: LbMap, epsC: seq<ClusterLoad>, dynD: LbMap, epsD: seq<ClusterLoad>)
    requires Reordered(c, d) && Unambiguous(c, items)
    requires forall k :: At(dynC, k) == Wanted(c, items, k)
    requires forall k :: At(dynD, k) == Wanted(d, items, k)
    requires IsPublication(Merge(statics, dynC), epsC) && IsPublication(Merge(statics, dynD), epsD)
    ensures forall k :: multiset(Wanted(c, items, k)) == multiset(Wanted(d, items, k))
    ensures Fingerprint(epsC) == Fingerprint(epsD)
  {
    hide Reordered, Unambiguous, Wanted, Merge, At, IsPublication;
    forall k ensures multiset(Wanted(c, items, k)) == multiset(Wanted(d, items, k)) {
      WantedReordered(c, d, items, k);
    }
    forall k ensures multiset(At(Merge(statics, dynC), k)) == multiset(At(Merge(statics, dynD), k)) {
      MergedAt(statics, dynC, k);
      MergedAt(statics, dynD, k);
      assert multiset(Wanted(c, items, k)) == multiset(Wanted(d, items, k));
    }
    FingerprintCanonical(Merge(statics, dynC), epsC, Merge(statics, dynD), epsD);
  }

  /** An endpoint's zone is that of a node. */
  lemma WantedZone(c: Cluster, items: seq<Item>, cluster: string, loc: Locality)
    requires loc in Wanted(c, items, cluster)
    ensures exists node :: loc.zone == ZoneOf(c, node)
  {
    hide Wanted, ZoneOf, IsReady, PodMetadata, AddressMetadata, FirstAdmitted;
    WantedMade(c, items, cluster, loc);
  }
}
