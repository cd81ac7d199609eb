// Cluster weights set by ConfigMap annotations: the rewrite of weighted routes,
// in route configurations and in the routes inside listeners.
module Weights {
  import opened Integers
  import opened Text
  import opened Wrappers

  const WEIGHT_PREFIX := "envoy-control-plane/routes.cluster.weight."
  const HTTP_CONNECTION_MANAGER := "envoy.filters.network.http_connection_manager"

  type Annotations = map<string, string>

  // ----- annotation values

  /** strconv.ParseUint(s, 10, 64). */
  function ParseUint(s: string): Option<uint64> {
    if s != "" && AllDigits(s) && Value(s) < TWO_TO_THE_64 then Some(Value(s)) else None
  }

  /** Exactly the numerals of 64-bit numbers parse, with any leading zeros. */
  lemma ParseUintIff(s: string, n: nat)
    ensures ParseUint(s) == Some(n) <==> n < 0x1_0000_0000_0000_0000 && exists zeros :: Zeros(zeros) && s == zeros + Decimal(n)
  {
    if zeros :| Zeros(zeros) && s == zeros + Decimal(n) {
      LeadingZeros(zeros, Decimal(n));
      DecimalRoundTrip(n);
    }
    if ParseUint(s) == Some(n) {
      var zeros := DecimalOfValue(s);
    }
  }

  /** int64(i) of an unsigned 64-bit i. */
  function ToInt64(i: uint64): int64 {
    if i < TWO_TO_THE_63 then i else i - TWO_TO_THE_64
  }

  /** uint32(v) of a signed 64-bit v. */
  function ToUint32(v: int64): uint32 {
    v % TWO_TO_THE_32
  }

  /** The two casts together keep the value modulo 2^32. */
  lemma CastsKeepLowBits(i: uint64)
    ensures ToUint32(ToInt64(i)) == i % TWO_TO_THE_32
  {
    if i >= TWO_TO_THE_63 {
      assert i - TWO_TO_THE_64 == i + TWO_TO_THE_32 * (-TWO_TO_THE_32);
      ModShift(i, -TWO_TO_THE_32);
    }
  }

  lemma ModShift(x: int, k: int)
    ensures (x + TWO_TO_THE_32 * k) % TWO_TO_THE_32 == x % TWO_TO_THE_32
  {
    var q, r := x / TWO_TO_THE_32, x % TWO_TO_THE_32;
    assert x + TWO_TO_THE_32 * k == TWO_TO_THE_32 * (q + k) + r;
  }

  function GetClusterWeight(annotations: Annotations, name: string): Result<Option<int64>> {
    var key := WEIGHT_PREFIX + name;
    if key !in annotations then Success(None)
    else match ParseUint(annotations[key])
      case None => Failure
      case Some(i) => Success(Some(ToInt64(i)))
  }

  ghost predicate HasWeights(annotations: Annotations) {
    exists key :: key in annotations && "envoy-control-plane/routes.cluster.weight." <= key
  }

  method HasClusterWeights(annotations: Annotations) returns (has: bool)
    ensures has <==> HasWeights(annotations)
  {
    var keys := annotations.Keys;
    while keys != {}
      invariant keys <= annotations.Keys
      invariant forall key :: key in annotations && key !in keys ==> !(WEIGHT_PREFIX <= key)
      decreases |keys|
    {
      var key :| key in keys;
      if WEIGHT_PREFIX <= key {
        return true;
      }
      keys := keys - {key};
    }
    return false;
  }

  // ----- rewriting a list up to its first failure

  /** How many leading elements the step succeeds on. */
  function Good<T>(f: T -> (T, bool), s: seq<T>): (n: nat)
    ensures n <= |s|
    ensures forall i :: 0 <= i < n ==> f(s[i]).1
    ensures n < |s| ==> !f(s[n]).1
  {
    if s == [] || !f(s[0]).1 then 0 else 1 + Good(f, s[1..])
  }

  /** The list with the step applied in place, in order, up to and including the first failure. */
  function Traverse<T>(f: T -> (T, bool), s: seq<T>): (r: (seq<T>, bool))
    ensures |r.0| == |s|
    ensures r.1 <==> forall i :: 0 <= i < |s| ==> f(s[i]).1
    ensures r.1 ==> forall i :: 0 <= i < |s| ==> r.0[i] == f(s[i]).0
  {
    var n := Good(f, s);
    (seq(|s|, i requires 0 <= i < |s| => if i <= n then f(s[i]).0 else s[i]), n == |s|)
  }

  lemma GoodIs<T>(f: T -> (T, bool), s: seq<T>, n: nat)
    requires n <= |s| && forall i :: 0 <= i < n ==> f(s[i]).1
    requires n < |s| ==> !f(s[n]).1
    ensures Good(f, s) == n
  {
  }

  /** Elements up to the first failure are stepped, and that one too as far as its step got; the
      others are untouched. */
  lemma TraverseStops<T>(f: T -> (T, bool), s: seq<T>, i: nat)
    requires i < |s|
    ensures Traverse(f, s).0[i] == if forall j :: 0 <= j < i ==> f(s[j]).1 then f(s[i]).0 else s[i]
  {
    if !(forall j :: 0 <= j < i ==> f(s[j]).1) {
      var j :| 0 <= j < i && !f(s[j]).1;
    }
  }

  /** A step that leaves every element alone leaves the list alone. */
  lemma TraverseIdentity<T>(f: T -> (T, bool), s: seq<T>)
    requires forall i :: 0 <= i < |s| ==> f(s[i]) == (s[i], true)
    ensures Traverse(f, s) == (s, true)
  {
    assert Traverse(f, s).0 == s;
  }

  // ----- the messages

  /** `rest` stands for the fields the rewrite does not look at. */
  datatype WeightedCluster = WeightedCluster(name: string, weight: Option<uint32>, rest: string)

  datatype Route = Route(rest: string, weighted: Option<seq<WeightedCluster>>)

  datatype VirtualHost = VirtualHost(rest: string, routes: seq<Route>)

  type Hosts = seq<VirtualHost>

  /** What a filter's packed configuration holds; only a connection manager's unpacks as one. */
  datatype TypedConfig = Manager(rest: string, routeConfig: Option<Hosts>) | Packed(bytes: string)

  datatype Filter = Filter(name: string, typedConfig: TypedConfig)

  type Chain = seq<Filter>

  /** A missing weight reads as zero. */
  function Reading(c: WeightedCluster): uint32 {
    if c.weight.Some? then c.weight.value else 0
  }

  // ----- the rewrite on values

  function StepCluster(annotations: Annotations, c: WeightedCluster): (WeightedCluster, bool) {
    match GetClusterWeight(annotations, c.name)
    case Failure => (c, false)
    case Success(None) => (c, true)
    case Success(Some(v)) => (if Reading(c) != ToUint32(v) then c.(weight := Some(ToUint32(v))) else c, true)
  }

  function OnCluster(annotations: Annotations): WeightedCluster -> (WeightedCluster, bool) {
    c => StepCluster(annotations, c)
  }

  function StepRoute(annotations: Annotations, r: Route): (Route, bool) {
    match r.weighted
    case None => (r, true)
    case Some(cs) => var (cs', ok) := Traverse(OnCluster(annotations), cs); (r.(weighted := Some(cs')), ok)
  }

  function OnRoute(annotations: Annotations): Route -> (Route, bool) {
    r => StepRoute(annotations, r)
  }

  function StepHost(annotations: Annotations, h: VirtualHost): (VirtualHost, bool) {
    var (routes, ok) := Traverse(OnRoute(annotations), h.routes);
    (h.(routes := routes), ok)
  }

  function OnHost(annotations: Annotations): VirtualHost -> (VirtualHost, bool) {
    h => StepHost(annotations, h)
  }

  function StepHosts(annotations: Annotations, hosts: Hosts): (Hosts, bool) {
    Traverse(OnHost(annotations), hosts)
  }

  function OnHosts(annotations: Annotations): Hosts -> (Hosts, bool) {
    hosts => StepHosts(annotations, hosts)
  }

  /** A filter's configuration is packed again only when its routes were rewritten without error. */
  function StepFilter(annotations: Annotations, f: Filter): (Filter, bool) {
    if f.name != HTTP_CONNECTION_MANAGER then (f, true)
    else match f.typedConfig
      case Packed(_) => (f, false)
      case Manager(_, None) => (f, true)
      case Manager(rest, Some(hosts)) =>
        var (hosts', ok) := StepHosts(annotations, hosts);
        if ok then (f.(typedConfig := Manager(rest, Some(hosts'))), true) else (f, false)
  }

  function OnFilter(annotations: Annotations): Filter -> (Filter, bool) {
    f => StepFilter(annotations, f)
  }

  function OnChain(annotations: Annotations): Chain -> (Chain, bool) {
    chain => Traverse(OnFilter(annotations), chain)
  }

  // ----- what the rewrite means

  /** The annotation for this cluster, if there is one, is a number. */
  predicate Parses(annotations: Annotations, name: string) {
    var key := "envoy-control-plane/routes.cluster.weight." + name;
    key in annotations ==> ParseUint(annotations[key]).Some?
  }

  /** An annotated cluster reads back as its annotation modulo 2^32; nothing else of it changes,
      and a cluster without annotation is untouched. */
  ghost predicate Reweighted(annotations: Annotations, before: WeightedCluster, after: WeightedCluster) {
    var key := "envoy-control-plane/routes.cluster.weight." + before.name;
    && after.name == before.name && after.rest == before.rest
    && (key !in annotations ==> after == before)
    && (key in annotations ==>
          && ParseUint(annotations[key]).Some?
          && Reading(after) == ParseUint(annotations[key]).value % TWO_TO_THE_32
          && (Reading(before) == Reading(after) ==> after == before))
  }

  ghost predicate RouteReweighted(annotations: Annotations, before: Route, after: Route) {
    && after.rest == before.rest && (after.weighted.Some? <==> before.weighted.Some?)
    && (before.weighted.Some? ==>
          && |after.weighted.value| == |before.weighted.value|
          && forall k :: 0 <= k < |before.weighted.value| ==> Reweighted(annotations, before.weighted.value[k], after.weighted.value[k]))
  }

  ghost predicate HostReweighted(annotations: Annotations, before: VirtualHost, after: VirtualHost) {
    && after.rest == before.rest && |after.routes| == |before.routes|
    && forall j :: 0 <= j < |before.routes| ==> RouteReweighted(annotations, before.routes[j], after.routes[j])
  }

  predicate RouteParses(annotations: Annotations, r: Route) {
    r.weighted.Some? ==> forall k :: 0 <= k < |r.weighted.value| ==> Parses(annotations, r.weighted.value[k].name)
  }

  predicate HostParses(annotations: Annotations, h: VirtualHost) {
    forall j :: 0 <= j < |h.routes| ==> RouteParses(annotations, h.routes[j])
  }

  lemma ClusterStepMeans(annotations: Annotations, c: WeightedCluster)
    ensures StepCluster(annotations, c).1 <==> Parses(annotations, c.name)
    ensures StepCluster(annotations, c).1 ==> Reweighted(annotations, c, StepCluster(annotations, c).0)
  {
    var key := WEIGHT_PREFIX + c.name;
    if key in annotations && ParseUint(annotations[key]).Some? {
      CastsKeepLowBits(ParseUint(annotations[key]).value);
    }
  }

  lemma RouteStepMeans(annotations: Annotations, r: Route)
    ensures StepRoute(annotations, r).1 <==> RouteParses(annotations, r)
    ensures StepRoute(annotations, r).1 ==> RouteReweighted(annotations, r, StepRoute(annotations, r).0)
  {
    if r.weighted.Some? {
      var cs := r.weighted.value;
      forall k | 0 <= k < |cs|
        ensures OnCluster(annotations)(cs[k]).1 <==> Parses(annotations, cs[k].name)
        ensures OnCluster(annotations)(cs[k]).1 ==> Reweighted(annotations, cs[k], OnCluster(annotations)(cs[k]).0)
      {
        ClusterStepMeans(annotations, cs[k]);
      }
    }
  }

  lemma HostStepMeans(annotations: Annotations, h: VirtualHost)
    ensures StepHost(annotations, h).1 <==> HostParses(annotations, h)
    ensures StepHost(annotations, h).1 ==> HostReweighted(annotations, h, StepHost(annotations, h).0)
  {
    forall j | 0 <= j < |h.routes|
      ensures OnRoute(annotations)(h.routes[j]).1 <==> RouteParses(annotations, h.routes[j])
      ensures OnRoute(annotations)(h.routes[j]).1 ==> RouteReweighted(annotations, h.routes[j], OnRoute(annotations)(h.routes[j]).0)
    {
      RouteStepMeans(annotations, h.routes[j]);
    }
  }

  /** The rewrite succeeds exactly when every annotation that some weighted cluster uses is a
      number, and then every cluster of every route of every host has the weight it should. */
  lemma RewriteMeans(annotations: Annotations, hosts: Hosts)
    ensures
      var (after, ok) := StepHosts(annotations, hosts);
      && (ok <==> forall i :: 0 <= i < |hosts| ==> HostParses(annotations, hosts[i]))
      && |after| == |hosts|
      && (ok ==> forall i :: 0 <= i < |hosts| ==> HostReweighted(annotations, hosts[i], after[i]))
  {
    forall i | 0 <= i < |hosts|
      ensures OnHost(annotations)(hosts[i]).1 <==> HostParses(annotations, hosts[i])
      ensures OnHost(annotations)(hosts[i]).1 ==> HostReweighted(annotations, hosts[i], OnHost(annotations)(hosts[i]).0)
    {
      HostStepMeans(annotations, hosts[i]);
    }
  }

  // ----- a second run changes nothing

  lemma SecondCluster(annotations: Annotations, before: WeightedCluster, c: WeightedCluster)
    requires Reweighted(annotations, before, c)
    ensures StepCluster(annotations, c) == (c, true)
  {
    var key := WEIGHT_PREFIX + c.name;
    if key in annotations {
      CastsKeepLowBits(ParseUint(annotations[key]).value);
    }
  }

  lemma SecondRoute(annotations: Annotations, before: Route, r: Route)
    requires RouteReweighted(annotations, before, r)
    ensures StepRoute(annotations, r) == (r, true)
  {
    if r.weighted.Some? {
      var cs := r.weighted.value;
      forall k | 0 <= k < |cs| ensures OnCluster(annotations)(cs[k]) == (cs[k], true) {
        SecondCluster(annotations, before.weighted.value[k], cs[k]);
      }
      TraverseIdentity(OnCluster(annotations), cs);
    }
  }

  lemma SecondHost(annotations: Annotations, before: VirtualHost, h: VirtualHost)
    requires HostReweighted(annotations, before, h)
    ensures StepHost(annotations, h) == (h, true)
  {
    forall j | 0 <= j < |h.routes| ensures OnRoute(annotations)(h.routes[j]) == (h.routes[j], true) {
      SecondRoute(annotations, before.routes[j], h.routes[j]);
    }
    TraverseIdentity(OnRoute(annotations), h.routes);
  }

  /** A second run over a route configuration changes nothing. */
  lemma SecondRunIsNoOp(annotations: Annotations, hosts: Hosts)
    requires StepHosts(annotations, hosts).1
    ensures StepHosts(annotations, StepHosts(annotations, hosts).0) == (StepHosts(annotations, hosts).0, true)
  {
    RewriteMeans(annotations, hosts);
    var after := StepHosts(annotations, hosts).0;
    forall i | 0 <= i < |after| ensures OnHost(annotations)(after[i]) == (after[i], true) {
      SecondHost(annotations, hosts[i], after[i]);
    }
    TraverseIdentity(OnHost(annotations), after);
  }

  // ----- the same inside listeners

  predicate Unpacks(f: Filter) {
    f.name == "envoy.filters.network.http_connection_manager" ==> f.typedConfig.Manager?
  }

  /** The routes a filter holds: those of a connection manager that unpacks. */
  function RoutesIn(f: Filter): Hosts {
    if f.name == "envoy.filters.network.http_connection_manager" && f.typedConfig.Manager? && f.typedConfig.routeConfig.Some?
    then f.typedConfig.routeConfig.value else []
  }

  predicate HostsParse(annotations: Annotations, hosts: Hosts) {
    forall i :: 0 <= i < |hosts| ==> HostParses(annotations, hosts[i])
  }

  ghost predicate HostsReweighted(annotations: Annotations, before: Hosts, after: Hosts) {
    |after| == |before| && forall i :: 0 <= i < |before| ==> HostReweighted(annotations, before[i], after[i])
  }

  /** Only the routes inside a connection manager may differ, and they have the weights they should. */
  ghost predicate FilterReweighted(annotations: Annotations, before: Filter, after: Filter) {
    && HostsReweighted(annotations, RoutesIn(before), RoutesIn(after))
    && (after != before ==>
          && before.name == HTTP_CONNECTION_MANAGER && before.typedConfig.Manager? && before.typedConfig.routeConfig.Some?
          && after == before.(typedConfig := Manager(before.typedConfig.rest, Some(RoutesIn(after)))))
  }

  predicate ListenerParses(annotations: Annotations, chains: seq<Chain>) {
    forall c, i :: 0 <= c < |chains| && 0 <= i < |chains[c]| ==>
      Unpacks(chains[c][i]) && HostsParse(annotations, RoutesIn(chains[c][i]))
  }

  ghost predicate ListenerReweighted(annotations: Annotations, before: seq<Chain>, after: seq<Chain>) {
    && |after| == |before|
    && (forall c :: 0 <= c < |before| ==> |after[c]| == |before[c]|)
    && forall c, i :: 0 <= c < |before| && 0 <= i < |before[c]| ==> FilterReweighted(annotations, before[c][i], after[c][i])
  }

  lemma FilterStepMeans(annotations: Annotations, f: Filter)
    ensures StepFilter(annotations, f).1 <==> Unpacks(f) && HostsParse(annotations, RoutesIn(f))
    ensures StepFilter(annotations, f).1 ==> FilterReweighted(annotations, f, StepFilter(annotations, f).0)
  {
    hide StepHosts, HostParses, HostReweighted;
    RewriteMeans(annotations, RoutesIn(f));
  }

  lemma ChainStepMeans(annotations: Annotations, chain: Chain)
    ensures OnChain(annotations)(chain).1 <==>
      forall i :: 0 <= i < |chain| ==> Unpacks(chain[i]) && HostsParse(annotations, RoutesIn(chain[i]))
    ensures |OnChain(annotations)(chain).0| == |chain|
    ensures OnChain(annotations)(chain).1 ==>
      forall i :: 0 <= i < |chain| ==> FilterReweighted(annotations, chain[i], OnChain(annotations)(chain).0[i])
  {
    hide StepFilter, HostsParse, FilterReweighted, Unpacks;
    forall i | 0 <= i < |chain|
      ensures OnFilter(annotations)(chain[i]).1 <==> Unpacks(chain[i]) && HostsParse(annotations, RoutesIn(chain[i]))
      ensures OnFilter(annotations)(chain[i]).1 ==> FilterReweighted(annotations, chain[i], OnFilter(annotations)(chain[i]).0)
    {
      FilterStepMeans(annotations, chain[i]);
    }
  }

  /** Rewriting a listener succeeds exactly when every connection manager in it unpacks and every
      annotation used there is a number. Then every cluster of its routes has the weight it
      should, and no other filter has changed. */
  lemma ListenerMeans(annotations: Annotations, chains: seq<Chain>)
    ensures
      var (after, ok) := Traverse(OnChain(annotations), chains);
      && (ok <==> ListenerParses(annotations, chains))
      && (ok ==> ListenerReweighted(annotations, chains, after))
  {
    hide OnChain, HostsParse, FilterReweighted, Unpacks;
    forall c | 0 <= c < |chains|
      ensures OnChain(annotations)(chains[c]).1 <==>
        forall i :: 0 <= i < |chains[c]| ==> Unpacks(chains[c][i]) && HostsParse(annotations, RoutesIn(chains[c][i]))
      ensures |OnChain(annotations)(chains[c]).0| == |chains[c]|
      ensures OnChain(annotations)(chains[c]).1 ==>
        forall i :: 0 <= i < |chains[c]| ==> FilterReweighted(annotations, chains[c][i], OnChain(annotations)(chains[c]).0[i])
    {
      ChainStepMeans(annotations, chains[c]);
    }
  }

  lemma SecondHosts(annotations: Annotations, before: Hosts, hosts: Hosts)
    requires HostsReweighted(annotations, before, hosts)
    ensures StepHosts(annotations, hosts) == (hosts, true)
  {
    forall i | 0 <= i < |hosts| ensures OnHost(annotations)(hosts[i]) == (hosts[i], true) {
      SecondHost(annotations, before[i], hosts[i]);
    }
    TraverseIdentity(OnHost(annotations), hosts);
  }

  lemma SecondFilter(annotations: Annotations, before: Filter, f: Filter)
    requires FilterReweighted(annotations, before, f) && Unpacks(before)
    ensures StepFilter(annotations, f) == (f, true)
  {
    hide StepHosts, HostsReweighted;
    SecondHosts(annotations, RoutesIn(before), RoutesIn(f));
  }

  lemma SecondListener(annotations: Annotations, before: seq<Chain>, chains: seq<Chain>)
    requires ListenerReweighted(annotations, before, chains) && ListenerParses(annotations, before)
    ensures Traverse(OnChain(annotations), chains) == (chains, true)
  {
    hide StepFilter, FilterReweighted, Unpacks, HostsParse, Traverse;
    forall c | 0 <= c < |chains| ensures OnChain(annotations)(chains[c]) == (chains[c], true) {
      forall i | 0 <= i < |chains[c]| ensures OnFilter(annotations)(chains[c][i]) == (chains[c][i], true) {
        SecondFilter(annotations, before[c][i], chains[c][i]);
      }
      TraverseIdentity(OnFilter(annotations), chains[c]);
    }
    TraverseIdentity(OnChain(annotations), chains);
  }

  /** A second run over a listener changes nothing. */
  lemma SecondListenerRunIsNoOp(annotations: Annotations, chains: seq<Chain>)
    requires Traverse(OnChain(annotations), chains).1
    ensures Traverse(OnChain(annotations), Traverse(OnChain(annotations), chains).0) == (Traverse(OnChain(annotations), chains).0, true)
  {
    hide Traverse, OnChain, ListenerParses, ListenerReweighted;
    ListenerMeans(annotations, chains);
    SecondListener(annotations, chains, Traverse(OnChain(annotations), chains).0);
  }

  // ----- the guard

  lemma NoWeights(annotations: Annotations, name: string)
    requires !HasWeights(annotations)
    ensures WEIGHT_PREFIX + name !in annotations
  {
    assert WEIGHT_PREFIX <= WEIGHT_PREFIX + name;
  }

  lemma UnweightedHost(annotations: Annotations, h: VirtualHost)
    requires !HasWeights(annotations)
    ensures HostReweighted(annotations, h, h)
  {
    forall name ensures WEIGHT_PREFIX + name !in annotations {
      NoWeights(annotations, name);
    }
  }

  /** Without a weight annotation the rewrite would change nothing and could not fail. */
  lemma GuardSoundForRoutes(annotations: Annotations, hosts: Hosts)
    requires !HasWeights(annotations)
    ensures StepHosts(annotations, hosts) == (hosts, true)
  {
    forall i | 0 <= i < |hosts| ensures OnHost(annotations)(hosts[i]) == (hosts[i], true) {
      UnweightedHost(annotations, hosts[i]);
      SecondHost(annotations, hosts[i], hosts[i]);
    }
    TraverseIdentity(OnHost(annotations), hosts);
  }

  /** In listeners the same holds, except that the rewrite would notice a connection manager
      whose configuration does not unpack: it changes nothing, and succeeds exactly when all do. */
  lemma GuardSoundForListeners(annotations: Annotations, chain: Chain)
    requires !HasWeights(annotations)
    ensures Traverse(OnFilter(annotations), chain).0 == chain
    ensures Traverse(OnFilter(annotations), chain).1 <==> forall i :: 0 <= i < |chain| ==> Unpacks(chain[i])
  {
    forall i | 0 <= i < |chain| ensures OnFilter(annotations)(chain[i]) == (chain[i], Unpacks(chain[i])) {
      var f := chain[i];
      if f.typedConfig.Manager? && f.typedConfig.routeConfig.Some? {
        GuardSoundForRoutes(annotations, f.typedConfig.routeConfig.value);
      }
    }
  }

  // ----- in place

  /** The first i elements are stepped, all with success, and the others are as they were. */
  ghost predicate Stepped<T(!new)>(f: T -> (T, bool), s: seq<T>, cur: seq<T>, i: nat) {
    && |cur| == |s| && i <= |s|
    && (forall k :: 0 <= k < i ==> f(s[k]).1 && cur[k] == f(s[k]).0)
    && (forall k :: i <= k < |s| ==> cur[k] == s[k])
  }

  lemma SteppedAll<T(!new)>(f: T -> (T, bool), s: seq<T>, cur: seq<T>)
    requires Stepped(f, s, cur, |s|)
    ensures (cur, true) == Traverse(f, s)
  {
    assert cur == Traverse(f, s).0;
  }

  lemma SteppedTo<T(!new)>(f: T -> (T, bool), s: seq<T>, cur: seq<T>, i: nat)
    requires i < |s| && Stepped(f, s, cur, i) && !f(s[i]).1
    ensures (cur[i := f(s[i]).0], false) == Traverse(f, s)
  {
    GoodIs(f, s, i);
    assert cur[i := f(s[i]).0] == Traverse(f, s).0;
  }

  class RouteConfiguration {
    var virtualHosts: Hosts

    constructor (hosts: Hosts)
      ensures virtualHosts == hosts
    {
      virtualHosts := hosts;
    }

    function SetRoute(hosts: Hosts, i: nat, j: nat, r: Route): Hosts
      requires i < |hosts| && j < |hosts[i].routes|
    {
      hosts[i := hosts[i].(routes := hosts[i].routes[j := r])]
    }

    lemma SetTwice(hosts: Hosts, i: nat, j: nat, r: Route, r': Route)
      requires i < |hosts| && j < |hosts[i].routes|
      ensures SetRoute(SetRoute(hosts, i, j, r), i, j, r') == SetRoute(hosts, i, j, r')
    {
      assert hosts[i].routes[j := r][j := r'] == hosts[i].routes[j := r'];
    }

    method MutateRoute(annotations: Annotations, i: nat, j: nat) returns (ok: bool)
      requires i < |virtualHosts| && j < |virtualHosts[i].routes|
      modifies this
      ensures var (r, good) := StepRoute(annotations, old(virtualHosts[i].routes[j]));
        ok == good && virtualHosts == SetRoute(old(virtualHosts), i, j, r)
    {
      ghost var was := virtualHosts;
      var route := virtualHosts[i].routes[j];
      if route.weighted.None? {
        assert SetRoute(was, i, j, route) == was by {
          assert was[i].routes[j := route] == was[i].routes;
        }
        return true;
      }
      var cs := route.weighted.value;
      ghost var original := cs;
      ghost var f := OnCluster(annotations);
      var k := 0;
      assert SetRoute(was, i, j, route) == was by {
        assert was[i].routes[j := route] == was[i].routes;
      }
      while k < |cs|
        invariant 0 <= k <= |cs| && Stepped(f, original, cs, k)
        invariant virtualHosts == SetRoute(was, i, j, route.(weighted := Some(cs)))
      {
        var weight := GetClusterWeight(annotations, cs[k].name);
        if weight.Failure? {
          SteppedTo(f, original, cs, k);
          assert cs[k := f(original[k]).0] == cs;
          return false;
        }
        if weight.value.Some? && Reading(cs[k]) != ToUint32(weight.value.value) {
          ghost var before := cs;
          cs := cs[k := cs[k].(weight := Some(ToUint32(weight.value.value)))];
          SetTwice(was, i, j, route.(weighted := Some(before)), route.(weighted := Some(cs)));
          virtualHosts := SetRoute(virtualHosts, i, j, virtualHosts[i].routes[j].(weighted := Some(cs)));
        }
        k := k + 1;
      }
      SteppedAll(f, original, cs);
      return true;
    }

    method MutateHost(annotations: Annotations, i: nat) returns (ok: bool)
      requires i < |virtualHosts|
      modifies this
      ensures var (h, good) := StepHost(annotations, old(virtualHosts[i]));
        ok == good && virtualHosts == old(virtualHosts)[i := h]
    {
      ghost var was := virtualHosts;
      ghost var routes := was[i].routes;
      ghost var f := OnRoute(annotations);
      var j := 0;
      while j < |virtualHosts[i].routes|
        invariant i < |virtualHosts| && 0 <= j <= |virtualHosts[i].routes|
        invariant Stepped(f, routes, virtualHosts[i].routes, j)
        invariant virtualHosts == was[i := was[i].(routes := virtualHosts[i].routes)]
      {
        ghost var cur := virtualHosts[i].routes;
        ok := MutateRoute(annotations, i, j);
        assert virtualHosts[i].routes == cur[j := f(routes[j]).0];
        if !ok {
          SteppedTo(f, routes, cur, j);
          return;
        }
        j := j + 1;
      }
      SteppedAll(f, routes, virtualHosts[i].routes);
      return true;
    }

    /** mutateWeightedRouteConfiguration on a configuration that is present. */
    method Mutate(annotations: Annotations) returns (ok: bool)
      modifies this
      ensures (virtualHosts, ok) == StepHosts(annotations, old(virtualHosts))
    {
      ghost var was := virtualHosts;
      ghost var f := OnHost(annotations);
      var i := 0;
      while i < |virtualHosts|
        invariant 0 <= i <= |virtualHosts| && Stepped(f, was, virtualHosts, i)
      {
        ghost var cur := virtualHosts;
        ok := MutateHost(annotations, i);
        if !ok {
          SteppedTo(f, was, cur, i);
          return;
        }
        i := i + 1;
      }
      SteppedAll(f, was, virtualHosts);
      return true;
    }
  }

  class Listener {
    var filterChains: seq<Chain>

    constructor (chains: seq<Chain>)
      ensures filterChains == chains
    {
      filterChains := chains;
    }

    /** Unpacks the filter, rewrites the routes it holds, and packs it again. */
    method MutateFilter(annotations: Annotations, f: Filter) returns (f': Filter, ok: bool)
      ensures (f', ok) == StepFilter(annotations, f)
    {
      if f.name != HTTP_CONNECTION_MANAGER {
        return f, true;
      }
      if f.typedConfig.Packed? {
        return f, false;
      }
      if f.typedConfig.routeConfig.None? {
        return f, true;
      }
      var routeConfig := new RouteConfiguration(f.typedConfig.routeConfig.value);
      ok := routeConfig.Mutate(annotations);
      f' := if ok then f.(typedConfig := Manager(f.typedConfig.rest, Some(routeConfig.virtualHosts))) else f;
    }

    method MutateChain(annotations: Annotations, i: nat) returns (ok: bool)
      requires i < |filterChains|
      modifies this
      ensures
        var (chain, good) := OnChain(annotations)(old(filterChains[i]));
        ok == good && filterChains == old(filterChains)[i := chain]
    {
      ghost var was := filterChains;
      ghost var f := OnFilter(annotations);
      var j := 0;
      while j < |filterChains[i]|
        invariant i < |filterChains| && 0 <= j <= |filterChains[i]|
        invariant Stepped(f, was[i], filterChains[i], j)
        invariant filterChains == was[i := filterChains[i]]
      {
        ghost var cur := filterChains[i];
        var filter;
        filter, ok := MutateFilter(annotations, filterChains[i][j]);
        assert filter == f(was[i][j]).0;
        filterChains := filterChains[i := filterChains[i][j := filter]];
        if !ok {
          SteppedTo(f, was[i], cur, j);
          return;
        }
        j := j + 1;
      }
      SteppedAll(f, was[i], filterChains[i]);
      return true;
    }

    method Mutate(annotations: Annotations) returns (ok: bool)
      modifies this
      ensures (filterChains, ok) == Traverse(OnChain(annotations), old(filterChains))
    {
      ghost var was := filterChains;
      ghost var f := OnChain(annotations);
      var i := 0;
      while i < |filterChains|
        invariant 0 <= i <= |filterChains| && Stepped(f, was, filterChains, i)
      {
        ghost var cur := filterChains;
        ok := MutateChain(annotations, i);
        if !ok {
          SteppedTo(f, was, cur, i);
          return;
        }
        i := i + 1;
      }
      SteppedAll(f, was, filterChains);
      return true;
    }
  }

  // ----- SaveResources

  function OnListener(annotations: Annotations): seq<Chain> -> (seq<Chain>, bool) {
    chains => Traverse(OnChain(annotations), chains)
  }

  /** The resources of one configuration. Each list element is a message of its own. */
  class Resources {
    const annotations: Annotations
    var routes: seq<Hosts>
    var listeners: seq<seq<Chain>>

    constructor (annotations: Annotations)
      ensures this.annotations == annotations && routes == [] && listeners == []
    {
      this.annotations := annotations;
      routes, listeners := [], [];
    }

    method MutateListeners() returns (ok: bool)
      modifies this`listeners
      ensures (listeners, ok) == Traverse(OnListener(annotations), old(listeners))
    {
      hide Traverse;
      ghost var was := listeners;
      ghost var f := OnListener(annotations);
      var i := 0;
      while i < |listeners|
        invariant 0 <= i <= |listeners| && Stepped(f, was, listeners, i)
      {
        ghost var cur := listeners;
        var listener := new Listener(listeners[i]);
        ok := listener.Mutate(annotations);
        listeners := listeners[i := listener.filterChains];
        assert listeners == cur[i := f(was[i]).0];
        if !ok {
          SteppedTo(f, was, cur, i);
          return;
        }
        i := i + 1;
      }
      SteppedAll(f, was, listeners);
      return true;
    }

    method MutateRoutes() returns (ok: bool)
      modifies this`routes
      ensures (routes, ok) == Traverse(OnHosts(annotations), old(routes))
    {
      hide Traverse;
      ghost var was := routes;
      ghost var f := OnHosts(annotations);
      var i := 0;
      while i < |routes|
        invariant 0 <= i <= |routes| && Stepped(f, was, routes, i)
      {
        ghost var cur := routes;
        var r := new RouteConfiguration(routes[i]);
        ok := r.Mutate(annotations);
        routes := routes[i := r.virtualHosts];
        assert routes == cur[i := f(was[i]).0];
        if !ok {
          SteppedTo(f, was, cur, i);
          return;
        }
        i := i + 1;
      }
      SteppedAll(f, was, routes);
      return true;
    }

    /** Nothing is kept unless every section parses; then weights go into the listeners first,
        and into the routes only if that succeeds. `othersParse` covers clusters and secrets. */
    method SaveResources(parsedRoutes: Result<seq<Hosts>>, parsedListeners: Result<seq<seq<Chain>>>, othersParse: bool) returns (ok: bool)
      modifies this
      ensures parsedRoutes.Failure? || parsedListeners.Failure? || !othersParse ==>
        !ok && routes == old(routes) && listeners == old(listeners)
      ensures parsedRoutes.Success? && parsedListeners.Success? && othersParse ==>
        if !HasWeights(annotations) then ok && routes == parsedRoutes.value && listeners == parsedListeners.value
        else
          var (mutated, listenersOk) := Traverse(OnListener(annotations), parsedListeners.value);
          && listeners == mutated
          && (if listenersOk then (routes, ok) == Traverse(OnHosts(annotations), parsedRoutes.value)
              else !ok && routes == parsedRoutes.value)
      ensures ok <==>
        && parsedRoutes.Success? && parsedListeners.Success? && othersParse
        && (HasWeights(annotations) ==> AllParse(annotations, parsedRoutes.value, parsedListeners.value))
      ensures ok ==> AllReweighted(annotations, parsedRoutes.value, parsedListeners.value, routes, listeners)
    {
      hide Traverse, AllParse, AllReweighted, HasWeights;
      if parsedRoutes.Failure? || parsedListeners.Failure? || !othersParse {
        return false;
      }
      routes, listeners := parsedRoutes.value, parsedListeners.value;
      ok := true;
      var weighted := HasClusterWeights(annotations);
      if weighted {
        ok := MutateListeners();
        if ok {
          ok := MutateRoutes();
        }
        SavedMeans(annotations, parsedRoutes.value, parsedListeners.value);
      } else {
        UnweightedMeans(annotations, parsedRoutes.value, parsedListeners.value);
      }
    }
  }

  // ----- what saved resources hold

  /** Every connection manager unpacks, and every annotation that some weighted cluster uses,
      in a route configuration or in a listener, is a number. */
  predicate AllParse(annotations: Annotations, routes: seq<Hosts>, listeners: seq<seq<Chain>>) {
    && (forall r :: 0 <= r < |routes| ==> HostsParse(annotations, routes[r]))
    && (forall l :: 0 <= l < |listeners| ==> ListenerParses(annotations, listeners[l]))
  }

  /** Every weighted cluster, in a route configuration or in a listener, has the weight it
      should, and nothing else has changed. */
  ghost predicate AllReweighted(annotations: Annotations, routes: seq<Hosts>, listeners: seq<seq<Chain>>,
                                newRoutes: seq<Hosts>, newListeners: seq<seq<Chain>>) {
    && |newRoutes| == |routes| && |newListeners| == |listeners|
    && (forall r :: 0 <= r < |routes| ==> HostsReweighted(annotations, routes[r], newRoutes[r]))
    && (forall l :: 0 <= l < |listeners| ==> ListenerReweighted(annotations, listeners[l], newListeners[l]))
  }

  lemma RoutesMean(annotations: Annotations, routes: seq<Hosts>)
    ensures
      var (after, ok) := Traverse(OnHosts(annotations), routes);
      && (ok <==> forall r :: 0 <= r < |routes| ==> HostsParse(annotations, routes[r]))
      && |after| == |routes|
      && (ok ==> forall r :: 0 <= r < |routes| ==> HostsReweighted(annotations, routes[r], after[r]))
  {
    hide StepHosts;
    forall r | 0 <= r < |routes|
      ensures OnHosts(annotations)(routes[r]).1 <==> HostsParse(annotations, routes[r])
      ensures OnHosts(annotations)(routes[r]).1 ==> HostsReweighted(annotations, routes[r], OnHosts(annotations)(routes[r]).0)
    {
      RewriteMeans(annotations, routes[r]);
    }
  }

  lemma ListenersMean(annotations: Annotations, listeners: seq<seq<Chain>>)
    ensures
      var (after, ok) := Traverse(OnListener(annotations), listeners);
      && (ok <==> forall l :: 0 <= l < |listeners| ==> ListenerParses(annotations, listeners[l]))
      && |after| == |listeners|
      && (ok ==> forall l :: 0 <= l < |listeners| ==> ListenerReweighted(annotations, listeners[l], after[l]))
  {
    hide ListenerParses, ListenerReweighted;
    forall l | 0 <= l < |listeners|
      ensures OnListener(annotations)(listeners[l]).1 <==> ListenerParses(annotations, listeners[l])
      ensures OnListener(annotations)(listeners[l]).1 ==>
        ListenerReweighted(annotations, listeners[l], OnListener(annotations)(listeners[l]).0)
    {
      ListenerMeans(annotations, listeners[l]);
    }
  }

  lemma SavedMeans(annotations: Annotations, routes: seq<Hosts>, listeners: seq<seq<Chain>>)
    ensures
      var (newRoutes, routesOk) := Traverse(OnHosts(annotations), routes);
      var (newListeners, listenersOk) := Traverse(OnListener(annotations), listeners);
      && (routesOk && listenersOk <==> AllParse(annotations, routes, listeners))
      && (routesOk && listenersOk ==> AllReweighted(annotations, routes, listeners, newRoutes, newListeners))
  {
    hide Traverse, HostsParse, HostsReweighted, ListenerParses, ListenerReweighted;
    RoutesMean(annotations, routes);
    ListenersMean(annotations, listeners);
  }

  lemma UnweightedHosts(annotations: Annotations, hosts: Hosts)
    requires !HasWeights(annotations)
    ensures HostsReweighted(annotations, hosts, hosts)
  {
    hide HasWeights, HostReweighted;
    forall i | 0 <= i < |hosts| ensures HostReweighted(annotations, hosts[i], hosts[i]) {
      UnweightedHost(annotations, hosts[i]);
    }
  }

  lemma UnweightedMeans(annotations: Annotations, routes: seq<Hosts>, listeners: seq<seq<Chain>>)
    requires !HasWeights(annotations)
    ensures AllReweighted(annotations, routes, listeners, routes, listeners)
  {
    hide HasWeights, HostsReweighted;
    forall hosts: Hosts ensures HostsReweighted(annotations, hosts, hosts) {
      UnweightedHosts(annotations, hosts);
    }
  }

  /** Saving resources that have their weights already changes nothing. */
  lemma SavedAgain(annotations: Annotations, routes: seq<Hosts>, listeners: seq<seq<Chain>>)
    requires AllParse(annotations, routes, listeners)
    ensures
      var newRoutes := Traverse(OnHosts(annotations), routes).0;
      var newListeners := Traverse(OnListener(annotations), listeners).0;
      && Traverse(OnHosts(annotations), newRoutes) == (newRoutes, true)
      && Traverse(OnListener(annotations), newListeners) == (newListeners, true)
  {
    hide Traverse, HostsReweighted, ListenerReweighted, ListenerParses, HostsParse, StepHosts, OnChain;
    SavedMeans(annotations, routes, listeners);
    var newRoutes := Traverse(OnHosts(annotations), routes).0;
    var newListeners := Traverse(OnListener(annotations), listeners).0;
    forall r | 0 <= r < |newRoutes| ensures OnHosts(annotations)(newRoutes[r]) == (newRoutes[r], true) {
      SecondHosts(annotations, routes[r], newRoutes[r]);
    }
    TraverseIdentity(OnHosts(annotations), newRoutes);
    forall l | 0 <= l < |newListeners| ensures OnListener(annotations)(newListeners[l]) == (newListeners[l], true) {
      SecondListener(annotations, listeners[l], newListeners[l]);
    }
    TraverseIdentity(OnListener(annotations), newListeners);
  }

  /** Skipping the rewrite when no annotation sets a weight is sound: over all routes it would
      succeed and change nothing, and over all listeners it would change nothing and succeed
      exactly when every connection manager unpacks. */
  lemma GuardSound(annotations: Annotations, routes: seq<Hosts>, listeners: seq<seq<Chain>>)
    requires !HasWeights(annotations)
    ensures Traverse(OnHosts(annotations), routes) == (routes, true)
    ensures Traverse(OnListener(annotations), listeners).0 == listeners
    ensures Traverse(OnListener(annotations), listeners).1 <==>
      forall l, c, i :: 0 <= l < |listeners| && 0 <= c < |listeners[l]| && 0 <= i < |listeners[l][c]| ==> Unpacks(listeners[l][c][i])
  {
    forall r | 0 <= r < |routes| ensures OnHosts(annotations)(routes[r]) == (routes[r], true) {
      GuardSoundForRoutes(annotations, routes[r]);
    }
    TraverseIdentity(OnHosts(annotations), routes);
    forall l | 0 <= l < |listeners|
      ensures OnListener(annotations)(listeners[l]).0 == listeners[l]
      ensures OnListener(annotations)(listeners[l]).1 <==>
        forall c, i :: 0 <= c < |listeners[l]| && 0 <= i < |listeners[l][c]| ==> Unpacks(listeners[l][c][i])
    {
      GuardSoundForListener(annotations, listeners[l]);
    }
    assert Traverse(OnListener(annotations), listeners).0 == listeners;
  }

  lemma GuardSoundForListener(annotations: Annotations, chains: seq<Chain>)
    requires !HasWeights(annotations)
    ensures Traverse(OnChain(annotations), chains).0 == chains
    ensures Traverse(OnChain(annotations), chains).1 <==>
      forall c, i :: 0 <= c < |chains| && 0 <= i < |chains[c]| ==> Unpacks(chains[c][i])
  {
    forall c | 0 <= c < |chains|
      ensures OnChain(annotations)(chains[c]).0 == chains[c]
      ensures OnChain(annotations)(chains[c]).1 <==> forall i :: 0 <= i < |chains[c]| ==> Unpacks(chains[c][i])
    {
      GuardSoundForListeners(annotations, chains[c]);
    }
    assert Traverse(OnChain(annotations), chains).0 == chains;
  }
}
