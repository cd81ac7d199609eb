// The ConfigMap handler: NewConfigMap and DeleteConfigMap as loops of protocol
// steps, with any number of other goroutines' steps in between.
module Lifecycle {
  import opened Endpoints
  import opened Guarantees
  import opened Protocol
  import opened Retirement
  import opened Safety
  import opened Seqs
  import opened Stores
  import opened Wrappers

  /** What the YAML of one data key says. */
  datatype Parsed = Parsed(id: string, useVersionLabel: bool, versionLabelKey: string, endpoints: Result<LbMap>, secrets: seq<Secret>)

  /** One data key of a ConfigMap, with how the fallible work on it turns out. */
  datatype Item = Item(nodeID: string, parsed: Result<Parsed>, resourcesSaved: bool, created: Result<seq<Secret>>)

  /** `items` lists the data keys in the order in which the map is traversed this time. */
  datatype ConfigMap = ConfigMap(owner: Owner, labels: map<string, string>, items: seq<Item>)

  datatype Settings = Settings(names: seq<string>, labelKey: string, labelValue: string)

  function LabelOf(cm: ConfigMap, key: string): string {
    if key in cm.labels then cm.labels[key] else ""
  }

  predicate Selected(settings: Settings, cm: ConfigMap) {
    if settings.names != [] then cm.owner.name in settings.names
    else LabelOf(cm, settings.labelKey) == settings.labelValue
  }

  method CheckConfigMapLabels(settings: Settings, cm: ConfigMap) returns (selected: bool)
    ensures selected <==> Selected(settings, cm)
    ensures selected <==>
      if settings.names != [] then exists i :: 0 <= i < |settings.names| && settings.names[i] == cm.owner.name
      else if settings.labelKey in cm.labels then cm.labels[settings.labelKey] == settings.labelValue
      else settings.labelValue == ""
  {
    if |settings.names| != 0 {
      for i := 0 to |settings.names|
        invariant cm.owner.name !in settings.names[..i]
      {
        if cm.owner.name == settings.names[i] {
          return true;
        }
      }
      return false;
    }
    return LabelOf(cm, settings.labelKey) == settings.labelValue;
  }

  /** The node ID a data key defines. */
  function NodeId(cm: ConfigMap, nodeID: string, parsed: Parsed): string {
    var id := if parsed.id == "" then nodeID else parsed.id;
    var version := LabelOf(cm, parsed.versionLabelKey);
    if parsed.useVersionLabel && version != "" then id + "-" + version else id
  }

  function ConfigOf(cm: ConfigMap, item: Item): Config
    requires item.parsed.Success?
  {
    var p := item.parsed.value;
    Config(NodeId(cm, item.nodeID, p), cm.owner, if p.endpoints.Success? then p.endpoints.value else map[], p.secrets)
  }

  // The same field by field.

  /** The ID in the YAML, or the key where there is none, followed by the version label if the key
      uses one that is there and not empty. */
  ghost predicate IsNodeId(cm: ConfigMap, item: Item, id: string) {
    && item.parsed.Success?
    && var p := item.parsed.value;
    && (p.useVersionLabel && p.versionLabelKey in cm.labels && cm.labels[p.versionLabelKey] != "" ==>
          id == (if p.id != "" then p.id else item.nodeID) + "-" + cm.labels[p.versionLabelKey])
    && (!(p.useVersionLabel && p.versionLabelKey in cm.labels && cm.labels[p.versionLabelKey] != "") ==>
          id == if p.id != "" then p.id else item.nodeID)
  }

  /** The configuration holds what the key says, and the ConfigMap it came from. */
  predicate IsConfigOf(cm: ConfigMap, item: Item, config: Config) {
    && item.parsed.Success?
    && config.owner.name == cm.owner.name && config.owner.namespace == cm.owner.namespace
    && config.statics == (if item.parsed.value.endpoints.Success? then item.parsed.value.endpoints.value else map[])
    && config.secrets == item.parsed.value.secrets
  }

  lemma ConfigMeans(cm: ConfigMap, item: Item, id: string)
    requires item.parsed.Success?
    ensures IsNodeId(cm, item, id) <==> ConfigOf(cm, item).id == id
    ensures IsConfigOf(cm, item, ConfigOf(cm, item))
  {
  }

  // ----- what a ConfigMap does to the configurations in force

  predicate Works(item: Item) {
    item.parsed.Success? && item.resourcesSaved && item.created.Success?
  }

  /** Key i is read, which takes that every key before it works, and parses. */
  predicate Touched(cm: ConfigMap, i: int) {
    && 0 <= i < |cm.items| && cm.items[i].parsed.Success?
    && forall j :: 0 <= j < i ==> Works(cm.items[j])
  }

  function IdAt(cm: ConfigMap, i: int): string
    requires Touched(cm, i)
  {
    NodeId(cm, cm.items[i].nodeID, cm.items[i].parsed.value)
  }

  /** What the first n keys make of the IDs they name: a configuration in force, or none when
      the work fails after the old store was stopped. Of two keys for one ID the later counts. */
  function Outcomes(cm: ConfigMap, n: nat): map<string, Option<Config>>
    requires n <= |cm.items|
  {
    if n == 0 then map[]
    else if !Touched(cm, n - 1) then Outcomes(cm, n - 1)
    else
      var item := cm.items[n - 1];
      Outcomes(cm, n - 1)[IdAt(cm, n - 1) := if Works(item) then Some(ConfigOf(cm, item)) else None]
  }

  function Effect(settings: Settings, cm: ConfigMap): map<string, Option<Config>> {
    if Selected(settings, cm) then Outcomes(cm, |cm.items|) else map[]
  }

  /** The configurations in force once an effect has been had on them. */
  function Handled(effect: map<string, Option<Config>>, inForce: map<string, Config>): map<string, Config> {
    map id | id in inForce.Keys + effect.Keys && (id in effect ==> effect[id].Some?) ::
      if id in effect then effect[id].value else inForce[id]
  }

  // ----- dropped updates

  /** Whatever was in force before, handling `after` once `before` has been handled changes nothing. */
  ghost predicate Harmless(settings: Settings, before: ConfigMap, after: ConfigMap) {
    forall inForce ::
      Handled(Effect(settings, after), Handled(Effect(settings, before), inForce)) == Handled(Effect(settings, before), inForce)
  }

  /** The label this key puts into its node ID, if it puts any, has the same value. */
  predicate LabelKept(before: ConfigMap, after: ConfigMap, item: Item)
    requires item.parsed.Success?
  {
    var p := item.parsed.value;
    !p.useVersionLabel || LabelOf(before, p.versionLabelKey) == LabelOf(after, p.versionLabelKey)
  }

  // ----- when both handlings take the keys in one order

  /** The update does not bring the ConfigMap into the selection, and moves no key to another ID. */
  ghost predicate NothingMoves(settings: Settings, before: ConfigMap, after: ConfigMap)
    requires before.items == after.items
  {
    Selected(settings, after) ==>
      forall i :: Touched(after, i) ==> Selected(settings, before) && LabelKept(before, after, after.items[i])
  }

  /** No two keys ever name one node. */
  ghost predicate Separate(before: ConfigMap, after: ConfigMap)
    requires before.items == after.items
  {
    forall i, j :: Touched(before, i) && Touched(after, j) && i != j ==> IdAt(before, i) != IdAt(after, j)
  }

  lemma HarmlessIff(settings: Settings, before: ConfigMap, after: ConfigMap)
    ensures Harmless(settings, before, after) <==>
      forall id :: id in Effect(settings, after) ==>
        id in Effect(settings, before) && Effect(settings, before)[id] == Effect(settings, after)[id]
  {
    hide Effect;
    var a, b := Effect(settings, after), Effect(settings, before);
    if Harmless(settings, before, after) {
      forall id | id in a ensures id in b && b[id] == a[id] {
        var some := Config("", Owner("", ""), map[], []);
        assert Handled(a, Handled(b, map[])) == Handled(b, map[]);
        assert Handled(a, Handled(b, map[id := some])) == Handled(b, map[id := some]);
        if a[id].Some? {
          assert id in Handled(a, Handled(b, map[]));
        } else {
          assert id !in Handled(a, Handled(b, map[id := some]));
        }
      }
    }
  }

  lemma {:induction false} OutcomeIds(cm: ConfigMap, n: nat, id: string)
    requires n <= |cm.items|
    ensures id in Outcomes(cm, n) <==> exists i :: 0 <= i < n && Touched(cm, i) && IdAt(cm, i) == id
  {
    hide IdAt, ConfigOf;
    if n != 0 {
      OutcomeIds(cm, n - 1, id);
      if Touched(cm, n - 1) && IdAt(cm, n - 1) == id {
        assert id in Outcomes(cm, n);
      }
    }
  }

  lemma SameNodeIff(before: ConfigMap, after: ConfigMap, item: Item)
    requires item.parsed.Success? && before.owner == after.owner
    ensures LabelKept(before, after, item) <==>
      NodeId(before, item.nodeID, item.parsed.value) == NodeId(after, item.nodeID, item.parsed.value)
    ensures LabelKept(before, after, item) ==> ConfigOf(before, item) == ConfigOf(after, item)
  {
    var p := item.parsed.value;
    var stem := (if p.id == "" then item.nodeID else p.id) + "-";
    var a, b := LabelOf(before, p.versionLabelKey), LabelOf(after, p.versionLabelKey);
    assert (stem + a)[|stem|..] == a && (stem + b)[|stem|..] == b;
  }

  lemma {:induction false} SameOutcomes(before: ConfigMap, after: ConfigMap, n: nat)
    requires before.owner == after.owner && before.items == after.items && n <= |after.items|
    requires forall i :: Touched(after, i) ==> LabelKept(before, after, after.items[i])
    ensures Outcomes(before, n) == Outcomes(after, n)
  {
    hide NodeId, LabelKept, ConfigOf;
    if n != 0 {
      SameOutcomes(before, after, n - 1);
      if Touched(after, n - 1) {
        SameNodeIff(before, after, after.items[n - 1]);
      }
    }
  }

  lemma UnmovedIsHarmless(settings: Settings, before: ConfigMap, after: ConfigMap)
    requires before.owner == after.owner && before.items == after.items && NothingMoves(settings, before, after)
    ensures Harmless(settings, before, after)
  {
    hide Selected, LabelKept, Harmless, Outcomes;
    HarmlessIff(settings, before, after);
    if Selected(settings, before) && Selected(settings, after) {
      SameOutcomes(before, after, |after.items|);
    } else if Selected(settings, after) {
      forall id ensures id !in Outcomes(after, |after.items|) {
        OutcomeIds(after, |after.items|, id);
      }
    }
  }

  lemma HarmlessIsUnmoved(settings: Settings, before: ConfigMap, after: ConfigMap)
    requires before.owner == after.owner && before.items == after.items && Separate(before, after)
    requires Harmless(settings, before, after)
    ensures NothingMoves(settings, before, after)
  {
    hide Selected, LabelKept, Harmless, Outcomes;
    HarmlessIff(settings, before, after);
    if Selected(settings, after) {
      forall i | Touched(after, i) ensures Selected(settings, before) && LabelKept(before, after, after.items[i]) {
        OutcomeIds(after, |after.items|, IdAt(after, i));
        assert IdAt(after, i) in Effect(settings, before);
        OutcomeIds(before, |before.items|, IdAt(after, i));
        SameNodeIff(before, after, after.items[i]);
      }
    }
  }

  /** If both handlings take the keys in one order: dropping an update of labels is harmless if
      the ConfigMap is not selected, or was selected already and every key that is read keeps the
      label it uses. As long as no two keys name one node, it is harmless in no other case. */
  lemma SameOrderIff(settings: Settings, before: ConfigMap, after: ConfigMap)
    requires before.owner == after.owner && before.items == after.items
    ensures NothingMoves(settings, before, after) ==> Harmless(settings, before, after)
    ensures Separate(before, after) ==> (Harmless(settings, before, after) <==> NothingMoves(settings, before, after))
  {
    hide Harmless, NothingMoves, Separate;
    if NothingMoves(settings, before, after) {
      UnmovedIsHarmless(settings, before, after);
    }
    if Separate(before, after) && Harmless(settings, before, after) {
      HarmlessIsUnmoved(settings, before, after);
    }
  }

  // ----- when each handling takes the keys in an order of its own

  /** The keys of a ConfigMap come in a new order each time it is handled. */
  ghost predicate HarmlessInAnyOrder(settings: Settings, before: ConfigMap, after: ConfigMap) {
    forall b, a :: multiset(b) == multiset(before.items) && multiset(a) == multiset(after.items) ==>
      Harmless(settings, before.(items := b), after.(items := a))
  }

  function IdOf(cm: ConfigMap, item: Item): string
    requires item.parsed.Success?
  {
    NodeId(cm, item.nodeID, item.parsed.value)
  }

  /** No two of the keys name one node, under the old labels or the new ones. */
  ghost predicate Apart(before: ConfigMap, after: ConfigMap) {
    forall i, j | 0 <= i < |after.items| && 0 <= j < |after.items| && i != j ::
      after.items[i].parsed.Success? && after.items[j].parsed.Success? ==>
        IdOf(before, after.items[i]) != IdOf(after, after.items[j])
  }

  /** What must hold for an update of labels to be dropped without harm, if it selects the
      ConfigMap: either no key parses, or the ConfigMap was selected already, every key that
      parses keeps the label it uses, and there are not several keys of which some fail. */
  ghost predicate DropIsSafe(settings: Settings, before: ConfigMap, after: ConfigMap) {
    Selected(settings, after) ==>
      || (forall item :: item in after.items ==> item.parsed.Failure?)
      || (&& Selected(settings, before)
          && (forall item :: item in after.items && item.parsed.Success? ==> LabelKept(before, after, item))
          && (|after.items| <= 1 || forall item :: item in after.items ==> Works(item)))
  }

  /** A key that fails first hides all others. */
  lemma FailsFirst(cm: ConfigMap, id: string)
    requires cm.items != [] && !Works(cm.items[0])
    ensures id in Outcomes(cm, |cm.items|) ==> cm.items[0].parsed.Success? && IdOf(cm, cm.items[0]) == id
  {
    hide NodeId;
    OutcomeIds(cm, |cm.items|, id);
  }

  lemma FrontIsRead(cm: ConfigMap)
    requires cm.items != [] && cm.items[0].parsed.Success?
    ensures IdOf(cm, cm.items[0]) in Outcomes(cm, |cm.items|)
  {
    hide NodeId;
    assert Touched(cm, 0);
    OutcomeIds(cm, |cm.items|, IdOf(cm, cm.items[0]));
  }

  /** Key k read first, and failing, hides what key p defines under the new labels. */
  lemma HiddenByFailure(before: ConfigMap, after: ConfigMap, k: nat, p: nat)
    requires before.owner == after.owner && Apart(before, after) && k < |after.items| && p < |after.items|
    requires !Works(after.items[k]) && after.items[p].parsed.Success?
    requires k != p || !LabelKept(before, after, after.items[p])
    ensures IdOf(after, after.items[p]) !in Outcomes(before.(items := ToFront(after.items, k)), |after.items|)
  {
    hide LabelKept, Outcomes, NodeId, Works;
    var b := before.(items := ToFront(after.items, k));
    FailsFirst(b, IdOf(after, after.items[p]));
    if after.items[k].parsed.Success? {
      SameIds(before, b, after.items[k]);
      SameNodeIff(before, after, after.items[p]);
    }
  }

  /** Key p under its old label, and the other keys, define other nodes. */
  lemma MovedElsewhere(before: ConfigMap, after: ConfigMap, p: nat)
    requires before.owner == after.owner && Apart(before, after) && p < |after.items|
    requires after.items[p].parsed.Success? && !LabelKept(before, after, after.items[p])
    ensures IdOf(after, after.items[p]) !in Outcomes(before.(items := ToFront(after.items, p)), |after.items|)
  {
    hide LabelKept, Outcomes, NodeId, Works;
    var b, id := before.(items := ToFront(after.items, p)), IdOf(after, after.items[p]);
    OutcomeIds(b, |b.items|, id);
    SameNodeIff(before, after, after.items[p]);
    forall i | 0 <= i < |b.items| && Touched(b, i) ensures IdAt(b, i) != id {
      SameIds(before, b, b.items[i]);
      assert b.items[i] == after.items[if i == 0 then p else if i <= p then i - 1 else i];
    }
  }

  /** If key p is read first after the update, and before it first key k was read and failed or
      was p itself under another label, the update would have done something new. */
  lemma HarmfulFronts(settings: Settings, before: ConfigMap, after: ConfigMap, k: nat, p: nat)
    requires before.owner == after.owner && Apart(before, after) && Selected(settings, after)
    requires k < |after.items| && p < |after.items| && after.items[p].parsed.Success?
    requires
      || !Selected(settings, before)
      || (!Works(after.items[k]) && (k != p || !LabelKept(before, after, after.items[p])))
      || (k == p && !LabelKept(before, after, after.items[p]))
    ensures !Harmless(settings, before.(items := ToFront(after.items, k)), after.(items := ToFront(after.items, p)))
  {
    var b, a := before.(items := ToFront(after.items, k)), after.(items := ToFront(after.items, p));
    var id := IdOf(after, after.items[p]);
    SameSelection(settings, before, b);
    SameSelection(settings, after, a);
    assert |b.items| == |after.items| == |a.items|;
    FrontDefines(after, p);
    hide Harmless, LabelKept, Selected, Outcomes, Works, Apart, IdOf, ToFront;
    assert Selected(settings, b) ==> id !in Outcomes(b, |b.items|) by {
      if Selected(settings, before) {
        if !Works(after.items[k]) {
          HiddenByFailure(before, after, k, p);
        } else {
          MovedElsewhere(before, after, p);
        }
      }
    }
    NewIdHarms(settings, b, a, id);
  }

  lemma FrontDefines(cm: ConfigMap, p: nat)
    requires p < |cm.items| && cm.items[p].parsed.Success?
    ensures IdOf(cm, cm.items[p]) in Outcomes(cm.(items := ToFront(cm.items, p)), |cm.items|)
  {
    hide Outcomes, NodeId;
    var a := cm.(items := ToFront(cm.items, p));
    FrontIsRead(a);
    SameIds(cm, a, cm.items[p]);
  }

  lemma NewIdHarms(settings: Settings, before: ConfigMap, after: ConfigMap, id: string)
    requires Selected(settings, after) && id in Outcomes(after, |after.items|)
    requires Selected(settings, before) ==> id !in Outcomes(before, |before.items|)
    ensures !Harmless(settings, before, after)
  {
    hide Harmless, Selected, Outcomes;
    HarmlessIff(settings, before, after);
    assert id in Effect(settings, after) && id !in Effect(settings, before);
  }

  lemma SameSelection(settings: Settings, cm: ConfigMap, other: ConfigMap)
    requires other == cm.(items := other.items)
    ensures Selected(settings, other) == Selected(settings, cm)
  {
  }

  lemma SameIds(cm: ConfigMap, other: ConfigMap, item: Item)
    requires other == cm.(items := other.items) && item.parsed.Success?
    ensures IdOf(other, item) == IdOf(cm, item) && ConfigOf(other, item) == ConfigOf(cm, item)
    ensures ConfigOf(cm, item).id == IdOf(cm, item)
  {
  }

  /** Otherwise there are orders in which the drop does harm. */
  lemma HarmfulOrders(settings: Settings, before: ConfigMap, after: ConfigMap) returns (b: seq<Item>, a: seq<Item>)
    requires before.owner == after.owner && multiset(before.items) == multiset(after.items)
    requires Apart(before, after) && !DropIsSafe(settings, before, after)
    ensures multiset(b) == multiset(before.items) && multiset(a) == multiset(after.items)
    ensures !Harmless(settings, before.(items := b), after.(items := a))
  {
    hide Harmless, LabelKept, Selected, Works, Apart;
    var items := after.items;
    var p :| 0 <= p < |items| && items[p].parsed.Success?;
    var k := p;
    if !Selected(settings, before) {
    } else if q :| 0 <= q < |items| && items[q].parsed.Success? && !LabelKept(before, after, items[q]) {
      k, p := q, q;
    } else {
      k :| 0 <= k < |items| && !Works(items[k]);
      if k == p {
        var g := if p == 0 then 1 else 0;
        if items[g].parsed.Success? {
          p := g;
        } else {
          k := g;
          assert !Works(items[g]) by { WorksParses(items[g]); }
        }
      }
    }
    HarmfulFronts(settings, before, after, k, p);
    b, a := ToFront(items, k), ToFront(items, p);
  }

  lemma WorksParses(item: Item)
    ensures Works(item) ==> item.parsed.Success?
  {
  }

  ghost predicate OwnIds(cm: ConfigMap) {
    forall i, j | 0 <= i < j < |cm.items| ::
      cm.items[i].parsed.Success? && cm.items[j].parsed.Success? ==> IdOf(cm, cm.items[i]) != IdOf(cm, cm.items[j])
  }

  /** Where every key works and all name different nodes, each has its own outcome. */
  lemma {:induction false} OutcomeOf(cm: ConfigMap, n: nat, i: nat)
    requires i < n <= |cm.items| && OwnIds(cm) && forall j :: 0 <= j < |cm.items| ==> Works(cm.items[j])
    ensures cm.items[i].parsed.Success? && IdOf(cm, cm.items[i]) in Outcomes(cm, n)
    ensures Outcomes(cm, n)[IdOf(cm, cm.items[i])] == Some(ConfigOf(cm, cm.items[i]))
  {
    hide NodeId;
    assert Works(cm.items[n - 1]) && Works(cm.items[i]);
    assert Touched(cm, n - 1);
    if i < n - 1 {
      OutcomeOf(cm, n - 1, i);
    }
  }

  lemma OwnIdsInAnyOrder(cm: ConfigMap, other: ConfigMap)
    requires other == cm.(items := other.items) && multiset(other.items) == multiset(cm.items) && OwnIds(cm)
    requires forall item :: item in cm.items ==> item.parsed.Success?
    ensures OwnIds(other)
  {
    hide NodeId;
    SameMembers(other.items, cm.items);
    var f := (item: Item) => if item.parsed.Success? then IdOf(cm, item) else "";
    assert Distinct(Map(f, cm.items));
    MapPermutation(f, cm.items, other.items);
    DistinctIff(Map(f, cm.items));
    DistinctIff(Map(f, other.items));
    forall j, k | 0 <= j < k < |other.items| ensures IdOf(other, other.items[j]) != IdOf(other, other.items[k]) {
      SameIds(cm, other, other.items[j]);
      SameIds(cm, other, other.items[k]);
      assert Map(f, other.items)[j] != Map(f, other.items)[k];
    }
  }

  lemma AllWorkIsHarmless(settings: Settings, before: ConfigMap, after: ConfigMap, b: seq<Item>, a: seq<Item>)
    requires before.owner == after.owner && multiset(b) == multiset(after.items) && multiset(a) == multiset(after.items)
    requires Apart(before, after) && Selected(settings, before)
    requires forall item :: item in after.items ==> Works(item) && LabelKept(before, after, item)
    ensures Harmless(settings, before.(items := b), after.(items := a))
  {
    hide Harmless, LabelKept, Selected, Outcomes, NodeId, ConfigOf;
    var was, now := before.(items := b), after.(items := a);
    HarmlessIff(settings, was, now);
    SameSelection(settings, before, was);
    SameMembers(b, after.items);
    SameMembers(a, after.items);
    forall item | item in after.items ensures SameUnder(before, after, was, now, item) {
      UnmovedKey(before, after, was, now, item);
    }
    forall i | 0 <= i < |after.items| ensures SameUnder(before, after, was, now, after.items[i]) {
      assert after.items[i] in after.items;
    }
    assert OwnIds(after);
    OwnIdsInAnyOrder(after, now);
    OwnIdsInAnyOrder(after, after.(items := b));
    forall i, j | 0 <= i < j < |b| ensures IdOf(was, b[i]) != IdOf(was, b[j]) {
      assert SameUnder(before, after, was, now, b[i]) && SameUnder(before, after, was, now, b[j]);
    }
    forall id | id in Effect(settings, now) ensures id in Effect(settings, was) && Effect(settings, was)[id] == Effect(settings, now)[id] {
      OutcomeIds(now, |a|, id);
      var i :| 0 <= i < |a| && Touched(now, i) && IdAt(now, i) == id;
      assert a[i] in b;
      var j :| 0 <= j < |b| && b[j] == a[i];
      assert SameUnder(before, after, was, now, a[i]);
      OutcomeOf(now, |a|, i);
      OutcomeOf(was, |b|, j);
    }
  }

  /** The key defines the same on all sides. */
  ghost predicate SameUnder(before: ConfigMap, after: ConfigMap, was: ConfigMap, now: ConfigMap, item: Item) {
    && item.parsed.Success?
    && IdOf(before, item) == IdOf(after, item) == IdOf(was, item) == IdOf(now, item)
    && IdOf(after.(items := was.items), item) == IdOf(after, item)
    && ConfigOf(was, item) == ConfigOf(now, item)
  }

  lemma UnmovedKey(before: ConfigMap, after: ConfigMap, was: ConfigMap, now: ConfigMap, item: Item)
    requires before.owner == after.owner && Works(item) && LabelKept(before, after, item)
    requires was == before.(items := was.items) && now == after.(items := now.items)
    ensures SameUnder(before, after, was, now, item)
  {
    SameNodeIff(before, after, item);
    SameIds(before, was, item);
    SameIds(after, now, item);
    SameIds(after, after.(items := was.items), item);
  }

  lemma NoneParsesIsHarmless(settings: Settings, before: ConfigMap, after: ConfigMap)
    requires forall item :: item in after.items ==> item.parsed.Failure?
    ensures Harmless(settings, before, after)
  {
    hide Harmless, Selected, Outcomes;
    HarmlessIff(settings, before, after);
    forall id ensures id !in Outcomes(after, |after.items|) {
      OutcomeIds(after, |after.items|, id);
    }
  }

  lemma SafeIsHarmless(settings: Settings, before: ConfigMap, after: ConfigMap, b: seq<Item>, a: seq<Item>)
    requires before.owner == after.owner && multiset(b) == multiset(after.items) && multiset(a) == multiset(after.items)
    requires Apart(before, after) && DropIsSafe(settings, before, after)
    ensures Harmless(settings, before.(items := b), after.(items := a))
  {
    hide Harmless, LabelKept, Selected, Outcomes, NodeId, Works, Apart;
    var was, now := before.(items := b), after.(items := a);
    SameSelection(settings, before, was);
    SameSelection(settings, after, now);
    SameMembers(b, after.items);
    SameMembers(a, after.items);
    if !Selected(settings, after) {
      HarmlessIff(settings, was, now);
    } else if forall item :: item in after.items ==> item.parsed.Failure? {
      NoneParsesIsHarmless(settings, was, now);
    } else if |after.items| <= 1 {
      assert b == a;
      forall i | Touched(now, i) ensures Selected(settings, was) && LabelKept(was, now, a[i]) {
        assert a[i] in after.items;
        SameLabels(before, after, was, now, a[i]);
      }
      assert NothingMoves(settings, was, now);
      UnmovedIsHarmless(settings, was, now);
    } else {
      forall item | item in after.items ensures item.parsed.Success? && Works(item) && LabelKept(before, after, item) {
        WorksParses(item);
      }
      AllWorkIsHarmless(settings, before, after, b, a);
    }
  }

  lemma SameLabels(before: ConfigMap, after: ConfigMap, was: ConfigMap, now: ConfigMap, item: Item)
    requires item.parsed.Success? && was == before.(items := was.items) && now == after.(items := now.items)
    ensures LabelKept(was, now, item) == LabelKept(before, after, item)
  {
  }

  /** An update that changes labels only is dropped. While no two keys name one node, that is
      harmless, in whatever orders the keys are traversed, exactly when the drop is safe. */
  lemma DroppedUpdateIff(settings: Settings, before: ConfigMap, after: ConfigMap)
    requires before.owner == after.owner && multiset(before.items) == multiset(after.items) && Apart(before, after)
    ensures HarmlessInAnyOrder(settings, before, after) <==> DropIsSafe(settings, before, after)
  {
    hide Harmless, DropIsSafe, Apart;
    if DropIsSafe(settings, before, after) {
      forall b, a | multiset(b) == multiset(before.items) && multiset(a) == multiset(after.items)
        ensures Harmless(settings, before.(items := b), after.(items := a))
      {
        SafeIsHarmless(settings, before, after, b, a);
      }
    } else {
      var b, a := HarmfulOrders(settings, before, after);
    }
  }

  /** Such an update can bring a ConfigMap into the selection: its nodes are then never loaded,
      although every key defines what it defined before. */
  lemma DroppedSelection() returns (settings: Settings, before: ConfigMap, after: ConfigMap)
    ensures before.owner == after.owner && before.items == after.items
    ensures forall i :: Touched(after, i) ==> ConfigOf(before, after.items[i]) == ConfigOf(after, after.items[i])
    ensures !Selected(settings, before) && Selected(settings, after) && !Harmless(settings, before, after)
  {
    var item := Item("node", Success(Parsed("", false, "version", Success(map[]), [])), true, Success([]));
    settings := Settings([], "app", "envoy-control-plane");
    before := ConfigMap(Owner("cm", "ns"), map[], [item]);
    after := before.(labels := map["app" := "envoy-control-plane"]);
    assert Touched(after, 0);
    assert Separate(before, after);
    hide Separate, Harmless;
    SameOrderIff(settings, before, after);
  }

  /** And it can do so by the order alone: a key that does not parse came first, and nothing was
      loaded; had the update been handled, another key might have come first. */
  lemma DroppedBehindFailure() returns (settings: Settings, before: ConfigMap, after: ConfigMap)
    ensures before.owner == after.owner && multiset(before.items) == multiset(after.items)
    ensures Selected(settings, before) && Selected(settings, after)
    ensures forall item :: item in after.items && item.parsed.Success? ==> LabelKept(before, after, item)
    ensures !Harmless(settings, before, after)
  {
    var good := Item("node", Success(Parsed("", false, "version", Success(map[]), [])), true, Success([]));
    var bad := Item("other", Failure, true, Success([]));
    settings := Settings(["cm"], "", "");
    before := ConfigMap(Owner("cm", "ns"), map[], [bad, good]);
    after := ConfigMap(Owner("cm", "ns"), map["a" := "b"], [good, bad]);
    hide Harmless;
    assert settings.names[0] == "cm";
    HarmlessIff(settings, before, after);
    FailsFirst(before, "node");
    FrontIsRead(after);
    assert "node" in Effect(settings, after) && "node" !in Effect(settings, before);
  }

  // ----- what other goroutines may do meanwhile

  predicate IsOthers(l: Protocol.Label) {
    IsTaskLabel(l) || l.Visit?
  }

  /** They leave the store map, the configurations and the stop flags alone. */
  ghost predicate SameRegistry(s: State, s': State) {
    && s'.storeMap == s.storeMap && s'.handler == s.handler && |s'.stores| == |s.stores|
    && forall r :: 0 <= r < |s.stores| ==>
         s'.stores[r].config == s.stores[r].config && s'.stores[r].stopped == s.stores[r].stopped
  }

  lemma OthersStep(validIP: string -> bool, s: State, l: Protocol.Label)
    requires Enabled(s, l) && IsOthers(l)
    ensures SameRegistry(s, Apply(validIP, s, l))
  {
    if IsTaskLabel(l) {
      TaskKeepsConfig(s, l);
    }
  }

  lemma {:induction false} OthersRun(validIP: string -> bool, s: State, ls: seq<Protocol.Label>)
    requires CanRun(validIP, s, ls) && forall l :: l in ls ==> IsOthers(l)
    ensures SameRegistry(s, Run(validIP, s, ls))
    decreases |ls|
  {
    if ls != [] {
      OthersStep(validIP, s, ls[0]);
      OthersRun(validIP, Apply(validIP, s, ls[0]), ls[1..]);
    }
  }

  /** The handler's own steps among all steps. */
  function OwnSteps(ls: seq<Protocol.Label>): seq<Protocol.Label> {
    if ls == [] then []
    else OwnSteps(ls[..|ls| - 1]) + if IsOthers(ls[|ls| - 1]) then [] else [ls[|ls| - 1]]
  }

  lemma OwnStepsNext(ls: seq<Protocol.Label>, l: Protocol.Label)
    requires !IsOthers(l)
    ensures OwnSteps(ls + [l]) == OwnSteps(ls) + [l]
  {
    assert (ls + [l])[..|ls|] == ls;
  }

  lemma {:induction false} OwnStepsSkip(ls: seq<Protocol.Label>, more: seq<Protocol.Label>)
    requires ls <= more && forall l :: l in more[|ls|..] ==> IsOthers(l)
    ensures OwnSteps(more) == OwnSteps(ls)
    decreases |more|
  {
    if |more| == |ls| {
      assert more == ls;
    } else {
      var n := |more| - 1;
      var rest := more[|ls|..];
      assert more[..n][|ls|..] == rest[..n - |ls|];
      OwnStepsSkip(ls, more[..n]);
      assert more[n] == rest[n - |ls|];
    }
  }

  /** What the store map says of an ID. */
  datatype Registration = Registration(ref: Ref, config: Config, stopped: bool)

  type Registry = map<string, Registration>

  function RegistryOf(s: State): Registry {
    map id | id in s.storeMap && s.storeMap[id] < |s.stores| ::
      Registration(s.storeMap[id], s.stores[s.storeMap[id]].config, s.stores[s.storeMap[id]].stopped)
  }

  function StopIn(reg: Registry, id: string): Registry {
    if id in reg then reg[id := reg[id].(stopped := true)] else reg
  }

  lemma SameRegistries(s: State, s': State)
    requires SameRegistry(s, s')
    ensures RegistryOf(s') == RegistryOf(s)
  {
  }

  // ----- what the handler's own steps do to the registry

  lemma StopEffect(validIP: string -> bool, s: State, l: Protocol.Label, id: string)
    requires RefsOk(s) && Enabled(s, l) && ((l.StartConfig? && l.config.id == id) || (l.StartDelete? && l.id == id))
    ensures RegistryOf(Apply(validIP, s, l)) == StopIn(RegistryOf(s), id)
    ensures |Apply(validIP, s, l).stores| == |s.stores|
  {
    hide RunTask, FirstSave;
    if id in s.storeMap {
      StopOne(s, id);
    }
  }

  lemma StopOne(s: State, id: string)
    requires RefsOk(s) && id in s.storeMap
    ensures RegistryOf(StopStore(s, s.storeMap[id])) == StopIn(RegistryOf(s), id)
  {
    forall other | other in s.storeMap && other != id ensures s.storeMap[other] != s.storeMap[id] {
      assert s.stores[s.storeMap[other]].config.id == other;
    }
  }

  lemma BuildEffect(validIP: string -> bool, s: State, secrets: seq<Secret>, finding: Finding)
    requires RefsOk(s) && s.handler.Building?
    ensures
      var s' := AddStore(validIP, s, secrets, finding);
      && RegistryOf(s') == RegistryOf(s) && |s'.stores| == |s.stores| + 1
      && s'.stores[|s.stores|].config == s.handler.config && !s'.stores[|s.stores|].stopped
      && s'.handler == Registering(|s.stores|)
  {
    var s' := AddStore(validIP, s, secrets, finding);
    assert forall r :: 0 <= r < |s.stores| ==> s'.stores[r] == s.stores[r];
  }

  lemma RegisterEffect(validIP: string -> bool, s: State)
    requires RefsOk(s) && MapOk(s) && Enabled(s, Register)
    ensures
      var r := s.handler.ref;
      var config := s.stores[r].config;
      RegistryOf(Apply(validIP, s, Register)) == RegistryOf(s)[config.id := Registration(r, config, false)]
  {
  }

  lemma RemoveEffect(validIP: string -> bool, s: State)
    requires RefsOk(s) && MapOk(s) && Enabled(s, Remove)
    ensures RegistryOf(Apply(validIP, s, Remove)) == RegistryOf(s) - {s.stores[s.handler.ref].config.id}
  {
  }

  // ----- what a whole ConfigMap does to the registry

  /** What the first i keys define; of two keys for one ID the later counts. */
  function Definitions(cm: ConfigMap, i: nat): map<string, Config>
    requires i <= |cm.items| && forall j :: 0 <= j < i ==> Works(cm.items[j])
  {
    if i == 0 then map[]
    else
      assert Works(cm.items[i - 1]);
      var config := ConfigOf(cm, cm.items[i - 1]);
      Definitions(cm, i - 1)[config.id := config]
  }

  /** Each defined ID has a live store of its own, built after the first n, with the
      configuration its key gives it; every other ID is as it was. */
  ghost predicate Defined(defs: map<string, Config>, n: nat, before: Registry, reg: Registry) {
    && reg.Keys == before.Keys + defs.Keys
    && (forall id :: id in defs ==> reg[id].config == defs[id] && !reg[id].stopped && n <= reg[id].ref)
    && (forall id :: id in before && id !in defs ==> reg[id] == before[id])
  }

  /** The registry when the work on a key fails: nothing new if it does not parse, else a stopped store. */
  function Failed(cm: ConfigMap, item: Item, reg: Registry): Registry {
    if item.parsed.Failure? then reg else StopIn(reg, ConfigOf(cm, item).id)
  }

  function InForce(reg: Registry): map<string, Config> {
    map id | id in reg && !reg[id].stopped :: reg[id].config
  }

  lemma {:induction false} DefinitionsAreOutcomes(cm: ConfigMap, i: nat)
    requires i <= |cm.items| && forall j :: 0 <= j < i ==> Works(cm.items[j])
    ensures Outcomes(cm, i).Keys == Definitions(cm, i).Keys
    ensures forall id :: id in Definitions(cm, i) ==> Outcomes(cm, i)[id] == Some(Definitions(cm, i)[id])
  {
    hide NodeId;
    if i != 0 {
      DefinitionsAreOutcomes(cm, i - 1);
      assert Touched(cm, i - 1);
    }
  }

  lemma DefinedInForce(cm: ConfigMap, i: nat, n: nat, before: Registry, reg: Registry)
    requires i <= |cm.items| && forall j :: 0 <= j < i ==> Works(cm.items[j])
    requires Defined(Definitions(cm, i), n, before, reg)
    ensures InForce(reg) == Handled(Outcomes(cm, i), InForce(before))
  {
    hide Definitions, Outcomes;
    DefinitionsAreOutcomes(cm, i);
  }

  lemma {:induction false} NothingAfterFailure(cm: ConfigMap, i: nat, n: nat)
    requires i < n <= |cm.items| && !Works(cm.items[i])
    ensures Outcomes(cm, n) == Outcomes(cm, i + 1)
  {
    hide IdAt, ConfigOf;
    if n > i + 1 {
      NothingAfterFailure(cm, i, n - 1);
    }
  }

  lemma FailedInForce(cm: ConfigMap, i: nat, n: nat, before: Registry, reg: Registry)
    requires i < |cm.items| && !Works(cm.items[i]) && forall j :: 0 <= j < i ==> Works(cm.items[j])
    requires Defined(Definitions(cm, i), n, before, reg)
    ensures InForce(Failed(cm, cm.items[i], reg)) == Handled(Outcomes(cm, |cm.items|), InForce(before))
  {
    hide Definitions, NodeId, Defined, ConfigOf, InForce, Handled, StopIn;
    DefinedInForce(cm, i, n, before, reg);
    NothingAfterFailure(cm, i, |cm.items|);
    assert Touched(cm, i) <==> cm.items[i].parsed.Success?;
    if Touched(cm, i) {
      var id := IdAt(cm, i);
      assert ConfigOf(cm, cm.items[i]).id == id by { IdOfConfig(cm, i); }
      StoppedInForce(reg, id);
      HandledNone(Outcomes(cm, i), InForce(before), id);
    }
  }

  lemma IdOfConfig(cm: ConfigMap, i: int)
    requires Touched(cm, i)
    ensures ConfigOf(cm, cm.items[i]).id == IdAt(cm, i)
  {
  }

  lemma StoppedInForce(reg: Registry, id: string)
    ensures InForce(StopIn(reg, id)) == InForce(reg) - {id}
  {
  }

  lemma HandledNone(effect: map<string, Option<Config>>, inForce: map<string, Config>, id: string)
    ensures Handled(effect[id := None], inForce) == Handled(effect, inForce) - {id}
  {
  }

  /** The last of the first k keys that names a node defines it. */
  lemma {:induction false} LastDefines(cm: ConfigMap, k: nat, i: nat, id: string)
    requires i < k <= |cm.items| && forall j :: 0 <= j < k ==> Works(cm.items[j])
    requires IsNodeId(cm, cm.items[i], id) && forall j :: i < j < k ==> !IsNodeId(cm, cm.items[j], id)
    ensures id in Definitions(cm, k) && Definitions(cm, k)[id] == ConfigOf(cm, cm.items[i])
  {
    hide IsNodeId, ConfigOf, NodeId;
    assert Works(cm.items[k - 1]);
    ConfigMeans(cm, cm.items[k - 1], id);
    if i < k - 1 {
      LastDefines(cm, k - 1, i, id);
    }
  }

  lemma {:induction false} NoneDefines(cm: ConfigMap, k: nat, id: string)
    requires k <= |cm.items| && forall j :: 0 <= j < k ==> Works(cm.items[j])
    requires forall j :: 0 <= j < k ==> !IsNodeId(cm, cm.items[j], id)
    ensures id !in Definitions(cm, k)
  {
    hide IsNodeId, ConfigOf, NodeId;
    if k != 0 {
      assert Works(cm.items[k - 1]);
      ConfigMeans(cm, cm.items[k - 1], id);
      NoneDefines(cm, k - 1, id);
    }
  }

  /** Key i names the node, and no later key does. */
  ghost predicate NamesLast(cm: ConfigMap, i: int, id: string) {
    && 0 <= i < |cm.items| && IsNodeId(cm, cm.items[i], id)
    && forall j :: i < j < |cm.items| ==> !IsNodeId(cm, cm.items[j], id)
  }

  /** A live store of the node's own, built after the first n, with what the key says. */
  ghost predicate HasStore(cm: ConfigMap, n: nat, reg: Registry, i: int, id: string)
  {
    && 0 <= i < |cm.items|
    && id in reg && !reg[id].stopped && n <= reg[id].ref && reg[id].config.id == id && IsConfigOf(cm, cm.items[i], reg[id].config)
  }

  /** Every node that some key names has such a store, with what the last of them says. */
  ghost predicate NodesDefined(cm: ConfigMap, n: nat, reg: Registry) {
    forall i, id :: NamesLast(cm, i, id) ==> HasStore(cm, n, reg, i, id)
  }

  /** Nodes that no key names are as they were. */
  ghost predicate OthersUntouched(cm: ConfigMap, before: Registry, reg: Registry) {
    forall id :: (forall i :: 0 <= i < |cm.items| ==> !IsNodeId(cm, cm.items[i], id)) ==>
      (id in reg <==> id in before) && (id in reg ==> reg[id] == before[id])
  }

  lemma LastHasStore(cm: ConfigMap, n: nat, before: Registry, reg: Registry, i: nat, id: string)
    requires forall j :: 0 <= j < |cm.items| ==> Works(cm.items[j])
    requires Defined(Definitions(cm, |cm.items|), n, before, reg) && NamesLast(cm, i, id)
    ensures HasStore(cm, n, reg, i, id)
  {
    LastDefines(cm, |cm.items|, i, id);
    hide IsNodeId, IsConfigOf, Definitions, ConfigOf, NodeId;
    assert Works(cm.items[i]);
    ConfigMeans(cm, cm.items[i], id);
  }

  lemma UnnamedUntouched(cm: ConfigMap, n: nat, before: Registry, reg: Registry, id: string)
    requires forall j :: 0 <= j < |cm.items| ==> Works(cm.items[j])
    requires Defined(Definitions(cm, |cm.items|), n, before, reg)
    requires forall i :: 0 <= i < |cm.items| ==> !IsNodeId(cm, cm.items[i], id)
    ensures (id in reg <==> id in before) && (id in reg ==> reg[id] == before[id])
  {
    hide IsNodeId, Definitions;
    NoneDefines(cm, |cm.items|, id);
  }

  lemma AllDefined(cm: ConfigMap, n: nat, before: Registry, reg: Registry)
    requires AllKeysDone(cm, n, before, reg, true, |cm.items|)
    ensures NodesDefined(cm, n, reg) && OthersUntouched(cm, before, reg)
  {
    hide IsNodeId, IsConfigOf, Definitions, Defined, NamesLast, HasStore, Works;
    forall i, id | NamesLast(cm, i, id) ensures HasStore(cm, n, reg, i, id) {
      NamesInRange(cm, i, id);
      LastHasStore(cm, n, before, reg, i, id);
    }
    forall id | forall i :: 0 <= i < |cm.items| ==> !IsNodeId(cm, cm.items[i], id)
      ensures (id in reg <==> id in before) && (id in reg ==> reg[id] == before[id])
    {
      UnnamedUntouched(cm, n, before, reg, id);
    }
  }

  lemma NamesInRange(cm: ConfigMap, i: int, id: string)
    requires NamesLast(cm, i, id)
    ensures 0 <= i < |cm.items|
  {
  }

  /** A node that a key names is one the ConfigMap owns in the end. */
  lemma {:induction false} NamedIsOwned(cm: ConfigMap, n: nat, reg: Registry, i: nat, id: string)
    requires NodesDefined(cm, n, reg) && i < |cm.items| && IsNodeId(cm, cm.items[i], id)
    ensures id in reg && reg[id].config.owner == cm.owner
    decreases |cm.items| - i
  {
    hide IsNodeId;
    if j :| i < j < |cm.items| && IsNodeId(cm, cm.items[j], id) {
      NamedIsOwned(cm, n, reg, j, id);
    } else {
      assert NamesLast(cm, i, id) && HasStore(cm, n, reg, i, id);
    }
  }

  /** Deleting what was just defined leaves none of it, and of the rest what is not the ConfigMap's. */
  lemma NoneLeft(cm: ConfigMap, n: nat, before: Registry, reg: Registry)
    requires NodesDefined(cm, n, reg) && OthersUntouched(cm, before, reg)
    ensures forall i, id :: 0 <= i < |cm.items| && IsNodeId(cm, cm.items[i], id) ==> id !in Surviving(reg, {}, cm.owner)
    ensures (forall id :: id in before ==> before[id].config.owner != cm.owner)
      && (forall i, id :: 0 <= i < |cm.items| && IsNodeId(cm, cm.items[i], id) ==> id !in before)
      ==> Surviving(reg, {}, cm.owner) == before
  {
    hide IsNodeId, NodesDefined;
    forall i, id | 0 <= i < |cm.items| && IsNodeId(cm, cm.items[i], id) ensures id in reg && reg[id].config.owner == cm.owner {
      NamedIsOwned(cm, n, reg, i, id);
    }
  }

  /** The handler's steps for the first k keys: stop and define, build with the secrets made for
      the key, register. */
  ghost predicate Built(cm: ConfigMap, k: nat, steps: seq<Protocol.Label>) {
    && k <= |cm.items| && |steps| == 3 * k
    && forall i :: 0 <= i < k ==>
         && Works(cm.items[i])
         && steps[3 * i].StartConfig? && IsNodeId(cm, cm.items[i], steps[3 * i].config.id) && IsConfigOf(cm, cm.items[i], steps[3 * i].config)
         && steps[3 * i + 1].NewStore? && steps[3 * i + 1].secrets == cm.items[i].created.value
         && steps[3 * i + 2].Register?
  }

  lemma NothingBuilt(cm: ConfigMap)
    ensures Built(cm, 0, [])
  {
  }

  lemma SuffixGrows(own: seq<Protocol.Label>, steps: seq<Protocol.Label>, now: seq<Protocol.Label>, more: seq<Protocol.Label>)
    requires own <= steps && now == steps + more
    ensures own <= now && now[|own|..] == steps[|own|..] + more
  {
  }

  lemma BuiltNext(cm: ConfigMap, k: nat, steps: seq<Protocol.Label>, finding: Finding)
    requires Built(cm, k, steps) && k < |cm.items| && Works(cm.items[k])
    ensures Built(cm, k + 1, steps + [StartConfig(ConfigOf(cm, cm.items[k])), NewStore(cm.items[k].created.value, finding), Register])
  {
    hide IsNodeId, IsConfigOf, ConfigOf;
    ConfigMeans(cm, cm.items[k], ConfigOf(cm, cm.items[k]).id);
    var more := steps + [StartConfig(ConfigOf(cm, cm.items[k])), NewStore(cm.items[k].created.value, finding), Register];
    assert forall j :: 0 <= j < |steps| ==> more[j] == steps[j];
  }

  lemma DefineOne(defs: map<string, Config>, n: nat, before: Registry, reg: Registry, config: Config, ref: Ref)
    requires Defined(defs, n, before, reg) && n <= ref
    ensures Defined(defs[config.id := config], n, before, reg[config.id := Registration(ref, config, false)])
  {
  }

  /** Every key has its store, or all keys before the first that fails have theirs. */
  ghost predicate AllKeysDone(cm: ConfigMap, n: nat, before: Registry, after: Registry, ok: bool, done: nat) {
    && done <= |cm.items|
    && (forall j :: 0 <= j < done ==> Works(cm.items[j]))
    && if ok then done == |cm.items| && Defined(Definitions(cm, done), n, before, after)
       else
         && done < |cm.items| && !Works(cm.items[done])
         && exists reg :: Defined(Definitions(cm, done), n, before, reg) && after == Failed(cm, cm.items[done], reg)
  }

  lemma AllWorked(cm: ConfigMap, n: nat, before: Registry, after: Registry, ok: bool, done: nat)
    requires AllKeysDone(cm, n, before, after, ok, done) && forall i :: 0 <= i < |cm.items| ==> Works(cm.items[i])
    ensures ok
  {
  }

  lemma AllDone(cm: ConfigMap, n: nat, before: Registry, after: Registry, done: nat)
    requires AllKeysDone(cm, n, before, after, true, done)
    ensures done == |cm.items|
  {
  }

  lemma DoneInForce(cm: ConfigMap, n: nat, before: Registry, after: Registry, ok: bool, done: nat)
    requires AllKeysDone(cm, n, before, after, ok, done)
    ensures InForce(after) == Handled(Outcomes(cm, |cm.items|), InForce(before))
  {
    hide Defined, Definitions, Failed, Outcomes, InForce;
    if ok {
      DefinedInForce(cm, done, n, before, after);
    } else {
      var reg :| Defined(Definitions(cm, done), n, before, reg) && after == Failed(cm, cm.items[done], reg);
      FailedInForce(cm, done, n, before, reg);
    }
  }

  /** What is left of a registry when the IDs outside `pending` that belong to an owner are gone. */
  function Surviving(reg: Registry, pending: set<string>, owner: Owner): Registry {
    map id | id in reg && (id in pending || reg[id].config.owner != owner) :: reg[id]
  }

  lemma SurviveOne(reg: Registry, pending: set<string>, owner: Owner, id: string)
    requires id in pending && id in reg
    ensures id in Surviving(reg, pending, owner) && Surviving(reg, pending, owner)[id] == reg[id]
    ensures Surviving(reg, pending - {id}, owner) ==
      if reg[id].config.owner == owner then Surviving(reg, pending, owner) - {id} else Surviving(reg, pending, owner)
  {
  }

  lemma StopThenRemove(reg: Registry, id: string)
    ensures StopIn(reg, id) - {id} == reg - {id}
  {
  }

  lemma SurviveAll(reg: Registry, owner: Owner)
    ensures Surviving(reg, reg.Keys, owner) == reg
  {
  }

  lemma OwnedOf(s: State, owner: Owner)
    ensures forall id :: id in Owned(s, owner) <==> id in RegistryOf(s) && RegistryOf(s)[id].config.owner == owner
  {
  }

  /** The handler's goroutine. `trace` records every step so far, of all goroutines. */
  class Controller {
    const validIP: string -> bool
    var s: State
    ghost var trace: seq<Protocol.Label>

    /** The state is one that a run of the protocol reaches. */
    ghost predicate Valid()
      reads this
    {
      CanRun(validIP, INITIAL, trace) && s == Run(validIP, INITIAL, trace)
    }

    constructor (validIP: string -> bool)
      ensures Valid() && this.validIP == validIP && s == INITIAL
    {
      this.validIP := validIP;
      s := INITIAL;
      trace := [];
    }

    function Registered(): Registry
      reads this
    {
      RegistryOf(s)
    }

    /** Any number of steps of other goroutines. The body takes none, but callers may rely on
        the contract only, and every run of such steps meets it: see OthersRun. */
    method Interfere()
      requires Valid()
      modifies this
      ensures Valid() && old(trace) <= trace && forall l :: l in trace[|old(trace)|..] ==> IsOthers(l)
      ensures SameRegistry(old(s), s)
    {
    }

    /** One step of the handler, then steps of others. */
    method Do(l: Protocol.Label)
      requires Valid() && Enabled(s, l) && !IsOthers(l)
      modifies this
      ensures Valid() && SameRegistry(Apply(validIP, old(s), l), s)
      ensures OwnSteps(trace) == OwnSteps(old(trace)) + [l]
      ensures Registered() == RegistryOf(Apply(validIP, old(s), l))
    {
      RunCons(validIP, s, [l]);
      RunAppend(validIP, INITIAL, trace, [l]);
      s := Apply(validIP, s, l);
      trace := trace + [l];
      OwnStepsNext(old(trace), l);
      ghost var applied, done := s, trace;
      Interfere();
      OwnStepsSkip(done, trace);
      SameRegistries(applied, s);
    }

    method StopOld(config: Config)
      requires Valid() && s.handler.Idle? && !s.crashed
      modifies this
      ensures Valid() && s.handler == Building(config) && |s.stores| == |old(s).stores|
      ensures OwnSteps(trace) == OwnSteps(old(trace)) + [StartConfig(config)]
      ensures Registered() == StopIn(old(Registered()), config.id)
    {
      Reachable(validIP, trace);
      StopEffect(validIP, s, StartConfig(config), config.id);
      Do(StartConfig(config));
    }

    method Abandon()
      requires Valid() && s.handler.Building? && !s.crashed
      modifies this
      ensures Valid() && s.handler.Idle? && |s.stores| == |old(s).stores|
      ensures Registered() == old(Registered())
    {
      Do(AbandonConfig);
    }

    /** Builds a store and registers it, unless the process dies in between. */
    method Build(secrets: seq<Secret>) returns (ghost found: Finding)
      requires Valid() && s.handler.Building? && !s.crashed
      modifies this
      ensures Valid() && |s.stores| == |old(s).stores| + 1 && (s.crashed || s.handler.Idle?)
      ensures
        var config := old(s).handler.config;
        || (s.crashed && Registered() == old(Registered()))
        || Registered() == old(Registered())[config.id := Registration(|old(s).stores|, config, false)]
      ensures !s.crashed ==>
        Registered() == old(Registered())[old(s).handler.config.id := Registration(|old(s).stores|, old(s).handler.config, false)]
      ensures !s.crashed ==> OwnSteps(trace) == OwnSteps(old(trace)) + [NewStore(secrets, found), Register]
    {
      hide CanRun, Run, OwnSteps, RegistryOf;
      found := BuildStore(secrets);
      if s.crashed {
        return;
      }
      RegisterNew();
    }

    method BuildStore(secrets: seq<Secret>) returns (ghost found: Finding)
      requires Valid() && s.handler.Building? && !s.crashed
      modifies this
      ensures Valid() && |s.stores| == |old(s).stores| + 1 && s.handler == Registering(|old(s).stores|)
      ensures s.stores[|old(s).stores|].config == old(s).handler.config
      ensures Registered() == old(Registered())
      ensures OwnSteps(trace) == OwnSteps(old(trace)) + [NewStore(secrets, found)]
    {
      assert FindingOk(s.handler.config, ListerFailed);
      var finding :| FindingOk(s.handler.config, finding);
      found := finding;
      hide FindingOk, CanRun, Run, DataOk, VersionsOk, MapOk, RefsOk, OwnSteps, RegistryOf, AddStore, Apply, Enabled;
      Reachable(validIP, trace);
      BuildEffect(validIP, s, secrets, finding);
      NewStoreStep(validIP, s, secrets, finding);
      Do(NewStore(secrets, finding));
    }

    method RegisterNew()
      requires Valid() && s.handler.Registering? && s.handler.ref < |s.stores| && !s.crashed
      modifies this
      ensures Valid() && s.handler.Idle? && |s.stores| == |old(s).stores|
      ensures
        var r := old(s).handler.ref;
        var config := old(s).stores[r].config;
        Registered() == old(Registered())[config.id := Registration(r, config, false)]
      ensures OwnSteps(trace) == OwnSteps(old(trace)) + [Register]
    {
      hide CanRun, Run, DataOk, VersionsOk, MapOk, RefsOk, OwnSteps, RegistryOf, Apply, Enabled;
      Reachable(validIP, trace);
      RegisterStep(validIP, s, s.handler.ref);
      RegisterEffect(validIP, s);
      Do(Register);
    }

    /** Stop the registered store, build a new one, register it. A failure on the way
        leaves the old store registered and stopped. */
    method Replace(config: Config, resourcesSaved: bool, created: Result<seq<Secret>>) returns (ok: bool, ghost found: Finding)
      requires Valid() && s.handler.Idle? && !s.crashed
      modifies this
      ensures Valid() && |old(s).stores| <= |s.stores| && (s.crashed || s.handler.Idle?)
      ensures !s.crashed ==> (ok <==> resourcesSaved && created.Success?)
      ensures !s.crashed ==>
        Registered() == if ok then old(Registered())[config.id := Registration(|old(s).stores|, config, false)]
                        else StopIn(old(Registered()), config.id)
      ensures Registered() - {config.id} == old(Registered()) - {config.id}
      ensures !s.crashed && ok ==>
        OwnSteps(trace) == OwnSteps(old(trace)) + [StartConfig(config), NewStore(created.value, found), Register]
    {
      hide CanRun, Run, RegistryOf, OwnSteps;
      found := ListerFailed;
      StopOld(config);
      if s.crashed {
        return false, found;
      }
      if !resourcesSaved || created.Failure? {
        Abandon();
        return false, found;
      }
      found := Build(created.value);
      ok := !s.crashed;
    }

    /** NewConfigMap. What is in force afterwards is what the ConfigMap's effect makes of what
        was in force before; the rest tells stores apart as well. */
    method NewConfigMap(settings: Settings, cm: ConfigMap) returns (ok: bool, done: nat)
      requires Valid() && s.handler.Idle? && !s.crashed
      modifies this
      ensures Valid() && (s.crashed || s.handler.Idle?)
      ensures !Selected(settings, cm) ==> ok && Registered() == old(Registered())
      ensures !s.crashed ==> InForce(Registered()) == Handled(Effect(settings, cm), InForce(old(Registered())))
      ensures Selected(settings, cm) && !s.crashed ==> AllKeysDone(cm, |old(s).stores|, old(Registered()), Registered(), ok, done)
      ensures Selected(settings, cm) && !s.crashed && ok ==>
        && NodesDefined(cm, |old(s).stores|, Registered()) && OthersUntouched(cm, old(Registered()), Registered())
        && OwnSteps(old(trace)) <= OwnSteps(trace) && Built(cm, |cm.items|, OwnSteps(trace)[|OwnSteps(old(trace))|..])
    {
      hide CanRun, Run, Selected, Outcomes, AllKeysDone, RegistryOf, OwnSteps, Built, NodesDefined, OthersUntouched;
      var selected := CheckConfigMapLabels(settings, cm);
      if !selected {
        return true, 0;
      }
      ok, done := DefineKeys(cm);
      if !s.crashed {
        DoneInForce(cm, |old(s).stores|, old(Registered()), Registered(), ok, done);
        if ok {
          AllDone(cm, |old(s).stores|, old(Registered()), Registered(), done);
          AllDefined(cm, |old(s).stores|, old(Registered()), Registered());
        }
      }
    }

    /** Every data key in turn, until one of them fails. */
    method DefineKeys(cm: ConfigMap) returns (ok: bool, done: nat)
      requires Valid() && s.handler.Idle? && !s.crashed
      modifies this
      ensures Valid() && (s.crashed || s.handler.Idle?)
      ensures !s.crashed ==> AllKeysDone(cm, |old(s).stores|, old(Registered()), Registered(), ok, done)
      ensures !s.crashed && ok ==>
        OwnSteps(old(trace)) <= OwnSteps(trace) && Built(cm, |cm.items|, OwnSteps(trace)[|OwnSteps(old(trace))|..])
    {
      hide CanRun, Run, ConfigOf, StopIn, RegistryOf, OwnSteps, Built;
      ok, done := true, 0;
      ghost var own := OwnSteps(trace);
      assert own[|own|..] == [];
      NothingBuilt(cm);
      while done < |cm.items|
        invariant Valid() && s.handler.Idle? && !s.crashed && ok
        invariant 0 <= done <= |cm.items| && |old(s).stores| <= |s.stores|
        invariant forall j :: 0 <= j < done ==> Works(cm.items[j])
        invariant Defined(Definitions(cm, done), |old(s).stores|, old(Registered()), Registered())
        invariant own <= OwnSteps(trace) && Built(cm, done, OwnSteps(trace)[|own|..])
      {
        ghost var before, n := Registered(), |s.stores|;
        ghost var steps, found := OwnSteps(trace), ListerFailed;
        ok, found := AddKey(cm, cm.items[done]);
        if s.crashed || !ok {
          return false, done;
        }
        DefineOne(Definitions(cm, done), |old(s).stores|, old(Registered()), before, ConfigOf(cm, cm.items[done]), n);
        BuiltNext(cm, done, steps[|own|..], found);
        SuffixGrows(own, steps, OwnSteps(trace), [StartConfig(ConfigOf(cm, cm.items[done])), NewStore(cm.items[done].created.value, found), Register]);
        done := done + 1;
      }
    }

    /** The work on one data key. */
    method AddKey(cm: ConfigMap, item: Item) returns (ok: bool, ghost found: Finding)
      requires Valid() && s.handler.Idle? && !s.crashed
      modifies this
      ensures Valid() && |old(s).stores| <= |s.stores| && (s.crashed || s.handler.Idle?)
      ensures !s.crashed ==> (ok <==> Works(item))
      ensures !s.crashed ==>
        Registered() ==
          if Works(item) then old(Registered())[ConfigOf(cm, item).id := Registration(|old(s).stores|, ConfigOf(cm, item), false)]
          else Failed(cm, item, old(Registered()))
      ensures !s.crashed && ok ==>
        OwnSteps(trace) == OwnSteps(old(trace)) + [StartConfig(ConfigOf(cm, item)), NewStore(item.created.value, found), Register]
    {
      hide CanRun, Run, RegistryOf, OwnSteps;
      found := ListerFailed;
      if item.parsed.Failure? {
        return false, found;
      }
      ok, found := Replace(ConfigOf(cm, item), item.resourcesSaved, item.created);
    }

    method BeginDelete(id: string)
      requires Valid() && s.handler.Idle? && !s.crashed && id in Registered()
      modifies this
      ensures Valid() && s.handler.Draining? && s.handler.ref < |s.stores| && s.stores[s.handler.ref].config.id == id
      ensures OwnSteps(trace) == OwnSteps(old(trace)) + [StartDelete(id)]
      ensures Registered() == StopIn(old(Registered()), id)
    {
      Reachable(validIP, trace);
      StopEffect(validIP, s, StartDelete(id), id);
      Do(StartDelete(id));
    }

    method Clear()
      requires Valid() && s.handler.Draining? && s.handler.ref < |s.stores| && !s.crashed
      modifies this
      ensures Valid() && s.handler == Cleared(old(s).handler.ref) && |s.stores| == |old(s).stores|
      ensures s.stores[s.handler.ref].config == old(s).stores[s.handler.ref].config
      ensures OwnSteps(trace) == OwnSteps(old(trace)) + [ClearSnapshot]
      ensures Registered() == old(Registered())
    {
      Do(ClearSnapshot);
    }

    method RemoveCleared()
      requires Valid() && s.handler.Cleared? && s.handler.ref < |s.stores| && !s.crashed
      modifies this
      ensures Valid() && s.handler.Idle?
      ensures Registered() == old(Registered()) - {old(s).stores[old(s).handler.ref].config.id}
      ensures OwnSteps(trace) == OwnSteps(old(trace)) + [Remove]
    {
      Reachable(validIP, trace);
      RemoveEffect(validIP, s);
      Do(Remove);
    }

    /** Stop, drain, clear and remove one store. Other goroutines may write the cache in
        between, so what the cache holds in the end is said for the undisturbed case only. */
    method DeleteNode(id: string)
      requires Valid() && s.handler.Idle? && !s.crashed && id in Registered()
      modifies this
      ensures Valid() && (s.crashed || s.handler.Idle?)
      ensures !s.crashed ==> Registered() == old(Registered()) - {id}
      ensures !s.crashed ==> OwnSteps(trace) == OwnSteps(old(trace)) + [StartDelete(id), ClearSnapshot, Remove]
    {
      hide CanRun, Run, OwnSteps, RegistryOf, StopIn;
      BeginDelete(id);
      StopThenRemove(old(Registered()), id);
      if s.crashed {
        return;
      }
      Clear();
      if s.crashed {
        return;
      }
      RemoveCleared();
    }

    /** DeleteConfigMap removes exactly the stores that came from this ConfigMap. `deleted`
        lists them in the order in which the store map is traversed: each is stopped, cleared
        and removed, and nothing else is done. If no other goroutine acts meanwhile, exactly
        their snapshots are gone and nothing else has changed. */
    method DeleteConfigMap(owner: Owner) returns (ghost deleted: seq<string>)
      requires Valid() && s.handler.Idle? && !s.crashed
      modifies this
      ensures Valid() && (s.crashed || s.handler.Idle?)
      ensures !s.crashed ==> Registered() == Surviving(old(Registered()), {}, owner)
      ensures !s.crashed ==> Distinct(deleted) && (set id | id in deleted) == Owned(old(s), owner)
      ensures !s.crashed ==> OwnSteps(trace) == OwnSteps(old(trace)) + DeleteSteps(deleted)
      ensures !s.crashed && trace == old(trace) + DeleteSteps(deleted) ==>
        RefsOk(old(s)) && DeletedExactly(old(s), s, Owned(old(s), owner))
    {
      hide CanRun, Run, DeletedExactly, OwnSteps;
      deleted := RemoveOwned(owner);
      if !s.crashed && trace == old(trace) + DeleteSteps(deleted) {
        Reachable(validIP, old(trace));
        OwnerDeletion(validIP, old(s), owner, deleted);
        RunAppend(validIP, INITIAL, old(trace), DeleteSteps(deleted));
      }
    }

    method RemoveOwned(owner: Owner) returns (ghost deleted: seq<string>)
      requires Valid() && s.handler.Idle? && !s.crashed
      modifies this
      ensures Valid() && (s.crashed || s.handler.Idle?)
      ensures !s.crashed ==> Registered() == Surviving(old(Registered()), {}, owner)
      ensures !s.crashed ==> Distinct(deleted) && (set id | id in deleted) == Owned(old(s), owner)
      ensures !s.crashed ==> OwnSteps(trace) == OwnSteps(old(trace)) + DeleteSteps(deleted)
    {
      hide CanRun, Run, DeletedExactly, DeleteSteps, OwnSteps, RegistryOf, Surviving;
      ghost var before := Registered();
      var keys := Registered().Keys;
      deleted := [];
      SurviveAll(before, owner);
      NoSteps();
      while keys != {}
        invariant Valid() && s.handler.Idle? && !s.crashed
        invariant keys <= before.Keys
        invariant Registered() == Surviving(before, keys, owner)
        invariant Distinct(deleted)
        invariant forall id :: id in deleted <==> id in before && id !in keys && before[id].config.owner == owner
        invariant OwnSteps(trace) == OwnSteps(old(trace)) + DeleteSteps(deleted)
        decreases |keys|
      {
        var id :| id in keys;
        SurviveOne(before, keys, owner, id);
        if Registered()[id].config.owner == owner {
          DeleteNode(id);
          if s.crashed {
            return;
          }
          DeleteStepsNext(deleted, id);
          deleted := deleted + [id];
        }
        keys := keys - {id};
      }
      OwnedOf(old(s), owner);
    }

    /** The two handlers together: deleting a ConfigMap whose keys were all just defined leaves none
        of its nodes, and gives back the registry there was if it had none before. */
    method DefineThenDelete(settings: Settings, cm: ConfigMap)
      requires Valid() && s.handler.Idle? && !s.crashed && Selected(settings, cm)
      requires forall i :: 0 <= i < |cm.items| ==> Works(cm.items[i])
      modifies this
      ensures Valid()
      ensures !s.crashed ==>
        forall i, id :: 0 <= i < |cm.items| && IsNodeId(cm, cm.items[i], id) ==> id !in Registered()
      ensures !s.crashed
        && (forall id :: id in old(Registered()) ==> old(Registered())[id].config.owner != cm.owner)
        && (forall i, id :: 0 <= i < |cm.items| && IsNodeId(cm, cm.items[i], id) ==> id !in old(Registered()))
        ==> Registered() == old(Registered())
    {
      hide CanRun, Run, Selected, Outcomes, RegistryOf, OwnSteps, Built, NodesDefined, OthersUntouched, IsNodeId, Works, Surviving;
      ghost var n := |s.stores|;
      var ok, done := NewConfigMap(settings, cm);
      if s.crashed {
        return;
      }
      AllWorked(cm, n, old(Registered()), Registered(), ok, done);
      NoneLeft(cm, n, old(Registered()), Registered());
      var _ := DeleteConfigMap(cm.owner);
    }
  }
}
