// The secret list of a snapshot: pointers to the configuration's own secrets,
// followed by pointers into the store's current common secrets.
module SnapshotSecrets {
  import opened Slices
  import opened Stores
  import opened Wrappers

  /** A pointer to a secret: to one the configuration owns, or into an array of common secrets. */
  datatype SecretRef = Own(secret: Secret) | Common(source: array<Secret>, index: nat)

  predicate IsRef(ref: SecretRef) {
    ref.Common? ==> ref.index < ref.source.Length
  }

  ghost function Sources(refs: seq<SecretRef>): set<array<Secret>> {
    set i | 0 <= i < |refs| && refs[i].Common? :: refs[i].source
  }

  function Deref(ref: SecretRef): Secret
    requires IsRef(ref)
    reads if ref.Common? then {ref.source} else {}
  {
    match ref
    case Own(secret) => secret
    case Common(source, index) => source[index]
  }

  /** The secrets a list of pointers shows now. */
  ghost function Values(refs: seq<SecretRef>): seq<Secret>
    requires forall i :: 0 <= i < |refs| ==> IsRef(refs[i])
    reads Sources(refs)
  {
    if refs == [] then [] else Values(refs[..|refs| - 1]) + [Deref(refs[|refs| - 1])]
  }

  function OwnRefs(own: seq<Secret>): (refs: seq<SecretRef>)
    ensures |refs| == |own| && forall i :: 0 <= i < |own| ==> refs[i] == Own(own[i])
  {
    seq(|own|, i requires 0 <= i < |own| => Own(own[i]))
  }

  function CommonRefs(source: array<Secret>, n: nat): (refs: seq<SecretRef>)
    ensures |refs| == n && forall i :: 0 <= i < n ==> refs[i] == Common(source, i)
  {
    seq(n, i requires 0 <= i < n => Common(source, i))
  }

  lemma {:induction false} OwnValues(own: seq<Secret>)
    ensures Values(OwnRefs(own)) == own
  {
    if own != [] {
      OwnValues(own[..|own| - 1]);
      assert OwnRefs(own)[..|own| - 1] == OwnRefs(own[..|own| - 1]);
    }
  }

  /** The list of a snapshot shows the configuration's secrets, then the common ones. */
  lemma {:induction false} ListValues(own: seq<Secret>, source: array<Secret>, n: nat)
    requires n <= source.Length
    ensures Values(OwnRefs(own) + CommonRefs(source, n)) == own + source[..n]
  {
    var refs := OwnRefs(own) + CommonRefs(source, n);
    if n == 0 {
      assert refs == OwnRefs(own);
      OwnValues(own);
    } else {
      ListValues(own, source, n - 1);
      assert refs[..|refs| - 1] == OwnRefs(own) + CommonRefs(source, n - 1);
    }
  }

  /** A snapshot's list, the pointers it held when it was made, and what it showed then. */
  datatype Snapshotted = Snapshotted(list: Slice<SecretRef>, refs: seq<SecretRef>, value: seq<Secret>)

  class SecretStore {
    const configSecrets: Slice<SecretRef>
    ghost const own: seq<Secret>
    var common: array<Secret>
    ghost var published: seq<Snapshotted>

    ghost function Lists(): set<array<SecretRef>>
      reads this
    {
      {configSecrets.base} + set i | 0 <= i < |published| :: published[i].list.base
    }

    ghost function AllSources(): set<array<Secret>>
      reads this
    {
      set i, j | 0 <= i < |published| && 0 <= j < |published[i].refs| && published[i].refs[j].Common? :: published[i].refs[j].source
    }

    /** The configuration's list has no spare capacity, and every snapshot still shows what it showed. */
    ghost predicate Valid()
      reads this, common, Lists(), AllSources()
    {
      && IsSlice(configSecrets) && configSecrets.len == configSecrets.base.Length
      && Contents(configSecrets) == OwnRefs(own)
      && forall i :: 0 <= i < |published| ==>
           var p := published[i];
           && IsSlice(p.list) && Contents(p.list) == p.refs
           && (forall j :: 0 <= j < |p.refs| ==> IsRef(p.refs[j]))
           && Sources(p.refs) <= AllSources()
           && Values(p.refs) == p.value
    }

    /** The parsed list is made with exactly the length it needs. */
    constructor (own: seq<Secret>, first: array<Secret>)
      ensures Valid() && published == [] && this.own == own && common == first
      ensures fresh(configSecrets.base)
    {
      var base := new SecretRef[|own|](i requires 0 <= i < |own| => Own(own[i]));
      configSecrets := Slice(base, |own|);
      this.own := own;
      common := first;
      published := [];
      new;
      assert base[..] == OwnRefs(own);
    }

    /** Rotation replaces the whole array of common secrets, or leaves it alone when the
        secrets cannot be created; nothing published changes. */
    method LoadNewSecrets(created: Result<seq<Secret>>) returns (ok: bool)
      requires Valid()
      modifies this
      ensures Valid() && ok == created.Success? && published == old(published)
      ensures if ok then fresh(common) && common[..] == created.value else common == old(common)
    {
      if created.Failure? {
        return false;
      }
      var renewed := new Secret[|created.value|](i requires 0 <= i < |created.value| => created.value[i]);
      common := renewed;
      return true;
    }

    method BuildList() returns (list: Slice<SecretRef>)
      requires IsSlice(configSecrets) && configSecrets.len == configSecrets.base.Length
      requires Contents(configSecrets) == OwnRefs(own)
      ensures IsSlice(list) && Contents(list) == OwnRefs(own) + CommonRefs(common, common.Length)
    {
      list := configSecrets;
      var i := 0;
      while i < common.Length
        invariant 0 <= i <= common.Length
        invariant IsSlice(list) && Contents(list) == OwnRefs(own) + CommonRefs(common, i)
        invariant list == configSecrets || fresh(list.base)
        modifies {}
      {
        var growth: nat := *;
        list := Append(list, [Common(common, i)], growth);
        i := i + 1;
      }
    }

    /** One more snapshot. It shows the configuration's secrets followed by the current common
        ones, however many snapshots there were, and every earlier snapshot shows what it did. */
    method GetConfigSnapshot() returns (list: Slice<SecretRef>)
      requires Valid()
      modifies this
      ensures Valid() && common == old(common)
      ensures |published| == |old(published)| + 1 && published[..|old(published)|] == old(published)
      ensures published[|old(published)|].list == list && published[|old(published)|].value == own + common[..]
    {
      hide Values, OwnRefs, CommonRefs;
      list := BuildList();
      ListValues(own, common, common.Length);
      var made := Snapshotted(list, OwnRefs(own) + CommonRefs(common, common.Length), own + common[..]);
      assert common[..common.Length] == common[..];
      ghost var was := published;
      published := published + [made];
      assert forall i :: 0 <= i < |was| ==> published[i] == was[i];
      assert published[|was|] == made;
    }
  }
}
