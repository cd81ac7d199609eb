// Go slices: a length over a backing array whose capacity may be larger, and
// what `append` does to other slices of the same array.
module Slices {
  datatype Slice<T> = Slice(base: array<T>, len: nat)

  predicate IsSlice<T>(s: Slice<T>) {
    s.len <= s.base.Length
  }

  function Contents<T>(s: Slice<T>): seq<T>
    requires IsSlice(s)
    reads s.base
  {
    s.base[..s.len]
  }

  predicate Fits<T>(s: Slice<T>, n: nat) {
    s.len + n <= s.base.Length
  }

  /** append(s, vs...): in place when the capacity suffices, else in a new array with
      whatever spare capacity the runtime grants. */
  method Append<T(0)>(s: Slice<T>, vs: seq<T>, spare: nat) returns (r: Slice<T>)
    requires IsSlice(s)
    modifies if Fits(s, |vs|) then {s.base} else {}
    ensures IsSlice(r) && r.len == s.len + |vs| && Contents(r) == old(Contents(s)) + vs
    ensures Fits(s, |vs|) ==> r.base == s.base && r.base[r.len..] == old(s.base[r.len..])
    ensures !Fits(s, |vs|) ==> fresh(r.base) && r.base.Length == r.len + spare
  {
    var n := s.len + |vs|;
    if n <= s.base.Length {
      r := Slice(s.base, n);
    } else {
      var grown := new T[n + spare];
      CopyAt(grown, 0, s.base[..s.len]);
      r := Slice(grown, n);
    }
    CopyAt(r.base, s.len, vs);
  }

  method CopyAt<T>(base: array<T>, at: nat, vs: seq<T>)
    requires at + |vs| <= base.Length
    modifies base
    ensures base[..at] == old(base[..at])
    ensures base[at..at + |vs|] == vs
    ensures base[at + |vs|..] == old(base[at + |vs|..])
  {
    for i := 0 to |vs|
      invariant forall k :: 0 <= k < i ==> base[at + k] == vs[k]
      invariant forall k :: 0 <= k < base.Length && !(at <= k < at + i) ==> base[k] == old(base[k])
    {
      base[at + i] := vs[i];
    }
  }

  // ----- repeated appends to one list

  /** The spare part of the array after appending each list in turn to the same slice. */
  function SpareAfter<T>(spare: seq<T>, appended: seq<seq<T>>): (r: seq<T>)
    ensures |r| == |spare|
  {
    if appended == [] then spare
    else
      var before := SpareAfter(spare, appended[..|appended| - 1]);
      var d := appended[|appended| - 1];
      if |d| <= |spare| then d + before[|d|..] else before
  }

  /** What the i-th result shows past the shared prefix once all appends are done. */
  function Seen<T>(spare: seq<T>, appended: seq<seq<T>>, i: nat): seq<T>
    requires i < |appended|
  {
    if |appended[i]| <= |spare| then SpareAfter(spare, appended)[..|appended[i]|] else appended[i]
  }

  lemma SpareNext<T>(spare: seq<T>, appended: seq<seq<T>>, d: seq<T>)
    ensures SpareAfter(spare, appended + [d]) ==
      if |d| <= |spare| then d + SpareAfter(spare, appended)[|d|..] else SpareAfter(spare, appended)
  {
    assert (appended + [d])[..|appended|] == appended;
  }

  lemma LongIntact<T>(spare: seq<T>, appended: seq<seq<T>>, i: nat)
    requires i < |appended| && |appended[i]| > |spare|
    ensures Seen(spare, appended, i) == appended[i]
  {
  }

  /** The newest result always shows what was appended. */
  lemma NewestIntact<T>(spare: seq<T>, appended: seq<seq<T>>)
    requires appended != []
    ensures Seen(spare, appended, |appended| - 1) == appended[|appended| - 1]
  {
    var d := appended[|appended| - 1];
    if |d| <= |spare| {
      assert SpareAfter(spare, appended)[..|d|] == d;
    }
  }

  /** After a second append the first result is still intact exactly when one of the two had
      to move to an array of its own, or they agree on the positions both cover. */
  lemma TwoAppendsIff<T>(spare: seq<T>, a: seq<T>, b: seq<T>)
    ensures Seen(spare, [a, b], 0) == a <==>
      (|a| > |spare| || |b| > |spare| || forall p :: 0 <= p < |a| && p < |b| ==> a[p] == b[p])
  {
    assert [a, b][..1] == [a];
    assert [a][..0] == [];
    assert SpareAfter(spare, [a]) == if |a| <= |spare| then a + spare[|a|..] else spare;
    var s1 := SpareAfter(spare, [a]);
    assert SpareAfter(spare, [a, b]) == if |b| <= |spare| then b + s1[|b|..] else s1;
    if |a| <= |spare| && |b| <= |spare| {
      var seen := Seen(spare, [a, b], 0);
      assert forall p :: 0 <= p < |a| ==> seen[p] == if p < |b| then b[p] else a[p];
      if forall p :: 0 <= p < |a| && p < |b| ==> a[p] == b[p] {
        assert seen == a;
      }
    }
  }

  /** Every earlier result survives every later append exactly when the list it was appended
      to had no spare capacity. */
  lemma AllIntactIff<T(!new)>(spare: seq<T>, x: T, y: T)
    requires x != y
    ensures (forall appended: seq<seq<T>>, i: nat :: i < |appended| ==> Seen(spare, appended, i) == appended[i]) <==> spare == []
  {
    if spare == [] {
      forall appended: seq<seq<T>>, i: nat | i < |appended| ensures Seen(spare, appended, i) == appended[i] {
      }
    } else {
      TwoAppendsIff(spare, [x], [y]);
      assert [x][0] != [y][0];
      assert Seen(spare, [[x], [y]], 0) != [[x], [y]][0];
    }
  }

  // ----- one cluster's static list, and the saves that append to it

  datatype Published<T> = Published(list: Slice<T>, dynamics: seq<T>)

  class StaticList<T(0)> {
    const statics: Slice<T>
    ghost const initial: seq<T>
    ghost const spare: seq<T>
    ghost var history: seq<Published<T>>

    ghost function Appended(): seq<seq<T>>
      reads this
    {
      seq(|history|, i requires 0 <= i < |history| reads this => history[i].dynamics)
    }

    ghost function Bases(): set<array<T>>
      reads this
    {
      set i | 0 <= i < |history| :: history[i].list.base
    }

    /** Every list published so far shows the static endpoints followed by what `Seen` says. */
    ghost predicate Valid()
      reads this, statics.base, Bases()
    {
      && IsSlice(statics) && |initial| == statics.len
      && statics.base[..] == initial + SpareAfter(spare, Appended())
      && forall i :: 0 <= i < |history| ==>
           var p := history[i];
           && IsSlice(p.list) && p.list.len == statics.len + |p.dynamics|
           && (p.list.base == statics.base <==> |p.dynamics| <= |spare|)
           && Contents(p.list) == initial + Seen(spare, Appended(), i)
    }

    constructor (statics: Slice<T>)
      requires IsSlice(statics)
      ensures Valid() && history == [] && this.statics == statics
      ensures initial == Contents(statics) && spare == statics.base[statics.len..]
    {
      this.statics := statics;
      initial := statics.base[..statics.len];
      spare := statics.base[statics.len..];
      history := [];
    }

    /** Appending writes at most the spare part of the static list's array. */
    method AppendToStatics(dynamics: seq<T>, growth: nat) returns (list: Slice<T>)
      requires IsSlice(statics) && |initial| == statics.len && |initial| + |spare| == statics.base.Length
      requires statics.base[..] == initial + SpareAfter(spare, Appended())
      modifies statics.base
      ensures IsSlice(list) && list.len == statics.len + |dynamics| && Contents(list) == initial + dynamics
      ensures statics.base[..] == initial + SpareAfter(spare, Appended() + [dynamics])
      ensures if |dynamics| <= |spare| then list.base == statics.base else fresh(list.base)
      ensures |dynamics| > |spare| || spare == [] ==> statics.base[..] == old(statics.base[..])
    {
      hide SpareAfter;
      SpareNext(spare, Appended(), dynamics);
      list := Append(statics, dynamics, growth);
      assert statics.base[..] == statics.base[..statics.len] + statics.base[statics.len..];
    }

    /** One save. It never touches the static endpoints, and without spare capacity it never
        touches an earlier list either. */
    method Save(dynamics: seq<T>, growth: nat) returns (list: Slice<T>)
      requires Valid()
      modifies this, statics.base
      ensures Valid() && history == old(history) + [Published(list, dynamics)]
      ensures Contents(statics) == initial && Contents(list) == initial + dynamics
      ensures spare == [] ==> forall i :: 0 <= i < |old(history)| ==> Contents(history[i].list) == old(Contents(history[i].list))
    {
      hide SpareAfter, Seen;
      ghost var was, now := Appended(), Appended() + [dynamics];
      assert |statics.base[..]| == statics.len + |spare|;
      list := AppendToStatics(dynamics, growth);
      NewestIntact(spare, now);
      forall i | 0 <= i < |history| ensures Contents(history[i].list) == initial + Seen(spare, now, i) {
        if |history[i].dynamics| <= |spare| {
          Shared(history[i].list, spare, now, i);
        } else {
          LongIntact(spare, was, i);
          LongIntact(spare, now, i);
        }
      }
      history := history + [Published(list, dynamics)];
      assert Appended() == now;
    }

    /** A list in the static list's own array shows the front of what the array now holds. */
    lemma Shared(list: Slice<T>, spare: seq<T>, appended: seq<seq<T>>, i: nat)
      requires i < |appended| && |appended[i]| <= |spare|
      requires list.base == statics.base && list.len == |initial| + |appended[i]| && IsSlice(list)
      requires statics.base[..] == initial + SpareAfter(spare, appended)
      ensures Contents(list) == initial + Seen(spare, appended, i)
    {
    }
  }
}
