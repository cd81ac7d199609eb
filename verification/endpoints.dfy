// The endpoint resources a store publishes, and the sorted fingerprint that
// stands for them when a save decides whether anything changed.
module Endpoints {
  import opened Integers
  import opened Seqs
  import opened Sorting
  import opened Text
  import opened Wrappers

  datatype MetaValue = Flag(flag: bool) | Str(str: string)

  datatype LbEndpoint = LbEndpoint(address: string, port: uint32, healthPort: uint32, metadata: map<string, MetaValue>)

  datatype Locality = Locality(zone: string, priority: uint32, lbEndpoints: seq<LbEndpoint>)

  datatype ClusterLoad = ClusterLoad(clusterName: string, endpoints: seq<Locality>)

  type LbMap = map<string, seq<Locality>>

  /** What one fingerprint line records of an endpoint. */
  datatype Entry = Entry(cluster: string, zone: string, priority: uint32, address: string, port: uint32, healthPort: uint32)

  // ----- one line

  function Line(e: Entry): string {
    e.cluster + "|" + e.zone + "|" + Decimal(e.priority) + "|" + e.address + "|" + Decimal(e.port) + "|" + Decimal(e.healthPort)
  }

  function Number(s: string): Option<uint32> {
    if s != "" && AllDigits(s) && Value(s) < TWO_TO_THE_32 then Some(Value(s)) else None
  }

  /** Reads a line back, taking fields from the right so that the cluster may hold any character. */
  function ParseLine(s: string): Option<Entry> {
    match Peel(s) case None => None case Some((s1, health)) =>
    match Peel(s1) case None => None case Some((s2, port)) =>
    match Peel(s2) case None => None case Some((s3, address)) =>
    match Peel(s3) case None => None case Some((s4, priority)) =>
    match Peel(s4) case None => None case Some((cluster, zone)) =>
    match (Number(priority), Number(port), Number(health))
    case (Some(p), Some(q), Some(h)) => Some(Entry(cluster, zone, p, address, q, h))
    case _ => None
  }

  predicate Tidy(e: Entry) {
    PipeFree(e.zone) && PipeFree(e.address)
  }

  lemma NumberRoundTrip(n: uint32)
    ensures Number(Decimal(n)) == Some(n)
    ensures PipeFree(Decimal(n))
  {
    DecimalRoundTrip(n);
    DigitsArePipeFree(Decimal(n));
  }

  /** Decoding inverts encoding, whatever the cluster is called. */
  lemma LineRoundTrip(e: Entry)
    requires Tidy(e)
    ensures ParseLine(Line(e)) == Some(e)
  {
    NumberRoundTrip(e.priority);
    NumberRoundTrip(e.port);
    NumberRoundTrip(e.healthPort);
    var s4 := e.cluster + "|" + e.zone;
    var s3 := s4 + "|" + Decimal(e.priority);
    var s2 := s3 + "|" + e.address;
    var s1 := s2 + "|" + Decimal(e.port);
    PeelField(e.cluster, e.zone);
    PeelField(s4, Decimal(e.priority));
    PeelField(s3, e.address);
    PeelField(s2, Decimal(e.port));
    PeelField(s1, Decimal(e.healthPort));
  }

  function Fields(e: Entry): (fields: seq<string>)
    ensures |fields| == 6
  {
    [e.cluster, e.zone, Decimal(e.priority), e.address, Decimal(e.port), Decimal(e.healthPort)]
  }

  lemma LineIsJoin(e: Entry)
    ensures Line(e) == Join(Fields(e))
  {
    hide Decimal;
    var f := Fields(e);
    assert Join(f[5..]) == f[5];
    assert Join(f[4..]) == f[4] + "|" + f[5] by { assert f[4..][1..] == f[5..]; }
    assert Join(f[3..]) == f[3] + "|" + Join(f[4..]) by { assert f[3..][1..] == f[4..]; }
    assert Join(f[2..]) == f[2] + "|" + Join(f[3..]) by { assert f[2..][1..] == f[3..]; }
    assert Join(f[1..]) == f[1] + "|" + Join(f[2..]) by { assert f[1..][1..] == f[2..]; }
    assert Join(f) == f[0] + "|" + Join(f[1..]);
    assert Line(e) == Join(f);
  }

  /** What a reader that splits on '|' relies on: the cluster comes first and the address fourth. */
  lemma LineSplits(e: Entry)
    requires Tidy(e) && PipeFree(e.cluster)
    ensures Split(Line(e)) == [e.cluster, e.zone, Decimal(e.priority), e.address, Decimal(e.port), Decimal(e.healthPort)]
    ensures Split(Line(e))[0] == e.cluster && Split(Line(e))[3] == e.address
  {
    NumberRoundTrip(e.priority);
    NumberRoundTrip(e.port);
    NumberRoundTrip(e.healthPort);
    LineIsJoin(e);
    SplitJoin(Fields(e));
  }

  // ----- when a line stands for one entry only

  lemma PipeSplits(s: string) returns (before: string, after: string)
    requires !PipeFree(s)
    ensures s == before + "|" + after
  {
    var i :| 0 <= i < |s| && s[i] == '|';
    before, after := s[..i], s[i + 1..];
    assert s == before + "|" + after;
  }

  /** A pipe in the cluster or in the zone can be moved over the border between the two. */
  lemma ShiftedBorder(e: Entry) returns (twin: Entry)
    requires PipeFree(e.address)
    requires !PipeFree(e.cluster) || !PipeFree(e.zone)
    ensures twin != e && Line(twin) == Line(e) && twin.address == e.address
  {
    if !PipeFree(e.cluster) {
      var before, after := PipeSplits(e.cluster);
      twin := e.(cluster := before, zone := after + "|" + e.zone);
      assert |twin.cluster| < |e.cluster|;
    } else {
      var before, after := PipeSplits(e.zone);
      twin := e.(cluster := e.cluster + "|" + before, zone := after);
      assert |twin.cluster| > |e.cluster|;
    }
    assert twin.cluster + "|" + twin.zone == e.cluster + "|" + e.zone;
  }

  function PipeCount(s: string): nat {
    if s == "" then 0 else PipeCount(s[..|s| - 1]) + if s[|s| - 1] == '|' then 1 else 0
  }

  lemma {:induction false} PipeCountAppend(a: string, b: string)
    ensures PipeCount(a + b) == PipeCount(a) + PipeCount(b)
  {
    if b == "" {
      assert a + b == a;
    } else {
      PipeCountAppend(a, b[..|b| - 1]);
      assert (a + b)[..|a + b| - 1] == a + b[..|b| - 1];
    }
  }

  lemma {:induction false} PipeCountZero(s: string)
    ensures PipeCount(s) == 0 <==> PipeFree(s)
  {
    if s != "" {
      PipeCountZero(s[..|s| - 1]);
      assert s == s[..|s| - 1] + [s[|s| - 1]];
    }
  }

  lemma LinePipes(e: Entry)
    requires PipeFree(e.address)
    ensures PipeCount(Line(e)) == 5 + PipeCount(e.cluster) + PipeCount(e.zone)
  {
    NumberRoundTrip(e.priority);
    NumberRoundTrip(e.port);
    NumberRoundTrip(e.healthPort);
    PipeCountZero(e.address);
    PipeCountZero(Decimal(e.priority));
    PipeCountZero(Decimal(e.port));
    PipeCountZero(Decimal(e.healthPort));
    var s0 := e.cluster + "|" + e.zone;
    var s1 := s0 + "|" + Decimal(e.priority);
    var s2 := s1 + "|" + e.address;
    var s3 := s2 + "|" + Decimal(e.port);
    BarCount(e.cluster, e.zone);
    BarCount(s0, Decimal(e.priority));
    BarCount(s1, e.address);
    BarCount(s2, Decimal(e.port));
    BarCount(s3, Decimal(e.healthPort));
  }

  lemma BarCount(a: string, b: string)
    ensures PipeCount(a + "|" + b) == PipeCount(a) + 1 + PipeCount(b)
  {
    PipeCountAppend(a, "|");
    PipeCountAppend(a + "|", b);
  }

  /** Among entries whose address passes the IP check (and so holds no pipe),
      a line stands for one entry only exactly when cluster and zone hold no pipe. */
  lemma LineUniqueIff(e: Entry)
    requires PipeFree(e.address)
    ensures (forall other: Entry :: PipeFree(other.address) && Line(other) == Line(e) ==> other == e)
            <==> (PipeFree(e.cluster) && PipeFree(e.zone))
  {
    if PipeFree(e.cluster) && PipeFree(e.zone) {
      forall other: Entry | PipeFree(other.address) && Line(other) == Line(e) ensures other == e {
        LinePipes(e);
        LinePipes(other);
        PipeCountZero(e.cluster);
        PipeCountZero(e.zone);
        PipeCountZero(other.zone);
        LineRoundTrip(e);
        LineRoundTrip(other);
      }
    } else {
      var twin := ShiftedBorder(e);
    }
  }

  // ----- the entries of published resources, in traversal order

  function LbEntries(cluster: string, zone: string, priority: uint32, lbs: seq<LbEndpoint>): (es: seq<Entry>)
    ensures |es| == |lbs|
    ensures forall i :: 0 <= i < |lbs| ==>
      es[i] == Entry(cluster, zone, priority, lbs[i].address, lbs[i].port, lbs[i].healthPort)
  {
    seq(|lbs|, i requires 0 <= i < |lbs| =>
      Entry(cluster, zone, priority, lbs[i].address, lbs[i].port, lbs[i].healthPort))
  }

  function LocalityEntries(cluster: string, locs: seq<Locality>): seq<Entry> {
    if locs == [] then []
    else
      var loc := locs[|locs| - 1];
      LocalityEntries(cluster, locs[..|locs| - 1]) + LbEntries(cluster, loc.zone, loc.priority, loc.lbEndpoints)
  }

  function Entries(eps: seq<ClusterLoad>): seq<Entry> {
    if eps == [] then []
    else
      var last := eps[|eps| - 1];
      Entries(eps[..|eps| - 1]) + LocalityEntries(last.clusterName, last.endpoints)
  }

  // What entries are entries of, field by field.

  ghost predicate Shown(cluster: string, loc: Locality, e: Entry) {
    && e.cluster == cluster && e.zone == loc.zone && e.priority == loc.priority
    && exists k :: 0 <= k < |loc.lbEndpoints|
         && e.address == loc.lbEndpoints[k].address && e.port == loc.lbEndpoints[k].port
         && e.healthPort == loc.lbEndpoints[k].healthPort
  }

  lemma LbMembers(cluster: string, loc: Locality, e: Entry)
    ensures e in LbEntries(cluster, loc.zone, loc.priority, loc.lbEndpoints) <==> Shown(cluster, loc, e)
  {
    var es := LbEntries(cluster, loc.zone, loc.priority, loc.lbEndpoints);
    if Shown(cluster, loc, e) {
      var k :| 0 <= k < |loc.lbEndpoints|
         && e.address == loc.lbEndpoints[k].address && e.port == loc.lbEndpoints[k].port
         && e.healthPort == loc.lbEndpoints[k].healthPort;
      assert es[k] == e;
    }
  }

  lemma {:induction false} LocalityMembers(cluster: string, locs: seq<Locality>, e: Entry)
    ensures e in LocalityEntries(cluster, locs) <==> exists loc :: loc in locs && Shown(cluster, loc, e)
  {
    if locs != [] {
      hide Shown, LbEntries;
      var short, last := locs[..|locs| - 1], locs[|locs| - 1];
      LocalityMembers(cluster, short, e);
      LbMembers(cluster, last, e);
      assert forall loc :: loc in locs <==> loc in short || loc == last by { assert locs == short + [last]; }
    }
  }

  /** The entries of a list are its endpoints, under their cluster, zone and priority. */
  lemma {:induction false} EntriesMembers(eps: seq<ClusterLoad>, e: Entry)
    ensures e in Entries(eps) <==> exists load, loc :: load in eps && loc in load.endpoints && Shown(load.clusterName, loc, e)
  {
    if eps != [] {
      hide Shown, LocalityEntries;
      var short, last := eps[..|eps| - 1], eps[|eps| - 1];
      EntriesMembers(short, e);
      LocalityMembers(last.clusterName, last.endpoints, e);
      assert forall load :: load in eps <==> load in short || load == last by { assert eps == short + [last]; }
    }
  }

  function Lines(eps: seq<ClusterLoad>): seq<string> {
    Map(Line, Entries(eps))
  }

  /** The array a save compares: every line, sorted. */
  function Fingerprint(eps: seq<ClusterLoad>): seq<string> {
    SortSeq(Lines(eps))
  }

  predicate AllTidy(es: seq<Entry>) {
    forall e :: e in es ==> Tidy(e)
  }

  predicate Passing(valid: string -> bool, es: seq<Entry>) {
    forall e :: e in es ==> valid(e.address)
  }

  predicate AddressesPass(valid: string -> bool, eps: seq<ClusterLoad>) {
    Passing(valid, Entries(eps))
  }

  lemma PassingAppend(valid: string -> bool, a: seq<Entry>, b: seq<Entry>)
    ensures Passing(valid, a + b) <==> Passing(valid, a) && Passing(valid, b)
  {
    assert forall e :: e in a + b <==> e in a || e in b;
  }

  /** Every address in the list is an IP. */
  lemma PassingMeans(valid: string -> bool, eps: seq<ClusterLoad>)
    ensures AddressesPass(valid, eps) <==>
      forall load, loc, lb :: load in eps && loc in load.endpoints && lb in loc.lbEndpoints ==> valid(lb.address)
  {
    hide Entries;
    forall e ensures e in Entries(eps) <==> exists load, loc :: load in eps && loc in load.endpoints && Shown(load.clusterName, loc, e) {
      EntriesMembers(eps, e);
    }
    forall load, loc, lb | AddressesPass(valid, eps) && load in eps && loc in load.endpoints && lb in loc.lbEndpoints ensures valid(lb.address) {
      var e := Entry(load.clusterName, loc.zone, loc.priority, lb.address, lb.port, lb.healthPort);
      var k :| 0 <= k < |loc.lbEndpoints| && loc.lbEndpoints[k] == lb;
      assert Shown(load.clusterName, loc, e);
      assert e in Entries(eps);
    }
  }

  function ParseOr(s: string): Entry {
    match ParseLine(s)
    case Some(e) => e
    case None => Entry("", "", 0, "", 0, 0)
  }

  lemma LinesParse(es: seq<Entry>)
    requires AllTidy(es)
    ensures Map(ParseOr, Map(Line, es)) == es
  {
    forall i | 0 <= i < |es| ensures ParseOr(Line(es[i])) == es[i] {
      LineRoundTrip(es[i]);
    }
  }

  /** The fingerprint agrees on two lists that hold the same entries, in whatever order. */
  lemma SameEntriesSameFingerprint(a: seq<ClusterLoad>, b: seq<ClusterLoad>)
    requires multiset(Entries(a)) == multiset(Entries(b))
    ensures Fingerprint(a) == Fingerprint(b)
  {
    MapPermutation(Line, Entries(a), Entries(b));
    SortCanonical(Lines(a), Lines(b));
  }

  /** Equal lines of tidy entries mean equal entries. */
  lemma TidyLinesDecide(a: seq<Entry>, b: seq<Entry>)
    requires AllTidy(a) && AllTidy(b) && multiset(Map(Line, a)) == multiset(Map(Line, b))
    ensures multiset(a) == multiset(b)
  {
    MapPermutation(ParseOr, Map(Line, a), Map(Line, b));
    LinesParse(a);
    LinesParse(b);
  }

  lemma LinesOfParts(eps: seq<ClusterLoad>, shared: seq<Entry>, rest: seq<Entry>)
    requires multiset(Entries(eps)) == multiset(shared + rest)
    ensures multiset(Lines(eps)) == multiset(Map(Line, shared)) + multiset(Map(Line, rest))
  {
    MapPermutation(Line, Entries(eps), shared + rest);
    MapAppend(Line, shared, rest);
  }

  lemma SharedLinesCancel(a: seq<ClusterLoad>, b: seq<ClusterLoad>, shared: seq<Entry>, restA: seq<Entry>, restB: seq<Entry>)
    requires multiset(Entries(a)) == multiset(shared + restA) && multiset(Entries(b)) == multiset(shared + restB)
    requires Fingerprint(a) == Fingerprint(b)
    ensures multiset(Map(Line, restA)) == multiset(Map(Line, restB))
  {
    hide Line, Entries, Map;
    SortCanonical(Lines(a), Lines(b));
    LinesOfParts(a, shared, restA);
    LinesOfParts(b, shared, restB);
    var s, ra, rb := multiset(Map(Line, shared)), multiset(Map(Line, restA)), multiset(Map(Line, restB));
    assert s + ra == s + rb;
    assert ra == (s + ra) - s && rb == (s + rb) - s;
  }

  /** The fingerprints of two lists over a common part, whatever that holds, are equal exactly
      when the lists hold the same entries, counted with repetition: zones and addresses
      outside the common part hold no pipe. */
  lemma FingerprintIff(a: seq<ClusterLoad>, b: seq<ClusterLoad>, shared: seq<Entry>, restA: seq<Entry>, restB: seq<Entry>)
    requires multiset(Entries(a)) == multiset(shared + restA) && multiset(Entries(b)) == multiset(shared + restB)
    requires AllTidy(restA) && AllTidy(restB)
    ensures Fingerprint(a) == Fingerprint(b) <==> multiset(Entries(a)) == multiset(Entries(b))
  {
    hide Line, Entries, Fingerprint;
    if Fingerprint(a) == Fingerprint(b) {
      SharedLinesCancel(a, b, shared, restA, restB);
      TidyLinesDecide(restA, restB);
    }
    if multiset(Entries(a)) == multiset(Entries(b)) {
      SameEntriesSameFingerprint(a, b);
    }
  }

  /** Of the encoding alone that would not be true: where a zone may hold a pipe, these two
      lists show different clusters under one fingerprint. */
  lemma PipeInZoneCollides() returns (a: seq<ClusterLoad>, b: seq<ClusterLoad>)
    ensures Fingerprint(a) == Fingerprint(b)
    ensures multiset(Entries(a)) != multiset(Entries(b))
    ensures a[0].clusterName != b[0].clusterName
  {
    var lb := LbEndpoint("10.0.0.1", 80, 0, map[]);
    a := [ClusterLoad("web", [Locality("a|b", 0, [lb])])];
    b := [ClusterLoad("web|a", [Locality("b", 0, [lb])])];
    var ea, eb := Entry("web", "a|b", 0, "10.0.0.1", 80, 0), Entry("web|a", "b", 0, "10.0.0.1", 80, 0);
    SingleEntry(a[0].clusterName, a[0].endpoints[0]);
    SingleEntry(b[0].clusterName, b[0].endpoints[0]);
    assert Entries(a) == [ea] && Entries(b) == [eb];
    assert "web" + "|" + "a|b" == "web|a" + "|" + "b";
    assert Line(ea) == Line(eb);
    assert Lines(a) == Lines(b);
    assert ea in multiset(Entries(a)) && ea !in multiset(Entries(b));
  }

  lemma SingleEntry(cluster: string, loc: Locality)
    requires |loc.lbEndpoints| == 1
    ensures var lb := loc.lbEndpoints[0];
      Entries([ClusterLoad(cluster, [loc])]) == [Entry(cluster, loc.zone, loc.priority, lb.address, lb.port, lb.healthPort)]
  {
    assert LocalityEntries(cluster, [loc]) == LocalityEntries(cluster, []) + LbEntries(cluster, loc.zone, loc.priority, loc.lbEndpoints);
    assert Entries([ClusterLoad(cluster, [loc])]) == Entries([]) + LocalityEntries(cluster, [loc]);
  }
}
