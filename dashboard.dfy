/** The dashboard projections of the statistics: one entry per catalog type,
    in catalog order, with missing counters read as zero. */
module Dashboard {
  import opened Catalog
  import opened Values
  import opened Stats

  /** An element of `verticalBreakdown` in the dashboard summary. */
  datatype BreakdownEntry = BreakdownEntry(id: string, name: string, interactions: nat, deliveries: nat)

  /** An element of `types` in `GET /api/dashboard/verticals`. */
  datatype VerticalEntry = VerticalEntry(id: string, name: string, goal: nat, interactions: nat, deliveries: nat)

  function VerticalBreakdown(m: StatsMap): (r: seq<BreakdownEntry>)
    ensures |r| == |BusinessTypes|
    ensures forall i :: 0 <= i < |r| ==> r[i].id == BusinessTypes[i].id && r[i].name == BusinessTypes[i].name
    ensures forall i :: 0 <= i < |r| ==>
      && r[i].interactions == (if r[i].id in m then m[r[i].id].interactions else 0)
      && r[i].deliveries == (if r[i].id in m then m[r[i].id].deliveries else 0)
  {
    seq(|BusinessTypes|, i requires 0 <= i < |BusinessTypes| =>
      var t := BusinessTypes[i];
      BreakdownEntry(t.id, t.name, Lookup(m, t.id).interactions, Lookup(m, t.id).deliveries))
  }

  function VerticalsView(m: StatsMap): (r: seq<VerticalEntry>)
    ensures |r| == |BusinessTypes|
    ensures forall i :: 0 <= i < |r| ==>
      r[i].id == BusinessTypes[i].id && r[i].name == BusinessTypes[i].name && r[i].goal == BusinessTypes[i].goal
    ensures forall i :: 0 <= i < |r| ==>
      && r[i].interactions == (if r[i].id in m then m[r[i].id].interactions else 0)
      && r[i].deliveries == (if r[i].id in m then m[r[i].id].deliveries else 0)
  {
    seq(|BusinessTypes|, i requires 0 <= i < |BusinessTypes| =>
      var t := BusinessTypes[i];
      VerticalEntry(t.id, t.name, t.goal, Lookup(m, t.id).interactions, Lookup(m, t.id).deliveries))
  }

  function SumInteractions(entries: seq<BreakdownEntry>): nat
    decreases |entries|
  {
    if entries == [] then 0 else entries[0].interactions + SumInteractions(entries[1..])
  }

  /** The two routes report the same numbers for the same vertical. */
  lemma ViewsAgree(m: StatsMap)
    ensures forall i :: 0 <= i < |BusinessTypes| ==>
      var v := VerticalsView(m)[i];
      VerticalBreakdown(m)[i] == BreakdownEntry(v.id, v.name, v.interactions, v.deliveries)
  {
  }

  /** The breakdown accounts for every interaction recorded under a catalog
      id. */
  lemma BreakdownTotal(m: StatsMap)
    ensures SumInteractions(VerticalBreakdown(m)) == TotalInteractions(m)
  {
    var r := VerticalBreakdown(m);
    assert SumInteractions(r[2..]) == r[2].interactions by {
      assert r[2..][1..] == [];
    }
    assert SumInteractions(r[1..]) == r[1].interactions + SumInteractions(r[2..]) by {
      assert r[1..][1..] == r[2..];
    }
  }

  /** When the seed lands on the zero counters, before any request has been
      counted, the breakdown sums to the number of seeded rows and shows no
      deliveries. */
  lemma BreakdownAfterSeed(rows: seq<Option<string>>)
    ensures SumInteractions(VerticalBreakdown(Replay(InitialStats(), SeedEvents(rows)))) == |rows|
    ensures forall i :: 0 <= i < |BusinessTypes| ==>
      VerticalBreakdown(Replay(InitialStats(), SeedEvents(rows)))[i].deliveries == 0
  {
    var m := Replay(InitialStats(), SeedEvents(rows));
    SeedEffect(InitialStats(), rows);
    BreakdownTotal(m);
    assert Lookup(InitialStats(), Cleaning) == Counters(0, 0);
    assert Lookup(InitialStats(), Photobooth) == Counters(0, 0);
    assert Lookup(InitialStats(), Courses) == Counters(0, 0);
    forall i | 0 <= i < |BusinessTypes|
      ensures VerticalBreakdown(m)[i].deliveries == 0
    {
      assert Lookup(m, BusinessTypes[i].id).deliveries == Lookup(InitialStats(), BusinessTypes[i].id).deliveries;
    }
  }
}
