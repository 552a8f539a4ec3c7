/** The in-memory per-vertical statistics: a map from vertical id to a pair of
    counters, seeded from stored rows at startup and bumped on every logged
    interaction. */
module Stats {
  import opened Values
  import opened Text
  import opened Catalog

  datatype Counters = Counters(interactions: nat, deliveries: nat)

  type StatsMap = map<string, Counters>

  /** The substring whose presence in a lower-cased message marks a delivery. */
  const DeliveryMarker: string := "course delivery"

  /** The starting state: a zero entry for every catalog id. */
  function InitialStats(): (m: StatsMap)
    ensures forall id :: id in m <==> IsCatalogId(id)
    ensures forall id :: id in m ==> m[id] == Counters(0, 0)
  {
    map id | id in CatalogIds :: Counters(0, 0)
  }

  /** The counters of `id`, a missing entry reading as zero. */
  function Lookup(m: StatsMap, id: string): (c: Counters)
    ensures id in m ==> c == m[id]
    ensures id !in m ==> c == Counters(0, 0)
  {
    if id in m then m[id] else Counters(0, 0)
  }

  /** `(message || '').toLowerCase().includes('course delivery')`. */
  function IsDeliveryMessage(message: Option<string>): (b: bool)
    ensures b <==> Occurs(DeliveryMarker, ToLower(OrElse(message, "")))
  {
    Includes(ToLower(OrElse(message, "")), DeliveryMarker)
  }

  /** The marker, written in any case, anywhere in a message, makes it a
      delivery message. */
  lemma MarkerInAnyCase(prefix: string, word: string, suffix: string)
    requires ToLower(word) == DeliveryMarker
    ensures IsDeliveryMessage(Some(prefix + word + suffix))
  {
    var message := prefix + word + suffix;
    assert |word| == |DeliveryMarker| > 0;
    ToLowerAppend(prefix + word, suffix);
    ToLowerAppend(prefix, word);
    var lower := ToLower(message);
    assert lower[|prefix|..|prefix| + |word|] == DeliveryMarker;
    assert SliceAt(DeliveryMarker, lower, |prefix|);
  }

  /** One interaction for `id`: the entry is created at zero when missing,
      `interactions` goes up by one and `deliveries` by one for a delivery. */
  function Record(m: StatsMap, id: string, delivery: bool): (r: StatsMap)
    ensures Lookup(r, id).interactions == Lookup(m, id).interactions + 1
    ensures Lookup(r, id).deliveries == Lookup(m, id).deliveries + (if delivery then 1 else 0)
    ensures forall other :: other != id ==> Lookup(r, other) == Lookup(m, other)
    ensures r.Keys == m.Keys + {id}
  {
    var c := Lookup(m, id);
    m[id := Counters(c.interactions + 1, if delivery then c.deliveries + 1 else c.deliveries)]
  }

  /** An interaction as the counters see it. */
  datatype Event = Event(id: string, delivery: bool)

  /** The counters after recording `events` in order. */
  function Replay(m: StatsMap, events: seq<Event>): StatsMap
    decreases |events|
  {
    if events == [] then m
    else
      var last := events[|events| - 1];
      Record(Replay(m, events[..|events| - 1]), last.id, last.delivery)
  }

  /** How many of `events` are for `id`. */
  function CountFor(events: seq<Event>, id: string): nat
    decreases |events|
  {
    if events == [] then 0
    else CountFor(events[..|events| - 1], id) + (if events[|events| - 1].id == id then 1 else 0)
  }

  /** How many of `events` are deliveries for `id`. */
  function DeliveriesFor(events: seq<Event>, id: string): nat
    decreases |events|
  {
    if events == [] then 0
    else
      var last := events[|events| - 1];
      DeliveriesFor(events[..|events| - 1], id) + (if last.id == id && last.delivery then 1 else 0)
  }

  /** After any sequence of interactions, an id's counters have grown by its
      number of interactions and its number of deliveries, and by nothing
      else. */
  lemma {:induction false} ReplayCounts(m: StatsMap, events: seq<Event>, id: string)
    ensures Lookup(Replay(m, events), id) ==
      Counters(Lookup(m, id).interactions + CountFor(events, id),
               Lookup(m, id).deliveries + DeliveriesFor(events, id))
    decreases |events|
  {
    if events != [] {
      ReplayCounts(m, events[..|events| - 1], id);
    }
  }

  /** Counters never decrease. */
  lemma {:induction false} ReplayGrows(m: StatsMap, events: seq<Event>, id: string)
    ensures Lookup(Replay(m, events), id).interactions >= Lookup(m, id).interactions
    ensures Lookup(Replay(m, events), id).deliveries >= Lookup(m, id).deliveries
  {
    ReplayCounts(m, events, id);
  }

  /** The events the startup seed records: one non-delivery interaction per
      stored row, under the row's classified business type. */
  function SeedEvents(rows: seq<Option<string>>): (events: seq<Event>)
    ensures |events| == |rows|
    ensures forall i :: 0 <= i < |rows| ==> events[i] == Event(NormalizeBusinessType(rows[i]), false)
  {
    seq(|rows|, i requires 0 <= i < |rows| => Event(NormalizeBusinessType(rows[i]), false))
  }

  /** The sum of `interactions` over the catalog ids. */
  function TotalInteractions(m: StatsMap): nat {
    Lookup(m, Cleaning).interactions + Lookup(m, Photobooth).interactions + Lookup(m, Courses).interactions
  }

  /** Events whose ids are all catalog ids split exactly among the three. */
  lemma {:induction false} CatalogCountsSum(events: seq<Event>)
    requires forall i :: 0 <= i < |events| ==> IsCatalogId(events[i].id)
    ensures CountFor(events, Cleaning) + CountFor(events, Photobooth) + CountFor(events, Courses) == |events|
    decreases |events|
  {
    if events != [] {
      CatalogCountsSum(events[..|events| - 1]);
    }
  }

  lemma {:induction false} SeedHasNoDeliveries(rows: seq<Option<string>>, id: string)
    ensures DeliveriesFor(SeedEvents(rows), id) == 0
    decreases |rows|
  {
    if rows != [] {
      var n := |rows| - 1;
      assert SeedEvents(rows)[..n] == SeedEvents(rows[..n]);
      SeedHasNoDeliveries(rows[..n], id);
    }
  }

  /** Seeding with `n` rows raises the total of `interactions` over the
      catalog by exactly `n`, never lowers a counter and leaves every
      `deliveries` counter as it was. */
  lemma SeedEffect(m: StatsMap, rows: seq<Option<string>>)
    ensures TotalInteractions(Replay(m, SeedEvents(rows))) == TotalInteractions(m) + |rows|
    ensures forall id :: Lookup(Replay(m, SeedEvents(rows)), id).deliveries == Lookup(m, id).deliveries
    ensures forall id :: Lookup(Replay(m, SeedEvents(rows)), id).interactions >= Lookup(m, id).interactions
  {
    var events := SeedEvents(rows);
    var r := Replay(m, events);
    CatalogCountsSum(events);
    ReplayCounts(m, events, Cleaning);
    ReplayCounts(m, events, Photobooth);
    ReplayCounts(m, events, Courses);
    forall id
      ensures Lookup(r, id).deliveries == Lookup(m, id).deliveries
      ensures Lookup(r, id).interactions >= Lookup(m, id).interactions
    {
      ReplayCounts(m, events, id);
      SeedHasNoDeliveries(rows, id);
    }
  }

  /** The process-wide statistics object (`verticalStats`). */
  class VerticalStats {
    var stats: StatsMap

    /** Every catalog id has an entry. */
    ghost predicate Valid()
      reads this
    {
      forall id :: IsCatalogId(id) ==> id in stats
    }

    /** `businessTypes.reduce(...)`: a zero entry per catalog id. */
    constructor ()
      ensures Valid()
      ensures stats == InitialStats()
    {
      stats := InitialStats();
    }

    /** `initVerticalStats`: nothing happens without store configuration or
        when the fetch yields no rows (`fetched` is `None` for a null result
        and for a failed fetch alike); otherwise each row bumps the
        `interactions` of its classified type. */
    method Seed(configured: bool, fetched: Option<seq<Option<string>>>)
      requires Valid()
      modifies this
      ensures Valid()
      ensures stats == if configured && fetched.Some? then Replay(old(stats), SeedEvents(fetched.value)) else old(stats)
    {
      if !configured {
        return;
      }
      if fetched.None? {
        return;
      }
      var rows := fetched.value;
      for i := 0 to |rows|
        invariant Valid()
        invariant stats == Replay(old(stats), SeedEvents(rows[..i]))
      {
        var normalized := NormalizeBusinessType(rows[i]);
        var c := Lookup(stats, normalized);
        stats := stats[normalized := Counters(c.interactions + 1, c.deliveries)];
        assert SeedEvents(rows[..i + 1])[..i] == SeedEvents(rows[..i]);
      }
      assert rows[..|rows|] == rows;
    }

    /** The counter part of `logInteraction` for an already classified id:
        create the entry lazily, add one interaction, and add one delivery when
        the message carries the marker. */
    method RecordInteraction(normalized: string, message: Option<string>)
      requires Valid()
      modifies this
      ensures Valid()
      ensures stats == Record(old(stats), normalized, IsDeliveryMessage(message))
    {
      var c := Lookup(stats, normalized);
      stats := stats[normalized := Counters(c.interactions + 1, c.deliveries)];
      if Includes(ToLower(OrElse(message, "")), DeliveryMarker) {
        stats := stats[normalized := Counters(stats[normalized].interactions, stats[normalized].deliveries + 1)];
      }
    }
  }
}
