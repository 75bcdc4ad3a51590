/** The per-country aggregate that fetch_alerts builds (rss_feed_reader.py lines
    249-289), as a specification: the update one retained alert makes, the fold of
    those updates over the feed, and independent definitions of what each country's
    entry should hold. */
module Grouping {
  import opened Text
  import opened Dates
  import opened Markup

  /** One alert dictionary (lines 249-261). */
  datatype Alert = Alert(country: string, title: string, level: string, types: seq<string>,
                         description: string, pubDate: string, eventTime: DateTime, link: string,
                         guid: string, periods: seq<Period>, rawDescription: string)

  /** One country's entry: level, count, alerts, types, latest_date and
      highest_level_numeric. */
  datatype CountryData = CountryData(level: string, count: nat, alerts: seq<Alert>, types: seq<string>,
                                     latestDate: string, highestLevelNumeric: nat)

  /** `alerts_by_country`: the countries in insertion order and their entries. */
  datatype Grouped = Grouped(order: seq<string>, entries: map<string, CountryData>)

  const NoAlerts: Grouped := Grouped([], map[])

  function Rank(a: Alert): nat {
    LevelToNumeric(a.level)
  }

  /** The entry a country gets from its first alert (lines 264-272). */
  function FirstEntry(a: Alert): CountryData {
    CountryData(a.level, 1, [a], a.types, a.pubDate, Rank(a))
  }

  /** A later alert of the same country (lines 273-289): one more in the count and the
      list, its new types appended, and the level and latest_date taken over only when
      its rank is strictly higher. */
  function Extend(d: CountryData, a: Alert): CountryData {
    var raised := Rank(a) > d.highestLevelNumeric;
    CountryData(if raised then a.level else d.level, d.count + 1, d.alerts + [a], AddNew(d.types, a.types),
                if raised then a.pubDate else d.latestDate, if raised then Rank(a) else d.highestLevelNumeric)
  }

  function Add(g: Grouped, a: Alert): Grouped {
    if a.country in g.entries then Grouped(g.order, g.entries[a.country := Extend(g.entries[a.country], a)])
    else Grouped(g.order + [a.country], g.entries[a.country := FirstEntry(a)])
  }

  /** The aggregate after the retained alerts, in feed order. */
  function Aggregate(alerts: seq<Alert>): Grouped {
    if alerts == [] then NoAlerts else Add(Aggregate(alerts[..|alerts| - 1]), alerts[|alerts| - 1])
  }

  /** The alerts of one country, in feed order. */
  function OfCountry(alerts: seq<Alert>, c: string): (r: seq<Alert>)
    ensures |r| <= |alerts|
  {
    if alerts == [] then []
    else
      var init := OfCountry(alerts[..|alerts| - 1], c);
      if alerts[|alerts| - 1].country == c then init + [alerts[|alerts| - 1]] else init
  }

  lemma {:induction false} OfCountrySpec(alerts: seq<Alert>, c: string)
    ensures forall i :: 0 <= i < |OfCountry(alerts, c)| ==> OfCountry(alerts, c)[i].country == c
    ensures OfCountry(alerts, c) == [] <==> forall i :: 0 <= i < |alerts| ==> alerts[i].country != c
    decreases |alerts|
  {
    if alerts != [] {
      var init := alerts[..|alerts| - 1];
      OfCountrySpec(init, c);
      assert forall i :: 0 <= i < |init| ==> init[i] == alerts[i];
    }
  }

  /** The countries of the alerts, in feed order, with repeats. */
  function CountriesOf(alerts: seq<Alert>): (r: seq<string>)
    ensures |r| == |alerts| && forall i :: 0 <= i < |alerts| ==> r[i] == alerts[i].country
  {
    seq(|alerts|, i requires 0 <= i < |alerts| => alerts[i].country)
  }

  /** The position of the first alert of highest rank. */
  function LeaderIndex(xs: seq<Alert>): (k: nat)
    requires xs != []
    ensures k < |xs|
  {
    if |xs| == 1 then 0
    else
      var k := LeaderIndex(xs[..|xs| - 1]);
      if Rank(xs[|xs| - 1]) > Rank(xs[k]) then |xs| - 1 else k
  }

  /** The leader ranks highest, and every alert before it ranks strictly lower. */
  lemma {:induction false} LeaderIndexSpec(xs: seq<Alert>)
    requires xs != []
    ensures forall j :: 0 <= j < |xs| ==> Rank(xs[j]) <= Rank(xs[LeaderIndex(xs)])
    ensures forall j :: 0 <= j < LeaderIndex(xs) ==> Rank(xs[j]) < Rank(xs[LeaderIndex(xs)])
    decreases |xs|
  {
    if |xs| > 1 {
      var init := xs[..|xs| - 1];
      LeaderIndexSpec(init);
      assert forall j :: 0 <= j < |init| ==> init[j] == xs[j];
    }
  }

  /** The types of all alerts, each once, in the order first seen. */
  function TypeUnion(xs: seq<Alert>): seq<string>
    requires xs != []
  {
    if |xs| == 1 then xs[0].types else AddNew(TypeUnion(xs[..|xs| - 1]), xs[|xs| - 1].types)
  }

  predicate TypesDistinct(xs: seq<Alert>) {
    forall i :: 0 <= i < |xs| ==> NoDups(xs[i].types)
  }

  /** Some alert of `xs` has type `t`. */
  predicate HasType(xs: seq<Alert>, t: string) {
    exists i :: 0 <= i < |xs| && t in xs[i].types
  }

  lemma {:induction false} HasTypeSnoc(xs: seq<Alert>, t: string)
    requires xs != []
    ensures HasType(xs, t) <==> HasType(xs[..|xs| - 1], t) || t in xs[|xs| - 1].types
  {
    var init := xs[..|xs| - 1];
    if HasType(init, t) {
      var i :| 0 <= i < |init| && t in init[i].types;
      assert init[i] == xs[i];
    }
    if HasType(xs, t) {
      var i :| 0 <= i < |xs| && t in xs[i].types;
      if i < |init| {
        assert init[i] == xs[i];
      }
    }
  }

  /** The union holds exactly the types of the alerts. */
  lemma {:induction false} TypeUnionMembers(xs: seq<Alert>)
    requires xs != []
    ensures forall t :: t in TypeUnion(xs) <==> HasType(xs, t)
    decreases |xs|
  {
    if |xs| > 1 {
      var init := xs[..|xs| - 1];
      TypeUnionMembers(init);
      forall t ensures t in TypeUnion(xs) <==> HasType(xs, t) {
        HasTypeSnoc(xs, t);
      }
    } else {
      forall t ensures t in TypeUnion(xs) <==> HasType(xs, t) {
        if t in xs[0].types {
          assert 0 < |xs|;
        }
      }
    }
  }

  /** The union starts with the first alert's types. */
  lemma {:induction false} TypeUnionPrefix(xs: seq<Alert>)
    requires xs != []
    ensures xs[0].types <= TypeUnion(xs)
    decreases |xs|
  {
    if |xs| > 1 {
      var init := xs[..|xs| - 1];
      TypeUnionPrefix(init);
      assert init[0] == xs[0];
    }
  }

  /** The union has no repeats when no alert repeats a type. */
  lemma {:induction false} TypeUnionDistinct(xs: seq<Alert>)
    requires xs != [] && TypesDistinct(xs)
    ensures NoDups(TypeUnion(xs))
    decreases |xs|
  {
    if |xs| > 1 {
      var init := xs[..|xs| - 1];
      assert forall i :: 0 <= i < |init| ==> init[i] == xs[i];
      TypeUnionDistinct(init);
    }
  }

  /** What a country's entry should be, given its alerts. */
  function Summary(xs: seq<Alert>): CountryData
    requires xs != []
  {
    var leader := xs[LeaderIndex(xs)];
    CountryData(leader.level, |xs|, xs, TypeUnion(xs), leader.pubDate, Rank(leader))
  }

  lemma {:induction false} SummaryOfOne(a: Alert)
    ensures Summary([a]) == FirstEntry(a)
  {
  }

  lemma {:induction false} SummarySnoc(xs: seq<Alert>, a: Alert)
    requires xs != []
    ensures Summary(xs + [a]) == Extend(Summary(xs), a)
  {
    var ys := xs + [a];
    assert ys[..|ys| - 1] == xs;
    assert ys[LeaderIndex(xs)] == xs[LeaderIndex(xs)];
  }

  lemma {:induction false} OfCountrySnoc(alerts: seq<Alert>, a: Alert, c: string)
    ensures OfCountry(alerts + [a], c) == if a.country == c then OfCountry(alerts, c) + [a] else OfCountry(alerts, c)
  {
    assert (alerts + [a])[..|alerts|] == alerts;
  }

  /** A country has an entry exactly when some retained alert is of that country, and
      the entry is the summary of that country's alerts. */
  lemma {:induction false} AggregateEntries(alerts: seq<Alert>, c: string)
    ensures c in Aggregate(alerts).entries <==> OfCountry(alerts, c) != []
    ensures c in Aggregate(alerts).entries ==> Aggregate(alerts).entries[c] == Summary(OfCountry(alerts, c))
    decreases |alerts|
  {
    if alerts != [] {
      var init := alerts[..|alerts| - 1];
      var a := alerts[|alerts| - 1];
      assert alerts == init + [a];
      AggregateEntries(init, c);
      OfCountrySnoc(init, a, c);
      var g := Aggregate(init);
      assert Aggregate(alerts) == Add(g, a);
      if a.country == c {
        if c in g.entries {
          SummarySnoc(OfCountry(init, c), a);
        } else {
          SummaryOfOne(a);
        }
      }
    }
  }

  /** The countries appear in the order of their first retained alert, each once, and
      they are exactly the keys. */
  lemma {:induction false} AggregateOrder(alerts: seq<Alert>)
    ensures Aggregate(alerts).order == Dedup(CountriesOf(alerts))
    ensures forall c :: c in Aggregate(alerts).entries <==> c in Aggregate(alerts).order
    decreases |alerts|
  {
    if alerts != [] {
      var init := alerts[..|alerts| - 1];
      var a := alerts[|alerts| - 1];
      AggregateOrder(init);
      assert CountriesOf(alerts)[..|alerts| - 1] == CountriesOf(init);
      assert CountriesOf(alerts)[|alerts| - 1] == a.country;
    }
  }

  /** The sum of the counts of the countries listed. */
  function SumCounts(order: seq<string>, entries: map<string, CountryData>): nat
    requires forall c :: c in order ==> c in entries
  {
    if order == [] then 0
    else SumCounts(order[..|order| - 1], entries) + entries[order[|order| - 1]].count
  }

  lemma {:induction false} SumCountsOutside(order: seq<string>, entries: map<string, CountryData>, c: string, d: CountryData)
    requires forall k :: k in order ==> k in entries
    requires c !in order
    ensures SumCounts(order, entries[c := d]) == SumCounts(order, entries)
    decreases |order|
  {
    if order != [] {
      SumCountsOutside(order[..|order| - 1], entries, c, d);
    }
  }

  lemma {:induction false} SumCountsBump(order: seq<string>, entries: map<string, CountryData>, c: string, d: CountryData)
    requires forall k :: k in order ==> k in entries
    requires NoDups(order) && c in order && d.count == entries[c].count + 1
    ensures SumCounts(order, entries[c := d]) == SumCounts(order, entries) + 1
    decreases |order|
  {
    var init := order[..|order| - 1];
    var last := order[|order| - 1];
    assert NoDups(init);
    if last == c {
      assert c !in init;
      SumCountsOutside(init, entries, c, d);
    } else {
      assert c in init;
      SumCountsBump(init, entries, c, d);
    }
  }

  /** Adding one alert to an aggregate whose keys are its listed countries, each
      once, adds one to the total count. */
  lemma {:induction false} AddTotal(g: Grouped, a: Alert)
    requires NoDups(g.order) && forall c :: c in g.entries <==> c in g.order
    ensures forall c :: c in Add(g, a).order ==> c in Add(g, a).entries
    ensures SumCounts(Add(g, a).order, Add(g, a).entries) == SumCounts(g.order, g.entries) + 1
  {
    if a.country in g.entries {
      SumCountsBump(g.order, g.entries, a.country, Extend(g.entries[a.country], a));
    } else {
      SumCountsOutside(g.order, g.entries, a.country, FirstEntry(a));
      assert (g.order + [a.country])[..|g.order|] == g.order;
    }
  }

  /** The counts add up to the number of retained alerts. */
  lemma {:induction false} AggregateTotal(alerts: seq<Alert>)
    ensures forall c :: c in Aggregate(alerts).order ==> c in Aggregate(alerts).entries
    ensures SumCounts(Aggregate(alerts).order, Aggregate(alerts).entries) == |alerts|
    decreases |alerts|
  {
    AggregateOrder(alerts);
    if alerts != [] {
      var init := alerts[..|alerts| - 1];
      var a := alerts[|alerts| - 1];
      AggregateTotal(init);
      AggregateOrder(init);
      AddTotal(Aggregate(init), a);
    }
  }

  /** The invariants of every entry: count and list agree, the rank agrees with the
      level, and the list is not empty. */
  predicate EntryConsistent(d: CountryData) {
    d.count == |d.alerts| && d.alerts != [] && d.highestLevelNumeric == LevelToNumeric(d.level)
  }

  ghost predicate Consistent(g: Grouped) {
    NoDups(g.order)
    && (forall c :: c in g.entries <==> c in g.order)
    && forall c :: c in g.entries ==> EntryConsistent(g.entries[c])
  }

  lemma {:induction false} AggregateConsistent(alerts: seq<Alert>)
    ensures Consistent(Aggregate(alerts))
  {
    AggregateOrder(alerts);
    var g := Aggregate(alerts);
    forall c | c in g.entries ensures EntryConsistent(g.entries[c]) {
      AggregateEntries(alerts, c);
    }
  }

  /** In a consistent aggregate there are as many keys as listed countries. */
  lemma {:induction false} ConsistentSize(g: Grouped)
    requires Consistent(g)
    ensures |g.entries| == |g.order|
  {
    NoDupsCard(g.order);
    assert g.entries.Keys == set c | c in g.order;
  }

  /** Each entry in terms of its own alerts: the level and latest_date are those of the
      first alert of highest rank, nothing of higher rank is listed, and the types are
      the union of the alerts' types. */
  lemma {:induction false} EntryOfCountry(alerts: seq<Alert>, c: string)
    requires c in Aggregate(alerts).entries
    ensures var d := Aggregate(alerts).entries[c];
      d.alerts == OfCountry(alerts, c) && d.alerts != [] && d.count == |d.alerts|
      && d.level == d.alerts[LeaderIndex(d.alerts)].level
      && d.latestDate == d.alerts[LeaderIndex(d.alerts)].pubDate
      && d.highestLevelNumeric == LevelToNumeric(d.level)
      && (forall j :: 0 <= j < |d.alerts| ==> Rank(d.alerts[j]) <= d.highestLevelNumeric)
      && (forall j :: 0 <= j < LeaderIndex(d.alerts) ==> Rank(d.alerts[j]) < d.highestLevelNumeric)
      && (forall t :: t in d.types <==> HasType(d.alerts, t))
      && (TypesDistinct(d.alerts) ==> NoDups(d.types))
  {
    AggregateEntries(alerts, c);
    var xs := OfCountry(alerts, c);
    LeaderIndexSpec(xs);
    TypeUnionMembers(xs);
    if TypesDistinct(xs) {
      TypeUnionDistinct(xs);
    }
  }
}
