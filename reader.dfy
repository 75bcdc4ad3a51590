/** MeteoalarmRSSReader (rss_feed_reader.py): the item loop of fetch_alerts, the
    snapshot it caches, and the sensor and camera formats built from it. The feed
    arrives already fetched and parsed into items, or as the failure that made the
    request or the XML parse raise. */
module Reader {
  import opened Wrappers
  import opened Text
  import opened Countries
  import opened Dates
  import opened Scan
  import opened Markup
  import opened Grouping

  /** An RSS `<item>`: `title` and `description` are None when the element is missing
      (and the text of a present element, "" when it has none); the other texts are ""
      when missing. */
  datatype Item = Item(title: Option<string>, description: Option<string>, pubDate: string,
                       link: string, guid: string)

  /** The library parsers and the clock reading the reader works with. */
  datatype Env = Env(strptime: Strptime, fromIso: FromIsoFormat, now: DateTime)

  /** The length past which a stored description is cut (line 254). */
  const DescriptionLimit: nat := 500

  /** `description[:500] + "..."` when longer than 500 characters. */
  function Truncate(description: string): (r: string)
    ensures |r| <= DescriptionLimit + 3
    ensures |description| <= DescriptionLimit ==> r == description
    ensures |description| > DescriptionLimit ==>
      |r| == DescriptionLimit + 3 && r[..DescriptionLimit] == description[..DescriptionLimit] && r[DescriptionLimit..] == "..."
  {
    if |description| > DescriptionLimit then description[..DescriptionLimit] + "..." else description
  }

  /** `[self._normalize_country_name(c) for c in monitored_countries]` (line 182). */
  function NormalizedCountries(monitored: seq<string>): (r: seq<string>)
    ensures |r| == |monitored| && forall i :: 0 <= i < |r| ==> r[i] == Normalize(monitored[i])
  {
    seq(|monitored|, i requires 0 <= i < |monitored| => Normalize(monitored[i]))
  }

  /** An item is grouped when it has a title and a description element, its country is
      non-empty and monitored, and its event time falls in the window (lines 202-242). */
  predicate Retained(item: Item, normalized: seq<string>, start: DateTime, end: DateTime, env: Env) {
    item.title.Some? && item.description.Some?
    && ExtractCountry(item.title.value) != ""
    && ExtractCountry(item.title.value) in normalized
    && InWindow(start, end, EventTime(env.strptime, item.pubDate, env.now))
  }

  /** The alert dictionary of a retained item (lines 244-261). */
  function MakeAlert(item: Item, env: Env): Alert
    requires item.title.Some? && item.description.Some?
  {
    var title := item.title.value;
    var description := item.description.value;
    PeriodMatchesHavePairs(description);
    Alert(ExtractCountry(title), title, ParseLevel(description), ParseTypes(description), Truncate(description),
          item.pubDate, EventTime(env.strptime, item.pubDate, env.now), item.link, item.guid,
          PeriodsOf(env.fromIso, FindAll(description, PeriodPattern)), description)
  }

  function RetainedBy(normalized: seq<string>, start: DateTime, end: DateTime, env: Env): Item -> bool {
    (item: Item) => Retained(item, normalized, start, end, env)
  }

  function AlertBy(env: Env): Item --> Alert {
    (item: Item) requires item.title.Some? && item.description.Some? => MakeAlert(item, env)
  }

  /** The alerts of the retained items, in feed order. */
  function RetainedAlerts(items: seq<Item>, normalized: seq<string>, start: DateTime, end: DateTime, env: Env): seq<Alert> {
    FilterMap(items, RetainedBy(normalized, start, end, env), AlertBy(env))
  }

  lemma {:induction false} RetainedAlertsLast(items: seq<Item>, normalized: seq<string>, start: DateTime, end: DateTime, env: Env)
    requires items != []
    ensures RetainedAlerts(items, normalized, start, end, env)
      == RetainedAlerts(items[..|items| - 1], normalized, start, end, env)
         + (if Retained(items[|items| - 1], normalized, start, end, env) then [MakeAlert(items[|items| - 1], env)] else [])
  {
  }

  /** Every alert comes from a retained item. */
  lemma {:induction false} RetainedAlertsSound(items: seq<Item>, normalized: seq<string>, start: DateTime, end: DateTime, env: Env, k: nat)
    requires k < |RetainedAlerts(items, normalized, start, end, env)|
    ensures exists i :: 0 <= i < |items| && Retained(items[i], normalized, start, end, env)
                        && RetainedAlerts(items, normalized, start, end, env)[k] == MakeAlert(items[i], env)
  {
    FilterMapSound(items, RetainedBy(normalized, start, end, env), AlertBy(env), k);
  }

  /** Every retained item gives its alert. */
  lemma {:induction false} RetainedAlertsComplete(items: seq<Item>, normalized: seq<string>, start: DateTime, end: DateTime, env: Env, i: nat)
    requires i < |items| && Retained(items[i], normalized, start, end, env)
    ensures MakeAlert(items[i], env) in RetainedAlerts(items, normalized, start, end, env)
  {
    FilterMapComplete(items, RetainedBy(normalized, start, end, env), AlertBy(env), i);
  }

  /** What every retained alert satisfies: a monitored, non-empty country read from its
      title, an event time in the window, a description of at most 503 characters, and
      types without repeats. */
  predicate GoodAlert(a: Alert, normalized: seq<string>, start: DateTime, end: DateTime) {
    a.country != "" && a.country in normalized && a.country == ExtractCountry(a.title)
    && InWindow(start, end, a.eventTime)
    && |a.description| <= DescriptionLimit + 3
    && a.types != [] && NoDups(a.types)
  }

  lemma {:induction false} MadeAlertGood(item: Item, normalized: seq<string>, start: DateTime, end: DateTime, env: Env)
    requires Retained(item, normalized, start, end, env)
    ensures GoodAlert(MakeAlert(item, env), normalized, start, end)
  {
    ParseTypesSpec(item.description.value);
  }

  lemma {:induction false} RetainedAlertsGood(items: seq<Item>, normalized: seq<string>, start: DateTime, end: DateTime, env: Env)
    ensures forall k :: 0 <= k < |RetainedAlerts(items, normalized, start, end, env)| ==>
      GoodAlert(RetainedAlerts(items, normalized, start, end, env)[k], normalized, start, end)
  {
    var alerts := RetainedAlerts(items, normalized, start, end, env);
    forall k | 0 <= k < |alerts| ensures GoodAlert(alerts[k], normalized, start, end) {
      RetainedAlertsSound(items, normalized, start, end, env, k);
      var i :| 0 <= i < |items| && Retained(items[i], normalized, start, end, env) && alerts[k] == MakeAlert(items[i], env);
      MadeAlertGood(items[i], normalized, start, end, env);
    }
  }

  lemma {:induction false} RetainedTypesDistinct(items: seq<Item>, normalized: seq<string>, start: DateTime, end: DateTime, env: Env)
    ensures TypesDistinct(RetainedAlerts(items, normalized, start, end, env))
  {
    RetainedAlertsGood(items, normalized, start, end, env);
  }

  /** The `for alert_type in types` loop of line 278-280. */
  method MergeTypes(existing: seq<string>, types: seq<string>) returns (merged: seq<string>)
    ensures merged == AddNew(existing, types)
  {
    merged := existing;
    for i := 0 to |types|
      invariant merged == AddNew(existing, types[..i])
    {
      assert types[..i + 1][..i] == types[..i];
      if types[i] !in merged {
        merged := merged + [types[i]];
      }
    }
    assert types[..|types|] == types;
  }

  lemma {:induction false} AggregateSnoc(alerts: seq<Alert>, a: Alert)
    ensures Aggregate(alerts + [a]) == Add(Aggregate(alerts), a)
  {
    assert (alerts + [a])[..|alerts|] == alerts;
  }

  /** Grouping one alert (lines 263-289): a new country gets its first entry; a known
      one is extended in place. */
  method AddAlert(order: seq<string>, entries: map<string, CountryData>, alert: Alert)
    returns (order': seq<string>, entries': map<string, CountryData>)
    ensures Grouped(order', entries') == Add(Grouped(order, entries), alert)
  {
    var country := alert.country;
    var level := alert.level;
    if country !in entries {
      order' := order + [country];
      entries' := entries[country := CountryData(level, 1, [alert], alert.types, alert.pubDate, LevelToNumeric(level))];
    } else {
      var d := entries[country];
      d := d.(count := d.count + 1, alerts := d.alerts + [alert]);
      var merged := MergeTypes(d.types, alert.types);
      d := d.(types := merged);
      var numeric := LevelToNumeric(level);
      if numeric > d.highestLevelNumeric {
        d := d.(level := level, highestLevelNumeric := numeric, latestDate := alert.pubDate);
      }
      order' := order;
      entries' := entries[country := d];
    }
  }

  /** The checks and parses one item goes through (lines 202-261): its alert when it is
      retained. */
  method ProcessItem(item: Item, normalized: seq<string>, start: DateTime, end: DateTime, env: Env)
    returns (alert: Option<Alert>)
    ensures alert.Some? <==> Retained(item, normalized, start, end, env)
    ensures alert.Some? ==> alert.value == MakeAlert(item, env)
  {
    if item.title.None? || item.description.None? {
      return None;
    }
    var title := item.title.value;
    var description := item.description.value;
    var country := ExtractCountry(title);
    if country == "" || country !in normalized {
      return None;
    }
    var eventTime := ResolveEventTime(env.strptime, item.pubDate, env.now);
    if !InWindow(start, end, eventTime) {
      return None;
    }
    var level := ParseLevel(description);
    var types := ParseTypes(description);
    var periods := ParsePeriods(env.fromIso, description);
    alert := Some(Alert(country, title, level, types, Truncate(description), item.pubDate, eventTime,
                        item.link, item.guid, periods, description));
  }

  /** The item loop of fetch_alerts (lines 196-293), with `alerts_by_country` as the
      insertion order and the entries. */
  method GroupItems(items: seq<Item>, normalized: seq<string>, start: DateTime, end: DateTime, env: Env)
    returns (g: Grouped)
    ensures g == Aggregate(RetainedAlerts(items, normalized, start, end, env))
  {
    var order: seq<string> := [];
    var entries: map<string, CountryData> := map[];
    ghost var alerts: seq<Alert> := [];
    for i := 0 to |items|
      invariant alerts == RetainedAlerts(items[..i], normalized, start, end, env)
      invariant Grouped(order, entries) == Aggregate(alerts)
    {
      var prefix := items[..i + 1];
      assert prefix[..i] == items[..i] && prefix[i] == items[i];
      RetainedAlertsLast(prefix, normalized, start, end, env);
      var alert := ProcessItem(items[i], normalized, start, end, env);
      if alert.Some? {
        AggregateSnoc(alerts, alert.value);
        order, entries := AddAlert(order, entries, alert.value);
        alerts := alerts + [alert.value];
      }
    }
    assert items[..|items|] == items;
    g := Grouped(order, entries);
  }

  /** What fetch_alerts returns: the aggregate of the retained items, or `{}` when the
      request or the parse failed. */
  function FetchResult(feed: Result<seq<Item>>, monitored: seq<string>, start: DateTime, end: DateTime, env: Env): (g: Grouped)
    ensures Consistent(g)
  {
    match feed
    case Failure(_) => NoAlerts
    case Success(items) =>
      var alerts := RetainedAlerts(items, NormalizedCountries(monitored), start, end, env);
      AggregateConsistent(alerts);
      Aggregate(alerts)
  }

  /** The result holds one entry per monitored country with retained alerts, and the
      counts add up to the number of retained alerts. */
  lemma {:induction false} FetchResultSpec(feed: Result<seq<Item>>, monitored: seq<string>, start: DateTime, end: DateTime, env: Env)
    ensures Consistent(FetchResult(feed, monitored, start, end, env))
    ensures feed.Failure? ==> FetchResult(feed, monitored, start, end, env).entries == map[]
    ensures feed.Success? ==>
      SumCounts(FetchResult(feed, monitored, start, end, env).order, FetchResult(feed, monitored, start, end, env).entries)
      == |RetainedAlerts(feed.value, NormalizedCountries(monitored), start, end, env)|
    ensures forall c :: c in FetchResult(feed, monitored, start, end, env).entries ==> c != "" && c in NormalizedCountries(monitored)
  {
    if feed.Success? {
      var normalized := NormalizedCountries(monitored);
      var alerts := RetainedAlerts(feed.value, normalized, start, end, env);
      AggregateConsistent(alerts);
      AggregateTotal(alerts);
      RetainedAlertsGood(feed.value, normalized, start, end, env);
      forall c | c in Aggregate(alerts).entries ensures c != "" && c in normalized {
        AggregateEntries(alerts, c);
        OfCountrySpec(alerts, c);
        var i :| 0 <= i < |alerts| && alerts[i].country == c;
      }
    }
  }

  /** One row of the sensor's alert list (lines 337-345). */
  datatype SensorAlert = SensorAlert(country: string, event: string, level: string, alertType: string,
                                     description: string, pubDate: string, link: string)

  /** The result of get_alerts_for_sensor. */
  datatype SensorData = SensorData(alerts: seq<SensorAlert>, totalCount: nat, countriesAffected: nat,
                                   alertsByCountry: Grouped)

  /** `', '.join(types) if types else 'unknown'` */
  function TypeText(types: seq<string>): string {
    if types != [] then Join(types, ", ") else "unknown"
  }

  /** The type text is "unknown" for no types and the type itself for one; each further
      type is appended after ", ". */
  lemma {:induction false} TypeTextSpec(types: seq<string>)
    ensures types == [] ==> TypeText(types) == "unknown"
    ensures |types| == 1 ==> TypeText(types) == types[0]
    ensures types != [] ==> var r := TypeText(types); var last := types[|types| - 1];
      types[0] <= r && |last| <= |r| && r[|r| - |last|..] == last
    ensures forall t :: types != [] ==> TypeText(types + [t]) == TypeText(types) + ", " + t
  {
    if types != [] {
      JoinEnds(types, ", ");
      forall t ensures TypeText(types + [t]) == TypeText(types) + ", " + t {
        JoinSnoc(types, t, ", ");
      }
    }
  }

  function RowOf(country: string, a: Alert): SensorAlert {
    SensorAlert(country, a.title, a.level, TypeText(a.types), a.description, a.pubDate, a.link)
  }

  /** The rows of the listed countries, country by country, each country's alerts in
      order. */
  function SensorRows(order: seq<string>, entries: map<string, CountryData>): seq<SensorAlert>
    requires forall c :: c in order ==> c in entries
  {
    if order == [] then []
    else
      var c := order[|order| - 1];
      var alerts := entries[c].alerts;
      SensorRows(order[..|order| - 1], entries) + seq(|alerts|, i requires 0 <= i < |alerts| => RowOf(c, alerts[i]))
  }

  function SensorFormat(g: Grouped): SensorData
    requires forall c :: c in g.order ==> c in g.entries
  {
    var rows := SensorRows(g.order, g.entries);
    SensorData(rows, |rows|, |g.entries|, g)
  }

  /** With counts that match their lists, there is one row per alert counted, and every
      row belongs to a listed country. */
  lemma {:induction false} SensorRowsSpec(order: seq<string>, entries: map<string, CountryData>)
    requires forall c :: c in order ==> c in entries && EntryConsistent(entries[c])
    ensures |SensorRows(order, entries)| == SumCounts(order, entries)
    ensures forall k :: 0 <= k < |SensorRows(order, entries)| ==> SensorRows(order, entries)[k].country in order
    decreases |order|
  {
    if order != [] {
      var init := order[..|order| - 1];
      SensorRowsSpec(init, entries);
      var rows := SensorRows(order, entries);
      var before := SensorRows(init, entries);
      forall k | 0 <= k < |rows| ensures rows[k].country in order {
        if k < |before| {
          assert rows[k] == before[k];
          assert before[k].country in init;
        }
      }
    }
  }

  /** The sensor totals: total_count is the sum of the counts and countries_affected the
      number of countries. */
  lemma {:induction false} SensorFormatSpec(g: Grouped)
    requires Consistent(g)
    ensures SensorFormat(g).totalCount == |SensorFormat(g).alerts| == SumCounts(g.order, g.entries)
    ensures SensorFormat(g).countriesAffected == |g.order|
    ensures forall k :: 0 <= k < |SensorFormat(g).alerts| ==> SensorFormat(g).alerts[k].country in g.entries
  {
    SensorRowsSpec(g.order, g.entries);
    ConsistentSize(g);
  }

  /** The loops of get_alerts_for_sensor (lines 336-348). */
  method BuildSensorData(g: Grouped) returns (s: SensorData)
    requires forall c :: c in g.order ==> c in g.entries
    ensures s == SensorFormat(g)
  {
    var rows: seq<SensorAlert> := [];
    for i := 0 to |g.order|
      invariant rows == SensorRows(g.order[..i], g.entries)
    {
      var country := g.order[i];
      var alerts := g.entries[country].alerts;
      ghost var before := rows;
      for j := 0 to |alerts|
        invariant rows == before + seq(j, k requires 0 <= k < j => RowOf(country, alerts[k]))
      {
        rows := rows + [RowOf(country, alerts[j])];
      }
      assert g.order[..i + 1][..i] == g.order[..i];
    }
    assert g.order[..|g.order|] == g.order;
    s := SensorData(rows, |rows|, |g.entries|, g);
  }

  /** One country of the camera format (lines 363-369). */
  datatype CameraEntry = CameraEntry(level: string, count: nat, types: seq<string>, titles: seq<string>,
                                     latestDate: string)

  datatype CameraView = CameraView(order: seq<string>, entries: map<string, CameraEntry>)

  function Titles(alerts: seq<Alert>): (r: seq<string>)
    ensures |r| == |alerts| && forall i :: 0 <= i < |alerts| ==> r[i] == alerts[i].title
  {
    seq(|alerts|, i requires 0 <= i < |alerts| => alerts[i].title)
  }

  function CameraEntryOf(d: CountryData): CameraEntry {
    CameraEntry(d.level, d.count, d.types, Titles(d.alerts), d.latestDate)
  }

  function CameraFormat(g: Grouped): CameraView {
    CameraView(g.order, map c | c in g.entries :: CameraEntryOf(g.entries[c]))
  }

  /** The camera format has the same countries as the aggregate, and each country's
      titles are the titles of its alerts, as many as its count. */
  lemma {:induction false} CameraFormatSpec(g: Grouped)
    requires Consistent(g)
    ensures CameraFormat(g).entries.Keys == g.entries.Keys && CameraFormat(g).order == g.order
    ensures forall c :: c in g.entries ==>
      |CameraFormat(g).entries[c].titles| == CameraFormat(g).entries[c].count == g.entries[c].count
  {
  }

  /** The loop of get_alerts_for_camera (lines 362-370). */
  method BuildCameraView(g: Grouped) returns (v: CameraView)
    requires NoDups(g.order) && forall c :: c in g.entries <==> c in g.order
    ensures v == CameraFormat(g)
  {
    var entries: map<string, CameraEntry> := map[];
    for i := 0 to |g.order|
      invariant forall c :: c in entries <==> c in g.order[..i]
      invariant forall c :: c in entries ==> entries[c] == CameraEntryOf(g.entries[c])
    {
      var country := g.order[i];
      entries := entries[country := CameraEntryOf(g.entries[country])];
      assert g.order[..i + 1] == g.order[..i] + [country];
    }
    assert g.order[..|g.order|] == g.order;
    assert entries == CameraFormat(g).entries;
    v := CameraView(g.order, entries);
  }

  /** The reader object: the snapshot of the last successful fetch and its time. The
      `cached_data` and `last_update` properties read these two fields. */
  class RssReader {
    var cachedData: Option<Grouped>
    var lastUpdate: Option<DateTime>

    constructor()
      ensures cachedData == None && lastUpdate == None
    {
      cachedData := None;
      lastUpdate := None;
    }

    /** fetch_alerts: on success the result is cached with the fetch time; on failure
        the result is empty and neither field changes. */
    method FetchAlerts(feed: Result<seq<Item>>, monitored: seq<string>, start: DateTime, end: DateTime, env: Env)
      returns (g: Grouped)
      modifies this
      ensures g == FetchResult(feed, monitored, start, end, env)
      ensures feed.Success? ==> cachedData == Some(g) && lastUpdate == Some(env.now)
      ensures feed.Failure? ==> cachedData == old(cachedData) && lastUpdate == old(lastUpdate)
    {
      var normalized := NormalizedCountries(monitored);
      match feed
      case Failure(_) =>
        g := NoAlerts;
      case Success(items) =>
        g := GroupItems(items, normalized, start, end, env);
        cachedData := Some(g);
        lastUpdate := Some(env.now);
    }

    method GetAlertsForSensor(feed: Result<seq<Item>>, monitored: seq<string>, start: DateTime, end: DateTime, env: Env)
      returns (s: SensorData)
      modifies this
      ensures Consistent(FetchResult(feed, monitored, start, end, env))
      ensures s == SensorFormat(FetchResult(feed, monitored, start, end, env))
      ensures feed.Success? ==> cachedData == Some(s.alertsByCountry) && lastUpdate == Some(env.now)
      ensures feed.Failure? ==> cachedData == old(cachedData) && lastUpdate == old(lastUpdate)
    {
      var g := FetchAlerts(feed, monitored, start, end, env);
      FetchResultSpec(feed, monitored, start, end, env);
      s := BuildSensorData(g);
    }

    method GetAlertsForCamera(feed: Result<seq<Item>>, monitored: seq<string>, start: DateTime, end: DateTime, env: Env)
      returns (v: CameraView)
      modifies this
      ensures v == CameraFormat(FetchResult(feed, monitored, start, end, env))
      ensures feed.Success? ==> cachedData == Some(FetchResult(feed, monitored, start, end, env)) && lastUpdate == Some(env.now)
      ensures feed.Failure? ==> cachedData == old(cachedData) && lastUpdate == old(lastUpdate)
    {
      var g := FetchAlerts(feed, monitored, start, end, env);
      FetchResultSpec(feed, monitored, start, end, env);
      v := BuildCameraView(g);
    }
  }
}
