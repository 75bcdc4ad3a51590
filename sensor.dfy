/** MeteoalarmSensor (sensor.py): what one update stores as the sensor's state and
    attributes, the five-bucket level histogram, and the icon chosen from the state. */
module Sensor {
  import opened Wrappers
  import opened Text
  import opened Countries
  import opened Dates
  import opened Reader

  /** The configuration the sensor reads: the monitored countries and the vacation
      dates as text, None where the key is absent. */
  datatype Config = Config(countries: seq<string>, vacationStart: Option<string>, vacationEnd: Option<string>)

  /** `datetime.strptime(text, format)`: a value, or the text of the ValueError. */
  type DateParser = (string, string) -> Result<DateTime>

  const DayFormat: string := "%Y-%m-%d"

  /** The TypeError text `strptime` raises for a None argument. */
  const NoneArgument: string := "strptime() argument 1 must be str, not None"

  /** One vacation date (sensor.py lines 33-34). */
  function ConfigDate(strptime: DateParser, text: Option<string>): Result<DateTime> {
    match text
    case None => Failure(NoneArgument)
    case Some(t) => strptime(t, DayFormat)
  }

  /** `[c.lower() for c in countries]` (line 32). */
  function LowerAll(countries: seq<string>): (r: seq<string>)
    ensures |r| == |countries| && forall i :: 0 <= i < |r| ==> r[i] == Lower(countries[i]) && LowerCase(r[i])
  {
    seq(|countries|, i requires 0 <= i < |countries| => Lower(countries[i]))
  }

  /** Lower-casing the configured countries does not change which countries the reader
      monitors. */
  lemma {:induction false} LowerThenNormalize(countries: seq<string>)
    ensures NormalizedCountries(LowerAll(countries)) == NormalizedCountries(countries)
  {
    forall i | 0 <= i < |countries| ensures Normalize(Lower(countries[i])) == Normalize(countries[i]) {
      NormalizeLowered(countries[i]);
    }
  }

  /** The keys of `level_summary`, each starting at 0 (line 52). */
  const LevelKeys: set<string> := {"red", "orange", "yellow", "green", "unknown"}

  /** The bucket a level is counted in: its own when it is a key, 'unknown' otherwise. */
  function Bucket(level: string): (r: string)
    ensures r in LevelKeys
    ensures level in LevelKeys ==> r == level
    ensures level !in LevelKeys ==> r == "unknown"
  {
    if level in LevelKeys then level else "unknown"
  }

  /** The number of rows counted in bucket `key`. */
  function CountLevel(rows: seq<SensorAlert>, key: string): nat {
    if rows == [] then 0
    else CountLevel(rows[..|rows| - 1], key) + (if Bucket(rows[|rows| - 1].level) == key then 1 else 0)
  }

  function LevelTotal(rows: seq<SensorAlert>): nat {
    CountLevel(rows, "red") + CountLevel(rows, "orange") + CountLevel(rows, "yellow")
    + CountLevel(rows, "green") + CountLevel(rows, "unknown")
  }

  /** Every row is counted in exactly one bucket, so the buckets add up to the number of
      rows. */
  lemma {:induction false} LevelTotalIsCount(rows: seq<SensorAlert>)
    ensures LevelTotal(rows) == |rows|
    decreases |rows|
  {
    if rows != [] {
      LevelTotalIsCount(rows[..|rows| - 1]);
    }
  }

  /** A bucket other than the five keys holds nothing. */
  lemma {:induction false} CountOutsideKeys(rows: seq<SensorAlert>, key: string)
    requires key !in LevelKeys
    ensures CountLevel(rows, key) == 0
    decreases |rows|
  {
    if rows != [] {
      CountOutsideKeys(rows[..|rows| - 1], key);
    }
  }

  ghost predicate IsHistogram(summary: map<string, nat>, rows: seq<SensorAlert>) {
    summary.Keys == LevelKeys && forall k :: k in summary ==> summary[k] == CountLevel(rows, k)
  }

  /** The histogram the loop of lines 53-58 builds. */
  function Histogram(rows: seq<SensorAlert>): (h: map<string, nat>)
    ensures IsHistogram(h, rows)
  {
    map k | k in LevelKeys :: CountLevel(rows, k)
  }

  lemma {:induction false} CountLevelLast(rows: seq<SensorAlert>, i: nat, key: string)
    requires i < |rows|
    ensures CountLevel(rows[..i + 1], key) == CountLevel(rows[..i], key) + (if Bucket(rows[i].level) == key then 1 else 0)
  {
    var prefix := rows[..i + 1];
    assert prefix[..i] == rows[..i] && prefix[i] == rows[i];
  }

  /** One more row adds one to its own bucket and leaves the others as they were. */
  lemma {:induction false} HistogramStep(summary: map<string, nat>, rows: seq<SensorAlert>, i: nat)
    requires i < |rows| && IsHistogram(summary, rows[..i])
    ensures var b := Bucket(rows[i].level);
      b in summary && IsHistogram(summary[b := summary[b] + 1], rows[..i + 1])
  {
    var b := Bucket(rows[i].level);
    var next := summary[b := summary[b] + 1];
    forall k | k in next ensures next[k] == CountLevel(rows[..i + 1], k) {
      CountLevelLast(rows, i, k);
    }
  }

  /** The loop of lines 52-58. */
  method LevelSummary(rows: seq<SensorAlert>) returns (summary: map<string, nat>)
    ensures IsHistogram(summary, rows) && summary == Histogram(rows)
  {
    summary := map["red" := 0, "orange" := 0, "yellow" := 0, "green" := 0, "unknown" := 0];
    for i := 0 to |rows|
      invariant IsHistogram(summary, rows[..i])
    {
      var level := rows[i].level;
      HistogramStep(summary, rows, i);
      if level in summary {
        summary := summary[level := summary[level] + 1];
      } else {
        summary := summary["unknown" := summary["unknown"] + 1];
      }
    }
    assert rows[..|rows|] == rows;
    assert summary == Histogram(rows);
  }

  /** The icon property (lines 102-112). */
  function IconFor(state: Option<int>): (r: string)
    ensures r == "mdi:weather-sunny" || r == "mdi:weather-lightning" || r == "mdi:weather-lightning-rainy"
  {
    match state
    case None => "mdi:weather-lightning"
    case Some(n) =>
      if n == 0 then "mdi:weather-sunny"
      else if n <= 5 then "mdi:weather-lightning"
      else "mdi:weather-lightning-rainy"
  }

  /** Sunny exactly at zero, rainy exactly above five, lightning otherwise and before the
      first update. */
  lemma {:induction false} IconThresholds(n: int)
    ensures IconFor(Some(n)) == "mdi:weather-sunny" <==> n == 0
    ensures IconFor(Some(n)) == "mdi:weather-lightning-rainy" <==> n > 5
    ensures IconFor(Some(n)) == "mdi:weather-lightning" <==> n < 0 || 1 <= n <= 5
    ensures IconFor(None) == "mdi:weather-lightning"
  {
  }

  /** `f"{start_date.date()} to {end_date.date()}"` */
  function VacationPeriod(start: DateTime, end: DateTime): string {
    DateIso(start.date) + " to " + DateIso(end.date)
  }

  /** The vacation period text names its two days: periods of printable dates that read
      alike have the same start and end days. */
  lemma {:induction false} VacationPeriodInjective(s1: DateTime, e1: DateTime, s2: DateTime, e2: DateTime)
    requires Printable(s1.date) && Printable(e1.date) && Printable(s2.date) && Printable(e2.date)
    requires VacationPeriod(s1, e1) == VacationPeriod(s2, e2)
    ensures s1.date == s2.date && e1.date == e2.date
  {
    PeriodParts(s1, e1);
    PeriodParts(s2, e2);
    DateIsoInjective(s1.date, s2.date);
    DateIsoInjective(e1.date, e2.date);
  }

  lemma {:induction false} PeriodParts(start: DateTime, end: DateTime)
    requires Printable(start.date) && Printable(end.date)
    ensures var p := VacationPeriod(start, end);
      |p| == 24 && p[..10] == DateIso(start.date) && p[14..] == DateIso(end.date)
  {
    DateIsoLayout(start.date);
    DateIsoLayout(end.date);
    var a, b := DateIso(start.date), DateIso(end.date);
    assert VacationPeriod(start, end) == a + (" to " + b);
  }

  /** The sensor's attributes: none before the first update, the normal set after a
      successful one, and only the error after a failed one. */
  datatype Attributes =
    | NoAttributes
    | Normal(alerts: seq<SensorAlert>, countriesMonitored: seq<string>, countriesWithAlerts: nat,
             vacationPeriod: string, lastUpdate: string, feedSource: string, rssLastFetch: Option<string>,
             alertsByLevel: map<string, nat>)
    | Failed(error: string, lastErrorTime: string)

  function FetchText(lastFetch: Option<DateTime>): Option<string> {
    match lastFetch
    case None => None
    case Some(t) => Some(IsoFormat(t))
  }

  /** What the sensor shows after a successful update: its state is the number of alert
      rows, which is the number of retained items, and the histogram counts the same
      rows. */
  lemma {:induction false} SensorCounts(feed: Result<seq<Item>>, countries: seq<string>, start: DateTime, end: DateTime, env: Env)
    ensures var data := SensorFormat(FetchResult(feed, countries, start, end, env));
      data.totalCount == LevelTotal(data.alerts)
      && data.totalCount == (if feed.Success? then |RetainedAlerts(feed.value, NormalizedCountries(countries), start, end, env)| else 0)
  {
    FetchResultSpec(feed, countries, start, end, env);
    var g := FetchResult(feed, countries, start, end, env);
    SensorFormatSpec(g);
    LevelTotalIsCount(SensorFormat(g).alerts);
    if feed.Failure? {
      assert g.order == [];
    }
  }

  class MeteoalarmSensor {
    var state: Option<int>
    var attributes: Attributes
    const config: Config
    const reader: RssReader

    constructor(config: Config, reader: RssReader)
      ensures state == None && attributes == NoAttributes
      ensures this.config == config && this.reader == reader
    {
      this.config := config;
      this.reader := reader;
      state := None;
      attributes := NoAttributes;
    }

    function Icon(): string
      reads this
    {
      IconFor(state)
    }

    /** update (lines 28-78): read the configuration, fetch through the reader, and
        store the count and the attributes; a vacation date that is missing or does not
        parse leaves state 0 and only the error, and the reader is not called. */
    method Update(feed: Result<seq<Item>>, strptime: DateParser, env: Env)
      modifies this, reader
      ensures var start := ConfigDate(strptime, config.vacationStart);
        start.Failure? ==>
          state == Some(0) && attributes == Failed(start.error, IsoFormat(env.now))
          && reader.cachedData == old(reader.cachedData) && reader.lastUpdate == old(reader.lastUpdate)
      ensures var start := ConfigDate(strptime, config.vacationStart);
        var end := ConfigDate(strptime, config.vacationEnd);
        start.Success? && end.Failure? ==>
          state == Some(0) && attributes == Failed(end.error, IsoFormat(env.now))
          && reader.cachedData == old(reader.cachedData) && reader.lastUpdate == old(reader.lastUpdate)
      ensures var start := ConfigDate(strptime, config.vacationStart);
        var end := ConfigDate(strptime, config.vacationEnd);
        var countries := LowerAll(config.countries);
        start.Success? && end.Success? ==>
          var g := FetchResult(feed, countries, start.value, end.value, env);
          var data := SensorFormat(g);
          state == Some(data.totalCount)
          && attributes == Normal(data.alerts, countries, data.countriesAffected,
                                  VacationPeriod(start.value, end.value), IsoFormat(env.now), "RSS",
                                  FetchText(reader.lastUpdate), Histogram(data.alerts))
          && (feed.Success? ==> reader.cachedData == Some(g) && reader.lastUpdate == Some(env.now))
          && (feed.Failure? ==> reader.cachedData == old(reader.cachedData) && reader.lastUpdate == old(reader.lastUpdate))
    {
      var countries := LowerAll(config.countries);
      var start := ConfigDate(strptime, config.vacationStart);
      if start.Failure? {
        state := Some(0);
        attributes := Failed(start.error, IsoFormat(env.now));
        return;
      }
      var end := ConfigDate(strptime, config.vacationEnd);
      if end.Failure? {
        state := Some(0);
        attributes := Failed(end.error, IsoFormat(env.now));
        return;
      }
      var data := reader.GetAlertsForSensor(feed, countries, start.value, end.value, env);
      state := Some(data.totalCount);
      var summary := LevelSummary(data.alerts);
      attributes := Normal(data.alerts, countries, data.countriesAffected, VacationPeriod(start.value, end.value),
                           IsoFormat(env.now), "RSS", FetchText(reader.lastUpdate), summary);
    }
  }
}
