/** Dates and times as the reader uses them: Python `date`/`datetime` values, the
    calendar-day window of fetch_alerts, the publication-date formats it tries, and
    `isoformat()` text. Parsing (`datetime.strptime`, `datetime.fromisoformat`) and
    the clock (`datetime.now()`) are parameters. */
module Dates {
  import opened Wrappers
  import opened Text

  datatype Date = Date(year: nat, month: nat, day: nat)

  /** A `datetime`: its date, wall-clock time and, when aware, its UTC offset in
      minutes. */
  datatype DateTime = DateTime(date: Date, hour: nat, minute: nat, second: nat, microsecond: nat,
                               utcOffset: Option<int>)

  /** Python's ordering of `date` values: by year, then month, then day. */
  predicate DateLe(a: Date, b: Date) {
    a.year < b.year || (a.year == b.year && (a.month < b.month || (a.month == b.month && a.day <= b.day)))
  }

  lemma {:induction false} DateLeTotal(a: Date, b: Date)
    ensures DateLe(a, b) || DateLe(b, a)
    ensures DateLe(a, b) && DateLe(b, a) ==> a == b
  {
  }

  lemma {:induction false} DateLeTransitive(a: Date, b: Date, c: Date)
    requires DateLe(a, b) && DateLe(b, c)
    ensures DateLe(a, c)
  {
  }

  /** `start.date() <= t.date() <= end.date()` (rss_feed_reader.py line 242): the time
      of day and the offset play no part. */
  predicate InWindow(start: DateTime, end: DateTime, t: DateTime) {
    DateLe(start.date, t.date) && DateLe(t.date, end.date)
  }

  /** Only calendar days matter to the window, and it is empty when it ends before it
      starts. */
  lemma {:induction false} InWindowByDay(start: DateTime, end: DateTime, t: DateTime, u: DateTime)
    requires t.date == u.date
    ensures InWindow(start, end, t) <==> InWindow(start, end, u)
    ensures !DateLe(start.date, end.date) ==> !InWindow(start, end, t)
  {
    if InWindow(start, end, t) {
      DateLeTransitive(start.date, t.date, end.date);
    }
  }

  /** `datetime.strptime(text, format)`: a value, or no value where it raises
      ValueError. */
  type Strptime = (string, string) -> Option<DateTime>

  /** The publication-date formats of rss_feed_reader.py lines 222-227, tried in order. */
  const PubDateFormats: seq<string> := [
    "%a, %d %b %Y %H:%M:%S %z",
    "%a, %d %b %y %H:%M:%S %z",
    "%a, %d %b %Y %H:%M:%S %Z",
    "%a, %d %b %y %H:%M:%S %Z"
  ]

  /** The index of the first format that parses `text`, if any. */
  function FirstParsed(strptime: Strptime, text: string, formats: seq<string>): (r: Option<nat>)
    ensures r.Some? ==> r.value < |formats| && strptime(text, formats[r.value]).Some?
    ensures r.Some? ==> forall j :: 0 <= j < r.value ==> strptime(text, formats[j]).None?
    ensures r.None? <==> forall j :: 0 <= j < |formats| ==> strptime(text, formats[j]).None?
    decreases |formats|
  {
    if formats == [] then None
    else if strptime(text, formats[0]).Some? then Some(0)
    else
      var rest := FirstParsed(strptime, text, formats[1..]);
      assert forall j :: 1 <= j < |formats| ==> formats[j] == formats[1..][j - 1];
      if rest.None? then None else Some(rest.value + 1)
  }

  /** The time given to an alert (lines 219-239): the first format that parses the
      publication date, or the current time when the date is empty or no format
      parses it. */
  function EventTime(strptime: Strptime, pubDate: string, now: DateTime): DateTime {
    if pubDate == "" then now
    else
      match FirstParsed(strptime, pubDate, PubDateFormats)
      case Some(i) => strptime(pubDate, PubDateFormats[i]).value
      case None => now
  }

  /** Falling back to the current time happens exactly when no format applies. */
  lemma {:induction false} EventTimeFallback(strptime: Strptime, pubDate: string, now: DateTime)
    requires pubDate == "" || forall j :: 0 <= j < |PubDateFormats| ==> strptime(pubDate, PubDateFormats[j]).None?
    ensures EventTime(strptime, pubDate, now) == now
  {
  }

  /** The first format that parses wins, whatever the later ones would give. */
  lemma {:induction false} EventTimeFirstWins(strptime: Strptime, pubDate: string, now: DateTime, i: nat)
    requires pubDate != "" && i < |PubDateFormats| && strptime(pubDate, PubDateFormats[i]).Some?
    requires forall j :: 0 <= j < i ==> strptime(pubDate, PubDateFormats[j]).None?
    ensures EventTime(strptime, pubDate, now) == strptime(pubDate, PubDateFormats[i]).value
  {
  }

  /** The `for ... else` loop over the formats: break at the first that parses, else
      use the current time. */
  method ResolveEventTime(strptime: Strptime, pubDate: string, now: DateTime) returns (t: DateTime)
    ensures t == EventTime(strptime, pubDate, now)
  {
    if pubDate == "" {
      return now;
    }
    var k := 0;
    while k < |PubDateFormats|
      invariant 0 <= k <= |PubDateFormats|
      invariant forall j :: 0 <= j < k ==> strptime(pubDate, PubDateFormats[j]).None?
    {
      var parsed := strptime(pubDate, PubDateFormats[k]);
      if parsed.Some? {
        EventTimeFirstWins(strptime, pubDate, now, k);
        return parsed.value;
      }
      k := k + 1;
    }
    t := now;
  }

  /** `date.isoformat()`: YYYY-MM-DD. */
  function DateIso(d: Date): string {
    DecimalPadded(d.year, 4) + "-" + DecimalPadded(d.month, 2) + "-" + DecimalPadded(d.day, 2)
  }

  /** A date whose fields fit their printed widths. */
  predicate Printable(d: Date) {
    d.year < 10000 && d.month < 100 && d.day < 100
  }

  lemma {:induction false} PaddedLength(n: nat, width: nat)
    requires n < Pow10(width)
    ensures |DecimalPadded(n, width)| == width
    decreases if n > 0 then n + width else width
  {
    if !(n == 0 && width == 0) {
      PaddedLength(n / 10, width - 1);
    }
  }

  /** 10 to the power k, the bound for a number printed in k digits. */
  function Pow10(k: nat): (r: nat)
    ensures r > 0
  {
    if k == 0 then 1 else 10 * Pow10(k - 1)
  }

  lemma {:induction false} DateIsoLayout(d: Date)
    requires Printable(d)
    ensures var s := DateIso(d);
      |s| == 10 && s[4] == '-' && s[7] == '-' && s[..4] == DecimalPadded(d.year, 4)
      && s[5..7] == DecimalPadded(d.month, 2) && s[8..] == DecimalPadded(d.day, 2)
  {
    assert Pow10(4) == 10000 && Pow10(2) == 100;
    PaddedLength(d.year, 4);
    PaddedLength(d.month, 2);
    PaddedLength(d.day, 2);
    var y := DecimalPadded(d.year, 4);
    var m := DecimalPadded(d.month, 2);
    var dd := DecimalPadded(d.day, 2);
    var s := DateIso(d);
    assert s == y + "-" + m + "-" + dd;
    assert s[..4] == y;
    assert s[5..7] == m;
    assert s[8..] == dd;
  }

  /** The year, month and day can be read back from a date's ISO text at fixed
      positions. */
  lemma {:induction false} DateIsoFields(d: Date)
    requires Printable(d)
    ensures |DateIso(d)| == 10 && DateIso(d)[4] == '-' && DateIso(d)[7] == '-'
    ensures AllDigits(DateIso(d)[..4]) && DigitsValue(DateIso(d)[..4]) == d.year
    ensures AllDigits(DateIso(d)[5..7]) && DigitsValue(DateIso(d)[5..7]) == d.month
    ensures AllDigits(DateIso(d)[8..]) && DigitsValue(DateIso(d)[8..]) == d.day
  {
    DateIsoLayout(d);
    var s := DateIso(d);
    assert s[..4] == DecimalPadded(d.year, 4);
    assert s[5..7] == DecimalPadded(d.month, 2);
    assert s[8..] == DecimalPadded(d.day, 2);
    DigitsValueOfPadded(d.year, 4);
    DigitsValueOfPadded(d.month, 2);
    DigitsValueOfPadded(d.day, 2);
  }

  /** Dates with different fields have different ISO texts. */
  lemma {:induction false} DateIsoInjective(a: Date, b: Date)
    requires Printable(a) && Printable(b) && DateIso(a) == DateIso(b)
    ensures a == b
  {
    DateIsoFields(a);
    DateIsoFields(b);
  }

  /** `datetime.isoformat()`: the date, "T", HH:MM:SS, the microseconds when not zero,
      and the UTC offset as +HH:MM or -HH:MM when the value is aware. */
  function IsoFormat(t: DateTime): (r: string)
    ensures DateIso(t.date) + "T" <= r
  {
    var clock := DecimalPadded(t.hour, 2) + ":" + DecimalPadded(t.minute, 2) + ":" + DecimalPadded(t.second, 2);
    var fraction := if t.microsecond == 0 then "" else "." + DecimalPadded(t.microsecond, 6);
    var offset := match t.utcOffset
      case None => ""
      case Some(m) =>
        var a: nat := if m < 0 then -m else m;
        (if m < 0 then "-" else "+") + DecimalPadded(a / 60, 2) + ":" + DecimalPadded(a % 60, 2);
    var r := DateIso(t.date) + "T" + clock + fraction + offset;
    assert r == (DateIso(t.date) + "T") + (clock + fraction + offset);
    r
  }
}
