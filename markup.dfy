/** What the reader reads out of an alert's HTML description: the awareness level,
    the awareness types and the validity periods (rss_feed_reader.py lines 90-164),
    and the level ranking used to pick a country's highest alert (lines 319-329). */
module Markup {
  import opened Wrappers
  import opened Text
  import opened Scan
  import opened Dates

  /** `data-awareness-level="(\d+)"` */
  const LevelPattern: Pattern := Pattern("data-awareness-level=\"", [Group(Digit, "\"")])

  /** `data-awareness-type="(\d+)"` */
  const TypePattern: Pattern := Pattern("data-awareness-type=\"", [Group(Digit, "\"")])

  /** `<b>From: </b><i>([^<]+)</i><b> Until: </b><i>([^<]+)</i>` */
  const PeriodPattern: Pattern :=
    Pattern("<b>From: </b><i>", [Group(NotLt, "</i><b> Until: </b><i>"), Group(NotLt, "</i>")])

  lemma {:induction false} PatternsWellFormed()
    ensures WellFormed(LevelPattern) && WellFormed(TypePattern) && WellFormed(PeriodPattern)
  {
    assert GroupsWellFormed(PeriodPattern.groups[1..]);
  }

  /** The digit strings a one-group digit pattern captures, in order of appearance. */
  function DigitCodes(description: string, p: Pattern): (r: seq<string>)
    requires p.head != [] && p.groups == [Group(Digit, "\"")]
    ensures |r| == |FindAll(description, p)|
    ensures forall i :: 0 <= i < |r| ==> r[i] != [] && AllDigits(r[i]) && r[i] == FindAll(description, p)[i][0]
  {
    var ms := FindAll(description, p);
    seq(|ms|, i requires 0 <= i < |ms| => ms[i][0])
  }

  /** The integer values of the level attributes, in order of appearance. */
  function LevelValues(description: string): (r: seq<nat>)
    ensures |r| == |DigitCodes(description, LevelPattern)|
  {
    var codes := DigitCodes(description, LevelPattern);
    seq(|codes|, i requires 0 <= i < |codes| => DigitsValue(codes[i]))
  }

  function MaxOf(xs: seq<nat>): (m: nat)
    requires xs != []
    ensures m in xs && forall i :: 0 <= i < |xs| ==> xs[i] <= m
  {
    if |xs| == 1 then xs[0]
    else
      var rest := MaxOf(xs[1..]);
      assert forall i :: 1 <= i < |xs| ==> xs[i] == xs[1..][i - 1];
      if xs[0] >= rest then xs[0] else rest
  }

  /** The level map of line 99-105 with its 'unknown' default. */
  function LevelName(n: int): (r: string)
    ensures r in {"green", "yellow", "orange", "red", "unknown"}
    ensures r == "unknown" <==> !(1 <= n <= 4)
  {
    if n == 1 then "green"
    else if n == 2 then "yellow"
    else if n == 3 then "orange"
    else if n == 4 then "red"
    else "unknown"
  }

  /** `_parse_awareness_level_from_description`: the name of the highest level found,
      or 'unknown' when there is none or the highest is not 1 to 4. */
  function ParseLevel(description: string): (r: string)
    ensures r in {"green", "yellow", "orange", "red", "unknown"}
  {
    var values := LevelValues(description);
    if values == [] then "unknown" else LevelName(MaxOf(values))
  }

  /** `_level_to_numeric`: red 4, orange 3, yellow 2, green 1, anything else 0. */
  function LevelToNumeric(level: string): (r: nat)
    ensures r <= 4
    ensures r == 0 <==> level !in {"green", "yellow", "orange", "red"}
  {
    if level == "red" then 4
    else if level == "orange" then 3
    else if level == "yellow" then 2
    else if level == "green" then 1
    else 0
  }

  /** The level names and the numeric ranking translate into each other. */
  lemma {:induction false} LevelNumericRoundTrip(n: int, level: string)
    ensures 1 <= n <= 4 ==> LevelToNumeric(LevelName(n)) == n
    ensures level in {"green", "yellow", "orange", "red"} ==> LevelName(LevelToNumeric(level)) == level
  {
  }

  /** A description gets a known level exactly when it has level attributes, all of
      them at most 4 and one at least 1; the level is then the highest one found. */
  lemma {:induction false} ParseLevelSpec(description: string)
    ensures var vs := LevelValues(description);
      ParseLevel(description) != "unknown" <==>
        (vs != [] && (forall i :: 0 <= i < |vs| ==> vs[i] <= 4) && (exists i :: 0 <= i < |vs| && vs[i] >= 1))
    ensures var vs := LevelValues(description);
      ParseLevel(description) != "unknown" ==>
        LevelToNumeric(ParseLevel(description)) in vs
        && forall i :: 0 <= i < |vs| ==> vs[i] <= LevelToNumeric(ParseLevel(description))
  {
    var vs := LevelValues(description);
    if vs != [] {
      var m := MaxOf(vs);
      var i :| 0 <= i < |vs| && vs[i] == m;
      LevelNumericRoundTrip(m, "");
    }
  }

  /** The Meteoalarm type map of lines 118-131, with `type_<code>` for other codes. */
  function TypeLabel(code: string): (r: string)
    ensures r != "unknown"
  {
    if code == "1" then "wind"
    else if code == "2" then "snow"
    else if code == "3" then "thunderstorm"
    else if code == "4" then "fog"
    else if code == "5" then "temperature"
    else if code == "6" then "coastal"
    else if code == "7" then "forest_fire"
    else if code == "8" then "avalanche"
    else if code == "9" then "rain"
    else if code == "10" then "flood"
    else if code == "11" then "rain_flood"
    else if code == "12" then "fire"
    else
      assert ("type_" + code)[0] == 't';
      "type_" + code
  }

  predicate KnownCode(code: string) {
    code in {"1", "2", "3", "4", "5", "6", "7", "8", "9", "10", "11", "12"}
  }

  lemma {:induction false} TypeLabelOfUnknown(code: string)
    requires !KnownCode(code)
    ensures TypeLabel(code) == "type_" + code
  {
  }

  lemma {:induction false} KnownLabelsNotPrefixed(code: string)
    requires KnownCode(code)
    ensures !("type_" <= TypeLabel(code))
  {
    assert |TypeLabel(code)| >= 2 && TypeLabel(code)[1] != 'y';
  }

  /** Different codes get different labels, so deduplicating codes deduplicates labels. */
  lemma {:induction false} TypeLabelInjective(a: string, b: string)
    requires TypeLabel(a) == TypeLabel(b)
    ensures a == b
  {
    if KnownCode(a) && KnownCode(b) {
    } else if KnownCode(a) {
      KnownLabelsNotPrefixed(a);
      TypeLabelOfUnknown(b);
    } else if KnownCode(b) {
      KnownLabelsNotPrefixed(b);
      TypeLabelOfUnknown(a);
    } else {
      TypeLabelOfUnknown(a);
      TypeLabelOfUnknown(b);
      assert a == TypeLabel(a)[5..];
    }
  }

  function Labels(codes: seq<string>): (r: seq<string>)
    ensures |r| == |codes| && forall i :: 0 <= i < |codes| ==> r[i] == TypeLabel(codes[i])
  {
    seq(|codes|, i requires 0 <= i < |codes| => TypeLabel(codes[i]))
  }

  /** `_parse_awareness_type_from_description`: the labels of the distinct type codes,
      or ['unknown'] when there are none. */
  function ParseTypes(description: string): (r: seq<string>)
    ensures r != []
  {
    var codes := DigitCodes(description, TypePattern);
    if codes == [] then ["unknown"] else Labels(Dedup(codes))
  }

  lemma {:induction false} LabelsNoDups(codes: seq<string>)
    requires NoDups(codes)
    ensures NoDups(Labels(codes))
  {
    var r := Labels(codes);
    forall i, j | 0 <= i < j < |r| ensures r[i] != r[j] {
      if r[i] == r[j] {
        TypeLabelInjective(codes[i], codes[j]);
      }
    }
  }

  lemma {:induction false} DedupLabelsDistinct(codes: seq<string>)
    ensures NoDups(Labels(Dedup(codes)))
    ensures |Labels(Dedup(codes))| == |set c | c in codes|
  {
    var d := Dedup(codes);
    LabelsNoDups(d);
    NoDupsCard(d);
    assert (set c | c in d) == (set c | c in codes);
  }

  lemma {:induction false} DedupLabelsMembers(codes: seq<string>, x: string)
    ensures x in Labels(Dedup(codes)) <==> exists i :: 0 <= i < |codes| && x == TypeLabel(codes[i])
  {
    var d := Dedup(codes);
    var ls := Labels(d);
    if x in ls {
      var k :| 0 <= k < |d| && ls[k] == x;
      assert d[k] in codes;
      var i :| 0 <= i < |codes| && codes[i] == d[k];
      assert x == TypeLabel(codes[i]);
    }
    if exists i :: 0 <= i < |codes| && x == TypeLabel(codes[i]) {
      var i :| 0 <= i < |codes| && x == TypeLabel(codes[i]);
      assert codes[i] in d;
      var k :| 0 <= k < |d| && d[k] == codes[i];
      assert ls[k] == x;
    }
  }

  /** The types of a description: one label per distinct type code and nothing else,
      each once; 'unknown' alone when there is no type attribute. */
  lemma {:induction false} ParseTypesSpec(description: string)
    ensures DigitCodes(description, TypePattern) == [] ==> ParseTypes(description) == ["unknown"]
    ensures DigitCodes(description, TypePattern) != [] ==>
      NoDups(ParseTypes(description))
      && |ParseTypes(description)| == |set c | c in DigitCodes(description, TypePattern)|
    ensures ParseTypes(description) != [] && NoDups(ParseTypes(description))
  {
    var codes := DigitCodes(description, TypePattern);
    if codes != [] {
      DedupLabelsDistinct(codes);
    }
  }

  /** With type attributes, a label is listed exactly when some attribute carries its
      code. */
  lemma {:induction false} ParseTypesMembers(description: string, x: string)
    requires DigitCodes(description, TypePattern) != []
    ensures x in ParseTypes(description) <==>
      exists i :: 0 <= i < |DigitCodes(description, TypePattern)| && x == TypeLabel(DigitCodes(description, TypePattern)[i])
  {
    DedupLabelsMembers(DigitCodes(description, TypePattern), x);
  }

  /** One validity period: both instants and the texts they were read from. */
  datatype Period = Period(from: DateTime, until: DateTime, fromText: string, untilText: string)

  /** `datetime.fromisoformat(text)`: a value, or no value where it raises ValueError. */
  type FromIsoFormat = string -> Option<DateTime>

  /** `text.replace('Z', '+00:00')`, applied before fromisoformat. */
  function UtcSuffixed(text: string): (r: string)
    ensures 'Z' !in r
    ensures 'Z' !in text ==> r == text
  {
    ReplaceChar(text, 'Z', "+00:00")
  }

  /** Each 'Z' becomes "+00:00": the text up to the first 'Z' is kept, and the rest is
      replaced in turn. */
  lemma {:induction false} UtcSuffixedSplit(a: string, b: string)
    requires 'Z' !in a
    ensures UtcSuffixed(a + "Z" + b) == a + "+00:00" + UtcSuffixed(b)
  {
    ReplaceCharFirst(a, b, 'Z', "+00:00");
  }

  /** The period a match gives, if both of its texts parse. */
  function PeriodOf(fromIso: FromIsoFormat, caps: seq<string>): (r: Option<Period>)
    requires |caps| == 2
    ensures r.Some? <==> fromIso(UtcSuffixed(caps[0])).Some? && fromIso(UtcSuffixed(caps[1])).Some?
    ensures r.Some? ==> r.value.fromText == caps[0] && r.value.untilText == caps[1]
    ensures r.Some? ==> r.value.from == fromIso(UtcSuffixed(caps[0])).value
    ensures r.Some? ==> r.value.until == fromIso(UtcSuffixed(caps[1])).value
  {
    var f := fromIso(UtcSuffixed(caps[0]));
    var u := fromIso(UtcSuffixed(caps[1]));
    if f.Some? && u.Some? then Some(Period(f.value, u.value, caps[0], caps[1])) else None
  }

  predicate PairMatches(ms: seq<seq<string>>) {
    forall i :: 0 <= i < |ms| ==> |ms[i]| == 2
  }

  /** The periods of a sequence of matches, in order, skipping the matches whose
      texts do not parse. */
  function PeriodsOf(fromIso: FromIsoFormat, ms: seq<seq<string>>): seq<Period>
    requires PairMatches(ms)
  {
    if ms == [] then []
    else
      var init := ms[..|ms| - 1];
      var p := PeriodOf(fromIso, ms[|ms| - 1]);
      PeriodsOf(fromIso, init) + (if p.Some? then [p.value] else [])
  }

  lemma {:induction false} PeriodMatchesHavePairs(description: string)
    ensures PairMatches(FindAll(description, PeriodPattern))
  {
  }

  /** `_parse_time_periods`: the loop over the matches of the period pattern. */
  method ParsePeriods(fromIso: FromIsoFormat, description: string) returns (periods: seq<Period>)
    ensures PairMatches(FindAll(description, PeriodPattern))
    ensures periods == PeriodsOf(fromIso, FindAll(description, PeriodPattern))
  {
    var matches := FindAll(description, PeriodPattern);
    PeriodMatchesHavePairs(description);
    periods := [];
    for i := 0 to |matches|
      invariant PairMatches(matches[..i])
      invariant periods == PeriodsOf(fromIso, matches[..i])
    {
      var caps := matches[i];
      var prefix := matches[..i + 1];
      assert prefix[..i] == matches[..i] && prefix[i] == caps;
      PeriodsOfLast(fromIso, prefix);
      var f := fromIso(UtcSuffixed(caps[0]));
      var u := fromIso(UtcSuffixed(caps[1]));
      if f.Some? && u.Some? {
        periods := periods + [Period(f.value, u.value, caps[0], caps[1])];
      }
    }
    assert matches[..|matches|] == matches;
  }

  lemma {:induction false} PeriodsOfLast(fromIso: FromIsoFormat, ms: seq<seq<string>>)
    requires PairMatches(ms) && ms != []
    ensures PairMatches(ms[..|ms| - 1])
    ensures PeriodsOf(fromIso, ms) == PeriodsOf(fromIso, ms[..|ms| - 1])
      + (if PeriodOf(fromIso, ms[|ms| - 1]).Some? then [PeriodOf(fromIso, ms[|ms| - 1]).value] else [])
  {
  }

  /** Every period comes from a match whose two texts parse to its two instants. */
  lemma {:induction false} PeriodsSound(fromIso: FromIsoFormat, ms: seq<seq<string>>, k: nat)
    requires PairMatches(ms) && k < |PeriodsOf(fromIso, ms)|
    ensures exists i :: 0 <= i < |ms| && PeriodOf(fromIso, ms[i]) == Some(PeriodsOf(fromIso, ms)[k])
    decreases |ms|
  {
    var init := ms[..|ms| - 1];
    assert PairMatches(init);
    if k < |PeriodsOf(fromIso, init)| {
      PeriodsSound(fromIso, init, k);
      var i :| 0 <= i < |init| && PeriodOf(fromIso, init[i]) == Some(PeriodsOf(fromIso, init)[k]);
      assert init[i] == ms[i];
    } else {
      assert PeriodOf(fromIso, ms[|ms| - 1]) == Some(PeriodsOf(fromIso, ms)[k]);
    }
  }

  /** Every match whose texts parse contributes its period. */
  lemma {:induction false} PeriodsComplete(fromIso: FromIsoFormat, ms: seq<seq<string>>, i: nat)
    requires PairMatches(ms) && i < |ms| && PeriodOf(fromIso, ms[i]).Some?
    ensures PeriodOf(fromIso, ms[i]).value in PeriodsOf(fromIso, ms)
    decreases |ms|
  {
    var init := ms[..|ms| - 1];
    assert PairMatches(init);
    if i < |ms| - 1 {
      assert init[i] == ms[i];
      PeriodsComplete(fromIso, init, i);
    }
  }

  /** A rendered marker at the front of a description is the first level found. */
  lemma {:induction false} LevelOfMarker(code: string, rest: string)
    requires code != [] && AllDigits(code) && NoMatchIn(rest, LevelPattern)
    ensures ParseLevel(Render(LevelPattern, [code]) + rest) == LevelName(DigitsValue(code))
  {
    PatternsWellFormed();
    assert Conforms([code], LevelPattern.groups);
    FindAllRendered(LevelPattern, [code], rest);
    FindAllEmpty(rest, LevelPattern);
    var d := Render(LevelPattern, [code]) + rest;
    assert FindAll(d, LevelPattern) == [[code]];
    assert LevelValues(d) == [DigitsValue(code)];
  }

  /** A level marker preceded by text in which no marker starts, and followed by text
      holding no marker, gives the level of its number. */
  lemma {:induction false} LevelOfMarkerAfter(pre: string, code: string, rest: string)
    requires code != [] && AllDigits(code) && NoMatchIn(rest, LevelPattern)
    requires forall i :: 0 <= i < |pre| ==> MatchAt((pre + Render(LevelPattern, [code]) + rest)[i..], LevelPattern).NoMatch?
    ensures ParseLevel(pre + Render(LevelPattern, [code]) + rest) == LevelName(DigitsValue(code))
  {
    var marked := Render(LevelPattern, [code]) + rest;
    var d := pre + Render(LevelPattern, [code]) + rest;
    assert d == pre + marked;
    assert d[|pre|..] == marked;
    FindAllSkip(d, LevelPattern, |pre|);
    LevelOfMarker(code, rest);
    SameMatchesSameLevel(d, marked);
  }

  /** The level depends only on the level matches. */
  lemma {:induction false} SameMatchesSameLevel(d: string, e: string)
    requires FindAll(d, LevelPattern) == FindAll(e, LevelPattern)
    ensures ParseLevel(d) == ParseLevel(e)
  {
    assert DigitCodes(d, LevelPattern) == DigitCodes(e, LevelPattern);
    assert LevelValues(d) == LevelValues(e);
  }
}
