# meteoalarm_map: the RSS reader and the alert sensor, in Dafny

This project models the core of the Home Assistant integration `meteoalarm_map`.

The first part is `MeteoalarmRSSReader`:

- it walks the `<item>`s of the Meteoalarm RSS feed;
- it resolves each item's country from its title through a synonym table;
- it keeps the items of monitored countries whose event time falls in the vacation window;
- it reads the awareness level, the awareness types and the validity periods out of the HTML description;
- it groups the resulting alerts by country, keeping the highest level, the union of the types and the count;
- it caches the result with the fetch time;
- it reformats the result for the sensor and for the camera.

The second part is `MeteoalarmSensor.update`. It lower-cases the configured countries and parses the two vacation dates. It then fetches through the reader and stores:

- the state: the alert count;
- the attributes, among them a five-bucket histogram of the levels (`alerts_by_level`).

A vacation date that is missing or malformed puts the sensor into its error state. The sensor's icon is chosen from the state.

Modules, in dependency order:

- `Wrappers`: `Option` and `Result`.
- `Text`: Python's `strip`, `lower` and `isspace`, and duplicate-free sequences (`AddNew` is `list.append` when not already present; `Dedup` is `set()` in first-seen order).
- `Scan`: `re.findall` for patterns of the shape "literal, then groups `(C+)` each closed by a literal".
- `Dates`: `date`/`datetime` values, the day window, the publication-date formats, and `isoformat()`.
- `CountryTableData`, `CountryTable`: the synonym table and the facts about it.
- `Countries`: `_normalize_country_name` and `_extract_country_from_title`.
- `Markup`: the level, type and period parsers, and `_level_to_numeric`.
- `Grouping`: `alerts_by_country` as a specification. It defines:
  - the update one alert makes;
  - the fold over the retained alerts;
  - independent definitions of each country's entry: its alerts, the first alert of highest rank, and the union of the types.
- `Reader`: the item loop of `fetch_alerts` as imperative methods proved against `Grouping`, the sensor and camera formats, and the class `RssReader`, whose fields are the cache and the last fetch time.
- `Sensor`: the histogram loop, the icon, and the class `MeteoalarmSensor`, with `Update`.

The feed is a parameter: either a sequence of already-parsed items, or the failure that made the request or the XML parse raise. `datetime.strptime`, `datetime.fromisoformat` and the clock (`datetime.now()`) are parameters too.

## Model

| member | source | states |
|---|---|---|
| Countries.ExtractCountry | custom_components/meteoalarm_map/rss_feed_reader.py:77-88 | the country read from a title is already normalised: normalising it again changes nothing |
| Countries.ExtractLeadingSpace | custom_components/meteoalarm_map/rss_feed_reader.py:79 | white space in front of a title does not change the country read from it |
| Countries.NormalizeWith | custom_components/meteoalarm_map/rss_feed_reader.py:69-75 | the normalisation over a given synonym table: "" stays "", any other name is lower-cased and stripped and then replaced by its table entry when it has one; its properties are stated by `NormalizeWithIdempotent`, `NormalizeCanonical`, `NormalizeKey`, `NormalizeLowered` and `NormalizeEmpty` |
| Countries.Normalize | custom_components/meteoalarm_map/rss_feed_reader.py:69-75 | the normalisation with the corrected synonym table, which the rest of the model uses; `NormalizeIdempotent` states its properties |
| Countries.NormalizeAsWritten | custom_components/meteoalarm_map/rss_feed_reader.py:69-75 | the normalisation with the synonym table as written; `AsWrittenAgrees` states that it equals `Normalize` on every name whose lower-cased, stripped form is not "españa", and `SpanishNameAsWritten` states what it gives for "España" |
| Countries.ExtractUnprefixed | custom_components/meteoalarm_map/rss_feed_reader.py:79-85 | a title that does not start with "meteoalarm " (after strip and lower) is normalised as a whole |
| Countries.ExtractPrefixed | custom_components/meteoalarm_map/rss_feed_reader.py:79-88 | "Meteoalarm <name>" in any letter case gives the normalised name, whatever trailing white space the title has |
| Countries.NormalizeIdempotent | custom_components/meteoalarm_map/rss_feed_reader.py:69-75 | normalising a normalised name returns it unchanged |
| Countries.NormalizeWithIdempotent | custom_components/meteoalarm_map/rss_feed_reader.py:69-75 | idempotence holds for any table whose values are non-empty, lower-case, stripped names that are not themselves keys |
| Countries.NormalizeKey | custom_components/meteoalarm_map/rss_feed_reader.py:74-75 | normalisation depends only on the lower-cased, stripped name |
| Countries.NormalizeLowered | custom_components/meteoalarm_map/rss_feed_reader.py:74 | lower-casing a name first does not change its normalisation |
| Countries.NormalizeEmpty | custom_components/meteoalarm_map/rss_feed_reader.py:71-75 | a name normalises to "" exactly when it is empty or all white space |
| Countries.AsWrittenAgrees | custom_components/meteoalarm_map/rss_feed_reader.py:18-67 | the table as written and the corrected table normalise every name alike, except Spain's native name |
| Countries.MisencodedKeyUnreachable | custom_components/meteoalarm_map/rss_feed_reader.py:39 | no name, after lower() and strip(), equals the table's mis-encoded Spanish key |
| Countries.MisencodedNotLowerCase | custom_components/meteoalarm_map/rss_feed_reader.py:39 | the mis-encoded key contains an upper-case letter (U+00C3) |
| Countries.SpanishNameAsWritten | custom_components/meteoalarm_map/rss_feed_reader.py:39 | with the table as written, "España" normalises to "españa", not to "spain" |
| Countries.SpanishNameCorrected | custom_components/meteoalarm_map/rss_feed_reader.py:38-39 | with the corrected table, "España" normalises to "spain" |
| Countries.SpanishTitle | custom_components/meteoalarm_map/rss_feed_reader.py:39-88 | the title "Meteoalarm España" is read as "spain" with the corrected table, while the table as written leaves the name "españa" |
| Countries.SpanishEnglishName | custom_components/meteoalarm_map/rss_feed_reader.py:69-75 | "Spain" normalises to "spain" |
| Countries.SpanishCode | custom_components/meteoalarm_map/rss_feed_reader.py:38 | "ES" normalises to "spain" |
| CountryTable.CorrectedTableCanonical | custom_components/meteoalarm_map/rss_feed_reader.py:18-67 | in the corrected table every value is a non-empty, lower-case, stripped name that is not a key, and "" is not a key |
| CountryTable.AsWrittenTableCanonical | custom_components/meteoalarm_map/rss_feed_reader.py:18-67 | the same facts hold for the table as written |
| CountryTable.LookupFacts | custom_components/meteoalarm_map/rss_feed_reader.py:18-67 | a value found in the corrected table is canonical and has no entry of its own |
| CountryTable.SpanishCodeLookup | custom_components/meteoalarm_map/rss_feed_reader.py:38 | the key "es" maps to "spain" |
| Text.StripTrimmed | custom_components/meteoalarm_map/rss_feed_reader.py:74 | strip() leaves no white space at either end, and gives "" exactly when the text is all white space |
| Text.StripIdempotent | custom_components/meteoalarm_map/rss_feed_reader.py:74 | stripping twice is stripping once |
| Text.LowerStrip | custom_components/meteoalarm_map/rss_feed_reader.py:79 | lower() and strip() commute |
| Text.LowerStripCanonical | custom_components/meteoalarm_map/rss_feed_reader.py:74 | a lower-cased, stripped name is lower-case and trimmed, and lower().strip() leaves it unchanged |
| Text.FilterMapSound | custom_components/meteoalarm_map/rss_feed_reader.py:195-261 | every produced element comes from an input element that passed the filter |
| Text.FilterMapComplete | custom_components/meteoalarm_map/rss_feed_reader.py:195-261 | every input element that passes the filter produces its element |
| Scan.RunMaximal | custom_components/meteoalarm_map/rss_feed_reader.py:95 | a greedy run is the longest prefix within its character class |
| Scan.MatchAtSound | custom_components/meteoalarm_map/rss_feed_reader.py:95 | a match captures non-empty runs of each group's class, and the consumed text is their rendering with the pattern's literals |
| Scan.MatchRendered | custom_components/meteoalarm_map/rss_feed_reader.py:95 | matching the rendering of a well-formed pattern gives back exactly its captures |
| Scan.FindAllRendered | custom_components/meteoalarm_map/rss_feed_reader.py:95 | a rendered match at the front is the first capture findall reports, followed by the findall of the rest |
| Scan.FindAllEmpty | custom_components/meteoalarm_map/rss_feed_reader.py:95-96 | findall is empty exactly when no match starts at any position |
| Scan.FindAllSound | custom_components/meteoalarm_map/rss_feed_reader.py:115 | every reported capture is the capture of a match at some position of the text |
| Scan.FindAllStep | custom_components/meteoalarm_map/rss_feed_reader.py:144 | after a match the scan resumes where the match ended; elsewhere it moves on one character |
| Scan.FindAll | custom_components/meteoalarm_map/rss_feed_reader.py:95 | `re.findall` of a single-match pattern (also used at lines 115 and 144): every capture list conforms to the pattern's groups; `FindAllStep`, `FindAllRendered`, `FindAllSound` and `FindAllEmpty` state how the scan proceeds |
| Markup.PatternsWellFormed | custom_components/meteoalarm_map/rss_feed_reader.py:95-143 | the level, type and period patterns never need to backtrack and never match the empty text |
| Markup.DigitCodes | custom_components/meteoalarm_map/rss_feed_reader.py:95 | one non-empty digit string per match, in order of appearance |
| Markup.MaxOf | custom_components/meteoalarm_map/rss_feed_reader.py:98 | the maximum is a member and bounds every member |
| Markup.LevelName | custom_components/meteoalarm_map/rss_feed_reader.py:99-105 | the level name is one of the five; it is 'unknown' exactly outside 1..4 |
| Markup.ParseLevel | custom_components/meteoalarm_map/rss_feed_reader.py:90-109 | the parsed level is one of green, yellow, orange, red and unknown |
| Markup.ParseLevelSpec | custom_components/meteoalarm_map/rss_feed_reader.py:90-109 | the level is known exactly when there are level attributes, all at most 4 and one at least 1; a known level's rank is the highest value found |
| Markup.LevelOfMarker | custom_components/meteoalarm_map/rss_feed_reader.py:95-105 | a description that starts with a level marker and holds no other gives the level of that marker's number |
| Markup.LevelOfMarkerAfter | custom_components/meteoalarm_map/rss_feed_reader.py:95-105 | a level marker preceded by text in which no marker starts, and followed by text holding no marker, gives the level of its number |
| Markup.LevelToNumeric | custom_components/meteoalarm_map/rss_feed_reader.py:319-329 | the rank is at most 4, and it is 0 exactly for names other than green, yellow, orange and red |
| Markup.LevelNumericRoundTrip | custom_components/meteoalarm_map/rss_feed_reader.py:99-105 | level names and ranks 1..4 translate into each other both ways |
| Markup.TypeLabel | custom_components/meteoalarm_map/rss_feed_reader.py:118-132 | no code is labelled 'unknown' |
| Markup.TypeLabelOfUnknown | custom_components/meteoalarm_map/rss_feed_reader.py:132 | a code outside 1..12 is labelled type_<code> |
| Markup.KnownLabelsNotPrefixed | custom_components/meteoalarm_map/rss_feed_reader.py:118-131 | no label of a known code starts with "type_" |
| Markup.TypeLabelInjective | custom_components/meteoalarm_map/rss_feed_reader.py:118-132 | different codes get different labels |
| Markup.Labels | custom_components/meteoalarm_map/rss_feed_reader.py:132 | one label per code, in order, each the code's `type_map` entry or `type_<code>` |
| Markup.ParseTypesSpec | custom_components/meteoalarm_map/rss_feed_reader.py:111-136 | without type attributes the types are ['unknown']; otherwise there is one label per distinct code, each once |
| Markup.ParseTypes | custom_components/meteoalarm_map/rss_feed_reader.py:111-136 | the type labels of a description, in first-seen order; `ParseTypesSpec` and `ParseTypesMembers` state what they are |
| Markup.ParseTypesMembers | custom_components/meteoalarm_map/rss_feed_reader.py:115-132 | with type attributes, a label is listed exactly when some attribute carries its code |
| Markup.UtcSuffixed | custom_components/meteoalarm_map/rss_feed_reader.py:149-150 | after the replacement no 'Z' is left, and a text without 'Z' is unchanged; `UtcSuffixedSplit` states what each 'Z' becomes |
| Markup.UtcSuffixedSplit | custom_components/meteoalarm_map/rss_feed_reader.py:149-150 | each 'Z' becomes "+00:00": the text before the first 'Z' is kept, and the rest is replaced in turn |
| Markup.PeriodOf | custom_components/meteoalarm_map/rss_feed_reader.py:147-156 | a match gives a period exactly when both texts parse; the period holds both instants and both original texts |
| Markup.ParsePeriods | custom_components/meteoalarm_map/rss_feed_reader.py:138-164 | the loop returns, in order, the periods of the matches whose texts parse |
| Markup.PeriodsSound | custom_components/meteoalarm_map/rss_feed_reader.py:147-159 | every period comes from a match whose two texts parse to its instants |
| Markup.PeriodsComplete | custom_components/meteoalarm_map/rss_feed_reader.py:147-159 | every match whose texts parse contributes its period |
| Markup.PeriodsOf | custom_components/meteoalarm_map/rss_feed_reader.py:146-161 | the periods of the matches whose two texts both parse, in match order; `PeriodsSound` and `PeriodsComplete` state which they are |
| Dates.DateLeTotal | custom_components/meteoalarm_map/rss_feed_reader.py:242 | the date order is total and antisymmetric |
| Dates.InWindowByDay | custom_components/meteoalarm_map/rss_feed_reader.py:242 | only the calendar day decides whether an event is in the window; a window that ends before it starts is empty |
| Dates.InWindow | custom_components/meteoalarm_map/rss_feed_reader.py:242 | the window test `start.date() <= t.date() <= end.date()`; `InWindowByDay` states that only the day counts |
| Dates.FirstParsed | custom_components/meteoalarm_map/rss_feed_reader.py:222-232 | the index found is that of the first format that parses, and none is found exactly when no format parses |
| Dates.EventTimeFallback | custom_components/meteoalarm_map/rss_feed_reader.py:219-239 | an empty date, or one that no format parses, gives the current time |
| Dates.EventTime | custom_components/meteoalarm_map/rss_feed_reader.py:219-239 | the event time of a publication date: the first of the four formats that parses it, otherwise the current time; `EventTimeFallback` and `EventTimeFirstWins` state both cases |
| Dates.EventTimeFirstWins | custom_components/meteoalarm_map/rss_feed_reader.py:222-230 | the first format that parses gives the event time, whatever later formats would give |
| Dates.ResolveEventTime | custom_components/meteoalarm_map/rss_feed_reader.py:219-239 | the `for ... else` loop computes the event time |
| Dates.DateIso | custom_components/meteoalarm_map/sensor.py:45 | `str(date)`, the YYYY-MM-DD text of a day; `DateIsoFields` states that its fields can be read back |
| Dates.DateIsoFields | custom_components/meteoalarm_map/sensor.py:45 | the year, month and day can be read back from a date's ISO text |
| Dates.DateIsoInjective | custom_components/meteoalarm_map/sensor.py:45 | different printable dates have different ISO texts; `Sensor.VacationPeriodInjective` rests on it |
| Dates.IsoFormat | custom_components/meteoalarm_map/sensor.py:46 | a datetime's ISO text starts with its date's ISO text and "T" |
| Grouping.OfCountrySpec | custom_components/meteoalarm_map/rss_feed_reader.py:263-289 | a country's alerts are exactly the alerts of that country; there are none exactly when no alert is of that country |
| Grouping.LeaderIndexSpec | custom_components/meteoalarm_map/rss_feed_reader.py:283-289 | the chosen alert ranks highest, and every alert before it ranks strictly lower |
| Grouping.TypeUnionMembers | custom_components/meteoalarm_map/rss_feed_reader.py:269-280 | the union holds exactly the types of the alerts |
| Grouping.TypeUnionPrefix | custom_components/meteoalarm_map/rss_feed_reader.py:269 | the union starts with the first alert's types |
| Grouping.TypeUnionDistinct | custom_components/meteoalarm_map/rss_feed_reader.py:277-280 | the union has no repeats when no alert repeats a type |
| Grouping.SummaryOfOne | custom_components/meteoalarm_map/rss_feed_reader.py:264-272 | a country's first entry is the summary of its only alert |
| Grouping.SummarySnoc | custom_components/meteoalarm_map/rss_feed_reader.py:273-289 | extending an entry with one alert gives the summary of the longer list: strict > keeps the earlier leader on ties |
| Grouping.AggregateEntries | custom_components/meteoalarm_map/rss_feed_reader.py:263-289 | a country has an entry exactly when some retained alert is of it, and the entry is the summary of its alerts |
| Grouping.AggregateOrder | custom_components/meteoalarm_map/rss_feed_reader.py:264-265 | the countries appear in the order of their first alert, each once, and they are exactly the keys |
| Grouping.FirstEntry | custom_components/meteoalarm_map/rss_feed_reader.py:264-272 | the entry a country gets from its first alert; `SummaryOfOne` states that it is the summary of that one alert |
| Grouping.Extend | custom_components/meteoalarm_map/rss_feed_reader.py:273-289 | the entry after one more alert of the country; `SummarySnoc` states that it is the summary of the longer list |
| Grouping.Add | custom_components/meteoalarm_map/rss_feed_reader.py:263-289 | one alert added to the aggregate; `AddTotal` states that it keeps every country covered and adds one to the total count |
| Grouping.Aggregate | custom_components/meteoalarm_map/rss_feed_reader.py:263-289 | the aggregate of the retained alerts in feed order; `AggregateEntries`, `AggregateOrder`, `AggregateTotal` and `AggregateConsistent` state its keys, order, counts and entries |
| Grouping.AggregateTotal | custom_components/meteoalarm_map/rss_feed_reader.py:299-300 | the counts add up to the number of retained alerts |
| Grouping.AddTotal | custom_components/meteoalarm_map/rss_feed_reader.py:264-275 | grouping one more alert adds one to the total count |
| Grouping.AggregateConsistent | custom_components/meteoalarm_map/rss_feed_reader.py:263-289 | the aggregate lists each key once; every entry's count is its list length, the list is non-empty, and the rank matches the level |
| Grouping.ConsistentSize | custom_components/meteoalarm_map/rss_feed_reader.py:299 | a consistent aggregate has as many keys as listed countries |
| Grouping.EntryOfCountry | custom_components/meteoalarm_map/rss_feed_reader.py:263-289 | each entry in terms of its own alerts: level and latest_date of the first alert of highest rank, nothing ranks higher, its types are the union of its alerts' types, with no repeats |
| Reader.Truncate | custom_components/meteoalarm_map/rss_feed_reader.py:254 | a description of at most 500 characters is kept; a longer one becomes its first 500 characters and "..." |
| Reader.NormalizedCountries | custom_components/meteoalarm_map/rss_feed_reader.py:182 | each monitored country is normalised, in order |
| Reader.RetainedAlertsLast | custom_components/meteoalarm_map/rss_feed_reader.py:195-261 | one more item adds its alert at the end exactly when it is retained |
| Reader.RetainedAlerts | custom_components/meteoalarm_map/rss_feed_reader.py:195-261 | the alerts of the kept items, in feed order; `RetainedAlertsLast`, `RetainedAlertsSound` and `RetainedAlertsComplete` state which alerts they are |
| Reader.RetainedAlertsSound | custom_components/meteoalarm_map/rss_feed_reader.py:202-261 | every alert is the alert of a retained item |
| Reader.Retained | custom_components/meteoalarm_map/rss_feed_reader.py:202-242 | an item is kept when it has a title and a description, the country read from its title is non-empty and monitored, and its event time falls in the window; `RetainedAlertsSound` and `RetainedAlertsComplete` tie it to the alert list |
| Reader.MakeAlert | custom_components/meteoalarm_map/rss_feed_reader.py:207-261 | the alert dictionary of a kept item; `MadeAlertGood` states its country, event time, description length and types |
| Reader.RetainedAlertsComplete | custom_components/meteoalarm_map/rss_feed_reader.py:202-261 | every retained item gives its alert |
| Reader.MadeAlertGood | custom_components/meteoalarm_map/rss_feed_reader.py:214-261 | a retained item's alert has a non-empty, monitored country that is the one read from its title, an event time in the window, a description of at most 503 characters, and non-empty types without repeats |
| Reader.RetainedAlertsGood | custom_components/meteoalarm_map/rss_feed_reader.py:214-261 | every alert satisfies those facts |
| Reader.RetainedTypesDistinct | custom_components/meteoalarm_map/rss_feed_reader.py:245 | no alert repeats a type |
| Reader.MergeTypes | custom_components/meteoalarm_map/rss_feed_reader.py:277-280 | the loop appends each type not yet present, in order |
| Reader.AggregateSnoc | custom_components/meteoalarm_map/rss_feed_reader.py:263-289 | grouping one more alert is one more update |
| Reader.AddAlert | custom_components/meteoalarm_map/rss_feed_reader.py:263-289 | the in-place update of `alerts_by_country` for one alert is the specification's update |
| Reader.ProcessItem | custom_components/meteoalarm_map/rss_feed_reader.py:202-261 | an item yields an alert exactly when it is retained, and the alert is the item's alert dictionary |
| Reader.GroupItems | custom_components/meteoalarm_map/rss_feed_reader.py:195-293 | the item loop builds the aggregate of the retained alerts |
| Reader.FetchResult | custom_components/meteoalarm_map/rss_feed_reader.py:166-317 | the result of fetch_alerts is consistent |
| Reader.FetchResultSpec | custom_components/meteoalarm_map/rss_feed_reader.py:166-317 | a failure gives {}; on success the counts add up to the number of retained items; every key is a non-empty, monitored country |
| Reader.SensorRowsSpec | custom_components/meteoalarm_map/rss_feed_reader.py:336-348 | one sensor row per alert counted, each row of a listed country |
| Reader.RowOf | custom_components/meteoalarm_map/rss_feed_reader.py:339-347 | one sensor row: the country, and the alert's title, level, type text, description, publication date and link |
| Reader.SensorRows | custom_components/meteoalarm_map/rss_feed_reader.py:337-348 | the rows of the listed countries, country by country, each country's alerts in order; `SensorRowsSpec` states their number and countries |
| Reader.TypeText | custom_components/meteoalarm_map/rss_feed_reader.py:343 | the type column of a sensor row: "unknown" without types, otherwise the types joined by ", "; `TypeTextSpec` states both |
| Reader.TypeTextSpec | custom_components/meteoalarm_map/rss_feed_reader.py:343 | no types give "unknown", one type gives itself, and each further type is appended after ", " (so the text starts with the first type and ends with the last) |
| Reader.SensorFormatSpec | custom_components/meteoalarm_map/rss_feed_reader.py:350-355 | total_count is the number of rows and the sum of the counts; countries_affected is the number of countries; every row's country has an entry |
| Reader.SensorFormat | custom_components/meteoalarm_map/rss_feed_reader.py:336-355 | the sensor format of an aggregate: its rows, `total_count`, `countries_affected` and the aggregate itself; `SensorFormatSpec` states the totals |
| Reader.BuildSensorData | custom_components/meteoalarm_map/rss_feed_reader.py:336-355 | the nested loops build the sensor format |
| Reader.Titles | custom_components/meteoalarm_map/rss_feed_reader.py:368 | one title per alert, in order |
| Reader.CameraFormatSpec | custom_components/meteoalarm_map/rss_feed_reader.py:362-372 | the camera format has the aggregate's countries in its order, and each country has as many titles as its count |
| Reader.CameraEntryOf | custom_components/meteoalarm_map/rss_feed_reader.py:364-370 | one country of the camera format: level, count, types, the alerts' titles and `latest_date` |
| Reader.CameraFormat | custom_components/meteoalarm_map/rss_feed_reader.py:362-372 | the camera format of an aggregate, country by country; `CameraFormatSpec` states its countries, order and titles |
| Reader.BuildCameraView | custom_components/meteoalarm_map/rss_feed_reader.py:362-372 | the loop builds the camera format |
| Reader.RssReader.constructor | custom_components/meteoalarm_map/rss_feed_reader.py:12-15 | a new reader has no cached data and no last update |
| Reader.RssReader.FetchAlerts | custom_components/meteoalarm_map/rss_feed_reader.py:166-317 | the result is the aggregate; on success it is cached with the fetch time; on failure the result is {} and neither field changes |
| Reader.RssReader.GetAlertsForSensor | custom_components/meteoalarm_map/rss_feed_reader.py:331-355 | the sensor format of the fetched aggregate, with the fetch's effect on the cache |
| Reader.RssReader.GetAlertsForCamera | custom_components/meteoalarm_map/rss_feed_reader.py:357-372 | the camera format of the fetched aggregate, with the fetch's effect on the cache |
| Sensor.LowerAll | custom_components/meteoalarm_map/sensor.py:32 | every configured country lower-cased, in order |
| Sensor.ConfigDate | custom_components/meteoalarm_map/sensor.py:33-34 | one vacation date: `strptime` with the day format, or the TypeError of a missing date; `MeteoalarmSensor.Update` states what either outcome gives |
| Sensor.VacationPeriod | custom_components/meteoalarm_map/sensor.py:45 | the text "<start day> to <end day>"; `VacationPeriodInjective` states that it names both days |
| Sensor.VacationPeriodInjective | custom_components/meteoalarm_map/sensor.py:45 | two periods of printable dates that read alike have the same start day and the same end day |
| Sensor.FetchText | custom_components/meteoalarm_map/sensor.py:48 | `rss_last_fetch`: the ISO text of the reader's last update, or None before the first successful fetch |
| Sensor.LowerThenNormalize | custom_components/meteoalarm_map/sensor.py:32 | lower-casing the configured countries does not change which countries the reader monitors |
| Sensor.Bucket | custom_components/meteoalarm_map/sensor.py:55-58 | a level is counted under its own key when it is one of the five, and under 'unknown' otherwise |
| Sensor.LevelTotalIsCount | custom_components/meteoalarm_map/sensor.py:52-58 | the five buckets add up to the number of rows |
| Sensor.CountOutsideKeys | custom_components/meteoalarm_map/sensor.py:52-58 | nothing is counted outside the five keys |
| Sensor.Histogram | custom_components/meteoalarm_map/sensor.py:52-58 | the histogram has exactly the five keys, each holding its bucket count |
| Sensor.HistogramStep | custom_components/meteoalarm_map/sensor.py:53-58 | one more row adds one to its own bucket only |
| Sensor.LevelSummary | custom_components/meteoalarm_map/sensor.py:52-58 | the loop builds the histogram of the rows |
| Sensor.IconThresholds | custom_components/meteoalarm_map/sensor.py:102-112 | sunny exactly at state 0, rainy exactly above 5, lightning otherwise and before the first update |
| Sensor.IconFor | custom_components/meteoalarm_map/sensor.py:102-112 | the icon is one of the sunny, lightning and lightning-rainy icons; `IconThresholds` states which one for each state |
| Sensor.MeteoalarmSensor.Icon | custom_components/meteoalarm_map/sensor.py:102-112 | the icon property of the sensor's current state, one of the three icons (`IconFor`, `IconThresholds`) |
| Sensor.SensorCounts | custom_components/meteoalarm_map/sensor.py:37-60 | the state equals the histogram's total, and is the number of retained items when the feed was read, 0 otherwise |
| Sensor.MeteoalarmSensor.constructor | custom_components/meteoalarm_map/sensor.py:21-26 | a new sensor has no state and no attributes |
| Sensor.MeteoalarmSensor.Update | custom_components/meteoalarm_map/sensor.py:28-78 | a missing or malformed vacation date gives state 0 and only the error and its time, and does not call the reader; otherwise the state is the alert count, and the attributes are computed from the fetch and the histogram |

## Left out

- The HTTP request, the XML parse and `.//item` discovery are left out: the feed arrives as parsed items or as the failure that made them raise.
- Logging is left out, as are the counters used only for logging: `total_items_processed` (lines 192 and 205), and `total_countries_with_alerts` and `total_alerts` (lines 299-300).
- Home Assistant plumbing is left out: `async_setup_entry`, the entity properties other than `icon`, `camera.py`, `config_flow.py` and `__init__.py`. These are not part of this model.
- The clock is a parameter. One fetch or update reads one `now`; the source calls `datetime.now()` several times.
- `datetime.strptime` and `datetime.fromisoformat` are parameters. Their exceptions are modelled as a missing value or a failure with its message. Time zones and the `%y` century rule belong to the parser.
- `str.lower()` is modelled for the ASCII and Latin-1 letters only. `\d` is modelled as the ASCII digits.
- `set(type_matches)` has a hash order in Python. The model takes first-seen order: `ParseTypesSpec` states distinctness and membership, not order.
- Element text that is None: a present `title` or `description` with no text reads as "", as in the source. A missing `pubDate`, `link` or `guid` reads as "". A present `pubDate`, `link` or `guid` element with no text is also flattened to "", whereas the source stores None in the alert (for `pubDate` it takes the same "use the current time" branch; the None link is also what the sensor row carries).
- The per-item `except Exception` (lines 291-293) is left out: nothing the model evaluates for an item can raise.
- A `countries` key missing from the configuration is modelled as an empty list, as `.get("countries", [])` gives.
- The `cached_data` and `last_update` properties are the fields `RssReader.cachedData` and `RssReader.lastUpdate` themselves.
- `rss_url`, `country_mappings` as a field, and the `name`, `unique_id` and `unit_of_measurement` properties are constants of the source that the model does not need.
- Countries.ExtractCountry: it normalises with the corrected synonym table (see Findings), so the title "Meteoalarm España" gives "spain", where the table as written gives "españa".
- Reader.NormalizedCountries: also on the corrected table, so a monitored "España" becomes "spain", where the source gives "españa". `Countries.AsWrittenAgrees` states that this name is the only difference.
- Reader.Retained: through the two lines above, an item titled "Meteoalarm España" is kept when "Spain" is monitored, which the source drops (`Countries.SpanishTitle`).
- Reader.FetchResult: the same item appears under the key "spain", where the source has no alert for it.
- Sensor.MeteoalarmSensor.Update: the state and attributes count that item, where the source does not.
- Dates.IsoFormat: the ensures states only that the text starts with the date part and "T". The layout of the time and offset part is given only by the function's body.

## Findings

| source | as written | input that shows it | evidently intended | confidence | as-written member | corrected member |
|---|---|---|---|---|---|---|
| custom_components/meteoalarm_map/rss_feed_reader.py:39 | the key for Spain's native name is 'espaÃ±a', the UTF-8 bytes of 'ñ' decoded again as Latin-1; 'Ã' is upper-case, so after `lower()` no name can equal this key | a feed title "Meteoalarm España", or a configured country "España": it normalises to "españa" and never matches "spain" | the key 'españa', so that the native name resolves to 'spain' | not executed | Countries.SpanishNameAsWritten, Countries.MisencodedKeyUnreachable | Countries.SpanishNameCorrected |

The rest of the model uses the corrected table (`CountryTable.Lookup`). `Countries.AsWrittenAgrees` shows that the two tables differ only for this name.
