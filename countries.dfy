/** Country resolution: from a feed title or a configured name to a canonical,
    lower-case country key (rss_feed_reader.py, _normalize_country_name and
    _extract_country_from_title). */
module Countries {
  import opened Text
  import opened Wrappers
  import opened CountryTableData
  import opened CountryTable

  /** `_normalize_country_name` over a given synonym table: the empty name stays empty,
      anything else is lower-cased and stripped and then replaced by its table entry
      when it has one. */
  function NormalizeWith(lookup: string -> Option<string>, country: string): string {
    if country == "" then ""
    else
      var key := Strip(Lower(country));
      lookup(key).GetOr(key)
  }

  /** Normalisation with the intended synonym table. */
  function Normalize(country: string): string {
    NormalizeWith(Lookup, country)
  }

  /** Normalisation with the synonym table exactly as written. */
  function NormalizeAsWritten(country: string): string {
    NormalizeWith(LookupAsWritten, country)
  }

  const TitlePrefix: string := "meteoalarm "

  /** `_extract_country_from_title`: strip and lower-case the title, drop the
      "meteoalarm " prefix when present, then normalise. The result is already
      normalised. */
  function ExtractCountry(title: string): (r: string)
    ensures Normalize(r) == r
  {
    var t := Lower(Strip(title));
    var country := if TitlePrefix <= t then Strip(t[|TitlePrefix|..]) else t;
    NormalizeIdempotent(country);
    Normalize(country)
  }

  lemma {:induction false} NormalizeCanonical(lookup: string -> Option<string>, v: string)
    requires CanonicalName(v) && lookup(v).None?
    ensures NormalizeWith(lookup, v) == v
  {
    LowerIdempotent(v);
    StripOfTrimmed(v);
  }

  /** Normalising twice is normalising once, for any table whose values are canonical
      names that are not keys. */
  lemma {:induction false} NormalizeWithIdempotent(lookup: string -> Option<string>, country: string)
    requires CanonicalTable(lookup)
    ensures NormalizeWith(lookup, NormalizeWith(lookup, country)) == NormalizeWith(lookup, country)
  {
    if country != "" {
      var key := Strip(Lower(country));
      var found := lookup(key);
      if found.Some? {
        assert CanonicalName(found.value) && lookup(found.value).None?;
        NormalizeCanonical(lookup, found.value);
      } else if key != "" {
        LowerStripCanonical(country);
        assert NormalizeWith(lookup, key) == lookup(key).GetOr(key);
      }
    }
  }

  lemma {:induction false} NormalizeIdempotent(country: string)
    ensures Normalize(Normalize(country)) == Normalize(country)
  {
    CorrectedTableCanonical();
    NormalizeWithIdempotent(Lookup, country);
  }

  /** Normalisation depends only on the lower-cased, stripped name. */
  lemma {:induction false} NormalizeKey(country: string)
    ensures Normalize(Strip(Lower(country))) == Normalize(country)
  {
    CorrectedTableCanonical();
    var key := Strip(Lower(country));
    if country != "" && key != "" {
      LowerStripCanonical(country);
    }
  }

  /** Lower-casing a name before normalising it changes nothing. */
  lemma {:induction false} NormalizeLowered(country: string)
    ensures Normalize(Lower(country)) == Normalize(country)
  {
    if country != "" {
      LowerIdempotent(Lower(country));
    }
  }

  /** A name normalises to the empty string exactly when it is all white space. */
  lemma {:induction false} NormalizeEmpty(country: string)
    ensures Normalize(country) == "" <==> AllSpace(country)
  {
    CorrectedTableCanonical();
    if country != "" {
      var key := Strip(Lower(country));
      LowerAllSpace(country);
      StripTrimmed(Lower(country));
    }
  }

  /** A title without the prefix is normalised as a whole. */
  lemma {:induction false} ExtractUnprefixed(title: string)
    requires !(TitlePrefix <= Lower(Strip(title)))
    ensures ExtractCountry(title) == Normalize(title)
  {
    LowerStrip(title);
    NormalizeKey(title);
  }

  lemma {:induction false} StripPrefixed(prefix: string, name: string)
    requires prefix != [] && !IsSpace(prefix[0])
    requires !AllSpace(name)
    ensures Strip(prefix + name) == prefix + StripRight(name)
  {
    StripLeftOf([], prefix + name);
    assert [] + (prefix + name) == prefix + name;
    StripRightAfter(prefix, name);
  }

  lemma {:induction false} StripLowerTrailing(name: string)
    ensures Strip(Lower(name)) == Strip(Lower(StripRight(name)))
  {
    var body := StripRight(name);
    var w := name[|body|..];
    assert body + w == name;
    LowerAppend(body, w);
    LowerAllSpace(w);
    StripAppendSpace(Lower(body), Lower(w));
  }

  /** "MeteoAlarm <name>" (in any letter case) resolves to the normalised name, whatever
      white space follows the name. */
  lemma {:induction false} ExtractPrefixed(prefix: string, name: string)
    requires Lower(prefix) == TitlePrefix
    requires !AllSpace(name)
    ensures ExtractCountry(prefix + name) == Normalize(name)
  {
    assert LowerChar(prefix[0]) == 'm';
    LowerCharSpace(prefix[0]);
    StripPrefixed(prefix, name);
    var body := StripRight(name);
    LowerAppend(prefix, body);
    var t := Lower(Strip(prefix + name));
    assert t == TitlePrefix + Lower(body);
    assert t[|TitlePrefix|..] == Lower(body);
    StripLowerTrailing(name);
    NormalizeKey(name);
    NormalizeKey(body);
  }

  /** White space in front of a title changes nothing. */
  lemma {:induction false} ExtractLeadingSpace(w: string, title: string)
    requires AllSpace(w)
    ensures ExtractCountry(w + title) == ExtractCountry(title)
  {
    StripLeftSpace(w, title);
  }

  /** The table as written keys Spain's native name by its mis-encoded spelling, whose
      capital A with tilde lower-casing always removes: no name ever reaches that entry. */
  lemma {:induction false} MisencodedKeyUnreachable(country: string)
    ensures Strip(Lower(country)) != MisencodedSpain
  {
    var key := Strip(Lower(country));
    LowerStripCanonical(country);
    assert LowerCase(key);
    MisencodedNotLowerCase();
  }

  /** The table's Spanish key holds a capital letter, U+00C3. */
  lemma {:induction false} MisencodedNotLowerCase()
    ensures !LowerCase(MisencodedSpain)
  {
    assert IsUpper(MisencodedSpain[4]);
  }

  /** Apart from Spain's native name, the table as written and the intended one agree. */
  lemma {:induction false} AsWrittenAgrees(country: string)
    requires Strip(Lower(country)) != Spain
    ensures NormalizeAsWritten(country) == Normalize(country)
  {
    MisencodedKeyUnreachable(country);
  }

  /** "España" as written is left as "españa", which never matches a configured "Spain"
      or "ES"; the intended table resolves it to "spain". */
  lemma {:induction false} SpanishNameAsWritten()
    ensures NormalizeAsWritten("Espa\U{F1}a") == "espa\U{F1}a"
  {
    assert Lower("Espa\U{F1}a") == Spain;
    StripOfTrimmed(Spain);
    SpainNotInParts();
  }

  lemma {:induction false} SpanishNameCorrected()
    ensures Normalize("Espa\U{F1}a") == "spain"
  {
    assert Lower("Espa\U{F1}a") == Spain;
    StripOfTrimmed(Spain);
  }

  /** The feed title "Meteoalarm España" is read as "spain" by the model, where the table
      as written leaves the name "españa". */
  lemma {:induction false} SpanishTitle()
    ensures ExtractCountry("Meteoalarm " + "Espa\U{F1}a") == "spain"
    ensures NormalizeAsWritten("Espa\U{F1}a") == "espa\U{F1}a"
  {
    PrefixLower();
    NameNotSpace();
    ExtractPrefixed("Meteoalarm ", "Espa\U{F1}a");
    SpanishNameCorrected();
    SpanishNameAsWritten();
  }

  lemma {:induction false} PrefixLower()
    ensures Lower("Meteoalarm ") == TitlePrefix
  {
    assert Lower("Meteoalarm ") == [LowerChar('M')] + Lower("eteoalarm ");
  }

  lemma {:induction false} NameNotSpace()
    ensures !AllSpace("Espa\U{F1}a")
  {
    assert !IsSpace("Espa\U{F1}a"[0]);
  }

  lemma {:induction false} SpanishEnglishName()
    ensures Normalize("Spain") == "spain"
  {
    assert Lower("Spain") == "spain";
    StripOfTrimmed("spain");
    SpainCanonical();
  }

  lemma {:induction false} SpanishCode()
    ensures Normalize("ES") == "spain"
  {
    SpanishCodeKey();
    SpanishCodeLookup();
  }

  lemma {:induction false} SpanishCodeKey()
    ensures Strip(Lower("ES")) == "es"
  {
    assert Lower("ES") == "es";
    StripOfTrimmed("es");
  }
}
