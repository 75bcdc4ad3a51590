/** The reader's synonym table as a lookup, and the facts about it that country
    normalisation relies on. */
module CountryTable {
  import opened Text
  import opened Wrappers
  import opened CountryTableData

  /* Looking the key up part by part is the dict's `get`, as no key occurs in two parts. */

  /** Lookup in all entries but the Spanish one. */
  function SharedLookup(key: string): Option<string> {
    if key in MappingsPart0 then Some(MappingsPart0[key])
    else if key in MappingsPart1 then Some(MappingsPart1[key])
    else if key in MappingsPart2 then Some(MappingsPart2[key])
    else if key in MappingsPart3 then Some(MappingsPart3[key])
    else if key in MappingsPart4 then Some(MappingsPart4[key])
    else if key in MappingsPart5 then Some(MappingsPart5[key])
    else None
  }

  /** `country_mappings.get(key)` for the table exactly as written. */
  function LookupAsWritten(key: string): Option<string> {
    if key == MisencodedSpain then Some("spain") else SharedLookup(key)
  }

  /** `country_mappings.get(key)` with the Spanish key spelled as intended; the rest of
      the model uses this one. */
  function Lookup(key: string): Option<string> {
    if key == Spain then Some("spain") else SharedLookup(key)
  }

  /** Every value is a non-empty, lower-case, stripped name that is not itself a key,
      and the empty string is not a key. */
  ghost predicate CanonicalTable(lookup: string -> Option<string>) {
    lookup("").None? &&
    forall k :: lookup(k).Some? ==> CanonicalName(lookup(k).value) && lookup(lookup(k).value).None?
  }

  lemma {:induction false} NamesAFacts(v: string)
    requires v in CanonicalNamesA
    ensures CanonicalName(v) && SharedLookup(v).None? && v != Spain && v != MisencodedSpain
  {
    Names0Canonical();
    Names1Canonical();
    Names2Canonical();
    NamesANotSpanishKeys();
    NamesANotInPart0();
    NamesANotInPart1();
    NamesANotInPart2();
    NamesANotInPart3();
    NamesANotInPart4();
    NamesANotInPart5();
  }

  lemma {:induction false} NamesBFacts(v: string)
    requires v in CanonicalNamesB
    ensures CanonicalName(v) && SharedLookup(v).None? && v != Spain && v != MisencodedSpain
  {
    Names3Canonical();
    Names4Canonical();
    Names5Canonical();
    NamesBNotSpanishKeys();
    NamesBNotInPart0();
    NamesBNotInPart1();
    NamesBNotInPart2();
    NamesBNotInPart3();
    NamesBNotInPart4();
    NamesBNotInPart5();
  }

  lemma {:induction false} NamesCFacts(v: string)
    requires v in CanonicalNamesC
    ensures CanonicalName(v) && SharedLookup(v).None? && v != Spain && v != MisencodedSpain
  {
    Names6Canonical();
    Names7Canonical();
    Names8Canonical();
    NamesCNotSpanishKeys();
    NamesCNotInPart0();
    NamesCNotInPart1();
    NamesCNotInPart2();
    NamesCNotInPart3();
    NamesCNotInPart4();
    NamesCNotInPart5();
  }

  /** Every name the table maps to is canonical and is not itself a key. */
  lemma {:induction false} NameFacts(v: string)
    requires v in CanonicalNames
    ensures CanonicalName(v) && SharedLookup(v).None? && v != Spain && v != MisencodedSpain
  {
    if v in CanonicalNamesA {
      NamesAFacts(v);
    } else if v in CanonicalNamesB {
      NamesBFacts(v);
    } else {
      NamesCFacts(v);
    }
  }

  lemma {:induction false} SharedLookupFacts(key: string)
    ensures SharedLookup(key).Some? ==>
      var v := SharedLookup(key).value;
      CanonicalName(v) && SharedLookup(v).None? && v != Spain && v != MisencodedSpain
  {
    if key in MappingsPart0 {
      Part0Named();
      NameFacts(MappingsPart0[key]);
    } else if key in MappingsPart1 {
      Part1Named();
      NameFacts(MappingsPart1[key]);
    } else if key in MappingsPart2 {
      Part2Named();
      NameFacts(MappingsPart2[key]);
    } else if key in MappingsPart3 {
      Part3Named();
      NameFacts(MappingsPart3[key]);
    } else if key in MappingsPart4 {
      Part4Named();
      NameFacts(MappingsPart4[key]);
    } else if key in MappingsPart5 {
      Part5Named();
      NameFacts(MappingsPart5[key]);
    }
  }

  lemma {:induction false} EmptyNotAKey()
    ensures SharedLookup("").None?
  {
  }

  lemma {:induction false} SpainCanonical()
    ensures CanonicalName("spain") && SharedLookup("spain").None? && "spain" != Spain && "spain" != MisencodedSpain
  {
    assert "spain" in CanonicalNames2;
    NamesAFacts("spain");
  }

  /** The country code "es" is one of the table's keys for Spain. */
  lemma {:induction false} SpanishCodeLookup()
    ensures Lookup("es") == Some("spain")
  {
    assert "es" !in MappingsPart0;
    assert "es" !in MappingsPart1;
    assert MappingsPart2["es"] == "spain";
  }

  lemma {:induction false} LookupFacts(key: string)
    ensures Lookup(key).Some? ==> CanonicalName(Lookup(key).value) && Lookup(Lookup(key).value).None?
  {
    if key == Spain {
      SpainCanonical();
    } else {
      SharedLookupFacts(key);
    }
  }

  lemma {:induction false} LookupAsWrittenFacts(key: string)
    ensures LookupAsWritten(key).Some? ==>
      CanonicalName(LookupAsWritten(key).value) && LookupAsWritten(LookupAsWritten(key).value).None?
  {
    if key == MisencodedSpain {
      SpainCanonical();
    } else {
      SharedLookupFacts(key);
    }
  }

  lemma {:induction false} CorrectedTableCanonical()
    ensures CanonicalTable(Lookup)
  {
    forall k ensures Lookup(k).Some? ==> CanonicalName(Lookup(k).value) && Lookup(Lookup(k).value).None? {
      LookupFacts(k);
    }
    EmptyNotAKey();
  }

  lemma {:induction false} AsWrittenTableCanonical()
    ensures CanonicalTable(LookupAsWritten)
  {
    forall k ensures LookupAsWritten(k).Some? ==>
      CanonicalName(LookupAsWritten(k).value) && LookupAsWritten(LookupAsWritten(k).value).None?
    {
      LookupAsWrittenFacts(k);
    }
    EmptyNotAKey();
  }
}
