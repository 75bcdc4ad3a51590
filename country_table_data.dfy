/** The entries of the reader's static synonym table (rss_feed_reader.py:18-67), and
    facts about them checked one part and one property at a time. */
module CountryTableData {
  import opened Text

  /* The table is a Python dict with distinct keys. It is kept here in six parts of
     eight or seven entries in source order. The Spanish entry (line 39) is kept apart, because
     the source spells its key wrongly (see MisencodedSpain below). */

  /** Lines 19-26. */
  const MappingsPart0: map<string, string> := map[
    "gb" := "united kingdom",
    "uk" := "united kingdom",
    "great britain" := "united kingdom",
    "england" := "united kingdom",
    "scotland" := "united kingdom",
    "wales" := "united kingdom",
    "northern ireland" := "united kingdom",
    "cz" := "czech republic"
  ]

  /** Lines 27-34. */
  const MappingsPart1: map<string, string> := map[
    "czechia" := "czech republic",
    "bosnia" := "bosnia and herzegovina",
    "north macedonia" := "macedonia",
    "macedonia (the former yugoslav republic of)" := "macedonia",
    "the netherlands" := "netherlands",
    "holland" := "netherlands",
    "de" := "germany",
    "deutschland" := "germany"
  ]

  /** Lines 35-43, without the Spanish entry at 39. */
  const MappingsPart2: map<string, string> := map[
    "fr" := "france",
    "it" := "italy",
    "italia" := "italy",
    "es" := "spain",
    "pt" := "portugal",
    "nl" := "netherlands",
    "be" := "belgium",
    "ch" := "switzerland"
  ]

  /** Lines 44-51. */
  const MappingsPart3: map<string, string> := map[
    "at" := "austria",
    "pl" := "poland",
    "no" := "norway",
    "se" := "sweden",
    "fi" := "finland",
    "dk" := "denmark",
    "ie" := "ireland",
    "gr" := "greece"
  ]

  /** Lines 52-59. */
  const MappingsPart4: map<string, string> := map[
    "bg" := "bulgaria",
    "ro" := "romania",
    "hu" := "hungary",
    "hr" := "croatia",
    "si" := "slovenia",
    "sk" := "slovakia",
    "ee" := "estonia",
    "lv" := "latvia"
  ]

  /** Lines 60-66. */
  const MappingsPart5: map<string, string> := map[
    "lt" := "lithuania",
    "ua" := "ukraine",
    "rs" := "serbia",
    "ba" := "bosnia and herzegovina",
    "mk" := "macedonia",
    "il" := "israel",
    "cy" := "cyprus"
  ]

  /** The Spanish key as the source file spells it: the UTF-8 bytes of "\U{F1}" decoded
      once more as Latin-1, giving the two characters U+00C3 U+00B1. */
  const MisencodedSpain: string := "espa\U{C3}\U{B1}a"

  /** The Spanish key that was evidently meant. */
  const Spain: string := "espa\U{F1}a"

  /** The names the table maps to, in small groups. */
  const CanonicalNames0: set<string> := {"united kingdom", "czech republic", "macedonia"}
  const CanonicalNames1: set<string> := {"netherlands", "germany", "france", "italy"}
  const CanonicalNames2: set<string> := {"spain", "portugal", "belgium", "switzerland"}
  const CanonicalNames3: set<string> := {"austria", "poland", "norway", "sweden"}
  const CanonicalNames4: set<string> := {"finland", "denmark", "ireland", "greece"}
  const CanonicalNames5: set<string> := {"bulgaria", "romania", "hungary", "croatia"}
  const CanonicalNames6: set<string> := {"slovenia", "slovakia", "estonia", "latvia"}
  const CanonicalNames7: set<string> := {"lithuania", "ukraine", "serbia", "israel"}
  const CanonicalNames8: set<string> := {"cyprus", "bosnia and herzegovina"}

  const CanonicalNamesA: set<string> := CanonicalNames0 + CanonicalNames1 + CanonicalNames2
  const CanonicalNamesB: set<string> := CanonicalNames3 + CanonicalNames4 + CanonicalNames5
  const CanonicalNamesC: set<string> := CanonicalNames6 + CanonicalNames7 + CanonicalNames8
  const CanonicalNames: set<string> := CanonicalNamesA + CanonicalNamesB + CanonicalNamesC

  ghost predicate CanonicalName(v: string) {
    v != "" && LowerCase(v) && Trimmed(v)
  }

  /* Comparisons between string literals are cheap one by one but not all at once,
     hence one lemma per group of entries and property. */

  lemma {:induction false} Names0Canonical()
    ensures forall v :: v in CanonicalNames0 ==> CanonicalName(v)
  {
  }

  lemma {:induction false} Names1Canonical()
    ensures forall v :: v in CanonicalNames1 ==> CanonicalName(v)
  {
  }

  lemma {:induction false} Names2Canonical()
    ensures forall v :: v in CanonicalNames2 ==> CanonicalName(v)
  {
  }

  lemma {:induction false} Names3Canonical()
    ensures forall v :: v in CanonicalNames3 ==> CanonicalName(v)
  {
  }

  lemma {:induction false} Names4Canonical()
    ensures forall v :: v in CanonicalNames4 ==> CanonicalName(v)
  {
  }

  lemma {:induction false} Names5Canonical()
    ensures forall v :: v in CanonicalNames5 ==> CanonicalName(v)
  {
  }

  lemma {:induction false} Names6Canonical()
    ensures forall v :: v in CanonicalNames6 ==> CanonicalName(v)
  {
  }

  lemma {:induction false} Names7Canonical()
    ensures forall v :: v in CanonicalNames7 ==> CanonicalName(v)
  {
  }

  lemma {:induction false} Names8Canonical()
    ensures forall v :: v in CanonicalNames8 ==> CanonicalName(v)
  {
  }

  lemma {:induction false} NamesANotSpanishKeys()
    ensures forall v :: v in CanonicalNamesA ==> v != Spain && v != MisencodedSpain
  {
  }

  lemma {:induction false} NamesBNotSpanishKeys()
    ensures forall v :: v in CanonicalNamesB ==> v != Spain && v != MisencodedSpain
  {
  }

  lemma {:induction false} NamesCNotSpanishKeys()
    ensures forall v :: v in CanonicalNamesC ==> v != Spain && v != MisencodedSpain
  {
  }

  lemma {:induction false} Part0Named()
    ensures forall k :: k in MappingsPart0 ==> MappingsPart0[k] in CanonicalNames
  {
  }

  lemma {:induction false} NamesANotInPart0()
    ensures forall v :: v in CanonicalNamesA ==> v !in MappingsPart0
  {
  }

  lemma {:induction false} NamesBNotInPart0()
    ensures forall v :: v in CanonicalNamesB ==> v !in MappingsPart0
  {
  }

  lemma {:induction false} NamesCNotInPart0()
    ensures forall v :: v in CanonicalNamesC ==> v !in MappingsPart0
  {
  }

  lemma {:induction false} Part1Named()
    ensures forall k :: k in MappingsPart1 ==> MappingsPart1[k] in CanonicalNames
  {
  }

  lemma {:induction false} NamesANotInPart1()
    ensures forall v :: v in CanonicalNamesA ==> v !in MappingsPart1
  {
  }

  lemma {:induction false} NamesBNotInPart1()
    ensures forall v :: v in CanonicalNamesB ==> v !in MappingsPart1
  {
  }

  lemma {:induction false} NamesCNotInPart1()
    ensures forall v :: v in CanonicalNamesC ==> v !in MappingsPart1
  {
  }

  lemma {:induction false} Part2Named()
    ensures forall k :: k in MappingsPart2 ==> MappingsPart2[k] in CanonicalNames
  {
  }

  lemma {:induction false} NamesANotInPart2()
    ensures forall v :: v in CanonicalNamesA ==> v !in MappingsPart2
  {
  }

  lemma {:induction false} NamesBNotInPart2()
    ensures forall v :: v in CanonicalNamesB ==> v !in MappingsPart2
  {
  }

  lemma {:induction false} NamesCNotInPart2()
    ensures forall v :: v in CanonicalNamesC ==> v !in MappingsPart2
  {
  }

  lemma {:induction false} Part3Named()
    ensures forall k :: k in MappingsPart3 ==> MappingsPart3[k] in CanonicalNames
  {
  }

  lemma {:induction false} NamesANotInPart3()
    ensures forall v :: v in CanonicalNamesA ==> v !in MappingsPart3
  {
  }

  lemma {:induction false} NamesBNotInPart3()
    ensures forall v :: v in CanonicalNamesB ==> v !in MappingsPart3
  {
  }

  lemma {:induction false} NamesCNotInPart3()
    ensures forall v :: v in CanonicalNamesC ==> v !in MappingsPart3
  {
  }

  lemma {:induction false} Part4Named()
    ensures forall k :: k in MappingsPart4 ==> MappingsPart4[k] in CanonicalNames
  {
  }

  lemma {:induction false} NamesANotInPart4()
    ensures forall v :: v in CanonicalNamesA ==> v !in MappingsPart4
  {
  }

  lemma {:induction false} NamesBNotInPart4()
    ensures forall v :: v in CanonicalNamesB ==> v !in MappingsPart4
  {
  }

  lemma {:induction false} NamesCNotInPart4()
    ensures forall v :: v in CanonicalNamesC ==> v !in MappingsPart4
  {
  }

  lemma {:induction false} Part5Named()
    ensures forall k :: k in MappingsPart5 ==> MappingsPart5[k] in CanonicalNames
  {
  }

  lemma {:induction false} NamesANotInPart5()
    ensures forall v :: v in CanonicalNamesA ==> v !in MappingsPart5
  {
  }

  lemma {:induction false} NamesBNotInPart5()
    ensures forall v :: v in CanonicalNamesB ==> v !in MappingsPart5
  {
  }

  lemma {:induction false} NamesCNotInPart5()
    ensures forall v :: v in CanonicalNamesC ==> v !in MappingsPart5
  {
  }


  /** Spain's native name is no key of the shared parts. */
  lemma {:induction false} SpainNotInParts()
    ensures Spain !in MappingsPart0 && Spain !in MappingsPart1 && Spain !in MappingsPart2
    ensures Spain !in MappingsPart3 && Spain !in MappingsPart4 && Spain !in MappingsPart5
  {
  }
}
