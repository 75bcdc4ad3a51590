/** The string operations the reader relies on: Python's str.strip, str.lower,
    str.startswith, str.replace and str.join, plus duplicate-free sequences. */
module Text {

  /** Python's str.isspace: the characters str.strip() removes. */
  predicate IsSpace(c: char) {
    ('\t' <= c <= '\r') || ('\U{1C}' <= c <= '\U{1F}') || c == ' ' || c == '\U{85}' || c == '\U{A0}'
    || c == '\U{1680}' || ('\U{2000}' <= c <= '\U{200A}') || c == '\U{2028}' || c == '\U{2029}'
    || c == '\U{202F}' || c == '\U{205F}' || c == '\U{3000}'
  }

  predicate IsUpper(c: char) {
    ('A' <= c <= 'Z') || ('\U{C0}' <= c <= '\U{DE}' && c != '\U{D7}')
  }

  /** Python's lower-casing of one character, for the Basic Latin and Latin-1 letters. */
  function LowerChar(c: char): (r: char)
    ensures IsUpper(c) ==> r as int == c as int + 32
    ensures !IsUpper(c) ==> r == c
    ensures !IsUpper(r)
  {
    if IsUpper(c) then (c as int + 32) as char else c
  }

  function Lower(s: string): (r: string)
    ensures |r| == |s|
    ensures forall i :: 0 <= i < |s| ==> r[i] == LowerChar(s[i])
  {
    seq(|s|, i requires 0 <= i < |s| => LowerChar(s[i]))
  }

  predicate AllSpace(s: string) {
    forall i :: 0 <= i < |s| ==> IsSpace(s[i])
  }

  /** str.lstrip(): drop leading white space. */
  function StripLeft(s: string): (r: string)
    ensures |r| <= |s| && r == s[|s| - |r|..]
    ensures AllSpace(s[..|s| - |r|])
    ensures r == [] || !IsSpace(r[0])
  {
    if |s| > 0 && IsSpace(s[0]) then
      var t := s[1..];
      var r := StripLeft(t);
      assert s[..|s| - |r|] == [s[0]] + t[..|t| - |r|];
      AllSpaceSplit([s[0]], t[..|t| - |r|]);
      r
    else s
  }

  /** str.rstrip(): drop trailing white space. */
  function StripRight(s: string): (r: string)
    ensures |r| <= |s| && r == s[..|r|]
    ensures AllSpace(s[|r|..])
    ensures r == [] || !IsSpace(r[|r| - 1])
  {
    if |s| > 0 && IsSpace(s[|s| - 1]) then
      var t := s[..|s| - 1];
      var r := StripRight(t);
      assert s[|r|..] == t[|r|..] + [s[|s| - 1]];
      AllSpaceSplit(t[|r|..], [s[|s| - 1]]);
      r
    else s
  }

  /** str.strip(). */
  function Strip(s: string): string {
    StripRight(StripLeft(s))
  }

  /** A string with no white space at either end: what Strip leaves. */
  predicate Trimmed(s: string) {
    s == [] || (!IsSpace(s[0]) && !IsSpace(s[|s| - 1]))
  }

  /** A string that lower-casing leaves as it is. */
  predicate LowerCase(s: string) {
    forall i :: 0 <= i < |s| ==> !IsUpper(s[i])
  }

  lemma {:induction false} StripTrimmed(s: string)
    ensures Trimmed(Strip(s))
    ensures Strip(s) == [] <==> (forall i :: 0 <= i < |s| ==> IsSpace(s[i]))
  {
    var l := StripLeft(s);
    var r := StripRight(l);
    if r != [] {
      assert r[0] == l[0];
      assert !IsSpace(s[|s| - |l|]);
    }
  }

  lemma {:induction false} StripOfTrimmed(s: string)
    requires Trimmed(s)
    ensures Strip(s) == s
  {
  }

  lemma {:induction false} StripIdempotent(s: string)
    ensures Strip(Strip(s)) == Strip(s)
  {
    StripTrimmed(s);
    StripOfTrimmed(Strip(s));
  }

  lemma {:induction false} LowerIdempotent(s: string)
    requires LowerCase(s)
    ensures Lower(s) == s
  {
  }

  lemma {:induction false} LowerStripLeft(s: string)
    ensures Lower(StripLeft(s)) == StripLeft(Lower(s))
  {
    if |s| > 0 {
      assert Lower(s)[0] == LowerChar(s[0]);
      LowerCharSpace(s[0]);
      if IsSpace(s[0]) {
        assert Lower(s)[1..] == Lower(s[1..]);
        LowerStripLeft(s[1..]);
      }
    }
  }

  lemma {:induction false} LowerStripRight(s: string)
    ensures Lower(StripRight(s)) == StripRight(Lower(s))
  {
    if |s| > 0 {
      assert Lower(s)[|s| - 1] == LowerChar(s[|s| - 1]);
      LowerCharSpace(s[|s| - 1]);
      if IsSpace(s[|s| - 1]) {
        assert Lower(s)[..|s| - 1] == Lower(s[..|s| - 1]);
        LowerStripRight(s[..|s| - 1]);
      }
    }
  }

  /** Lower-casing and stripping commute, so `s.lower().strip()` equals `s.strip().lower()`. */
  lemma {:induction false} LowerStrip(s: string)
    ensures Lower(Strip(s)) == Strip(Lower(s))
  {
    LowerStripLeft(s);
    LowerStripRight(StripLeft(s));
  }

  /** What `s.lower().strip()` produces is already lower-case and stripped. */
  lemma {:induction false} LowerStripCanonical(s: string)
    ensures LowerCase(Strip(Lower(s))) && Trimmed(Strip(Lower(s)))
    ensures Strip(Lower(Strip(Lower(s)))) == Strip(Lower(s))
  {
    var t := Strip(Lower(s));
    LowerStrip(s);
    StripTrimmed(Lower(s));
    LowerIdempotent(t);
    StripOfTrimmed(t);
  }

  /** Lower-casing neither makes nor removes white space. */
  lemma {:induction false} LowerCharSpace(c: char)
    ensures IsSpace(LowerChar(c)) <==> IsSpace(c)
  {
  }

  lemma {:induction false} LowerAppend(a: string, b: string)
    ensures Lower(a + b) == Lower(a) + Lower(b)
  {
    assert forall i :: 0 <= i < |a + b| ==> Lower(a + b)[i] == (Lower(a) + Lower(b))[i];
  }


  /** lstrip() removes exactly a leading run of white space ending before a non-space. */
  lemma {:induction false} StripLeftOf(w: string, r: string)
    requires AllSpace(w)
    requires r == [] || !IsSpace(r[0])
    ensures StripLeft(w + r) == r
    decreases |w|
  {
    if w == [] {
      assert w + r == r;
      if r != [] {
        assert !IsSpace(r[0]);
      }
    } else {
      assert (w + r)[1..] == w[1..] + r;
      StripLeftOf(w[1..], r);
    }
  }

  /** rstrip() removes exactly a trailing run of white space following a non-space. */
  lemma {:induction false} StripRightOf(r: string, w: string)
    requires AllSpace(w)
    requires r == [] || !IsSpace(r[|r| - 1])
    ensures StripRight(r + w) == r
    decreases |w|
  {
    if w == [] {
      assert r + w == r;
      if r != [] {
        assert !IsSpace(r[|r| - 1]);
      }
    } else {
      assert (r + w)[..|r + w| - 1] == r + w[..|w| - 1];
      StripRightOf(r, w[..|w| - 1]);
    }
  }

  lemma {:induction false} AppendAssoc(a: string, b: string, c: string)
    ensures (a + b) + c == a + (b + c)
  {
  }

  lemma {:induction false} StripLeftNonSpace(x: string)
    requires !AllSpace(x)
    ensures StripLeft(x) != []
  {
    StripLeftKeepsNonSpace(x);
  }

  lemma {:induction false} StripRightNonSpace(x: string)
    requires !AllSpace(x)
    ensures StripRight(x) != []
  {
    var r := StripRight(x);
    assert x == r + x[|r|..];
    AllSpaceSplit(r, x[|r|..]);
  }

  lemma {:induction false} StripLeftAppendSpace(x: string, w: string)
    requires AllSpace(w) && !AllSpace(x)
    ensures StripLeft(x + w) == StripLeft(x) + w
  {
    StripLeftNonSpace(x);
    StripLeftSplit(x);
    StripLeftOfAppend(x[..|x| - |StripLeft(x)|], StripLeft(x), w);
  }

  /** A text is its stripped-off leading white space followed by what lstrip() keeps. */
  lemma {:induction false} StripLeftSplit(x: string)
    ensures x == x[..|x| - |StripLeft(x)|] + StripLeft(x)
  {
  }

  /** A text is what rstrip() keeps followed by the trailing white space it drops. */
  lemma {:induction false} StripRightSplit(x: string)
    ensures x == StripRight(x) + x[|StripRight(x)|..]
  {
  }

  /** rstrip() of a text that does not end in all white space keeps what comes before. */
  lemma {:induction false} StripRightAfter(a: string, x: string)
    requires !AllSpace(x)
    ensures StripRight(a + x) == a + StripRight(x)
  {
    var body := StripRight(x);
    StripRightSplit(x);
    StripRightNonSpace(x);
    AppendAssoc(a, body, x[|body|..]);
    assert (a + body)[|a + body| - 1] == body[|body| - 1];
    StripRightOf(a + body, x[|body|..]);
  }

  lemma {:induction false} StripLeftOfAppend(p: string, l: string, w: string)
    requires AllSpace(p) && l != [] && !IsSpace(l[0])
    ensures StripLeft((p + l) + w) == l + w
  {
    assert (l + w)[0] == l[0];
    AppendAssoc(p, l, w);
    StripLeftOf(p, l + w);
  }

  /** lstrip() removes any white space put in front. */
  lemma {:induction false} StripLeftSpace(w: string, t: string)
    requires AllSpace(w)
    ensures StripLeft(w + t) == StripLeft(t)
  {
    StripLeftSplit(t);
    var l := StripLeft(t);
    var p := t[..|t| - |l|];
    AllSpaceSplit(w, p);
    AppendAssoc(w, p, l);
    StripLeftOf(w + p, l);
  }

  lemma {:induction false} StripLeftKeepsNonSpace(x: string)
    requires !AllSpace(x)
    ensures !AllSpace(StripLeft(x))
  {
    var l := StripLeft(x);
    var k := |x| - |l|;
    assert x == x[..k] + l;
    AllSpaceSplit(x[..k], l);
  }

  lemma {:induction false} AllSpaceSplit(a: string, b: string)
    ensures AllSpace(a + b) <==> AllSpace(a) && AllSpace(b)
  {
    assert forall i :: 0 <= i < |a| ==> (a + b)[i] == a[i];
    assert forall i :: 0 <= i < |b| ==> (a + b)[|a| + i] == b[i];
  }

  lemma {:induction false} AllSpaceAppend(a: string, b: string)
    requires AllSpace(a) && AllSpace(b)
    ensures AllSpace(a + b)
  {
  }

  lemma {:induction false} StripAllSpace(x: string)
    requires AllSpace(x)
    ensures Strip(x) == []
  {
    StripTrimmed(x);
  }

  lemma {:induction false} StripRightAppendSpace(l: string, w: string)
    requires AllSpace(w) && !AllSpace(l)
    ensures StripRight(l + w) == StripRight(l)
  {
    var r := StripRight(l);
    var u := l[|r|..];
    assert r + u == l;
    StripRightNonSpace(l);
    AppendAssoc(r, u, w);
    AllSpaceAppend(u, w);
    StripRightOf(r, u + w);
  }

  /** Trailing white space makes no difference to strip(). */
  lemma {:induction false} StripAppendSpace(x: string, w: string)
    requires AllSpace(w)
    ensures Strip(x + w) == Strip(x)
  {
    if AllSpace(x) {
      StripAllSpace(x);
      AllSpaceAppend(x, w);
      StripAllSpace(x + w);
    } else {
      StripLeftAppendSpace(x, w);
      StripLeftKeepsNonSpace(x);
      StripRightAppendSpace(StripLeft(x), w);
    }
  }

  /** A string is all white space exactly when its lower-cased form is. */
  lemma {:induction false} LowerAllSpace(s: string)
    ensures AllSpace(Lower(s)) <==> AllSpace(s)
  {
    forall i | 0 <= i < |s|
      ensures IsSpace(Lower(s)[i]) <==> IsSpace(s[i])
    {
      LowerCharSpace(s[i]);
    }
  }

  /** Python's str.replace(target, replacement) for a one-character `target`: every occurrence is replaced. */
  function ReplaceChar(s: string, target: char, replacement: string): (r: string)
    requires target !in replacement
    ensures target !in r
    ensures target !in s ==> r == s
  {
    if s == [] then []
    else ReplaceHead(s[0], target, replacement) + ReplaceChar(s[1..], target, replacement)
  }

  /** What one character becomes under the replacement. */
  function ReplaceHead(c: char, target: char, replacement: string): (r: string)
    ensures c != target ==> r == [c]
    ensures c == target ==> r == replacement
  {
    if c == target then replacement else [c]
  }

  lemma {:induction false} ReplaceCharUnfold(s: string, target: char, replacement: string)
    requires target !in replacement && s != []
    ensures ReplaceChar(s, target, replacement) == ReplaceHead(s[0], target, replacement) + ReplaceChar(s[1..], target, replacement)
  {
  }

  /** str.replace distributes over concatenation. */
  lemma {:induction false} ReplaceCharAppend(a: string, b: string, target: char, replacement: string)
    requires target !in replacement
    ensures ReplaceChar(a + b, target, replacement) == ReplaceChar(a, target, replacement) + ReplaceChar(b, target, replacement)
    decreases |a|
  {
    if a == [] {
      assert a + b == b;
    } else {
      ReplaceCharUnfold(a + b, target, replacement);
      ReplaceCharUnfold(a, target, replacement);
      assert (a + b)[0] == a[0];
      assert (a + b)[1..] == a[1..] + b;
      ReplaceCharAppend(a[1..], b, target, replacement);
      AppendAssoc(ReplaceHead(a[0], target, replacement), ReplaceChar(a[1..], target, replacement), ReplaceChar(b, target, replacement));
    }
  }

  /** Replacing in a text whose first occurrence of `target` follows `a`. */
  lemma {:induction false} ReplaceCharFirst(a: string, b: string, target: char, replacement: string)
    requires target !in replacement && target !in a
    ensures ReplaceChar(a + [target] + b, target, replacement) == a + replacement + ReplaceChar(b, target, replacement)
  {
    var tail := [target] + b;
    AppendAssoc(a, [target], b);
    ReplaceCharAppend(a, tail, target, replacement);
    ReplaceCharUnfold(tail, target, replacement);
    assert tail[0] == target && tail[1..] == b;
  }

  /** Python's sep.join(parts). */
  function Join(parts: seq<string>, sep: string): (r: string)
    ensures parts == [] ==> r == []
    ensures |parts| == 1 ==> r == parts[0]
  {
    if parts == [] then []
    else if |parts| == 1 then parts[0]
    else parts[0] + sep + Join(parts[1..], sep)
  }

  /** A joined text starts with the first part and ends with the last. */
  lemma {:induction false} JoinEnds(parts: seq<string>, sep: string)
    requires parts != []
    ensures var r := Join(parts, sep);
      parts[0] <= r && |parts[|parts| - 1]| <= |r| && r[|r| - |parts[|parts| - 1]|..] == parts[|parts| - 1]
    decreases |parts|
  {
    if |parts| > 1 {
      JoinEnds(parts[1..], sep);
      var rest := Join(parts[1..], sep);
      var last := parts[|parts| - 1];
      assert parts[1..][|parts[1..]| - 1] == last;
      var r := parts[0] + sep + rest;
      assert r[|r| - |last|..] == rest[|rest| - |last|..];
    }
  }

  /** Joining one more part appends the separator and that part. */
  lemma {:induction false} JoinSnoc(parts: seq<string>, p: string, sep: string)
    requires parts != []
    ensures Join(parts + [p], sep) == Join(parts, sep) + sep + p
    decreases |parts|
  {
    if |parts| == 1 {
      assert (parts + [p])[1..] == [p];
    } else {
      assert (parts + [p])[1..] == parts[1..] + [p];
      JoinSnoc(parts[1..], p, sep);
    }
  }

  predicate NoDups<T(==)>(s: seq<T>) {
    forall i, j :: 0 <= i < j < |s| ==> s[i] != s[j]
  }

  /** `acc` followed by the elements of `xs` that are new, each once, in first-seen order:
      the loop `for x in xs: if x not in acc: acc.append(x)`. */
  function AddNew<T(==,!new)>(acc: seq<T>, xs: seq<T>): (r: seq<T>)
    ensures |acc| <= |r| && r[..|acc|] == acc
    ensures NoDups(acc) ==> NoDups(r)
    ensures forall x :: x in r <==> x in acc || x in xs
    decreases |xs|
  {
    if xs == [] then acc
    else
      var r := AddNew(acc, xs[..|xs| - 1]);
      var x := xs[|xs| - 1];
      assert forall y :: y in xs <==> y in xs[..|xs| - 1] || y == x;
      if x in r then r else r + [x]
  }

  /** The distinct elements of `xs` in first-seen order. */
  function Dedup<T(==,!new)>(xs: seq<T>): (r: seq<T>)
    ensures NoDups(r)
    ensures forall x :: x in r <==> x in xs
  {
    AddNew([], xs)
  }

  /** A duplicate-free sequence has as many elements as its set. */
  lemma {:induction false} NoDupsCard<T>(s: seq<T>)
    requires NoDups(s)
    ensures |set x | x in s| == |s|
    decreases |s|
  {
    if s != [] {
      var p := s[..|s| - 1];
      assert NoDups(p);
      NoDupsCard(p);
      assert (set x | x in s) == (set x | x in p) + {s[|s| - 1]};
      assert s[|s| - 1] !in p;
    }
  }

  /** The images of the elements that pass `keep`, in order. */
  function FilterMap<T(!new), U>(xs: seq<T>, keep: T -> bool, make: T --> U): (r: seq<U>)
    requires forall x :: keep(x) ==> make.requires(x)
    ensures |r| <= |xs|
  {
    if xs == [] then []
    else
      var x := xs[|xs| - 1];
      FilterMap(xs[..|xs| - 1], keep, make) + (if keep(x) then [make(x)] else [])
  }

  /** Every element of the result is the image of an element that passes. */
  lemma {:induction false} FilterMapSound<T(!new), U>(xs: seq<T>, keep: T -> bool, make: T --> U, k: nat)
    requires forall x :: keep(x) ==> make.requires(x)
    requires k < |FilterMap(xs, keep, make)|
    ensures exists i :: 0 <= i < |xs| && keep(xs[i]) && FilterMap(xs, keep, make)[k] == make(xs[i])
    decreases |xs|
  {
    var init := xs[..|xs| - 1];
    var before := FilterMap(init, keep, make);
    if k < |before| {
      FilterMapSound(init, keep, make, k);
      var i :| 0 <= i < |init| && keep(init[i]) && before[k] == make(init[i]);
      assert init[i] == xs[i];
    } else {
      assert keep(xs[|xs| - 1]);
    }
  }

  /** Every element that passes has its image in the result. */
  lemma {:induction false} FilterMapComplete<T(!new), U>(xs: seq<T>, keep: T -> bool, make: T --> U, i: nat)
    requires forall x :: keep(x) ==> make.requires(x)
    requires i < |xs| && keep(xs[i])
    ensures make(xs[i]) in FilterMap(xs, keep, make)
    decreases |xs|
  {
    var init := xs[..|xs| - 1];
    if i < |init| {
      assert init[i] == xs[i];
      FilterMapComplete(init, keep, make, i);
    }
  }

  /** Decimal digits of `n`, zero-padded on the left to `width` characters. */
  function DecimalPadded(n: nat, width: nat): (r: string)
    ensures |r| >= width
    ensures forall i :: 0 <= i < |r| ==> '0' <= r[i] <= '9'
    decreases if n > 0 then n + width else width
  {
    if n == 0 && width == 0 then []
    else DecimalPadded(n / 10, if width > 0 then width - 1 else 0) + [('0' as int + n % 10) as char]
  }

  predicate AllDigits(s: string) {
    forall i :: 0 <= i < |s| ==> '0' <= s[i] <= '9'
  }

  /** Python's int() of a string of decimal digits (leading zeros allowed). */
  function DigitsValue(s: string): nat
    requires AllDigits(s)
  {
    if s == [] then 0 else DigitsValue(s[..|s| - 1]) * 10 + (s[|s| - 1] as int - '0' as int)
  }

  /** Reading back a rendered number gives the number. */
  lemma {:induction false} DigitsValueOfPadded(n: nat, width: nat)
    ensures AllDigits(DecimalPadded(n, width))
    ensures DigitsValue(DecimalPadded(n, width)) == n
    decreases if n > 0 then n + width else width
  {
    if !(n == 0 && width == 0) {
      var w := if width > 0 then width - 1 else 0;
      var r := DecimalPadded(n, width);
      DigitsValueOfPadded(n / 10, w);
      assert r[..|r| - 1] == DecimalPadded(n / 10, w);
    }
  }
}
