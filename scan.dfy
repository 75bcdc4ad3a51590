/** The regular-expression scans the reader runs over an alert description
    (`re.findall` with the patterns of rss_feed_reader.py lines 95, 114 and 143).

    Each of those patterns is a literal head followed by groups `(C+)` each closed
    by a literal whose first character lies outside the class C. A greedy run of C
    therefore never has to give characters back: the groups match exactly when the
    longest run of C is non-empty and the closing literal follows it. */
module Scan {
  import opened Wrappers

  /** The character classes of the patterns: `\d` and `[^<]`. */
  datatype CharClass = Digit | NotLt

  predicate InClass(c: char, cls: CharClass) {
    match cls
    case Digit => '0' <= c <= '9'
    case NotLt => c != '<'
  }

  predicate AllInClass(x: string, cls: CharClass) {
    forall i :: 0 <= i < |x| ==> InClass(x[i], cls)
  }

  /** A capturing group `(cls+)` followed by the literal `follow`. */
  datatype Group = Group(cls: CharClass, follow: string)

  /** A literal head followed by capturing groups. */
  datatype Pattern = Pattern(head: string, groups: seq<Group>)

  predicate GroupsWellFormed(gs: seq<Group>) {
    gs == [] || (gs[0].follow != [] && !InClass(gs[0].follow[0], gs[0].cls) && GroupsWellFormed(gs[1..]))
  }

  /** A pattern whose greedy runs never backtrack and whose matches are never empty. */
  predicate WellFormed(p: Pattern) {
    p.head != [] && GroupsWellFormed(p.groups)
  }

  /** Captures that a match of the groups can produce: one non-empty run of its
      class per group. */
  predicate Conforms(caps: seq<string>, gs: seq<Group>) {
    |caps| == |gs| &&
    (gs == [] || (caps[0] != [] && AllInClass(caps[0], gs[0].cls) && Conforms(caps[1..], gs[1..])))
  }

  /** The text the groups match when they capture `caps`. */
  function RenderGroups(gs: seq<Group>, caps: seq<string>): string
    requires |caps| == |gs|
  {
    if gs == [] then [] else caps[0] + gs[0].follow + RenderGroups(gs[1..], caps[1..])
  }

  function Render(p: Pattern, caps: seq<string>): string
    requires |caps| == |p.groups|
  {
    p.head + RenderGroups(p.groups, caps)
  }

  /** Length of the longest prefix of `s` within `cls`. */
  function Run(s: string, cls: CharClass): (n: nat)
    ensures n <= |s|
  {
    if s != [] && InClass(s[0], cls) then 1 + Run(s[1..], cls) else 0
  }

  /** The run is the longest prefix within the class. */
  lemma {:induction false} RunMaximal(s: string, cls: CharClass)
    ensures AllInClass(s[..Run(s, cls)], cls)
    ensures Run(s, cls) < |s| ==> !InClass(s[Run(s, cls)], cls)
    decreases |s|
  {
    if s != [] && InClass(s[0], cls) {
      RunMaximal(s[1..], cls);
      var n := Run(s[1..], cls);
      var pre := s[..n + 1];
      forall i | 1 <= i <= n ensures InClass(pre[i], cls) {
        assert pre[i] == s[1..][..n][i - 1];
      }
      if n + 1 < |s| {
        assert s[n + 1] == s[1..][n];
      }
    }
  }

  /** The outcome of matching at one position: the captures and the length of the
      matched text. */
  datatype Match = NoMatch | Matched(caps: seq<string>, len: nat)

  /** The groups matched at the start of `s`. */
  function MatchGroups(s: string, gs: seq<Group>): (r: Match)
    ensures r.Matched? ==> |r.caps| == |gs| && r.len <= |s|
    decreases |gs|
  {
    if gs == [] then Matched([], 0)
    else
      var n := Run(s, gs[0].cls);
      if n == 0 || !(gs[0].follow <= s[n..]) then NoMatch
      else
        var k := n + |gs[0].follow|;
        var rest := MatchGroups(s[k..], gs[1..]);
        if rest.NoMatch? then NoMatch else Matched([s[..n]] + rest.caps, k + rest.len)
  }

  /** The pattern matched at the start of `s`. */
  function MatchAt(s: string, p: Pattern): (r: Match)
    ensures r.Matched? ==> |r.caps| == |p.groups| && |p.head| <= r.len <= |s|
  {
    if !(p.head <= s) then NoMatch
    else
      var m := MatchGroups(s[|p.head|..], p.groups);
      if m.NoMatch? then NoMatch else Matched(m.caps, |p.head| + m.len)
  }

  /** `re.findall`: the captures of the non-overlapping matches, left to right. After a
      match the scan resumes where it ended; elsewhere it moves on one character. */
  function FindAll(s: string, p: Pattern): (r: seq<seq<string>>)
    requires p.head != []
    ensures forall i :: 0 <= i < |r| ==> Conforms(r[i], p.groups)
    decreases |s|
  {
    if s == [] then []
    else
      var m := MatchAt(s, p);
      if m.Matched? then
        MatchAtSound(s, p);
        [m.caps] + FindAll(s[m.len..], p)
      else FindAll(s[1..], p)
  }

  /** What MatchGroups captures are non-empty runs of each group's class, and the
      text it consumes is their rendering. */
  lemma {:induction false} MatchGroupsSound(s: string, gs: seq<Group>)
    requires MatchGroups(s, gs).Matched?
    ensures Conforms(MatchGroups(s, gs).caps, gs)
    ensures s[..MatchGroups(s, gs).len] == RenderGroups(gs, MatchGroups(s, gs).caps)
    decreases |gs|
  {
    if gs != [] {
      var n := Run(s, gs[0].cls);
      var k := n + |gs[0].follow|;
      var m := MatchGroups(s[k..], gs[1..]);
      MatchGroupsUnfold(s, gs);
      MatchGroupsSound(s[k..], gs[1..]);
      FirstGroupSound(s, gs, n, m);
    }
  }

  /** A match of the groups is a run, its closing literal, and a match of the rest. */
  lemma {:induction false} MatchGroupsUnfold(s: string, gs: seq<Group>)
    requires gs != [] && MatchGroups(s, gs).Matched?
    ensures Run(s, gs[0].cls) > 0 && Run(s, gs[0].cls) + |gs[0].follow| <= |s|
    ensures gs[0].follow <= s[Run(s, gs[0].cls)..]
    ensures MatchGroups(s[Run(s, gs[0].cls) + |gs[0].follow|..], gs[1..]).Matched?
    ensures MatchGroups(s, gs) == Matched([s[..Run(s, gs[0].cls)]] + MatchGroups(s[Run(s, gs[0].cls) + |gs[0].follow|..], gs[1..]).caps,
      Run(s, gs[0].cls) + |gs[0].follow| + MatchGroups(s[Run(s, gs[0].cls) + |gs[0].follow|..], gs[1..]).len)
  {
  }

  lemma {:induction false} FirstGroupSound(s: string, gs: seq<Group>, n: nat, m: Match)
    requires gs != [] && n == Run(s, gs[0].cls) && n > 0 && gs[0].follow <= s[n..]
    requires m.Matched? && |m.caps| == |gs| - 1 && n + |gs[0].follow| + m.len <= |s|
    requires Conforms(m.caps, gs[1..])
    requires s[n + |gs[0].follow|..][..m.len] == RenderGroups(gs[1..], m.caps)
    ensures Conforms([s[..n]] + m.caps, gs)
    ensures s[..n + |gs[0].follow| + m.len] == RenderGroups(gs, [s[..n]] + m.caps)
  {
    var k := n + |gs[0].follow|;
    RunMaximal(s, gs[0].cls);
    ConsConforms(gs, s[..n], m.caps);
    ConsRender(gs, s[..n], m.caps);
    assert s[..k + m.len] == s[..n] + gs[0].follow + s[k..][..m.len];
  }

  lemma {:induction false} ConsConforms(gs: seq<Group>, c: string, tail: seq<string>)
    requires gs != [] && c != [] && AllInClass(c, gs[0].cls) && Conforms(tail, gs[1..])
    ensures Conforms([c] + tail, gs)
  {
    assert ([c] + tail)[1..] == tail;
  }

  lemma {:induction false} ConsRender(gs: seq<Group>, c: string, tail: seq<string>)
    requires gs != [] && |tail| == |gs| - 1
    ensures RenderGroups(gs, [c] + tail) == c + gs[0].follow + RenderGroups(gs[1..], tail)
  {
    assert ([c] + tail)[1..] == tail;
  }

  lemma {:induction false} MatchAtSound(s: string, p: Pattern)
    requires MatchAt(s, p).Matched?
    ensures Conforms(MatchAt(s, p).caps, p.groups)
    ensures s[..MatchAt(s, p).len] == Render(p, MatchAt(s, p).caps)
  {
    var rest := s[|p.head|..];
    MatchGroupsSound(rest, p.groups);
    var m := MatchGroups(rest, p.groups);
    assert s[..|p.head| + m.len] == p.head + rest[..m.len];
  }

  /** No match starts anywhere in `s`. */
  predicate NoMatchIn(s: string, p: Pattern) {
    forall i :: 0 <= i <= |s| ==> MatchAt(s[i..], p).NoMatch?
  }

  lemma {:induction false} RunOf(x: string, y: string, cls: CharClass)
    requires AllInClass(x, cls)
    requires y == [] || !InClass(y[0], cls)
    ensures Run(x + y, cls) == |x|
    decreases |x|
  {
    if x == [] {
      assert x + y == y;
    } else {
      assert (x + y)[1..] == x[1..] + y;
      RunOf(x[1..], y, cls);
    }
  }

  lemma {:induction false} ConsTail<T>(xs: seq<T>)
    requires xs != []
    ensures [xs[0]] + xs[1..] == xs
  {
  }

  lemma {:induction false} DropPrefix(x: string, y: string)
    ensures (x + y)[|x|..] == y
  {
  }

  lemma {:induction false} Regroup(x: string, y: string, z: string)
    ensures x + y + z == x + (y + z)
  {
  }

  /** The first group of a rendering is matched by its capture. */
  lemma {:induction false} FirstGroupRendered(gs: seq<Group>, caps: seq<string>, rest: string)
    requires gs != [] && GroupsWellFormed(gs) && Conforms(caps, gs)
    ensures Run(RenderGroups(gs, caps) + rest, gs[0].cls) == |caps[0]|
    ensures gs[0].follow <= (RenderGroups(gs, caps) + rest)[|caps[0]|..]
    ensures (RenderGroups(gs, caps) + rest)[|caps[0]| + |gs[0].follow|..] == RenderGroups(gs[1..], caps[1..]) + rest
    ensures (RenderGroups(gs, caps) + rest)[..|caps[0]|] == caps[0]
  {
    var c := caps[0];
    var f := gs[0].follow;
    var tail := RenderGroups(gs[1..], caps[1..]) + rest;
    var s := RenderGroups(gs, caps) + rest;
    Regroup(c, f, RenderGroups(gs[1..], caps[1..]));
    Regroup(c + f, RenderGroups(gs[1..], caps[1..]), rest);
    Regroup(c, f, tail);
    assert s == c + (f + tail);
    assert (f + tail)[0] == f[0];
    RunOf(c, f + tail, gs[0].cls);
    DropPrefix(c, f + tail);
    DropPrefix(c + f, tail);
  }

  /** One step of MatchGroups: a run, its closing literal, then the remaining groups. */
  lemma {:induction false} MatchGroupsStep(s: string, gs: seq<Group>, n: nat, m: Match)
    requires gs != [] && n == Run(s, gs[0].cls) && n > 0 && gs[0].follow <= s[n..]
    requires MatchGroups(s[n + |gs[0].follow|..], gs[1..]) == m && m.Matched?
    ensures MatchGroups(s, gs) == Matched([s[..n]] + m.caps, n + |gs[0].follow| + m.len)
  {
  }

  /** Matching the rendering of well-formed groups gives back the captures. */
  lemma {:induction false} MatchRenderedGroups(gs: seq<Group>, caps: seq<string>, rest: string)
    requires GroupsWellFormed(gs) && Conforms(caps, gs)
    ensures MatchGroups(RenderGroups(gs, caps) + rest, gs) == Matched(caps, |RenderGroups(gs, caps)|)
    decreases |gs|
  {
    if gs != [] {
      var s := RenderGroups(gs, caps) + rest;
      var n := |caps[0]|;
      FirstGroupRendered(gs, caps, rest);
      assert Run(s, gs[0].cls) == n && gs[0].follow <= s[n..];
      assert s[n + |gs[0].follow|..] == RenderGroups(gs[1..], caps[1..]) + rest;
      assert s[..n] == caps[0];
      MatchRenderedGroups(gs[1..], caps[1..], rest);
      var m := Matched(caps[1..], |RenderGroups(gs[1..], caps[1..])|);
      MatchGroupsStep(s, gs, n, m);
      ConsTail(caps);
      var len := |RenderGroups(gs, caps)|;
      assert len == n + |gs[0].follow| + m.len;
      assert [s[..n]] + m.caps == caps;
    }
  }

  /** Matching the rendering of a well-formed pattern gives back the captures: the
      partner of MatchAt. */
  lemma {:induction false} MatchRendered(p: Pattern, caps: seq<string>, rest: string)
    requires WellFormed(p) && Conforms(caps, p.groups)
    ensures MatchAt(Render(p, caps) + rest, p) == Matched(caps, |Render(p, caps)|)
  {
    var s := Render(p, caps) + rest;
    assert s == p.head + (RenderGroups(p.groups, caps) + rest);
    assert s[|p.head|..] == RenderGroups(p.groups, caps) + rest;
    MatchRenderedGroups(p.groups, caps, rest);
  }

  /** A rendered match at the front is the first thing findall reports. */
  lemma {:induction false} FindAllRendered(p: Pattern, caps: seq<string>, rest: string)
    requires WellFormed(p) && Conforms(caps, p.groups)
    ensures FindAll(Render(p, caps) + rest, p) == [caps] + FindAll(rest, p)
  {
    var s := Render(p, caps) + rest;
    MatchRendered(p, caps, rest);
    assert s[|Render(p, caps)|..] == rest;
  }

  /** findall reports nothing exactly when no match starts anywhere. */
  lemma {:induction false} FindAllEmpty(s: string, p: Pattern)
    requires p.head != []
    ensures FindAll(s, p) == [] <==> NoMatchIn(s, p)
    decreases |s|
  {
    if s == [] {
      assert s[0..] == s;
      assert !(p.head <= s);
    } else if MatchAt(s, p).Matched? {
      assert s[0..] == s;
    } else {
      FindAllEmpty(s[1..], p);
      if NoMatchIn(s[1..], p) {
        forall i | 0 <= i <= |s| ensures MatchAt(s[i..], p).NoMatch? {
          if i == 0 {
            assert s[0..] == s;
          } else {
            assert s[i..] == s[1..][i - 1..];
          }
        }
      } else {
        var j :| 0 <= j <= |s[1..]| && MatchAt(s[1..][j..], p).Matched?;
        assert s[1..][j..] == s[j + 1..];
      }
    }
  }

  /** One step of the scan. */
  lemma {:induction false} FindAllStep(s: string, p: Pattern)
    requires p.head != [] && s != []
    ensures MatchAt(s, p).Matched? ==> FindAll(s, p) == [MatchAt(s, p).caps] + FindAll(s[MatchAt(s, p).len..], p)
    ensures MatchAt(s, p).NoMatch? ==> FindAll(s, p) == FindAll(s[1..], p)
  {
  }

  /** Positions at which no match starts are skipped. */
  lemma {:induction false} FindAllSkip(s: string, p: Pattern, n: nat)
    requires p.head != [] && n <= |s|
    requires forall i :: 0 <= i < n ==> MatchAt(s[i..], p).NoMatch?
    ensures FindAll(s, p) == FindAll(s[n..], p)
    decreases n
  {
    if n > 0 {
      assert s[0..] == s;
      FindAllStep(s, p);
      forall i | 0 <= i < n - 1
        ensures MatchAt(s[1..][i..], p).NoMatch?
      {
        assert s[1..][i..] == s[i + 1..];
      }
      FindAllSkip(s[1..], p, n - 1);
      assert s[1..][n - 1..] == s[n..];
    }
  }

  /** Some position of `s` has a match capturing `caps`. */
  predicate MatchesSomewhere(s: string, p: Pattern, caps: seq<string>) {
    exists i :: 0 <= i <= |s| && MatchAt(s[i..], p).Matched? && MatchAt(s[i..], p).caps == caps
  }

  lemma {:induction false} MatchesSomewhereLater(s: string, p: Pattern, j: nat, caps: seq<string>)
    requires j <= |s| && MatchesSomewhere(s[j..], p, caps)
    ensures MatchesSomewhere(s, p, caps)
  {
    var i :| 0 <= i <= |s[j..]| && MatchAt(s[j..][i..], p).Matched? && MatchAt(s[j..][i..], p).caps == caps;
    assert s[j..][i..] == s[j + i..];
  }

  /** Every reported match is a match at some position of the text. */
  lemma {:induction false} FindAllSound(s: string, p: Pattern, k: nat)
    requires p.head != [] && k < |FindAll(s, p)|
    ensures MatchesSomewhere(s, p, FindAll(s, p)[k])
    decreases |s|
  {
    assert s[0..] == s;
    FindAllStep(s, p);
    var m := MatchAt(s, p);
    if m.Matched? {
      if k > 0 {
        FindAllSound(s[m.len..], p, k - 1);
        MatchesSomewhereLater(s, p, m.len, FindAll(s, p)[k]);
      }
    } else {
      FindAllSound(s[1..], p, k);
      MatchesSomewhereLater(s, p, 1, FindAll(s, p)[k]);
    }
  }
}
