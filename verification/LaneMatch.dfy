/**
 How a spoken name finds its lane: exact, then substring, then bounded edit distance.
 Names and text are already lowercased.
 */
module LaneMatch {
  import opened Durable
  import opened Normalization
  import opened EditDistance

  datatype Lane = Lane(id: string, name: string)

  /** The text without its spaces, for names that speech recognition splits. */
  function Flat(s: string): string {
    if s == [] then [] else (if s[0] == ' ' then [] else [s[0]]) + Flat(s[1..])
  }

  predicate StartsWith(s: string, p: string) {
    |p| <= |s| && s[..|p|] == p
  }

  predicate Contains(s: string, p: string) {
    StartsWith(s, p) || (s != [] && Contains(s[1..], p))
  }

  predicate OccursAt(s: string, p: string, k: nat) {
    k + |p| <= |s| && s[k..k + |p|] == p
  }

  lemma {:induction false} ContainsExactly(s: string, p: string)
    ensures Contains(s, p) <==> exists k :: OccursAt(s, p, k)
  {
    assert StartsWith(s, p) <==> OccursAt(s, p, 0);
    if s != [] {
      ContainsExactly(s[1..], p);
      if k: nat :| OccursAt(s[1..], p, k) {
        LaterOccurrence(s, p, k);
      }
      if k: nat :| OccursAt(s, p, k) && k > 0 {
        LaterOccurrence(s, p, k - 1);
      }
    }
  }

  lemma LaterOccurrence(s: string, p: string, k: nat)
    requires s != []
    ensures OccursAt(s[1..], p, k) <==> OccursAt(s, p, k + 1)
  {}

  // ----------------------------------------------------------- the three tiers

  predicate Exact(t: string, lane: Lane) {
    Normalize(lane.name) == t || lane.id == t || Flat(Normalize(lane.name)) == Flat(t)
  }

  predicate Within(t: string, lane: Lane) {
    Contains(t, Normalize(lane.name)) || Contains(Flat(t), Flat(Normalize(lane.name)))
  }

  function Tolerance(lane: Lane): nat {
    var third := |Normalize(lane.name)| / 3;
    if third > 2 then third else 2
  }

  function Apart(t: string, lane: Lane): nat {
    Min(Distance(t, Normalize(lane.name)), Distance(Flat(t), Flat(Normalize(lane.name))))
  }

  predicate Near(t: string, lane: Lane) {
    Apart(t, lane) <= Tolerance(lane)
  }

  predicate FirstWhere(lanes: seq<Lane>, k: nat, p: Lane -> bool) {
    k < |lanes| && p(lanes[k]) && forall j :: 0 <= j < k ==> !p(lanes[j])
  }

  /** The nearest lane within its tolerance, the first among equals. */
  predicate Nearest(t: string, lanes: seq<Lane>, k: nat) {
    && k < |lanes| && Near(t, lanes[k])
    && (forall j :: 0 <= j < |lanes| && Near(t, lanes[j]) ==> Apart(t, lanes[k]) <= Apart(t, lanes[j]))
    && (forall j :: 0 <= j < k && Near(t, lanes[j]) ==> Apart(t, lanes[k]) < Apart(t, lanes[j]))
  }

  predicate NoneExact(t: string, lanes: seq<Lane>) {
    forall j :: 0 <= j < |lanes| ==> !Exact(t, lanes[j])
  }

  predicate NoneWithin(t: string, lanes: seq<Lane>) {
    forall j :: 0 <= j < |lanes| ==> !Within(t, lanes[j])
  }

  predicate NoneNear(t: string, lanes: seq<Lane>) {
    forall j :: 0 <= j < |lanes| ==> !Near(t, lanes[j])
  }

  /** Which lane the text names, as a relation: the first of the first tier that has any. */
  predicate Names(text: string, lanes: seq<Lane>, result: Option<nat>) {
    var t := Normalize(text);
    match result
    case None => t == [] || (NoneExact(t, lanes) && NoneWithin(t, lanes) && NoneNear(t, lanes))
    case Some(k) =>
      t != [] &&
      (|| FirstWhere(lanes, k, lane => Exact(t, lane))
       || (NoneExact(t, lanes) && FirstWhere(lanes, k, lane => Within(t, lane)))
       || (NoneExact(t, lanes) && NoneWithin(t, lanes) && Nearest(t, lanes, k)))
  }

  /** Without spaces: piece by piece, ... */
  lemma {:induction false} FlatOfPieces(a: string, b: string)
    ensures Flat(a + b) == Flat(a) + Flat(b)
  {
    if a == [] {
      assert a + b == b;
    } else {
      assert (a + b)[1..] == a[1..] + b;
      FlatOfPieces(a[1..], b);
    }
  }

  /** ... nothing but the spaces goes. */
  lemma {:induction false} FlatDropsSpaces(a: string)
    ensures forall c :: c in Flat(a) <==> c in a && c != ' '
    ensures ' ' !in a ==> Flat(a) == a
  {
    if a != [] {
      FlatDropsSpaces(a[1..]);
      assert a == [a[0]] + a[1..];
    }
  }

  /** The tiers in their own terms: equal, with or without spaces, or by id; contained, with or
      without spaces; or within a third of the name's length, but at least two, edits, with
      or without spaces. */
  lemma TierRules(t: string, lane: Lane)
    ensures var n := Normalize(lane.name);
            && (Exact(t, lane) <==> t == n || t == lane.id || Flat(t) == Flat(n))
            && (Within(t, lane) <==> (exists k :: OccursAt(t, n, k)) || exists k :: OccursAt(Flat(t), Flat(n), k))
            && (Near(t, lane) <==> exists edits ::
                  (Turns(t, edits, n) || Turns(Flat(t), edits, Flat(n))) && (3 * |edits| <= |n| || |edits| <= 2))
  {
    var n := Normalize(lane.name);
    ContainsExactly(t, n);
    ContainsExactly(Flat(t), Flat(n));
    FewestEdits(t, n);
    FewestEdits(Flat(t), Flat(n));
    hide Normalize, Flat, Distance, Contains, OccursAt, Turns;
    assert forall d: nat :: d <= Tolerance(lane) <==> 3 * d <= |n| || d <= 2;
    if Near(t, lane) {
      var edits :| (Turns(t, edits, n) || Turns(Flat(t), edits, Flat(n))) && |edits| == Apart(t, lane);
    }
  }

  method MatchLane(text: string, lanes: seq<Lane>) returns (result: Option<nat>)
    ensures Names(text, lanes, result)
  {
    hide Normalize, Flat, Contains, Apart, Tolerance;
    var t := Normalize(text);
    if t == [] { return None; }
    var k := 0;
    while k < |lanes|
      invariant 0 <= k <= |lanes|
      invariant forall j :: 0 <= j < k ==> !Exact(t, lanes[j])
    {
      if Exact(t, lanes[k]) { return Some(k); }
      k := k + 1;
    }
    k := 0;
    while k < |lanes|
      invariant 0 <= k <= |lanes|
      invariant forall j :: 0 <= j < k ==> !Within(t, lanes[j])
    {
      if Within(t, lanes[k]) { return Some(k); }
      k := k + 1;
    }
    result := ClosestLane(t, lanes);
  }

  /** The third tier alone: one pass that keeps the best lane so far. */
  method ClosestLane(t: string, lanes: seq<Lane>) returns (best: Option<nat>)
    ensures best.Some? ==> Nearest(t, lanes, best.value)
    ensures best == None ==> NoneNear(t, lanes)
  {
    best := None;
    var bestDistance := 0;
    var k := 0;
    while k < |lanes|
      invariant 0 <= k <= |lanes|
      invariant best.Some? ==> best.value < k && Nearest(t, lanes[..k], best.value)
      invariant best.Some? ==> bestDistance == Apart(t, lanes[best.value])
      invariant best == None ==> NoneNear(t, lanes[..k])
    {
      var n := Normalize(lanes[k].name);
      var d0 := Levenshtein(t, n);
      var d1 := Levenshtein(Flat(t), Flat(n));
      var d := Min(d0, d1);
      hide Normalize, Flat, Distance, Tolerance;
      assert lanes[..k + 1] == lanes[..k] + [lanes[k]];
      if (best == None || d < bestDistance) && d <= Tolerance(lanes[k]) {
        best, bestDistance := Some(k), d;
      }
      k := k + 1;
    }
    assert lanes[..k] == lanes;
  }

  /** There is never a choice: the relation names one lane. */
  lemma NamesOne(text: string, lanes: seq<Lane>, r: Option<nat>, q: Option<nat>)
    requires Names(text, lanes, r) && Names(text, lanes, q)
    ensures r == q
  {}

  // ------------------------------------------- names that swallow everything

  lemma NothingIsWithin(t: string, lane: Lane)
    requires Normalize(lane.name) == []
    ensures Within(t, lane)
  {}

  /** A name that normalises to nothing is contained in every text: such a lane swallows
      every utterance no lane names exactly, unless an earlier lane's name occurs in it. */
  lemma EmptyNameSwallows(text: string, lanes: seq<Lane>, k: nat, result: Option<nat>)
    requires Names(text, lanes, result) && k < |lanes| && Normalize(lanes[k].name) == []
    requires Normalize(text) != [] && NoneExact(Normalize(text), lanes)
    ensures result.Some? && result.value <= k
  {}

  function Repeated(c: char, n: nat): (s: string)
    ensures |s| == n && forall x :: x in s ==> x == c
  {
    if n == 0 then [] else [c] + Repeated(c, n - 1)
  }

  lemma {:induction false} FlatShorter(s: string)
    ensures |Flat(s)| <= |s|
    ensures s != [] && s[0] != ' ' ==> Flat(s) != [] && Flat(s)[0] == s[0]
  {
    if s != [] { FlatShorter(s[1..]); }
  }

  lemma {:induction false} FlatOfWord(s: string)
    requires ' ' !in s
    ensures Flat(s) == s
  {
    if s != [] {
      assert s[0] in s && forall c :: c in s[1..] ==> c in s;
      FlatOfWord(s[1..]);
    }
  }

  lemma FirstLetter(s: string, p: string, k: nat)
    requires p != [] && OccursAt(s, p, k)
    ensures p[0] in s
  {
    assert s[k..k + |p|][0] == s[k];
  }

  /** A text of one letter does not hold a word that starts with another one. */
  lemma NotContained(c: char, n: nat, p: string)
    requires p != [] && p[0] != c
    ensures !Contains(Repeated(c, n), p)
  {
    var s := Repeated(c, n);
    ContainsExactly(s, p);
    forall k: nat ensures !OccursAt(s, p, k) {
      if OccursAt(s, p, k) { FirstLetter(s, p, k); }
    }
  }

  /** A letter that the name does not start with. */
  function OtherLetter(n: string): (c: char)
    ensures IsWordChar(c) && (n != [] ==> n[0] != c)
  {
    if n != [] && n[0] == 'a' then 'b' else 'a'
  }

  function FarLength(lane: Lane): (k: nat)
    ensures k > |Normalize(lane.name)| + Tolerance(lane) && k > |lane.id|
  {
    |Normalize(lane.name)| + Tolerance(lane) + |lane.id| + 1
  }

  /** A text no lane of this name or id answers: one letter, over and over. */
  function Strange(lane: Lane): string {
    Repeated(OtherLetter(Normalize(lane.name)), FarLength(lane))
  }

  lemma RepeatedIsWord(c: char, n: nat)
    requires IsWordChar(c) && n > 0
    ensures var t := Repeated(c, n); t != [] && t[0] == c && Clean(t) && Flat(t) == t
  {
    var t := Repeated(c, n);
    FlatOfWord(t);
    assert forall k :: 0 <= k < |t| ==> t[k] in t;
    hide Repeated, Flat;
  }

  lemma CleanStarts(s: string)
    requires Clean(s) && s != []
    ensures s[0] != ' '
  {}

  lemma StrangeFacts(lane: Lane)
    requires Normalize(lane.name) != []
    ensures var n, t := Normalize(lane.name), Strange(lane);
            && t == Repeated(OtherLetter(n), FarLength(lane)) && t != [] && Clean(t) && Flat(t) == t && n[0] != t[0]
            && Flat(n) != [] && Flat(n)[0] == n[0] && |Flat(n)| <= |n|
  {
    hide Normalize, Flat, Tolerance, Clean, Repeated, OtherLetter, FarLength, IsWordChar;
    var n := Normalize(lane.name);
    NormalizeIdempotent(lane.name);
    CleanStarts(n);
    FlatShorter(n);
    RepeatedIsWord(OtherLetter(n), FarLength(lane));
  }

  lemma StrangeUncontained(lane: Lane)
    requires Normalize(lane.name) != []
    ensures !Within(Strange(lane), lane)
  {
    StrangeFacts(lane);
    hide Normalize, Contains, Flat, Strange, Repeated, OtherLetter, FarLength, Clean;
    var n := Normalize(lane.name);
    NotContained(OtherLetter(n), FarLength(lane), n);
    NotContained(OtherLetter(n), FarLength(lane), Flat(n));
  }

  lemma StrangeFar(lane: Lane)
    requires Normalize(lane.name) != []
    ensures !Near(Strange(lane), lane)
  {
    StrangeFacts(lane);
    hide Normalize, Distance, Flat, Strange, Repeated, Tolerance, OtherLetter, FarLength, Clean;
    var n, t := Normalize(lane.name), Strange(lane);
    LengthsApart(t, n);
    LengthsApart(t, Flat(n));
  }

  lemma StrangeInexact(lane: Lane)
    requires Normalize(lane.name) != []
    ensures !Exact(Strange(lane), lane)
  {
    StrangeFacts(lane);
    hide Normalize, Flat, Strange, Repeated, Tolerance, OtherLetter, FarLength, Clean;
  }

  /** The exact condition: a lane on its own answers every utterance if and only if its
      name has no letter and no digit. */
  lemma SwallowsExactly(lane: Lane)
    ensures (forall text :: Normalize(text) != [] ==> Names(text, [lane], Some(0))) <==> Wordless(lane.name)
  {
    EmptyIffWordless(lane.name);
    if Wordless(lane.name) {
      forall text | Normalize(text) != [] ensures Names(text, [lane], Some(0)) {
        NothingIsWithin(Normalize(text), lane);
        hide Normalize, Within;
        assert Exact(Normalize(text), lane) ==> FirstWhere([lane], 0, l => Exact(Normalize(text), l));
      }
    } else {
      var t := Strange(lane);
      StrangeFacts(lane);
      CleanStays(t);
      StrangeInexact(lane);
      StrangeUncontained(lane);
      StrangeFar(lane);
      hide Normalize, Exact, Within, Near, Strange;
      assert !Names(t, [lane], Some(0));
    }
  }

  /** An utterance that contains the name of a lane, and that alone would reach it, goes to
      a nameless lane in front of it. */
  lemma Overshadowed(t: string, nameless: Lane, other: Lane, k: nat)
    requires Clean(t) && t != [] && Wordless(nameless.name) && nameless.id != t
    requires Clean(other.name) && other.name != [] && other.name[0] != t[0] && other.id != t && OccursAt(t, other.name, k)
    ensures Names(t, [nameless, other], Some(0)) && Names(t, [other], Some(0))
  {
    assert Clean([]);
    hide *;
    CleanStays(t);
    CleanStays(other.name);
    EmptyIffWordless(nameless.name);
    InexactLane(t, nameless, []);
    InexactLane(t, other, other.name);
    NothingIsWithin(t, nameless);
    ContainsExactly(t, other.name);
    WithinWhenContained(t, other);
    FirstOfSecondTier(t, [nameless, other]);
    FirstOfSecondTier(t, [other]);
  }

  lemma WithinWhenContained(t: string, lane: Lane)
    requires Contains(t, Normalize(lane.name))
    ensures Within(t, lane)
  {}

  lemma FirstOfSecondTier(t: string, lanes: seq<Lane>)
    requires Normalize(t) == t && t != [] && lanes != [] && Within(t, lanes[0])
    requires forall lane :: lane in lanes ==> !Exact(t, lane)
    ensures Names(t, lanes, Some(0))
  {
    hide Normalize, Exact, Within, Near, Apart;
  }

  lemma InexactLane(t: string, lane: Lane, n: string)
    requires Clean(t) && t != [] && lane.id != t
    requires Normalize(lane.name) == n && Clean(n) && (n != [] ==> n[0] != t[0])
    ensures !Exact(t, lane)
  {
    Inexact(t, n);
    hide Normalize, Flat, Clean;
  }

  /** A text that starts with another letter is not exactly the name. */
  lemma Inexact(t: string, n: string)
    requires Clean(t) && t != [] && Clean(n) && (n != [] ==> n[0] != t[0])
    ensures Flat(n) != Flat(t) && n != t
  {
    CleanStarts(t);
    FlatShorter(t);
    FlatShorter(n);
    if n != [] { CleanStarts(n); }
    hide Clean;
  }

  /** A registry that was persisted with such a name. */
  lemma PersistedNameSwallows()
    ensures Names("my api", [Lane("direct", "!!!"), Lane("repo", "api")], Some(0))
    ensures Names("my api", [Lane("repo", "api")], Some(0))
  {
    var t, name := "my api", "api";
    assert OccursAt(t, name, 3);
    hide Normalize, Contains, Flat, Distance, Names;
    Overshadowed(t, Lane("direct", "!!!"), Lane("repo", name), 3);
  }

  // ------------------------------------------------------------ created names

  function Dashed(s: string): string {
    if s == [] then [] else [if IsWordChar(s[0]) then s[0] else '-'] + Dashed(s[1..])
  }

  function TrimDashes(s: string): string {
    if s != [] && s[0] == '-' then TrimDashes(s[1..])
    else if s != [] && s[|s| - 1] == '-' then TrimDashes(s[..|s| - 1])
    else s
  }

  /** The name a created lane gets; creation refuses an empty one. */
  function Slug(name: string): string {
    TrimDashes(Dashed(name))
  }

  predicate WordsAndDashes(s: string) {
    forall c :: c in s ==> IsWordChar(c) || c == '-'
  }

  lemma {:induction false} DashedChars(s: string)
    ensures WordsAndDashes(Dashed(s))
  {
    if s != [] { DashedChars(s[1..]); }
  }

  lemma {:induction false} TrimmedStarts(s: string)
    requires WordsAndDashes(s)
    ensures TrimDashes(s) != [] ==> IsWordChar(TrimDashes(s)[0])
    decreases |s|
  {
    if s != [] {
      assert s[0] in s && (forall c :: c in s[1..] ==> c in s) && (forall c :: c in s[..|s| - 1] ==> c in s);
      if s[0] == '-' {
        TrimmedStarts(s[1..]);
      } else if s[|s| - 1] == '-' {
        TrimmedStarts(s[..|s| - 1]);
      }
    }
  }

  /** So only a persisted or merged name can swallow: a created name that is accepted does not. */
  lemma CreatedNamesAreWords(name: string)
    requires Slug(name) != []
    ensures Normalize(Slug(name)) != []
  {
    DashedChars(name);
    TrimmedStarts(Dashed(name));
    EmptyIffWordless(Slug(name));
    assert Slug(name)[0] in Slug(name);
  }
}
