/**
 The normalisation of spoken text: a pipeline of replacements in the bridge, a single
 pass in the daemon. Text is already lowercased.
 */
module Normalization {
  predicate IsWordChar(c: char) {
    'a' <= c <= 'z' || '0' <= c <= '9'
  }

  /** The daemon's test also admits capital letters, which lowercased text does not have. */
  predicate IsAsciiAlphanumeric(c: char) {
    IsWordChar(c) || 'A' <= c <= 'Z'
  }

  predicate Lowercased(s: string) {
    forall c :: c in s ==> !('A' <= c <= 'Z')
  }

  function TrimStart(s: string): string {
    if s != [] && s[0] == ' ' then TrimStart(s[1..]) else s
  }

  function TrimEnd(s: string): string {
    if s != [] && s[|s| - 1] == ' ' then TrimEnd(s[..|s| - 1]) else s
  }

  function SkipRun(s: string, spaces: bool): string {
    if s != [] && (if spaces then s[0] == ' ' else !IsWordChar(s[0]) && s[0] != ' ') then SkipRun(s[1..], spaces) else s
  }

  lemma SkipShorter(s: string, spaces: bool)
    ensures |SkipRun(s, spaces)| <= |s|
  {}

  /** Every run of other characters becomes one space. */
  function ReplaceRuns(s: string): string
    decreases |s|
  {
    if s == [] then []
    else if IsWordChar(s[0]) || s[0] == ' ' then [s[0]] + ReplaceRuns(s[1..])
    else SkipShorter(s[1..], false); [' '] + ReplaceRuns(SkipRun(s[1..], false))
  }

  /** Every run of spaces becomes one. */
  function CollapseSpaces(s: string): string
    decreases |s|
  {
    if s == [] then []
    else if s[0] != ' ' then [s[0]] + CollapseSpaces(s[1..])
    else SkipShorter(s[1..], true); [' '] + CollapseSpaces(SkipRun(s[1..], true))
  }

  /** The bridge's pipeline: replace, collapse, trim. */
  function Normalize(s: string): string {
    TrimEnd(TrimStart(CollapseSpaces(ReplaceRuns(s))))
  }

  /** What the daemon's pass still appends, after a space or not. */
  function Rest(s: string, lastSpace: bool): string {
    if s == [] then []
    else if IsWordChar(s[0]) then [s[0]] + Rest(s[1..], false)
    else if lastSpace then Rest(s[1..], true)
    else [' '] + Rest(s[1..], true)
  }

  lemma {:induction false} RestSkips(s: string, spaces: bool)
    ensures Rest(SkipRun(s, spaces), true) == Rest(s, true)
  {
    if s != [] && SkipRun(s, spaces) != s { RestSkips(s[1..], spaces); }
  }

  lemma {:induction false} CollapsedIsRest(s: string)
    requires Simple(s)
    ensures CollapseSpaces(s) == Rest(s, false)
    decreases |s|
  {
    if s != [] {
      if s[0] != ' ' {
        CollapsedIsRest(s[1..]);
      } else {
        SkipShorter(s[1..], true);
        SkipSuffix(s[1..]);
        CollapsedIsRest(SkipRun(s[1..], true));
        RestSkips(s[1..], true);
        NoSpaceAhead(SkipRun(s[1..], true));
      }
    }
  }

  /** Only word characters and spaces. */
  predicate Simple(s: string) {
    forall c :: c in s ==> IsWordChar(c) || c == ' '
  }

  lemma {:induction false} SkipSuffix(s: string)
    ensures forall c :: c in SkipRun(s, true) ==> c in s
    ensures SkipRun(s, true) != [] ==> SkipRun(s, true)[0] != ' '
  {
    if s != [] && s[0] == ' ' { SkipSuffix(s[1..]); }
  }

  /** Before a word it does not matter whether a space was just written. */
  lemma NoSpaceAhead(s: string)
    requires s == [] || IsWordChar(s[0])
    ensures Rest(s, true) == Rest(s, false)
  {}

  lemma {:induction false} ReplacedIsSimple(s: string)
    ensures Simple(ReplaceRuns(s))
    decreases |s|
  {
    if s != [] {
      if IsWordChar(s[0]) || s[0] == ' ' {
        ReplacedIsSimple(s[1..]);
      } else {
        SkipShorter(s[1..], false);
        ReplacedIsSimple(SkipRun(s[1..], false));
      }
    }
  }

  /** Replacing a run by one space leaves what the pass appends unchanged. */
  lemma {:induction false} ReplacedRest(s: string, lastSpace: bool)
    ensures Rest(ReplaceRuns(s), lastSpace) == Rest(s, lastSpace)
    decreases |s|
  {
    if s != [] {
      if IsWordChar(s[0]) || s[0] == ' ' {
        ReplacedRest(s[1..], !IsWordChar(s[0]));
        assert ReplaceRuns(s)[1..] == ReplaceRuns(s[1..]);
      } else {
        var rest := SkipRun(s[1..], false);
        SkipShorter(s[1..], false);
        ReplacedRest(rest, true);
        RestSkips(s[1..], false);
        assert ReplaceRuns(s)[1..] == ReplaceRuns(rest);
      }
    }
  }

  /** No two spaces in a row. */
  predicate SingleSpaced(s: string) {
    forall k :: 0 < k < |s| ==> s[k - 1] != ' ' || s[k] != ' '
  }

  lemma {:induction false} RestIsSingleSpaced(s: string, lastSpace: bool)
    ensures SingleSpaced(Rest(s, lastSpace)) && Simple(Rest(s, lastSpace))
    ensures lastSpace && Rest(s, lastSpace) != [] ==> Rest(s, lastSpace)[0] != ' '
  {
    if s != [] {
      if IsWordChar(s[0]) {
        RestIsSingleSpaced(s[1..], false);
      } else {
        RestIsSingleSpaced(s[1..], true);
      }
    }
  }

  /** Dropping the leading space of the collapsed text is starting the pass after a space. */
  lemma {:induction false} LeadingSpace(s: string)
    ensures TrimStart(Rest(s, false)) == Rest(s, true)
  {
    RestIsSingleSpaced(s, true);
    if s != [] && !IsWordChar(s[0]) {
      RestIsSingleSpaced(s[1..], true);
      assert Rest(s, false)[1..] == Rest(s[1..], true);
    }
  }

  lemma NormalizeIsRest(s: string)
    ensures Normalize(s) == TrimEnd(Rest(s, true))
  {
    ReplacedIsSimple(s);
    CollapsedIsRest(ReplaceRuns(s));
    ReplacedRest(s, false);
    LeadingSpace(s);
  }

  lemma RestExtend(s: string, k: nat, lastSpace: bool)
    requires k < |s|
    ensures Rest(s[k..], lastSpace) == if IsWordChar(s[k]) then [s[k]] + Rest(s[k + 1..], false)
                                       else (if lastSpace then [] else [' ']) + Rest(s[k + 1..], true)
  {}

  lemma {:induction false} TrimEndStart(s: string)
    requires s == [] || s[0] != ' '
    ensures TrimStart(TrimEnd(s)) == TrimEnd(s)
    ensures TrimEnd(s) != [] ==> TrimEnd(s)[0] == s[0]
  {
    if s != [] && s[|s| - 1] == ' ' { TrimEndStart(s[..|s| - 1]); }
  }

  /** The daemon's single pass computes the bridge's pipeline. */
  method NormalizeOnePass(s: string) returns (r: string)
    requires Lowercased(s)
    ensures r == Normalize(s)
  {
    var out := "";
    var lastSpace := true;
    var k := 0;
    while k < |s|
      invariant 0 <= k <= |s|
      invariant out + Rest(s[k..], lastSpace) == Rest(s, true)
    {
      var c := s[k];
      assert c in s;
      RestExtend(s, k, lastSpace);
      if IsAsciiAlphanumeric(c) {
        out := out + [c];
        lastSpace := false;
      } else if !lastSpace {
        out := out + [' '];
        lastSpace := true;
      }
      k := k + 1;
    }
    assert out == Rest(s, true);
    NormalizeIsRest(s);
    RestIsSingleSpaced(s, true);
    TrimEndStart(out);
    r := TrimEnd(TrimStart(out));
  }

  /** Words separated by single spaces, no space at either end. */
  predicate Clean(s: string) {
    Simple(s) && SingleSpaced(s) && (s != [] ==> s[0] != ' ' && s[|s| - 1] != ' ')
  }

  lemma TrimEndCleans(s: string)
    requires Simple(s) && SingleSpaced(s) && (s == [] || s[0] != ' ')
    ensures Clean(TrimEnd(s))
  {}

  lemma {:induction false} RestOfClean(s: string, lastSpace: bool)
    requires Simple(s) && SingleSpaced(s) && (s != [] && lastSpace ==> s[0] != ' ')
    ensures Rest(s, lastSpace) == s
  {
    if s != [] {
      assert forall c :: c in s[1..] ==> c in s;
      forall k | 0 < k < |s[1..]| ensures s[1..][k - 1] != ' ' || s[1..][k] != ' ' { assert s[k + 1 - 1] != ' ' || s[k + 1] != ' '; }
      assert s[0] in s;
      RestOfClean(s[1..], s[0] == ' ');
    }
  }

  /** Normalised text is clean, and normalising it again changes nothing. */
  lemma NormalizeIdempotent(s: string)
    ensures Clean(Normalize(s)) && Normalize(Normalize(s)) == Normalize(s)
  {
    NormalizeIsRest(s);
    RestIsSingleSpaced(s, true);
    TrimEndCleans(Rest(s, true));
    NormalizeIsRest(Normalize(s));
    RestOfClean(Normalize(s), true);
  }

  lemma CleanStays(s: string)
    requires Clean(s)
    ensures Normalize(s) == s
  {
    NormalizeIsRest(s);
    RestOfClean(s, true);
  }

  /** No letter and no digit. */
  predicate Wordless(s: string) {
    forall c :: c in s ==> !IsWordChar(c)
  }

  lemma {:induction false} RestOfWordless(s: string)
    ensures Rest(s, true) == [] <==> Wordless(s)
  {
    if s != [] {
      assert s[0] in s && forall c :: c in s ==> c == s[0] || c in s[1..];
      RestOfWordless(s[1..]);
    }
  }

  lemma {:induction false} TrimEndKeepsWord(s: string)
    requires s != [] && s[0] != ' '
    ensures TrimEnd(s) != []
  {
    if s[|s| - 1] == ' ' { TrimEndKeepsWord(s[..|s| - 1]); }
  }

  /** A text normalises to nothing exactly when it has no letter and no digit. */
  lemma EmptyIffWordless(s: string)
    ensures Normalize(s) == [] <==> Wordless(s)
  {
    NormalizeIsRest(s);
    RestOfWordless(s);
    RestIsSingleSpaced(s, true);
    if Rest(s, true) != [] { TrimEndKeepsWord(Rest(s, true)); }
  }

  // ------------------------------------------------------------------- words

  /** The words of a text after the beginning of one: its longest runs of letters and digits. */
  function WordsFrom(word: string, s: string): seq<string>
    decreases |s|
  {
    if s != [] && IsWordChar(s[0]) then WordsFrom(word + [s[0]], s[1..])
    else (if word == [] then [] else [word]) + (if s == [] then [] else WordsFrom([], s[1..]))
  }

  function Words(s: string): seq<string> {
    WordsFrom([], s)
  }

  lemma {:induction false} RestHasWords(word: string, s: string, lastSpace: bool)
    requires lastSpace ==> word == []
    ensures WordsFrom(word, Rest(s, lastSpace)) == WordsFrom(word, s)
    decreases |s|
  {
    if s != [] {
      var rest := Rest(s, lastSpace);
      if IsWordChar(s[0]) {
        RestHasWords(word + [s[0]], s[1..], false);
        assert rest[0] == s[0] && rest[1..] == Rest(s[1..], false);
      } else if lastSpace {
        RestHasWords([], s[1..], true);
        assert WordsFrom(word, s) == [] + WordsFrom([], s[1..]);
      } else {
        RestHasWords([], s[1..], true);
        assert rest[0] == ' ' && rest[1..] == Rest(s[1..], true);
      }
    }
  }

  lemma {:induction false} SpaceEndsWords(word: string, s: string)
    ensures WordsFrom(word, s + [' ']) == WordsFrom(word, s)
    decreases |s|
  {
    var t := s + [' '];
    if s == [] {
      assert t[1..] == [] && WordsFrom([], []) == [];
    } else {
      assert t[1..] == s[1..] + [' '] && t[0] == s[0];
      SpaceEndsWords(if IsWordChar(s[0]) then word + [s[0]] else [], s[1..]);
    }
  }

  lemma {:induction false} TrimEndHasWords(s: string)
    ensures Words(TrimEnd(s)) == Words(s)
  {
    if s != [] && s[|s| - 1] == ' ' {
      TrimEndHasWords(s[..|s| - 1]);
      SpaceEndsWords([], s[..|s| - 1]);
      assert s == s[..|s| - 1] + [' '];
    }
  }

  /** Normalised text has the words of the text, in order, and only single spaces between them. */
  lemma NormalizeKeepsWords(s: string)
    ensures Words(Normalize(s)) == Words(s) && Clean(Normalize(s))
  {
    NormalizeIsRest(s);
    RestHasWords([], s, true);
    TrimEndHasWords(Rest(s, true));
    NormalizeIdempotent(s);
  }
}
