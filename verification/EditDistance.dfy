/**
 Edit distance: the recursive definition, the one-row in-place loop of both daemons,
 and the proof that it is a metric.
 */
module EditDistance {

  function Min(a: nat, b: nat): nat { if a <= b then a else b }

  function Cost(a: char, b: char): nat { if a == b then 0 else 1 }

  /** The fewest insertions, deletions and substitutions that turn `a` into `b`. */
  function Distance(a: string, b: string): nat
    decreases |a| + |b|
  {
    if a == [] then |b|
    else if b == [] then |a|
    else
      var m, n := |a| - 1, |b| - 1;
      Min(Min(Distance(a[..m], b) + 1, Distance(a, b[..n]) + 1), Distance(a[..m], b[..n]) + Cost(a[m], b[n]))
  }

  /** The distance between two prefixes: one entry of the table. */
  function Entry(a: string, b: string, i: nat, j: nat): nat
    requires i <= |a| && j <= |b|
  {
    Distance(a[..i], b[..j])
  }

  lemma EntryStep(a: string, b: string, i: nat, j: nat)
    requires 0 < i <= |a| && 0 < j <= |b|
    ensures Entry(a, b, i, j)
         == Min(Min(Entry(a, b, i - 1, j) + 1, Entry(a, b, i, j - 1) + 1), Entry(a, b, i - 1, j - 1) + Cost(a[i - 1], b[j - 1]))
  {
    var p, q := a[..i], b[..j];
    assert p[..i - 1] == a[..i - 1] && q[..j - 1] == b[..j - 1];
    assert |p| == i && |q| == j && p[i - 1] == a[i - 1] && q[j - 1] == b[j - 1];
  }

  lemma EntryEdges(a: string, b: string)
    ensures forall k :: 0 <= k <= |b| ==> Entry(a, b, 0, k) == k
    ensures forall k :: 0 <= k <= |a| ==> Entry(a, b, k, 0) == k
    ensures Entry(a, b, |a|, |b|) == Distance(a, b)
  {
    assert a[..|a|] == a && b[..|b|] == b;
    forall k | 0 <= k <= |b| ensures Entry(a, b, 0, k) == k { assert a[..0] == []; }
    forall k | 0 <= k <= |a| ensures Entry(a, b, k, 0) == k { assert b[..0] == []; }
  }

  /** The row is rewritten in place: entries before `j` already belong to row `i`. */
  method Levenshtein(a: string, b: string) returns (d: nat)
    ensures d == Distance(a, b)
  {
    hide Entry, Distance;
    EntryEdges(a, b);
    var dp := new nat[|b| + 1](k => k);
    var i := 1;
    while i <= |a|
      invariant 1 <= i <= |a| + 1
      invariant forall k :: 0 <= k <= |b| ==> dp[k] == Entry(a, b, i - 1, k)
    {
      var prev := dp[0];
      dp[0] := i;
      var j := 1;
      while j <= |b|
        invariant 1 <= j <= |b| + 1
        invariant prev == Entry(a, b, i - 1, j - 1)
        invariant forall k :: 0 <= k < j ==> dp[k] == Entry(a, b, i, k)
        invariant forall k :: j <= k <= |b| ==> dp[k] == Entry(a, b, i - 1, k)
      {
        var tmp := dp[j];
        EntryStep(a, b, i, j);
        dp[j] := Min(Min(dp[j] + 1, dp[j - 1] + 1), prev + (if a[i - 1] == b[j - 1] then 0 else 1));
        prev := tmp;
        j := j + 1;
      }
      i := i + 1;
    }
    return dp[|b|];
  }

  // -------------------------------------------------------------- the metric

  lemma {:induction false} LengthBounds(a: string, b: string)
    ensures Distance(a, b) <= |a| + |b|
    ensures |b| <= |a| + Distance(a, b) && |a| <= |b| + Distance(a, b)
    decreases |a| + |b|
  {
    if a != [] && b != [] {
      LengthBounds(a[..|a| - 1], b);
      LengthBounds(a, b[..|b| - 1]);
      LengthBounds(a[..|a| - 1], b[..|b| - 1]);
    }
  }

  lemma {:induction false} Symmetric(a: string, b: string)
    ensures Distance(a, b) == Distance(b, a)
    decreases |a| + |b|
  {
    if a != [] && b != [] {
      Symmetric(a[..|a| - 1], b);
      Symmetric(a, b[..|b| - 1]);
      Symmetric(a[..|a| - 1], b[..|b| - 1]);
    }
  }

  /** Only equal texts are at distance zero. */
  lemma {:induction false} ZeroOnlyIfEqual(a: string, b: string)
    ensures Distance(a, b) == 0 <==> a == b
    decreases |a| + |b|
  {
    if a != [] && b != [] {
      var m, n := |a| - 1, |b| - 1;
      ZeroOnlyIfEqual(a[..m], b[..n]);
      assert a == a[..m] + [a[m]] && b == b[..n] + [b[n]];
    }
  }

  /** Going through `b` is never shorter. */
  lemma {:induction false} Triangle(a: string, b: string, c: string)
    ensures Distance(a, c) <= Distance(a, b) + Distance(b, c)
    decreases |a| + |b| + |c|
  {
    LengthBounds(a, c);
    LengthBounds(a, b);
    LengthBounds(b, c);
    if a != [] && b != [] && c != [] {
      var a', b', c' := a[..|a| - 1], b[..|b| - 1], c[..|c| - 1];
      Triangle(a', b, c);
      Triangle(a, b, c');
      Triangle(a, b', c);
      Triangle(a, b', c');
      Triangle(a', b', c);
      Triangle(a', b', c');
    }
  }

  /** Texts are at least as far apart as their lengths. */
  lemma {:induction false} LengthsApart(a: string, b: string)
    ensures Distance(a, b) + |b| >= |a|
    decreases |a| + |b|
  {
    if a != [] && b != [] {
      var m, n := |a| - 1, |b| - 1;
      LengthsApart(a[..m], b);
      LengthsApart(a, b[..n]);
      LengthsApart(a[..m], b[..n]);
    }
  }

  // ------------------------------------------------------- the fewest edits

  /** One edit of a text: put a character in, take one out, or replace one. */
  datatype Edit = Insert(i: nat, c: char) | Delete(i: nat) | Substitute(i: nat, c: char)

  predicate Applies(a: string, e: Edit) {
    if e.Insert? then e.i <= |a| else e.i < |a|
  }

  function Apply(a: string, e: Edit): string
    requires Applies(a, e)
  {
    match e
    case Insert(i, c) => a[..i] + [c] + a[i..]
    case Delete(i) => a[..i] + a[i + 1..]
    case Substitute(i, c) => a[..i] + [c] + a[i + 1..]
  }

  /** These edits, one after another, turn `a` into `b`. */
  predicate Turns(a: string, edits: seq<Edit>, b: string)
    decreases |edits|
  {
    if edits == [] then a == b else Applies(a, edits[0]) && Turns(Apply(a, edits[0]), edits[1..], b)
  }

  /** A common end or a common beginning adds nothing. */
  lemma SameLast(a: string, b: string, c: char)
    ensures Distance(a + [c], b + [c]) <= Distance(a, b)
  {
    assert (a + [c])[..|a|] == a && (b + [c])[..|b|] == b;
  }

  lemma {:induction false} SameEnd(a: string, b: string, s: string)
    ensures Distance(a + s, b + s) <= Distance(a, b)
    decreases |s|
  {
    hide Distance;
    if s == [] {
      assert a + s == a && b + s == b;
    } else {
      var n := |s| - 1;
      SameEnd(a, b, s[..n]);
      SameLast(a + s[..n], b + s[..n], s[n]);
      LastOf(a, s);
      LastOf(b, s);
    }
  }

  lemma LastOf(a: string, s: string)
    requires s != []
    ensures a + s == a + s[..|s| - 1] + [s[|s| - 1]]
  {}

  lemma {:induction false} SameStart(p: string, a: string, b: string)
    requires |a| <= 1 && |b| <= 1
    ensures Distance(p + a, p + b) <= 1
  {
    ZeroOnlyIfEqual(p, p);
    var x, y := p + a, p + b;
    if a == [] && b == [] {
      assert x == p && y == p;
    } else if a == [] {
      assert x == p && y[..|p|] == p;
      if p != [] { assert Distance(x, y) <= Distance(x, y[..|p|]) + 1; }
    } else if b == [] {
      assert y == p && x[..|p|] == p;
      if p != [] { assert Distance(x, y) <= Distance(x[..|p|], y) + 1; }
    } else {
      assert x[..|p|] == p && y[..|p|] == p;
    }
  }

  /** One edit moves a text by at most one. */
  lemma OneEdit(a: string, e: Edit)
    requires Applies(a, e)
    ensures Distance(a, Apply(a, e)) <= 1
  {
    var p := a[..e.i];
    var was := if e.Insert? then [] else [a[e.i]];
    var now := if e.Delete? then [] else [e.c];
    var s := if e.Insert? then a[e.i..] else a[e.i + 1..];
    assert a == p + was + s && Apply(a, e) == p + now + s;
    SameStart(p, was, now);
    SameEnd(p + was, p + now, s);
  }

  lemma {:induction false} NoFewerEdits(a: string, edits: seq<Edit>, b: string)
    requires Turns(a, edits, b)
    ensures Distance(a, b) <= |edits|
    decreases |edits|
  {
    ZeroOnlyIfEqual(a, b);
    if edits != [] {
      var a' := Apply(a, edits[0]);
      OneEdit(a, edits[0]);
      NoFewerEdits(a', edits[1..], b);
      Triangle(a, a', b);
    }
  }

  /** Edits of a text also edit it with something behind it. */
  lemma {:induction false} TurnsBefore(a: string, edits: seq<Edit>, b: string, s: string)
    requires Turns(a, edits, b)
    ensures Turns(a + s, edits, b + s)
    decreases |edits|
  {
    if edits != [] {
      var e := edits[0];
      AppliesBefore(a, e, s);
      TurnsBefore(Apply(a, e), edits[1..], b, s);
    }
    hide Apply, Applies;
  }

  lemma AppliesBefore(a: string, e: Edit, s: string)
    requires Applies(a, e)
    ensures Applies(a + s, e) && Apply(a + s, e) == Apply(a, e) + s
  {
    assert (a + s)[..e.i] == a[..e.i];
    if e.Insert? {
      assert (a + s)[e.i..] == a[e.i..] + s;
    } else {
      assert (a + s)[e.i + 1..] == a[e.i + 1..] + s;
    }
  }

  lemma {:induction false} TurnsThen(a: string, edits: seq<Edit>, b: string, e: Edit)
    requires Turns(a, edits, b) && Applies(b, e)
    ensures Turns(a, edits + [e], Apply(b, e))
    decreases |edits|
  {
    if edits == [] {
      assert [e][1..] == [];
    } else {
      TurnsThen(Apply(a, edits[0]), edits[1..], b, e);
      assert (edits + [e])[1..] == edits[1..] + [e];
    }
  }

  /** As many edits as the distance are enough. */
  lemma {:induction false} EnoughEdits(a: string, b: string) returns (edits: seq<Edit>)
    ensures |edits| == Distance(a, b) && Turns(a, edits, b)
    decreases |a| + |b|
  {
    if a == [] && b == [] { return []; }
    var m, n := |a| - 1, |b| - 1;
    if b != [] && (a == [] || Distance(a, b) == Distance(a, b[..n]) + 1) {
      edits := EnoughEdits(a, b[..n]);
      InsertLast(a, edits, b);
      edits := edits + [Insert(n, b[n])];
    } else if a != [] && (b == [] || Distance(a, b) == Distance(a[..m], b) + 1) {
      edits := EnoughEdits(a[..m], b);
      DeleteLast(a, edits, b);
      edits := [Delete(m)] + edits;
    } else {
      assert Distance(a, b) == Distance(a[..m], b[..n]) + Cost(a[m], b[n]);
      edits := EnoughEdits(a[..m], b[..n]);
      SubstituteLast(a, edits, b);
      edits := edits + if a[m] == b[n] then [] else [Substitute(n, b[n])];
    }
    hide Turns;
  }

  lemma InsertLast(a: string, edits: seq<Edit>, b: string)
    requires b != [] && Turns(a, edits, b[..|b| - 1])
    ensures Turns(a, edits + [Insert(|b| - 1, b[|b| - 1])], b)
  {
    var n := |b| - 1;
    TurnsThen(a, edits, b[..n], Insert(n, b[n]));
    assert Apply(b[..n], Insert(n, b[n])) == b;
    hide Turns;
  }

  lemma DeleteLast(a: string, edits: seq<Edit>, b: string)
    requires a != [] && Turns(a[..|a| - 1], edits, b)
    ensures Turns(a, [Delete(|a| - 1)] + edits, b)
  {
    assert Apply(a, Delete(|a| - 1)) == a[..|a| - 1];
    assert ([Delete(|a| - 1)] + edits)[1..] == edits;
  }

  lemma SubstituteLast(a: string, edits: seq<Edit>, b: string)
    requires a != [] && b != [] && Turns(a[..|a| - 1], edits, b[..|b| - 1])
    ensures var m, n := |a| - 1, |b| - 1;
            Turns(a, edits + if a[m] == b[n] then [] else [Substitute(n, b[n])], b)
  {
    hide Turns;
    var m, n := |a| - 1, |b| - 1;
    TurnsBefore(a[..m], edits, b[..n], [a[m]]);
    assert a == a[..m] + [a[m]] && b == b[..n] + [b[n]];
    if a[m] == b[n] {
      assert edits + [] == edits;
    } else {
      ReplacesLast(b[..n], a[m], b[n]);
      TurnsThen(a, edits, b[..n] + [a[m]], Substitute(n, b[n]));
    }
  }

  lemma ReplacesLast(p: string, c: char, d: char)
    ensures Applies(p + [c], Substitute(|p|, d)) && Apply(p + [c], Substitute(|p|, d)) == p + [d]
  {}

  /** The distance is the length of a shortest sequence of edits that turns one into the other. */
  lemma FewestEdits(a: string, b: string)
    ensures exists edits :: Turns(a, edits, b) && |edits| == Distance(a, b)
    ensures forall edits :: Turns(a, edits, b) ==> |edits| >= Distance(a, b)
  {
    var edits := EnoughEdits(a, b);
    forall more | Turns(a, more, b) ensures |more| >= Distance(a, b) {
      NoFewerEdits(a, more, b);
    }
  }
}
