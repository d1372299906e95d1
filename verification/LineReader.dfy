/**
 The bounded line reader of the speech worker's output: however the byte stream is cut
 into chunks, it delivers the newline-separated lines and stops at the first over the cap.
 */
module LineReader {

  type Byte = b: int | 0 <= b < 0x100
  type Bytes = seq<Byte>

  const NEWLINE: Byte := 10

  /** Lines delivered, the unfinished rest, and whether reading may go on. */
  datatype Reading = Reading(lines: seq<Bytes>, rest: Bytes, ok: bool)

  function NewlineAt(s: Bytes): (n: nat)
    ensures n <= |s| && (n < |s| ==> s[n] == NEWLINE) && forall k :: 0 <= k < n ==> s[k] != NEWLINE
  {
    if s == [] then 0
    else if s[0] == NEWLINE then 0
    else
      var n := NewlineAt(s[1..]);
      assert forall k :: 0 < k < n + 1 ==> s[k] == s[1..][k - 1];
      n + 1
  }

  /** The lines of a stream, up to the first that is too long or that the handler refuses. */
  function Lines(s: Bytes, cap: nat, accepts: Bytes -> bool): Reading
    decreases |s|
  {
    var n := NewlineAt(s);
    if n > cap then Reading([], [], false)
    else if n == |s| then Reading([], s, true)
    else if !accepts(s[..n]) then Reading([s[..n]], [], false)
    else
      var later := Lines(s[n + 1..], cap, accepts);
      later.(lines := [s[..n]] + later.lines)
  }

  /** Lines put together again, each with the newline that ended it. */
  function Glued(lines: seq<Bytes>): Bytes {
    if lines == [] then [] else lines[0] + [10] + Glued(lines[1..])
  }

  predicate NoNewline(s: Bytes) { forall k :: 0 <= k < |s| ==> s[k] != 10 }

  /** What a reading is of the stream. Each line is without a newline and within the cap, and
      accepted unless the reading stopped at it. */
  lemma {:induction false} LinesAreLines(s: Bytes, cap: nat, accepts: Bytes -> bool)
    ensures var r := Lines(s, cap, accepts);
            && (forall line :: line in r.lines ==> NoNewline(line) && |line| <= cap)
            && (forall k :: 0 <= k < |r.lines| && (r.ok || k < |r.lines| - 1) ==> accepts(r.lines[k]))
    decreases |s|
  {
    var n := NewlineAt(s);
    if n <= cap && n < |s| && accepts(s[..n]) {
      LinesAreLines(s[n + 1..], cap, accepts);
    }
  }

  /** A reading that goes on has cut the stream at its newlines and kept the rest. */
  lemma {:induction false} LinesCutStream(s: Bytes, cap: nat, accepts: Bytes -> bool)
    requires Lines(s, cap, accepts).ok
    ensures var r := Lines(s, cap, accepts); s == Glued(r.lines) + r.rest && NoNewline(r.rest) && |r.rest| <= cap
    decreases |s|
  {
    var n := NewlineAt(s);
    if n < |s| {
      LinesCutStream(s[n + 1..], cap, accepts);
      CutOne(s, n, Lines(s[n + 1..], cap, accepts), Lines(s, cap, accepts));
    }
    hide Glued;
  }

  /** A reading that stopped has delivered the stream's first lines, up to the first that was
      refused, or to where the next one is over the cap. */
  lemma {:induction false} LinesStopAt(s: Bytes, cap: nat, accepts: Bytes -> bool)
    requires !Lines(s, cap, accepts).ok
    ensures var r := Lines(s, cap, accepts);
            && |Glued(r.lines)| <= |s| && s[..|Glued(r.lines)|] == Glued(r.lines)
            && (NewlineAt(s[|Glued(r.lines)|..]) > cap || (r.lines != [] && !accepts(r.lines[|r.lines| - 1])))
    decreases |s|
  {
    var n := NewlineAt(s);
    Unfold(s, cap, accepts);
    if n > cap {
      assert s[0..] == s;
    } else if accepts(s[..n]) {
      LinesStopAt(s[n + 1..], cap, accepts);
      CutOne(s, n, Lines(s[n + 1..], cap, accepts), Lines(s, cap, accepts));
    } else {
      RefusedLine(s, n);
    }
    hide Lines, NewlineAt, Glued;
  }

  lemma RefusedLine(s: Bytes, n: nat)
    requires n < |s| && s[n] == 10
    ensures |Glued([s[..n]])| == n + 1 && s[..n + 1] == Glued([s[..n]])
  {
    assert [s[..n]][1..] == [];
    assert Glued([s[..n]]) == s[..n] + [10] + Glued([]);
  }

  lemma CutOne(s: Bytes, n: nat, later: Reading, r: Reading)
    requires n < |s| && s[n] == 10 && r == later.(lines := [s[..n]] + later.lines)
    ensures Glued(r.lines) == s[..n] + [10] + Glued(later.lines) && |Glued(r.lines)| == n + 1 + |Glued(later.lines)|
    ensures |Glued(later.lines)| <= |s| - n - 1 ==> s[|Glued(r.lines)|..] == s[n + 1..][|Glued(later.lines)|..]
    ensures |Glued(later.lines)| <= |s| - n - 1 && s[n + 1..][..|Glued(later.lines)|] == Glued(later.lines) ==>
              s[..|Glued(r.lines)|] == Glued(r.lines)
    ensures s[n + 1..] == Glued(later.lines) + later.rest ==> s == Glued(r.lines) + later.rest
    ensures r.lines[1..] == later.lines && (later.lines != [] ==> r.lines[|r.lines| - 1] == later.lines[|later.lines| - 1])
  {
    assert r.lines[1..] == later.lines;
    assert s == s[..n] + [10] + s[n + 1..];
  }

  lemma NewlineAppend(a: Bytes, b: Bytes)
    ensures NewlineAt(a) < |a| ==> NewlineAt(a + b) == NewlineAt(a)
    ensures NewlineAt(a) == |a| ==> NewlineAt(a + b) == |a| + NewlineAt(b)
  {
    var n := NewlineAt(a + b);
    forall k | 0 <= k < |a| ensures (a + b)[k] == a[k] {}
    forall k | 0 <= k < |b| ensures (a + b)[|a| + k] == b[k] {}
  }

  /** Reading on: more bytes after what an earlier reading kept. */
  function ReadMore(r: Reading, b: Bytes, cap: nat, accepts: Bytes -> bool): Reading {
    if !r.ok then r
    else
      var later := Lines(r.rest + b, cap, accepts);
      later.(lines := r.lines + later.lines)
  }

  /** The first line of a reading. */
  lemma Unfold(s: Bytes, cap: nat, accepts: Bytes -> bool)
    ensures Lines(s, cap, accepts) ==
              var n := NewlineAt(s);
              if n > cap then Reading([], [], false)
              else if n == |s| then Reading([], s, true)
              else if !accepts(s[..n]) then Reading([s[..n]], [], false)
              else
                var later := Lines(s[n + 1..], cap, accepts);
                later.(lines := [s[..n]] + later.lines)
  {
    hide NewlineAt;
  }

  /** Reading on from what one part left is reading both parts at once. */
  lemma {:induction false} ReadOn(a: Bytes, b: Bytes, cap: nat, accepts: Bytes -> bool)
    ensures Lines(a + b, cap, accepts) == ReadMore(Lines(a, cap, accepts), b, cap, accepts)
    decreases |a|
  {
    hide Lines, NewlineAt;
    var n := NewlineAt(a);
    NewlineAppend(a, b);
    Unfold(a, cap, accepts);
    Unfold(a + b, cap, accepts);
    if n <= cap && n < |a| {
      assert (a + b)[..n] == a[..n] && (a + b)[n + 1..] == a[n + 1..] + b;
      if accepts(a[..n]) {
        ReadOn(a[n + 1..], b, cap, accepts);
        var inner := Lines(a[n + 1..], cap, accepts);
        assert [a[..n]] + (inner.lines + Lines(inner.rest + b, cap, accepts).lines)
            == ([a[..n]] + inner.lines) + Lines(inner.rest + b, cap, accepts).lines;
      }
    }
  }

  function Flatten(parts: seq<Bytes>): Bytes {
    if parts == [] then [] else Flatten(parts[..|parts| - 1]) + parts[|parts| - 1]
  }

  class BoundedNdjsonReader {
    var parts: seq<Bytes>
    var length: nat
    const maxLineBytes: nat

    ghost predicate Valid()
      reads this
    {
      length == |Flatten(parts)| <= maxLineBytes && NewlineAt(Flatten(parts)) == length
    }

    constructor (cap: nat)
      ensures Valid() && parts == [] && maxLineBytes == cap && fresh(this)
    {
      parts, length, maxLineBytes := [], 0, cap;
    }

    method Append(part: Bytes) returns (ok: bool)
      requires Valid() && NewlineAt(part) == |part|
      modifies this
      ensures ok <==> |old(Flatten(parts))| + |part| <= maxLineBytes
      ensures Flatten(parts) == if ok then old(Flatten(parts)) + part else old(Flatten(parts))
      ensures Valid()
    {
      if |part| > maxLineBytes - length { return false; }
      NewlineAppend(Flatten(parts), part);
      if |part| > 0 { parts := parts + [part]; }
      length := length + |part|;
      return true;
    }

    /** Take one chunk: deliver what `Lines` says of the kept rest followed by the chunk. */
    method Push(chunk: Bytes, accepts: Bytes -> bool) returns (delivered: seq<Bytes>, ok: bool)
      requires Valid()
      modifies this
      ensures Valid()
      ensures var r := Lines(old(Flatten(parts)) + chunk, maxLineBytes, accepts);
              delivered == r.lines && ok == r.ok && (ok ==> Flatten(parts) == r.rest)
    {
      hide Lines, Flatten;
      delivered := [];
      ghost var whole := Flatten(parts) + chunk;
      var start := 0;
      assert chunk[0..] == chunk;
      while start < |chunk|
        invariant 0 <= start <= |chunk| && Valid()
        invariant var r := Lines(Flatten(parts) + chunk[start..], maxLineBytes, accepts);
                  Lines(whole, maxLineBytes, accepts) == r.(lines := delivered + r.lines)
      {
        var newline := start + NewlineAt(chunk[start..]);
        ghost var kept, later := Flatten(parts), chunk[start..];
        LineStep(kept, later, maxLineBytes, accepts);
        assert chunk[start..newline] == later[..NewlineAt(later)];
        NewlineOfPrefix(later);
        var fits := Append(chunk[start..newline]);
        if !fits { return delivered, false; }
        if newline == |chunk| {
          assert kept + later == Flatten(parts);
          return delivered, true;
        }
        var line := Flatten(parts);
        parts, length := [], 0;
        EmptyParts();
        delivered := delivered + [line];
        if !accepts(line) { return delivered, false; }
        start := newline + 1;
        assert chunk[start..] == later[NewlineAt(later) + 1..];
        assert Flatten(parts) + chunk[start..] == chunk[start..];
      }
      assert Flatten(parts) + chunk[start..] == Flatten(parts);
      NothingMore(Flatten(parts), maxLineBytes, accepts);
      ok := true;
    }
  }

  lemma EmptyParts()
    ensures Flatten([]) == [] && NewlineAt([]) == 0
  {}

  lemma NewlineOfPrefix(s: Bytes)
    ensures NewlineAt(s[..NewlineAt(s)]) == NewlineAt(s)
  {}

  lemma NothingMore(rest: Bytes, cap: nat, accepts: Bytes -> bool)
    requires NewlineAt(rest) == |rest| <= cap
    ensures Lines(rest, cap, accepts) == Reading([], rest, true)
  {}

  /** One line of the loop: the kept part, which holds no newline, completed from the chunk. */
  lemma LineStep(kept: Bytes, later: Bytes, cap: nat, accepts: Bytes -> bool)
    requires NewlineAt(kept) == |kept|
    ensures var n := NewlineAt(later);
            var r := Lines(kept + later, cap, accepts);
            && (|kept| + n > cap ==> r == Reading([], [], false))
            && (|kept| + n <= cap && n == |later| ==> r == Reading([], kept + later, true))
            && (|kept| + n <= cap && n < |later| && !accepts(kept + later[..n]) ==> r == Reading([kept + later[..n]], [], false))
            && (|kept| + n <= cap && n < |later| && accepts(kept + later[..n]) ==>
                  var more := Lines(later[n + 1..], cap, accepts); r == more.(lines := [kept + later[..n]] + more.lines))
  {
    hide Lines, NewlineAt;
    var n := NewlineAt(later);
    NewlineAppend(kept, later);
    Unfold(kept + later, cap, accepts);
    if n < |later| {
      assert (kept + later)[..|kept| + n] == kept + later[..n];
      assert (kept + later)[|kept| + n + 1..] == later[n + 1..];
    }
  }

  function Joined(chunks: seq<Bytes>): Bytes {
    if chunks == [] then [] else Joined(chunks[..|chunks| - 1]) + chunks[|chunks| - 1]
  }

  lemma {:induction false} JoinedPrefix(chunks: seq<Bytes>, k: nat)
    requires k <= |chunks|
    ensures exists more :: Joined(chunks) == Joined(chunks[..k]) + more
    decreases |chunks| - k
  {
    if k == |chunks| {
      assert chunks[..k] == chunks;
      assert Joined(chunks) == Joined(chunks[..k]) + [];
    } else {
      JoinedPrefix(chunks, k + 1);
      var more :| Joined(chunks) == Joined(chunks[..k + 1]) + more;
      assert chunks[..k + 1][..k] == chunks[..k];
      assert Joined(chunks) == Joined(chunks[..k]) + (chunks[k] + more);
    }
  }

  /** Chunk independence: for every way to cut a stream, the lines delivered are those of the whole stream. */
  method ReadAll(chunks: seq<Bytes>, cap: nat, accepts: Bytes -> bool) returns (delivered: seq<Bytes>, ok: bool)
    ensures delivered == Lines(Joined(chunks), cap, accepts).lines
    ensures ok == Lines(Joined(chunks), cap, accepts).ok
  {
    var reader := new BoundedNdjsonReader(cap);
    delivered := [];
    var k := 0;
    NothingMore([], cap, accepts);
    while k < |chunks|
      invariant 0 <= k <= |chunks| && fresh(reader) && reader.Valid() && reader.maxLineBytes == cap
      invariant Lines(Joined(chunks[..k]), cap, accepts) == Reading(delivered, Flatten(reader.parts), true)
    {
      hide Lines, Flatten;
      assert chunks[..k + 1][..k] == chunks[..k];
      ReadOn(Joined(chunks[..k]), chunks[k], cap, accepts);
      var lines, go := reader.Push(chunks[k], accepts);
      delivered := delivered + lines;
      if !go {
        JoinedPrefix(chunks, k + 1);
        var more :| Joined(chunks) == Joined(chunks[..k + 1]) + more;
        ReadOn(Joined(chunks[..k + 1]), more, cap, accepts);
        return delivered, false;
      }
      k := k + 1;
    }
    assert chunks[..k] == chunks;
    ok := true;
  }
}
