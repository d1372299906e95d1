/**
 Byte accounting of reply text. Text is a sequence of UTF-16 code units, as both
 JavaScript and Kotlin hold it; the reference is the UTF-8 encoding of its scalar
 values (section 3 of RFC 3629), an unpaired surrogate standing for U+FFFD.
 */
module ReplyText {

  type Unit = u: int | 0 <= u < 0x1_0000
  type Text = seq<Unit>
  type Scalar = c: int | 0 <= c < 0x11_0000
  type Byte = b: int | 0 <= b < 0x100

  const REPLACEMENT: Scalar := 0xFFFD
  const MAX_REPLY_TEXT_BYTES := 512 * 1024
  const CHUNK := 80

  predicate IsHigh(u: Unit) { 0xD800 <= u <= 0xDBFF }
  predicate IsLow(u: Unit) { 0xDC00 <= u <= 0xDFFF }

  // -------------------------------------------------------- the reference

  predicate StartsPair(text: Text) {
    |text| >= 2 && IsHigh(text[0]) && IsLow(text[1])
  }

  /** The scalar values of a text, unpaired surrogates replaced. */
  function Scalars(text: Text): seq<Scalar> {
    if text == [] then []
    else if StartsPair(text) then
      [0x1_0000 + (text[0] - 0xD800) * 0x400 + (text[1] - 0xDC00)] + Scalars(text[2..])
    else [if IsHigh(text[0]) || IsLow(text[0]) then REPLACEMENT else text[0]] + Scalars(text[1..])
  }

  /** One scalar value in UTF-8. */
  function Encode(c: Scalar): (bytes: seq<Byte>)
    ensures 1 <= |bytes| <= 4
  {
    if c < 0x80 then [c]
    else if c < 0x800 then [0xC0 + c / 0x40, 0x80 + c % 0x40]
    else if c < 0x1_0000 then [0xE0 + c / 0x1000, 0x80 + c / 0x40 % 0x40, 0x80 + c % 0x40]
    else [0xF0 + c / 0x4_0000, 0x80 + c / 0x1000 % 0x40, 0x80 + c / 0x40 % 0x40, 0x80 + c % 0x40]
  }

  function EncodeAll(scalars: seq<Scalar>): seq<Byte> {
    if scalars == [] then [] else Encode(scalars[0]) + EncodeAll(scalars[1..])
  }

  function Utf8(text: Text): seq<Byte> {
    EncodeAll(Scalars(text))
  }

  predicate Fits(text: Text) {
    |Utf8(text)| <= MAX_REPLY_TEXT_BYTES
  }

  // -------------------------------------------------- counting by code unit

  /** What the first code unit, or pair, of a text adds to its encoding. */
  lemma Utf8Step(text: Text)
    requires text != []
    ensures StartsPair(text) ==> |Utf8(text)| == 4 + |Utf8(text[2..])|
    ensures !StartsPair(text) && text[0] <= 0x7F ==> |Utf8(text)| == 1 + |Utf8(text[1..])|
    ensures !StartsPair(text) && 0x7F < text[0] <= 0x7FF ==> |Utf8(text)| == 2 + |Utf8(text[1..])|
    ensures !StartsPair(text) && 0x7FF < text[0] ==> |Utf8(text)| == 3 + |Utf8(text[1..])|
  {}

  /** Two joined texts need the sum of their bytes, less two when the cut splits a surrogate pair. */
  lemma {:induction false} JoinedBytes(a: Text, b: Text)
    ensures |Utf8(a + b)| == |Utf8(a)| + |Utf8(b)| - (if SplitsPair(a, b) then 2 else 0)
    decreases |a|
  {
    if a == [] {
      assert a + b == b;
    } else if StartsPair(a) {
      assert (a + b)[2..] == a[2..] + b;
      Utf8Step(a);
      Utf8Step(a + b);
      JoinedBytes(a[2..], b);
    } else if |a| == 1 && SplitsPair(a, b) {
      assert a[1..] == [] && (a + b)[2..] == b[1..] && !StartsPair(b);
      Utf8Step(a);
      Utf8Step(a + b);
      Utf8Step(b);
    } else {
      assert (a + b)[1..] == a[1..] + b;
      Utf8Step(a);
      Utf8Step(a + b);
      JoinedBytes(a[1..], b);
    }
  }

  predicate SplitsPair(a: Text, b: Text) {
    a != [] && b != [] && IsHigh(a[|a| - 1]) && IsLow(b[0])
  }

  lemma PrefixNeedsNoMore(a: Text, b: Text)
    ensures |Utf8(a)| <= |Utf8(a + b)|
  {
    JoinedBytes(a, b);
    if SplitsPair(a, b) { Utf8Step(b); }
  }

  /** The counting loop of both sides. */
  method Utf8ByteLength(text: Text) returns (bytes: nat)
    ensures bytes == |Utf8(text)|
  {
    bytes := 0;
    var index := 0;
    while index < |text|
      invariant 0 <= index <= |text|
      invariant bytes + |Utf8(text[index..])| == |Utf8(text)|
    {
      var code := text[index];
      Utf8Step(text[index..]);
      assert text[index..][1..] == text[index + 1..];
      if code <= 0x7F { bytes := bytes + 1; }
      else if code <= 0x7FF { bytes := bytes + 2; }
      else if IsHigh(code) && index + 1 < |text| {
        if IsLow(text[index + 1]) {
          assert text[index..][2..] == text[index + 2..];
          bytes := bytes + 4;
          index := index + 1;
        } else { bytes := bytes + 3; }
      }
      else { bytes := bytes + 3; }
      index := index + 1;
    }
  }

  // ----------------------------------------------------------- accumulators

  /** The bridge's accumulator keeps a count and the last code unit, never the text. */
  class ByteAccumulator {
    var bytes: nat
    var lastUnit: int
    ghost var text: Text

    ghost predicate Valid()
      reads this
    {
      && bytes == |Utf8(text)| <= MAX_REPLY_TEXT_BYTES
      && lastUnit == if text == [] then -1 else text[|text| - 1]
    }

    constructor ()
      ensures Valid() && text == [] && fresh(this)
    {
      bytes, lastUnit, text := 0, -1, [];
    }

    method Append(delta: Text) returns (ok: bool)
      requires Valid()
      modifies this
      ensures Valid()
      ensures ok <==> Fits(old(text) + delta)
      ensures text == if ok then old(text) + delta else old(text)
    {
      var nextBytes := Utf8ByteLength(delta);
      var joins := 0xD800 <= lastUnit <= 0xDBFF && |delta| > 0 && IsLow(delta[0]);
      JoinedBytes(text, delta);
      PrefixNeedsNoMore(text, delta);
      var added := nextBytes - (if joins then 2 else 0);
      if bytes + added > MAX_REPLY_TEXT_BYTES { return false; }
      bytes := bytes + added;
      if |delta| > 0 { lastUnit := delta[|delta| - 1]; }
      text := text + delta;
      return true;
    }
  }

  /** The handset's accumulator also keeps the text, and whether any delta was accepted. */
  class DeltaStream {
    var value: Text
    var bytes: nat
    var lastUnit: int
    var acceptedDelta: bool

    ghost predicate Valid()
      reads this
    {
      && bytes == |Utf8(value)| <= MAX_REPLY_TEXT_BYTES
      && lastUnit == if value == [] then -1 else value[|value| - 1]
    }

    constructor ()
      ensures Valid() && value == [] && !acceptedDelta && fresh(this)
    {
      value, bytes, lastUnit, acceptedDelta := [], 0, -1, false;
    }

    method Accept(delta: Text) returns (ok: bool)
      requires Valid()
      modifies this
      ensures Valid()
      ensures ok <==> Fits(old(value) + delta)
      ensures value == if ok then old(value) + delta else old(value)
      ensures acceptedDelta == (ok || old(acceptedDelta))
    {
      var nextBytes := Utf8ByteLength(delta);
      var joins := 0xD800 <= lastUnit <= 0xDBFF && |delta| > 0 && IsLow(delta[0]);
      JoinedBytes(value, delta);
      PrefixNeedsNoMore(value, delta);
      var added := nextBytes - (if joins then 2 else 0);
      if added < 0 || bytes > MAX_REPLY_TEXT_BYTES - added { return false; }
      value := value + delta;
      bytes := bytes + added;
      if |delta| > 0 { lastUnit := delta[|delta| - 1]; }
      acceptedDelta := true;
      return true;
    }

    method Replace(text: Text) returns (ok: bool)
      requires Valid()
      modifies this
      ensures Valid() && acceptedDelta == old(acceptedDelta)
      ensures ok <==> Fits(text)
      ensures value == if ok then text else old(value)
    {
      var length := Utf8ByteLength(text);
      if length > MAX_REPLY_TEXT_BYTES { return false; }
      value, bytes := text, length;
      lastUnit := if |text| == 0 then -1 else text[|text| - 1];
      return true;
    }

    method Clear()
      modifies this
      ensures Valid() && value == [] && !acceptedDelta
    {
      value, bytes, lastUnit, acceptedDelta := [], 0, -1, false;
    }

    predicate TerminalTextMatches(terminal: Text)
      reads this
    {
      !acceptedDelta || value == terminal
    }
  }

  // -------------------------------------------------------------- streaming

  function Flatten(deltas: seq<Text>): Text {
    if deltas == [] then [] else deltas[0] + Flatten(deltas[1..])
  }

  lemma {:induction false} FlattenAppend(deltas: seq<Text>, delta: Text)
    ensures Flatten(deltas + [delta]) == Flatten(deltas) + delta
  {
    if deltas == [] {
      assert deltas + [delta] == [delta];
      assert Flatten([delta]) == delta + Flatten([]);
    } else {
      assert (deltas + [delta])[1..] == deltas[1..] + [delta];
      FlattenAppend(deltas[1..], delta);
    }
  }

  lemma {:induction false} FlattenSplit(deltas: seq<Text>, k: nat)
    requires k <= |deltas|
    ensures Flatten(deltas) == Flatten(deltas[..k]) + Flatten(deltas[k..])
  {
    if k > 0 {
      assert deltas[..k][1..] == deltas[1..][..k - 1];
      FlattenSplit(deltas[1..], k - 1);
    }
  }

  /** The bridge streams a reply in pieces of at most 80 code units. */
  method Chunks(s: Text) returns (deltas: seq<Text>)
    ensures Flatten(deltas) == s
    ensures forall d :: d in deltas ==> 0 < |d| <= CHUNK
    ensures |s| <= CHUNK * |deltas| < |s| + CHUNK
  {
    deltas := [];
    var i := 0;
    while i < |s|
      invariant 0 <= i
      invariant Flatten(deltas) == s[..if i < |s| then i else |s|]
      invariant i == CHUNK * |deltas| < |s| + CHUNK
      invariant forall d :: d in deltas ==> 0 < |d| <= CHUNK
    {
      var end := if i + CHUNK < |s| then i + CHUNK else |s|;
      FlattenAppend(deltas, s[i..end]);
      assert s[..i] + s[i..end] == s[..end];
      deltas := deltas + [s[i..end]];
      i := i + CHUNK;
    }
  }

  /** However a text is cut, even inside a surrogate pair, the pieces are all accepted
      exactly when the whole text fits, and then they rebuild it. */
  method AcceptAll(deltas: seq<Text>) returns (stream: DeltaStream, accepted: bool)
    ensures fresh(stream) && stream.Valid()
    ensures accepted <==> Fits(Flatten(deltas))
    ensures accepted ==> stream.value == Flatten(deltas) && stream.TerminalTextMatches(Flatten(deltas))
  {
    stream := new DeltaStream();
    var k := 0;
    while k < |deltas|
      invariant 0 <= k <= |deltas| && fresh(stream) && stream.Valid()
      invariant stream.value == Flatten(deltas[..k])
    {
      FlattenAppend(deltas[..k], deltas[k]);
      assert deltas[..k] + [deltas[k]] == deltas[..k + 1];
      var ok := stream.Accept(deltas[k]);
      if !ok {
        FlattenSplit(deltas, k + 1);
        PrefixNeedsNoMore(Flatten(deltas[..k + 1]), Flatten(deltas[k + 1..]));
        return stream, false;
      }
      k := k + 1;
    }
    assert deltas[..k] == deltas;
    accepted := true;
  }

  lemma EmptyStream()
    ensures Flatten([]) == []
  {}

  /** The bridge's own loop over the same pieces: it sends every one of them when the
      reply fits, so the handset's stream above ends with the reply. */
  method StreamReply(reply: Text) returns (sent: seq<Text>, limit: bool)
    ensures limit <==> !Fits(reply)
    ensures !limit ==> Flatten(sent) == reply
    ensures limit ==> sent == []
  {
    hide Utf8, Flatten;
    sent := [];
    EmptyStream();
    var length := Utf8ByteLength(reply);
    if length > MAX_REPLY_TEXT_BYTES { return [], true; }
    var accumulator := new ByteAccumulator();
    var deltas := Chunks(reply);
    var k := 0;
    while k < |deltas|
      invariant 0 <= k <= |deltas| && fresh(accumulator) && accumulator.Valid()
      invariant sent == deltas[..k] && accumulator.text == Flatten(deltas[..k])
    {
      FlattenAppend(deltas[..k], deltas[k]);
      assert deltas[..k] + [deltas[k]] == deltas[..k + 1];
      FlattenSplit(deltas, k + 1);
      PrefixNeedsNoMore(Flatten(deltas[..k + 1]), Flatten(deltas[k + 1..]));
      var ok := accumulator.Append(deltas[k]);
      assert ok;
      sent := sent + [deltas[k]];
      k := k + 1;
    }
    assert deltas[..k] == deltas;
    return sent, false;
  }
}
