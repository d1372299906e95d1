/**
 Waiting for a correlated reply. The bridge polls telepathosd's delivery queue with a
 cursor, admits only exact batches, joins the row texts, and issues a receipt; the
 receipt later consumes rows by range and correlation.
 */
module Delivery {
  import opened Durable
  import opened ReplyText

  datatype Row = Row(seqNo: int, lane: string, replyTo: Option<string>, content: Text)

  /** One poll as the bridge sees it: an unusable status, an unreadable body, or a parsed body. */
  datatype Poll = BadStatus | Unreadable | Body(rows: seq<Row>, latest: int)

  datatype Reply = Answer(text: Text, after: int, through: int) | NoReply | TooLong | Refused | Broken

  const MAX_SAFE_SEQUENCE := 0x1F_FFFF_FFFF_FFFF

  // ------------------------------------------------------------- admission

  predicate IsSpace(u: Unit) {
    u in {9, 10, 11, 12, 13, 32, 0xA0, 0x1680, 0x2028, 0x2029, 0x202F, 0x205F, 0x3000, 0xFEFF} || 0x2000 <= u <= 0x200A
  }

  function Trim(t: Text): Text
    decreases |t|
  {
    if t == [] then []
    else if IsSpace(t[0]) then Trim(t[1..])
    else if IsSpace(t[|t| - 1]) then Trim(t[..|t| - 1])
    else t
  }

  predicate Exact(row: Row, lane: string, id: string) {
    row.lane == lane && row.replyTo == Some(id) && Trim(row.content) != []
  }

  /** The sequence number a row must exceed: its predecessor's, or the cursor. */
  function Previous(rows: seq<Row>, after: int, k: nat): int
    requires k <= |rows|
  {
    if k == 0 then after else rows[k - 1].seqNo
  }

  predicate Increasing(rows: seq<Row>, after: int) {
    forall k :: 0 <= k < |rows| ==> Previous(rows, after, k) < rows[k].seqNo
  }

  /** The checks on one row of a batch. */
  predicate RowAdmitted(row: Row, previous: int, latest: int, after: int, lane: string, id: string) {
    Exact(row, lane, id) && after < row.seqNo <= latest && previous < row.seqNo
  }

  predicate AdmittedUpTo(rows: seq<Row>, k: nat, latest: int, after: int, lane: string, id: string)
    requires k <= |rows|
  {
    forall j :: 0 <= j < k ==> RowAdmitted(rows[j], Previous(rows, after, j), latest, after, lane, id)
  }

  /** A complete batch for this window: exact correlation, increasing, within (after, latest]. */
  predicate Admissible(rows: seq<Row>, latest: int, after: int, lane: string, id: string) {
    after <= latest <= MAX_SAFE_SEQUENCE && AdmittedUpTo(rows, |rows|, latest, after, lane, id)
  }

  /** A batch is admitted when its rows ascend within the window and each is of this lane, for
      this message, and more than spaces. */
  lemma AdmissibleMeans(rows: seq<Row>, latest: int, after: int, lane: string, id: string)
    ensures Admissible(rows, latest, after, lane, id) <==>
            && after <= latest <= 9_007_199_254_740_991
            && (forall j, k :: 0 <= j < k < |rows| ==> rows[j].seqNo < rows[k].seqNo)
            && (forall k :: 0 <= k < |rows| ==>
                  after < rows[k].seqNo <= latest && rows[k].lane == lane && rows[k].replyTo == Some(id)
                  && exists u :: u in rows[k].content && !IsSpace(u))
  {
    forall k | 0 <= k < |rows| ensures Trim(rows[k].content) != [] <==> exists u :: u in rows[k].content && !IsSpace(u) {
      var i, j := TrimIs(rows[k].content);
      if i < j { assert rows[k].content[i] in rows[k].content; }
    }
    hide Trim, IsSpace;
    if Admissible(rows, latest, after, lane, id) {
      assert forall k :: 0 <= k < |rows| ==> RowAdmitted(rows[k], Previous(rows, after, k), latest, after, lane, id);
      forall j, k | 0 <= j < k < |rows| ensures rows[j].seqNo < rows[k].seqNo { Ascending(rows, after, j, k); }
    }
  }

  lemma {:induction false} Ascending(rows: seq<Row>, after: int, j: nat, k: nat)
    requires Increasing(rows, after) && j < k < |rows|
    ensures rows[j].seqNo < rows[k].seqNo
    decreases k
  {
    assert Previous(rows, after, k) < rows[k].seqNo;
    if j < k - 1 { Ascending(rows, after, j, k - 1); }
  }

  method Admit(rows: seq<Row>, latest: int, after: int, lane: string, id: string) returns (ok: bool)
    requires 0 <= after
    ensures ok <==> Admissible(rows, latest, after, lane, id)
  {
    hide Trim;
    if latest > MAX_SAFE_SEQUENCE || latest < 0 || latest < after { return false; }
    var previousSeq := after;
    var k := 0;
    while k < |rows|
      invariant 0 <= k <= |rows|
      invariant previousSeq == Previous(rows, after, k)
      invariant AdmittedUpTo(rows, k, latest, after, lane, id)
    {
      var row := rows[k];
      if row.seqNo <= after || row.seqNo > latest || row.seqNo <= previousSeq || row.lane != lane
         || Trim(row.content) == [] || row.replyTo != Some(id) {
        assert !RowAdmitted(row, Previous(rows, after, k), latest, after, lane, id);
        return false;
      }
      previousSeq := row.seqNo;
      k := k + 1;
    }
    return true;
  }

  // --------------------------------------------------------------- the wait

  /** The texts joined by single spaces. */
  function Joined(parts: seq<Text>): Text {
    if parts == [] then []
    else if |parts| == 1 then parts[0]
    else Joined(parts[..|parts| - 1]) + [32] + parts[|parts| - 1]
  }

  function Parts(rows: seq<Row>): seq<Text> {
    if rows == [] then [] else Parts(rows[..|rows| - 1]) + [Trim(rows[|rows| - 1].content)]
  }

  /** The text between the spaces around it: nothing but spaces goes, on both sides, and what
      is left neither starts nor ends with one. */
  lemma {:induction false} TrimIs(t: Text) returns (i: nat, j: nat)
    ensures i <= j <= |t| && Trim(t) == t[i..j]
    ensures forall k :: 0 <= k < i || j <= k < |t| ==> IsSpace(t[k])
    ensures i < j ==> !IsSpace(t[i]) && !IsSpace(t[j - 1])
    decreases |t|
  {
    hide IsSpace;
    if t == [] {
      return 0, 0;
    } else if IsSpace(t[0]) {
      i, j := TrimIs(t[1..]);
      assert t[1..][i..j] == t[i + 1..j + 1];
      assert forall k :: 0 < k < |t| ==> t[k] == t[1..][k - 1];
      return i + 1, j + 1;
    } else if IsSpace(t[|t| - 1]) {
      i, j := TrimIs(t[..|t| - 1]);
      assert t[..|t| - 1][i..j] == t[i..j];
    } else {
      assert t[0..|t|] == t;
      return 0, |t|;
    }
  }

  /** Where the k-th text begins: after the texts before it and a space after each. */
  function Offset(parts: seq<Text>, k: nat): nat
    requires k <= |parts|
  {
    if k == 0 then 0 else Offset(parts, k - 1) + |parts[k - 1]| + 1
  }

  lemma {:induction false} OffsetPrefix(parts: seq<Text>, n: nat, k: nat)
    requires k <= n <= |parts|
    ensures Offset(parts[..n], k) == Offset(parts, k)
  {
    if k > 0 { OffsetPrefix(parts, n, k - 1); }
  }

  /** The k-th text stands at its offset, and a space in front of every one but the first. */
  predicate StandsAt(text: Text, parts: seq<Text>, k: nat)
    requires k < |parts|
  {
    var from := Offset(parts, k);
    && from + |parts[k]| <= |text| && text[from..from + |parts[k]|] == parts[k]
    && (k > 0 ==> 0 < from && text[from - 1] == 32)
  }

  lemma {:induction false} JoinedLength(parts: seq<Text>)
    requires parts != []
    ensures |Joined(parts)| + 1 == Offset(parts, |parts|)
  {
    var n := |parts| - 1;
    OffsetPrefix(parts, n, n);
    if n > 0 { JoinedLength(parts[..n]); }
  }

  /** The reply's text: each row's text in order, with one space between two. */
  lemma {:induction false} JoinedLayout(parts: seq<Text>, k: nat)
    requires k < |parts|
    ensures |Joined(parts)| + 1 == Offset(parts, |parts|) && StandsAt(Joined(parts), parts, k)
  {
    JoinedLength(parts);
    if |parts| == 1 {
      OnlyText(parts);
    } else {
      LastText(parts);
      hide Joined, StandsAt, Offset;
      var n := |parts| - 1;
      if k < n {
        JoinedLayout(parts[..n], k);
        OffsetPrefix(parts, n, k);
        StaysAt(Joined(parts[..n]), parts, n, k, [32] + parts[n]);
      }
    }
  }

  lemma OnlyText(parts: seq<Text>)
    requires |parts| == 1
    ensures StandsAt(Joined(parts), parts, 0)
  {
    assert parts[0][0..|parts[0]|] == parts[0];
  }

  lemma LastText(parts: seq<Text>)
    requires |parts| > 1
    ensures var n := |parts| - 1;
            Joined(parts) == Joined(parts[..n]) + ([32] + parts[n]) && StandsAt(Joined(parts), parts, n)
  {
    var n := |parts| - 1;
    var a, x := Joined(parts[..n]), parts[n];
    JoinedLength(parts[..n]);
    OffsetPrefix(parts, n, n);
    assert Joined(parts) == a + [32] + x;
    assert a + [32] + x == a + ([32] + x);
    hide Joined, Offset;
    AtTheEnd(a, x);
  }

  lemma AtTheEnd(a: Text, x: Text)
    ensures (a + ([32] + x))[|a| + 1..|a| + 1 + |x|] == x && (a + ([32] + x))[|a|] == 32
  {}

  lemma StaysAt(a: Text, parts: seq<Text>, n: nat, k: nat, b: Text)
    requires k < n <= |parts| && StandsAt(a, parts[..n], k) && Offset(parts[..n], k) == Offset(parts, k)
    ensures StandsAt(a + b, parts, k)
  {
    var from := Offset(parts, k);
    SliceOfPrefix(a, b, from, from + |parts[k]|);
    hide Offset;
  }

  lemma SliceOfPrefix(a: Text, b: Text, i: nat, j: nat)
    requires i <= j <= |a|
    ensures (a + b)[i..j] == a[i..j]
  {}

  lemma {:induction false} PartsAreTrimmed(rows: seq<Row>)
    ensures |Parts(rows)| == |rows| && forall k :: 0 <= k < |rows| ==> Parts(rows)[k] == Trim(rows[k].content)
  {
    if rows != [] { PartsAreTrimmed(rows[..|rows| - 1]); }
  }

  predicate Admitted(p: Poll, after: int, lane: string, id: string) {
    p.Body? && Admissible(p.rows, p.latest, after, lane, id)
  }

  /** The cursor after the first `k` polls, none of which brought a row. */
  function Cursor(start: int, polls: seq<Poll>, k: nat, lane: string, id: string): int
    requires k <= |polls|
  {
    if k == 0 then start else Advanced(polls[k - 1], Cursor(start, polls, k - 1, lane, id), lane, id)
  }

  predicate Quiet(start: int, polls: seq<Poll>, k: nat, lane: string, id: string)
    requires k <= |polls|
  {
    forall j :: 0 <= j < k ==> BroughtNothing(polls[j], Cursor(start, polls, j, lane, id), lane, id)
  }

  predicate BroughtNothing(p: Poll, after: int, lane: string, id: string) {
    !p.Unreadable? && (Admitted(p, after, lane, id) ==> p.rows == [])
  }

  /** While nothing comes the cursor follows the queue's head as admitted batches report it:
      it is the largest they reported, and never behind the start. */
  lemma {:induction false} CursorFollows(start: int, polls: seq<Poll>, k: nat, lane: string, id: string)
    requires k <= |polls|
    ensures forall j :: 0 <= j < k && Admitted(polls[j], Cursor(start, polls, j, lane, id), lane, id) ==>
              polls[j].latest <= Cursor(start, polls, k, lane, id)
    ensures Cursor(start, polls, k, lane, id) == start
         || exists j :: 0 <= j < k && Admitted(polls[j], Cursor(start, polls, j, lane, id), lane, id)
                        && Cursor(start, polls, k, lane, id) == polls[j].latest
  {
    hide Admitted;
    if k > 0 { CursorFollows(start, polls, k - 1, lane, id); }
  }

  lemma CursorStays(start: int, polls: seq<Poll>, k: nat, lane: string, id: string)
    requires k <= |polls|
    ensures start <= Cursor(start, polls, k, lane, id)
  {}

  lemma {:induction false} PartsGrow(rows: seq<Row>, k: nat)
    requires k < |rows|
    ensures Parts(rows[..k + 1]) == Parts(rows[..k]) + [Trim(rows[k].content)]
    ensures |Parts(rows[..k])| == k
  {
    assert rows[..k + 1][..k] == rows[..k];
    if k > 0 { PartsGrow(rows, k - 1); }
  }

  lemma {:induction false} JoinedPrefix(rows: seq<Row>, k: nat)
    requires 0 < k <= |rows|
    ensures |Utf8(Joined(Parts(rows[..k])))| <= |Utf8(Joined(Parts(rows)))|
    decreases |rows| - k
  {
    if k < |rows| {
      PartsGrow(rows, k);
      var a, x := Parts(rows[..k]), Trim(rows[k].content);
      assert (a + [x])[..k] == a;
      assert Joined(a + [x]) == Joined(a) + ([32] + x);
      PrefixNeedsNoMore(Joined(a), [32] + x);
      JoinedPrefix(rows, k + 1);
    } else {
      assert rows[..k] == rows;
    }
  }

  /** Add one admitted batch to the accumulator; false when the byte limit is crossed. */
  method Collect(rows: seq<Row>) returns (text: Text, ok: bool)
    requires rows != []
    ensures ok <==> Fits(Joined(Parts(rows)))
    ensures ok ==> text == Joined(Parts(rows))
  {
    var replyBytes := new ByteAccumulator();
    var parts: seq<Text> := [];
    var k := 0;
    while k < |rows|
      invariant 0 <= k <= |rows| && fresh(replyBytes) && replyBytes.Valid()
      invariant parts == Parts(rows[..k]) && |parts| == k
      invariant replyBytes.text == Joined(parts)
    {
      var content := Trim(rows[k].content);
      PartsGrow(rows, k);
      JoinedPrefix(rows, k + 1);
      assert (parts + [content])[..k] == parts;
      var accepted := true;
      if |parts| > 0 {
        PrefixNeedsNoMore(Joined(parts) + [32], content);
        assert Joined(parts) + [32] + content == Joined(parts + [content]);
        accepted := replyBytes.Append([32]);
        if !accepted { return [], false; }
      }
      accepted := replyBytes.Append(content);
      if !accepted {
        assert replyBytes.text + content == Joined(parts + [content]);
        return [], false;
      }
      parts := parts + [content];
      assert replyBytes.text == Joined(parts);
      k := k + 1;
    }
    assert rows[..k] == rows;
    return Joined(parts), true;
  }

  /** The cursor past one poll that brought no row. */
  function Advanced(p: Poll, after: int, lane: string, id: string): int {
    if Admitted(p, after, lane, id) && after < p.latest then p.latest else after
  }

  lemma InWindow(rows: seq<Row>, latest: int, after: int, lane: string, id: string)
    requires Admissible(rows, latest, after, lane, id) && rows != []
    ensures Increasing(rows, after) && after < rows[|rows| - 1].seqNo <= latest
  {
    assert RowAdmitted(rows[|rows| - 1], Previous(rows, after, |rows| - 1), latest, after, lane, id);
    hide Exact;
  }

  /** Take one poll: an answer, a failure, or the cursor to continue from. */
  method TakePoll(p: Poll, cursor: int, lane: string, id: string) returns (reply: Reply, next: int)
    requires 0 <= cursor
    ensures !reply.Refused? && (reply.Broken? <==> p.Unreadable?)
    ensures reply.NoReply? ==> BroughtNothing(p, cursor, lane, id) && next == Advanced(p, cursor, lane, id)
    ensures reply.Answer? || reply.TooLong? ==> Admitted(p, cursor, lane, id) && p.rows != []
    ensures reply.TooLong? ==> !Fits(Joined(Parts(p.rows)))
    ensures reply.Answer? ==>
              && reply.text == Joined(Parts(p.rows)) && Fits(reply.text)
              && reply.after == cursor < reply.through == p.rows[|p.rows| - 1].seqNo
  {
    hide Trim, Joined, Parts, Fits, Utf8, Exact, Admissible;
    if p.Unreadable? { return Broken, cursor; }
    if p.BadStatus? { return NoReply, cursor; }
    var ok := Admit(p.rows, p.latest, cursor, lane, id);
    // A rejected batch moves nothing: the next poll retries the same window.
    if !ok { return NoReply, cursor; }
    if p.rows == [] { return NoReply, if cursor < p.latest then p.latest else cursor; }
    var text, fits := Collect(p.rows);
    if !fits { return TooLong, cursor; }
    InWindow(p.rows, p.latest, cursor, lane, id);
    var through := LastSeq(p.rows, cursor);
    if through <= cursor || through > p.latest { return Refused, cursor; }
    return Answer(text, cursor, through), cursor;
  }

  /** The reply is the answer that the `k`-th poll brought after quiet ones. */
  predicate IsAnswer(reply: Reply, start: int, polls: seq<Poll>, k: nat, lane: string, id: string) {
    && k < |polls| && Quiet(start, polls, k, lane, id)
    && Admitted(polls[k], Cursor(start, polls, k, lane, id), lane, id) && polls[k].rows != []
    && reply.Answer? && reply.text == Joined(Parts(polls[k].rows)) && Fits(reply.text)
    && reply.after == Cursor(start, polls, k, lane, id)
    && reply.through == polls[k].rows[|polls[k].rows| - 1].seqNo && reply.after < reply.through
  }

  /** Poll until a batch brings rows. */
  method DeliverAndWait(start: int, lane: string, id: string, polls: seq<Poll>) returns (reply: Reply, k: nat)
    requires 0 <= start
    ensures k <= |polls| && Quiet(start, polls, k, lane, id)
    ensures reply.NoReply? <==> k == |polls|
    ensures reply.Broken? <==> k < |polls| && polls[k].Unreadable?
    ensures !reply.Refused?
    ensures reply.Answer? || reply.TooLong? ==>
              k < |polls| && Admitted(polls[k], Cursor(start, polls, k, lane, id), lane, id) && polls[k].rows != []
    ensures reply.TooLong? ==> !Fits(Joined(Parts(polls[k].rows)))
    ensures reply.Answer? ==> IsAnswer(reply, start, polls, k, lane, id)
  {
    hide Admitted, BroughtNothing, Joined, Parts, Fits, Advanced;
    var cursor := start;
    k := 0;
    while k < |polls|
      invariant k <= |polls|
      invariant cursor == Cursor(start, polls, k, lane, id)
      invariant Quiet(start, polls, k, lane, id)
      decreases |polls| - k
    {
      CursorStays(start, polls, k, lane, id);
      var taken, next := TakePoll(polls[k], cursor, lane, id);
      if !taken.NoReply? { return taken, k; }
      cursor := next;
      k := k + 1;
    }
    return NoReply, k;
  }

  /** The greatest sequence number of a non-empty batch. */
  method LastSeq(rows: seq<Row>, after: int) returns (through: int)
    requires rows != [] && Increasing(rows, after)
    ensures through == rows[|rows| - 1].seqNo
    ensures forall row :: row in rows ==> row.seqNo <= through
  {
    through := rows[0].seqNo;
    var k := 1;
    while k < |rows|
      invariant 1 <= k <= |rows|
      invariant through == rows[k - 1].seqNo
      invariant forall j :: 0 <= j < k ==> rows[j].seqNo <= through
    {
      if rows[k].seqNo > through { through := rows[k].seqNo; }
      k := k + 1;
    }
  }

  // ------------------------------------------------- telepathosd's queue

  predicate Matches(row: Row, lane: string, id: string) {
    row.lane == lane && row.replyTo == Some(id)
  }

  predicate InRange(row: Row, after: int, through: int, lane: string, id: string) {
    Matches(row, lane, id) && after < row.seqNo <= through
  }

  /** What a filtered read returns: unconsumed matching rows past the cursor, in order. */
  function Visible(history: seq<Row>, gone: set<int>, after: int, lane: string, id: string): seq<Row> {
    if history == [] then []
    else
      var last := history[|history| - 1];
      Visible(history[..|history| - 1], gone, after, lane, id)
      + (if Matches(last, lane, id) && after < last.seqNo && last.seqNo !in gone then [last] else [])
  }

  function Head(history: seq<Row>): int {
    if history == [] then 0 else history[|history| - 1].seqNo
  }

  /** The filtered consume of a receipt. */
  function Acknowledge(history: seq<Row>, gone: set<int>, after: int, through: int, lane: string, id: string): set<int> {
    gone + set row | row in history && InRange(row, after, through, lane, id) :: row.seqNo
  }

  /** The queue at each poll: how much of its history existed and which rows others had consumed. */
  datatype Moment = Moment(size: nat, gone: set<int>)

  predicate Timeline(history: seq<Row>, before: nat, moments: seq<Moment>) {
    && Increasing(history, 0)
    && before <= |history|
    && (forall k :: 0 <= k < |moments| ==> before <= moments[k].size <= |history|)
    && (forall j, k :: 0 <= j <= k < |moments| ==> moments[j].gone <= moments[k].gone)
  }

  /** Every batch the bridge admits is what the queue really held then. */
  predicate Truthful(history: seq<Row>, moments: seq<Moment>, start: int, polls: seq<Poll>, lane: string, id: string) {
    && |moments| == |polls|
    && forall k :: 0 <= k < |polls| ==>
         TruthfulAt(history, moments[k], polls[k], Cursor(start, polls, k, lane, id), lane, id)
  }

  predicate TruthfulAt(history: seq<Row>, m: Moment, p: Poll, cursor: int, lane: string, id: string) {
    m.size <= |history| && Admitted(p, cursor, lane, id) ==>
      p.rows == Visible(history[..m.size], m.gone, cursor, lane, id) && p.latest == Head(history[..m.size])
  }

  /** The cursor was read before the message existed, so nothing yet answers it. */
  predicate Unanswered(history: seq<Row>, before: nat, id: string) {
    before <= |history| && forall k :: 0 <= k < before ==> history[k].replyTo != Some(id)
  }

  lemma {:induction false} VisibleExactly(history: seq<Row>, gone: set<int>, after: int, lane: string, id: string, row: Row)
    ensures row in Visible(history, gone, after, lane, id) <==>
            row in history && Matches(row, lane, id) && after < row.seqNo && row.seqNo !in gone
  {
    if history != [] {
      var n := |history| - 1;
      VisibleExactly(history[..n], gone, after, lane, id, row);
      assert history == history[..n] + [history[n]];
    }
  }

  lemma {:induction false} Ordered(history: seq<Row>, after: int, j: nat, k: nat)
    requires Increasing(history, after) && j < k < |history|
    ensures after < history[j].seqNo < history[k].seqNo
    decreases k
  {
    assert Previous(history, after, k) < history[k].seqNo;
    assert Previous(history, after, j) < history[j].seqNo;
    if j + 1 < k {
      Ordered(history, after, j, k - 1);
    } else if j > 0 {
      Ordered(history, after, j - 1, j);
    }
  }

  /** A row no greater than the head of a prefix lies inside that prefix. */
  lemma BelowHead(history: seq<Row>, n: nat, j: nat)
    requires Increasing(history, 0) && n <= |history| && j < |history| && history[j].seqNo <= Head(history[..n])
    ensures j < n
  {
    assert Previous(history, 0, j) < history[j].seqNo;
    if j > 0 { Ordered(history, 0, j - 1, j); }
    if 0 < n <= j { Ordered(history, 0, n - 1, j); }
  }

  /** Whatever the quiet polls moved past was already consumed by someone else. */
  lemma {:induction false} NothingBehind(history: seq<Row>, before: nat, moments: seq<Moment>, polls: seq<Poll>,
                                         k: nat, lane: string, id: string, j: nat)
    requires Timeline(history, before, moments) && Unanswered(history, before, id)
    requires Truthful(history, moments, Head(history[..before]), polls, lane, id)
    requires k < |polls| && Quiet(Head(history[..before]), polls, k, lane, id)
    requires j < |history| && Matches(history[j], lane, id)
    requires history[j].seqNo <= Cursor(Head(history[..before]), polls, k, lane, id)
    ensures history[j].seqNo in moments[k].gone
    decreases k
  {
    hide Increasing, Visible, Admissible, Head;
    var start := Head(history[..before]);
    if k == 0 {
      BelowHead(history, before, j);
    } else {
      var c, p, m := Cursor(start, polls, k - 1, lane, id), polls[k - 1], moments[k - 1];
      assert TruthfulAt(history, m, p, c, lane, id);
      if history[j].seqNo <= c {
        NothingBehind(history, before, moments, polls, k - 1, lane, id, j);
      } else {
        BelowHead(history, m.size, j);
        VisibleExactly(history[..m.size], m.gone, c, lane, id, history[j]);
        assert history[j] in history[..m.size];
      }
    }
  }

  /** A finished wait: the queue's whole history, what it was at each poll, and the answering poll `k`. */
  datatype Wait = Wait(history: seq<Row>, before: nat, moments: seq<Moment>, polls: seq<Poll>, k: nat, lane: string, id: string)

  predicate Answered(x: Wait) {
    && Timeline(x.history, x.before, x.moments) && Unanswered(x.history, x.before, x.id)
    && Truthful(x.history, x.moments, Head(x.history[..x.before]), x.polls, x.lane, x.id)
    && x.k < |x.polls| && Quiet(Head(x.history[..x.before]), x.polls, x.k, x.lane, x.id)
    && Admitted(x.polls[x.k], AfterSeq(x), x.lane, x.id) && x.polls[x.k].rows != []
  }

  /** The receipt's exclusive lower bound: the cursor when the answering poll was made. */
  function AfterSeq(x: Wait): int
    requires x.before <= |x.history| && x.k <= |x.polls|
  {
    Cursor(Head(x.history[..x.before]), x.polls, x.k, x.lane, x.id)
  }

  /** The rows whose text formed the reply. */
  function ReplyRows(x: Wait): seq<Row>
    requires Answered(x)
    ensures ReplyRows(x) != []
  {
    x.polls[x.k].rows
  }

  function ThroughSeq(x: Wait): int
    requires Answered(x)
  {
    ReplyRows(x)[|ReplyRows(x)| - 1].seqNo
  }

  /** The receipt names exactly the rows that formed the reply: at the answering poll, a
      matching row lies in its range and is unconsumed if and only if its text is in the
      reply, and no unconsumed matching row lies at or below its lower bound. */
  lemma ReceiptSelectsReply(x: Wait, row: Row)
    requires Answered(x) && row in x.history
    ensures row in ReplyRows(x) <==>
              InRange(row, AfterSeq(x), ThroughSeq(x), x.lane, x.id) && row.seqNo !in x.moments[x.k].gone
    ensures Matches(row, x.lane, x.id) && row.seqNo <= AfterSeq(x) ==> row.seqNo in x.moments[x.k].gone
  {
    var j :| 0 <= j < |x.history| && x.history[j] == row;
    ReplyIsRange(x, j);
    if Matches(row, x.lane, x.id) && row.seqNo <= AfterSeq(x) {
      NothingBehind(x.history, x.before, x.moments, x.polls, x.k, x.lane, x.id, j);
    }
    hide *;
  }

  lemma ReplyIsRange(x: Wait, j: nat)
    requires Answered(x) && j < |x.history|
    ensures x.history[j] in ReplyRows(x) <==>
              InRange(x.history[j], AfterSeq(x), ThroughSeq(x), x.lane, x.id) && x.history[j].seqNo !in x.moments[x.k].gone
  {
    AtMoment(x.history, x.before, x.moments, x.polls, x.k, x.lane, x.id);
    hide Increasing, TruthfulAt, Admitted, Truthful, Quiet, Unanswered, Timeline, Cursor, Head, InRange;
    BatchIsRange(x.history, x.moments[x.k], x.polls[x.k], AfterSeq(x), x.lane, x.id, j);
  }

  lemma AtMoment(history: seq<Row>, before: nat, moments: seq<Moment>, polls: seq<Poll>, k: nat, lane: string, id: string)
    requires Timeline(history, before, moments) && before <= |history| && k < |polls|
    requires Truthful(history, moments, Head(history[..before]), polls, lane, id)
    ensures Increasing(history, 0) && k < |moments| && moments[k].size <= |history|
    ensures TruthfulAt(history, moments[k], polls[k], Cursor(Head(history[..before]), polls, k, lane, id), lane, id)
  {}

  /** A truthful batch holds exactly the unconsumed rows in the range it spans. */
  lemma BatchIsRange(history: seq<Row>, m: Moment, p: Poll, after: int, lane: string, id: string, j: nat)
    requires Increasing(history, 0) && m.size <= |history| && j < |history|
    requires Admitted(p, after, lane, id) && p.rows != [] && TruthfulAt(history, m, p, after, lane, id)
    ensures history[j] in p.rows <==>
              InRange(history[j], after, p.rows[|p.rows| - 1].seqNo, lane, id) && history[j].seqNo !in m.gone
  {
    hide Trim, Exact, Visible;
    var through := p.rows[|p.rows| - 1].seqNo;
    assert RowAdmitted(p.rows[|p.rows| - 1], Previous(p.rows, after, |p.rows| - 1), p.latest, after, lane, id);
    VisibleExactly(history[..m.size], m.gone, after, lane, id, history[j]);
    assert Increasing(p.rows, after);
    if history[j] in p.rows {
      LastIsGreatest(p.rows, after, history[j]);
    }
    if InRange(history[j], after, through, lane, id) {
      assert p.rows[|p.rows| - 1] in p.rows;
      BelowHead(history, m.size, j);
      assert history[j] in history[..m.size];
    }
  }

  lemma LastIsGreatest(rows: seq<Row>, after: int, row: Row)
    requires Increasing(rows, after) && row in rows
    ensures row.seqNo <= rows[|rows| - 1].seqNo
  {
    var k :| 0 <= k < |rows| && rows[k] == row;
    if k < |rows| - 1 { Ordered(rows, after, k, |rows| - 1); }
  }

  /** Acknowledging the receipt, at any later time, consumes the reply's rows and nothing else. */
  lemma AcknowledgeConsumesExactly(x: Wait, gone: set<int>)
    requires Answered(x) && x.moments[x.k].gone <= gone
    ensures Acknowledge(x.history, gone, AfterSeq(x), ThroughSeq(x), x.lane, x.id)
         == gone + set row | row in ReplyRows(x) :: row.seqNo
  {
    var lhs := Acknowledge(x.history, gone, AfterSeq(x), ThroughSeq(x), x.lane, x.id);
    var rhs := gone + set row | row in ReplyRows(x) :: row.seqNo;
    forall row | row in x.history
      ensures InRange(row, AfterSeq(x), ThroughSeq(x), x.lane, x.id) ==> row.seqNo in rhs
      ensures row in ReplyRows(x) ==> row.seqNo in lhs
    {
      ReceiptSelectsReply(x, row);
    }
    forall row | row in ReplyRows(x) ensures row in x.history { ReplyFromHistory(x, row); }
    assert lhs == rhs by { hide Answered, ReplyRows, AfterSeq, ThroughSeq; }
  }

  lemma ReplyFromHistory(x: Wait, row: Row)
    requires Answered(x) && row in ReplyRows(x)
    ensures row in x.history
  {
    AtMoment(x.history, x.before, x.moments, x.polls, x.k, x.lane, x.id);
    var m := x.moments[x.k];
    VisibleExactly(x.history[..m.size], m.gone, AfterSeq(x), x.lane, x.id, row);
    hide Cursor, Truthful, Quiet, Unanswered, Increasing, Admissible, Visible;
  }

  /** The whole path of a reply: when the polls show what the queue held, acknowledging the
      receipt of an answer, at any later time, consumes the rows whose joined text the
      answer is, and nothing else. */
  lemma AnswerConsumesItsRows(reply: Reply, history: seq<Row>, before: nat, moments: seq<Moment>, polls: seq<Poll>,
                              k: nat, lane: string, id: string, gone: set<int>)
    requires Timeline(history, before, moments) && Unanswered(history, before, id)
    requires Truthful(history, moments, Head(history[..before]), polls, lane, id)
    requires IsAnswer(reply, Head(history[..before]), polls, k, lane, id) && moments[k].gone <= gone
    ensures reply.text == Joined(Parts(polls[k].rows)) && forall row :: row in polls[k].rows ==> row in history
    ensures Acknowledge(history, gone, reply.after, reply.through, lane, id)
         == gone + set row | row in polls[k].rows :: row.seqNo
  {
    var x := Wait(history, before, moments, polls, k, lane, id);
    assert Answered(x) && ReplyRows(x) == polls[k].rows && AfterSeq(x) == reply.after && ThroughSeq(x) == reply.through;
    hide Timeline, Unanswered, Truthful, IsAnswer, Answered, ReplyRows, AfterSeq, ThroughSeq, Acknowledge;
    AcknowledgeConsumesExactly(x, gone);
    forall row | row in polls[k].rows ensures row in history { ReplyFromHistory(x, row); }
  }

  /** A second acknowledgement of the same receipt changes nothing. */
  lemma AcknowledgeTwice(history: seq<Row>, gone: set<int>, after: int, through: int, lane: string, id: string)
    ensures var once := Acknowledge(history, gone, after, through, lane, id);
            Acknowledge(history, once, after, through, lane, id) == once
  {}
}
