/**
 Which rows of a pending-delivery snapshot the handset narrates, and which belong to
 a durable reply receipt that will be played from its own stored text.
 */
module PendingPlayback {
  import opened Durable
  import opened HandsetReceipts
  import Delivery
  import opened ReplyText

  datatype PendingItem = PendingItem(seqNo: int, content: Text, replyTo: Option<string>)

  predicate Blank(t: Text) {
    forall u :: u in t ==> Delivery.IsSpace(u)
  }

  /** A snapshot the handset may narrate: strictly increasing safe sequence numbers, real text. */
  predicate Acceptable(records: seq<PendingItem>) {
    && (forall k :: 0 <= k < |records| ==> ItemAcceptable(records[k]))
    && (forall j, k :: 0 <= j < k < |records| ==> records[j].seqNo < records[k].seqNo)
  }

  predicate ItemAcceptable(item: PendingItem) {
    0 < item.seqNo <= Delivery.MAX_SAFE_SEQUENCE && !Blank(item.content) && Fits(item.content)
  }

  /** Every record is validated before anything is narrated: all of them, or none. */
  method Parse(records: seq<PendingItem>) returns (items: Option<seq<PendingItem>>)
    ensures items == if Acceptable(records) then Some(records) else None
  {
    var accepted: seq<PendingItem> := [];
    var previous := 0;
    var k := 0;
    while k < |records|
      invariant 0 <= k <= |records| && accepted == records[..k]
      invariant previous == if k == 0 then 0 else records[k - 1].seqNo
      invariant forall j :: 0 <= j < k ==> ItemAcceptable(records[j]) && records[j].seqNo <= previous
      invariant forall i, j :: 0 <= i < j < k ==> records[i].seqNo < records[j].seqNo
    {
      var item := records[k];
      if item.seqNo < 0 || item.seqNo > Delivery.MAX_SAFE_SEQUENCE || item.seqNo <= previous
         || Blank(item.content) || !Fits(item.content) {
        assert ItemAcceptable(item) ==> k > 0 && records[k].seqNo <= records[k - 1].seqNo;
        return None;
      }
      accepted, previous := accepted + [item], item.seqNo;
      k := k + 1;
    }
    assert accepted == records;
    return Some(accepted);
  }

  /** The receipt's correlated, bounded range owns the row. */
  predicate IsOwned(entry: Receipt, lane: Option<string>, item: PendingItem) {
    && lane == Some(entry.ack.laneId)
    && item.replyTo == Some(entry.ack.replyTo)
    && entry.ack.afterSeq < item.seqNo <= entry.ack.throughSeq
  }

  predicate OwnedByAny(entries: seq<Receipt>, lane: Option<string>, item: PendingItem) {
    exists e :: e in entries && IsOwned(e, lane, item)
  }

  /** The rows that are narrated, or, with `owned`, those left to their receipts. */
  function Split(entries: seq<Receipt>, lane: Option<string>, items: seq<PendingItem>, owned: bool): seq<PendingItem> {
    if items == [] then []
    else (if OwnedByAny(entries, lane, items[0]) == owned then [items[0]] else [])
         + Split(entries, lane, items[1..], owned)
  }

  /** A snapshot splits into narrated and receipt-owned rows: each row as often as the snapshot
      has it, and all of its copies on the side its owner decides. */
  lemma {:induction false} SplitConserves(entries: seq<Receipt>, lane: Option<string>, items: seq<PendingItem>, item: PendingItem)
    ensures var narrated, kept := multiset(Split(entries, lane, items, false)), multiset(Split(entries, lane, items, true));
            && narrated + kept == multiset(items)
            && narrated[item] == (if OwnedByAny(entries, lane, item) then 0 else multiset(items)[item])
            && kept[item] == (if OwnedByAny(entries, lane, item) then multiset(items)[item] else 0)
  {
    if items != [] {
      SplitConserves(entries, lane, items[1..], item);
      assert items == [items[0]] + items[1..];
    }
  }

  lemma {:induction false} SplitExactly(entries: seq<Receipt>, lane: Option<string>, items: seq<PendingItem>,
                                        owned: bool, item: PendingItem)
    ensures item in Split(entries, lane, items, owned) <==> item in items && OwnedByAny(entries, lane, item) == owned
  {
    if items != [] {
      SplitExactly(entries, lane, items[1..], owned, item);
      assert items == [items[0]] + items[1..];
    }
  }

  /** Both halves keep the queue's order. */
  lemma {:induction false} SplitKeepsOrder(entries: seq<Receipt>, lane: Option<string>, items: seq<PendingItem>, owned: bool)
    requires Acceptable(items)
    ensures Acceptable(Split(entries, lane, items, owned))
  {
    if items != [] {
      TailAcceptable(items);
      SplitKeepsOrder(entries, lane, items[1..], owned);
      var rest := Split(entries, lane, items[1..], owned);
      forall x | x in rest ensures items[0].seqNo < x.seqNo {
        SplitExactly(entries, lane, items[1..], owned, x);
      }
      HeadAcceptable(items[0], rest);
      hide Acceptable, OwnedByAny;
      assert [] + rest == rest;
    }
  }

  lemma TailAcceptable(items: seq<PendingItem>)
    requires items != [] && Acceptable(items)
    ensures Acceptable(items[1..]) && ItemAcceptable(items[0])
    ensures forall x :: x in items[1..] ==> items[0].seqNo < x.seqNo
  {}

  lemma HeadAcceptable(head: PendingItem, rest: seq<PendingItem>)
    requires ItemAcceptable(head) && Acceptable(rest) && forall x :: x in rest ==> head.seqNo < x.seqNo
    ensures Acceptable([head] + rest)
  {}

  /** The rows a reply's receipt names are exactly the rows its entry keeps from narration. */
  lemma ReceiptRowsAreOwned(entry: Receipt, row: Delivery.Row)
    ensures IsOwned(entry, Some(row.lane), PendingItem(row.seqNo, row.content, row.replyTo))
       <==> Delivery.InRange(row, entry.ack.afterSeq, entry.ack.throughSeq, entry.ack.laneId, entry.ack.replyTo)
  {}
}
