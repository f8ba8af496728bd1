/** What a batch of receipts does to the rows that are already stored: the order and the repetition of
    the receipts matter exactly as far as they contradict each other. */
module ReceiptBatches {
  import opened Basics
  import opened Messages
  import opened Delivery
  import opened Handlers
  import opened Answers

  datatype Receipt = Receipt(body: ReceiptBody, now: int)

  ghost function Fold(c: Config, partners: Partners, t: seq<Row>, batch: seq<Receipt>): seq<Row> {
    if batch == [] then t
    else
      var last := batch[|batch| - 1];
      Reconcile(c, partners, Fold(c, partners, t, batch[..|batch| - 1]), last.body, last.now).0
  }

  /** The verdict of one receipt on a message, if it names it: FAILED for FAILED and ERROR, letter by letter and
      ignoring case, and DELIVERED for everything else. */
  ghost function Verdict(c: Config, partners: Partners, a: Receipt, id: string): Option<Status> {
    if status: string :| NamesMessage(c, partners, a.body, id, status) then
      Some(if BadNews(status) then Failed else Delivered)
    else None
  }

  /** One receipt writes its verdict to the row it names, and leaves the others. */
  lemma ReceiptWritesVerdict(c: Config, partners: Partners, t: seq<Row>, a: Receipt, i: nat)
    requires i < |t| && t[i].id != ""
    ensures var u := Reconcile(c, partners, t, a.body, a.now).0;
            var v := Verdict(c, partners, a, t[i].id);
            |u| >= |t| && u[i] == if v.Some? then t[i].(status := v.value) else t[i]
  {
    hide Reconcile, NamesMessage, BadNews;
    if status :| NamesMessage(c, partners, a.body, t[i].id, status) {
      forall other | NamesMessage(c, partners, a.body, t[i].id, other) ensures other == status {
        ReceiptReadsExactly(c, partners, a.body, t[i].id, status);
        ReceiptReadsExactly(c, partners, a.body, t[i].id, other);
      }
      ReconcileExactly(c, partners, t, a.body, a.now, i, status);
    } else {
      ReconcileExactly(c, partners, t, a.body, a.now, i, "");
    }
  }

  /** The verdict of a batch: that of the last receipt that names the message. */
  ghost function LastVerdict(c: Config, partners: Partners, batch: seq<Receipt>, id: string): Option<Status> {
    if batch == [] then None
    else
      var v := Verdict(c, partners, batch[|batch| - 1], id);
      if v.Some? then v else LastVerdict(c, partners, batch[..|batch| - 1], id)
  }

  /** A stored row ends a batch with its last verdict, or unchanged if no receipt names it. */
  lemma {:induction false} BatchEndsWithLastVerdict(
    c: Config, partners: Partners, t: seq<Row>, batch: seq<Receipt>, i: nat)
    requires i < |t| && t[i].id != ""
    ensures var u := Fold(c, partners, t, batch);
            var v := LastVerdict(c, partners, batch, t[i].id);
            |u| >= |t| && u[i] == if v.Some? then t[i].(status := v.value) else t[i]
  {
    if batch == [] {
    } else {
      var front, last := batch[..|batch| - 1], batch[|batch| - 1];
      BatchEndsWithLastVerdict(c, partners, t, front, i);
      ReceiptWritesVerdict(c, partners, Fold(c, partners, t, front), last, i);
      hide Reconcile, Verdict;
    }
  }

  /** No two receipts of the batch disagree on a message. */
  ghost predicate Consistent(c: Config, partners: Partners, batch: seq<Receipt>) {
    forall a, b, id :: a in batch && b in batch
      && Verdict(c, partners, a, id).Some? && Verdict(c, partners, b, id).Some?
      ==> Verdict(c, partners, a, id) == Verdict(c, partners, b, id)
  }

  lemma {:induction false} LastVerdictIsSomeones(c: Config, partners: Partners, batch: seq<Receipt>, id: string)
    ensures LastVerdict(c, partners, batch, id).Some? ==>
              exists a :: a in batch && Verdict(c, partners, a, id) == LastVerdict(c, partners, batch, id)
    ensures LastVerdict(c, partners, batch, id).None? ==> forall a :: a in batch ==> Verdict(c, partners, a, id).None?
  {
    if batch == [] {
    } else {
      var front, last := batch[..|batch| - 1], batch[|batch| - 1];
      assert batch == front + [last];
      LastVerdictIsSomeones(c, partners, front, id);
    }
  }

  /** In a consistent batch every receipt that names a row has the last word on it. */
  lemma ConsistentBatchObeysEveryReceipt(c: Config, partners: Partners, t: seq<Row>, batch: seq<Receipt>, i: nat)
    requires Consistent(c, partners, batch) && i < |t| && t[i].id != ""
    ensures forall a :: a in batch && Verdict(c, partners, a, t[i].id).Some? ==>
              |Fold(c, partners, t, batch)| >= |t|
              && Fold(c, partners, t, batch)[i].status == Verdict(c, partners, a, t[i].id).value
  {
    BatchEndsWithLastVerdict(c, partners, t, batch, i);
    LastVerdictIsSomeones(c, partners, batch, t[i].id);
  }

  /** Two batches with the same receipts, in any order and any number of copies, leave the stored rows
      alike, if they do not contradict themselves. */
  lemma ConsistentBatchesCommute(
    c: Config, partners: Partners, t: seq<Row>, batch: seq<Receipt>, other: seq<Receipt>, i: nat)
    requires Consistent(c, partners, batch) && (forall a :: a in batch <==> a in other)
    requires i < |t| && t[i].id != ""
    ensures |Fold(c, partners, t, batch)| >= |t| && |Fold(c, partners, t, other)| >= |t|
    ensures Fold(c, partners, t, batch)[i] == Fold(c, partners, t, other)[i]
  {
    BatchEndsWithLastVerdict(c, partners, t, batch, i);
    BatchEndsWithLastVerdict(c, partners, t, other, i);
    LastVerdictIsSomeones(c, partners, batch, t[i].id);
    LastVerdictIsSomeones(c, partners, other, t[i].id);
  }

  /** Swapping two receipts is visible on a stored row exactly when they contradict each other on it. */
  lemma SwapVisibleExactly(c: Config, partners: Partners, t: seq<Row>, a: Receipt, b: Receipt, i: nat)
    requires i < |t| && t[i].id != ""
    ensures |Fold(c, partners, t, [a, b])| >= |t| && |Fold(c, partners, t, [b, a])| >= |t|
    ensures Fold(c, partners, t, [a, b])[i] != Fold(c, partners, t, [b, a])[i]
       <==> var v, w := Verdict(c, partners, a, t[i].id), Verdict(c, partners, b, t[i].id);
            v.Some? && w.Some? && v != w
  {
    var id := t[i].id;
    BatchEndsWithLastVerdict(c, partners, t, [a, b], i);
    BatchEndsWithLastVerdict(c, partners, t, [b, a], i);
    assert [a, b][..1] == [a] && [b, a][..1] == [b];
    assert LastVerdict(c, partners, [a], id) == Verdict(c, partners, a, id) by {
      assert [a][..0] == [];
    }
    assert LastVerdict(c, partners, [b], id) == Verdict(c, partners, b, id) by {
      assert [b][..0] == [];
    }
  }
}
