/** `GET /api/reports/summary`: three aggregations over the stored
    transactions of the caller's wallet, each a total amount and a count. */
module Reports {
  import opened Ledger
  import opened Http
  import opened Store

  datatype Totals = Totals(total: real, count: nat)

  function Plus(a: Totals, b: Totals): Totals {
    Totals(a.total + b.total, a.count + b.count)
  }

  /** A `$match` stage followed by a `$group` that sums `amount` and counts
      documents, folded over the collection in store order. No matching
      document leaves both at zero. */
  function Aggregate(txs: seq<Tx>, f: Tx -> bool): (t: Totals)
    ensures t.count <= |txs|
  {
    if |txs| == 0 then Totals(0.0, 0)
    else Plus(if f(txs[0]) then Totals(txs[0].amount, 1) else Totals(0.0, 0), Aggregate(txs[1..], f))
  }

  /** Total amount of a sequence of transactions. */
  function Amounts(txs: seq<Tx>): real {
    if |txs| == 0 then 0.0 else txs[0].amount + Amounts(txs[1..])
  }

  /** The aggregation is the total and the number of the documents the
      filter selects. */
  lemma {:induction false} AggregateIsFilter(txs: seq<Tx>, f: Tx -> bool)
    ensures Aggregate(txs, f) == Totals(Amounts(Filter(txs, f)), |Filter(txs, f)|)
  {
    if |txs| > 0 {
      AggregateIsFilter(txs[1..], f);
      var head := if f(txs[0]) then [txs[0]] else [];
      assert Filter(txs, f) == head + Filter(txs[1..], f);
      AmountsAppend(head, Filter(txs[1..], f));
    }
  }

  lemma {:induction false} AmountsAppend(a: seq<Tx>, b: seq<Tx>)
    ensures Amounts(a + b) == Amounts(a) + Amounts(b)
  {
    if |a| > 0 {
      assert (a + b)[1..] == a[1..] + b;
      AmountsAppend(a[1..], b);
    } else {
      assert a + b == b;
    }
  }

  lemma {:induction false} AggregateAppend(a: seq<Tx>, b: seq<Tx>, f: Tx -> bool)
    ensures Aggregate(a + b, f) == Plus(Aggregate(a, f), Aggregate(b, f))
  {
    if |a| > 0 {
      assert (a + b)[1..] == a[1..] + b;
      AggregateAppend(a[1..], b, f);
    } else {
      assert a + b == b;
    }
  }

  /** The totals do not depend on the order in which the store holds the
      transactions. */
  lemma {:induction false} AggregatePermutation(a: seq<Tx>, b: seq<Tx>, f: Tx -> bool)
    requires multiset(a) == multiset(b)
    ensures Aggregate(a, f) == Aggregate(b, f)
    decreases |a|
  {
    if |a| == 0 {
      assert |b| == |multiset(b)| == 0;
    } else {
      assert a[0] in multiset(b);
      var j :| 0 <= j < |b| && b[j] == a[0];
      var rest := b[..j] + b[j + 1..];
      MultisetRemove(b, j);
      assert a == [a[0]] + a[1..];
      assert multiset(a) == multiset{a[0]} + multiset(a[1..]);
      assert multiset(a[1..]) == multiset(a) - multiset{a[0]};
      assert multiset(rest) == multiset(b) - multiset{b[j]};
      AggregatePermutation(a[1..], rest, f);
      AggregateRemove(b, j, f);
    }
  }

  lemma MultisetRemove(b: seq<Tx>, j: nat)
    requires j < |b|
    ensures multiset(b) == multiset{b[j]} + multiset(b[..j] + b[j + 1..])
  {
    SplitAt(b, j);
  }

  lemma AggregateRemove(b: seq<Tx>, j: nat, f: Tx -> bool)
    requires j < |b|
    ensures Aggregate(b, f) == Plus(Aggregate([b[j]], f), Aggregate(b[..j] + b[j + 1..], f))
  {
    SplitAt(b, j);
    AggregateMiddle(b[..j], [b[j]], b[j + 1..], f);
  }

  lemma SplitAt(b: seq<Tx>, j: nat)
    requires j < |b|
    ensures b == b[..j] + [b[j]] + b[j + 1..]
  {
  }

  lemma AggregateMiddle(pre: seq<Tx>, x: seq<Tx>, post: seq<Tx>, f: Tx -> bool)
    ensures Aggregate(pre + x + post, f) == Plus(Aggregate(x, f), Aggregate(pre + post, f))
  {
    AggregateAppend3(pre, x, post, f);
    AggregateAppend(pre, post, f);
    PlusSwap(Aggregate(pre, f), Aggregate(x, f), Aggregate(post, f));
  }

  lemma AggregateAppend3(pre: seq<Tx>, x: seq<Tx>, post: seq<Tx>, f: Tx -> bool)
    ensures Aggregate(pre + x + post, f) == Plus(Aggregate(pre, f), Plus(Aggregate(x, f), Aggregate(post, f)))
  {
    var xp := x + post;
    assert pre + x + post == pre + xp;
    AggregateAppend(pre, xp, f);
    AggregateAppend(x, post, f);
  }

  lemma PlusSwap(p: Totals, x: Totals, q: Totals)
    ensures Plus(p, Plus(x, q)) == Plus(x, Plus(p, q))
  {
  }

  lemma PlusZero(a: Totals)
    ensures Plus(a, Totals(0.0, 0)) == a
  {
  }

  /** The three filters of the report. */
  function SentBy(w: string): Tx -> bool {
    (t: Tx) => t.sender == w && t.status == StatusConfirmed
  }

  function ReceivedBy(w: string): Tx -> bool {
    (t: Tx) => t.receiver == w && t.status == StatusConfirmed
  }

  /** Zakat is selected by type alone: pending deductions count too. */
  function ZakatBy(w: string): Tx -> bool {
    (t: Tx) => t.sender == w && t.kind == KindZakat
  }

  const MissingWallet := "missing wallet id"

  function SummaryBody(sent: Totals, received: Totals, zakat: Totals): map<string, Json> {
    map["total_sent_amount" := JNumber(sent.total), "total_sent_count" := JNumber(sent.count as real),
        "total_received_amount" := JNumber(received.total), "total_received_count" := JNumber(received.count as real),
        "zakat_deducted_amount" := JNumber(zakat.total), "zakat_deducted_tx_count" := JNumber(zakat.count as real)]
  }

  /** The summary of wallet `w` over the stored transactions `txs`. */
  function GetReportsSummary(txs: seq<Tx>, w: string): (r: Reply)
    ensures w == "" <==> r == Failure(401, MissingWallet)
    ensures w != "" ==>
      && r.Success?
      && r.body.Keys == {"total_sent_amount", "total_sent_count", "total_received_amount",
                         "total_received_count", "zakat_deducted_amount", "zakat_deducted_tx_count"}
      && r.body["total_sent_amount"] == JNumber(Amounts(Filter(txs, SentBy(w))))
      && r.body["total_sent_count"] == JNumber(|Filter(txs, SentBy(w))| as real)
      && r.body["total_received_amount"] == JNumber(Amounts(Filter(txs, ReceivedBy(w))))
      && r.body["total_received_count"] == JNumber(|Filter(txs, ReceivedBy(w))| as real)
      && r.body["zakat_deducted_amount"] == JNumber(Amounts(Filter(txs, ZakatBy(w))))
      && r.body["zakat_deducted_tx_count"] == JNumber(|Filter(txs, ZakatBy(w))| as real)
  {
    if w == "" then Failure(401, MissingWallet)
    else
      var sent := Aggregate(txs, SentBy(w));
      var received := Aggregate(txs, ReceivedBy(w));
      var zakat := Aggregate(txs, ZakatBy(w));
      AggregateIsFilter(txs, SentBy(w));
      AggregateIsFilter(txs, ReceivedBy(w));
      AggregateIsFilter(txs, ZakatBy(w));
      Success(SummaryBody(sent, received, zakat))
  }

  /** A confirmed zakat deduction sent by the wallet is counted twice: once
      among the sent transactions and once among the zakat ones. */
  lemma ZakatCountedTwice(pre: seq<Tx>, t: Tx, post: seq<Tx>, w: string)
    requires t.sender == w && t.kind == KindZakat && t.status == StatusConfirmed
    ensures var txs := pre + [t] + post;
      && Aggregate(txs, SentBy(w)) == Plus(Plus(Aggregate(pre, SentBy(w)), Totals(t.amount, 1)), Aggregate(post, SentBy(w)))
      && Aggregate(txs, ZakatBy(w)) == Plus(Plus(Aggregate(pre, ZakatBy(w)), Totals(t.amount, 1)), Aggregate(post, ZakatBy(w)))
  {
    AggregateAppend(pre + [t], post, SentBy(w));
    AggregateAppend(pre, [t], SentBy(w));
    AggregateAppend(pre + [t], post, ZakatBy(w));
    AggregateAppend(pre, [t], ZakatBy(w));
  }
}
