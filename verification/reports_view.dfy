/** The reports page: the figures it derives from the summary reply and
    the "run zakat" button. */
module ReportsView {
  import opened Wrappers
  import opened Ledger
  import opened Http
  import opened Store
  import opened Client
  import Reports
  import Routes

  type Summary = map<string, Json>

  /** `summary?.key || 0` for an amount or a count: the number when the
      field holds a non-zero number, else 0. */
  function NumberOr0(summary: Summary, key: string): (n: real)
    ensures key in summary && summary[key].JNumber? ==> n == summary[key].n
    ensures !(key in summary && summary[key].JNumber?) ==> n == 0.0
  {
    if key in summary && summary[key].JNumber? then summary[key].n else 0.0
  }

  /** Received minus sent minus zakat. */
  function NetFlow(summary: Summary): real {
    NumberOr0(summary, "total_received_amount")
      - NumberOr0(summary, "total_sent_amount")
      - NumberOr0(summary, "zakat_deducted_amount")
  }

  /** The sign shown in front of the net flow. */
  function SignPrefix(net: real): (p: string)
    ensures p == "+" <==> net >= 0.0
    ensures p == "" <==> net < 0.0
  {
    if net >= 0.0 then "+" else ""
  }

  /** The number of transactions over the three cards. */
  function TotalActivity(summary: Summary): real {
    NumberOr0(summary, "total_sent_count")
      + NumberOr0(summary, "total_received_count")
      + NumberOr0(summary, "zakat_deducted_tx_count")
  }

  /** `summary?.key ?? 0` for a count shown on a card. */
  function CountOr0(summary: Summary, key: string): (c: Json)
    ensures key in summary && summary[key] != JNull ==> c == summary[key]
    ensures !(key in summary && summary[key] != JNull) ==> c == JNumber(0.0)
  {
    if key in summary && summary[key] != JNull then summary[key] else JNumber(0.0)
  }

  /** The plural suffix: none for exactly one transaction. */
  function Plural(count: Json): (s: string)
    ensures s == "" <==> count == JNumber(1.0)
    ensures s == "s" <==> count != JNumber(1.0)
  {
    if count == JNumber(1.0) then "" else "s"
  }

  /** `formatAmount`: a number through `render` (the browser's fixed
      four-decimal rendering), anything else as "0.0000". */
  function FormatAmount(render: real -> string, value: Option<Json>): (s: string)
    ensures value.Some? && value.value.JNumber? ==> s == render(value.value.n)
    ensures !(value.Some? && value.value.JNumber?) ==> s == "0.0000"
  {
    if value.Some? && value.value.JNumber? then render(value.value.n) else "0.0000"
  }

  /** The figures of a summary the service computed: net flow and activity
      are the report's totals combined, so a confirmed zakat transaction is
      subtracted once as sent and once as zakat. */
  lemma FiguresOfSummary(txs: seq<Tx>, w: string)
    requires w != ""
    ensures var s := Reports.GetReportsSummary(txs, w).body;
      && NetFlow(s) == Reports.Amounts(Filter(txs, Reports.ReceivedBy(w)))
                       - Reports.Amounts(Filter(txs, Reports.SentBy(w)))
                       - Reports.Amounts(Filter(txs, Reports.ZakatBy(w)))
      && TotalActivity(s) == (|Filter(txs, Reports.SentBy(w))| + |Filter(txs, Reports.ReceivedBy(w))|
                              + |Filter(txs, Reports.ZakatBy(w))|) as real
  {
  }

  /** One confirmed zakat deduction of the wallet lowers the net flow the
      page shows by twice its amount, and raises the activity by two. */
  lemma ZakatChargedTwice(pre: seq<Tx>, t: Tx, post: seq<Tx>, w: string)
    requires w != "" && t.sender == w && t.receiver != w
    requires t.kind == KindZakat && t.status == StatusConfirmed
    ensures var with := Reports.GetReportsSummary(pre + [t] + post, w).body;
      var without := Reports.GetReportsSummary(pre + post, w).body;
      && NetFlow(with) == NetFlow(without) - 2.0 * t.amount
      && TotalActivity(with) == TotalActivity(without) + 2.0
  {
    FiguresAsTotals(pre + [t] + post, w);
    FiguresAsTotals(pre + post, w);
    AggregatesWithZakat(pre, t, post, w);
  }

  /** The page's figures in terms of the three aggregations. */
  lemma FiguresAsTotals(txs: seq<Tx>, w: string)
    requires w != ""
    ensures var s := Reports.GetReportsSummary(txs, w).body;
      var sent := Reports.Aggregate(txs, Reports.SentBy(w));
      var received := Reports.Aggregate(txs, Reports.ReceivedBy(w));
      var zakat := Reports.Aggregate(txs, Reports.ZakatBy(w));
      && NetFlow(s) == received.total - sent.total - zakat.total
      && TotalActivity(s) == (sent.count + received.count + zakat.count) as real
  {
    Reports.AggregateIsFilter(txs, Reports.SentBy(w));
    Reports.AggregateIsFilter(txs, Reports.ReceivedBy(w));
    Reports.AggregateIsFilter(txs, Reports.ZakatBy(w));
  }

  /** Adding the deduction to the history adds it to the sent and the zakat
      aggregations and leaves the received one alone. */
  lemma AggregatesWithZakat(pre: seq<Tx>, t: Tx, post: seq<Tx>, w: string)
    requires t.sender == w && t.receiver != w
    requires t.kind == KindZakat && t.status == StatusConfirmed
    ensures Reports.Aggregate(pre + [t] + post, Reports.SentBy(w))
         == Reports.Plus(Reports.Totals(t.amount, 1), Reports.Aggregate(pre + post, Reports.SentBy(w)))
    ensures Reports.Aggregate(pre + [t] + post, Reports.ZakatBy(w))
         == Reports.Plus(Reports.Totals(t.amount, 1), Reports.Aggregate(pre + post, Reports.ZakatBy(w)))
    ensures Reports.Aggregate(pre + [t] + post, Reports.ReceivedBy(w))
         == Reports.Plus(Reports.Totals(0.0, 0), Reports.Aggregate(pre + post, Reports.ReceivedBy(w)))
  {
    AggregateInsert(pre, t, post, Reports.SentBy(w));
    AggregateInsert(pre, t, post, Reports.ZakatBy(w));
    AggregateInsert(pre, t, post, Reports.ReceivedBy(w));
  }

  lemma AggregateInsert(pre: seq<Tx>, t: Tx, post: seq<Tx>, f: Tx -> bool)
    ensures Reports.Aggregate(pre + [t] + post, f)
         == Reports.Plus(if f(t) then Reports.Totals(t.amount, 1) else Reports.Totals(0.0, 0), Reports.Aggregate(pre + post, f))
  {
    Reports.AggregateMiddle(pre, [t], post, f);
    AggregateSingle(t, f);
  }

  lemma AggregateSingle(t: Tx, f: Tx -> bool)
    ensures Reports.Aggregate([t], f) == (if f(t) then Reports.Totals(t.amount, 1) else Reports.Totals(0.0, 0))
  {
    assert [t][1..] == [];
    Reports.PlusZero(if f(t) then Reports.Totals(t.amount, 1) else Reports.Totals(0.0, 0));
  }

  // ---------------------------------------------------------------------
  // The zakat button

  datatype Page = Page(summary: Option<Summary>, error: string, zakatMsg: string)

  const ZakatDone := "Zakat run completed."
  const ZakatFallback := "Failed to run zakat. Check backend /zakat/run-self."

  /** `handleRunZakat`: the run, then a fresh summary. Both messages are
      cleared first; a refused run sets only the error; after an accepted
      run the message stays even if the refetch fails. */
  function RunZakat(p: Page, run: Answer, refetch: Result<Summary>): (r: Page)
    ensures run.Refused? ==> r == Page(p.summary, TextOr(run.serverError, ZakatFallback), "")
    ensures run.Answered? ==> r.zakatMsg == TextOr(run.message, ZakatDone)
    ensures run.Answered? && refetch.Ok? ==> r.summary == Some(refetch.value) && r.error == ""
    ensures run.Answered? && refetch.Err? ==> r.summary == p.summary
  {
    var cleared := p.(zakatMsg := "", error := "");
    match run
    case Refused(e) => cleared.(error := TextOr(e, ZakatFallback))
    case Answered(m) =>
      var shown := cleared.(zakatMsg := TextOr(m, ZakatDone));
      match refetch
      case Ok(s) => shown.(summary := Some(s))
      case Err(e) =>
        shown.(error := TextOr(if e.Message? then Some(e.text) else None, ZakatFallback))
  }

  /** What the page shows for each error of the zakat run: a soft refusal
      as the message in green, any other error as the handler's generic
      error in red. */
  lemma RunZakatShows(p: Page, text: string, refetch: Result<Summary>, bindText: string)
    ensures var r := RunZakat(p, AnswerOf(Routes.Classify(text), bindText), refetch);
      && (text in Routes.SoftErrors ==> r.zakatMsg == text)
      && (text !in Routes.SoftErrors ==> r.zakatMsg == "" && r.error == Routes.ZakatFailed)
  {
  }
}
