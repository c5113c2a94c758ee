/**
  Batch orchestrator: the loop of `get_etfs` over the fixed ticker universe.
  Each ticker's fetch-and-build either yields a record, which joins the
  results, or fails, and the ticker joins the errors; the batch goes on.
 */
module Batch {
  import opened Values
  import opened Indicators
  import opened Expense
  import opened Record

  /** The ticker universe, in the order of `ETF_TICKERS`. It is written as four
      blocks of twenty so that facts about it can be checked block by block. */
  const EtfTickers: seq<string> := TickerBlock1 + TickerBlock2 + TickerBlock3 + TickerBlock4

  const TickerBlock1: seq<string> := [
    "SPY", "QQQ", "IVV", "VOO", "VTI", "BND", "AGG", "GLD", "SLV", "IEFA",
    "EEM", "VWO", "TLT", "IWM", "XLK", "XLV", "XLE", "XLF", "XLI", "XLB"
  ]

  const TickerBlock2: seq<string> := [
    "XLP", "XLU", "XLY", "SMH", "SOXX", "IBB", "KBE", "KRE", "USO", "UNG",
    "HYG", "LQD", "SHY", "IEI", "TIP", "VNQ", "DBC", "GDX", "GDXJ", "EWJ"
  ]

  const TickerBlock3: seq<string> := [
    "MCHI", "FXI", "INDA", "EPI", "EWZ", "ARKK", "ARKW", "ARKG", "QCLN", "TAN",
    "ICLN", "PBW", "XBI", "LABU", "BLOK", "FINX", "LIT", "REMX", "URA", "KOL"
  ]

  const TickerBlock4: seq<string> := [
    "SCHD", "VYM", "VIG", "NOBL", "SPHD", "JEPI", "JEPQ", "DIVO", "SCHG", "VUG",
    "IVW", "IJR", "IJH", "IJS", "IJT", "AVUV", "AVDV", "AVEM", "AVDE", "AVUS"
  ]

  /** What the market-data provider returns for one ticker. */
  datatype Snapshot = Snapshot(info: Quote, hist: seq<Bar>)

  /** The provider: None when fetching the quote or the history fails. */
  type Fetcher = string -> Option<Snapshot>

  /** `get_etf_data(ticker)`: fetch, then build; None on any failure. */
  function FetchAndBuild(fetch: Fetcher, ticker: string): (r: Option<EtfRecord>)
    ensures r.Some? ==> r.value.ticker == ticker
    ensures r.Some? <==> fetch(ticker).Some? && ExpenseRatio(fetch(ticker).value.info, ticker).Some?
  {
    match fetch(ticker)
    case None => None
    case Some(s) => BuildRecord(ticker, s.info, s.hist)
  }

  /** The records of the tickers that succeed, in the order of `ts`. */
  function Successes(fetch: Fetcher, ts: seq<string>): seq<EtfRecord>
    decreases |ts|
  {
    if ts == [] then []
    else
      var prefix := Successes(fetch, ts[..|ts| - 1]);
      match FetchAndBuild(fetch, ts[|ts| - 1])
      case Some(rec) => prefix + [rec]
      case None => prefix
  }

  /** The tickers that fail, in the order of `ts`. */
  function Failures(fetch: Fetcher, ts: seq<string>): seq<string>
    decreases |ts|
  {
    if ts == [] then []
    else
      var prefix := Failures(fetch, ts[..|ts| - 1]);
      if FetchAndBuild(fetch, ts[|ts| - 1]).None? then prefix + [ts[|ts| - 1]] else prefix
  }

  /** The tickers that succeed, in the order of `ts`. */
  function Succeeded(fetch: Fetcher, ts: seq<string>): seq<string>
    decreases |ts|
  {
    if ts == [] then []
    else
      var prefix := Succeeded(fetch, ts[..|ts| - 1]);
      if FetchAndBuild(fetch, ts[|ts| - 1]).Some? then prefix + [ts[|ts| - 1]] else prefix
  }

  function RecordTickers(rs: seq<EtfRecord>): (ts: seq<string>)
    ensures |ts| == |rs|
    ensures forall i :: 0 <= i < |rs| ==> ts[i] == rs[i].ticker
  {
    seq(|rs|, i requires 0 <= i < |rs| => rs[i].ticker)
  }

  /** Every ticker lands in exactly one of the two lists. */
  lemma {:induction false} BatchPartition(fetch: Fetcher, ts: seq<string>)
    ensures |Successes(fetch, ts)| + |Failures(fetch, ts)| == |ts|
    decreases |ts|
  {
    if ts != [] {
      BatchPartition(fetch, ts[..|ts| - 1]);
    }
  }

  /** The results are the records of the succeeding tickers, in universe
      order: their tickers, read in order, are exactly those tickers. */
  lemma {:induction false} SuccessesInOrder(fetch: Fetcher, ts: seq<string>)
    ensures RecordTickers(Successes(fetch, ts)) == Succeeded(fetch, ts)
    decreases |ts|
  {
    if ts != [] {
      SuccessesInOrder(fetch, ts[..|ts| - 1]);
      var prefix := Successes(fetch, ts[..|ts| - 1]);
      match FetchAndBuild(fetch, ts[|ts| - 1])
      case Some(rec) =>
        assert RecordTickers(prefix + [rec]) == RecordTickers(prefix) + [rec.ticker];
      case None =>
    }
  }

  /** A ticker's outcome depends on its own fetch only: two providers that
      agree on every ticker's outcome give the same batch. */
  lemma {:induction false} BatchIsolation(f1: Fetcher, f2: Fetcher, ts: seq<string>)
    requires forall i :: 0 <= i < |ts| ==> FetchAndBuild(f1, ts[i]) == FetchAndBuild(f2, ts[i])
    ensures Successes(f1, ts) == Successes(f2, ts)
    ensures Failures(f1, ts) == Failures(f2, ts)
    decreases |ts|
  {
    if ts != [] {
      BatchIsolation(f1, f2, ts[..|ts| - 1]);
      assert FetchAndBuild(f1, ts[|ts| - 1]) == FetchAndBuild(f2, ts[|ts| - 1]);
    }
  }

  /** Processing one more ticker appends its record to the results or the
      ticker itself to the errors, and leaves the other list as it was. */
  lemma {:induction false} BatchStep(fetch: Fetcher, ts: seq<string>, t: string)
    ensures FetchAndBuild(fetch, t).Some? ==>
      Successes(fetch, ts + [t]) == Successes(fetch, ts) + [FetchAndBuild(fetch, t).value] &&
      Failures(fetch, ts + [t]) == Failures(fetch, ts)
    ensures FetchAndBuild(fetch, t).None? ==>
      Successes(fetch, ts + [t]) == Successes(fetch, ts) &&
      Failures(fetch, ts + [t]) == Failures(fetch, ts) + [t]
  {
    assert (ts + [t])[..|ts|] == ts;
    assert (ts + [t])[|ts + [t]| - 1] == t;
  }

  /** Three tickers whose middle fetch fails: the first and third records,
      in that order, and the middle ticker as the only error. */
  lemma MiddleFailure(fetch: Fetcher, a: string, b: string, c: string)
    requires FetchAndBuild(fetch, a).Some? && FetchAndBuild(fetch, b).None? && FetchAndBuild(fetch, c).Some?
    ensures Successes(fetch, [a, b, c]) == [FetchAndBuild(fetch, a).value, FetchAndBuild(fetch, c).value]
    ensures Failures(fetch, [a, b, c]) == [b]
  {
    var ra, rc := FetchAndBuild(fetch, a).value, FetchAndBuild(fetch, c).value;
    BatchStep(fetch, [], a);
    assert [] + [a] == [a];
    assert Successes(fetch, [a]) == [ra] && Failures(fetch, [a]) == [];
    BatchStep(fetch, [a], b);
    assert [a] + [b] == [a, b];
    assert Successes(fetch, [a, b]) == [ra] && Failures(fetch, [a, b]) == [b];
    BatchStep(fetch, [a, b], c);
    assert [a, b] + [c] == [a, b, c];
  }

  /** The response of `get_etfs`. */
  datatype Response = Response(status: string, count: nat, data: seq<EtfRecord>)

  /** `get_etfs`: walk the universe in order, appending each record to the
      results or each failed ticker to the errors. */
  method GetEtfs(fetch: Fetcher) returns (response: Response, errors: seq<string>)
    ensures response.status == "success"
    ensures response.data == Successes(fetch, EtfTickers)
    ensures response.count == |response.data|
    ensures errors == Failures(fetch, EtfTickers)
    ensures response.count + |errors| == |EtfTickers|
  {
    var results: seq<EtfRecord> := [];
    errors := [];
    for i := 0 to |EtfTickers|
      invariant results == Successes(fetch, EtfTickers[..i])
      invariant errors == Failures(fetch, EtfTickers[..i])
    {
      var ticker := EtfTickers[i];
      assert EtfTickers[..i + 1][..i] == EtfTickers[..i];
      var data := FetchAndBuild(fetch, ticker);
      if data.Some? {
        results := results + [data.value];
      } else {
        errors := errors + [ticker];
      }
    }
    assert EtfTickers[..|EtfTickers|] == EtfTickers;
    BatchPartition(fetch, EtfTickers);
    response := Response("success", |results|, results);
  }

  /** The universe holds 80 tickers, every one of them in the static expense
      table, so for them the 0.30 default never applies. */
  lemma UniverseInExpenseTable()
    ensures |EtfTickers| == 80
    ensures forall t :: t in EtfTickers ==> t in KnownExpenses
  {
    Block1Covered();
    Block2Covered();
    Block3Covered();
    Block4Covered();
  }

  lemma Block1Covered() ensures forall t :: t in TickerBlock1 ==> t in ExpenseBlock1 {}
  lemma Block2Covered() ensures forall t :: t in TickerBlock2 ==> t in ExpenseBlock2 {}
  lemma Block3Covered() ensures forall t :: t in TickerBlock3 ==> t in ExpenseBlock3 {}
  lemma Block4Covered() ensures forall t :: t in TickerBlock4 ==> t in ExpenseBlock4 {}
}
