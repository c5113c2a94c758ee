/**
  Record builder: the computation body of `get_etf_data` once the quote and
  the one-year history are at hand. Field fallbacks follow `dict.get`
  (the default applies only to an absent key), then the indicators, the
  classifier, the expense-ratio resolver and the scores are assembled into
  one record. No record is produced when the resolver raises.
 */
module Record {
  import opened Values
  import opened Text
  import opened Indicators
  import opened Expense
  import opened Classifier
  import opened Scoring

  /** One output record. Prices and percentages are kept unrounded. */
  datatype EtfRecord = EtfRecord(
    ticker: string,
    name: string,
    asset: string,
    lwowski: int,
    price: real,
    closeAbove52w: bool,
    sma50gt150: bool,
    sma150gt200: bool,
    sma200Slope: bool,
    aum: string,
    rsi: int,
    near52wPct: real,
    week52High: real,
    prevClose: real,
    volume: real,
    expense: real)

  const NameLength: nat := 60
  const AumUnavailable: string := "N/A"

  /** The current price: `regularMarketPrice`, else `currentPrice`, else the
      last close, else 0. A key that is present with None gives 0. */
  function Price(info: Quote, hist: seq<Bar>): (p: real)
    ensures "regularMarketPrice" in info ==> p == SafeFloat(info["regularMarketPrice"], 0.0)
    ensures "regularMarketPrice" !in info && "currentPrice" in info ==>
      p == SafeFloat(info["currentPrice"], 0.0)
    ensures "regularMarketPrice" !in info && "currentPrice" !in info ==>
      p == (if hist == [] then 0.0 else hist[|hist| - 1].close)
  {
    var lastClose := if hist == [] then Int(0) else Num(hist[|hist| - 1].close);
    SafeFloat(Get(info, "regularMarketPrice", Get(info, "currentPrice", lastClose)), 0.0)
  }

  /** A later fallback is not consulted when an earlier key is present but
      None: the price is then 0, not `currentPrice`. */
  lemma PresentNoneIsNotAbsent(hist: seq<Bar>)
    ensures Price(map["regularMarketPrice" := NoneValue, "currentPrice" := Num(5.0)], hist) == 0.0
  {
  }

  /** A name held as a Python int renders without a decimal point, one held
      as a whole float with ".0". */
  lemma NumericNames(ticker: string)
    ensures DisplayName(map["longName" := Int(5)], ticker) == "5"
    ensures DisplayName(map["shortName" := Num(5.0)], ticker) == "5.0"
  {
    assert NatToString(5) == "5";
  }

  /** `regularMarketVolume`, 0 when absent. */
  function Volume(info: Quote): (v: real)
    ensures "regularMarketVolume" !in info ==> v == 0.0
    ensures "regularMarketVolume" in info ==> v == SafeFloat(info["regularMarketVolume"], 0.0)
  {
    SafeFloat(Get(info, "regularMarketVolume", Int(0)), 0.0)
  }

  /** `fiftyTwoWeekHigh`, else the highest high of the history, else the price. */
  function Week52High(info: Quote, hist: seq<Bar>, price: real): (h: real)
    ensures "fiftyTwoWeekHigh" in info ==> h == SafeFloat(info["fiftyTwoWeekHigh"], 0.0)
    ensures "fiftyTwoWeekHigh" !in info && hist == [] ==> h == price
    ensures "fiftyTwoWeekHigh" !in info && hist != [] ==>
      (forall i :: 0 <= i < |hist| ==> hist[i].high <= h) &&
      (exists i :: 0 <= i < |hist| && hist[i].high == h)
  {
    SafeFloat(Get(info, "fiftyTwoWeekHigh", if hist == [] then Num(price) else Num(MaxHigh(hist))), 0.0)
  }

  /** `totalAssets`, else `marketCap`, else 0. */
  function Aum(info: Quote): (a: real)
    ensures "totalAssets" in info ==> a == SafeFloat(info["totalAssets"], 0.0)
    ensures "totalAssets" !in info && "marketCap" in info ==> a == SafeFloat(info["marketCap"], 0.0)
    ensures "totalAssets" !in info && "marketCap" !in info ==> a == 0.0
  {
    SafeFloat(Get(info, "totalAssets", Get(info, "marketCap", Int(0))), 0.0)
  }

  /** `regularMarketPreviousClose`, else 99% of the price. */
  function PrevClose(info: Quote, price: real): (p: real)
    ensures "regularMarketPreviousClose" !in info ==> p == price * 0.99
    ensures "regularMarketPreviousClose" in info ==> p == SafeFloat(info["regularMarketPreviousClose"], 0.0)
  {
    SafeFloat(Get(info, "regularMarketPreviousClose", Num(price * 0.99)), 0.0)
  }

  /** Python's `str(v)`. An int is rendered in decimal ("5"); a float only
      when it is a whole number below 10^16 in magnitude ("5.0"); other
      floats give "". */
  function PyStr(v: FieldValue): string
  {
    match v
    case NoneValue => "None"
    case NaN => "nan"
    case Bool(b) => if b then "True" else "False"
    case Int(i) => IntToString(i)
    case Str(s) => s
    case Num(x) =>
      if x == x.Floor as real && -10000000000000000.0 < x < 10000000000000000.0
      then IntToString(x.Floor) + ".0" else ""
  }

  /** `str(info.get('longName', info.get('shortName', ticker)))`. */
  function DisplayName(info: Quote, ticker: string): (name: string)
    ensures "longName" in info ==> name == PyStr(info["longName"])
    ensures "longName" !in info && "shortName" in info ==> name == PyStr(info["shortName"])
    ensures "longName" !in info && "shortName" !in info ==> name == ticker
    ensures "longName" in info && info["longName"].Str? ==> name == info["longName"].s
  {
    PyStr(Get(info, "longName", Get(info, "shortName", Str(ticker))))
  }

  /** `str(int(aum / 1e6)) if aum else 'N/A'`: whole millions, or the sentinel. */
  function AumText(aum: real): (s: string)
    ensures s == AumUnavailable <==> aum == 0.0
    ensures aum != 0.0 ==> ParseInt(s) == Some(TruncToInt(aum / 1000000.0))
    ensures aum != 0.0 ==> (s[0] == '-' <==> TruncToInt(aum / 1000000.0) < 0)
    ensures aum != 0.0 && |s| > 1 ==> s[0] != '0'
  {
    if aum != 0.0 then
      var text := IntToString(TruncToInt(aum / 1000000.0));
      IntToStringRoundTrip(TruncToInt(aum / 1000000.0));
      assert ParseInt(AumUnavailable) == None;
      text
    else AumUnavailable
  }

  lemma AumTextExamples()
    ensures AumText(1234567000.0) == "1234"
    ensures AumText(0.0) == "N/A"
  {
    assert TruncToInt(1234567000.0 / 1000000.0) == 1234;
    assert NatToString(1) == "1";
    assert NatToString(12) == NatToString(1) + "2";
    assert NatToString(123) == NatToString(12) + "3";
    assert NatToString(1234) == NatToString(123) + "4";
  }

  /** `get_etf_data` after the fetch: the record for `ticker`, or None when
      building it raises. */
  function BuildRecord(ticker: string, info: Quote, hist: seq<Bar>): (r: Option<EtfRecord>)
    ensures r.None? <==> ExpenseRatio(info, ticker).None?
    ensures r.Some? ==>
      var rec := r.value;
      var name := DisplayName(info, ticker);
      && rec.ticker == ticker
      && rec.name == Truncate(name, NameLength)
      && |rec.name| <= NameLength
      && rec.asset == Label(Classify(name, ticker))
      && rec.price == Price(info, hist)
      && rec.week52High == Week52High(info, hist, rec.price)
      && rec.prevClose == PrevClose(info, rec.price)
      && rec.lwowski == Lwowski(Aum(info), Volume(info))
      && MinScore <= rec.lwowski <= MaxScore
      && rec.rsi == Rsi14(Closes(hist))
      && 0 <= rec.rsi <= 100
      && (|hist| < RsiWindow ==> rec.rsi == RsiDefault)
      && (|hist| >= RsiWindow ==>
            rec.rsi == RsiReference(MeanGain(Closes(hist)), MeanLoss(Closes(hist))))
      && rec.aum == AumText(Aum(info))
      && (rec.aum == AumUnavailable <==> Aum(info) == 0.0)
      && rec.expense == ExpenseRatio(info, ticker).value * 100.0
      && rec.expense > 0.0
      && rec.volume == Volume(info) / 1000000.0
      && rec.sma50gt150 == SmaAbove(Sma(Closes(hist), 50), Sma(Closes(hist), 150))
      && rec.sma150gt200 == SmaAbove(Sma(Closes(hist), 150), Sma(Closes(hist), 200))
      && rec.sma200Slope == PriceAboveSma(Sma(Closes(hist), 200), rec.price)
      && (|hist| < 150 ==> !rec.sma50gt150 && !rec.sma150gt200)
      && (|hist| < 200 ==> !rec.sma150gt200 && !rec.sma200Slope)
      && (rec.closeAbove52w <==> rec.price >= 0.98 * rec.week52High)
      && rec.near52wPct == Near52wPct(rec.price, rec.week52High)
      && (rec.week52High <= 0.0 ==> rec.near52wPct == 100.0)
  {
    var closes := Closes(hist);
    var sma50 := Sma(closes, 50);
    var sma150 := Sma(closes, 150);
    var sma200 := Sma(closes, 200);
    var price := Price(info, hist);
    var volume := Volume(info);
    var high := Week52High(info, hist, price);
    var aum := Aum(info);
    match ExpenseRatio(info, ticker)
    case None => None
    case Some(expense) =>
      var name := DisplayName(info, ticker);
      var rsi := Rsi14(closes);
      Rsi14InRange(closes);
      Rsi14MatchesReference(closes);
      Some(EtfRecord(
        ticker := ticker,
        name := Truncate(name, NameLength),
        asset := Label(Classify(name, ticker)),
        lwowski := Lwowski(aum, volume),
        price := price,
        closeAbove52w := CloseAbove52w(price, high),
        sma50gt150 := SmaAbove(sma50, sma150),
        sma150gt200 := SmaAbove(sma150, sma200),
        sma200Slope := PriceAboveSma(sma200, price),
        aum := AumText(aum),
        rsi := rsi,
        near52wPct := Near52wPct(price, high),
        week52High := high,
        prevClose := PrevClose(info, price),
        volume := volume / 1000000.0,
        expense := expense * 100.0))
  }
}
