/**
  Expense-ratio resolver: the first usable value among five quote fields, in
  a fixed order; else the static per-ticker table; else 0.30.
 */
module Expense {
  import opened Values

  /** The quote fields tried, most authoritative first. */
  const ExpenseFields: seq<string> := [
    "annualReportExpenseRatio",
    "expenseRatio",
    "annualExpenseRatio",
    "prospectusNetExpenseRatio",
    "managementExpenseRatio"
  ]

  /** The ratio used when neither the quote nor the table gives one. The unit
      is the table's (the record later multiplies it by 100). */
  const DefaultExpense: real := 0.30

  /** The static fallback table, in the order of `known_expenses`. It is written as four
      disjoint blocks of twenty tickers so that facts about it can be checked
      block by block. */
  const KnownExpenses: map<string, real> := ExpenseBlock1 + ExpenseBlock2 + ExpenseBlock3 + ExpenseBlock4

  const ExpenseBlock1: map<string, real> := map[
    "SPY" := 0.0945, "QQQ" := 0.20, "IVV" := 0.04, "VOO" := 0.03, "VTI" := 0.03,
    "BND" := 0.03, "AGG" := 0.03, "GLD" := 0.40, "SLV" := 0.50, "IEFA" := 0.07,
    "EEM" := 0.68, "VWO" := 0.08, "TLT" := 0.15, "IWM" := 0.19, "XLK" := 0.10,
    "XLV" := 0.10, "XLE" := 0.10, "XLF" := 0.10, "XLI" := 0.10, "XLB" := 0.10
  ]

  const ExpenseBlock2: map<string, real> := map[
    "XLP" := 0.10, "XLU" := 0.10, "XLY" := 0.10, "SMH" := 0.35, "SOXX" := 0.35,
    "IBB" := 0.45, "KBE" := 0.35, "KRE" := 0.35, "USO" := 0.60, "UNG" := 0.60,
    "HYG" := 0.49, "LQD" := 0.14, "SHY" := 0.15, "IEI" := 0.15, "TIP" := 0.19,
    "VNQ" := 0.12, "DBC" := 0.85, "GDX" := 0.51, "GDXJ" := 0.51, "EWJ" := 0.49
  ]

  const ExpenseBlock3: map<string, real> := map[
    "MCHI" := 0.59, "FXI" := 0.74, "INDA" := 0.64, "EPI" := 0.59, "EWZ" := 0.59,
    "ARKK" := 0.75, "ARKW" := 0.75, "ARKG" := 0.75, "QCLN" := 0.40, "TAN" := 0.65,
    "ICLN" := 0.46, "PBW" := 0.60, "XBI" := 0.35, "LABU" := 1.48, "BLOK" := 0.75,
    "FINX" := 0.68, "LIT" := 0.75, "REMX" := 0.65, "URA" := 0.70, "KOL" := 0.65
  ]

  const ExpenseBlock4: map<string, real> := map[
    "SCHD" := 0.06, "VYM" := 0.06, "VIG" := 0.06, "NOBL" := 0.35, "SPHD" := 0.28,
    "JEPI" := 0.35, "JEPQ" := 0.35, "DIVO" := 0.50, "SCHG" := 0.04, "VUG" := 0.04,
    "IVW" := 0.18, "IJR" := 0.06, "IJH" := 0.05, "IJS" := 0.18, "IJT" := 0.18,
    "AVUV" := 0.25, "AVDV" := 0.36, "AVEM" := 0.33, "AVDE" := 0.27, "AVUS" := 0.15
  ]

  /** `info.get(field)`: None when the field is absent. */
  function Lookup(info: Quote, field: string): FieldValue
  {
    Get(info, field, NoneValue)
  }

  /** `value and not pd.isna(value) and value > 0` holds: a positive int or
      float, or True (a bool compares as 0 or 1). */
  predicate Qualifies(v: FieldValue)
  {
    (v.Num? && v.x > 0.0) || (v.Int? && v.i > 0) || v == Bool(true)
  }

  /** The same test raises: a non-empty string is truthy and not NaN, and
      comparing it with 0 is a TypeError. */
  predicate Raises(v: FieldValue)
  {
    v.Str? && v.s != ""
  }

  /** The outcome of scanning the fields. */
  datatype Scan = Found(ratio: real) | Exhausted | TypeError

  /** The loop over the fields, which returns at the first qualifying value. */
  function ScanFields(info: Quote, fields: seq<string>): Scan
    decreases |fields|
  {
    if fields == [] then Exhausted
    else
      var v := Lookup(info, fields[0]);
      if Raises(v) then TypeError
      else if Qualifies(v) then Found(SafeFloat(v, 0.0))
      else ScanFields(info, fields[1..])
  }

  /** `get_expense_ratio(info, ticker)`; None when it raises. */
  function ExpenseRatio(info: Quote, ticker: string): (r: Option<real>)
    ensures r.Some? ==> r.value > 0.0
  {
    match ScanFields(info, ExpenseFields)
    case Found(x) => Some(x)
    case TypeError => None
    case Exhausted =>
      KnownExpensesPositive();
      Some(if ticker in KnownExpenses then KnownExpenses[ticker] else DefaultExpense)
  }

  /** Every ratio in the static table is positive. */
  lemma KnownExpensesPositive()
    ensures forall t :: t in KnownExpenses ==> KnownExpenses[t] > 0.0
  {
    Block1Positive();
    Block2Positive();
    Block3Positive();
    Block4Positive();
  }

  lemma Block1Positive() ensures forall t :: t in ExpenseBlock1 ==> ExpenseBlock1[t] > 0.0 {}
  lemma Block2Positive() ensures forall t :: t in ExpenseBlock2 ==> ExpenseBlock2[t] > 0.0 {}
  lemma Block3Positive() ensures forall t :: t in ExpenseBlock3 ==> ExpenseBlock3[t] > 0.0 {}
  lemma Block4Positive() ensures forall t :: t in ExpenseBlock4 ==> ExpenseBlock4[t] > 0.0 {}

  /** No field before index `k` decides the scan. */
  ghost predicate UndecidedBefore(info: Quote, fields: seq<string>, k: nat)
    requires k <= |fields|
  {
    forall j :: 0 <= j < k ==> !Qualifies(Lookup(info, fields[j])) && !Raises(Lookup(info, fields[j]))
  }

  lemma {:induction false} ScanFirstQualifying(info: Quote, fields: seq<string>, k: nat)
    requires k < |fields|
    requires UndecidedBefore(info, fields, k)
    requires Qualifies(Lookup(info, fields[k]))
    ensures ScanFields(info, fields) == Found(SafeFloat(Lookup(info, fields[k]), 0.0))
    decreases k
  {
    if k > 0 {
      assert !Qualifies(Lookup(info, fields[0])) && !Raises(Lookup(info, fields[0]));
      assert forall j :: 0 <= j < k - 1 ==> fields[1..][j] == fields[j + 1];
      ScanFirstQualifying(info, fields[1..], k - 1);
    } else {
      assert !Raises(Lookup(info, fields[0]));
    }
  }

  lemma {:induction false} ScanExhausted(info: Quote, fields: seq<string>)
    requires UndecidedBefore(info, fields, |fields|)
    ensures ScanFields(info, fields) == Exhausted
    decreases |fields|
  {
    if fields != [] {
      assert !Qualifies(Lookup(info, fields[0])) && !Raises(Lookup(info, fields[0]));
      assert forall j :: 0 <= j < |fields| - 1 ==> fields[1..][j] == fields[j + 1];
      ScanExhausted(info, fields[1..]);
    }
  }

  /** Priority: when field `k` is the first one that qualifies, its value is
      the result, whatever the later fields hold. */
  lemma ExpensePriority(info: Quote, ticker: string, k: nat)
    requires k < |ExpenseFields|
    requires UndecidedBefore(info, ExpenseFields, k)
    requires Qualifies(Lookup(info, ExpenseFields[k]))
    ensures ExpenseRatio(info, ticker) == Some(SafeFloat(Lookup(info, ExpenseFields[k]), 0.0))
  {
    ScanFirstQualifying(info, ExpenseFields, k);
  }

  /** Two quotes that agree on the fields up to and including the first
      qualifying one resolve to the same ratio. */
  lemma ExpenseIgnoresLaterFields(info1: Quote, info2: Quote, ticker: string, k: nat)
    requires k < |ExpenseFields|
    requires forall j :: 0 <= j <= k ==> Lookup(info1, ExpenseFields[j]) == Lookup(info2, ExpenseFields[j])
    requires UndecidedBefore(info1, ExpenseFields, k)
    requires Qualifies(Lookup(info1, ExpenseFields[k]))
    ensures ExpenseRatio(info1, ticker) == ExpenseRatio(info2, ticker)
  {
    ExpensePriority(info1, ticker, k);
    ExpensePriority(info2, ticker, k);
  }

  /** Fallback: when no field qualifies or raises, the table value, else 0.30. */
  lemma ExpenseFallback(info: Quote, ticker: string)
    requires UndecidedBefore(info, ExpenseFields, |ExpenseFields|)
    ensures ticker in KnownExpenses ==> ExpenseRatio(info, ticker) == Some(KnownExpenses[ticker])
    ensures ticker !in KnownExpenses ==> ExpenseRatio(info, ticker) == Some(0.30)
  {
    ScanExhausted(info, ExpenseFields);
  }

  /** A non-empty string reached before any qualifying field makes the scan
      raise, whatever the later fields hold. */
  lemma {:induction false} ScanRaisesAt(info: Quote, fields: seq<string>, k: nat)
    requires k < |fields|
    requires UndecidedBefore(info, fields, k)
    requires Raises(Lookup(info, fields[k]))
    ensures ScanFields(info, fields) == TypeError
    decreases k
  {
    if k > 0 {
      assert !Qualifies(Lookup(info, fields[0])) && !Raises(Lookup(info, fields[0]));
      assert forall j :: 0 <= j < k - 1 ==> fields[1..][j] == fields[j + 1];
      ScanRaisesAt(info, fields[1..], k - 1);
    }
  }

  /** Conversely, a scan that raises has reached a non-empty string before
      any qualifying field. */
  lemma {:induction false} ScanTypeErrorWitness(info: Quote, fields: seq<string>)
    requires ScanFields(info, fields) == TypeError
    ensures exists k :: 0 <= k < |fields| && UndecidedBefore(info, fields, k) && Raises(Lookup(info, fields[k]))
    decreases |fields|
  {
    var v := Lookup(info, fields[0]);
    if Raises(v) {
      assert UndecidedBefore(info, fields, 0);
    } else {
      assert !Qualifies(v);
      ScanTypeErrorWitness(info, fields[1..]);
      var k' :| 0 <= k' < |fields[1..]| && UndecidedBefore(info, fields[1..], k') && Raises(Lookup(info, fields[1..][k']));
      assert forall j :: 0 <= j < k' ==> fields[1..][j] == fields[j + 1];
      assert UndecidedBefore(info, fields, k' + 1);
      assert Raises(Lookup(info, fields[k' + 1]));
    }
  }

  /** The resolver fails exactly when, among the five fields in order, a
      non-empty string comes before any qualifying value. */
  lemma ExpenseFailsIff(info: Quote, ticker: string)
    ensures ExpenseRatio(info, ticker).None? <==>
      exists k :: 0 <= k < |ExpenseFields| && UndecidedBefore(info, ExpenseFields, k) && Raises(Lookup(info, ExpenseFields[k]))
  {
    if ExpenseRatio(info, ticker).None? {
      ScanTypeErrorWitness(info, ExpenseFields);
    }
    if exists k :: 0 <= k < |ExpenseFields| && UndecidedBefore(info, ExpenseFields, k) && Raises(Lookup(info, ExpenseFields[k])) {
      var k :| 0 <= k < |ExpenseFields| && UndecidedBefore(info, ExpenseFields, k) && Raises(Lookup(info, ExpenseFields[k]));
      ScanRaisesAt(info, ExpenseFields, k);
    }
  }

  /** A string in a later field does not matter once an earlier field
      qualifies: 0.5 in the first field with "x" in the last resolves to 0.5. */
  lemma LaterStringIgnored(ticker: string)
    ensures ExpenseRatio(map["annualReportExpenseRatio" := Num(0.5), "managementExpenseRatio" := Str("x")], ticker)
         == Some(0.5)
  {
  }

  /** With no non-empty string among the fields the scan never raises. */
  lemma {:induction false} ScanRaisesOnlyOnStrings(info: Quote, fields: seq<string>)
    requires forall j :: 0 <= j < |fields| ==> !Raises(Lookup(info, fields[j]))
    ensures ScanFields(info, fields) != TypeError
    decreases |fields|
  {
    if fields != [] {
      assert forall j :: 0 <= j < |fields| - 1 ==> fields[1..][j] == fields[j + 1];
      ScanRaisesOnlyOnStrings(info, fields[1..]);
    }
  }

  lemma ExpenseNeverFails(info: Quote, ticker: string)
    requires forall j :: 0 <= j < |ExpenseFields| ==> !Raises(Lookup(info, ExpenseFields[j]))
    ensures ExpenseRatio(info, ticker).Some?
  {
    ScanRaisesOnlyOnStrings(info, ExpenseFields);
  }
}
