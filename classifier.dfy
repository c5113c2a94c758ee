/**
  Asset-class classifier: substring keyword matching over the lower-cased
  display name and ticker, with precedence Fixed Income, then Commodity,
  then Equity.
 */
module Classifier {
  import opened Text

  datatype AssetClass = Equity | FixedIncome | Commodity

  /** The text the record carries for each class. */
  function Label(a: AssetClass): string
  {
    match a
    case Equity => "Equity"
    case FixedIncome => "Fixed Income"
    case Commodity => "Commodity"
  }

  const BondKeywords: seq<string> := ["bond", "treasury", "aggregate", "fixed income", "corporate bond", "municipal"]
  const CommodityKeywords: seq<string> := ["gold", "silver", "oil", "commodity", "metals", "energy", "natural gas"]
  const BondTickerKeywords: seq<string> := ["bnd", "agg", "tlt", "shy", "iei", "lqd", "hyg"]
  const CommodityTickerKeywords: seq<string> := ["gld", "slv", "uso", "ung", "dbc"]

  /** `any(kw in s for kw in kws)`. */
  predicate AnyIn(kws: seq<string>, s: string)
  {
    exists k :: 0 <= k < |kws| && Contains(s, kws[k])
  }

  predicate IsBond(name: string, ticker: string)
  {
    AnyIn(BondKeywords, Lower(name)) || AnyIn(BondTickerKeywords, Lower(ticker))
  }

  predicate IsCommodity(name: string, ticker: string)
  {
    AnyIn(CommodityKeywords, Lower(name)) || AnyIn(CommodityTickerKeywords, Lower(ticker))
  }

  function Classify(name: string, ticker: string): (a: AssetClass)
  {
    if IsBond(name, ticker) then FixedIncome
    else if IsCommodity(name, ticker) then Commodity
    else Equity
  }

  /** Some keyword of `kws` occurs at some position of `s`. */
  ghost predicate Mentions(kws: seq<string>, s: string)
  {
    exists k, i :: 0 <= k < |kws| && OccursAt(kws[k], s, i)
  }

  lemma AnyInIff(kws: seq<string>, s: string)
    ensures AnyIn(kws, s) <==> Mentions(kws, s)
  {
    forall k | 0 <= k < |kws| {
      ContainsIff(s, kws[k]);
    }
  }

  /** The classes in terms of keyword occurrences: Fixed Income exactly when
      a bond keyword occurs in the lower-cased name or a bond ticker keyword
      occurs in the lower-cased ticker; Commodity exactly when that fails and
      a commodity keyword occurs likewise; Equity when neither occurs. */
  lemma ClassifyByOccurrence(name: string, ticker: string)
    ensures Classify(name, ticker) == FixedIncome <==>
      Mentions(BondKeywords, Lower(name)) || Mentions(BondTickerKeywords, Lower(ticker))
    ensures Classify(name, ticker) == Commodity <==>
      !(Mentions(BondKeywords, Lower(name)) || Mentions(BondTickerKeywords, Lower(ticker))) &&
      (Mentions(CommodityKeywords, Lower(name)) || Mentions(CommodityTickerKeywords, Lower(ticker)))
    ensures Classify(name, ticker) == Equity <==>
      !Mentions(BondKeywords, Lower(name)) && !Mentions(BondTickerKeywords, Lower(ticker)) &&
      !Mentions(CommodityKeywords, Lower(name)) && !Mentions(CommodityTickerKeywords, Lower(ticker))
  {
    AnyInIff(BondKeywords, Lower(name));
    AnyInIff(BondTickerKeywords, Lower(ticker));
    AnyInIff(CommodityKeywords, Lower(name));
    AnyInIff(CommodityTickerKeywords, Lower(ticker));
  }

  /** A name that contains a bond keyword, written in any letter case, gives
      Fixed Income whatever else the name or ticker contain. */
  lemma BondNameWins(name: string, ticker: string, word: string, k: nat)
    requires k < |BondKeywords| && Lower(word) == BondKeywords[k]
    requires Contains(name, word)
    ensures Classify(name, ticker) == FixedIncome
  {
    LowerKeepsOccurrence(word, name);
  }

  /** A name containing "Treasury" classifies as Fixed Income. */
  lemma TreasuryIsFixedIncome(name: string, ticker: string)
    requires Contains(name, "Treasury")
    ensures Classify(name, ticker) == FixedIncome
  {
    assert Lower("Treasury") == BondKeywords[1];
    BondNameWins(name, ticker, "Treasury", 1);
  }

  /** The ticker test is a substring test: any ticker that contains one of
      the bond ticker keywords (BND, AGG, ... in any case) is Fixed Income,
      not only the listed tickers themselves. */
  lemma BondTickerWins(name: string, ticker: string, k: nat)
    requires k < |BondTickerKeywords| && Contains(Lower(ticker), BondTickerKeywords[k])
    ensures Classify(name, ticker) == FixedIncome
  {
  }

  lemma XbndIsFixedIncome(name: string)
    ensures Classify(name, "XBNDX") == FixedIncome
  {
    assert Lower("XBNDX") == "xbndx";
    assert Contains("xbndx"[1..], "bnd");
    BondTickerWins(name, "XBNDX", 0);
  }

  /** The keyword "corporate bond" never changes a classification: any name
      that contains it also contains "bond". */
  lemma CorporateBondSubsumed(s: string)
    requires Contains(s, "corporate bond")
    ensures Contains(s, "bond")
  {
    assert "corporate bond"[10..] == "bond";
    assert Contains("corporate bond"[10..], "bond");
    assert Contains("corporate bond", "bond");
    ContainsTransitive(s, "corporate bond", "bond");
  }
}
