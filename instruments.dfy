/** A-share instruments as the data setup creates them and the backtest
    reads them back: the `SYMBOL.VENUE` identifier, the equity record and the
    daily bar-type string both scripts build from the identifier. */
module Instruments {
  import opened Wrappers
  import opened Text

  datatype InstrumentId = InstrumentId(symbol: string, venue: string)

  /** `str(InstrumentId)`: symbol, '.', venue. */
  function IdText(id: InstrumentId): string
  {
    id.symbol + "." + id.venue
  }

  /** Index of the last '.' in s, if any. */
  function LastDot(s: string): (r: Option<nat>)
    ensures r.Some? ==> r.value < |s| && s[r.value] == '.'
    ensures r.Some? ==> forall j :: r.value < j < |s| ==> s[j] != '.'
    ensures r.None? ==> forall j :: 0 <= j < |s| ==> s[j] != '.'
  {
    if s == [] then None
    else if s[|s| - 1] == '.' then Some(|s| - 1)
    else LastDot(s[..|s| - 1])
  }

  /** `InstrumentId.from_str`: split at the last '.', both parts non-empty;
      None where the constructor raises. */
  function ParseId(s: string): (r: Option<InstrumentId>)
    ensures r.Some? ==> WellFormed(r.value) && IdText(r.value) == s
  {
    match LastDot(s)
    case None => None
    case Some(k) =>
      if 0 < k < |s| - 1 then
        assert s[..k] + "." + s[k + 1..] == s;
        Some(InstrumentId(s[..k], s[k + 1..]))
      else None
  }

  /** The instrument record of the equity the setup script creates. */
  datatype Equity = Equity(
    id: InstrumentId, rawSymbol: string, currency: string,
    pricePrecision: nat, priceIncrement: real, lotSize: nat,
    tsEvent: int, tsInit: int)

  const Currency := "CNY"
  const PricePrecision: nat := 2
  /** `Price.from_str("0.01")`. */
  const PriceIncrement: real := 0.01
  /** A board lot on the Shanghai and Shenzhen exchanges. */
  const LotSize: nat := 100

  /** `create_ashare_instrument(symbol, venue_name)`: the equity whose id is
      parsed from `symbol.venue`; None where that parse raises. */
  function CreateAshareInstrument(symbol: string, venue: string): (r: Option<Equity>)
    ensures WellFormed(InstrumentId(symbol, venue)) ==> r.Some?
    ensures r.Some? ==> WellFormed(r.value.id) && IdText(r.value.id) == symbol + "." + venue
    ensures r.Some? ==> r.value.rawSymbol == symbol && r.value.currency == "CNY" && r.value.lotSize == 100
  {
    var r := match ParseId(symbol + "." + venue)
      case None => None
      case Some(id) => Some(Equity(id, symbol, Currency, PricePrecision, PriceIncrement, LotSize, 0, 0));
    if WellFormed(InstrumentId(symbol, venue)) then
      ParseIdText(InstrumentId(symbol, venue));
      r
    else r
  }

  const BarSpecSuffix := "-1-DAY-LAST-EXTERNAL"

  /** `f"{instrument.id}-1-DAY-LAST-EXTERNAL"`: one-day bars of the last
      price, aggregated outside the engine. Built the same way by the setup
      script and at all three places of the backtest. */
  function BarTypeText(id: InstrumentId): string
  {
    IdText(id) + BarSpecSuffix
  }

  /** A well-formed id: both parts present and no '.' in the venue. */
  predicate WellFormed(id: InstrumentId)
  {
    id.symbol != [] && id.venue != [] && '.' !in id.venue
  }

  // -------------------------------------------------------------- lemmas

  /** Printing a well-formed id and parsing it back gives the same id, so the
      venue the backtest reads (`instrument.id.venue`) is the one the setup
      script was given. */
  lemma ParseIdText(id: InstrumentId)
    requires WellFormed(id)
    ensures ParseId(IdText(id)) == Some(id)
  {
    var s := IdText(id);
    var k := |id.symbol|;
    assert s[k] == '.';
    forall j | k < j < |s| ensures s[j] != '.' {
      assert s[j] == id.venue[j - k - 1];
    }
    LastDotAt(s, k);
    assert s[..k] == id.symbol;
    assert s[k + 1..] == id.venue;
  }

  /** The id can be read back from the front of its bar-type string. */
  lemma BarTypeNamesId(id: InstrumentId)
    requires WellFormed(id)
    ensures |BarTypeText(id)| == |IdText(id)| + |BarSpecSuffix|
    ensures ParseId(BarTypeText(id)[..|IdText(id)|]) == Some(id)
  {
    assert BarTypeText(id)[..|IdText(id)|] == IdText(id);
    ParseIdText(id);
  }

  lemma {:induction false} LastDotAt(s: string, k: nat)
    requires k < |s| && s[k] == '.'
    requires forall j :: k < j < |s| ==> s[j] != '.'
    ensures LastDot(s) == Some(k)
    decreases |s|
  {
    if k < |s| - 1 {
      LastDotAt(s[..|s| - 1], k);
    }
  }

  /** A created instrument carries the id `symbol.venue`, is quoted in CNY
      with two decimals and a tick of 10^-2, trades in lots of 100 and is
      stamped at time 0. */
  lemma CreatedInstrument(symbol: string, venue: string)
    requires WellFormed(InstrumentId(symbol, venue))
    ensures CreateAshareInstrument(symbol, venue).Some?
    ensures var e := CreateAshareInstrument(symbol, venue).value;
      e.id == InstrumentId(symbol, venue) && IdText(e.id) == symbol + "." + venue
      && e.rawSymbol == symbol && e.currency == "CNY"
      && e.pricePrecision == 2 && e.priceIncrement == 1.0 / Pow10(e.pricePrecision) as real
      && e.lotSize == 100 && e.tsEvent == 0 && e.tsInit == 0
  {
    ParseIdText(InstrumentId(symbol, venue));
    assert Pow10(2) == 100;
  }

  /** Creation fails (the per-stock handler catches it) when the venue is
      empty, or when the symbol is empty and the venue has no '.'. */
  lemma CreateRejectsEmpty(symbol: string, venue: string)
    requires venue == [] || (symbol == [] && '.' !in venue)
    ensures CreateAshareInstrument(symbol, venue).None?
  {
    var s := symbol + "." + venue;
    if venue == [] {
      assert s[|s| - 1] == '.';
    } else {
      assert s[0] == '.';
      forall j | 0 < j < |s| ensures s[j] != '.' {
        assert s[j] == venue[j - 1];
      }
      LastDotAt(s, 0);
    }
  }

  /** Distinct well-formed instruments have distinct bar types, so each bar
      type names exactly one instrument. */
  lemma BarTypeInjective(a: InstrumentId, b: InstrumentId)
    requires WellFormed(a) && WellFormed(b)
    requires BarTypeText(a) == BarTypeText(b)
    ensures a == b
  {
    var ta, tb := IdText(a), IdText(b);
    assert |ta| == |tb|;
    assert ta == BarTypeText(a)[..|ta|];
    assert tb == BarTypeText(b)[..|tb|];
    ParseIdText(a);
    ParseIdText(b);
  }

  /** The first stock of the setup list, 600519 at SSE. */
  lemma MoutaiExample()
    ensures CreateAshareInstrument("600519", "SSE")
         == Some(Equity(InstrumentId("600519", "SSE"), "600519", "CNY", 2, 0.01, 100, 0, 0))
  {
    assert "SSE"[0] != '.' && "SSE"[1] != '.' && "SSE"[2] != '.';
    assert WellFormed(InstrumentId("600519", "SSE"));
    CreatedInstrument("600519", "SSE");
  }

  /** Its id prints as `600519.SSE`, and its daily bars are
      `600519.SSE-1-DAY-LAST-EXTERNAL`. */
  lemma MoutaiBarType()
    ensures IdText(InstrumentId("600519", "SSE")) == "600519.SSE"
    ensures BarTypeText(InstrumentId("600519", "SSE")) == "600519.SSE-1-DAY-LAST-EXTERNAL"
  {
  }
}
