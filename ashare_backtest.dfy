/** The A-share daily-bar backtest: from the instruments in the catalog it
    builds one venue configuration per distinct venue, one data
    configuration and one EMA-cross strategy configuration per instrument,
    and afterwards totals the realized PnL of the positions report. The
    engine run itself is outside the model. */
module AshareBacktest {
  import opened Wrappers
  import opened Money
  import opened Instruments
  import Performance

  datatype VenueConfig = VenueConfig(
    name: string, omsType: string, accountType: string,
    baseCurrency: string, startingBalances: seq<string>)

  datatype DataConfig = DataConfig(catalogPath: string, dataCls: string, instrumentId: InstrumentId)

  datatype StrategyConfig = StrategyConfig(
    strategyPath: string, configPath: string,
    instrumentId: InstrumentId, barType: string,
    fastPeriod: nat, slowPeriod: nat, tradeSize: nat)

  datatype RunConfig = RunConfig(
    venues: seq<VenueConfig>, data: seq<DataConfig>, strategies: seq<StrategyConfig>)

  /** How `main` gets past (or stops at) its three early returns. */
  datatype Setup = CatalogMissing | NoInstruments | NoBars | Ready(run: RunConfig)

  /** `backtests/06_ashare_bars.py`, lines 63-69: a netting cash account in CNY starting with ten million. */
  function CashVenue(name: string): VenueConfig
  {
    VenueConfig(name, "NETTING", "CASH", "CNY", ["10_000_000 CNY"])
  }

  /** `backtests/06_ashare_bars.py`, lines 94-104: the EMA-cross strategy on the instrument's daily bars. */
  function EmaCross(id: InstrumentId): StrategyConfig
  {
    StrategyConfig(
      "strategies.definitions:EMACrossBarStrategy", "strategies.definitions:EMACrossBarConfig",
      id, BarTypeText(id), 5, 20, 100)
  }

  /** `backtests/06_ashare_bars.py`, line 59: the venues the instruments trade on, each once. */
  function VenueNames(instruments: seq<Equity>): (names: set<string>)
    ensures forall v :: v in names <==> exists i :: 0 <= i < |instruments| && instruments[i].id.venue == v
  {
    set e | e in instruments :: e.id.venue
  }

  /** There are never more venues than instruments, and at least one when
      there is an instrument. */
  lemma {:induction false} VenueCount(instruments: seq<Equity>)
    ensures |VenueNames(instruments)| <= |instruments|
    ensures instruments != [] ==> |VenueNames(instruments)| >= 1
  {
    if instruments != [] {
      var rest := instruments[1..];
      VenueCount(rest);
      assert VenueNames(instruments) == {instruments[0].id.venue} + VenueNames(rest) by {
        forall v ensures v in VenueNames(instruments) <==> v in {instruments[0].id.venue} + VenueNames(rest) {
          if v in VenueNames(instruments) && v != instruments[0].id.venue {
            var i :| 0 <= i < |instruments| && instruments[i].id.venue == v;
            assert rest[i - 1] == instruments[i];
          }
          if v in VenueNames(rest) {
            var i :| 0 <= i < |rest| && rest[i].id.venue == v;
            assert instruments[i + 1] == rest[i];
          }
        }
      }
      assert instruments[0].id.venue in VenueNames(instruments);
    }
  }

  /** `backtests/06_ashare_bars.py`, lines 60-69: one cash venue per name, no name twice, every name
      covered. The names come from a set, so the order is unspecified. */
  method BuildVenues(names: set<string>) returns (venues: seq<VenueConfig>)
    ensures |venues| == |names|
    ensures forall i :: 0 <= i < |venues| ==> venues[i].name in names && venues[i] == CashVenue(venues[i].name)
    ensures forall n :: n in names ==> exists i :: 0 <= i < |venues| && venues[i].name == n
    ensures forall i, j :: 0 <= i < j < |venues| ==> venues[i].name != venues[j].name
  {
    venues := [];
    var remaining := names;
    while remaining != {}
      invariant remaining <= names
      invariant |venues| + |remaining| == |names|
      invariant forall i :: 0 <= i < |venues| ==>
        venues[i].name in names && venues[i].name !in remaining && venues[i] == CashVenue(venues[i].name)
      invariant forall n :: n in names && n !in remaining ==> exists i :: 0 <= i < |venues| && venues[i].name == n
      invariant forall i, j :: 0 <= i < j < |venues| ==> venues[i].name != venues[j].name
      decreases remaining
    {
      var name :| name in remaining;
      ghost var before := venues;
      venues := venues + [CashVenue(name)];
      forall n | n in names && n !in remaining - {name}
        ensures exists i :: 0 <= i < |venues| && venues[i].name == n
      {
        if n == name {
          assert venues[|before|].name == n;
        } else {
          var i :| 0 <= i < |before| && before[i].name == n;
          assert venues[i] == before[i];
        }
      }
      remaining := remaining - {name};
    }
  }

  /** `backtests/06_ashare_bars.py`, lines 75-84: one bar-data configuration per instrument, in instrument
      order, each reading that instrument from the catalog. */
  method BuildDataConfigs(catalogPath: string, instruments: seq<Equity>) returns (configs: seq<DataConfig>)
    ensures |configs| == |instruments|
    ensures forall i :: 0 <= i < |configs| ==>
      configs[i].instrumentId == instruments[i].id && configs[i].catalogPath == catalogPath
      && configs[i].dataCls == "Bar"
  {
    configs := [];
    for k := 0 to |instruments|
      invariant |configs| == k
      invariant forall i :: 0 <= i < k ==>
        configs[i].instrumentId == instruments[i].id && configs[i].catalogPath == catalogPath
        && configs[i].dataCls == "Bar"
    {
      configs := configs + [DataConfig(catalogPath, "Bar", instruments[k].id)];
    }
  }

  /** `backtests/06_ashare_bars.py`, lines 89-104: one EMA-cross strategy per instrument, in instrument
      order, trading that instrument on its own daily bar type with fast
      period 5, slow period 20 and one lot of 100. */
  method BuildStrategies(instruments: seq<Equity>) returns (strategies: seq<StrategyConfig>)
    ensures |strategies| == |instruments|
    ensures forall i :: 0 <= i < |strategies| ==>
      strategies[i].instrumentId == instruments[i].id
      && strategies[i].barType == BarTypeText(instruments[i].id)
      && strategies[i].fastPeriod == 5 && strategies[i].slowPeriod == 20
      && strategies[i].tradeSize == 100 && strategies[i].fastPeriod < strategies[i].slowPeriod
    ensures forall i :: 0 <= i < |strategies| ==>
      strategies[i].strategyPath == "strategies.definitions:EMACrossBarStrategy"
      && strategies[i].configPath == "strategies.definitions:EMACrossBarConfig"
  {
    strategies := [];
    for k := 0 to |instruments|
      invariant |strategies| == k
      invariant forall i :: 0 <= i < k ==> strategies[i] == EmaCross(instruments[i].id)
    {
      strategies := strategies + [EmaCross(instruments[k].id)];
    }
  }

  /** `backtests/06_ashare_bars.py`, lines 26-104. `bars(id, barType)` is the number of bars the catalog
      holds for that query. The run is configured only when the catalog
      exists, has an instrument, and has bars for the first instrument's
      daily bar type; it then covers every venue and every instrument. */
  method Configure(catalogExists: bool, catalogPath: string, instruments: seq<Equity>,
                   bars: (InstrumentId, string) -> nat)
    returns (setup: Setup)
    ensures !catalogExists ==> setup == CatalogMissing
    ensures catalogExists && instruments == [] ==> setup == NoInstruments
    ensures catalogExists && instruments != [] && bars(instruments[0].id, BarTypeText(instruments[0].id)) == 0
      ==> setup == NoBars
    ensures setup.Ready? <==>
      catalogExists && instruments != [] && bars(instruments[0].id, BarTypeText(instruments[0].id)) > 0
    ensures setup.Ready? ==>
      var run := setup.run;
      |run.venues| == |VenueNames(instruments)|
      && (forall v :: v in VenueNames(instruments) <==> exists i :: 0 <= i < |run.venues| && run.venues[i].name == v)
      && (forall i :: 0 <= i < |run.venues| ==> run.venues[i] == CashVenue(run.venues[i].name))
      && |run.data| == |instruments| && |run.strategies| == |instruments|
      && (forall i :: 0 <= i < |instruments| ==>
            run.data[i].instrumentId == instruments[i].id
            && run.strategies[i].barType == BarTypeText(instruments[i].id))
  {
    if !catalogExists {
      return CatalogMissing;
    }
    if instruments == [] {
      return NoInstruments;
    }
    var first := instruments[0];
    var barType := BarTypeText(first.id);
    if bars(first.id, barType) == 0 {
      return NoBars;
    }
    var venues := BuildVenues(VenueNames(instruments));
    var data := BuildDataConfigs(catalogPath, instruments);
    var strategies := BuildStrategies(instruments);
    setup := Ready(RunConfig(venues, data, strategies));
  }

  // ------------------------------------------------ realized PnL total

  /** `backtests/06_ashare_bars.py`, lines 140-146: no total for an empty report, the total, or the
      position whose PnL text raised (which ends the script). */
  datatype PnlTotal = NotComputed | Total(value: real) | Raised(at: nat)

  /** What `float(str(pnl).split()[0])` gives for each PnL text, in order;
      None where it raises. */
  function Readings(pnls: seq<string>): (r: seq<Option<real>>)
    ensures |r| == |pnls|
    ensures forall j :: 0 <= j < |pnls| ==> r[j] == ParseToken(pnls[j])
  {
    seq(|pnls|, j requires 0 <= j < |pnls| => ParseToken(pnls[j]))
  }

  predicate AllRead(rs: seq<Option<real>>)
  {
    forall j :: 0 <= j < |rs| ==> rs[j].Some?
  }

  /** The position of the first reading that raised, or the length when
      none did. */
  function FirstRaise(rs: seq<Option<real>>): (k: nat)
    ensures k <= |rs|
    ensures forall j :: 0 <= j < k ==> rs[j].Some?
    ensures k < |rs| ==> rs[k].None?
  {
    if rs == [] then 0
    else if rs[0].None? then 0
    else 1 + FirstRaise(rs[1..])
  }

  /** The amounts of readings that all succeeded, in order. */
  function Amounts(rs: seq<Option<real>>): (r: seq<real>)
    requires AllRead(rs)
    ensures |r| == |rs|
    ensures forall j :: 0 <= j < |rs| ==> rs[j] == Some(r[j])
  {
    if rs == [] then []
    else Amounts(rs[..|rs| - 1]) + [rs[|rs| - 1].value]
  }

  /** `backtests/06_ashare_bars.py`, lines 139-146: no total for an empty report; otherwise the total of
      the first-token amounts, or the position of the text whose reading
      raised. */
  method SumRealizedPnl(pnls: seq<string>) returns (total: PnlTotal)
    ensures pnls == [] ==> total == NotComputed
    ensures pnls != [] && FirstRaise(Readings(pnls)) < |pnls| ==> total == Raised(FirstRaise(Readings(pnls)))
    ensures pnls != [] && FirstRaise(Readings(pnls)) == |pnls| ==>
      AllRead(Readings(pnls)) && total == Total(Performance.Sum(Amounts(Readings(pnls))))
  {
    if pnls == [] {
      return NotComputed;
    }
    var i, acc := AddUpPnl(pnls);
    ghost var rs := Readings(pnls);
    if i < |pnls| {
      NoneIsFirst(rs, i);
      return Raised(i);
    }
    assert rs[..i] == rs;
    return Total(acc);
  }

  /** `backtests/06_ashare_bars.py`, lines 141-144: the loop adding up the amounts; it stops at the first
      text whose reading raises, at position `i`, or runs to the end. */
  method AddUpPnl(pnls: seq<string>) returns (i: nat, acc: real)
    ensures i <= |pnls|
    ensures AllRead(Readings(pnls)[..i])
    ensures acc == Performance.Sum(Amounts(Readings(pnls)[..i]))
    ensures i < |pnls| ==> Readings(pnls)[i].None?
  {
    ghost var rs := Readings(pnls);
    acc := 0.0;
    i := 0;
    while i < |pnls|
      invariant 0 <= i <= |pnls|
      invariant AllRead(rs[..i])
      invariant acc == Performance.Sum(Amounts(rs[..i]))
    {
      var amount := ParseToken(pnls[i]);
      if amount.None? {
        return;
      }
      TotalStep(rs, i, amount.value);
      acc := acc + amount.value;
      i := i + 1;
    }
  }

  /** One more successful reading adds its amount to the running total. */
  lemma TotalStep(rs: seq<Option<real>>, i: nat, v: real)
    requires i < |rs| && AllRead(rs[..i]) && rs[i] == Some(v)
    ensures AllRead(rs[..i + 1])
    ensures Performance.Sum(Amounts(rs[..i + 1])) == Performance.Sum(Amounts(rs[..i])) + v
  {
    var pre, next := rs[..i], rs[..i + 1];
    assert next[..|next| - 1] == pre;
    assert Amounts(next) == Amounts(pre) + [v];
    Performance.SumConcat(Amounts(pre), [v]);
  }

  lemma NoneIsFirst(rs: seq<Option<real>>, i: nat)
    requires i < |rs| && AllRead(rs[..i]) && rs[i].None?
    ensures FirstRaise(rs) == i
  {
    forall j | 0 <= j < i ensures rs[j].Some? {
      assert rs[..i][j] == rs[j];
    }
  }

  /** Reading the engine's money texts, every text reads and the amounts
      read are the amounts' values, whatever the currency code. */
  lemma TokenAmountsOfMoney(amounts: seq<Amount>, currency: string)
    requires forall j :: 0 <= j < |amounts| ==> ValidAmount(amounts[j])
    ensures var rs := Readings(seq(|amounts|, j requires 0 <= j < |amounts| => MoneyText(amounts[j], currency, false)));
      AllRead(rs) && FirstRaise(rs) == |amounts|
      && Amounts(rs) == seq(|amounts|, j requires 0 <= j < |amounts| => AmountValue(amounts[j]))
  {
    var texts := seq(|amounts|, j requires 0 <= j < |amounts| => MoneyText(amounts[j], currency, false));
    var values := seq(|amounts|, j requires 0 <= j < |amounts| => AmountValue(amounts[j]));
    var rs := Readings(texts);
    forall j | 0 <= j < |amounts| ensures rs[j] == Some(values[j]) {
      ParseTokenOfMoneyText(amounts[j], currency);
    }
    ReadAll(rs, values);
  }

  /** Readings that all succeed: no position raises, and the amounts are
      the values read. */
  lemma ReadAll(rs: seq<Option<real>>, values: seq<real>)
    requires |rs| == |values|
    requires forall j :: 0 <= j < |rs| ==> rs[j] == Some(values[j])
    ensures AllRead(rs) && FirstRaise(rs) == |rs| && Amounts(rs) == values
  {
    var r := Amounts(rs);
    assert forall j :: 0 <= j < |rs| ==> r[j] == values[j];
  }

  /** For positions reported in USD, this script's total agrees with the
      quickstart report's total of the converted column. */
  lemma TotalsAgree(amounts: seq<Amount>)
    requires amounts != []
    requires forall j :: 0 <= j < |amounts| ==> ValidAmount(amounts[j])
    ensures var texts := seq(|amounts|, j requires 0 <= j < |amounts| => MoneyText(amounts[j], "USD", false));
      var cells := seq(|amounts|, j requires 0 <= j < |amounts| => Str(MoneyText(amounts[j], "USD", false)));
      Performance.Analyze(cells).Stats?
      && AllRead(Readings(texts))
      && Performance.Analyze(cells).summary.totalPnl == Performance.Sum(Amounts(Readings(texts)))
  {
    var texts := seq(|amounts|, j requires 0 <= j < |amounts| => MoneyText(amounts[j], "USD", false));
    var cells := seq(|amounts|, j requires 0 <= j < |amounts| => Str(MoneyText(amounts[j], "USD", false)));
    var values := seq(|amounts|, j requires 0 <= j < |amounts| => AmountValue(amounts[j]));
    TokenAmountsOfMoney(amounts, "USD");
    forall j | 0 <= j < |amounts| ensures ParsePnl(cells[j]) == Some(values[j]) {
      ParsePnlOfMoneyText(amounts[j], false);
    }
    NumericColumn(cells, values);
  }

  lemma NumericColumn(cells: seq<Realized>, values: seq<real>)
    requires |cells| == |values|
    requires forall j :: 0 <= j < |cells| ==> ParsePnl(cells[j]) == Some(values[j])
    ensures Performance.PnlNumeric(cells) == Some(values)
  {
    var r := Performance.PnlNumeric(cells);
    assert r.Some?;
    assert r.value == values;
  }
}
