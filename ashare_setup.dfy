/** The A-share data setup: each fetched daily-bar table has its column
    names lower-cased and its naive Beijing-time index moved to UTC, the
    stock's equity is created, and the instrument and then its bars are
    written to the catalog. One stock's failure is reported and the next
    stock is still processed. */
module AshareSetup {
  import opened Wrappers
  import opened Text
  import opened Instruments
  import AshareBacktest

  // ------------------------------------------------------------ time zone

  const NanosPerSecond: int := 1_000_000_000

  /** Asia/Shanghai has kept UTC+08:00, without daylight saving, since 1991. */
  const ShanghaiOffsetNs: int := 8 * 3600 * NanosPerSecond

  /** `tz_localize("Asia/Shanghai").tz_convert("UTC")` of one naive
      nanosecond timestamp. */
  function ShanghaiToUtc(local: int): int
  {
    local - ShanghaiOffsetNs
  }

  /** `data_scripts/setup_ashare_data.py`, line 75 over the whole index: every stamp moved to UTC, the row count
      and the order kept, and every stamp reads back as its local time. */
  function UtcIndex(index: seq<int>): (r: seq<int>)
    ensures |r| == |index|
    ensures forall i :: 0 <= i < |index| ==> r[i] + ShanghaiOffsetNs == index[i]
    ensures forall i, j :: 0 <= i < |index| && 0 <= j < |index| ==> (index[i] < index[j] <==> r[i] < r[j])
  {
    seq(|index|, i requires 0 <= i < |index| => ShanghaiToUtc(index[i]))
  }

  /** Days from 1970-01-01 to a proleptic Gregorian date. */
  function DaysFromCivil(y: int, m: int, d: int): int
    requires 1 <= m <= 12 && 1 <= d <= 31
  {
    var yy := if m <= 2 then y - 1 else y;
    var era := yy / 400;
    var yoe := yy - era * 400;
    var mp := (m + 9) % 12;
    var doy := (153 * mp + 2) / 5 + d - 1;
    var doe := yoe * 365 + yoe / 4 - yoe / 100 + doy;
    era * 146097 + doe - 719468
  }

  /** A wall-clock reading as nanoseconds from the epoch of that clock. */
  function WallClockNs(y: int, m: int, d: int, hh: int, mm: int, ss: int): int
    requires 1 <= m <= 12 && 1 <= d <= 31
  {
    (((DaysFromCivil(y, m, d) * 24 + hh) * 60 + mm) * 60 + ss) * NanosPerSecond
  }

  /** 2023-12-06 09:30 in Beijing is 2023-12-06 01:30 UTC, which is
      1701826200 seconds after the Unix epoch. */
  lemma ShanghaiExample()
    ensures ShanghaiToUtc(WallClockNs(2023, 12, 6, 9, 30, 0)) == WallClockNs(2023, 12, 6, 1, 30, 0)
    ensures WallClockNs(2023, 12, 6, 1, 30, 0) == 1701826200 * NanosPerSecond
  {
    assert DaysFromCivil(2023, 12, 6) == 19697;
  }

  // ---------------------------------------------------------- column names

  /** `data_scripts/setup_ashare_data.py`, line 62: `[c.lower() for c in df.columns]`. */
  function LowerColumns(columns: seq<string>): (r: seq<string>)
    ensures |r| == |columns|
    ensures forall i :: 0 <= i < |r| ==> IsLower(r[i]) && |r[i]| == |columns[i]|
    ensures forall i, j :: 0 <= i < |r| && 0 <= j < |r[i]| ==> r[i][j] == Lower(columns[i][j])
  {
    seq(|columns|, i requires 0 <= i < |columns| => LowerString(columns[i]))
  }

  /** Lower-casing twice is lower-casing once, and names already in lower
      case are kept as they are. */
  lemma LowerColumnsIdempotent(columns: seq<string>)
    ensures LowerColumns(LowerColumns(columns)) == LowerColumns(columns)
    ensures (forall i :: 0 <= i < |columns| ==> IsLower(columns[i])) ==> LowerColumns(columns) == columns
  {
    var once := LowerColumns(columns);
    forall i | 0 <= i < |once| ensures LowerString(once[i]) == once[i] {
      LowerStringOfLower(once[i]);
    }
    if forall i :: 0 <= i < |columns| ==> IsLower(columns[i]) {
      forall i | 0 <= i < |columns| ensures once[i] == columns[i] {
        LowerStringOfLower(columns[i]);
      }
    }
  }

  // --------------------------------------------------------- the table

  /** The fetched table, changed in place by `fetch_and_process_data`:
      column names and a nanosecond index (the row values are carried by
      the rows the index labels and are not changed by the script). */
  class Frame {
    var columns: seq<string>
    var index: seq<int>

    constructor (columns: seq<string>, index: seq<int>)
      ensures this.columns == columns && this.index == index
    {
      this.columns := columns;
      this.index := index;
    }

    /** `df.empty`: no rows or no columns. */
    predicate Empty()
      reads this
    {
      |columns| == 0 || |index| == 0
    }

    /** `data_scripts/setup_ashare_data.py`, line 62: the column names lower-cased in place. */
    method LowercaseColumns()
      modifies this
      ensures columns == LowerColumns(old(columns)) && index == old(index)
    {
      columns := LowerColumns(columns);
    }

    /** `data_scripts/setup_ashare_data.py`, line 75: the index localized to Asia/Shanghai and converted to UTC in place. */
    method LocalizeToUtc()
      modifies this
      ensures index == UtcIndex(old(index)) && columns == old(columns)
    {
      index := UtcIndex(index);
    }
  }

  /** What `fetch_and_process_data` hands back: the 2-tuple `(None, None)`
      for an empty table, the instrument and bar type (with the table) when
      all went well, or the exception raised while creating the instrument. */
  datatype Fetched = NoData | Processed(instrument: Equity, barType: string) | CreateRaised

  /** `data_scripts/setup_ashare_data.py`, lines 49-81 after the fetch: an empty table is returned untouched;
      otherwise its names are lower-cased and its index moved to UTC before
      the instrument and its daily bar type are built. */
  method FetchAndProcess(df: Frame, symbol: string, venue: string) returns (r: Fetched)
    modifies df
    ensures old(df.Empty()) ==> r == NoData && unchanged(df)
    ensures !old(df.Empty()) ==>
      df.columns == LowerColumns(old(df.columns)) && df.index == UtcIndex(old(df.index))
    ensures !old(df.Empty()) ==>
      r == match CreateAshareInstrument(symbol, venue)
           case None => CreateRaised
           case Some(e) => Processed(e, BarTypeText(e.id))
  {
    if df.Empty() {
      return NoData;
    }
    df.LowercaseColumns();
    df.LocalizeToUtc();
    var created := CreateAshareInstrument(symbol, venue);
    if created.None? {
      return CreateRaised;
    }
    var instrument := created.value;
    r := Processed(instrument, BarTypeText(instrument.id));
  }

  // ------------------------------------------------------- the catalog

  /** A call to `catalog.write_data`: the one instrument, or the bars the
      wrangler made from the table (one per row, stamped with the row's
      UTC time). */
  datatype Write = InstrumentWrite(instrument: Equity) | BarsWrite(barType: string, timestamps: seq<int>)

  /** The catalog as the setup sees it: the sequence of writes it received. */
  class Catalog {
    var log: seq<Write>

    /** `data_scripts/setup_ashare_data.py`, lines 87-94: the catalog directory is cleared and reopened. */
    constructor ()
      ensures log == []
    {
      log := [];
    }

    method WriteData(w: Write)
      modifies this
      ensures log == old(log) + [w]
    {
      log := log + [w];
    }
  }

  // ---------------------------------------------------- the stock loop

  datatype Stock = Stock(code: string, symbol: string, venue: string)

  /** `data_scripts/setup_ashare_data.py`, lines 99-102: the configured stocks. */
  const Stocks: seq<Stock> := [Stock("sh600519", "600519", "SSE"), Stock("sz000001", "000001", "SZSE")]

  /** One turn of the loop: the stock, the table the vendor returned for it
      (naive Beijing-time stamps) and whether the bar wrangler raised. */
  datatype Attempt = Attempt(stock: Stock, columns: seq<string>, index: seq<int>, wranglerRaises: bool)

  predicate EmptyTable(a: Attempt) { |a.columns| == 0 || |a.index| == 0 }

  /** The writes one stock produces, or None when its turn raised and the
      handler caught it: an empty symbol (`Symbol("")` raises before the
      fetch), an empty table (the caller unpacks three values from a
      2-tuple), an instrument that cannot be created, or a wrangler error. */
  function StockWrites(a: Attempt): (r: Option<seq<Write>>)
    ensures a.stock.symbol == [] || EmptyTable(a) || a.wranglerRaises ==> r.None?
    ensures !EmptyTable(a) && !a.wranglerRaises && WellFormed(InstrumentId(a.stock.symbol, a.stock.venue)) ==> r.Some?
  {
    if a.stock.symbol == [] || EmptyTable(a) then None
    else match CreateAshareInstrument(a.stock.symbol, a.stock.venue)
      case None => None
      case Some(e) =>
        if a.wranglerRaises then None
        else Some([InstrumentWrite(e), BarsWrite(BarTypeText(e.id), UtcIndex(a.index))])
  }

  /** What one stock's turn came to: its code, and its writes or None when
      the turn raised. */
  datatype Turn = Turn(code: string, writes: Option<seq<Write>>)

  function TurnOf(a: Attempt): Turn
  {
    Turn(a.stock.code, StockWrites(a))
  }

  function Turns(attempts: seq<Attempt>): (r: seq<Turn>)
    ensures |r| == |attempts|
    ensures forall i :: 0 <= i < |r| ==> r[i] == TurnOf(attempts[i])
  {
    seq(|attempts|, i requires 0 <= i < |attempts| => TurnOf(attempts[i]))
  }

  /** What one turn adds to the catalog: its writes, or nothing. */
  function Written(t: Turn): seq<Write>
  {
    match t.writes case None => [] case Some(w) => w
  }

  /** What one turn adds to the error report: its code if it raised. */
  function Reported(t: Turn): seq<string>
  {
    if t.writes.None? then [t.code] else []
  }

  /** Everything the loop writes, turn after turn. */
  function IngestWrites(turns: seq<Turn>): seq<Write>
  {
    if turns == [] then []
    else IngestWrites(turns[..|turns| - 1]) + Written(turns[|turns| - 1])
  }

  /** The codes of the stocks whose turn raised, in order. */
  function FailedCodes(turns: seq<Turn>): seq<string>
  {
    if turns == [] then []
    else FailedCodes(turns[..|turns| - 1]) + Reported(turns[|turns| - 1])
  }

  /** `data_scripts/setup_ashare_data.py`, lines 105-129, one stock's turn: fetch and normalize its table, make
      its bars, write the instrument and then the bars. Any exception in the
      turn is caught by the handler, which reports the stock's code; nothing
      is written then. */
  method ProcessStock(catalog: Catalog, a: Attempt) returns (reported: seq<string>)
    modifies catalog
    ensures catalog.log == old(catalog.log) + Written(TurnOf(a))
    ensures reported == Reported(TurnOf(a))
  {
    if a.stock.symbol == [] {
      // `Symbol("")` raises before the table is fetched
      reported := [a.stock.code];
      return;
    }
    var df := new Frame(a.columns, a.index);
    var fetched := FetchAndProcess(df, a.stock.symbol, a.stock.venue);
    match fetched {
      case NoData =>
        // `instrument, df, bar_type = (None, None)` raises ValueError
        reported := [a.stock.code];
      case CreateRaised =>
        reported := [a.stock.code];
      case Processed(instrument, barType) =>
        if a.wranglerRaises {
          reported := [a.stock.code];
        } else {
          var bars := BarsWrite(barType, df.index);
          catalog.WriteData(InstrumentWrite(instrument));
          catalog.WriteData(bars);
          reported := [];
        }
    }
  }

  /** `data_scripts/setup_ashare_data.py`, lines 104-129: every stock is tried in order; a stock whose turn raises
      is reported and leaves the catalog as it was, and the loop goes on. */
  method Ingest(catalog: Catalog, attempts: seq<Attempt>) returns (failed: seq<string>)
    modifies catalog
    ensures catalog.log == old(catalog.log) + IngestWrites(Turns(attempts))
    ensures failed == FailedCodes(Turns(attempts))
  {
    ghost var turns := Turns(attempts);
    ghost var log0 := catalog.log;
    failed := [];
    for i := 0 to |attempts|
      invariant catalog.log == log0 + IngestWrites(turns[..i])
      invariant failed == FailedCodes(turns[..i])
    {
      NextTurn(turns, i);
      assert turns[i] == TurnOf(attempts[i]);
      var reported := ProcessStock(catalog, attempts[i]);
      AppendAssoc(log0, IngestWrites(turns[..i]), Written(turns[i]));
      failed := failed + reported;
    }
    assert turns[..|turns|] == turns;
  }

  lemma AppendAssoc(x: seq<Write>, y: seq<Write>, z: seq<Write>)
    ensures x + y + z == x + (y + z)
  {
  }

  lemma NextTurn(turns: seq<Turn>, i: nat)
    requires i < |turns|
    ensures IngestWrites(turns[..i + 1]) == IngestWrites(turns[..i]) + Written(turns[i])
    ensures FailedCodes(turns[..i + 1]) == FailedCodes(turns[..i]) + Reported(turns[i])
  {
    assert turns[..i + 1][..i] == turns[..i];
  }

  /** `data_scripts/setup_ashare_data.py`, lines 84-129: a fresh catalog filled from the two configured stocks. */
  method SetupCatalog(tables: seq<(seq<string>, seq<int>)>, wranglerRaises: seq<bool>)
    returns (catalog: Catalog, failed: seq<string>)
    requires |tables| == |Stocks| && |wranglerRaises| == |Stocks|
    ensures fresh(catalog)
    ensures catalog.log == IngestWrites(Turns(Attempts(tables, wranglerRaises)))
    ensures failed == FailedCodes(Turns(Attempts(tables, wranglerRaises)))
  {
    catalog := new Catalog();
    failed := Ingest(catalog, Attempts(tables, wranglerRaises));
  }

  function Attempts(tables: seq<(seq<string>, seq<int>)>, wranglerRaises: seq<bool>): (r: seq<Attempt>)
    requires |tables| == |Stocks| && |wranglerRaises| == |Stocks|
    ensures |r| == |Stocks|
    ensures forall i :: 0 <= i < |r| ==> r[i].stock == Stocks[i]
  {
    seq(|Stocks|, i requires 0 <= i < |Stocks| =>
      Attempt(Stocks[i], tables[i].0, tables[i].1, wranglerRaises[i]))
  }

  // -------------------------------------------------------------- lemmas

  /** Each stock's writes depend on that stock alone: the writes of two runs
      of the loop, one after the other, are those of one run over both. */
  lemma IngestAppend(a: seq<Turn>, b: seq<Turn>)
    ensures IngestWrites(a + b) == IngestWrites(a) + IngestWrites(b)
    ensures FailedCodes(a + b) == FailedCodes(a) + FailedCodes(b)
  {
    WritesAppend(a, b);
    CodesAppend(a, b);
  }

  lemma {:induction false} WritesAppend(a: seq<Turn>, b: seq<Turn>)
    ensures IngestWrites(a + b) == IngestWrites(a) + IngestWrites(b)
    decreases |b|
  {
    if b == [] {
      assert a + b == a;
    } else {
      var b0, x := b[..|b| - 1], b[|b| - 1];
      assert (a + b)[..|a + b| - 1] == a + b0;
      assert (a + b)[|a + b| - 1] == x;
      WritesAppend(a, b0);
    }
  }

  lemma {:induction false} CodesAppend(a: seq<Turn>, b: seq<Turn>)
    ensures FailedCodes(a + b) == FailedCodes(a) + FailedCodes(b)
    decreases |b|
  {
    if b == [] {
      assert a + b == a;
    } else {
      var b0, x := b[..|b| - 1], b[|b| - 1];
      assert (a + b)[..|a + b| - 1] == a + b0;
      assert (a + b)[|a + b| - 1] == x;
      CodesAppend(a, b0);
    }
  }

  /** The loop's results over `before + [t] + after`, pieced together. */
  lemma Splice(before: seq<Turn>, t: Turn, after: seq<Turn>)
    ensures IngestWrites(before + [t] + after) == IngestWrites(before) + Written(t) + IngestWrites(after)
    ensures FailedCodes(before + [t] + after) == FailedCodes(before) + Reported(t) + FailedCodes(after)
  {
    IngestAppend(before + [t], after);
    IngestAppend(before, [t]);
    assert [t][..0] == [];
  }

  /** Turning a list of attempts into turns commutes with putting lists
      together. */
  lemma TurnsSplit(before: seq<Attempt>, a: Attempt, after: seq<Attempt>)
    ensures Turns(before + [a] + after) == Turns(before) + [TurnOf(a)] + Turns(after)
  {
    var all := before + [a] + after;
    assert forall i :: 0 <= i < |all| ==>
      all[i] == if i < |before| then before[i] else if i == |before| then a else after[i - |before| - 1];
  }

  /** A stock whose turn raises writes nothing and is reported; the stocks
      before and after it are untouched by it. */
  lemma FailedStockWritesNothing(before: seq<Attempt>, a: Attempt, after: seq<Attempt>)
    requires StockWrites(a).None?
    ensures IngestWrites(Turns(before + [a] + after)) == IngestWrites(Turns(before)) + IngestWrites(Turns(after))
    ensures FailedCodes(Turns(before + [a] + after))
         == FailedCodes(Turns(before)) + [a.stock.code] + FailedCodes(Turns(after))
  {
    TurnsSplit(before, a, after);
    FailedTurnSplice(Turns(before), TurnOf(a), Turns(after));
  }

  lemma FailedTurnSplice(before: seq<Turn>, t: Turn, after: seq<Turn>)
    requires t.writes.None?
    ensures IngestWrites(before + [t] + after) == IngestWrites(before) + IngestWrites(after)
    ensures FailedCodes(before + [t] + after) == FailedCodes(before) + [t.code] + FailedCodes(after)
  {
    Splice(before, t, after);
  }

  /** An empty table makes `fetch_and_process_data` return two values where
      three are unpacked, so that stock is reported and nothing is written
      for it. */
  lemma EmptyTableFails(a: Attempt)
    requires EmptyTable(a)
    ensures StockWrites(a).None?
  {
  }

  /** The writes come in pairs: each instrument is written immediately before
      its bars, whose bar type is the instrument's daily bar type and whose
      stamps are the table's stamps moved to UTC. */
  predicate PairedWrites(w: seq<Write>)
  {
    |w| % 2 == 0
    && forall k :: 0 <= k < |w| / 2 ==>
         w[2 * k].InstrumentWrite? && w[2 * k + 1].BarsWrite?
         && w[2 * k + 1].barType == BarTypeText(w[2 * k].instrument.id)
  }

  /** Putting two lists of paired writes together keeps them paired. */
  lemma PairedConcat(w0: seq<Write>, w1: seq<Write>)
    requires PairedWrites(w0) && PairedWrites(w1)
    ensures PairedWrites(w0 + w1)
  {
    var w := w0 + w1;
    forall k | 0 <= k < |w| / 2
      ensures w[2 * k].InstrumentWrite? && w[2 * k + 1].BarsWrite?
        && w[2 * k + 1].barType == BarTypeText(w[2 * k].instrument.id)
    {
      if k < |w0| / 2 {
        assert w[2 * k] == w0[2 * k] && w[2 * k + 1] == w0[2 * k + 1];
      } else {
        var j := k - |w0| / 2;
        assert w[2 * k] == w1[2 * j] && w[2 * k + 1] == w1[2 * j + 1];
      }
    }
  }

  /** One stock writes an instrument and then bars of its daily bar type. */
  lemma StockWritesPaired(a: Attempt)
    ensures PairedWrites(Written(TurnOf(a)))
  {
    var w := Written(TurnOf(a));
    if w != [] {
      assert |w| == 2;
      assert w[0].InstrumentWrite? && w[1].BarsWrite? && w[1].barType == BarTypeText(w[0].instrument.id);
    }
  }

  lemma {:induction false} InstrumentBeforeBars(attempts: seq<Attempt>)
    ensures PairedWrites(IngestWrites(Turns(attempts)))
  {
    var turns := Turns(attempts);
    forall i | 0 <= i < |turns| ensures PairedWrites(Written(turns[i])) {
      StockWritesPaired(attempts[i]);
    }
    PairedTurns(turns);
  }

  lemma {:induction false} PairedTurns(turns: seq<Turn>)
    requires forall i :: 0 <= i < |turns| ==> PairedWrites(Written(turns[i]))
    ensures PairedWrites(IngestWrites(turns))
  {
    if turns != [] {
      var init := turns[..|turns| - 1];
      PairedTurns(init);
      PairedConcat(IngestWrites(init), Written(turns[|turns| - 1]));
    }
  }

  /** Every stock whose turn succeeds writes its instrument and the bars of
      its table, with the index moved to UTC; the bar type written is the one
      the backtest's strategy for that instrument subscribes to. */
  lemma SucceededStockWrites(a: Attempt)
    requires !EmptyTable(a) && !a.wranglerRaises
    requires WellFormed(InstrumentId(a.stock.symbol, a.stock.venue))
    ensures StockWrites(a).Some?
    ensures var e := CreateAshareInstrument(a.stock.symbol, a.stock.venue).value;
      StockWrites(a).value == [InstrumentWrite(e), BarsWrite(BarTypeText(e.id), UtcIndex(a.index))]
      && IdText(e.id) == a.stock.symbol + "." + a.stock.venue
      && AshareBacktest.EmaCross(e.id).barType == BarTypeText(e.id)
  {
    CreatedInstrument(a.stock.symbol, a.stock.venue);
  }

  /** Both configured stocks have well-formed ids: `600519.SSE` and
      `000001.SZSE`. */
  lemma ConfiguredStocks()
    ensures forall i :: 0 <= i < |Stocks| ==> WellFormed(InstrumentId(Stocks[i].symbol, Stocks[i].venue))
    ensures IdText(InstrumentId(Stocks[0].symbol, Stocks[0].venue)) == "600519.SSE"
    ensures IdText(InstrumentId(Stocks[1].symbol, Stocks[1].venue)) == "000001.SZSE"
  {
  }
}
