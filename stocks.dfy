/**
 * The static instrument table and the index-wise join of the table with the
 * prices of one request (`fetchAllStockPrices`).
 */
module Stocks {
  import opened Quotes

  /** One configured instrument (`label` in the table is `name` here); the percentage is an exact decimal. */
  datatype Instrument = Instrument(ticker: string, name: string, allocation_percentage: real)

  /** One record of the price response, before any allocation is added. */
  datatype StockRecord = StockRecord(
    stock_name: string,
    stock_ticker: string,
    last_traded_price: Price,
    allocation_percentage: real)

  /** The process-wide, never-mutated instrument table. */
  const Table: seq<Instrument> := [
    Instrument("BHARTIARTL.NS", "Bharti Airtel Limited", 4.4),
    Instrument("BIRET.BO", "Brookfield India Real Estate Trust", 7.87),
    Instrument("BRITANNIA.NS", "Britannia Industries Limited", 4.13),
    Instrument("COLPAL.BO", "Colgate-Palmolive (India) Limited", 3.26),
    Instrument("DABUR.NS", "Dabur India Limited", 3.6),
    Instrument("DRREDDY.NS", "Dr. Reddy's Laboratories Limited", 3.12),
    Instrument("EMBASSY-RR.NS", "Embassy Office Parks REIT", 5.25),
    Instrument("HDFCBANK.NS", "HDFC Bank Limited", 4.08),
    Instrument("HINDUNILVR.NS", "HINDUSTAN UNILEVER Limited", 4.4),
    Instrument("ICICIBANK.NS", "ICICI Bank Limited", 3.78),
    Instrument("ICRA.NS", "ICRA Limited", 2.83),
    Instrument("ITC.NS", "ITC Limited", 3.33),
    Instrument("KOTAKBANK.NS", "Kotak Mahindra Bank Limited", 4.81),
    Instrument("MARICO.NS", "Marico Limited", 3.23),
    Instrument("MINDSPACE-RR.NS", "MINDSPACE BUSINESS P REIT", 10.31),
    Instrument("NESTLEIND.NS", "NestlÃ© India Limited", 4.63),
    Instrument("PFIZER.NS", "Pfizer Limited", 3.16),
    Instrument("PGHL.NS", "Procter & Gamble Health Limited", 3.36),
    Instrument("RELAXO.NS", "Relaxo Footwears Limited", 2.6),
    Instrument("RELIANCE.NS", "Reliance Industries Limited", 3.34),
    Instrument("SBILIFE.NS", "SBI Life Insurance Company Limited", 3.22),
    Instrument("SUNDRMFAST.NS", "Sundram Fasteners Limited", 2.75),
    Instrument("SUNPHARMA.NS", "Sun Pharmaceutical Industries Limited", 3.56),
    Instrument("TCS.NS", "Tata Consultancy Services Limited", 3.08),
    Instrument("TORNTPHARM.NS", "Torrent Pharmaceuticals Limited", 2.97)
  ]

  /** Sum of the percentages of stocks[k..]. */
  function TotalPercentageFrom(stocks: seq<Instrument>, k: nat): real
    decreases |stocks| - k
  {
    if k >= |stocks| then 0.0 else stocks[k].allocation_percentage + TotalPercentageFrom(stocks, k + 1)
  }

  /**
   * The join of `stocks.map((stock, index) => …)`: record i renames the fields
   * of stocks[i] and carries prices[i]. Promise.all yields one price per stock,
   * in the order of the table, whatever order the lookups complete in.
   */
  function Merge(stocks: seq<Instrument>, prices: seq<Price>): (r: seq<StockRecord>)
    requires |prices| == |stocks|
    ensures |r| == |stocks|
    ensures forall i :: 0 <= i < |r| ==>
              r[i] == StockRecord(stocks[i].name, stocks[i].ticker, prices[i], stocks[i].allocation_percentage)
  {
    if stocks == [] then []
    else [StockRecord(stocks[0].name, stocks[0].ticker, prices[0], stocks[0].allocation_percentage)]
         + Merge(stocks[1..], prices[1..])
  }

  /**
   * `fetchAllStockPrices`: map every lookup outcome through the fallback, then
   * join with the table.
   */
  function FetchAllStockPrices(stocks: seq<Instrument>, outcomes: seq<QuoteOutcome>): (r: seq<StockRecord>)
    requires |outcomes| == |stocks|
    ensures |r| == |stocks|
    ensures forall i :: 0 <= i < |r| ==>
              && r[i].stock_name == stocks[i].name
              && r[i].stock_ticker == stocks[i].ticker
              && r[i].allocation_percentage == stocks[i].allocation_percentage
              && r[i].last_traded_price == FetchStockPrice(outcomes[i])
  {
    Merge(stocks, seq(|outcomes|, i requires 0 <= i < |outcomes| => FetchStockPrice(outcomes[i])))
  }

  /**
   * A lookup that throws for stock j degrades only record j, to 'N/A'; the
   * other records of the join are unchanged.
   */
  lemma FailedLookupOnlyDegradesItsRecord(stocks: seq<Instrument>, outcomes: seq<QuoteOutcome>, j: nat, message: string)
    requires |outcomes| == |stocks| && j < |stocks|
    ensures FetchAllStockPrices(stocks, outcomes[j := Threw(message)]) ==
              FetchAllStockPrices(stocks, outcomes)[j := StockRecord(
                stocks[j].name, stocks[j].ticker, NotAvailable, stocks[j].allocation_percentage)]
  {
    var before := FetchAllStockPrices(stocks, outcomes);
    var after := FetchAllStockPrices(stocks, outcomes[j := Threw(message)]);
    var lost := StockRecord(stocks[j].name, stocks[j].ticker, NotAvailable, stocks[j].allocation_percentage);
    assert |after| == |before[j := lost]|;
    forall i | 0 <= i < |stocks|
      ensures after[i] == before[j := lost][i]
    {
    }
  }

  /** Tickers of the table are pairwise distinct. */
  lemma TableTickersDistinct()
    ensures forall i, j :: 0 <= i < j < |Table| ==> Table[i].ticker != Table[j].ticker
  {
  }

  /** Every configured weight lies in (0, 100]. */
  lemma TablePercentagesInRange()
    ensures forall i :: 0 <= i < |Table| ==> 0.0 < Table[i].allocation_percentage <= 100.0
  {
  }

  /** The weights are not normalised: they sum to 101.07, not 100. */
  lemma TableTotalPercentage()
    ensures TotalPercentageFrom(Table, 0) == 101.07
  {
    assert TotalPercentageFrom(Table, 25) == 0.0;
    assert TotalPercentageFrom(Table, 24) == 2.97;
    assert TotalPercentageFrom(Table, 23) == 6.05;
    assert TotalPercentageFrom(Table, 22) == 9.61;
    assert TotalPercentageFrom(Table, 21) == 12.36;
    assert TotalPercentageFrom(Table, 20) == 15.58;
    assert TotalPercentageFrom(Table, 19) == 18.92;
    assert TotalPercentageFrom(Table, 18) == 21.52;
    assert TotalPercentageFrom(Table, 17) == 24.88;
    assert TotalPercentageFrom(Table, 16) == 28.04;
    assert TotalPercentageFrom(Table, 15) == 32.67;
    assert TotalPercentageFrom(Table, 14) == 42.98;
    assert TotalPercentageFrom(Table, 13) == 46.21;
    assert TotalPercentageFrom(Table, 12) == 51.02;
    assert TotalPercentageFrom(Table, 11) == 54.35;
    assert TotalPercentageFrom(Table, 10) == 57.18;
    assert TotalPercentageFrom(Table, 9) == 60.96;
    assert TotalPercentageFrom(Table, 8) == 65.36;
    assert TotalPercentageFrom(Table, 7) == 69.44;
    assert TotalPercentageFrom(Table, 6) == 74.69;
    assert TotalPercentageFrom(Table, 5) == 77.81;
    assert TotalPercentageFrom(Table, 4) == 81.41;
    assert TotalPercentageFrom(Table, 3) == 84.67;
    assert TotalPercentageFrom(Table, 2) == 88.80;
    assert TotalPercentageFrom(Table, 1) == 96.67;
    assert TotalPercentageFrom(Table, 0) == 101.07;
  }
}
