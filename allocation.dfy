/**
 * The allocation step of the `/api/stocks` handler: the `stockData.map`
 * closure that adds `allocated_amount` and `allocated_quantity` to every
 * record, independently per instrument.
 */
module Allocation {
  import opened Wrappers
  import opened JsNumbers
  import opened Quotes
  import opened Stocks

  /** A response record: the input record's four fields plus the two allocations. */
  datatype EnrichedStock = EnrichedStock(
    stock_name: string,
    stock_ticker: string,
    last_traded_price: Price,
    allocation_percentage: real,
    allocated_quantity: Option<int>,
    allocated_amount: Option<int>)

  /** JavaScript truthiness of the validated investment: null and 0 are falsy. */
  predicate Invests(investment: Option<real>) {
    investment.Some? && investment.value != 0.0
  }

  /** The guard of the closure: an investment and a price that is neither 'N/A' nor NaN. */
  predicate Allocates(investment: Option<real>, p: Price) {
    Invests(investment) && Usable(p)
  }

  /**
   * The closure leaves `Math.ceil(amount / 0)` to Infinity or NaN;
   * the model asks that no usable price it divides by be zero.
   */
  predicate DivisiblePrice(investment: Option<real>, p: Price) {
    Allocates(investment, p) ==> p.number.value != 0.0
  }

  /** The share of the investment assigned to one weight, before rounding. */
  function Share(investment: real, percentage: real): real {
    investment * (percentage / 100.0)
  }

  /** The record as the closure returns it: `{...stock, allocated_quantity, allocated_amount}`. */
  function EnrichStock(s: StockRecord, investment: Option<real>): (r: EnrichedStock)
    requires DivisiblePrice(investment, s.last_traded_price)
    ensures r.stock_name == s.stock_name && r.stock_ticker == s.stock_ticker
    ensures r.last_traded_price == s.last_traded_price
    ensures r.allocation_percentage == s.allocation_percentage
    ensures r.allocated_amount.Some? <==> Allocates(investment, s.last_traded_price)
    ensures r.allocated_quantity.Some? <==> r.allocated_amount.Some?
    ensures r.allocated_amount.Some? && Share(investment.value, s.allocation_percentage) >= 0.0 ==>
              var x := Share(investment.value, s.allocation_percentage);
              x - 0.5 < r.allocated_amount.value as real <= x + 0.5
    ensures r.allocated_quantity.Some? && s.last_traded_price.number.value > 0.0 ==>
              var p := s.last_traded_price.number.value;
              && r.allocated_quantity.value as real * p >= r.allocated_amount.value as real
              && (r.allocated_quantity.value - 1) as real * p < r.allocated_amount.value as real
  {
    if Allocates(investment, s.last_traded_price) then
      var amount := ToFixed0(Share(investment.value, s.allocation_percentage));
      var price := s.last_traded_price.number.value;
      var quantity := Ceil(amount as real / price);
      assert price > 0.0 ==>
               quantity as real * price >= amount as real && (quantity - 1) as real * price < amount as real by {
        if price > 0.0 {
          CeilDivCovers(amount as real, price);
        }
      }
      EnrichedStock(s.stock_name, s.stock_ticker, s.last_traded_price, s.allocation_percentage,
                    Some(quantity), Some(amount))
    else
      EnrichedStock(s.stock_name, s.stock_ticker, s.last_traded_price, s.allocation_percentage,
                    None, None)
  }

  /** Every record of a request can be enriched without dividing by zero. */
  predicate AllDivisible(data: seq<StockRecord>, investment: Option<real>) {
    forall i :: 0 <= i < |data| ==> DivisiblePrice(investment, data[i].last_traded_price)
  }

  /**
   * `stockData.map(…)`: one enriched record per input record, in order, each
   * computed from its own record and the shared investment alone.
   */
  function Enrich(data: seq<StockRecord>, investment: Option<real>): (r: seq<EnrichedStock>)
    requires AllDivisible(data, investment)
    ensures |r| == |data|
    ensures forall i :: 0 <= i < |data| ==> r[i] == EnrichStock(data[i], investment)
  {
    if data == [] then []
    else [EnrichStock(data[0], investment)] + Enrich(data[1..], investment)
  }

  /** Without an investment every record gets two nulls. */
  lemma NoInvestmentNoAllocation(data: seq<StockRecord>, investment: Option<real>)
    requires !Invests(investment)
    ensures AllDivisible(data, investment)
    ensures forall i :: 0 <= i < |data| ==>
              Enrich(data, investment)[i].allocated_amount.None? &&
              Enrich(data, investment)[i].allocated_quantity.None?
  {
  }

  /**
   * Per-instrument independence: replacing one record changes only the
   * enriched record at that index.
   */
  lemma EnrichIsPointwise(data: seq<StockRecord>, investment: Option<real>, j: nat, s: StockRecord)
    requires AllDivisible(data, investment) && j < |data|
    requires DivisiblePrice(investment, s.last_traded_price)
    ensures AllDivisible(data[j := s], investment)
    ensures Enrich(data[j := s], investment) == Enrich(data, investment)[j := EnrichStock(s, investment)]
  {
    var d' := data[j := s];
    assert forall i :: 0 <= i < |d'| ==> DivisiblePrice(investment, d'[i].last_traded_price);
  }
}
