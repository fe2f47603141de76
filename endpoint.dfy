/**
 * The `/api/stocks` handler as one pure pipeline: validate the `investment`
 * query parameter, take one quote outcome per configured stock, join them
 * with the table and add the allocations.
 */
module Endpoint {
  import opened Wrappers
  import opened JsNumbers
  import opened Quotes
  import opened Stocks
  import opened Allocation

  /**
   * `req.query.investment`: absent, or the text sent together with what
   * `parseFloat` makes of it.
   */
  datatype InvestmentParam = Absent | Given(text: string, parsed: JsNumber)

  const InvalidInvestmentMessage: string := "Investment amount must be a positive number"

  /** The outcome of the validation: the investment to use (null if none), or the client error. */
  datatype Validation = Accepted(investment: Option<real>) | Rejected(error: string)

  /** The responses of the handler that the model reaches. */
  datatype Response =
    | Success(data: seq<EnrichedStock>, investment_amount: Option<real>)
    | BadRequest(error: string)
  {
    function Status(): int {
      if Success? then 200 else 400
    }
  }

  /**
   * `query?.investment ? parseFloat(query.investment) : null`, then the
   * check that rejects NaN and non-positive values. The empty string is
   * falsy, so it counts as no investment.
   */
  function ValidateInvestment(param: InvestmentParam): (v: Validation)
    ensures v.Rejected? <==>
              param.Given? && param.text != "" && (param.parsed.NaN? || param.parsed.value <= 0.0)
    ensures v.Rejected? ==> v.error == InvalidInvestmentMessage
    ensures v == Accepted(None) <==> param.Absent? || param.text == ""
    ensures v.Accepted? && v.investment.Some? ==>
              param.Given? && param.parsed == Num(v.investment.value) && v.investment.value > 0.0
  {
    var investment := if param.Given? && param.text != "" then Some(param.parsed) else None;
    if investment.Some? && (investment.value.NaN? || investment.value.value <= 0.0) then
      Rejected(InvalidInvestmentMessage)
    else if investment.Some? then
      Accepted(Some(investment.value.value))
    else
      Accepted(None)
  }

  /**
   * No price the handler would divide by is zero. Nothing is asked of the
   * outcomes when the investment is rejected, and a missing investment
   * divides by nothing.
   */
  predicate DivisibleQuotes(param: InvestmentParam, outcomes: seq<QuoteOutcome>) {
    ValidateInvestment(param).Accepted? ==>
      forall i :: 0 <= i < |outcomes| ==>
        DivisiblePrice(ValidateInvestment(param).investment, FetchStockPrice(outcomes[i]))
  }

  /**
   * The handler, with `outcomes[i]` the result of looking up `Table[i]`.
   * A rejected investment answers 400 and uses no outcome at all.
   */
  function GetStocks(param: InvestmentParam, outcomes: seq<QuoteOutcome>): (r: Response)
    requires |outcomes| == |Table|
    requires DivisibleQuotes(param, outcomes)
    ensures r.BadRequest? <==> ValidateInvestment(param).Rejected?
    ensures r.BadRequest? ==> r == BadRequest(InvalidInvestmentMessage) && r.Status() == 400
    ensures r.Success? ==>
              && r.Status() == 200
              && r.investment_amount == ValidateInvestment(param).investment
              && |r.data| == |Table|
              && forall i :: 0 <= i < |Table| ==>
                   // a summary of each record; the last conjunct alone implies it with EnrichStock's contract
                   && r.data[i].stock_name == Table[i].name
                   && r.data[i].stock_ticker == Table[i].ticker
                   && r.data[i].allocation_percentage == Table[i].allocation_percentage
                   && r.data[i].last_traded_price == FetchStockPrice(outcomes[i])
                   && (r.data[i].allocated_amount.Some? <==>
                         Allocates(r.investment_amount, FetchStockPrice(outcomes[i])))
                   && (r.data[i].allocated_quantity.Some? <==> r.data[i].allocated_amount.Some?)
                   && r.data[i] == EnrichStock(
                        StockRecord(Table[i].name, Table[i].ticker, FetchStockPrice(outcomes[i]),
                                    Table[i].allocation_percentage),
                        r.investment_amount)
  {
    match ValidateInvestment(param)
    case Rejected(error) => BadRequest(error)
    case Accepted(investment) =>
      var stockData := FetchAllStockPrices(Table, outcomes);
      assert AllDivisible(stockData, investment);
      Success(Enrich(stockData, investment), investment)
  }

  /** An invalid investment is answered before, and independently of, any price lookup. */
  lemma InvalidInvestmentSkipsLookups(param: InvestmentParam, outcomes1: seq<QuoteOutcome>, outcomes2: seq<QuoteOutcome>)
    requires |outcomes1| == |Table| && |outcomes2| == |Table|
    requires ValidateInvestment(param).Rejected?
    ensures GetStocks(param, outcomes1) == GetStocks(param, outcomes2) == BadRequest(InvalidInvestmentMessage)
  {
  }

  /**
   * Without an investment the handler answers 200 whatever the lookups
   * returned, a quoted 0 included, and every allocation is null.
   */
  lemma NoInvestmentAcceptsAnyQuotes(param: InvestmentParam, outcomes: seq<QuoteOutcome>)
    requires |outcomes| == |Table|
    requires param.Absent? || param.text == ""
    ensures DivisibleQuotes(param, outcomes)
    ensures var r := GetStocks(param, outcomes);
            && r == Success(r.data, None)
            && forall i :: 0 <= i < |r.data| ==>
                 r.data[i].allocated_amount.None? && r.data[i].allocated_quantity.None?
  {
  }

  /**
   * A lookup that throws for one ticker turns only that ticker's record into
   * 'N/A' with null allocations; every other record is what it would have been.
   */
  lemma FailedLookupIsIsolated(param: InvestmentParam, outcomes: seq<QuoteOutcome>, j: nat, message: string)
    requires |outcomes| == |Table| && DivisibleQuotes(param, outcomes) && j < |Table|
    requires ValidateInvestment(param).Accepted?
    ensures DivisibleQuotes(param, outcomes[j := Threw(message)])
    ensures GetStocks(param, outcomes[j := Threw(message)]).data ==
              GetStocks(param, outcomes).data[j := EnrichedStock(
                Table[j].name, Table[j].ticker, NotAvailable, Table[j].allocation_percentage, None, None)]
  {
    var failed := outcomes[j := Threw(message)];
    var investment := ValidateInvestment(param).investment;
    forall i | 0 <= i < |failed|
      ensures DivisiblePrice(investment, FetchStockPrice(failed[i]))
    {
    }
    var before := FetchAllStockPrices(Table, outcomes);
    var lost := StockRecord(Table[j].name, Table[j].ticker, NotAvailable, Table[j].allocation_percentage);
    FailedLookupOnlyDegradesItsRecord(Table, outcomes, j, message);
    EnrichIsPointwise(before, investment, j, lost);
    assert GetStocks(param, failed) == Success(Enrich(before[j := lost], investment), investment);
    assert GetStocks(param, outcomes) == Success(Enrich(before, investment), investment);
  }

  /**
   * A worked example: 100000 invested at 4.4 percent with a price of
   * 1503.25 gives an amount of 4400 and a quantity of 3 shares.
   */
  lemma WorkedExample()
    ensures var r := EnrichStock(
              StockRecord("Bharti Airtel Limited", "BHARTIARTL.NS", Quoted(Num(1503.25)), 4.4), Some(100000.0));
            r.allocated_amount == Some(4400) && r.allocated_quantity == Some(3)
  {
  }
}
