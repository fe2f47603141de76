/**
 * The per-ticker price fallback of `fetchStockPrice`: whatever the quote
 * lookup does, the caller gets either the quoted number or the 'N/A' marker.
 * The network call itself is not modelled; its outcome is an input.
 */
module Quotes {
  import opened Wrappers
  import opened JsNumbers

  /** The part of a quote object the service reads. `null` and `undefined` are both None. */
  datatype Quote = Quote(regularMarketPrice: Option<JsNumber>)

  /** How one awaited quote lookup ended: a (possibly null) quote, or a thrown error. */
  datatype QuoteOutcome = Resolved(quote: Option<Quote>) | Threw(message: string)

  /** `last_traded_price`: the quoted number, or the 'N/A' marker. */
  datatype Price = Quoted(number: JsNumber) | NotAvailable

  /**
   * `quote?.regularMarketPrice ?? 'N/A'`, with the catch block also yielding
   * 'N/A'. Only a nullish price falls back: a quoted 0 or NaN passes through.
   */
  function FetchStockPrice(outcome: QuoteOutcome): (p: Price)
    ensures p == NotAvailable <==>
              || outcome.Threw?
              || outcome.quote.None?
              || outcome.quote.value.regularMarketPrice.None?
    ensures p.Quoted? ==> outcome == Resolved(Some(Quote(Some(p.number))))
  {
    match outcome
    case Threw(_) => NotAvailable
    case Resolved(None) => NotAvailable
    case Resolved(Some(q)) =>
      match q.regularMarketPrice
      case None => NotAvailable
      case Some(n) => Quoted(n)
  }

  /** The price is a number the allocation can use: neither 'N/A' nor NaN. */
  predicate Usable(p: Price) {
    p.Quoted? && p.number.Num?
  }

  /** A present, non-nullish regularMarketPrice comes back unchanged. */
  lemma FoundPricePassesThrough(n: JsNumber)
    ensures FetchStockPrice(Resolved(Some(Quote(Some(n))))) == Quoted(n)
  {
  }
}
