/**
 * The fundamentals record of one ticker, the data provider it comes from, and the
 * placeholder record used when fetching fails (fundamental_screener_v2.py, lines 25-61).
 */
module Fundamentals {
  import opened Wrappers

  /**
   * What the external data provider reports for a ticker: the quote-page fields the
   * screener reads, plus the two cash-flow statement rows free cash flow is derived
   * from (a row is `None` when the statement is empty or lacks it).
   */
  datatype Info = Info(
    shortName: Option<string>,
    sector: Option<string>,
    industry: Option<string>,
    currentPrice: Option<real>,
    trailingPe: Option<real>,
    forwardPe: Option<real>,
    priceToBook: Option<real>,
    returnOnEquity: Option<real>,
    grossMargins: Option<real>,
    profitMargins: Option<real>,
    debtToEquity: Option<real>,
    revenueGrowth: Option<real>,
    earningsGrowth: Option<real>,
    dividendYield: Option<real>,
    payoutRatio: Option<real>,
    beta: Option<real>,
    marketCap: Option<real>,
    operatingCashFlow: Option<real>,
    capitalExpenditure: Option<real>)

  /** The data provider: `None` stands for a fetch that raised an exception. */
  type Provider = string -> Option<Info>

  /** One ticker's fundamentals; every metric may be missing. */
  datatype Record = Record(
    ticker: string,
    name: string,
    sector: string,
    industry: string,
    price: Option<real>,
    pe: Option<real>,
    forwardPe: Option<real>,
    pb: Option<real>,
    roe: Option<real>,
    grossMargin: Option<real>,
    profitMargin: Option<real>,
    debtEquity: Option<real>,
    revenueGrowth: Option<real>,
    earningsGrowth: Option<real>,
    dividendYield: Option<real>,
    payoutRatio: Option<real>,
    beta: Option<real>,
    fcf: Option<real>,
    marketCap: Option<real>)

  /** True when the record carries no numeric metric at all. */
  predicate NoMetrics(r: Record) {
    && r.price.None? && r.pe.None? && r.forwardPe.None? && r.pb.None?
    && r.roe.None? && r.grossMargin.None? && r.profitMargin.None? && r.debtEquity.None?
    && r.revenueGrowth.None? && r.earningsGrowth.None? && r.dividendYield.None?
    && r.payoutRatio.None? && r.beta.None? && r.fcf.None? && r.marketCap.None?
  }

  /** The record substituted for a ticker whose fetch failed. */
  function Placeholder(ticker: string): (r: Record)
    ensures r.ticker == ticker && r.name == ticker
    ensures r.sector == "N/A" && r.industry == "N/A"
    ensures NoMetrics(r)
  {
    Record(ticker, ticker, "N/A", "N/A",
           None, None, None, None, None, None, None, None, None, None, None, None, None, None, None)
  }

  /** Free cash flow: operating cash flow plus (negatively signed) capital expenditure. */
  function FreeCashFlow(operating: Option<real>, capex: Option<real>): Option<real> {
    if operating.Some? && capex.Some? then Some(operating.value + capex.value) else None
  }

  /** The record for `ticker`: the provider's fields, or the placeholder when fetching failed. */
  function FetchFundamentals(ticker: string, provider: Provider): (r: Record)
    ensures r.ticker == ticker
    ensures provider(ticker).None? ==> r == Placeholder(ticker)
    ensures provider(ticker).Some? ==>
      && r.name == provider(ticker).value.shortName.GetOr(ticker)
      && r.sector == provider(ticker).value.sector.GetOr("N/A")
      && r.fcf == FreeCashFlow(provider(ticker).value.operatingCashFlow,
                               provider(ticker).value.capitalExpenditure)
  {
    match provider(ticker)
    case None => Placeholder(ticker)
    case Some(info) =>
      Record(
        ticker,
        info.shortName.GetOr(ticker),
        info.sector.GetOr("N/A"),
        info.industry.GetOr("N/A"),
        info.currentPrice,
        info.trailingPe,
        info.forwardPe,
        info.priceToBook,
        info.returnOnEquity,
        info.grossMargins,
        info.profitMargins,
        info.debtToEquity,
        info.revenueGrowth,
        info.earningsGrowth,
        info.dividendYield,
        info.payoutRatio,
        info.beta,
        FreeCashFlow(info.operatingCashFlow, info.capitalExpenditure),
        info.marketCap)
  }
}
