/**
 * The portfolio page: per-holding rows and the four summary figures derived
 * from them (market value, profit, profit rate, number of holdings). Amounts
 * are exact reals.
 */
module PortfolioData {

  datatype Holding = Holding(
    key: string, code: string, name: string, quantity: int,
    buyPrice: real, currentPrice: real, profit: real, profitRate: real,
    marketValue: real, holdingDays: int)

  /** The two colours of the sign rule. */
  datatype Colour = Green | Red

  function MarketValueOf(h: Holding): real { h.marketValue }
  function ProfitOf(h: Holding): real { h.profit }
  /** What was paid for a holding: its market value less its profit. */
  function CostOf(h: Holding): real { h.marketValue - h.profit }

  /** `items.reduce((sum, item) => sum + f(item), acc)`: a left fold. */
  function Reduce(items: seq<Holding>, acc: real, f: Holding -> real): real {
    if items == [] then acc else Reduce(items[1..], acc + f(items[0]), f)
  }

  /** The plain sum of `f` over the holdings. */
  function Sum(items: seq<Holding>, f: Holding -> real): real {
    if items == [] then 0.0 else f(items[0]) + Sum(items[1..], f)
  }

  /** The left fold from `acc` adds `acc` to the sum. */
  lemma {:induction false} ReduceIsSum(items: seq<Holding>, acc: real, f: Holding -> real)
    ensures Reduce(items, acc, f) == acc + Sum(items, f)
  {
    if items != [] {
      ReduceIsSum(items[1..], acc + f(items[0]), f);
    }
  }

  lemma {:induction false} SumAppend(a: seq<Holding>, b: seq<Holding>, f: Holding -> real)
    ensures Sum(a + b, f) == Sum(a, f) + Sum(b, f)
  {
    if a == [] {
      assert a + b == b;
    } else {
      assert (a + b)[1..] == a[1..] + b;
      SumAppend(a[1..], b, f);
    }
  }

  /** `totalMarketValue`. */
  function TotalMarketValue(items: seq<Holding>): (r: real)
    ensures r == Sum(items, MarketValueOf)
    ensures items == [] ==> r == 0.0
  {
    ReduceIsSum(items, 0.0, MarketValueOf);
    Reduce(items, 0.0, MarketValueOf)
  }

  /** `totalProfit`. */
  function TotalProfit(items: seq<Holding>): (r: real)
    ensures r == Sum(items, ProfitOf)
    ensures items == [] ==> r == 0.0
  {
    ReduceIsSum(items, 0.0, ProfitOf);
    Reduce(items, 0.0, ProfitOf)
  }

  /** `totalInvestment`. */
  function TotalInvestment(items: seq<Holding>): real {
    TotalMarketValue(items) - TotalProfit(items)
  }

  lemma {:induction false} SumOfCosts(items: seq<Holding>)
    ensures Sum(items, CostOf) == Sum(items, MarketValueOf) - Sum(items, ProfitOf)
  {
    if items != [] {
      SumOfCosts(items[1..]);
    }
  }

  /** The total investment is what was paid for the holdings, summed. */
  lemma TotalInvestmentIsTotalCost(items: seq<Holding>)
    ensures TotalInvestment(items) == Sum(items, CostOf)
  {
    SumOfCosts(items);
  }

  /** Totals over a concatenation are sums of the totals. */
  lemma TotalsAppend(a: seq<Holding>, b: seq<Holding>)
    ensures TotalMarketValue(a + b) == TotalMarketValue(a) + TotalMarketValue(b)
    ensures TotalProfit(a + b) == TotalProfit(a) + TotalProfit(b)
  {
    SumAppend(a, b, MarketValueOf);
    SumAppend(a, b, ProfitOf);
  }

  /** `totalProfitRate`, in percent; 0 when nothing positive was invested. */
  function TotalProfitRate(items: seq<Holding>): (r: real)
    ensures TotalInvestment(items) <= 0.0 ==> r == 0.0
    ensures TotalInvestment(items) > 0.0 ==> r * TotalInvestment(items) == 100.0 * TotalProfit(items)
    ensures TotalInvestment(items) > 0.0 ==>
              (r > 0.0 <==> TotalProfit(items) > 0.0) && (r < 0.0 <==> TotalProfit(items) < 0.0)
  {
    var investment := TotalInvestment(items);
    if investment > 0.0 then (TotalProfit(items) / investment) * 100.0 else 0.0
  }

  /** `renderProfit`/`renderProfitRate` and the statistic cards: green for values at or above zero. */
  function SignColour(value: real): (c: Colour)
    ensures c == Green <==> value >= 0.0
  {
    if value >= 0.0 then Green else Red
  }

  /** The profit-rate card is coloured like the profit card, unless nothing positive was invested. */
  lemma RateColourMatchesProfitColour(items: seq<Holding>)
    ensures TotalInvestment(items) > 0.0 ==> SignColour(TotalProfitRate(items)) == SignColour(TotalProfit(items))
    ensures TotalInvestment(items) <= 0.0 ==> SignColour(TotalProfitRate(items)) == Green
  {
  }

  /** What the page shows: the four statistics and the table's rows. */
  datatype Summary = Summary(marketValue: real, profit: real, profitRate: real, holdingCount: nat, rows: seq<Holding>)

  /** The page for a portfolio; the time-range and date-range selections are accepted and ignored. */
  function View(items: seq<Holding>, timeRange: string, dateRange: seq<string>): (v: Summary)
    ensures v.holdingCount == |items| && v.rows == items
    ensures v.marketValue == Sum(items, MarketValueOf) && v.profit == Sum(items, ProfitOf)
    ensures v.profitRate == TotalProfitRate(items)
  {
    Summary(TotalMarketValue(items), TotalProfit(items), TotalProfitRate(items), |items|, items)
  }

  /** Changing the selections never changes what is shown. */
  lemma ViewIgnoresSelections(items: seq<Holding>, t1: string, d1: seq<string>, t2: string, d2: seq<string>)
    ensures View(items, t1, d1) == View(items, t2, d2)
  {
  }

  /** The holdings the page displays. */
  const SamplePortfolio: seq<Holding> := [
    Holding("1", "000001", "平安银行", 1000, 12.50, 13.80, 1300.0, 10.4, 13800.0, 45),
    Holding("2", "600036", "招商银行", 500, 35.20, 33.80, -700.0, -4.0, 16900.0, 60),
    Holding("3", "002415", "海康威视", 300, 48.50, 52.30, 1140.0, 7.8, 15690.0, 30),
    Holding("4", "000858", "五粮液", 100, 168.00, 182.50, 1450.0, 8.6, 18250.0, 90),
    Holding("5", "000333", "美的集团", 200, 55.60, 53.20, -480.0, -4.3, 10640.0, 20)
  ]

  /** For the displayed holdings: market value 75280, profit 2710, so a positive, green rate over an investment of 72570. */
  lemma SamplePortfolioSummary()
    ensures TotalMarketValue(SamplePortfolio) == 75280.0
    ensures TotalProfit(SamplePortfolio) == 2710.0
    ensures TotalInvestment(SamplePortfolio) == 72570.0
    ensures TotalProfitRate(SamplePortfolio) > 0.0 && SignColour(TotalProfitRate(SamplePortfolio)) == Green
  {
    var s := SamplePortfolio;
    assert Sum(s[4..], MarketValueOf) == 10640.0 && Sum(s[4..], ProfitOf) == -480.0;
    assert Sum(s[3..], MarketValueOf) == 28890.0 && Sum(s[3..], ProfitOf) == 970.0;
    assert Sum(s[2..], MarketValueOf) == 44580.0 && Sum(s[2..], ProfitOf) == 2110.0;
    assert Sum(s[1..], MarketValueOf) == 61480.0 && Sum(s[1..], ProfitOf) == 1410.0;
  }
}
