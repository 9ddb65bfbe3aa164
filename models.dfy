/** The records of the pipeline (models.py): hourly metrics per region and UTC
    hour, and the daily per-region report with its dictionary form.

    `HourlyRegionMetrics` declares eight fields, but its producer and its
    consumers use the wide record the loader builds; the model is that wide
    record, whose additional fields default to 0.0 (amounts and shares) and
    "" (AI-pacing text). `DailyRegionReport` likewise carries the additional
    daily fields its producer passes. */
module Models {
  import opened Wrappers
  import Calendar
  import Timezones

  /** The additive amounts of an hourly bucket: the 21 amounts of the base
      bucket and the 6 search-impression counts. */
  datatype Amount =
    | MetaSpend | GoogleSpend | NewCustomerOrders | NewCustomerSales | TotalSales
    | TotalOrders | GrossSales | GrossProductSales | RefundMoney | DiscountAmount
    | CostOfGoods | ShippingCosts | EstimatedShippingCosts | HandlingFees
    | PaymentGatewayCosts | NonTrackedSpend | Impressions | Clicks
    | OnsitePurchases | OnsiteConversionValue | MetaPurchases
    | SearchTopImpressions | SearchAbsoluteTopImpressions
    | SearchBudgetLostTopImpressions | SearchBudgetLostAbsoluteTopImpressions
    | SearchRankLostTopImpressions | SearchRankLostImpressions

  /** The search share fields, averaged per bucket weighted by impressions. */
  datatype Share =
    | SearchImpressionShare | SearchTopImpressionShare
    | SearchAbsoluteTopImpressionShare | SearchBudgetLostTopImpressionShare
    | SearchBudgetLostAbsoluteTopImpressionShare
    | SearchRankLostTopImpressionShare | SearchRankLostImpressionShare

  /** The AI recommendation and ROAS-pacing text fields. */
  datatype Pacing =
    | CampaignAiRecommendation | CampaignAiRoasPacing
    | AdsetAiRecommendation | AdsetAiRoasPacing
    | AdAiRecommendation | AdAiRoasPacing
    | ChannelAiRecommendation | ChannelAiRoasPacing

  /** `SEARCH_SHARE_FIELDS`, `SEARCH_IMPRESSIONS_FIELDS`, `AI_PACING_FIELDS`. */
  const SearchShareFields: seq<Share> := [
    SearchImpressionShare, SearchTopImpressionShare,
    SearchAbsoluteTopImpressionShare, SearchBudgetLostTopImpressionShare,
    SearchBudgetLostAbsoluteTopImpressionShare,
    SearchRankLostTopImpressionShare, SearchRankLostImpressionShare]

  const SearchImpressionsFields: seq<Amount> := [
    SearchTopImpressions, SearchAbsoluteTopImpressions,
    SearchBudgetLostTopImpressions, SearchBudgetLostAbsoluteTopImpressions,
    SearchRankLostTopImpressions, SearchRankLostImpressions]

  const AiPacingFields: seq<Pacing> := [
    CampaignAiRecommendation, CampaignAiRoasPacing,
    AdsetAiRecommendation, AdsetAiRoasPacing,
    AdAiRecommendation, AdAiRoasPacing,
    ChannelAiRecommendation, ChannelAiRoasPacing]

  /** The column name of each amount. */
  function AmountName(a: Amount): string
  {
    match a
    case MetaSpend => "meta_spend"
    case GoogleSpend => "google_spend"
    case NewCustomerOrders => "new_customer_orders"
    case NewCustomerSales => "new_customer_sales"
    case TotalSales => "total_sales"
    case TotalOrders => "total_orders"
    case GrossSales => "gross_sales"
    case GrossProductSales => "gross_product_sales"
    case RefundMoney => "refund_money"
    case DiscountAmount => "discount_amount"
    case CostOfGoods => "cost_of_goods"
    case ShippingCosts => "shipping_costs"
    case EstimatedShippingCosts => "estimated_shipping_costs"
    case HandlingFees => "handling_fees"
    case PaymentGatewayCosts => "payment_gateway_costs"
    case NonTrackedSpend => "non_tracked_spend"
    case Impressions => "impressions"
    case Clicks => "clicks"
    case OnsitePurchases => "onsite_purchases"
    case OnsiteConversionValue => "onsite_conversion_value"
    case MetaPurchases => "meta_purchases"
    case SearchTopImpressions => "search_top_impressions"
    case SearchAbsoluteTopImpressions => "search_absolute_top_impressions"
    case SearchBudgetLostTopImpressions => "search_budget_lost_top_impressions"
    case SearchBudgetLostAbsoluteTopImpressions => "search_budget_lost_absolute_top_impressions"
    case SearchRankLostTopImpressions => "search_rank_lost_top_impressions"
    case SearchRankLostImpressions => "search_rank_lost_impressions"
  }

  /** The amounts the daily report sums, all but the search-impression counts. */
  predicate IsBaseAmount(a: Amount)
  {
    a !in SearchImpressionsFields
  }

  /** One hour of one region. The first eight fields are the declared ones;
      every other amount, share and pacing text lives in a map, where a
      missing entry is the default. */
  datatype HourlyRegionMetrics = HourlyRegionMetrics(
    region: string,
    timestampUtc: Timezones.Timestamp,
    metaSpend: real,
    googleSpend: real,
    newCustomerOrders: int,
    newCustomerSales: real,
    totalSales: real,
    currency: string,
    extras: map<Amount, real>,
    shares: map<Share, real>,
    aiPacing: map<Pacing, string>)
  {
    /** `total_spend`. */
    function TotalSpend(): real
    {
      metaSpend + googleSpend
    }

    /** The value of an amount field, declared or additional. */
    function Amt(a: Amount): real
    {
      match a
      case MetaSpend => metaSpend
      case GoogleSpend => googleSpend
      case NewCustomerOrders => newCustomerOrders as real
      case NewCustomerSales => newCustomerSales
      case TotalSales => totalSales
      case _ => if a in extras then extras[a] else 0.0
    }

    function ShareOf(s: Share): real
    {
      if s in shares then shares[s] else 0.0
    }

    function PacingOf(p: Pacing): string
    {
      if p in aiPacing then aiPacing[p] else ""
    }
  }

  /** Total spend is the sum of the two spend amounts, whatever the record. */
  lemma TotalSpendIsSpendSum(m: HourlyRegionMetrics)
    ensures m.TotalSpend() == m.Amt(MetaSpend) + m.Amt(GoogleSpend)
  {
  }

  /** `HourlyRegionMetrics(region, timestamp_utc)` with every other field at
      its default. */
  function NewHourly(region: string, timestamp: Timezones.Timestamp): (m: HourlyRegionMetrics)
    ensures m.region == region && m.timestampUtc == timestamp
    ensures forall a: Amount :: m.Amt(a) == 0.0
    ensures forall s: Share :: m.ShareOf(s) == 0.0
    ensures forall p: Pacing :: m.PacingOf(p) == ""
    ensures m.TotalSpend() == 0.0 && m.newCustomerOrders == 0 && m.currency == "USD"
  {
    HourlyRegionMetrics(region, timestamp, 0.0, 0.0, 0, 0.0, 0.0, "USD", map[], map[], map[])
  }

  /** The daily fields `DailyRegionReport` does not declare but receives. */
  datatype DailyExtras = DailyExtras(
    amounts: map<Amount, real>,
    returningOrders: real,
    returningSales: real,
    netSales: real,
    grossProfit: real,
    grossMargin: Option<real>,
    discountRate: Option<real>,
    refundRate: Option<real>,
    ctr: Option<real>,
    cpc: Option<real>,
    cpm: Option<real>,
    onsiteRoas: Option<real>)

  /** Derived KPIs of one region on one local day; `localDate` is an
      epoch-day number. */
  datatype DailyRegionReport = DailyRegionReport(
    region: string,
    localDate: int,
    metaSpend: real,
    googleSpend: real,
    totalSpend: real,
    newCustomerOrders: int,
    newCustomerSales: real,
    totalSales: real,
    newCustomerAov: Option<real>,
    newCustomerRoas: Option<real>,
    blendedRoas: Option<real>,
    newCustomerCpp: Option<real>,
    currency: string,
    extras: DailyExtras)

  /** A value of the dictionary `as_dict` builds. */
  datatype Cell = Text(s: string) | Count(n: int) | Number(x: real) | NoneCell

  /** Python's `round(x)`: the nearest integer, ties to the even one. */
  function RoundHalfEven(x: real): (n: int)
    ensures -(1.0 / 2.0) <= n as real - x <= 1.0 / 2.0
    ensures (n as real - x == 1.0 / 2.0 || x - n as real == 1.0 / 2.0) ==> n % 2 == 0
  {
    var f := x.Floor;
    var frac := x - f as real;
    if frac < 1.0 / 2.0 then f
    else if frac > 1.0 / 2.0 then f + 1
    else if f % 2 == 0 then f
    else f + 1
  }

  /** 10^d. */
  function Pow10(d: nat): (p: real)
    ensures p >= 1.0
  {
    if d == 0 then 1.0 else 10.0 * Pow10(d - 1)
  }

  /** `x` in units of 10^-d. */
  function Scaled(x: real, d: nat): real
  {
    x * Pow10(d)
  }

  /** `round(x, d)`: the nearest multiple of 10^-d, ties to even. The
      result is a whole number of units 10^-d, namely `round` of `x`
      counted in those units (so it inherits nearness and ties to even
      from `RoundHalfEven`), within half a unit of the last kept digit. */
  function RoundTo(x: real, d: nat): (r: real)
    ensures Scaled(r, d) == RoundHalfEven(Scaled(x, d)) as real
    ensures -(1.0 / 2.0) <= (r - x) * Pow10(d) <= 1.0 / 2.0
  {
    ScaleBack(RoundHalfEven(Scaled(x, d)) as real, x, Pow10(d));
    RoundHalfEven(Scaled(x, d)) as real / Pow10(d)
  }

  /** No multiple of 10^-d is nearer to `x` than `round(x, d)`. */
  lemma RoundToNearest(x: real, d: nat, m: int)
    ensures Abs(Scaled(RoundTo(x, d), d) - Scaled(x, d)) <= Abs(m as real - Scaled(x, d))
  {
    NearestInteger(RoundHalfEven(Scaled(x, d)), Scaled(x, d), m);
  }

  /** An integer within half of `y` is at least as near to it as any other
      integer. */
  lemma NearestInteger(n: int, y: real, m: int)
    requires -(1.0 / 2.0) <= n as real - y <= 1.0 / 2.0
    ensures Abs(n as real - y) <= Abs(m as real - y)
  {
    if m < n {
      assert m as real <= n as real - 1.0;
    } else if m > n {
      assert m as real >= n as real + 1.0;
    }
  }

  function Abs(x: real): real
  {
    if x < 0.0 then -x else x
  }

  lemma ScaleBack(n: real, x: real, p: real)
    requires p > 0.0
    ensures (n / p) * p == n
    ensures (n / p - x) * p == n - x * p
  {
  }

  /** `round(v, d) if v is not None else None`. */
  function RoundOpt(v: Option<real>, d: nat): (c: Cell)
    ensures v.None? <==> c == NoneCell
    ensures v.Some? ==> c == Number(RoundTo(v.value, d))
  {
    match v
    case None => NoneCell
    case Some(x) => Number(RoundTo(x, d))
  }

  const AsDictKeys: seq<string> := [
    "region", "local_date", "meta_spend", "google_spend", "total_spend",
    "new_customer_orders", "new_customer_sales", "total_sales",
    "new_customer_aov", "new_customer_roas", "blended_roas",
    "new_customer_cpp", "currency"]

  /** `DailyRegionReport.as_dict`: each key of `AsDictKeys` in turn with
      its cell. */
  function AsDict(r: DailyRegionReport): (d: seq<(string, Cell)>)
  {
    seq(|AsDictKeys|, i requires 0 <= i < |AsDictKeys| => (AsDictKeys[i], AsDictCell(r, i)))
  }

  /** The cell `as_dict` stores under the `i`-th key: text for the region,
      the ISO date and the currency, money rounded to cents, and ratios
      rounded to cents or, for roas values, to thousandths. */
  function AsDictCell(r: DailyRegionReport, i: nat): Cell
  {
    match i
    case 0 => Text(r.region)
    case 1 => Text(Calendar.IsoDate(Calendar.CivilFromDays(r.localDate)))
    case 2 => Money(r.metaSpend)
    case 3 => Money(r.googleSpend)
    case 4 => Money(r.totalSpend)
    case 5 => Count(r.newCustomerOrders)
    case 6 => Money(r.newCustomerSales)
    case 7 => Money(r.totalSales)
    case 8 => RoundOpt(r.newCustomerAov, 2)
    case 9 => RoundOpt(r.newCustomerRoas, 3)
    case 10 => RoundOpt(r.blendedRoas, 3)
    case 11 => RoundOpt(r.newCustomerCpp, 2)
    case _ => Text(r.currency)
  }

  /** `as_dict` has exactly the thirteen keys, in order; the date is ISO text,
      and orders and currency pass through unchanged. */
  lemma AsDictKeysInOrder(r: DailyRegionReport)
    ensures |AsDict(r)| == |AsDictKeys|
    ensures forall i | 0 <= i < |AsDictKeys| :: AsDict(r)[i].0 == AsDictKeys[i]
    ensures AsDict(r)[1].1 == Text(Calendar.IsoDate(Calendar.CivilFromDays(r.localDate)))
    ensures AsDict(r)[0].1 == Text(r.region)
    ensures AsDict(r)[5].1 == Count(r.newCustomerOrders) && AsDict(r)[12].1 == Text(r.currency)
  {
  }

  /** A money column: the amount rounded to cents, within half a cent of
      it. */
  function Money(x: real): (c: Cell)
    ensures c.Number? && c == Number(RoundTo(x, 2))
    ensures c.x * 100.0 == RoundHalfEven(x * 100.0) as real
    ensures -(1.0 / 2.0) <= (c.x - x) * 100.0 <= 1.0 / 2.0
  {
    assert Pow10(2) == 100.0;
    assert Scaled(x, 2) == x * 100.0;
    Number(RoundTo(x, 2))
  }

  /** The money columns are the report's amounts rounded to cents. */
  lemma AsDictMoneyRounding(r: DailyRegionReport)
    ensures AsDict(r)[2].1 == Money(r.metaSpend) && AsDict(r)[3].1 == Money(r.googleSpend)
    ensures AsDict(r)[4].1 == Money(r.totalSpend)
    ensures AsDict(r)[6].1 == Money(r.newCustomerSales) && AsDict(r)[7].1 == Money(r.totalSales)
  {
  }

  /** The ratio columns are the report's ratios rounded, an absent one
      staying absent: order values and costs to cents, roas values to
      thousandths. */
  lemma AsDictRatioRounding(r: DailyRegionReport)
    ensures AsDict(r)[8].1 == RoundOpt(r.newCustomerAov, 2)
    ensures AsDict(r)[9].1 == RoundOpt(r.newCustomerRoas, 3)
    ensures AsDict(r)[10].1 == RoundOpt(r.blendedRoas, 3)
    ensures AsDict(r)[11].1 == RoundOpt(r.newCustomerCpp, 2)
  {
  }
}
