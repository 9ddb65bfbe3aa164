/** Daily and hourly KPI tables built from hourly region metrics
    (aggregator.py): records are grouped by region and region-local date,
    the additive fields are summed per group, and the derived amounts and
    ratio KPIs are computed from the sums; the hourly table applies the same
    formulas to each record and adds region-local and Chicago time columns. */
module Aggregator {
  import opened Wrappers
  import Calendar
  import Keys
  import Timezones
  import Models

  type Record = Models.HourlyRegionMetrics

  /** `DAILY_REPORT_COLUMNS`: the columns of the daily table, in order. */
  const DailyReportColumns: seq<string> := [
    "region", "local_date", "currency", "meta_spend", "google_spend",
    "total_spend", "new_customer_orders", "returning_orders", "total_orders",
    "new_customer_sales", "returning_sales", "total_sales", "net_sales",
    "gross_sales", "gross_product_sales", "refund_money", "discount_amount",
    "cost_of_goods", "shipping_costs", "estimated_shipping_costs",
    "handling_fees", "payment_gateway_costs", "gross_profit", "gross_margin",
    "discount_rate", "refund_rate", "non_tracked_spend", "impressions",
    "clicks", "ctr", "cpc", "cpm", "meta_purchases", "onsite_purchases",
    "onsite_conversion_value", "onsite_roas", "new_customer_aov",
    "new_customer_roas", "blended_roas", "new_customer_cpp"]

  // ---------------------------------------------------------------------
  // Ratios
  // ---------------------------------------------------------------------

  /** `r` is `num / den` when the denominator is non-zero, and absent
      otherwise. */
  predicate IsQuotient(r: Option<real>, num: real, den: real)
  {
    (r.Some? <==> den != 0.0) && (r.Some? ==> r.value * den == num)
  }

  /** `safe_div`: None when either operand is missing or the denominator is
      zero, the quotient otherwise. */
  function SafeDiv(num: Option<real>, den: Option<real>): (r: Option<real>)
    ensures r.Some? <==> num.Some? && den.Some? && den.value != 0.0
    ensures r.Some? ==> r.value * den.value == num.value
  {
    if den.None? then None
    else if den.value == 0.0 then None
    else if num.None? then None
    else Some(num.value / den.value)
  }

  /** The quotient of two present amounts, as both tables compute it:
      `safe_div` in the daily table, division by a column whose zeros were
      replaced by NA in the hourly one. */
  function Ratio(num: real, den: real): (r: Option<real>)
    ensures IsQuotient(r, num, den)
  {
    SafeDiv(Some(num), Some(den))
  }

  // ---------------------------------------------------------------------
  // Sums and derived fields
  // ---------------------------------------------------------------------

  /** The sum of one amount over some records. */
  function SumOf(ms: seq<Record>, a: Models.Amount): real
  {
    if ms == [] then 0.0 else ms[0].Amt(a) + SumOf(ms[1..], a)
  }

  /** The integer sum of `new_customer_orders`. */
  function OrdersOf(ms: seq<Record>): int
  {
    if ms == [] then 0 else ms[0].newCustomerOrders + OrdersOf(ms[1..])
  }

  lemma {:induction false} OrdersOfIsAmountSum(ms: seq<Record>)
    ensures OrdersOf(ms) as real == SumOf(ms, Models.NewCustomerOrders)
  {
    if ms != [] { OrdersOfIsAmountSum(ms[1..]); }
  }

  /** The sum over one record is that record's amount. */
  lemma SumOfOne(m: Record, a: Models.Amount)
    ensures SumOf([m], a) == m.Amt(a)
    ensures OrdersOf([m]) == m.newCustomerOrders
  {
    assert [m][1..] == [];
  }

  /** The fields computed from the summed amounts. */
  datatype Derived = Derived(
    totalSpend: real,
    returningOrders: real,
    returningSales: real,
    netSales: real,
    grossProfit: real,
    newCustomerAov: Option<real>,
    newCustomerRoas: Option<real>,
    blendedRoas: Option<real>,
    newCustomerCpp: Option<real>,
    grossMargin: Option<real>,
    discountRate: Option<real>,
    refundRate: Option<real>,
    ctr: Option<real>,
    cpc: Option<real>,
    cpm: Option<real>,
    onsiteRoas: Option<real>)

  /** The derived fields of a group of records (one record in the hourly
      table). */
  function Derive(ms: seq<Record>): Derived
  {
    var spend := SumOf(ms, Models.MetaSpend) + SumOf(ms, Models.GoogleSpend);
    var orders := SumOf(ms, Models.NewCustomerOrders);
    var ncs := SumOf(ms, Models.NewCustomerSales);
    var sales := SumOf(ms, Models.TotalSales);
    var refunds := SumOf(ms, Models.RefundMoney);
    var returning := SumOf(ms, Models.TotalOrders) - orders;
    var profit := sales - SumOf(ms, Models.CostOfGoods) - SumOf(ms, Models.ShippingCosts)
      - SumOf(ms, Models.PaymentGatewayCosts) - SumOf(ms, Models.HandlingFees);
    Derived(
      spend,
      if returning < 0.0 then 0.0 else returning,
      sales - ncs,
      sales - refunds,
      profit,
      Ratio(ncs, orders),
      Ratio(ncs, spend),
      Ratio(sales, spend),
      Ratio(spend, orders),
      Ratio(profit, sales),
      Ratio(SumOf(ms, Models.DiscountAmount), sales),
      Ratio(refunds, sales),
      Ratio(SumOf(ms, Models.Clicks), SumOf(ms, Models.Impressions)),
      Ratio(spend, SumOf(ms, Models.Clicks)),
      Ratio(spend * 1000.0, SumOf(ms, Models.Impressions)),
      Ratio(SumOf(ms, Models.OnsiteConversionValue), spend))
  }

  /** What the derived fields mean: spend is meta plus google spend,
      returning orders are the non-negative part of total minus new orders,
      returning and net sales and gross profit are what remains of total
      sales, and every ratio KPI is the quotient of the sums it names. */
  lemma DeriveMeaning(ms: seq<Record>)
    ensures var d := Derive(ms);
      && d.totalSpend == SumOf(ms, Models.MetaSpend) + SumOf(ms, Models.GoogleSpend)
      && d.returningOrders >= 0.0
      && d.returningOrders >= SumOf(ms, Models.TotalOrders) - SumOf(ms, Models.NewCustomerOrders)
      && (d.returningOrders == 0.0
        || d.returningOrders == SumOf(ms, Models.TotalOrders) - SumOf(ms, Models.NewCustomerOrders))
      && d.returningSales + SumOf(ms, Models.NewCustomerSales) == SumOf(ms, Models.TotalSales)
      && d.netSales + SumOf(ms, Models.RefundMoney) == SumOf(ms, Models.TotalSales)
      && d.grossProfit + SumOf(ms, Models.CostOfGoods) + SumOf(ms, Models.ShippingCosts)
        + SumOf(ms, Models.PaymentGatewayCosts) + SumOf(ms, Models.HandlingFees) == SumOf(ms, Models.TotalSales)
      && IsQuotient(d.newCustomerAov, SumOf(ms, Models.NewCustomerSales), SumOf(ms, Models.NewCustomerOrders))
      && IsQuotient(d.newCustomerRoas, SumOf(ms, Models.NewCustomerSales), d.totalSpend)
      && IsQuotient(d.blendedRoas, SumOf(ms, Models.TotalSales), d.totalSpend)
      && IsQuotient(d.newCustomerCpp, d.totalSpend, SumOf(ms, Models.NewCustomerOrders))
      && IsQuotient(d.grossMargin, d.grossProfit, SumOf(ms, Models.TotalSales))
      && IsQuotient(d.discountRate, SumOf(ms, Models.DiscountAmount), SumOf(ms, Models.TotalSales))
      && IsQuotient(d.refundRate, SumOf(ms, Models.RefundMoney), SumOf(ms, Models.TotalSales))
      && IsQuotient(d.ctr, SumOf(ms, Models.Clicks), SumOf(ms, Models.Impressions))
      && IsQuotient(d.cpc, d.totalSpend, SumOf(ms, Models.Clicks))
      && IsQuotient(d.cpm, d.totalSpend * 1000.0, SumOf(ms, Models.Impressions))
      && IsQuotient(d.onsiteRoas, SumOf(ms, Models.OnsiteConversionValue), d.totalSpend)
  {
  }

  // ---------------------------------------------------------------------
  // Daily table
  // ---------------------------------------------------------------------

  /** The region of the first record whose region has no time zone, if any:
      the record on which computing `local_date` raises. */
  function FirstUnknown(records: seq<Record>): (r: Option<string>)
    ensures r.None? <==> forall m | m in records :: m.region in Timezones.RegionTimezones
    ensures r.Some? ==> exists j | 0 <= j < |records| ::
      && records[j].region == r.value
      && r.value !in Timezones.RegionTimezones
      && forall i | 0 <= i < j :: records[i].region in Timezones.RegionTimezones
  {
    if records == [] then None
    else if records[0].region !in Timezones.RegionTimezones then Some(records[0].region)
    else
      var r := FirstUnknown(records[1..]);
      assert forall m | m in records :: m == records[0] || m in records[1..];
      if r.Some? then
        var j :| 0 <= j < |records[1..]| && records[1..][j].region == r.value
          && r.value !in Timezones.RegionTimezones
          && forall i | 0 <= i < j :: records[1..][i].region in Timezones.RegionTimezones;
        assert records[j + 1].region == r.value;
        r
      else r
  }

  predicate AllKnown(records: seq<Record>)
  {
    forall m | m in records :: m.region in Timezones.RegionTimezones
  }

  /** The grouping key of a record: its region and its region-local date. */
  function DayKey(db: Timezones.TzDatabase, m: Record): (k: Keys.Key)
    requires m.region in Timezones.RegionTimezones
    ensures k.0 == m.region
    ensures Timezones.ToLocalDate(db, m.timestampUtc, m.region) == Success(k.1)
  {
    (m.region, Timezones.ToLocalDate(db, m.timestampUtc, m.region).value)
  }

  function DayKeys(db: Timezones.TzDatabase, records: seq<Record>): (ks: seq<Keys.Key>)
    requires AllKnown(records)
    ensures |ks| == |records|
    ensures forall i | 0 <= i < |records| :: ks[i] == DayKey(db, records[i])
  {
    if records == [] then []
    else [DayKey(db, records[0])] + DayKeys(db, records[1..])
  }

  /** The records of one group, in input order. */
  function Members(db: Timezones.TzDatabase, records: seq<Record>, k: Keys.Key): (r: seq<Record>)
    requires AllKnown(records)
    ensures forall m :: m in r <==> m in records && DayKey(db, m) == k
    ensures |r| <= |records|
  {
    if records == [] then []
    else
      var rest := Members(db, records[1..], k);
      assert forall m :: m in records <==> m == records[0] || m in records[1..];
      if DayKey(db, records[0]) == k then [records[0]] + rest else rest
  }

  /** One row of the daily table: the group of one region and local date. */
  datatype Group = Group(region: string, localDate: int, members: seq<Record>)
  {
    function Sum(a: Models.Amount): real { SumOf(members, a) }

    function Orders(): int { OrdersOf(members) }

    /** `first` over the group's currencies. */
    function Currency(): string { if members == [] then "" else members[0].currency }

    function Kpis(): Derived { Derive(members) }
  }

  /** A cell of a table. */
  datatype Cell = Str(s: string) | Day(day: int) | Int(n: int) | Float(x: real) | Na

  function OptCell(v: Option<real>): (c: Cell)
    ensures v.None? <==> c == Na
    ensures v.Some? ==> c == Float(v.value)
  {
    if v.Some? then Float(v.value) else Na
  }

  /** The derived columns of the daily table. */
  datatype Kpi =
    | TotalSpend | ReturningOrders | ReturningSales | NetSales | GrossProfit
    | GrossMargin | DiscountRate | RefundRate | Ctr | Cpc | Cpm | OnsiteRoas
    | NewCustomerAov | NewCustomerRoas | BlendedRoas | NewCustomerCpp

  /** A column of the daily table: a key, the currency, the integer order
      count, a summed amount or a derived value. */
  datatype Col = RegionCol | LocalDateCol | CurrencyCol | OrdersCol | SumCol(amount: Models.Amount) | KpiCol(kpi: Kpi)

  function KpiName(k: Kpi): string
  {
    match k
    case TotalSpend => "total_spend"
    case ReturningOrders => "returning_orders"
    case ReturningSales => "returning_sales"
    case NetSales => "net_sales"
    case GrossProfit => "gross_profit"
    case GrossMargin => "gross_margin"
    case DiscountRate => "discount_rate"
    case RefundRate => "refund_rate"
    case Ctr => "ctr"
    case Cpc => "cpc"
    case Cpm => "cpm"
    case OnsiteRoas => "onsite_roas"
    case NewCustomerAov => "new_customer_aov"
    case NewCustomerRoas => "new_customer_roas"
    case BlendedRoas => "blended_roas"
    case NewCustomerCpp => "new_customer_cpp"
  }

  /** The name of a column in the frame. */
  function ColName(c: Col): string
  {
    match c
    case RegionCol => "region"
    case LocalDateCol => "local_date"
    case CurrencyCol => "currency"
    case OrdersCol => "new_customer_orders"
    case SumCol(a) => Models.AmountName(a)
    case KpiCol(k) => KpiName(k)
  }

  /** The columns of the daily table, in the order of `DAILY_REPORT_COLUMNS`. */
  const DailyColumns: seq<Col> := [
    RegionCol, LocalDateCol, CurrencyCol,
    SumCol(Models.MetaSpend), SumCol(Models.GoogleSpend), KpiCol(TotalSpend),
    OrdersCol, KpiCol(ReturningOrders), SumCol(Models.TotalOrders),
    SumCol(Models.NewCustomerSales), KpiCol(ReturningSales), SumCol(Models.TotalSales),
    KpiCol(NetSales), SumCol(Models.GrossSales), SumCol(Models.GrossProductSales),
    SumCol(Models.RefundMoney), SumCol(Models.DiscountAmount), SumCol(Models.CostOfGoods),
    SumCol(Models.ShippingCosts), SumCol(Models.EstimatedShippingCosts),
    SumCol(Models.HandlingFees), SumCol(Models.PaymentGatewayCosts),
    KpiCol(GrossProfit), KpiCol(GrossMargin), KpiCol(DiscountRate), KpiCol(RefundRate),
    SumCol(Models.NonTrackedSpend), SumCol(Models.Impressions), SumCol(Models.Clicks),
    KpiCol(Ctr), KpiCol(Cpc), KpiCol(Cpm),
    SumCol(Models.MetaPurchases), SumCol(Models.OnsitePurchases),
    SumCol(Models.OnsiteConversionValue), KpiCol(OnsiteRoas),
    KpiCol(NewCustomerAov), KpiCol(NewCustomerRoas), KpiCol(BlendedRoas),
    KpiCol(NewCustomerCpp)]

  /** The value a daily row holds in a column. */
  function Column(g: Group, c: Col): Cell
  {
    match c
    case RegionCol => Str(g.region)
    case LocalDateCol => Day(g.localDate)
    case CurrencyCol => Str(g.Currency())
    case OrdersCol => Int(g.Orders())
    case SumCol(a) => Float(g.Sum(a))
    case KpiCol(k) =>
      var d := g.Kpis();
      match k
      case TotalSpend => Float(d.totalSpend)
      case ReturningOrders => Float(d.returningOrders)
      case ReturningSales => Float(d.returningSales)
      case NetSales => Float(d.netSales)
      case GrossProfit => Float(d.grossProfit)
      case GrossMargin => OptCell(d.grossMargin)
      case DiscountRate => OptCell(d.discountRate)
      case RefundRate => OptCell(d.refundRate)
      case Ctr => OptCell(d.ctr)
      case Cpc => OptCell(d.cpc)
      case Cpm => OptCell(d.cpm)
      case OnsiteRoas => OptCell(d.onsiteRoas)
      case NewCustomerAov => OptCell(d.newCustomerAov)
      case NewCustomerRoas => OptCell(d.newCustomerRoas)
      case BlendedRoas => OptCell(d.blendedRoas)
      case NewCustomerCpp => OptCell(d.newCustomerCpp)
  }

  /** A table: its column names and its rows. */
  datatype Table = Table(columns: seq<string>, rows: seq<Group>)

  /** The group of each key, in the order of the keys. */
  function GroupsOf(db: Timezones.TzDatabase, records: seq<Record>, keys: seq<Keys.Key>): (rows: seq<Group>)
    requires AllKnown(records)
    ensures |rows| == |keys|
    ensures forall i | 0 <= i < |keys| ::
      rows[i] == Group(keys[i].0, keys[i].1, Members(db, records, keys[i]))
  {
    if keys == [] then []
    else [Group(keys[0].0, keys[0].1, Members(db, records, keys[0]))] + GroupsOf(db, records, keys[1..])
  }

  /** The groups of the records, sorted by (region, local date). */
  function DailyRows(db: Timezones.TzDatabase, records: seq<Record>): (rows: seq<Group>)
    requires AllKnown(records)
  {
    GroupsOf(db, records, Keys.SortKeys(DayKeys(db, records)))
  }

  function RowKey(g: Group): Keys.Key { (g.region, g.localDate) }

  /** `build_daily_report`. */
  function DailyReport(db: Timezones.TzDatabase, records: seq<Record>): Result<Table>
  {
    if records == [] then Success(Table(DailyReportColumns, []))
    else
      match FirstUnknown(records)
      case Some(region) => Failure(KeyError(region))
      case None => Success(Table(DailyReportColumns, DailyRows(db, records)))
  }

  /** An empty input gives an empty table with the report's columns; a record
      whose region has no time zone makes the report fail with a `KeyError`
      naming the region of the first such record; otherwise the table has
      the report's columns. */
  lemma DailyReportOutcome(db: Timezones.TzDatabase, records: seq<Record>)
    ensures records == [] ==> DailyReport(db, records) == Success(Table(DailyReportColumns, []))
    ensures DailyReport(db, records).Failure? <==> !AllKnown(records)
    ensures DailyReport(db, records).Failure? ==> exists j | 0 <= j < |records| ::
      && DailyReport(db, records).error == KeyError(records[j].region)
      && records[j].region !in Timezones.RegionTimezones
      && forall i | 0 <= i < j :: records[i].region in Timezones.RegionTimezones
    ensures DailyReport(db, records).Success? ==> DailyReport(db, records).value.columns == DailyReportColumns
  {
  }

  /** One row per (region, local date) that some record falls on, in strictly
      ascending key order; each row's members are exactly the records with
      its key, and there is at least one. */
  lemma DailyRowsGroups(db: Timezones.TzDatabase, records: seq<Record>)
    requires AllKnown(records)
    ensures var rows := DailyRows(db, records);
      && Keys.StrictlySorted(seq(|rows|, i requires 0 <= i < |rows| => RowKey(rows[i])))
      && (forall m | m in records :: exists i | 0 <= i < |rows| :: RowKey(rows[i]) == DayKey(db, m))
      && (forall i | 0 <= i < |rows| :: rows[i].members != [])
      && (forall i, m | 0 <= i < |rows| ::
            m in rows[i].members <==> m in records && DayKey(db, m) == RowKey(rows[i]))
  {
    var keys := Keys.SortKeys(DayKeys(db, records));
    var rows := DailyRows(db, records);
    assert seq(|rows|, i requires 0 <= i < |rows| => RowKey(rows[i])) == keys;
    forall m | m in records
      ensures exists i | 0 <= i < |rows| :: RowKey(rows[i]) == DayKey(db, m)
    {
      var j :| 0 <= j < |records| && records[j] == m;
      assert DayKey(db, m) in DayKeys(db, records);
      var i :| 0 <= i < |keys| && keys[i] == DayKey(db, m);
      assert RowKey(rows[i]) == keys[i];
    }
    forall i | 0 <= i < |rows| ensures rows[i].members != []
    {
      assert keys[i] in DayKeys(db, records);
      var j :| 0 <= j < |records| && DayKeys(db, records)[j] == keys[i];
      assert records[j] in rows[i].members;
    }
  }

  /** The sum of one amount over the rows of a table. */
  function RowSum(rows: seq<Group>, a: Models.Amount): real
  {
    if rows == [] then 0.0 else rows[0].Sum(a) + RowSum(rows[1..], a)
  }

  predicate DistinctKeys(ks: seq<Keys.Key>)
  {
    forall i, j | 0 <= i < j < |ks| :: ks[i] != ks[j]
  }

  lemma {:induction false} GroupsOfEmpty(db: Timezones.TzDatabase, ks: seq<Keys.Key>, a: Models.Amount)
    ensures RowSum(GroupsOf(db, [], ks), a) == 0.0
  {
    if ks != [] {
      var rows := GroupsOf(db, [], ks);
      assert rows[1..] == GroupsOf(db, [], ks[1..]);
      GroupsOfEmpty(db, ks[1..], a);
    }
  }

  /** Adding a record in front adds its amount to the row of its key, if
      there is one. */
  lemma {:induction false} GroupsOfCons(db: Timezones.TzDatabase, ks: seq<Keys.Key>, r: Record, rest: seq<Record>, a: Models.Amount)
    requires AllKnown([r] + rest)
    requires DistinctKeys(ks)
    ensures AllKnown(rest)
    ensures RowSum(GroupsOf(db, [r] + rest, ks), a)
      == (if DayKey(db, r) in ks then r.Amt(a) else 0.0) + RowSum(GroupsOf(db, rest, ks), a)
  {
    var records := [r] + rest;
    assert forall m | m in rest :: m in records;
    if ks != [] {
      var rows := GroupsOf(db, records, ks);
      var rows' := GroupsOf(db, rest, ks);
      assert rows[1..] == GroupsOf(db, records, ks[1..]);
      assert rows'[1..] == GroupsOf(db, rest, ks[1..]);
      assert records[1..] == rest;
      assert DistinctKeys(ks[1..]) by {
        forall i, j | 0 <= i < j < |ks[1..]| ensures ks[1..][i] != ks[1..][j] {
          assert ks[1..][i] == ks[i + 1] && ks[1..][j] == ks[j + 1];
        }
      }
      GroupsOfCons(db, ks[1..], r, rest, a);
      var k := ks[0];
      if DayKey(db, r) == k {
        assert Members(db, records, k) == [r] + Members(db, rest, k);
        assert ([r] + Members(db, rest, k))[1..] == Members(db, rest, k);
        assert DayKey(db, r) !in ks[1..] by {
          forall j | 0 <= j < |ks[1..]| ensures ks[1..][j] != k { assert ks[1..][j] == ks[j + 1]; }
        }
      } else {
        assert Members(db, records, k) == Members(db, rest, k);
        assert DayKey(db, r) in ks <==> DayKey(db, r) in ks[1..];
      }
    }
  }

  /** Over distinct keys that cover every record, the row sums add up to the
      sum over the records. */
  lemma {:induction false} GroupsOfConserve(db: Timezones.TzDatabase, ks: seq<Keys.Key>, records: seq<Record>, a: Models.Amount)
    requires AllKnown(records)
    requires DistinctKeys(ks)
    requires forall m | m in records :: DayKey(db, m) in ks
    ensures RowSum(GroupsOf(db, records, ks), a) == SumOf(records, a)
  {
    if records == [] {
      GroupsOfEmpty(db, ks, a);
    } else {
      var r := records[0];
      var rest := records[1..];
      assert records == [r] + rest;
      GroupsOfCons(db, ks, r, rest, a);
      forall m | m in rest ensures DayKey(db, m) in ks {
        assert m in records;
      }
      GroupsOfConserve(db, ks, rest, a);
      assert DayKey(db, r) in ks by { assert r in records; }
      assert SumOf(records, a) == r.Amt(a) + SumOf(rest, a);
    }
  }

  /** Grouping loses and duplicates nothing: for every amount, the rows of
      the daily table add up to the sum over all records. */
  lemma DailySumsConserved(db: Timezones.TzDatabase, records: seq<Record>, a: Models.Amount)
    requires AllKnown(records)
    ensures RowSum(DailyRows(db, records), a) == SumOf(records, a)
  {
    var keys := Keys.SortKeys(DayKeys(db, records));
    assert DistinctKeys(keys) by {
      forall i, j | 0 <= i < j < |keys| ensures keys[i] != keys[j] {
        Keys.LessIrreflexive(keys[i]);
      }
    }
    forall m | m in records ensures DayKey(db, m) in keys {
      var j :| 0 <= j < |records| && records[j] == m;
      assert DayKeys(db, records)[j] == DayKey(db, m);
    }
    GroupsOfConserve(db, keys, records, a);
  }

  /** The first member of a group is the first record, in input order, that
      has the group's key. */
  lemma {:induction false} MembersHead(db: Timezones.TzDatabase, records: seq<Record>, k: Keys.Key)
    requires AllKnown(records)
    requires Members(db, records, k) != []
    ensures exists j | 0 <= j < |records| ::
      && records[j] == Members(db, records, k)[0]
      && DayKey(db, records[j]) == k
      && forall i | 0 <= i < j :: DayKey(db, records[i]) != k
  {
    if DayKey(db, records[0]) != k {
      var rest := records[1..];
      assert AllKnown(rest) by {
        forall m | m in rest ensures m.region in Timezones.RegionTimezones {
          assert m in records;
        }
      }
      assert Members(db, records, k) == Members(db, rest, k);
      MembersHead(db, rest, k);
      var j :| 0 <= j < |rest| && rest[j] == Members(db, rest, k)[0]
        && DayKey(db, rest[j]) == k
        && forall i | 0 <= i < j :: DayKey(db, rest[i]) != k;
      assert records[j + 1] == rest[j];
      forall i | 0 <= i < j + 1 ensures DayKey(db, records[i]) != k {
        if i > 0 { assert records[i] == rest[i - 1]; }
      }
    }
  }

  /** `currency` is `first`: the currency of the group's earliest record in
      input order. */
  lemma DailyCurrencyIsFirst(db: Timezones.TzDatabase, records: seq<Record>, i: int)
    requires AllKnown(records)
    requires 0 <= i < |DailyRows(db, records)|
    ensures exists j | 0 <= j < |records| ::
      && DailyRows(db, records)[i].Currency() == records[j].currency
      && DayKey(db, records[j]) == RowKey(DailyRows(db, records)[i])
      && forall j' | 0 <= j' < j :: DayKey(db, records[j']) != RowKey(DailyRows(db, records)[i])
  {
    DailyRowsGroups(db, records);
    var g := DailyRows(db, records)[i];
    MembersHead(db, records, RowKey(g));
  }

  /** The table's columns are exactly `DAILY_REPORT_COLUMNS`, in order, so
      every name it lists is a column of the grouped frame and selecting them
      cannot fail; and every column but `total_orders` is one
      `DailyRegionReport` receives. */
  lemma ColumnNames()
    ensures |DailyColumns| == |DailyReportColumns|
    ensures forall i | 0 <= i < |DailyColumns| :: ColName(DailyColumns[i]) == DailyReportColumns[i]
    ensures forall i | 0 <= i < |DailyColumns| ::
      DailyColumns[i] == SumCol(Models.TotalOrders) || Reported(DailyColumns[i])
  {
    ColumnNames1();
    ColumnNames2();
    ColumnNames3();
    ColumnNames4();
    ColumnNames5();
    ColumnNames6();
    ColumnNames7();
    ColumnNames8();
    ColumnsReported(0, 20);
    ColumnsReported(20, 40);
  }

  /** Every column from `lo` to `hi` but `total_orders` is reported. */
  lemma ColumnsReported(lo: int, hi: int)
    requires (lo, hi) == (0, 20) || (lo, hi) == (20, 40)
    ensures |DailyColumns| == 40
    ensures forall i | lo <= i < hi ::
      DailyColumns[i] == SumCol(Models.TotalOrders) || Reported(DailyColumns[i])
  {
  }

  /** The names of the columns five at a time. */
  lemma ColumnNames1()
    ensures |DailyColumns| == 40
    ensures forall i | 0 <= i < 5 :: ColName(DailyColumns[i]) == DailyReportColumns[i]
  {
  }

  lemma ColumnNames2()
    ensures |DailyColumns| == 40
    ensures forall i | 5 <= i < 10 :: ColName(DailyColumns[i]) == DailyReportColumns[i]
  {
  }

  lemma ColumnNames3()
    ensures |DailyColumns| == 40
    ensures forall i | 10 <= i < 15 :: ColName(DailyColumns[i]) == DailyReportColumns[i]
  {
  }

  lemma ColumnNames4()
    ensures |DailyColumns| == 40
    ensures forall i | 15 <= i < 20 :: ColName(DailyColumns[i]) == DailyReportColumns[i]
  {
  }

  lemma ColumnNames5()
    ensures |DailyColumns| == 40
    ensures forall i | 20 <= i < 25 :: ColName(DailyColumns[i]) == DailyReportColumns[i]
  {
  }

  lemma ColumnNames6()
    ensures |DailyColumns| == 40
    ensures forall i | 25 <= i < 30 :: ColName(DailyColumns[i]) == DailyReportColumns[i]
  {
  }

  lemma ColumnNames7()
    ensures |DailyColumns| == 40
    ensures forall i | 30 <= i < 35 :: ColName(DailyColumns[i]) == DailyReportColumns[i]
  {
  }

  lemma ColumnNames8()
    ensures |DailyColumns| == 40
    ensures forall i | 35 <= i < 40 :: ColName(DailyColumns[i]) == DailyReportColumns[i]
  {
  }

  /** If every earlier record has a known region and this one has not, it is
      the first unknown one. */
  lemma {:induction false} FirstUnknownAt(records: seq<Record>, i: int)
    requires 0 <= i < |records|
    requires forall j | 0 <= j < i :: records[j].region in Timezones.RegionTimezones
    requires records[i].region !in Timezones.RegionTimezones
    ensures FirstUnknown(records) == Some(records[i].region)
  {
    if i > 0 {
      FirstUnknownAt(records[1..], i - 1);
    }
  }

  /** `build_daily_report`: computes the `local_date` column record by
      record, stopping at the first record whose region has no time zone,
      then groups. */
  method BuildDailyReport(db: Timezones.TzDatabase, records: seq<Record>) returns (r: Result<Table>)
    ensures r == DailyReport(db, records)
  {
    if records == [] {
      return Success(Table(DailyReportColumns, []));
    }
    var dates: seq<int> := [];
    var i := 0;
    while i < |records|
      invariant 0 <= i <= |records|
      invariant forall j | 0 <= j < i :: records[j].region in Timezones.RegionTimezones
      invariant |dates| == i
      invariant forall j | 0 <= j < i :: DayKey(db, records[j]) == (records[j].region, dates[j])
    {
      var date := Timezones.ToLocalDate(db, records[i].timestampUtc, records[i].region);
      if date.Failure? {
        FirstUnknownAt(records, i);
        return Failure(date.error);
      }
      dates := dates + [date.value];
      i := i + 1;
    }
    assert AllKnown(records);
    return Success(Table(DailyReportColumns, DailyRows(db, records)));
  }

  /** `DailyRegionReport` built from one row of the daily table. */
  /** The sums the report carries beyond its declared fields. */
  function ExtraAmounts(g: Group): map<Models.Amount, real>
  {
    map[
      Models.GrossSales := g.Sum(Models.GrossSales),
      Models.GrossProductSales := g.Sum(Models.GrossProductSales),
      Models.RefundMoney := g.Sum(Models.RefundMoney),
      Models.DiscountAmount := g.Sum(Models.DiscountAmount),
      Models.CostOfGoods := g.Sum(Models.CostOfGoods),
      Models.ShippingCosts := g.Sum(Models.ShippingCosts),
      Models.EstimatedShippingCosts := g.Sum(Models.EstimatedShippingCosts),
      Models.HandlingFees := g.Sum(Models.HandlingFees),
      Models.PaymentGatewayCosts := g.Sum(Models.PaymentGatewayCosts),
      Models.NonTrackedSpend := g.Sum(Models.NonTrackedSpend),
      Models.Impressions := g.Sum(Models.Impressions),
      Models.Clicks := g.Sum(Models.Clicks),
      Models.MetaPurchases := g.Sum(Models.MetaPurchases),
      Models.OnsitePurchases := g.Sum(Models.OnsitePurchases),
      Models.OnsiteConversionValue := g.Sum(Models.OnsiteConversionValue)]
  }

  function Report(g: Group): Models.DailyRegionReport
  {
    var d := g.Kpis();
    Models.DailyRegionReport(
      g.region, g.localDate,
      g.Sum(Models.MetaSpend), g.Sum(Models.GoogleSpend), d.totalSpend,
      g.Orders(), g.Sum(Models.NewCustomerSales), g.Sum(Models.TotalSales),
      d.newCustomerAov, d.newCustomerRoas, d.blendedRoas, d.newCustomerCpp,
      g.Currency(),
      Models.DailyExtras(
        ExtraAmounts(g),
        d.returningOrders, d.returningSales, d.netSales, d.grossProfit,
        d.grossMargin, d.discountRate, d.refundRate, d.ctr, d.cpc, d.cpm, d.onsiteRoas))
  }

  /** The field of a report named like a column of the daily table, if the
      report has one. */
  function ReportField(r: Models.DailyRegionReport, c: Col): Option<Cell>
  {
    match c
    case RegionCol => Some(Str(r.region))
    case LocalDateCol => Some(Day(r.localDate))
    case CurrencyCol => Some(Str(r.currency))
    case OrdersCol => Some(Int(r.newCustomerOrders))
    case SumCol(a) =>
      (match a
       case MetaSpend => Some(Float(r.metaSpend))
       case GoogleSpend => Some(Float(r.googleSpend))
       case NewCustomerSales => Some(Float(r.newCustomerSales))
       case TotalSales => Some(Float(r.totalSales))
       case _ => if a in r.extras.amounts then Some(Float(r.extras.amounts[a])) else None)
    case KpiCol(k) =>
      var e := r.extras;
      match k
      case TotalSpend => Some(Float(r.totalSpend))
      case ReturningOrders => Some(Float(e.returningOrders))
      case ReturningSales => Some(Float(e.returningSales))
      case NetSales => Some(Float(e.netSales))
      case GrossProfit => Some(Float(e.grossProfit))
      case GrossMargin => Some(OptCell(e.grossMargin))
      case DiscountRate => Some(OptCell(e.discountRate))
      case RefundRate => Some(OptCell(e.refundRate))
      case Ctr => Some(OptCell(e.ctr))
      case Cpc => Some(OptCell(e.cpc))
      case Cpm => Some(OptCell(e.cpm))
      case OnsiteRoas => Some(OptCell(e.onsiteRoas))
      case NewCustomerAov => Some(OptCell(r.newCustomerAov))
      case NewCustomerRoas => Some(OptCell(r.newCustomerRoas))
      case BlendedRoas => Some(OptCell(r.blendedRoas))
      case NewCustomerCpp => Some(OptCell(r.newCustomerCpp))
  }

  /** The columns `to_daily_reports` passes to `DailyRegionReport`: all but
      `total_orders` and amounts the daily table does not have. */
  predicate Reported(c: Col)
  {
    match c
    case SumCol(a) =>
      (match a
       case TotalOrders => false
       case NewCustomerOrders => false
       case SearchTopImpressions => false
       case SearchAbsoluteTopImpressions => false
       case SearchBudgetLostTopImpressions => false
       case SearchBudgetLostAbsoluteTopImpressions => false
       case SearchRankLostTopImpressions => false
       case SearchRankLostImpressions => false
       case _ => true)
    case _ => true
  }

  /** The report carries every reported column of its row under the same
      name, the orders as an integer; `total_orders` it does not receive. */
  lemma ReportReadsColumns(g: Group, c: Col)
    ensures Reported(c) ==> ReportField(Report(g), c) == Some(Column(g, c))
    ensures ReportField(Report(g), SumCol(Models.TotalOrders)) == None
  {
    ReportLacksTotalOrders(g);
    match c
    case SumCol(a) => if Reported(c) { ReportReadsAmount(g, a); }
    case KpiCol(k) => ReportReadsKpi(g, k);
    case _ =>
  }

  lemma ReportLacksTotalOrders(g: Group)
    ensures ReportField(Report(g), SumCol(Models.TotalOrders)) == None
  {
  }

  lemma ReportReadsAmount(g: Group, a: Models.Amount)
    requires Reported(SumCol(a))
    ensures ReportField(Report(g), SumCol(a)) == Some(Float(g.Sum(a)))
  {
    assert Report(g).extras.amounts == ExtraAmounts(g);
    ExtraAmountsAt(g, a);
  }

  lemma ExtraAmountsAt(g: Group, a: Models.Amount)
    requires Reported(SumCol(a))
    ensures !a.MetaSpend? && !a.GoogleSpend? && !a.NewCustomerSales? && !a.TotalSales? ==>
      a in ExtraAmounts(g) && ExtraAmounts(g)[a] == g.Sum(a)
  {
    var m := ExtraAmounts(g);
    match a
    case MetaSpend =>
    case GoogleSpend =>
    case NewCustomerSales =>
    case TotalSales =>
    case GrossSales => assert m[a] == g.Sum(a);
    case GrossProductSales => assert m[a] == g.Sum(a);
    case RefundMoney => assert m[a] == g.Sum(a);
    case DiscountAmount => assert m[a] == g.Sum(a);
    case CostOfGoods => assert m[a] == g.Sum(a);
    case ShippingCosts => assert m[a] == g.Sum(a);
    case EstimatedShippingCosts => assert m[a] == g.Sum(a);
    case HandlingFees => assert m[a] == g.Sum(a);
    case PaymentGatewayCosts => assert m[a] == g.Sum(a);
    case NonTrackedSpend => assert m[a] == g.Sum(a);
    case Impressions => assert m[a] == g.Sum(a);
    case Clicks => assert m[a] == g.Sum(a);
    case MetaPurchases => assert m[a] == g.Sum(a);
    case OnsitePurchases => assert m[a] == g.Sum(a);
    case OnsiteConversionValue => assert m[a] == g.Sum(a);
    case _ => assert false;
  }

  lemma ReportReadsKpi(g: Group, k: Kpi)
    ensures ReportField(Report(g), KpiCol(k)) == Some(Column(g, KpiCol(k)))
  {
  }

  /** `to_daily_reports`, as a specification. */
  function DailyReports(db: Timezones.TzDatabase, records: seq<Record>): (r: Result<seq<Models.DailyRegionReport>>)
  {
    match DailyReport(db, records)
    case Failure(e) => Failure(e)
    case Success(t) => Success(ReportsOf(t.rows))
  }

  function ReportsOf(rows: seq<Group>): (r: seq<Models.DailyRegionReport>)
    ensures |r| == |rows|
    ensures forall i | 0 <= i < |rows| :: r[i] == Report(rows[i])
  {
    if rows == [] then []
    else ReportsOf(rows[..|rows| - 1]) + [Report(rows[|rows| - 1])]
  }

  /** `to_daily_reports`: one report per row of the daily table, in order. */
  method ToDailyReports(db: Timezones.TzDatabase, records: seq<Record>) returns (r: Result<seq<Models.DailyRegionReport>>)
    ensures r == DailyReports(db, records)
  {
    var table := BuildDailyReport(db, records);
    if table.Failure? {
      return Failure(table.error);
    }
    var reports := ReportRows(table.value.rows);
    return Success(reports);
  }

  /** The loop of `to_daily_reports`: one report per row, in order. */
  method ReportRows(rows: seq<Group>) returns (reports: seq<Models.DailyRegionReport>)
    ensures reports == ReportsOf(rows)
  {
    reports := [];
    var i := 0;
    while i < |rows|
      invariant 0 <= i <= |rows|
      invariant reports == ReportsOf(rows[..i])
    {
      assert rows[..i + 1][..i] == rows[..i];
      reports := reports + [Report(rows[i])];
      i := i + 1;
    }
    assert rows[..i] == rows;
  }

  // ---------------------------------------------------------------------
  // Hourly table
  // ---------------------------------------------------------------------

  /** The time columns of an hourly row: the region-local datetime and the
      same instant in Chicago, with the date and `%Y-%m-%d %H:00` labels
      derived from them. */
  datatype LocalColumns = LocalColumns(localDatetime: Timezones.LocalDateTime, centralDatetime: Timezones.LocalDateTime)
  {
    function LocalDate(): int { localDatetime.Date() }

    function LocalHour(): string { Calendar.HourLabel(localDatetime.Date(), localDatetime.Hour()) }

    function CentralHour(): string { Calendar.HourLabel(centralDatetime.Date(), centralDatetime.Hour()) }
  }

  /** One row of the hourly table: the record, its derived fields, and its
      time columns when they were asked for. */
  datatype HourlyRow = HourlyRow(record: Record, kpis: Derived, local: Option<LocalColumns>)

  function LocalColumnsOf(db: Timezones.TzDatabase, ldt: Timezones.LocalDateTime): LocalColumns
  {
    LocalColumns(ldt, Timezones.InZone(db, ldt.instant, Timezones.Chicago))
  }

  function RowOf(db: Timezones.TzDatabase, m: Record, includeLocalTime: bool): HourlyRow
    requires includeLocalTime ==> m.region in Timezones.RegionTimezones
  {
    if includeLocalTime then
      HourlyRow(m, Derive([m]), Some(LocalColumnsOf(db, Timezones.ToLocalDatetime(db, m.timestampUtc, m.region).value)))
    else HourlyRow(m, Derive([m]), None)
  }

  /** The sort key of the hourly table: region, then UTC timestamp. */
  function HourKey(row: HourlyRow): Keys.Key
  {
    (row.record.region, Timezones.AsUtc(row.record.timestampUtc))
  }

  /** The rows of the records, in input order. */
  function Unsorted(db: Timezones.TzDatabase, records: seq<Record>, includeLocalTime: bool): (rows: seq<HourlyRow>)
    requires includeLocalTime ==> AllKnown(records)
    ensures |rows| == |records|
    ensures forall j | 0 <= j < |records| :: rows[j] == RowOf(db, records[j], includeLocalTime)
  {
    seq(|records|, j requires 0 <= j < |records| => RowOf(db, records[j], includeLocalTime))
  }

  /** `build_hourly_table`. */
  function HourlyTable(db: Timezones.TzDatabase, records: seq<Record>, includeLocalTime: bool): Result<seq<HourlyRow>>
  {
    if records == [] then Success([])
    else if includeLocalTime && FirstUnknown(records).Some? then Failure(KeyError(FirstUnknown(records).value))
    else Success(Keys.SortBy(Unsorted(db, records, includeLocalTime), HourKey))
  }

  /** `build_hourly_table`: derives each row, adds the time columns when
      asked, and sorts stably by region and UTC timestamp. */
  method BuildHourlyTable(db: Timezones.TzDatabase, records: seq<Record>, includeLocalTime: bool)
    returns (r: Result<seq<HourlyRow>>)
    ensures r == HourlyTable(db, records, includeLocalTime)
  {
    if records == [] {
      return Success([]);
    }
    var rows := AddColumns(db, records, includeLocalTime);
    if rows.Failure? {
      return Failure(rows.error);
    }
    return Success(Keys.SortBy(rows.value, HourKey));
  }

  /** The derived columns of every record and, when asked, its time columns,
      computed record by record and stopping at the first region without a
      time zone. */
  method AddColumns(db: Timezones.TzDatabase, records: seq<Record>, includeLocalTime: bool)
    returns (r: Result<seq<HourlyRow>>)
    ensures r.Failure? <==> includeLocalTime && FirstUnknown(records).Some?
    ensures r.Failure? ==> r.error == KeyError(FirstUnknown(records).value)
    ensures r.Success? ==> (includeLocalTime ==> AllKnown(records)) && r.value == Unsorted(db, records, includeLocalTime)
  {
    var rows: seq<HourlyRow> := [];
    var i := 0;
    while i < |records|
      invariant 0 <= i <= |records|
      invariant includeLocalTime ==> forall j | 0 <= j < i :: records[j].region in Timezones.RegionTimezones
      invariant |rows| == i
      invariant forall j | 0 <= j < i :: rows[j] == RowOf(db, records[j], includeLocalTime)
    {
      var m := records[i];
      if includeLocalTime && m.region !in Timezones.RegionTimezones {
        FirstUnknownAt(records, i);
        return Failure(KeyError(m.region));
      }
      rows := AppendRow(db, rows, records, i, includeLocalTime);
      i := i + 1;
    }
    assert includeLocalTime ==> AllKnown(records) by {
      if includeLocalTime {
        forall m | m in records ensures m.region in Timezones.RegionTimezones {
          var j :| 0 <= j < |records| && records[j] == m;
        }
      }
    }
    return Success(rows);
  }

  /** Appends the row of record `i` to the rows of the records before it. */
  method AppendRow(db: Timezones.TzDatabase, rows: seq<HourlyRow>, records: seq<Record>, i: int, includeLocalTime: bool)
    returns (rows': seq<HourlyRow>)
    requires 0 <= i < |records| && |rows| == i
    requires includeLocalTime ==> forall j | 0 <= j <= i :: records[j].region in Timezones.RegionTimezones
    requires forall j | 0 <= j < i :: rows[j] == RowOf(db, records[j], includeLocalTime)
    ensures |rows'| == i + 1
    ensures forall j | 0 <= j <= i :: rows'[j] == RowOf(db, records[j], includeLocalTime)
  {
    rows' := rows + [RowOf(db, records[i], includeLocalTime)];
  }

  /** An empty input gives an empty table; asking for the time columns fails
      with a `KeyError` naming the first record's region that has no time
      zone; without them nothing fails. */
  lemma HourlyTableOutcome(db: Timezones.TzDatabase, records: seq<Record>, includeLocalTime: bool)
    ensures records == [] ==> HourlyTable(db, records, includeLocalTime) == Success([])
    ensures HourlyTable(db, records, includeLocalTime).Failure? <==> includeLocalTime && !AllKnown(records)
    ensures HourlyTable(db, records, includeLocalTime).Failure? ==> exists j | 0 <= j < |records| ::
      && HourlyTable(db, records, includeLocalTime).error == KeyError(records[j].region)
      && records[j].region !in Timezones.RegionTimezones
      && forall i | 0 <= i < j :: records[i].region in Timezones.RegionTimezones
  {
  }

  /** The hourly table holds one row per record, sorted by region and UTC
      timestamp with equal keys in input order (a stable sort), each row
      with its own record's derived fields, and time columns exactly when
      they were asked for. */
  lemma HourlyTableRows(db: Timezones.TzDatabase, records: seq<Record>, includeLocalTime: bool)
    requires HourlyTable(db, records, includeLocalTime).Success?
    ensures var rows := HourlyTable(db, records, includeLocalTime).value;
      && |rows| == |records|
      && Keys.SortedBy(rows, HourKey)
      && multiset(rows) == multiset(Unsorted(db, records, includeLocalTime))
      && (forall m | m in records :: exists i | 0 <= i < |rows| :: rows[i].record == m)
      && (forall i | 0 <= i < |rows| ::
            && rows[i].record in records
            && rows[i].kpis == Derive([rows[i].record])
            && (rows[i].local.Some? <==> includeLocalTime))
  {
    if records != [] {
      var built := Unsorted(db, records, includeLocalTime);
      var rows := Keys.SortBy(built, HourKey);
      forall j | 0 <= j < |built|
        ensures built[j].record == records[j] && built[j].kpis == Derive([records[j]])
        ensures built[j].local.Some? <==> includeLocalTime
      {}
      PermutedRows(records, built, rows, includeLocalTime);
    }
  }

  /** A permutation of rows built record by record still holds one row per
      record, each with that record's fields. */
  lemma PermutedRows(records: seq<Record>, built: seq<HourlyRow>, rows: seq<HourlyRow>, includeLocalTime: bool)
    requires |built| == |records|
    requires forall j | 0 <= j < |built| ::
      && built[j].record == records[j]
      && built[j].kpis == Derive([records[j]])
      && (built[j].local.Some? <==> includeLocalTime)
    requires multiset(rows) == multiset(built)
    ensures |rows| == |records|
    ensures forall m | m in records :: exists i | 0 <= i < |rows| :: rows[i].record == m
    ensures forall i | 0 <= i < |rows| ::
      && rows[i].record in records
      && rows[i].kpis == Derive([rows[i].record])
      && (rows[i].local.Some? <==> includeLocalTime)
  {
    Keys.SameElements(rows, built);
    forall m | m in records ensures exists i | 0 <= i < |rows| :: rows[i].record == m {
      var j :| 0 <= j < |records| && records[j] == m;
      assert built[j] in rows;
      var i :| 0 <= i < |rows| && rows[i] == built[j];
    }
    forall i | 0 <= i < |rows|
      ensures rows[i].record in records && rows[i].kpis == Derive([rows[i].record])
      ensures rows[i].local.Some? <==> includeLocalTime
    {
      var j :| 0 <= j < |built| && built[j] == rows[i];
    }
  }

  /** The sort of the hourly table is stable: the rows of one region and
      hour keep the order of their records. */
  lemma HourlyTableStable(db: Timezones.TzDatabase, records: seq<Record>, includeLocalTime: bool, k: Keys.Key)
    requires HourlyTable(db, records, includeLocalTime).Success?
    ensures Keys.WithKey(HourlyTable(db, records, includeLocalTime).value, HourKey, k)
         == Keys.WithKey(Unsorted(db, records, includeLocalTime), HourKey, k)
  {
    if records != [] {
      Keys.SortByStable(Unsorted(db, records, includeLocalTime), HourKey, k);
    }
  }


  /** Per row the formulas are those of the daily table applied to the one
      record: spend is meta plus google spend, and each ratio is the
      record's quotient, absent on a zero denominator. */
  lemma HourlyKpis(m: Record)
    ensures var d := Derive([m]);
      && d.totalSpend == m.TotalSpend()
      && IsQuotient(d.newCustomerCpp, m.TotalSpend(), m.newCustomerOrders as real)
      && IsQuotient(d.newCustomerAov, m.newCustomerSales, m.newCustomerOrders as real)
      && IsQuotient(d.newCustomerRoas, m.newCustomerSales, m.TotalSpend())
      && IsQuotient(d.blendedRoas, m.totalSales, m.TotalSpend())
      && IsQuotient(d.cpm, m.TotalSpend() * 1000.0, m.Amt(Models.Impressions))
  {
    DeriveMeaning([m]);
    SumOfOne(m, Models.MetaSpend);
    SumOfOne(m, Models.GoogleSpend);
    SumOfOne(m, Models.NewCustomerOrders);
    SumOfOne(m, Models.NewCustomerSales);
    SumOfOne(m, Models.TotalSales);
    SumOfOne(m, Models.Impressions);
  }

  /** The time columns: the local datetime keeps the instant and carries the
      region's zone, its date is `to_local_date` and its label the local
      wall-clock hour; the central datetime is the same instant in Chicago. */
  lemma TimeColumns(db: Timezones.TzDatabase, m: Record)
    requires m.region in Timezones.RegionTimezones
    ensures var c := RowOf(db, m, true).local.value;
      && c.localDatetime.instant == Timezones.AsUtc(m.timestampUtc)
      && c.localDatetime.zone == Timezones.RegionTimezones[m.region]
      && Timezones.ToLocalDate(db, m.timestampUtc, m.region) == Success(c.LocalDate())
      && c.centralDatetime.instant == c.localDatetime.instant
      && c.centralDatetime.zone == Timezones.Chicago
      && c.centralDatetime.offset == db.offsetAt(Timezones.Chicago, c.localDatetime.instant)
  {
    Timezones.LocalDateIsDatePart(db, m.timestampUtc, m.region);
  }

  /** The UK records of the daily example: 10:00 and 20:00 UTC on
      2024-10-13. */
  function UkMorning(): Record
  {
    Models.HourlyRegionMetrics("UK", Timezones.Aware(Timezones.ExampleInstant),
      100.0, 50.0, 10, 1200.0, 2000.0, "USD", map[], map[], map[])
  }

  function UkEvening(): Record
  {
    Models.HourlyRegionMetrics("UK", Timezones.Aware(Timezones.ExampleInstant + 10 * Timezones.SecondsPerHour),
      30.0, 20.0, 5, 600.0, 900.0, "USD", map[], map[], map[])
  }

  /** Two UK hours of 2024-10-13 (both BST) make one daily row, holding both
      records. */
  lemma DailyExample(db: Timezones.TzDatabase)
    requires db.offsetAt(Timezones.London, Timezones.ExampleInstant) == 3600
    requires db.offsetAt(Timezones.London, Timezones.ExampleInstant + 10 * Timezones.SecondsPerHour) == 3600
    ensures DailyReport(db, [UkMorning(), UkEvening()])
      == Success(Table(DailyReportColumns, [Group("UK", 20009, [UkMorning(), UkEvening()])]))
  {
    var records := [UkMorning(), UkEvening()];
    var k: Keys.Key := ("UK", 20009);
    assert AllKnown(records);
    assert DayKey(db, UkMorning()) == k && DayKey(db, UkEvening()) == k;
    assert DayKeys(db, records) == [k, k];
    assert [k, k][..1] == [k];
    assert Keys.SortKeys([k]) == [k];
    assert Keys.SortKeys([k, k]) == [k];
    assert records[1..] == [UkEvening()] && [UkEvening()][1..] == [];
    assert Members(db, records, k) == records;
    assert FirstUnknown(records) == None;
    assert DailyRows(db, records) == [Group("UK", 20009, records)];
  }

  /** The example's row sums meta 130, google 70, 15 orders, new sales 1800
      and total sales 2900, and takes currency USD. */
  lemma DailyExampleSums()
    ensures var g := Group("UK", 20009, [UkMorning(), UkEvening()]);
      && g.Sum(Models.MetaSpend) == 130.0 && g.Sum(Models.GoogleSpend) == 70.0
      && g.Sum(Models.NewCustomerOrders) == 15.0 && g.Orders() == 15
      && g.Sum(Models.NewCustomerSales) == 1800.0 && g.Sum(Models.TotalSales) == 2900.0
      && g.Currency() == "USD"
  {
    var r1 := UkMorning();
    var r2 := UkEvening();
    SumOfTwo(r1, r2, Models.MetaSpend);
    SumOfTwo(r1, r2, Models.GoogleSpend);
    SumOfTwo(r1, r2, Models.NewCustomerOrders);
    SumOfTwo(r1, r2, Models.NewCustomerSales);
    SumOfTwo(r1, r2, Models.TotalSales);
  }

  /** So spend is 200, aov 120, new-customer roas 9, blended roas 14.5 and
      cost per purchase 200/15. */
  lemma DailyExampleKpis()
    ensures var d := Group("UK", 20009, [UkMorning(), UkEvening()]).Kpis();
      && d.totalSpend == 200.0
      && d.newCustomerAov == Some(120.0) && d.newCustomerRoas == Some(9.0)
      && d.blendedRoas == Some(14.5) && d.newCustomerCpp == Some(200.0 / 15.0)
  {
    DailyExampleSums();
  }

  lemma SumOfTwo(r1: Record, r2: Record, a: Models.Amount)
    ensures SumOf([r1, r2], a) == r1.Amt(a) + r2.Amt(a)
    ensures OrdersOf([r1, r2]) == r1.newCustomerOrders + r2.newCustomerOrders
  {
    assert [r1, r2][1..] == [r2];
    SumOfOne(r2, a);
  }

  /** One AU record at 2024-10-13T10:00Z (AEDT +11, CDT -5) gives one row
      whose local hour is 2024-10-13 21:00 and central hour 05:00, with the
      record's ratio KPIs. */
  lemma HourlyExample(db: Timezones.TzDatabase)
    requires db.offsetAt(Timezones.Sydney, Timezones.ExampleInstant) == 39600
    requires db.offsetAt(Timezones.Chicago, Timezones.ExampleInstant) == -18000
    ensures var r := ExampleRecord();
      var t := HourlyTable(db, [r], true);
      && t.Success? && |t.value| == 1
      && t.value[0].record == r
      && t.value[0].local.Some?
      && t.value[0].local.value.LocalDate() == 20009
      && t.value[0].local.value.LocalHour() == "2024-10-13 21:00"
      && t.value[0].local.value.CentralHour() == "2024-10-13 05:00"
      && t.value[0].kpis.totalSpend == 15.0
      && t.value[0].kpis.newCustomerCpp == Some(15.0)
      && t.value[0].kpis.newCustomerAov == Some(100.0)
      && t.value[0].kpis.newCustomerRoas == Some(100.0 / 15.0)
      && t.value[0].kpis.blendedRoas == Some(10.0)
  {
    var r := ExampleRecord();
    var row := RowOf(db, r, true);
    assert Unsorted(db, [r], true) == [row];
    assert Keys.SortBy([row], HourKey) == [row];
    assert HourlyTable(db, [r], true) == Success([row]);
    ExampleRowTimes(db);
    ExampleRowKpis();
  }

  /** The AU record of the hourly example. */
  function ExampleRecord(): Record
  {
    Models.HourlyRegionMetrics("AU", Timezones.Aware(Timezones.ExampleInstant),
      10.0, 5.0, 1, 100.0, 150.0, "USD", map[], map[], map[])
  }

  lemma ExampleRowTimes(db: Timezones.TzDatabase)
    requires db.offsetAt(Timezones.Sydney, Timezones.ExampleInstant) == 39600
    requires db.offsetAt(Timezones.Chicago, Timezones.ExampleInstant) == -18000
    ensures var c := RowOf(db, ExampleRecord(), true).local;
      && c.Some?
      && c.value.LocalDate() == 20009
      && c.value.LocalHour() == "2024-10-13 21:00"
      && c.value.CentralHour() == "2024-10-13 05:00"
  {
    var c := RowOf(db, ExampleRecord(), true).local.value;
    assert c.localDatetime == Timezones.LocalDateTime(Timezones.ExampleInstant, Timezones.Sydney, 39600);
    assert c.centralDatetime == Timezones.LocalDateTime(Timezones.ExampleInstant, Timezones.Chicago, -18000);
    assert c.localDatetime.Date() == 20009 && c.localDatetime.Hour() == 21;
    assert c.centralDatetime.Date() == 20009 && c.centralDatetime.Hour() == 5;
    Calendar.ExampleLabels();
  }

  lemma ExampleRowKpis()
    ensures var d := Derive([ExampleRecord()]);
      && d.totalSpend == 15.0
      && d.newCustomerCpp == Some(15.0)
      && d.newCustomerAov == Some(100.0)
      && d.newCustomerRoas == Some(100.0 / 15.0)
      && d.blendedRoas == Some(10.0)
  {
    var r := ExampleRecord();
    SumOfOne(r, Models.MetaSpend);
    SumOfOne(r, Models.GoogleSpend);
    SumOfOne(r, Models.NewCustomerOrders);
    SumOfOne(r, Models.NewCustomerSales);
    SumOfOne(r, Models.TotalSales);
  }
}
