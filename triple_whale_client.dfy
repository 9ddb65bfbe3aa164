/** The parts of the Triple Whale API client that compute: joining the base
    URL and a path, the `today_hour` guard and request body of
    `fetch_summary_metrics`, and the legacy `marketingPerformance`
    normalisation with its per-node metric collapse. The HTTP transport is
    not part of this model. */
module TripleWhaleClient {
  import opened Wrappers
  import opened Json
  import Text
  import Calendar
  import Timezones
  import Models

  /** The error `fetch_summary_metrics` raises for a `today_hour` outside 1..25. */
  const TodayHourOutOfRange := ValueError("today_hour must be between 1 and 25 inclusive")

  /** `float(s)` of a string that is not a number. */
  const NotAFloat := ValueError("could not convert string to float")

  /** `int(s)` of a string that is not an integer. */
  const NotAnInt := ValueError("invalid literal for int() with base 10")

  type Record = Models.HourlyRegionMetrics

  // ---------------------------------------------------------------------
  // URLs and the summary request
  // ---------------------------------------------------------------------

  /** `_base_url`: the base without trailing slashes, one slash, and the path
      without leading slashes. */
  function BaseUrl(base: string, path: string): (r: string)
    ensures var b := Text.TrimRight(base, '/'); var q := Text.TrimLeft(path, '/');
      && |r| == |b| + 1 + |q|
      && r[..|b|] == b && r[|b|] == '/' && r[|b| + 1..] == q
      && (b == [] || r[|b| - 1] != '/')
      && (q == [] || r[|b| + 1] != '/')
  {
    var b := Text.TrimRight(base, '/');
    var q := Text.TrimLeft(path, '/');
    var r := b + "/" + q;
    assert r[..|b|] == b && r[|b| + 1..] == q;
    assert b != [] ==> r[|b| - 1] == b[|b| - 1];
    assert q != [] ==> r[|b| + 1] == q[0];
    r
  }

  /** Slashes at the join do not matter: a base with a trailing slash and a
      path with a leading one give the same URL as without them. */
  lemma BaseUrlIgnoresJoinSlashes(base: string, path: string)
    ensures BaseUrl(base + "/", "/" + path) == BaseUrl(base, path)
  {
    assert (base + "/")[..|base|] == base;
    assert ("/" + path)[1..] == path;
  }

  /** The lowest and highest `today_hour` the summary endpoint accepts. */
  const MinTodayHour := 1
  const MaxTodayHour := 25

  /** `fetch_summary_metrics` up to the POST: the `today_hour` check, then
      the endpoint URL and the JSON body. `startWall`/`endWall` are the
      wall-clock seconds of the two datetimes, whose date parts are sent. */
  function SummaryRequest(base: string, shop: string, startWall: int, endWall: int, todayHour: int)
    : (r: Result<(string, Value)>)
    ensures r.Failure? <==> todayHour < MinTodayHour || todayHour > MaxTodayHour
    ensures r.Failure? ==> r.error == TodayHourOutOfRange
    ensures r.Success? ==> r.value.0 == BaseUrl(base, "summary-page/get-data")
    ensures r.Success? ==>
      && r.value.1.Dict?
      && Get(r.value.1.fields, "shopDomain") == Some(Str(shop))
      && Get(r.value.1.fields, "todayHour") == Some(Int(todayHour))
    ensures r.Success? ==>
      Get(r.value.1.fields, "period")
      == Some(Dict([("start", Str(WallDate(startWall))), ("end", Str(WallDate(endWall)))]))
  {
    if todayHour < MinTodayHour || todayHour > MaxTodayHour then
      Failure(TodayHourOutOfRange)
    else
      var period := Dict([
        ("start", Str(WallDate(startWall))),
        ("end", Str(WallDate(endWall)))]);
      var body := [("shopDomain", Str(shop)), ("period", period), ("todayHour", Int(todayHour))];
      assert KeyAt(body, 0) == "shopDomain" && KeyAt(body, 1) == "period" && KeyAt(body, 2) == "todayHour";
      assert body[1..][0] == ("period", period);
      assert Get(body, "period") == Get(body[1..], "period") == Some(period);
      Success((BaseUrl(base, "summary-page/get-data"), Dict(body)))
  }

  /** `dt.date().isoformat()` of a wall-clock time in seconds. */
  function WallDate(wall: int): string
  {
    Calendar.IsoDate(Calendar.CivilFromDays(wall / Timezones.SecondsPerDay))
  }

  // ---------------------------------------------------------------------
  // Python conversions the normalisation applies to JSON values
  // ---------------------------------------------------------------------

  /** String parsers the code calls: `float(s)`, `int(s)` and
      `datetime.fromisoformat(s)`, each None where it raises `ValueError`.
      An ISO string with an offset gives an aware timestamp, one without a
      naive one. */
  datatype Parsers = Parsers(
    parseFloat: string -> Option<real>,
    parseInt: string -> Option<int>,
    isoDatetime: string -> Option<Timezones.Timestamp>)

  /** `float(v)`. */
  function FloatOf(p: Parsers, v: Value): (r: Result<real>)
    ensures v.Int? ==> r == Success(v.i as real)
    ensures v.Float? ==> r == Success(v.f)
    ensures v.Null? || v.List? || v.Dict? ==> r.Failure?
  {
    match v
    case Null => Failure(TypeError(FloatArgument + "'NoneType'"))
    case Bool(b) => Success(if b then 1.0 else 0.0)
    case Int(i) => Success(i as real)
    case Float(f) => Success(f)
    case Decimal(d) => Success(d)
    case Str(s) =>
      if p.parseFloat(s).Some? then Success(p.parseFloat(s).value)
      else Failure(NotAFloat)
    case List(_) => Failure(TypeError(FloatArgument + "'list'"))
    case Dict(_) => Failure(TypeError(FloatArgument + "'dict'"))
  }

  /** `int(x)` of a number: truncation toward zero. */
  function Truncate(x: real): (n: int)
    ensures x >= 0.0 ==> n as real <= x < n as real + 1.0
    ensures x < 0.0 ==> n as real - 1.0 < x <= n as real
  {
    if x >= 0.0 then x.Floor else -((-x).Floor)
  }

  const FloatArgument := "float() argument must be a string or a real number, not "
  const IntArgument := "int() argument must be a string, a bytes-like object or a real number, not "

  /** `int(v)`. */
  function IntOf(p: Parsers, v: Value): (r: Result<int>)
    ensures v.Int? ==> r == Success(v.i)
    ensures v.Null? || v.List? || v.Dict? ==> r.Failure?
  {
    match v
    case Null => Failure(TypeError(IntArgument + "'NoneType'"))
    case Bool(b) => Success(if b then 1 else 0)
    case Int(i) => Success(i)
    case Float(f) => Success(Truncate(f))
    case Decimal(d) => Success(Truncate(d))
    case Str(s) =>
      if p.parseInt(s).Some? then Success(p.parseInt(s).value)
      else Failure(NotAnInt)
    case List(_) => Failure(TypeError(IntArgument + "'list'"))
    case Dict(_) => Failure(TypeError(IntArgument + "'dict'"))
  }

  // ---------------------------------------------------------------------
  // _collapse_metrics
  // ---------------------------------------------------------------------

  /** The five totals `_collapse_metrics` returns under the keys META,
      GOOGLE, newCustomerOrders, newCustomerSalesUsd and totalSalesUsd. */
  datatype Totals = Totals(
    meta: real,
    google: real,
    newCustomerOrders: int,
    newCustomerSales: real,
    totalSales: real)

  /** The initial totals. */
  const NoTotals := Totals(0.0, 0.0, 0, 0.0, 0.0)

  datatype Channel = Meta | Google

  /** The keys of a metric that `_collapse_metrics` reads. */
  const SourceKey := "source"
  const SpendKey := "spendUsd"
  const NewOrdersKey := "newCustomerOrders"
  const NewSalesKey := "newCustomerSalesUsd"
  const TotalSalesKey := "totalSalesUsd"

  /** The upper-cased sources that name a spend channel or carry the totals. */
  const MetaSource := "META"
  const FacebookSource := "FACEBOOK"
  const GoogleSource := "GOOGLE"
  const GoogleAdsSource := "GOOGLE_ADS"
  const TotalSource := "TOTAL"
  const AllSource := "ALL"

  /** The spend channel of an upper-cased source, if it has one. */
  function ChannelOf(source: string): Option<Channel>
  {
    if source == MetaSource || source == FacebookSource then Some(Meta)
    else if source == GoogleSource || source == GoogleAdsSource then Some(Google)
    else None
  }

  /** A source whose metric carries the new-customer and sales totals. */
  predicate IsTotalSource(source: string)
  {
    source == TotalSource || source == AllSource || source == ""
  }

  /** `(metric.get("source") or "").upper()`. */
  function SourceOf(f: Fields): Result<string>
  {
    match Or(GetOr(f, SourceKey, Null), Str(""))
    case Str(s) => Success(Text.Upper(s))
    case _ => Failure(NoUpper)
  }

  /** `float(metric.get("spendUsd", 0.0) or 0.0)`. */
  function SpendOf(p: Parsers, f: Fields): Result<real>
  {
    FloatOf(p, Or(GetOr(f, SpendKey, Float(0.0)), Float(0.0)))
  }

  /** The new-customer orders, new-customer sales and total sales of a
      total-type metric, each read as `int(x or 0)` or `float(x or 0.0)`,
      in that order. */
  function CountsOf(p: Parsers, f: Fields): Result<(int, real, real)>
  {
    match IntOf(p, Or(GetOr(f, NewOrdersKey, Int(0)), Int(0)))
    case Failure(e) => Failure(e)
    case Success(orders) =>
      match FloatOf(p, Or(GetOr(f, NewSalesKey, Float(0.0)), Float(0.0)))
      case Failure(e) => Failure(e)
      case Success(newSales) =>
        match FloatOf(p, Or(GetOr(f, TotalSalesKey, Float(0.0)), Float(0.0)))
        case Failure(e) => Failure(e)
        case Success(sales) => Success((orders, newSales, sales))
  }

  /** One iteration of the loop: the totals and the allocation flag after
      `metric`. */
  function Step(p: Parsers, totals: Totals, newCustomerAllocated: bool, metric: Value): Result<(Totals, bool)>
  {
    match metric
    case Dict(f) =>
      (match SourceOf(f)
       case Failure(e) => Failure(e)
       case Success(source) =>
         match SpendOf(p, f)
         case Failure(e) => Failure(e)
         case Success(spend) =>
           var t := match ChannelOf(source)
             case Some(Meta) => totals.(meta := totals.meta + spend)
             case Some(Google) => totals.(google := totals.google + spend)
             case None => totals;
           if IsTotalSource(source) && !newCustomerAllocated then
             match CountsOf(p, f)
             case Failure(e) => Failure(e)
             case Success(c) =>
               Success((t.(newCustomerOrders := c.0, newCustomerSales := c.1, totalSales := c.2), true))
           else Success((t, newCustomerAllocated)))
    case _ => Failure(NoGet)
  }

  /** The totals and the flag after a sequence of metrics, or the first
      exception. */
  function Collapse(p: Parsers, metrics: seq<Value>): Result<(Totals, bool)>
  {
    if metrics == [] then Success((NoTotals, false))
    else
      match Collapse(p, metrics[..|metrics| - 1])
      case Failure(e) => Failure(e)
      case Success(st) => Step(p, st.0, st.1, metrics[|metrics| - 1])
  }

  /** A successful collapse of a non-empty sequence is a successful
      collapse of all but the last metric followed by a successful step. */
  lemma CollapseSnoc(p: Parsers, metrics: seq<Value>)
    requires metrics != [] && Collapse(p, metrics).Success?
    ensures var init := Collapse(p, metrics[..|metrics| - 1]);
      && init.Success?
      && Collapse(p, metrics) == Step(p, init.value.0, init.value.1, metrics[|metrics| - 1])
  {
  }

  /** What `_collapse_metrics` returns. */
  function CollapseTotals(p: Parsers, metrics: seq<Value>): Result<Totals>
  {
    match Collapse(p, metrics)
    case Failure(e) => Failure(e)
    case Success(st) => Success(st.0)
  }

  /** Once a prefix has raised, so has the whole sequence, with the same
      exception. */
  lemma {:induction false} CollapseFailureStays(p: Parsers, metrics: seq<Value>, k: nat)
    requires k <= |metrics| && Collapse(p, metrics[..k]).Failure?
    ensures Collapse(p, metrics) == Collapse(p, metrics[..k])
    decreases |metrics|
  {
    if k < |metrics| {
      var init := metrics[..|metrics| - 1];
      assert init[..k] == metrics[..k];
      CollapseFailureStays(p, init, k);
    } else {
      assert metrics[..k] == metrics;
    }
  }

  /** The body of the loop of `_collapse_metrics` for one metric. */
  method CollapseStep(p: Parsers, totals: Totals, newCustomerAllocated: bool, metric: Value)
    returns (r: Result<(Totals, bool)>)
    ensures r == Step(p, totals, newCustomerAllocated, metric)
  {
    if !metric.Dict? {
      return Failure(NoGet);
    }
    var source: string;
    match SourceOf(metric.fields) {
      case Failure(e) => return Failure(e);
      case Success(s) => source := s;
    }
    var spend: real;
    match SpendOf(p, metric.fields) {
      case Failure(e) => return Failure(e);
      case Success(x) => spend := x;
    }
    var t := totals;
    match ChannelOf(source) {
      case Some(Meta) => t := t.(meta := t.meta + spend);
      case Some(Google) => t := t.(google := t.google + spend);
      case None =>
    }
    var claimed := newCustomerAllocated;
    if IsTotalSource(source) && !claimed {
      match CountsOf(p, metric.fields) {
        case Failure(e) => return Failure(e);
        case Success(c) =>
          t := t.(newCustomerOrders := c.0, newCustomerSales := c.1, totalSales := c.2);
          claimed := true;
      }
    }
    r := Success((t, claimed));
  }

  /** `_collapse_metrics`: one pass over the metrics, adding spend by
      channel and taking the counts from the first total-type metric. */
  method CollapseMetrics(p: Parsers, metrics: seq<Value>) returns (r: Result<Totals>)
    ensures r == CollapseTotals(p, metrics)
  {
    var totals := NoTotals;
    var newCustomerAllocated := false;
    var i := 0;
    while i < |metrics|
      invariant 0 <= i <= |metrics|
      invariant Collapse(p, metrics[..i]) == Success((totals, newCustomerAllocated))
    {
      assert metrics[..i + 1][..i] == metrics[..i];
      var step := CollapseStep(p, totals, newCustomerAllocated, metrics[i]);
      if step.Failure? {
        CollapseFailureStays(p, metrics, i + 1);
        return Failure(step.error);
      }
      totals, newCustomerAllocated := step.value.0, step.value.1;
      i := i + 1;
    }
    assert metrics[..i] == metrics;
    r := Success(totals);
  }

  /** The spend one metric contributes to a channel: its spend when its
      source belongs to the channel, nothing otherwise. */
  function Contribution(p: Parsers, metric: Value, c: Channel): real
  {
    if metric.Dict? && SourceOf(metric.fields).Success?
      && ChannelOf(SourceOf(metric.fields).value) == Some(c)
      && SpendOf(p, metric.fields).Success?
    then SpendOf(p, metric.fields).value
    else 0.0
  }

  /** The total spend of a channel over a sequence of metrics. */
  function ChannelSpend(p: Parsers, metrics: seq<Value>, c: Channel): real
  {
    if metrics == [] then 0.0
    else ChannelSpend(p, metrics[..|metrics| - 1], c) + Contribution(p, metrics[|metrics| - 1], c)
  }

  /** A metric read without error whose source is a total-type one. */
  predicate IsTotalMetric(metric: Value)
  {
    metric.Dict? && SourceOf(metric.fields).Success? && IsTotalSource(SourceOf(metric.fields).value)
  }

  /** `i` is the first total-type metric. */
  predicate IsFirstTotal(metrics: seq<Value>, i: int)
  {
    0 <= i < |metrics| && IsTotalMetric(metrics[i])
    && forall j | 0 <= j < i :: !IsTotalMetric(metrics[j])
  }

  /** When the collapse succeeds every metric was a dict with a readable
      source and spend, and each spend total is the sum of the spends whose
      source belongs to that channel; other sources add nothing. */
  lemma CollapseSpend(p: Parsers, metrics: seq<Value>)
    requires Collapse(p, metrics).Success?
    ensures forall i | 0 <= i < |metrics| ::
      metrics[i].Dict? && SourceOf(metrics[i].fields).Success? && SpendOf(p, metrics[i].fields).Success?
    ensures Collapse(p, metrics).value.0.meta == ChannelSpend(p, metrics, Meta)
    ensures Collapse(p, metrics).value.0.google == ChannelSpend(p, metrics, Google)
  {
    CollapseReadable(p, metrics);
    CollapseChannels(p, metrics);
  }

  /** A metric whose source and spend can be read. */
  predicate Readable(p: Parsers, metric: Value)
  {
    metric.Dict? && SourceOf(metric.fields).Success? && SpendOf(p, metric.fields).Success?
  }

  /** A successful collapse read every metric's source and spend. */
  lemma {:induction false} CollapseReadable(p: Parsers, metrics: seq<Value>)
    requires Collapse(p, metrics).Success?
    ensures forall i | 0 <= i < |metrics| :: Readable(p, metrics[i])
  {
    if metrics != [] {
      var n := |metrics| - 1;
      var init := metrics[..n];
      CollapseSnoc(p, metrics);
      CollapseReadable(p, init);
      var st := Collapse(p, init).value;
      StepReadable(p, st.0, st.1, metrics[n]);
      assert forall i | 0 <= i < n :: init[i] == metrics[i];
    }
  }

  /** A successful step read the metric's source and spend. */
  lemma StepReadable(p: Parsers, t: Totals, a: bool, metric: Value)
    requires Step(p, t, a, metric).Success?
    ensures Readable(p, metric)
  {
  }

  /** Each spend total of a successful collapse is its channel's spend. */
  lemma {:induction false} CollapseChannels(p: Parsers, metrics: seq<Value>)
    requires Collapse(p, metrics).Success?
    ensures Collapse(p, metrics).value.0.meta == ChannelSpend(p, metrics, Meta)
    ensures Collapse(p, metrics).value.0.google == ChannelSpend(p, metrics, Google)
  {
    if metrics != [] {
      var init := metrics[..|metrics| - 1];
      CollapseSnoc(p, metrics);
      CollapseChannels(p, init);
      var st := Collapse(p, init).value;
      StepSpend(p, st.0, st.1, metrics[|metrics| - 1]);
    }
  }

  /** One step reads the metric's source and spend and adds the spend to
      its channel's total only. */
  lemma StepSpend(p: Parsers, t: Totals, a: bool, metric: Value)
    requires Step(p, t, a, metric).Success?
    ensures Readable(p, metric)
    ensures Step(p, t, a, metric).value.0.meta == t.meta + Contribution(p, metric, Meta)
    ensures Step(p, t, a, metric).value.0.google == t.google + Contribution(p, metric, Google)
  {
  }

  /** The metric decides whether the counts are set: a total-type metric
      met while the flag is down claims them, anything else leaves them. */
  lemma StepCounts(p: Parsers, t: Totals, a: bool, metric: Value)
    requires Step(p, t, a, metric).Success?
    ensures var (t', a') := Step(p, t, a, metric).value;
      && (a' <==> a || IsTotalMetric(metric))
      && (a || !IsTotalMetric(metric) ==>
            (t'.newCustomerOrders, t'.newCustomerSales, t'.totalSales)
            == (t.newCustomerOrders, t.newCustomerSales, t.totalSales))
      && (!a && IsTotalMetric(metric) ==>
            CountsOf(p, metric.fields) == Success((t'.newCustomerOrders, t'.newCustomerSales, t'.totalSales)))
  {
  }

  /** Some metric is of a total type. */
  predicate AnyTotal(metrics: seq<Value>)
  {
    exists i | 0 <= i < |metrics| :: IsTotalMetric(metrics[i])
  }

  lemma AnyTotalSnoc(metrics: seq<Value>)
    requires metrics != []
    ensures AnyTotal(metrics) <==>
      AnyTotal(metrics[..|metrics| - 1]) || IsTotalMetric(metrics[|metrics| - 1])
  {
    var n := |metrics| - 1;
    var init := metrics[..n];
    if AnyTotal(init) {
      var k :| 0 <= k < n && IsTotalMetric(init[k]);
      assert metrics[k] == init[k];
    }
    if AnyTotal(metrics) {
      var k :| 0 <= k < |metrics| && IsTotalMetric(metrics[k]);
      if k < n {
        assert metrics[k] == init[k];
      }
    }
  }

  /** The flag is up exactly when some metric is of a total type. */
  lemma {:induction false} CollapseFlag(p: Parsers, metrics: seq<Value>)
    requires Collapse(p, metrics).Success?
    ensures Collapse(p, metrics).value.1 <==> AnyTotal(metrics)
  {
    if metrics != [] {
      var n := |metrics| - 1;
      var init := metrics[..n];
      CollapseSnoc(p, metrics);
      CollapseFlag(p, init);
      var st := Collapse(p, init).value;
      StepCounts(p, st.0, st.1, metrics[n]);
      AnyTotalSnoc(metrics);
    }
  }

  /** Only the first total-type metric sets the new-customer orders and
      sales and the total sales; with none, they keep their zero defaults. */
  lemma CollapseFirstTotal(p: Parsers, metrics: seq<Value>)
    requires Collapse(p, metrics).Success?
    ensures var t := Collapse(p, metrics).value.0;
      && (forall i | IsFirstTotal(metrics, i) ::
            CountsOf(p, metrics[i].fields) == Success((t.newCustomerOrders, t.newCustomerSales, t.totalSales)))
      && ((forall i | 0 <= i < |metrics| :: !IsTotalMetric(metrics[i])) ==>
            t.newCustomerOrders == 0 && t.newCustomerSales == 0.0 && t.totalSales == 0.0)
  {
    forall i | IsFirstTotal(metrics, i)
      ensures CountsOf(p, metrics[i].fields) == Success(Counts(Collapse(p, metrics).value.0))
    {
      CollapseFirstTotalAt(p, metrics, i);
    }
    if forall i | 0 <= i < |metrics| :: !IsTotalMetric(metrics[i]) {
      CollapseNoTotal(p, metrics);
    }
  }

  /** The three counts of a set of totals. */
  function Counts(t: Totals): (int, real, real)
  {
    (t.newCustomerOrders, t.newCustomerSales, t.totalSales)
  }

  /** The counts come from the first total-type metric. */
  lemma {:induction false} CollapseFirstTotalAt(p: Parsers, metrics: seq<Value>, i: int)
    requires Collapse(p, metrics).Success? && IsFirstTotal(metrics, i)
    ensures CountsOf(p, metrics[i].fields) == Success(Counts(Collapse(p, metrics).value.0))
  {
    var n := |metrics| - 1;
    var init := metrics[..n];
    CollapseSnoc(p, metrics);
    var st := Collapse(p, init).value;
    StepCounts(p, st.0, st.1, metrics[n]);
    CollapseFlag(p, init);
    if i < n {
      assert IsFirstTotal(init, i) by {
        forall j | 0 <= j <= i ensures init[j] == metrics[j] { }
      }
      CollapseFirstTotalAt(p, init, i);
      assert AnyTotal(init) by { assert IsTotalMetric(init[i]); }
    } else {
      assert !AnyTotal(init) by {
        forall j | 0 <= j < n ensures !IsTotalMetric(init[j]) {
          assert init[j] == metrics[j];
        }
      }
    }
  }

  /** Without a total-type metric the counts stay zero. */
  lemma {:induction false} CollapseNoTotal(p: Parsers, metrics: seq<Value>)
    requires Collapse(p, metrics).Success?
    requires forall i | 0 <= i < |metrics| :: !IsTotalMetric(metrics[i])
    ensures Counts(Collapse(p, metrics).value.0) == (0, 0.0, 0.0)
  {
    if metrics != [] {
      var n := |metrics| - 1;
      var init := metrics[..n];
      CollapseSnoc(p, metrics);
      var st := Collapse(p, init).value;
      StepCounts(p, st.0, st.1, metrics[n]);
      assert forall j | 0 <= j < n :: init[j] == metrics[j];
      CollapseNoTotal(p, init);
    }
  }

  // ---------------------------------------------------------------------
  // normalise_marketing_performance
  // ---------------------------------------------------------------------

  /** `COUNTRY_TO_REGION.get(code)` for a string code: exact keys, so "UK"
      and lower-case codes are not recognised. */
  function CountryToRegion(code: string): (r: Option<string>)
    ensures r.Some? <==> code in {"US", "CA", "GB", "AU"}
    ensures r.Some? ==> r.value in Timezones.RegionTimezones
    ensures code == "GB" ==> r == Some("UK")
    ensures code != "GB" && r.Some? ==> r.value == code
  {
    match code
    case "US" => Some("US")
    case "CA" => Some("CA")
    case "GB" => Some("UK")
    case "AU" => Some("AU")
    case _ => None
  }

  /** `COUNTRY_TO_REGION.get(node.get("countryCode"))`: a list or dict is
      unhashable, any other non-string finds nothing. */
  function RegionOfCode(v: Value): Result<Option<string>>
  {
    match v
    case Str(s) => Success(CountryToRegion(s))
    case List(_) => Failure(UnhashableList)
    case Dict(_) => Failure(UnhashableDict)
    case _ => Success(None)
  }

  /** The keys of a node, of an edge and of the legacy response. */
  const CountryKey := "countryCode"
  const DatetimeKey := "datetime"
  const MetricsKey := "metrics"
  const NodeKey := "node"
  const PerformanceKey := "marketingPerformance"
  const EdgesKey := "edges"

  /** The UTC offset a trailing `Z` is replaced by before parsing. */
  const UtcOffset := "+00:00"

  /** `datetime.fromisoformat` of a string it cannot read. */
  const NotIsoformat := ValueError("Invalid isoformat string")

  /** The record emitted for a node: the region, the parsed timestamp as an
      aware UTC instant (a naive one read as UTC), the five totals and every
      other field at its default. */
  function Emit(region: string, ts: Timezones.Timestamp, t: Totals): Record
  {
    Models.NewHourly(region, Timezones.Aware(Timezones.AsUtc(ts))).(
      metaSpend := t.meta,
      googleSpend := t.google,
      newCustomerOrders := t.newCustomerOrders,
      newCustomerSales := t.newCustomerSales,
      totalSales := t.totalSales)
  }

  /** The body of the loop for one node: None when it is skipped. */
  function NormaliseNode(p: Parsers, node: Fields): (r: Result<Option<Record>>)
    ensures r.Success? && r.value.Some? ==>
      && GetOr(node, CountryKey, Null).Str?
      && CountryToRegion(GetOr(node, CountryKey, Null).s) == Some(r.value.value.region)
    ensures r.Success? && r.value.Some? ==>
      && r.value.value.region in Timezones.RegionTimezones
      && r.value.value.timestampUtc.Aware?
      && r.value.value.currency == "USD"
  {
    match RegionOfCode(GetOr(node, CountryKey, Null))
    case Failure(e) => Failure(e)
    case Success(None) => Success(None)
    case Success(Some(region)) =>
      var stamp := GetOr(node, DatetimeKey, Null);
      if !Truthy(stamp) then Success(None)
      else
        match stamp
        case Str(s) =>
          (match p.isoDatetime(Text.ReplaceChar(s, 'Z', UtcOffset))
           case None => Failure(NotIsoformat)
           case Some(ts) =>
             match Iterate(Or(GetOr(node, MetricsKey, Null), List([])))
             case Failure(e) => Failure(e)
             case Success(metrics) =>
               match CollapseTotals(p, metrics)
               case Failure(e) => Failure(e)
               case Success(t) => Success(Some(Emit(region, ts, t))))
        case _ => Failure(NoReplace)
  }

  /** `edge.get("node") or {}`, which must be a dict. */
  function NodeOf(edge: Value): Result<Fields>
  {
    match edge
    case Dict(f) =>
      (match Or(GetOr(f, NodeKey, Null), Dict([]))
       case Dict(node) => Success(node)
       case _ => Failure(NoGet))
    case _ => Failure(NoGet)
  }

  function NormaliseEdge(p: Parsers, edge: Value): Result<Option<Record>>
  {
    match NodeOf(edge)
    case Failure(e) => Failure(e)
    case Success(node) => NormaliseNode(p, node)
  }

  /** The outcome of one edge followed by the outcome of the rest: an
      exception at the edge comes first. */
  function Prepend(head: Result<Option<Record>>, rest: Result<seq<Record>>): Result<seq<Record>>
  {
    match head
    case Failure(e) => Failure(e)
    case Success(out) =>
      match rest
      case Failure(e) => Failure(e)
      case Success(xs) => Success((if out.Some? then [out.value] else []) + xs)
  }

  /** The outcome of one run of edges followed by that of another. */
  function Then(first: Result<seq<Record>>, second: Result<seq<Record>>): Result<seq<Record>>
  {
    match first
    case Failure(e) => Failure(e)
    case Success(xs) =>
      match second
      case Failure(e) => Failure(e)
      case Success(ys) => Success(xs + ys)
  }

  lemma PrependThen(head: Result<Option<Record>>, rest: Result<seq<Record>>, second: Result<seq<Record>>)
    ensures Then(Prepend(head, rest), second) == Prepend(head, Then(rest, second))
  {
    if head.Success? && rest.Success? && second.Success? {
      var h := if head.value.Some? then [head.value.value] else [];
      assert h + (rest.value + second.value) == (h + rest.value) + second.value;
    }
  }

  /** The records yielded for a sequence of edges, in edge order, or the
      first exception. */
  function NormaliseEdges(p: Parsers, edges: seq<Value>): (r: Result<seq<Record>>)
    ensures r.Success? ==> |r.value| <= |edges|
    ensures r.Success? ==> forall k | 0 <= k < |r.value| ::
      r.value[k].region in Timezones.RegionTimezones && r.value[k].timestampUtc.Aware?
  {
    if edges == [] then Success([])
    else Prepend(NormaliseEdge(p, edges[0]), NormaliseEdges(p, edges[1..]))
  }

  /** `data.get("marketingPerformance", {}).get("edges", [])` for truthy
      data, and no edges otherwise. */
  function EdgesOf(data: Value): Result<seq<Value>>
  {
    if !Truthy(data) then Success([])
    else
      match data
      case Dict(f) =>
        (match GetOr(f, PerformanceKey, Dict([]))
         case Dict(mp) => Iterate(GetOr(mp, EdgesKey, List([])))
         case _ => Failure(NoGet))
      case _ => Failure(NoGet)
  }

  /** `normalise_marketing_performance`, with the generator consumed to the
      end. */
  function NormaliseMarketingPerformance(p: Parsers, data: Value): (r: Result<seq<Record>>)
    ensures !Truthy(data) ==> r == Success([])
  {
    match EdgesOf(data)
    case Failure(e) => Failure(e)
    case Success(edges) => NormaliseEdges(p, edges)
  }

  /** The normalisation streams: the records of two runs of edges are the
      records of the first followed by those of the second, and an
      exception in the first run is the exception of the whole. */
  lemma {:induction false} NormaliseEdgesAppend(p: Parsers, a: seq<Value>, b: seq<Value>)
    ensures NormaliseEdges(p, a + b) == Then(NormaliseEdges(p, a), NormaliseEdges(p, b))
  {
    if a == [] {
      assert a + b == b;
      if NormaliseEdges(p, b).Success? {
        assert [] + NormaliseEdges(p, b).value == NormaliseEdges(p, b).value;
      }
    } else {
      assert (a + b)[0] == a[0] && (a + b)[1..] == a[1..] + b;
      NormaliseEdgesAppend(p, a[1..], b);
      PrependThen(NormaliseEdge(p, a[0]), NormaliseEdges(p, a[1..]), NormaliseEdges(p, b));
    }
  }

  /** A node is skipped exactly when its country code is not one of the
      four keys, or when it has one but no datetime. */
  lemma NodeSkipped(p: Parsers, node: Fields)
    ensures NormaliseNode(p, node) == Success(None) <==>
      RegionOfCode(GetOr(node, CountryKey, Null)) == Success(None)
      || (RegionOfCode(GetOr(node, CountryKey, Null)).Success?
          && !Truthy(GetOr(node, DatetimeKey, Null)))
  {
  }

  /** An emitted record carries the parsed instant in UTC, the region of its
      country code, the channel spends summed over the node's metrics and
      the counts of its first total-type metric (zero without one). */
  lemma EmittedRecord(p: Parsers, node: Fields, s: string, ts: Timezones.Timestamp, metrics: seq<Value>)
    requires GetOr(node, DatetimeKey, Null) == Str(s) && s != ""
    requires p.isoDatetime(Text.ReplaceChar(s, 'Z', UtcOffset)) == Some(ts)
    requires Iterate(Or(GetOr(node, MetricsKey, Null), List([]))) == Success(metrics)
    requires NormaliseNode(p, node).Success? && NormaliseNode(p, node).value.Some?
    ensures var m := NormaliseNode(p, node).value.value;
      && Collapse(p, metrics).Success?
      && m.timestampUtc == Timezones.Aware(Timezones.AsUtc(ts))
      && m.metaSpend == ChannelSpend(p, metrics, Meta)
      && m.googleSpend == ChannelSpend(p, metrics, Google)
      && (forall i | IsFirstTotal(metrics, i) ::
            CountsOf(p, metrics[i].fields) == Success((m.newCustomerOrders, m.newCustomerSales, m.totalSales)))
      && ((forall i | 0 <= i < |metrics| :: !IsTotalMetric(metrics[i])) ==>
            m.newCustomerOrders == 0 && m.newCustomerSales == 0.0 && m.totalSales == 0.0)
  {
    NodeEmits(p, node, s, ts, metrics);
    CollapseSpend(p, metrics);
    CollapseFirstTotal(p, metrics);
  }

  /** The record emitted for a node holds the totals of its metrics. */
  lemma NodeEmits(p: Parsers, node: Fields, s: string, ts: Timezones.Timestamp, metrics: seq<Value>)
    requires GetOr(node, DatetimeKey, Null) == Str(s) && s != ""
    requires p.isoDatetime(Text.ReplaceChar(s, 'Z', UtcOffset)) == Some(ts)
    requires Iterate(Or(GetOr(node, MetricsKey, Null), List([]))) == Success(metrics)
    requires NormaliseNode(p, node).Success? && NormaliseNode(p, node).value.Some?
    ensures Collapse(p, metrics).Success?
    ensures var m := NormaliseNode(p, node).value.value;
      var t := Collapse(p, metrics).value.0;
      && m.timestampUtc == Timezones.Aware(Timezones.AsUtc(ts))
      && m.metaSpend == t.meta && m.googleSpend == t.google
      && m.newCustomerOrders == t.newCustomerOrders
      && m.newCustomerSales == t.newCustomerSales && m.totalSales == t.totalSales
  {
  }

  /** A trailing `Z` is read as the UTC offset `+00:00`. */
  lemma {:induction false} TrailingZuluIsUtc(s: string)
    requires 'Z' !in s
    ensures Text.ReplaceChar(s + "Z", 'Z', UtcOffset) == s + UtcOffset
  {
    if s == [] {
    } else {
      assert (s + "Z")[1..] == s[1..] + "Z";
      assert s[0] in s;
      TrailingZuluIsUtc(s[1..]);
      assert s == [s[0]] + s[1..];
    }
  }
}
