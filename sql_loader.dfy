/** The hourly fusion of order rows and ad-spend rows into one record per
    (region, UTC hour) (sql_loader.py). The rows arrive from the SQL engine as
    typed records; how they were queried is outside the model. */
module SqlLoader {
  import opened Wrappers
  import Text
  import Json
  import Keys
  import Timezones
  import Models

  /** `COUNTRY_TO_REGION`. */
  const CountryToRegion: map<string, string> :=
    map["US" := "US", "CA" := "CA", "GB" := "UK", "UK" := "UK", "AU" := "AU"]

  /** `REGION_TOKEN_SETS`, and the priority in which they are tried. */
  const RegionTokenSets: map<string, set<string>> := map[
    "AU" := {"AU", "AUS", "AUSTRALIA"},
    "UK" := {"UK", "GB", "UNITEDKINGDOM"},
    "CA" := {"CA", "CAN", "CANADA"},
    "US" := {"US", "USA", "UNITEDSTATES"}]

  const RegionPriority: seq<string> := ["AU", "UK", "CA", "US"]

  const SupportedChannels: set<string> := {"facebook-ads", "google-ads"}

  /** `_region_from_country`: None, empty and unlisted codes give None. */
  function RegionFromCountry(code: Option<string>): (r: Option<string>)
    ensures r.Some? ==> r.value in Timezones.RegionTimezones
  {
    if code.None? || code.value == "" then None
    else if Text.Upper(code.value) in CountryToRegion then Some(CountryToRegion[Text.Upper(code.value)])
    else None
  }

  /** The lookup ignores the case the code is written in. */
  lemma CountryLookupIgnoresCase(code: string)
    ensures RegionFromCountry(Some(Text.Lower(code))) == RegionFromCountry(Some(code))
  {
    Text.UpperOfLower(code);
  }

  lemma CountryExamples()
    ensures RegionFromCountry(Some("GB")) == Some("UK")
    ensures RegionFromCountry(Some("UK")) == Some("UK")
    ensures RegionFromCountry(Some("au")) == Some("AU")
    ensures RegionFromCountry(Some("LV")) == None
    ensures RegionFromCountry(Some("")) == None && RegionFromCountry(None) == None
  {
    assert Text.Upper("au") == "AU";
    assert Text.Upper("GB") == "GB" && Text.Upper("UK") == "UK";
    assert Text.Upper("LV") == "LV";
  }

  /** The upper-cased character, or a space if it is not alphanumeric. */
  function NormalizeChar(c: char): char
  {
    var u := Text.UpperChar(c);
    if Text.IsAlnum(u) then u else ' '
  }

  function Normalize(s: string): (r: string)
    ensures |r| == |s|
    ensures forall i :: 0 <= i < |s| ==> r[i] == NormalizeChar(s[i])
  {
    if s == [] then [] else [NormalizeChar(s[0])] + Normalize(s[1..])
  }

  lemma NormalizeJoin(a: string, b: string)
    ensures Normalize(a + " " + b) == Normalize(a) + " " + Normalize(b)
  {
    var l := Normalize(a + " " + b);
    var r := Normalize(a) + " " + Normalize(b);
    assert |l| == |r|;
    forall i | 0 <= i < |l| ensures l[i] == r[i] {
      if i < |a| {
      } else if i == |a| {
      } else {
        assert (a + " " + b)[i] == b[i - |a| - 1];
      }
    }
  }

  /** The parts that are present and non-empty. */
  function PresentParts(parts: seq<Option<string>>): (r: seq<string>)
    ensures forall p :: p in r ==> p != "" && Some(p) in parts
  {
    if parts == [] then []
    else
      var rest := PresentParts(parts[..|parts| - 1]);
      var last := parts[|parts| - 1];
      assert forall p :: Some(p) in parts[..|parts| - 1] ==> Some(p) in parts;
      if last.Some? && last.value != "" then rest + [last.value] else rest
  }

  /** `_tokenize_ad_text`: the upper-cased alphanumeric runs of the present
      parts joined with spaces. */
  function Tokenize(parts: seq<Option<string>>): (tokens: set<string>)
    ensures forall t :: t in tokens ==> t != "" && forall c :: c in t ==> Text.IsAlnum(c) && !Text.IsLowerLetter(c)
  {
    var normalized := Normalize(Text.Join(" ", PresentParts(parts)));
    set w | w in Text.Words(normalized)
  }

  /** Tokenizing is part by part: one more part adds exactly its own tokens. */
  lemma TokenizeAppend(parts: seq<Option<string>>, p: Option<string>)
    ensures Tokenize(parts + [p]) == Tokenize(parts) + Tokenize([p])
  {
    var ps := parts + [p];
    assert ps[..|ps| - 1] == parts;
    var xs := PresentParts(parts);
    assert PresentParts([p]) == if p.Some? && p.value != "" then [p.value] else [] by {
      assert [p][..0] == [];
    }
    if p.Some? && p.value != "" {
      Text.JoinAppend(" ", xs, p.value);
      if xs != [] {
        NormalizeJoin(Text.Join(" ", xs), p.value);
        Text.WordsOfJoin(Normalize(Text.Join(" ", xs)), Normalize(p.value));
      }
    }
  }

  lemma NormalizeConcat(a: string, b: string)
    ensures Normalize(a + b) == Normalize(a) + Normalize(b)
  {
    var l := Normalize(a + b);
    var r := Normalize(a) + Normalize(b);
    assert |l| == |r|;
    forall i | 0 <= i < |l| ensures l[i] == r[i] {
      if i >= |a| { assert (a + b)[i] == b[i - |a|]; }
    }
  }

  /** An alphanumeric word delimited by non-alphanumeric characters (or the
      ends of the text) is a token, upper-cased. */
  lemma TokenOfDelimitedWord(a: string, w: string, b: string)
    requires w != [] && forall c :: c in w ==> Text.IsAlnum(c)
    requires a == [] || !Text.IsAlnum(Text.UpperChar(a[|a| - 1]))
    requires b == [] || !Text.IsAlnum(Text.UpperChar(b[0]))
    ensures Text.Upper(w) in Tokenize([Some(a + w + b)])
  {
    var s := a + w + b;
    assert PresentParts([Some(s)]) == [s] by {
      assert [Some(s)][..0] == [];
    }
    assert Text.Join(" ", [s]) == s;
    var W := Normalize(w);
    assert W == Text.Upper(w) && ' ' !in W by {
      forall i | 0 <= i < |w| ensures W[i] == Text.UpperChar(w[i]) && W[i] != ' ' {
        assert w[i] in w;
      }
    }
    var N := Normalize(s);
    assert N == Normalize(a) + W + Normalize(b) by {
      NormalizeConcat(a + w, b);
      NormalizeConcat(a, w);
    }
    Text.WordBetweenSpaces(Normalize(a), W, Normalize(b));
    assert Tokenize([Some(s)]) == set t | t in Text.Words(N);
  }

  /** The first region in priority order whose token set meets the tokens. */
  function MatchRegion(tokens: set<string>, priority: seq<string>): (r: Option<string>)
    requires forall x :: x in priority ==> x in RegionTokenSets
    ensures r.Some? ==> r.value in priority && tokens * RegionTokenSets[r.value] != {}
    ensures r.None? <==> forall x :: x in priority ==> tokens * RegionTokenSets[x] == {}
  {
    if priority == [] then None
    else if tokens * RegionTokenSets[priority[0]] != {} then Some(priority[0])
    else MatchRegion(tokens, priority[1..])
  }

  /** An ad row as far as region resolution reads it; `accountId` is None
      when the account id is not a string. */
  function RegionFromAdRow(accountId: Option<string>, names: seq<Option<string>>,
                           accountMap: map<string, string>): (r: string)
    ensures r != ""
    ensures accountId.Some? && accountId.value in accountMap && accountMap[accountId.value] != ""
      ==> r == accountMap[accountId.value]
  {
    if accountId.Some? && accountId.value in accountMap && accountMap[accountId.value] != "" then
      accountMap[accountId.value]
    else
      match MatchRegion(Tokenize(names), RegionPriority)
      case Some(region) => region
      case None => "US"
  }

  /** Without an account mapping the region is the first of AU, UK, CA, US
      whose tokens occur, and US when none does; it is never missing. */
  lemma AdRegionByTokens(accountId: Option<string>, names: seq<Option<string>>, accountMap: map<string, string>)
    requires !(accountId.Some? && accountId.value in accountMap && accountMap[accountId.value] != "")
    ensures var r := RegionFromAdRow(accountId, names, accountMap);
      && r in RegionPriority
      && (Tokenize(names) * RegionTokenSets[r] != {} || r == "US")
      && forall i, j | 0 <= j < i < |RegionPriority| && RegionPriority[i] == r ::
           Tokenize(names) * RegionTokenSets[RegionPriority[j]] == {}
  {
    var tokens := Tokenize(names);
    var r := RegionFromAdRow(accountId, names, accountMap);
    assert RegionPriority[1..] == ["UK", "CA", "US"];
    assert RegionPriority[1..][1..] == ["CA", "US"];
    assert RegionPriority[1..][1..][1..] == ["US"];
    if tokens * RegionTokenSets["AU"] != {} {
      assert r == "AU";
    } else {
      assert MatchRegion(tokens, RegionPriority) == MatchRegion(tokens, ["UK", "CA", "US"]);
      if tokens * RegionTokenSets["UK"] != {} {
        assert r == "UK";
      } else {
        assert MatchRegion(tokens, ["UK", "CA", "US"]) == MatchRegion(tokens, ["CA", "US"]);
        if tokens * RegionTokenSets["CA"] != {} {
          assert r == "CA";
        } else {
          assert MatchRegion(tokens, ["CA", "US"]) == MatchRegion(tokens, ["US"]);
          assert r == "US";
        }
      }
    }
  }

  /** Tokens are split on every non-alphanumeric character. */
  lemma TokenizerExample()
    ensures "CA" in Tokenize([Some("02_Prospecting_MM_JSD_SCALE-CA-CBO_Tag-Hero")])
    ensures "SCALE" in Tokenize([Some("02_Prospecting_MM_JSD_SCALE-CA-CBO_Tag-Hero")])
  {
    TokenizerExampleCa();
    TokenizerExampleScale();
  }

  lemma TokenizerExampleScale()
    ensures "SCALE" in Tokenize([Some("02_Prospecting_MM_JSD_SCALE-CA-CBO_Tag-Hero")])
  {
    assert "02_Prospecting_MM_JSD_" + "SCALE" + "-CA-CBO_Tag-Hero" == "02_Prospecting_MM_JSD_SCALE-CA-CBO_Tag-Hero";
    assert forall c :: c in "SCALE" ==> Text.IsAlnum(c);
    TokenOfDelimitedWord("02_Prospecting_MM_JSD_", "SCALE", "-CA-CBO_Tag-Hero");
    Text.UpperIdentity("SCALE");
  }

  lemma TokenizerExampleCa()
    ensures "CA" in Tokenize([Some("02_Prospecting_MM_JSD_SCALE-CA-CBO_Tag-Hero")])
  {
    assert "02_Prospecting_MM_JSD_SCALE-" + "CA" + "-CBO_Tag-Hero" == "02_Prospecting_MM_JSD_SCALE-CA-CBO_Tag-Hero";
    TokenOfDelimitedWord("02_Prospecting_MM_JSD_SCALE-", "CA", "-CBO_Tag-Hero");
    Text.UpperIdentity("CA");
  }

  /** A mapped account wins over the names; without one, an AU token in the
      campaign name gives AU. */
  lemma AdRegionExamples()
    ensures RegionFromAdRow(Some("act_123"), [Some("Generic Campaign"), Some("Generic Adset"), None],
                            map["act_123" := "UK"]) == "UK"
    ensures RegionFromAdRow(Some("act_999"),
                            [Some("02_Prospecting_MM_JSD_SCALE-AU-CBO_Tag-Hero"),
                             Some("AU-TopAds_interest-layered-stack_M35+_7DC1DV"), None],
                            map[]) == "AU"
  {
    AdRegionTokenExample();
  }

  lemma AdRegionTokenExample()
    ensures RegionFromAdRow(Some("act_999"),
                            [Some("02_Prospecting_MM_JSD_SCALE-AU-CBO_Tag-Hero"),
                             Some("AU-TopAds_interest-layered-stack_M35+_7DC1DV"), None],
                            map[]) == "AU"
  {
    var c := "02_Prospecting_MM_JSD_SCALE-AU-CBO_Tag-Hero";
    var a := "AU-TopAds_interest-layered-stack_M35+_7DC1DV";
    var tokens := Tokenize([Some(c), Some(a), None]);
    AuTokenExample(c, a);
    assert "AU" in tokens * RegionTokenSets["AU"];
  }

  lemma AuTokenExample(c: string, a: string)
    requires c == "02_Prospecting_MM_JSD_SCALE-AU-CBO_Tag-Hero"
    ensures "AU" in Tokenize([Some(c), Some(a), None])
  {
    assert "02_Prospecting_MM_JSD_SCALE-" + "AU" + "-CBO_Tag-Hero" == c;
    TokenOfDelimitedWord("02_Prospecting_MM_JSD_SCALE-", "AU", "-CBO_Tag-Hero");
    Text.UpperIdentity("AU");
    TokensOfFirst(c, a);
  }

  /** The tokens of the first name are among those of all three. */
  lemma TokensOfFirst(c: string, a: string)
    ensures forall t | t in Tokenize([Some(c)]) :: t in Tokenize([Some(c), Some(a), None])
  {
    TokenizeAppend([Some(c)], Some(a));
    assert [Some(c)] + [Some(a)] == [Some(c), Some(a)];
    TokenizeAppend([Some(c), Some(a)], None);
    assert [Some(c), Some(a)] + [None] == [Some(c), Some(a), None];
  }

  /** `_hour_to_utc`: a naive hour is read as wall time in the store zone, an
      aware one is kept as the instant it denotes; a value that is neither a
      datetime nor ISO text is a `ValueError`. The hour is not truncated. */
  function HourToUtc(db: Timezones.TzDatabase, zone: string, hour: Option<Timezones.Timestamp>): (r: Result<int>)
    ensures r.Failure? <==> hour.None?
    ensures hour.Some? && hour.value.Aware? ==> r == Success(hour.value.instant)
  {
    match hour
    case None => Failure(ValueError("Invalid isoformat string"))
    case Some(Aware(t)) => Success(t)
    case Some(Naive(w)) => Success(w - db.wallOffset(zone, w))
  }

  /** Where the zone's offset for that wall reading is the offset in force at
      the resulting instant (everywhere outside a DST gap), the UTC hour reads
      back as the naive wall time in the store zone. */
  lemma NaiveHourRoundTrip(db: Timezones.TzDatabase, zone: string, w: int)
    requires db.offsetAt(zone, w - db.wallOffset(zone, w)) == db.wallOffset(zone, w)
    ensures HourToUtc(db, zone, Some(Timezones.Naive(w))).Success?
    ensures Timezones.InZone(db, HourToUtc(db, zone, Some(Timezones.Naive(w))).value, zone).Wall() == w
  {
  }

  /** 2025-10-14 23:00 naive in Chicago is 04:00 or 05:00 UTC, whichever of
      CDT or CST the database applies. */
  lemma ChicagoHourExample(db: Timezones.TzDatabase)
    requires db.wallOffset(Timezones.Chicago, 20375 * 86400 + 23 * 3600) in {-18000, -21600}
    ensures var r := HourToUtc(db, Timezones.Chicago, Some(Timezones.Naive(20375 * 86400 + 23 * 3600)));
      r.Success? && (r.value % 86400) / 3600 in {4, 5}
  {
  }

  // ---------------------------------------------------------------------
  // The fetch window

  /** The zones of `REGION_TIMEZONES.values()`, in table order. */
  const RegionZones: seq<string> :=
    [Timezones.Chicago, Timezones.Regina, Timezones.London, Timezones.Sydney]

  lemma RegionZonesAreTheTable()
    ensures forall z :: z in RegionZones <==> z in Timezones.RegionTimezones.Values
  {
    assert Timezones.RegionTimezones["US"] == Timezones.Chicago;
    assert Timezones.RegionTimezones["CA"] == Timezones.Regina;
    assert Timezones.RegionTimezones["UK"] == Timezones.London;
    assert Timezones.RegionTimezones["AU"] == Timezones.Sydney;
  }

  /** UTC instant of local midnight starting the zone's day that contains
      `instant`. */
  function DayStartUtc(db: Timezones.TzDatabase, zone: string, instant: int): int
  {
    var wall := Timezones.InZone(db, instant, zone).Date() * Timezones.SecondsPerDay;
    wall - db.wallOffset(zone, wall)
  }

  /** UTC instant of 23:59:59 local on that same day. */
  function DayEndUtc(db: Timezones.TzDatabase, zone: string, instant: int): int
  {
    var wall := Timezones.InZone(db, instant, zone).Date() * Timezones.SecondsPerDay + Timezones.SecondsPerDay - 1;
    wall - db.wallOffset(zone, wall)
  }

  /** The window after widening it for the first zones of `zones`. */
  function WindowOver(db: Timezones.TzDatabase, start: int, end: int, zones: seq<string>): (w: (int, int))
    ensures w.0 <= start && end <= w.1
    ensures forall z :: z in zones ==> w.0 <= DayStartUtc(db, z, start) && DayEndUtc(db, z, start) <= w.1
    ensures w.0 == start || exists z :: z in zones && w.0 == DayStartUtc(db, z, start)
    ensures w.1 == end || exists z :: z in zones && w.1 == DayEndUtc(db, z, start)
  {
    if zones == [] then (start, end)
    else
      var prev := WindowOver(db, start, end, zones[..|zones| - 1]);
      var z := zones[|zones| - 1];
      assert forall y :: y in zones <==> y in zones[..|zones| - 1] || y == z by {
        assert zones == zones[..|zones| - 1] + [z];
      }
      (Min(prev.0, DayStartUtc(db, z, start)), Max(prev.1, DayEndUtc(db, z, start)))
  }

  function Min(a: int, b: int): int { if a <= b then a else b }
  function Max(a: int, b: int): int { if a >= b then a else b }

  /** `_expand_fetch_window` for an aware start and end given as instants:
      the smallest window that contains [start, end] and, for every region,
      the region's whole local day containing the start. */
  method ExpandFetchWindow(db: Timezones.TzDatabase, start: int, end: int) returns (fetchStart: int, fetchEnd: int)
    ensures (fetchStart, fetchEnd) == WindowOver(db, start, end, RegionZones)
  {
    fetchStart, fetchEnd := WidenOver(db, start, end, RegionZones);
  }

  /** The loop of `_expand_fetch_window` over the zones `zones`: each
      widens the window to its local day containing the start. */
  method WidenOver(db: Timezones.TzDatabase, start: int, end: int, zones: seq<string>) returns (fetchStart: int, fetchEnd: int)
    ensures (fetchStart, fetchEnd) == WindowOver(db, start, end, zones)
  {
    fetchStart, fetchEnd := start, end;
    var i := 0;
    while i < |zones|
      invariant 0 <= i <= |zones|
      invariant (fetchStart, fetchEnd) == WindowOver(db, start, end, zones[..i])
    {
      var zone := zones[i];
      fetchStart := Min(fetchStart, DayStartUtc(db, zone, start));
      fetchEnd := Max(fetchEnd, DayEndUtc(db, zone, start));
      assert zones[..i + 1][..i] == zones[..i];
      i := i + 1;
    }
    assert zones[..i] == zones;
  }

  /** The widened end only reaches the end of each region's day containing
      the start: over a longer range the local day containing the end can be
      cut short. From 1970-01-01T00:00Z to 1970-01-11T12:00Z the window ends
      at 12:00 UTC, while Canada's day containing the end runs to 06:00 UTC
      the next morning. */
  lemma EndDayNotCovered(db: Timezones.TzDatabase)
    requires Timezones.Valid(db)
    ensures WindowOver(db, 0, 10 * 86400 + 43200, RegionZones).1 == 10 * 86400 + 43200
    ensures DayEndUtc(db, Timezones.Regina, 10 * 86400 + 43200) == 11 * 86400 + 21600 - 1
  {
    var end := 10 * 86400 + 43200;
    assert end % 86400 == 43200 && end / 86400 == 10;
    FirstDaysEndEarly(db, end);
    WindowEndKept(db, 0, end, RegionZones);
    ReginaDayEnd(db, end);
  }

  /** When every zone's day containing the start ends by `end`, widening
      leaves the end where it was. */
  lemma {:induction false} WindowEndKept(db: Timezones.TzDatabase, start: int, end: int, zones: seq<string>)
    requires forall z | z in zones :: DayEndUtc(db, z, start) <= end
    ensures WindowOver(db, start, end, zones).1 == end
  {
    if zones != [] {
      var init := zones[..|zones| - 1];
      assert forall z | z in init :: z in zones;
      WindowEndKept(db, start, end, init);
      assert zones[|zones| - 1] in zones;
    }
  }

  /** Every region's day containing the epoch ends before `end`. */
  lemma FirstDaysEndEarly(db: Timezones.TzDatabase, end: int)
    requires Timezones.Valid(db) && end >= 2 * 86400
    ensures forall z | z in RegionZones :: DayEndUtc(db, z, 0) < end
  {
    forall z | z in RegionZones ensures DayEndUtc(db, z, 0) < end {
      assert Timezones.InZone(db, 0, z).Date() <= 0;
    }
  }

  /** Regina's day containing `t` ends at 05:59:59 UTC of the next day. */
  lemma ReginaDayEnd(db: Timezones.TzDatabase, t: int)
    requires Timezones.Valid(db) && t % 86400 >= 21600
    ensures DayEndUtc(db, Timezones.Regina, t) == (t / 86400 + 1) * 86400 + 21600 - 1
  {
    assert Timezones.InZone(db, t, Timezones.Regina).Date() == t / 86400;
  }

  // ---------------------------------------------------------------------
  // Rows and buckets

  /** An order row: `order_hour` (None when it is neither a datetime nor
      ISO text), `shipping_country_code`, `currency` and the numeric columns,
      where a missing or NULL column is absent from `amounts`. */
  datatype OrderRow = OrderRow(
    orderHour: Option<Timezones.Timestamp>,
    shippingCountryCode: Option<string>,
    currency: Option<string>,
    amounts: map<Models.Amount, real>)

  /** An ad-spend row; `accountId` is None unless the account id is a string. */
  datatype AdRow = AdRow(
    spendHour: Option<Timezones.Timestamp>,
    channel: Option<string>,
    accountId: Option<string>,
    campaignName: Option<string>,
    adsetName: Option<string>,
    adName: Option<string>,
    currency: Option<string>,
    spend: real,
    amounts: map<Models.Amount, real>,
    shares: map<Models.Share, real>,
    pacing: map<Models.Pacing, Json.Value>)

  /** A numeric column, 0.0 when missing or NULL. */
  function Field(m: map<Models.Amount, real>, a: Models.Amount): real
  {
    if a in m then m[a] else 0.0
  }

  /** The amounts an order row adds to. */
  predicate IsOrderAmount(a: Models.Amount)
  {
    match a
    case TotalSales | NewCustomerSales | NewCustomerOrders | TotalOrders | GrossSales
      | GrossProductSales | RefundMoney | DiscountAmount | CostOfGoods | ShippingCosts
      | EstimatedShippingCosts | HandlingFees | PaymentGatewayCosts => true
    case _ => false
  }

  /** The amounts an ad row adds to besides its spend: its own columns and
      the search-impression counts. */
  predicate IsAdColumn(a: Models.Amount)
  {
    match a
    case NonTrackedSpend | Impressions | Clicks | OnsitePurchases | OnsiteConversionValue
      | MetaPurchases => true
    case _ => a in Models.SearchImpressionsFields
  }

  /** A bucket of `fetch_hourly_metrics`: running sums, the weighted share
      numerators, the AI-pacing texts and the currency. */
  datatype Bucket = Bucket(
    sums: map<Models.Amount, real>,
    weighted: map<Models.Share, real>,
    pacing: map<Models.Pacing, string>,
    currency: string)
  {
    function Sum(a: Models.Amount): real { if a in sums then sums[a] else 0.0 }
    function Weighted(s: Models.Share): real { if s in weighted then weighted[s] else 0.0 }
    function PacingText(p: Models.Pacing): string { if p in pacing then pacing[p] else "" }
  }

  /** `_make_bucket`: every amount and weighted share at 0.0, every pacing
      text empty, currency USD. A field missing from a map reads as its
      default, so the fresh bucket needs no entries. */
  function MakeBucket(): (b: Bucket)
    ensures forall a: Models.Amount :: b.Sum(a) == 0.0
    ensures forall s: Models.Share :: b.Weighted(s) == 0.0
    ensures forall p: Models.Pacing :: b.PacingText(p) == ""
    ensures b.currency == "USD"
  {
    Bucket(map[], map[], map[], "USD")
  }

  /** What an order row adds to amount `a`. */
  function OrderValue(row: OrderRow, a: Models.Amount): real
  {
    if IsOrderAmount(a) then Field(row.amounts, a) else 0.0
  }

  /** The lower-cased channel, "" when missing. */
  function Channel(row: AdRow): string
  {
    Text.Lower(if row.channel.Some? then row.channel.value else "")
  }

  /** What an ad row adds to amount `a`: its spend to the amount of its own
      channel, its other columns to their amounts. */
  function AdValue(row: AdRow, a: Models.Amount): real
  {
    if a == Models.MetaSpend then (if Channel(row) == "facebook-ads" then row.spend else 0.0)
    else if a == Models.GoogleSpend then (if Channel(row) == "google-ads" then row.spend else 0.0)
    else if IsAdColumn(a) then Field(row.amounts, a)
    else 0.0
  }

  /** facebook-ads spend goes only to meta_spend, google-ads spend only to
      google_spend. */
  lemma SpendGoesToItsChannel(row: AdRow)
    ensures Channel(row) == "facebook-ads" ==>
      AdValue(row, Models.MetaSpend) == row.spend && AdValue(row, Models.GoogleSpend) == 0.0
    ensures Channel(row) == "google-ads" ==>
      AdValue(row, Models.GoogleSpend) == row.spend && AdValue(row, Models.MetaSpend) == 0.0
  {
  }

  function ShareValue(row: AdRow, s: Models.Share): real
  {
    if s in row.shares then row.shares[s] else 0.0
  }

  /** The text an ad row offers for a pacing field: a truthy string as is,
      another truthy value JSON-encoded, nothing for a falsy value. */
  function Encoded(codec: Json.Codec, row: AdRow, p: Models.Pacing): string
  {
    if p in row.pacing && Json.Truthy(row.pacing[p]) then
      (if row.pacing[p].Str? then row.pacing[p].s else codec.dumps(row.pacing[p]))
    else ""
  }

  /** The order-row update of one bucket: amounts added, and a non-empty
      row currency replaces the bucket's. */
  function AddOrder(b: Bucket, row: OrderRow): (r: Bucket)
    ensures forall a: Models.Amount :: r.Sum(a) == b.Sum(a) + OrderValue(row, a)
    ensures r.weighted == b.weighted && r.pacing == b.pacing
    ensures r.currency == if row.currency.Some? && row.currency.value != "" then row.currency.value else b.currency
  {
    var sums := map a | a in b.sums.Keys + row.amounts.Keys :: b.Sum(a) + OrderValue(row, a);
    var currency := if row.currency.Some? && row.currency.value != "" then row.currency.value else b.currency;
    b.(sums := sums, currency := currency)
  }

  /** The ad-row update of one bucket: amounts added, share numerators
      weighted by the row's impressions, empty pacing texts filled, and the
      row currency taken only when the bucket has none. */
  function AddAd(codec: Json.Codec, b: Bucket, row: AdRow): (r: Bucket)
    ensures forall a: Models.Amount :: r.Sum(a) == b.Sum(a) + AdValue(row, a)
    ensures forall s: Models.Share ::
      r.Weighted(s) == b.Weighted(s) + ShareValue(row, s) * Field(row.amounts, Models.Impressions)
    ensures forall p: Models.Pacing ::
      r.PacingText(p) == if b.PacingText(p) == "" then Encoded(codec, row, p) else b.PacingText(p)
    ensures b.currency != "" ==> r.currency == b.currency
  {
    Bucket(AdSums(b, row), AdWeighted(b, row), AdPacing(codec, b, row), AdCurrency(b, row))
  }

  function AdCurrency(b: Bucket, row: AdRow): (c: string)
    ensures b.currency != "" ==> c == b.currency
  {
    if b.currency == "" && row.currency.Some? && row.currency.value != "" then row.currency.value
    else b.currency
  }

  function AdSums(b: Bucket, row: AdRow): (r: map<Models.Amount, real>)
    ensures forall a: Models.Amount :: (if a in r then r[a] else 0.0) == b.Sum(a) + AdValue(row, a)
  {
    map a | a in b.sums.Keys + row.amounts.Keys + {Models.MetaSpend, Models.GoogleSpend} :: b.Sum(a) + AdValue(row, a)
  }

  function AdWeighted(b: Bucket, row: AdRow): (r: map<Models.Share, real>)
    ensures forall s: Models.Share ::
      (if s in r then r[s] else 0.0) == b.Weighted(s) + ShareValue(row, s) * Field(row.amounts, Models.Impressions)
  {
    var impressions := Field(row.amounts, Models.Impressions);
    map s | s in b.weighted.Keys + row.shares.Keys :: b.Weighted(s) + ShareValue(row, s) * impressions
  }

  function AdPacing(codec: Json.Codec, b: Bucket, row: AdRow): (r: map<Models.Pacing, string>)
    ensures forall p: Models.Pacing ::
      (if p in r then r[p] else "") == (if b.PacingText(p) == "" then Encoded(codec, row, p) else b.PacingText(p))
  {
    map p | p in b.pacing.Keys + row.pacing.Keys ::
      if b.PacingText(p) == "" then Encoded(codec, row, p) else b.PacingText(p)
  }

  // ---------------------------------------------------------------------
  // Grouping rows into buckets

  /** Where a row goes: nowhere, into the bucket of a key, or it raises. */
  datatype Route = Skip | Into(key: Keys.Key) | Fail(error: Error)

  /** The `defaultdict` of buckets, with its keys in insertion order. */
  datatype Buckets = Buckets(table: map<Keys.Key, Bucket>, order: seq<Keys.Key>)
  {
    ghost predicate Valid()
    {
      forall k :: k in table <==> k in order
    }

    /** `buckets[k]`, a fresh bucket when `k` is new. */
    function Get(k: Keys.Key): Bucket
    {
      if k in table then table[k] else MakeBucket()
    }

    function Put(k: Keys.Key, b: Bucket): (r: Buckets)
      ensures Valid() ==> r.Valid()
    {
      Buckets(table[k := b], if k in table then order else order + [k])
    }
  }

  function EmptyBuckets(): (r: Buckets)
    ensures r.Valid()
  {
    Buckets(map[], [])
  }

  /** One iteration of a row loop. */
  function Step<R>(route: R -> Route, update: (Bucket, R) -> Bucket, bs: Buckets, row: R): Result<Buckets>
  {
    match route(row)
    case Skip => Success(bs)
    case Fail(e) => Failure(e)
    case Into(k) => Success(bs.Put(k, update(bs.Get(k), row)))
  }

  /** A row loop of `fetch_hourly_metrics` run over `rows` from `bs`. */
  function Fold<R>(route: R -> Route, update: (Bucket, R) -> Bucket, bs: Buckets, rows: seq<R>): Result<Buckets>
    decreases |rows|
  {
    if rows == [] then Success(bs)
    else
      match Step(route, update, bs, rows[0])
      case Failure(e) => Failure(e)
      case Success(next) => Fold(route, update, next, rows[1..])
  }

  /** The rows that go into the bucket of `k`, in order. */
  function RowsInto<R>(route: R -> Route, rows: seq<R>, k: Keys.Key): (r: seq<R>)
    ensures forall x :: x in r ==> x in rows && route(x) == Into(k)
  {
    if rows == [] then []
    else (if route(rows[0]) == Into(k) then [rows[0]] else []) + RowsInto(route, rows[1..], k)
  }

  /** Updating one bucket with each of `rows` in turn. */
  function Apply<R>(update: (Bucket, R) -> Bucket, b: Bucket, rows: seq<R>): Bucket
    decreases |rows|
  {
    if rows == [] then b else Apply(update, update(b, rows[0]), rows[1..])
  }

  /** The error of the first row that raises, if any. */
  function FirstFailure<R>(route: R -> Route, rows: seq<R>): (r: Option<Error>)
    ensures r.None? <==> forall i | 0 <= i < |rows| :: !route(rows[i]).Fail?
  {
    if rows == [] then None
    else if route(rows[0]).Fail? then Some(route(rows[0]).error)
    else
      var r := FirstFailure(route, rows[1..]);
      assert forall i | 1 <= i < |rows| :: rows[i] == rows[1..][i - 1];
      r
  }

  /** A row loop raises exactly the error of its first raising row. */
  lemma {:induction false} FoldFails<R>(route: R -> Route, update: (Bucket, R) -> Bucket, bs: Buckets, rows: seq<R>)
    ensures Fold(route, update, bs, rows).Failure? <==> FirstFailure(route, rows).Some?
    ensures Fold(route, update, bs, rows).Failure? ==>
      Fold(route, update, bs, rows).error == FirstFailure(route, rows).value
    decreases |rows|
  {
    if rows != [] && !route(rows[0]).Fail? {
      FoldFails(route, update, Step(route, update, bs, rows[0]).value, rows[1..]);
    }
  }

  /** After a successful row loop each bucket is its starting bucket updated
      with exactly the rows that go into it, in order, and a key has a bucket
      exactly when it had one or some row goes into it. */
  lemma {:induction false} FoldPerKey<R>(route: R -> Route, update: (Bucket, R) -> Bucket, bs: Buckets,
                                         rows: seq<R>, k: Keys.Key)
    requires Fold(route, update, bs, rows).Success?
    ensures Fold(route, update, bs, rows).value.Get(k) == Apply(update, bs.Get(k), RowsInto(route, rows, k))
    ensures k in Fold(route, update, bs, rows).value.table <==> k in bs.table || RowsInto(route, rows, k) != []
    ensures bs.Valid() ==> Fold(route, update, bs, rows).value.Valid()
    decreases |rows|
  {
    if rows != [] {
      var next := Step(route, update, bs, rows[0]).value;
      FoldPerKey(route, update, next, rows[1..], k);
      if route(rows[0]) == Into(k) {
        assert RowsInto(route, rows, k) == [rows[0]] + RowsInto(route, rows[1..], k);
      } else {
        assert RowsInto(route, rows, k) == RowsInto(route, rows[1..], k);
        assert next.Get(k) == bs.Get(k);
      }
    }
  }

  // ---------------------------------------------------------------------
  // The order loop and the ad loop

  /** Where an order row goes: nowhere without a known shipping country,
      otherwise into the bucket of its region and UTC hour; an unreadable
      hour raises. */
  function RouteOrder(db: Timezones.TzDatabase, zone: string, row: OrderRow): (r: Route)
    ensures r.Skip? <==> RegionFromCountry(row.shippingCountryCode).None?
    ensures r.Fail? <==> RegionFromCountry(row.shippingCountryCode).Some? && row.orderHour.None?
    ensures r.Into? ==> r.key.0 == RegionFromCountry(row.shippingCountryCode).value
  {
    match RegionFromCountry(row.shippingCountryCode)
    case None => Skip
    case Some(region) =>
      match HourToUtc(db, zone, row.orderHour)
      case Failure(e) => Fail(e)
      case Success(t) => Into((region, t))
  }

  /** Where an ad row goes: nowhere unless its channel is facebook-ads or
      google-ads (in any case), otherwise into the bucket of the region its
      account or names resolve to and its UTC hour; an unreadable hour
      raises. */
  function RouteAd(db: Timezones.TzDatabase, zone: string, accountMap: map<string, string>, row: AdRow): (r: Route)
    ensures r.Skip? <==> Channel(row) !in SupportedChannels
    ensures r.Fail? <==> Channel(row) in SupportedChannels && row.spendHour.None?
    ensures r.Into? ==>
      r.key.0 == RegionFromAdRow(row.accountId, [row.campaignName, row.adsetName, row.adName], accountMap)
  {
    if Channel(row) !in SupportedChannels then Skip
    else
      var region := RegionFromAdRow(row.accountId, [row.campaignName, row.adsetName, row.adName], accountMap);
      match HourToUtc(db, zone, row.spendHour)
      case Failure(e) => Fail(e)
      case Success(t) => Into((region, t))
  }

  function OrderRoute(db: Timezones.TzDatabase, zone: string): OrderRow -> Route
  {
    row => RouteOrder(db, zone, row)
  }

  function AdRoute(db: Timezones.TzDatabase, zone: string, accountMap: map<string, string>): AdRow -> Route
  {
    row => RouteAd(db, zone, accountMap, row)
  }

  function OrderUpdate(): (Bucket, OrderRow) -> Bucket
  {
    (b, row) => AddOrder(b, row)
  }

  function AdUpdate(codec: Json.Codec): (Bucket, AdRow) -> Bucket
  {
    (b, row) => AddAd(codec, b, row)
  }

  /** The total of amount `a` over order rows; rows add nothing to an
      amount that is not an order column. */
  function OrderTotal(rows: seq<OrderRow>, a: Models.Amount): (r: real)
    ensures !IsOrderAmount(a) ==> r == 0.0
  {
    if rows == [] then 0.0 else OrderValue(rows[0], a) + OrderTotal(rows[1..], a)
  }

  /** The total of amount `a` over ad rows. */
  function AdTotal(rows: seq<AdRow>, a: Models.Amount): (r: real)
    ensures !IsAdColumn(a) && a != Models.MetaSpend && a != Models.GoogleSpend ==> r == 0.0
  {
    if rows == [] then 0.0 else AdValue(rows[0], a) + AdTotal(rows[1..], a)
  }

  /** The impression-weighted total of a share over ad rows. */
  function WeightedTotal(rows: seq<AdRow>, s: Models.Share): real
  {
    if rows == [] then 0.0
    else ShareValue(rows[0], s) * Field(rows[0].amounts, Models.Impressions) + WeightedTotal(rows[1..], s)
  }

  /** The first pacing text some ad row offers, "" when none does. */
  function FirstPacing(codec: Json.Codec, rows: seq<AdRow>, p: Models.Pacing): (r: string)
    ensures r == "" <==> forall i | 0 <= i < |rows| :: Encoded(codec, rows[i], p) == ""
    ensures r != "" ==> exists i | 0 <= i < |rows| ::
      r == Encoded(codec, rows[i], p) && forall j | 0 <= j < i :: Encoded(codec, rows[j], p) == ""
  {
    if rows == [] then ""
    else if Encoded(codec, rows[0], p) != "" then Encoded(codec, rows[0], p)
    else
      var r := FirstPacing(codec, rows[1..], p);
      assert forall i | 1 <= i < |rows| :: rows[i] == rows[1..][i - 1];
      r
  }

  /** The currency an order row offers, if it names one. */
  function CurrencyOf(row: OrderRow): Option<string>
  {
    if row.currency.Some? && row.currency.value != "" then Some(row.currency.value) else None
  }

  /** The currency of the last order row that names one. */
  function LastCurrency(rows: seq<OrderRow>): (r: Option<string>)
    ensures r.None? <==> forall i | 0 <= i < |rows| :: CurrencyOf(rows[i]).None?
    ensures r.Some? ==> exists i | 0 <= i < |rows| ::
      r == CurrencyOf(rows[i]) && forall j | i < j < |rows| :: CurrencyOf(rows[j]).None?
  {
    if rows == [] then None
    else
      var rest := LastCurrency(rows[1..]);
      assert forall i | 1 <= i < |rows| :: rows[i] == rows[1..][i - 1];
      if rest.Some? then
        ghost var i :| 1 <= i + 1 < |rows| && rest == CurrencyOf(rows[1..][i])
          && forall j | i < j < |rows| - 1 :: CurrencyOf(rows[1..][j]).None?;
        assert rest == CurrencyOf(rows[i + 1]);
        rest
      else CurrencyOf(rows[0])
  }

  /** The order-row updates of one bucket, in order. */
  function ApplyOrders(b: Bucket, rows: seq<OrderRow>): Bucket
    decreases |rows|
  {
    if rows == [] then b else ApplyOrders(AddOrder(b, rows[0]), rows[1..])
  }

  /** The ad-row updates of one bucket, in order. */
  function ApplyAds(codec: Json.Codec, b: Bucket, rows: seq<AdRow>): Bucket
    decreases |rows|
  {
    if rows == [] then b else ApplyAds(codec, AddAd(codec, b, rows[0]), rows[1..])
  }

  lemma {:induction false} ApplyOrdersIsApply(b: Bucket, rows: seq<OrderRow>)
    ensures Apply(OrderUpdate(), b, rows) == ApplyOrders(b, rows)
    decreases |rows|
  {
    if rows != [] {
      ApplyOrdersIsApply(AddOrder(b, rows[0]), rows[1..]);
    }
  }

  lemma {:induction false} ApplyAdsIsApply(codec: Json.Codec, b: Bucket, rows: seq<AdRow>)
    ensures Apply(AdUpdate(codec), b, rows) == ApplyAds(codec, b, rows)
    decreases |rows|
  {
    if rows != [] {
      ApplyAdsIsApply(codec, AddAd(codec, b, rows[0]), rows[1..]);
    }
  }

  /** Folding order rows into one bucket adds their totals, keeps the share
      and pacing state, and leaves the currency of the last row naming one. */
  lemma {:induction false} OrdersApplied(b: Bucket, rows: seq<OrderRow>)
    ensures forall a: Models.Amount :: ApplyOrders(b, rows).Sum(a) == b.Sum(a) + OrderTotal(rows, a)
    ensures ApplyOrders(b, rows).weighted == b.weighted
    ensures ApplyOrders(b, rows).pacing == b.pacing
    ensures ApplyOrders(b, rows).currency ==
      if LastCurrency(rows).Some? then LastCurrency(rows).value else b.currency
    decreases |rows|
  {
    if rows != [] {
      OrdersApplied(AddOrder(b, rows[0]), rows[1..]);
    }
  }

  /** Folding ad rows into one bucket adds their totals and weighted
      shares, fills each empty pacing text with the first one offered, and
      never replaces a currency. */
  lemma {:induction false} AdsApplied(codec: Json.Codec, b: Bucket, rows: seq<AdRow>)
    ensures forall a: Models.Amount :: ApplyAds(codec, b, rows).Sum(a) == b.Sum(a) + AdTotal(rows, a)
    ensures forall s: Models.Share ::
      ApplyAds(codec, b, rows).Weighted(s) == b.Weighted(s) + WeightedTotal(rows, s)
    ensures forall p: Models.Pacing ::
      ApplyAds(codec, b, rows).PacingText(p) ==
        (if b.PacingText(p) == "" then FirstPacing(codec, rows, p) else b.PacingText(p))
    ensures b.currency != "" ==> ApplyAds(codec, b, rows).currency == b.currency
    decreases |rows|
  {
    if rows != [] {
      AdsApplied(codec, AddAd(codec, b, rows[0]), rows[1..]);
    }
  }

  // ---------------------------------------------------------------------
  // Emitting the records

  /** `share_value`: a weighted total over the impressions it was weighted
      by, 0.0 without impressions. */
  function WeightedMean(weighted: real, impressions: real): (r: real)
    ensures impressions <= 0.0 ==> r == 0.0
    ensures impressions > 0.0 ==> r * impressions == weighted
  {
    if impressions <= 0.0 then 0.0 else weighted / impressions
  }

  /** The share of a bucket. */
  function BucketShare(b: Bucket, s: Models.Share): real
  {
    WeightedMean(b.Weighted(s), b.Sum(Models.Impressions))
  }

  /** The record of one bucket. */
  function Finalise(k: Keys.Key, b: Bucket): (m: Models.HourlyRegionMetrics)
    ensures m.region == k.0 && m.timestampUtc == Timezones.Aware(k.1)
    ensures forall a: Models.Amount :: a != Models.NewCustomerOrders ==> m.Amt(a) == b.Sum(a)
    ensures m.newCustomerOrders == Models.RoundHalfEven(b.Sum(Models.NewCustomerOrders))
    ensures forall s: Models.Share :: m.ShareOf(s) == BucketShare(b, s)
    ensures forall p: Models.Pacing :: m.PacingOf(p) == b.PacingText(p)
    ensures m.currency == b.currency
  {
    Models.HourlyRegionMetrics(
      k.0, Timezones.Aware(k.1),
      b.Sum(Models.MetaSpend), b.Sum(Models.GoogleSpend),
      Models.RoundHalfEven(b.Sum(Models.NewCustomerOrders)),
      b.Sum(Models.NewCustomerSales), b.Sum(Models.TotalSales),
      b.currency,
      map a | a in b.sums.Keys :: b.Sum(a),
      map s | s in b.weighted.Keys :: BucketShare(b, s),
      map p | p in b.pacing.Keys :: b.PacingText(p))
  }

  /** The key a record is sorted and grouped by. */
  function RecordKey(m: Models.HourlyRegionMetrics): Keys.Key
  {
    (m.region, Timezones.AsUtc(m.timestampUtc))
  }

  /** One record per bucket, in ascending (region, hour) order. */
  function Emit(bs: Buckets): (ms: seq<Models.HourlyRegionMetrics>)
    ensures |ms| == |Keys.SortKeys(bs.order)|
    ensures forall i | 0 <= i < |ms| :: RecordKey(ms[i]) == Keys.SortKeys(bs.order)[i]
  {
    var keys := Keys.SortKeys(bs.order);
    seq(|keys|, i requires 0 <= i < |keys| => Finalise(keys[i], bs.Get(keys[i])))
  }

  /** Both row loops: orders first, then ads into the same buckets. */
  function Grouped(db: Timezones.TzDatabase, zone: string, accountMap: map<string, string>,
                   codec: Json.Codec, orders: seq<OrderRow>, ads: seq<AdRow>): Result<Buckets>
  {
    match Fold(OrderRoute(db, zone), OrderUpdate(), EmptyBuckets(), orders)
    case Failure(e) => Failure(e)
    case Success(bs) => Fold(AdRoute(db, zone, accountMap), AdUpdate(codec), bs, ads)
  }

  /** The records `fetch_hourly_metrics` builds from its fetched rows. */
  function HourlyMetrics(db: Timezones.TzDatabase, zone: string, accountMap: map<string, string>,
                         codec: Json.Codec, orders: seq<OrderRow>, ads: seq<AdRow>): Result<seq<Models.HourlyRegionMetrics>>
  {
    match Grouped(db, zone, accountMap, codec, orders, ads)
    case Failure(e) => Failure(e)
    case Success(bs) => Success(Emit(bs))
  }

  /** The pipeline raises exactly when an order row or an ad row that is
      not skipped has an unreadable hour, and then raises the first such
      error, order rows first. */
  lemma HourlyMetricsFails(db: Timezones.TzDatabase, zone: string, accountMap: map<string, string>,
                           codec: Json.Codec, orders: seq<OrderRow>, ads: seq<AdRow>)
    ensures HourlyMetrics(db, zone, accountMap, codec, orders, ads).Failure? <==>
      FirstFailure(OrderRoute(db, zone), orders).Some? || FirstFailure(AdRoute(db, zone, accountMap), ads).Some?
    ensures HourlyMetrics(db, zone, accountMap, codec, orders, ads).Failure? ==>
      HourlyMetrics(db, zone, accountMap, codec, orders, ads).error ==
        if FirstFailure(OrderRoute(db, zone), orders).Some? then FirstFailure(OrderRoute(db, zone), orders).value
        else FirstFailure(AdRoute(db, zone, accountMap), ads).value
  {
    var first := Fold(OrderRoute(db, zone), OrderUpdate(), EmptyBuckets(), orders);
    FoldFails(OrderRoute(db, zone), OrderUpdate(), EmptyBuckets(), orders);
    if first.Success? {
      FoldFails(AdRoute(db, zone, accountMap), AdUpdate(codec), first.value, ads);
    }
  }

  /** The rows of each kind that go into the bucket of `k`. */
  function OrdersInto(db: Timezones.TzDatabase, zone: string, orders: seq<OrderRow>, k: Keys.Key): seq<OrderRow>
  {
    RowsInto(OrderRoute(db, zone), orders, k)
  }

  function AdsInto(db: Timezones.TzDatabase, zone: string, accountMap: map<string, string>,
                   ads: seq<AdRow>, k: Keys.Key): seq<AdRow>
  {
    RowsInto(AdRoute(db, zone, accountMap), ads, k)
  }

  /** The bucket the order rows `os` and then the ad rows `xs` build. */
  function BucketOf(codec: Json.Codec, os: seq<OrderRow>, xs: seq<AdRow>): Bucket
  {
    ApplyAds(codec, ApplyOrders(MakeBucket(), os), xs)
  }
  /** Each bucket after both loops: the totals of the rows that go into it,
      and a key has a bucket exactly when some row goes into it. */
  lemma GroupedBucket(db: Timezones.TzDatabase, zone: string, accountMap: map<string, string>,
                      codec: Json.Codec, orders: seq<OrderRow>, ads: seq<AdRow>, k: Keys.Key)
    requires Grouped(db, zone, accountMap, codec, orders, ads).Success?
    ensures Grouped(db, zone, accountMap, codec, orders, ads).value.Valid()
    ensures k in Grouped(db, zone, accountMap, codec, orders, ads).value.table <==>
      OrdersInto(db, zone, orders, k) != [] || AdsInto(db, zone, accountMap, ads, k) != []
    ensures Grouped(db, zone, accountMap, codec, orders, ads).value.Get(k) ==
      BucketOf(codec, OrdersInto(db, zone, orders, k), AdsInto(db, zone, accountMap, ads, k))
  {
    var first := Fold(OrderRoute(db, zone), OrderUpdate(), EmptyBuckets(), orders);
    FoldFails(OrderRoute(db, zone), OrderUpdate(), EmptyBuckets(), orders);
    FoldPerKey(OrderRoute(db, zone), OrderUpdate(), EmptyBuckets(), orders, k);
    FoldPerKey(AdRoute(db, zone, accountMap), AdUpdate(codec), first.value, ads, k);
    BucketOfIsApply(codec, OrdersInto(db, zone, orders, k), AdsInto(db, zone, accountMap, ads, k));
  }

  lemma BucketOfIsApply(codec: Json.Codec, os: seq<OrderRow>, xs: seq<AdRow>)
    ensures BucketOf(codec, os, xs) == Apply(AdUpdate(codec), Apply(OrderUpdate(), MakeBucket(), os), xs)
  {
    var start := MakeBucket();
    ApplyOrdersIsApply(start, os);
    assert Apply(OrderUpdate(), start, os) == ApplyOrders(start, os);
    ApplyAdsIsApply(codec, ApplyOrders(start, os), xs);
  }

  /** The records come out strictly ascending by (region, hour), one for
      each key some order row or ad row goes into. */
  lemma HourlyMetricsKeys(db: Timezones.TzDatabase, zone: string, accountMap: map<string, string>,
                          codec: Json.Codec, orders: seq<OrderRow>, ads: seq<AdRow>, k: Keys.Key)
    requires HourlyMetrics(db, zone, accountMap, codec, orders, ads).Success?
    ensures var ms := HourlyMetrics(db, zone, accountMap, codec, orders, ads).value;
      forall i, j | 0 <= i < j < |ms| :: Keys.Less(RecordKey(ms[i]), RecordKey(ms[j]))
    ensures var ms := HourlyMetrics(db, zone, accountMap, codec, orders, ads).value;
      (exists i | 0 <= i < |ms| :: RecordKey(ms[i]) == k) <==>
        OrdersInto(db, zone, orders, k) != [] || AdsInto(db, zone, accountMap, ads, k) != []
  {
    var bs := Grouped(db, zone, accountMap, codec, orders, ads).value;
    GroupedBucket(db, zone, accountMap, codec, orders, ads, k);
    var keys := Keys.SortKeys(bs.order);
    var ms := Emit(bs);
    if k in bs.table {
      assert k in keys;
      var i :| 0 <= i < |keys| && keys[i] == k;
      assert RecordKey(ms[i]) == k;
    }
  }

  /** Each amount of that bucket is the order total plus the ad total. */
  lemma BucketTotal(codec: Json.Codec, os: seq<OrderRow>, xs: seq<AdRow>, a: Models.Amount)
    ensures BucketOf(codec, os, xs).Sum(a) == OrderTotal(os, a) + AdTotal(xs, a)
  {
    OrdersApplied(MakeBucket(), os);
    AdsApplied(codec, ApplyOrders(MakeBucket(), os), xs);
  }

  lemma BucketWeighted(codec: Json.Codec, os: seq<OrderRow>, xs: seq<AdRow>, s: Models.Share)
    ensures BucketOf(codec, os, xs).Weighted(s) == WeightedTotal(xs, s)
  {
    var afterOrders := ApplyOrders(MakeBucket(), os);
    OrdersApplied(MakeBucket(), os);
    AdsApplied(codec, afterOrders, xs);
    assert afterOrders.Weighted(s) == 0.0;
  }

  /** Its pacing texts are the first ones the ad rows offer, and its
      currency is the last one the order rows name, USD otherwise. */
  lemma BucketTexts(codec: Json.Codec, os: seq<OrderRow>, xs: seq<AdRow>)
    ensures forall p: Models.Pacing :: BucketOf(codec, os, xs).PacingText(p) == FirstPacing(codec, xs, p)
    ensures BucketOf(codec, os, xs).currency == if LastCurrency(os).Some? then LastCurrency(os).value else "USD"
  {
    var afterOrders := ApplyOrders(MakeBucket(), os);
    OrdersApplied(MakeBucket(), os);
    AdsApplied(codec, afterOrders, xs);
    forall p: Models.Pacing ensures afterOrders.PacingText(p) == "" {
      assert afterOrders.pacing == MakeBucket().pacing;
    }
  }

  /** The record of a bucket holding given totals holds them too, with the
      new-customer orders rounded half to even. */
  lemma FinalisedAmounts(k: Keys.Key, b: Bucket, os: seq<OrderRow>, xs: seq<AdRow>)
    requires forall a: Models.Amount :: b.Sum(a) == OrderTotal(os, a) + AdTotal(xs, a)
    ensures forall a: Models.Amount | a != Models.NewCustomerOrders ::
      Finalise(k, b).Amt(a) == OrderTotal(os, a) + AdTotal(xs, a)
    ensures Finalise(k, b).newCustomerOrders == Models.RoundHalfEven(OrderTotal(os, Models.NewCustomerOrders))
  {
    assert AdTotal(xs, Models.NewCustomerOrders) == 0.0;
  }

  /** The share of that bucket is the impression-weighted mean of the ad
      rows' shares. */
  lemma BucketShareOfRows(codec: Json.Codec, os: seq<OrderRow>, xs: seq<AdRow>, s: Models.Share)
    ensures BucketShare(BucketOf(codec, os, xs), s) ==
      WeightedMean(WeightedTotal(xs, s), AdTotal(xs, Models.Impressions))
  {
    ShareInputs(codec, os, xs, s);
    SameShare(BucketOf(codec, os, xs), xs, s);
  }

  lemma ShareInputs(codec: Json.Codec, os: seq<OrderRow>, xs: seq<AdRow>, s: Models.Share)
    ensures BucketOf(codec, os, xs).Weighted(s) == WeightedTotal(xs, s)
    ensures BucketOf(codec, os, xs).Sum(Models.Impressions) == AdTotal(xs, Models.Impressions)
  {
    BucketTotal(codec, os, xs, Models.Impressions);
    BucketWeighted(codec, os, xs, s);
  }

  lemma SameShare(b: Bucket, xs: seq<AdRow>, s: Models.Share)
    requires b.Weighted(s) == WeightedTotal(xs, s)
    requires b.Sum(Models.Impressions) == AdTotal(xs, Models.Impressions)
    ensures BucketShare(b, s) == WeightedMean(WeightedTotal(xs, s), AdTotal(xs, Models.Impressions))
  {
  }



  /** Record `i` is the record of the bucket of its own key. */
  lemma RecordOfKey(db: Timezones.TzDatabase, zone: string, accountMap: map<string, string>,
                    codec: Json.Codec, orders: seq<OrderRow>, ads: seq<AdRow>, i: int)
    requires HourlyMetrics(db, zone, accountMap, codec, orders, ads).Success?
    requires 0 <= i < |HourlyMetrics(db, zone, accountMap, codec, orders, ads).value|
    ensures var m := HourlyMetrics(db, zone, accountMap, codec, orders, ads).value[i];
      var os := OrdersInto(db, zone, orders, RecordKey(m));
      var xs := AdsInto(db, zone, accountMap, ads, RecordKey(m));
      (os != [] || xs != []) && m == Finalise(RecordKey(m), BucketOf(codec, os, xs))
  {
    var bs := Grouped(db, zone, accountMap, codec, orders, ads).value;
    var keys := Keys.SortKeys(bs.order);
    var k := keys[i];
    assert Emit(bs)[i] == Finalise(k, bs.Get(k));
    GroupedBucket(db, zone, accountMap, codec, orders, ads, k);
    assert k in bs.order;
  }

  /** The amounts of each record are the totals of the order rows and ad
      rows of its key, with new-customer orders rounded half to even. */
  lemma HourlyMetricsAmounts(db: Timezones.TzDatabase, zone: string, accountMap: map<string, string>,
      codec: Json.Codec, orders: seq<OrderRow>, ads: seq<AdRow>, i: int)
    requires HourlyMetrics(db, zone, accountMap, codec, orders, ads).Success?
    requires 0 <= i < |HourlyMetrics(db, zone, accountMap, codec, orders, ads).value|
    ensures var m := HourlyMetrics(db, zone, accountMap, codec, orders, ads).value[i];
      var os := OrdersInto(db, zone, orders, RecordKey(m));
      var xs := AdsInto(db, zone, accountMap, ads, RecordKey(m));
      && (forall a: Models.Amount | a != Models.NewCustomerOrders :: m.Amt(a) == OrderTotal(os, a) + AdTotal(xs, a))
      && m.newCustomerOrders == Models.RoundHalfEven(OrderTotal(os, Models.NewCustomerOrders))
  {
    var m := HourlyMetrics(db, zone, accountMap, codec, orders, ads).value[i];
    var k := RecordKey(m);
    RecordOfKey(db, zone, accountMap, codec, orders, ads, i);
    BucketAmounts(k, codec, OrdersInto(db, zone, orders, k), AdsInto(db, zone, accountMap, ads, k));
  }

  /** The amounts of a finalised bucket are the totals of its rows. */
  lemma BucketAmounts(k: Keys.Key, codec: Json.Codec, os: seq<OrderRow>, xs: seq<AdRow>)
    ensures forall a: Models.Amount | a != Models.NewCustomerOrders ::
      Finalise(k, BucketOf(codec, os, xs)).Amt(a) == OrderTotal(os, a) + AdTotal(xs, a)
    ensures Finalise(k, BucketOf(codec, os, xs)).newCustomerOrders
      == Models.RoundHalfEven(OrderTotal(os, Models.NewCustomerOrders))
  {
    var b := BucketOf(codec, os, xs);
    forall a: Models.Amount ensures b.Sum(a) == OrderTotal(os, a) + AdTotal(xs, a) {
      BucketTotal(codec, os, xs, a);
    }
    FinalisedAmounts(k, b, os, xs);
  }

  /** The search shares of each record are the impression-weighted means of
      its ad rows' shares, 0.0 when it has no impressions. */
  lemma HourlyMetricsShares(db: Timezones.TzDatabase, zone: string, accountMap: map<string, string>,
      codec: Json.Codec, orders: seq<OrderRow>, ads: seq<AdRow>, i: int)
    requires HourlyMetrics(db, zone, accountMap, codec, orders, ads).Success?
    requires 0 <= i < |HourlyMetrics(db, zone, accountMap, codec, orders, ads).value|
    ensures var m := HourlyMetrics(db, zone, accountMap, codec, orders, ads).value[i];
      var os := OrdersInto(db, zone, orders, RecordKey(m));
      var xs := AdsInto(db, zone, accountMap, ads, RecordKey(m));
      forall s: Models.Share :: m.ShareOf(s) == WeightedMean(WeightedTotal(xs, s), AdTotal(xs, Models.Impressions))
  {
    var m := HourlyMetrics(db, zone, accountMap, codec, orders, ads).value[i];
    var k := RecordKey(m);
    RecordOfKey(db, zone, accountMap, codec, orders, ads, i);
    var os := OrdersInto(db, zone, orders, k);
    var xs := AdsInto(db, zone, accountMap, ads, k);
    var b := BucketOf(codec, os, xs);
    forall s: Models.Share
      ensures m.ShareOf(s) == WeightedMean(WeightedTotal(xs, s), AdTotal(xs, Models.Impressions))
    {
      BucketShareOfRows(codec, os, xs, s);
    }
  }

  /** The pacing texts of each record are the first its ad rows offer; its
      currency is that of the last order row naming one, USD otherwise. */
  lemma HourlyMetricsTexts(db: Timezones.TzDatabase, zone: string, accountMap: map<string, string>,
      codec: Json.Codec, orders: seq<OrderRow>, ads: seq<AdRow>, i: int)
    requires HourlyMetrics(db, zone, accountMap, codec, orders, ads).Success?
    requires 0 <= i < |HourlyMetrics(db, zone, accountMap, codec, orders, ads).value|
    ensures var m := HourlyMetrics(db, zone, accountMap, codec, orders, ads).value[i];
      var os := OrdersInto(db, zone, orders, RecordKey(m));
      var xs := AdsInto(db, zone, accountMap, ads, RecordKey(m));
      && (forall p: Models.Pacing :: m.PacingOf(p) == FirstPacing(codec, xs, p))
      && m.currency == if LastCurrency(os).Some? then LastCurrency(os).value else "USD"
  {
    var m := HourlyMetrics(db, zone, accountMap, codec, orders, ads).value[i];
    var k := RecordKey(m);
    RecordOfKey(db, zone, accountMap, codec, orders, ads, i);
    var os := OrdersInto(db, zone, orders, k);
    var xs := AdsInto(db, zone, accountMap, ads, k);
    var b := BucketOf(codec, os, xs);
    BucketTexts(codec, os, xs);
  }


  // ---------------------------------------------------------------------
  // fetch_hourly_metrics

  /** The settings the loader reads: the shop domain and the optional map
      from ad-account id to region. */
  datatype Settings = Settings(shopDomain: Option<string>, accountRegionMap: Option<map<string, string>>)

  const MissingDomain := "TRIPLE_WHALE_SHOP_DOMAIN (or SHOPIFY_DOMAIN) must be set to run the pipeline."
  const NaiveBounds := "store_start_local and store_end_local must be timezone-aware datetimes."
  const ReversedBounds := "store_start_local must be on or before store_end_local."

  /** The store zone: the given name, else the detected one, falling back
      to UTC when the database does not know it. */
  function StoreZone(db: Timezones.TzDatabase, storeTimezone: Option<string>, detected: string): (z: string)
    ensures db.known(z) || z == Timezones.Utc
    ensures storeTimezone.Some? && storeTimezone.value != "" && db.known(storeTimezone.value) ==> z == storeTimezone.value
  {
    var name := if storeTimezone.Some? && storeTimezone.value != "" then storeTimezone.value else detected;
    if db.known(name) then name else Timezones.Utc
  }

  /** What `fetch_hourly_metrics` returns or raises. `orderSource(domain,
      from, to)` and `adSource(domain, from, to, channel)` stand for the
      two SQL queries over the fetch window. */
  function FetchSpec(settings: Settings, start: Timezones.Timestamp, end: Timezones.Timestamp,
                     storeTimezone: Option<string>, detected: string,
                     db: Timezones.TzDatabase, codec: Json.Codec,
                     orderSource: (string, int, int) -> seq<OrderRow>,
                     adSource: (string, int, int, string) -> seq<AdRow>): Result<seq<Models.HourlyRegionMetrics>>
  {
    if settings.shopDomain.None? || settings.shopDomain.value == "" then Failure(RuntimeError(MissingDomain))
    else if start.Naive? || end.Naive? then Failure(ValueError(NaiveBounds))
    else if start.instant > end.instant then Failure(ValueError(ReversedBounds))
    else
      var domain := settings.shopDomain.value;
      var zone := StoreZone(db, storeTimezone, detected);
      var window := WindowOver(db, start.instant, end.instant, RegionZones);
      var accountMap := if settings.accountRegionMap.Some? then settings.accountRegionMap.value else map[];
      HourlyMetrics(db, zone, accountMap, codec,
        orderSource(domain, window.0, window.1),
        adSource(domain, window.0, window.1, "facebook-ads") + adSource(domain, window.0, window.1, "google-ads"))
  }

  /** The checks before any query: a missing shop domain, a naive bound, or
      a start after the end each raise, in that order. */
  lemma FetchPreconditions(settings: Settings, start: Timezones.Timestamp, end: Timezones.Timestamp,
                           storeTimezone: Option<string>, detected: string,
                           db: Timezones.TzDatabase, codec: Json.Codec,
                           orderSource: (string, int, int) -> seq<OrderRow>,
                           adSource: (string, int, int, string) -> seq<AdRow>)
    ensures (settings.shopDomain.None? || settings.shopDomain.value == "") ==>
      FetchSpec(settings, start, end, storeTimezone, detected, db, codec, orderSource, adSource)
        == Failure(RuntimeError(MissingDomain))
    ensures settings.shopDomain.Some? && settings.shopDomain.value != "" && (start.Naive? || end.Naive?) ==>
      FetchSpec(settings, start, end, storeTimezone, detected, db, codec, orderSource, adSource)
        == Failure(ValueError(NaiveBounds))
    ensures (settings.shopDomain.Some? && settings.shopDomain.value != "" && start.Aware? && end.Aware?
      && start.instant > end.instant) ==>
      FetchSpec(settings, start, end, storeTimezone, detected, db, codec, orderSource, adSource)
        == Failure(ValueError(ReversedBounds))
    ensures FetchSpec(settings, start, end, storeTimezone, detected, db, codec, orderSource, adSource).Success? ==>
      settings.shopDomain.Some? && settings.shopDomain.value != "" && start.Aware? && end.Aware?
      && start.instant <= end.instant
  {
  }

  /** `fetch_hourly_metrics`: the checks, the widened window, the order loop,
      the ad loop over Facebook rows then Google rows, and the records in key
      order. */
  method FetchHourlyMetrics(settings: Settings, start: Timezones.Timestamp, end: Timezones.Timestamp,
                            storeTimezone: Option<string>, detected: string,
                            db: Timezones.TzDatabase, codec: Json.Codec,
                            orderSource: (string, int, int) -> seq<OrderRow>,
                            adSource: (string, int, int, string) -> seq<AdRow>)
    returns (r: Result<seq<Models.HourlyRegionMetrics>>)
    ensures r == FetchSpec(settings, start, end, storeTimezone, detected, db, codec, orderSource, adSource)
  {
    if settings.shopDomain.None? || settings.shopDomain.value == "" {
      return Failure(RuntimeError(MissingDomain));
    }
    if start.Naive? || end.Naive? {
      return Failure(ValueError(NaiveBounds));
    }
    var domain := settings.shopDomain.value;
    var zone := StoreZone(db, storeTimezone, detected);
    if start.instant > end.instant {
      return Failure(ValueError(ReversedBounds));
    }
    var fetchStart, fetchEnd := ExpandFetchWindow(db, start.instant, end.instant);
    var accountMap := if settings.accountRegionMap.Some? then settings.accountRegionMap.value else map[];
    var orderRows := orderSource(domain, fetchStart, fetchEnd);
    var adRows := adSource(domain, fetchStart, fetchEnd, "facebook-ads") + adSource(domain, fetchStart, fetchEnd, "google-ads");

    var grouped := GroupOrders(db, zone, orderRows);
    if grouped.Failure? {
      return Failure(grouped.error);
    }
    grouped := GroupAds(db, zone, accountMap, codec, grouped.value, adRows);
    if grouped.Failure? {
      return Failure(grouped.error);
    }
    var records := EmitRecords(grouped.value);
    return Success(records);
  }

  /** The order loop: each order row with a known country into the bucket of
      its region and hour. */
  method GroupOrders(db: Timezones.TzDatabase, zone: string, orderRows: seq<OrderRow>) returns (r: Result<Buckets>)
    ensures r == Fold(OrderRoute(db, zone), OrderUpdate(), EmptyBuckets(), orderRows)
  {
    ghost var route := OrderRoute(db, zone);
    var buckets := EmptyBuckets();
    var i := 0;
    while i < |orderRows|
      invariant 0 <= i <= |orderRows|
      invariant Fold(route, OrderUpdate(), buckets, orderRows[i..])
        == Fold(route, OrderUpdate(), EmptyBuckets(), orderRows)
    {
      var row := orderRows[i];
      assert orderRows[i..][1..] == orderRows[i + 1..];
      var region := RegionFromCountry(row.shippingCountryCode);
      if region.Some? {
        var hour := HourToUtc(db, zone, row.orderHour);
        if hour.Failure? {
          return Failure(hour.error);
        }
        var key := (region.value, hour.value);
        buckets := buckets.Put(key, AddOrder(buckets.Get(key), row));
      }
      i := i + 1;
    }
    assert orderRows[i..] == [];
    return Success(buckets);
  }

  /** The ad loop: each ad row of a supported channel into the bucket of its
      region and hour, on top of the buckets the orders built. */
  method GroupAds(db: Timezones.TzDatabase, zone: string, accountMap: map<string, string>,
                  codec: Json.Codec, afterOrders: Buckets, adRows: seq<AdRow>) returns (r: Result<Buckets>)
    ensures r == Fold(AdRoute(db, zone, accountMap), AdUpdate(codec), afterOrders, adRows)
  {
    ghost var route := AdRoute(db, zone, accountMap);
    var buckets := afterOrders;
    var j := 0;
    while j < |adRows|
      invariant 0 <= j <= |adRows|
      invariant Fold(route, AdUpdate(codec), buckets, adRows[j..])
        == Fold(route, AdUpdate(codec), afterOrders, adRows)
    {
      var row := adRows[j];
      assert adRows[j..][1..] == adRows[j + 1..];
      if Channel(row) in SupportedChannels {
        // The region is never empty, so no supported row is skipped here.
        var region := RegionFromAdRow(row.accountId, [row.campaignName, row.adsetName, row.adName], accountMap);
        var hour := HourToUtc(db, zone, row.spendHour);
        if hour.Failure? {
          return Failure(hour.error);
        }
        var key := (region, hour.value);
        buckets := buckets.Put(key, AddAd(codec, buckets.Get(key), row));
      }
      j := j + 1;
    }
    assert adRows[j..] == [];
    return Success(buckets);
  }

  /** The records of the buckets, sorted by (region, hour). */
  method EmitRecords(buckets: Buckets) returns (records: seq<Models.HourlyRegionMetrics>)
    ensures records == Emit(buckets)
  {
    var keys := Keys.SortKeys(buckets.order);
    records := [];
    var n := 0;
    while n < |keys|
      invariant 0 <= n <= |keys|
      invariant records == Emit(buckets)[..n]
    {
      records := records + [Finalise(keys[n], buckets.Get(keys[n]))];
      n := n + 1;
    }
  }
}
