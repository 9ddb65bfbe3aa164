/** The Shopify order processor's decisions: whether an order is a
    subscription and of which kind, the enriched record stored for it, and
    whether it is recent enough to keep in the hot table. The S3 and
    DynamoDB writes and the event handler are not part of this model. */
module OrderProcessor {
  import opened Wrappers
  import opened Json
  import Text
  import Timezones

  /** `+` of two values it is not defined for. */
  const UnsupportedAdd := TypeError("unsupported operand type(s) for +")

  /** Comparing a naive datetime with an aware one. */
  const NaiveAwareCompare := TypeError("can't compare offset-naive and offset-aware datetimes")

  // ---------------------------------------------------------------------
  // Configuration
  // ---------------------------------------------------------------------

  /** The default of `SUBSCRIPTION_SKUS`. */
  const DefaultSubscriptionSkus := "marstestsupport,marsupgrade90_02,mars_monthly,mars_quarterly_3x,quarterly_mars_03"

  /** The default of `ORDERS_TTL_DAYS`. */
  const DefaultTtlDays := 30

  /** `[sku.lower() for sku in setting.split(",")]`. */
  function ConfiguredSkus(setting: string): (skus: seq<string>)
    ensures |skus| == |Text.Split(setting, ',')|
    ensures forall k | 0 <= k < |skus| :: |skus[k]| == |Text.Split(setting, ',')[k]|
  {
    LowerAll(Text.Split(setting, ','))
  }

  function LowerAll(parts: seq<string>): (r: seq<string>)
    ensures |r| == |parts|
    ensures forall k | 0 <= k < |parts| :: r[k] == Text.Lower(parts[k])
  {
    if parts == [] then [] else [Text.Lower(parts[0])] + LowerAll(parts[1..])
  }

  /** Lower-casing commutes with joining on a separator without letters. */
  lemma {:induction false} LowerOfJoin(sep: string, parts: seq<string>)
    requires Text.Lower(sep) == sep
    ensures Text.Lower(Text.Join(sep, parts)) == Text.Join(sep, LowerAll(parts))
  {
    if |parts| > 1 {
      LowerOfJoin(sep, parts[1..]);
      LowerOfConcat(parts[0] + sep, Text.Join(sep, parts[1..]));
      LowerOfConcat(parts[0], sep);
      assert LowerAll(parts)[1..] == LowerAll(parts[1..]);
    }
  }

  lemma LowerOfConcat(a: string, b: string)
    ensures Text.Lower(a + b) == Text.Lower(a) + Text.Lower(b)
  {
    assert forall i | 0 <= i < |a + b| :: Text.Lower(a + b)[i] == (Text.Lower(a) + Text.Lower(b))[i];
  }

  /** The configured SKUs are the lower-cased setting cut at its commas:
      joined back with commas they give the lower-cased setting, and none of
      them contains a comma or an upper-case letter. */
  lemma ConfiguredSkusRoundTrip(setting: string)
    ensures Text.Join(",", ConfiguredSkus(setting)) == Text.Lower(setting)
    ensures forall k, i | 0 <= k < |ConfiguredSkus(setting)| && 0 <= i < |ConfiguredSkus(setting)[k]| ::
      ConfiguredSkus(setting)[k][i] != ',' && !Text.IsUpperLetter(ConfiguredSkus(setting)[k][i])
  {
    var parts := Text.Split(setting, ',');
    Text.JoinOfSplit(setting, ',');
    assert Text.Lower(",") == ",";
    LowerOfJoin(",", parts);
    ConfiguredSkusNoComma(setting);
  }

  /** No configured SKU contains a comma. */
  lemma ConfiguredSkusNoComma(setting: string)
    ensures forall k, i | 0 <= k < |ConfiguredSkus(setting)| && 0 <= i < |ConfiguredSkus(setting)[k]| ::
      ConfiguredSkus(setting)[k][i] != ','
  {
    var parts := Text.Split(setting, ',');
    forall k, i | 0 <= k < |parts| && 0 <= i < |ConfiguredSkus(setting)[k]|
      ensures ConfiguredSkus(setting)[k][i] != ','
    {
      assert parts[k] in parts;
      assert parts[k][i] in parts[k];
    }
  }

  // ---------------------------------------------------------------------
  // is_subscription_order
  // ---------------------------------------------------------------------

  /** `(order_data.get("tags", "") or "").lower()`. */
  function TagsOf(order: Fields): Result<string>
  {
    match Or(GetOr(order, "tags", Str("")), Str(""))
    case Str(s) => Success(Text.Lower(s))
    case _ => Failure(NoLower)
  }

  /** `(item.get("sku") or "").lower()` for a line item. */
  function SkuOf(item: Value): Result<string>
  {
    match item
    case Dict(f) =>
      (match Or(GetOr(f, "sku", Null), Str(""))
       case Str(s) => Success(Text.Lower(s))
       case _ => Failure(NoLower))
    case _ => Failure(NoGet)
  }

  /** `order_data.get("line_items", [])`, iterated. */
  function LineItems(order: Fields): Result<seq<Value>>
  {
    Iterate(GetOr(order, "line_items", List([])))
  }

  /** Tags that mark an order as a subscription. */
  predicate TagsMarkSubscription(tags: string)
  {
    Text.Contains(tags, "subscription") || Text.Contains(tags, "recurring")
  }

  /** `any(sub_sku in sku for sub_sku in SUBSCRIPTION_SKUS)`. */
  predicate MatchesConfigured(skus: seq<string>, sku: string)
  {
    exists k | 0 <= k < |skus| :: Text.Contains(sku, skus[k])
  }

  /** The loop over the line items: True at the first item whose SKU
      matches, False after the last, or the first exception. */
  function SubscriptionByItems(skus: seq<string>, items: seq<Value>): Result<bool>
  {
    if items == [] then Success(false)
    else
      match SkuOf(items[0])
      case Failure(e) => Failure(e)
      case Success(sku) =>
        if MatchesConfigured(skus, sku) then Success(true) else SubscriptionByItems(skus, items[1..])
  }

  /** What `is_subscription_order` returns or raises. */
  function IsSubscription(skus: seq<string>, order: Fields): Result<bool>
  {
    match TagsOf(order)
    case Failure(e) => Failure(e)
    case Success(tags) =>
      if TagsMarkSubscription(tags) then Success(true)
      else
        match LineItems(order)
        case Failure(e) => Failure(e)
        case Success(items) => SubscriptionByItems(skus, items)
  }

  /** `is_subscription_order`: the tag test, then a scan of the line items
      that stops at the first match. */
  method IsSubscriptionOrder(skus: seq<string>, order: Fields) returns (r: Result<bool>)
    ensures r == IsSubscription(skus, order)
  {
    var tags: string;
    match TagsOf(order) {
      case Failure(e) => return Failure(e);
      case Success(t) => tags := t;
    }
    if Text.Contains(tags, "subscription") || Text.Contains(tags, "recurring") {
      return Success(true);
    }
    var items: seq<Value>;
    match LineItems(order) {
      case Failure(e) => return Failure(e);
      case Success(xs) => items := xs;
    }
    var i := 0;
    while i < |items|
      invariant 0 <= i <= |items|
      invariant SubscriptionByItems(skus, items) == SubscriptionByItems(skus, items[i..])
    {
      assert items[i..][1..] == items[i + 1..];
      var sku: string;
      match SkuOf(items[i]) {
        case Failure(e) => return Failure(e);
        case Success(s) => sku := s;
      }
      if exists k | 0 <= k < |skus| :: Text.Contains(sku, skus[k]) {
        return Success(true);
      }
      i := i + 1;
    }
    r := Success(false);
  }

  /** Item `i` is the first whose SKU matches, every earlier SKU being
      readable. */
  predicate IsFirstMatch(skus: seq<string>, items: seq<Value>, i: int)
  {
    0 <= i < |items|
    && (forall j | 0 <= j < i :: SkuOf(items[j]).Success? && !MatchesConfigured(skus, SkuOf(items[j]).value))
    && SkuOf(items[i]).Success? && MatchesConfigured(skus, SkuOf(items[i]).value)
  }

  /** Every SKU is readable and none matches. */
  predicate NoneMatch(skus: seq<string>, items: seq<Value>)
  {
    forall j | 0 <= j < |items| :: SkuOf(items[j]).Success? && !MatchesConfigured(skus, SkuOf(items[j]).value)
  }

  /** The scan answers True exactly when some item is a first match, and
      False exactly when every SKU is readable and none matches. */
  lemma {:induction false} SubscriptionByItemsMeaning(skus: seq<string>, items: seq<Value>)
    ensures SubscriptionByItems(skus, items) == Success(true) <==> exists i :: IsFirstMatch(skus, items, i)
    ensures SubscriptionByItems(skus, items) == Success(false) <==> NoneMatch(skus, items)
  {
    if items != [] {
      var rest := items[1..];
      SubscriptionByItemsMeaning(skus, rest);
      forall j | 0 <= j < |rest| ensures rest[j] == items[j + 1] { }
      if SkuOf(items[0]).Success? && !MatchesConfigured(skus, SkuOf(items[0]).value) {
        if exists i :: IsFirstMatch(skus, rest, i) {
          var i :| IsFirstMatch(skus, rest, i);
          assert IsFirstMatch(skus, items, i + 1);
        }
        if exists i :: IsFirstMatch(skus, items, i) {
          var i :| IsFirstMatch(skus, items, i);
          assert i != 0;
          assert IsFirstMatch(skus, rest, i - 1);
        }
        if NoneMatch(skus, rest) {
          forall j | 0 <= j < |items|
            ensures SkuOf(items[j]).Success? && !MatchesConfigured(skus, SkuOf(items[j]).value)
          {
            if j > 0 { assert items[j] == rest[j - 1]; }
          }
        }
      } else if SkuOf(items[0]).Success? {
        assert IsFirstMatch(skus, items, 0);
        assert !NoneMatch(skus, items) by { assert 0 < |items|; }
      } else {
        assert forall i :: IsFirstMatch(skus, items, i) ==> SkuOf(items[0]).Success?;
        assert !NoneMatch(skus, items) by { assert 0 < |items|; }
      }
    }
  }

  /** An order is a subscription exactly when its lower-cased tags mention
      "subscription" or "recurring", or some line item's lower-cased SKU
      contains a configured SKU; it is not exactly when neither holds and
      every SKU could be read. */
  lemma IsSubscriptionMeaning(skus: seq<string>, order: Fields)
    ensures IsSubscription(skus, order) == Success(true) <==>
      TagsOf(order).Success? &&
      (TagsMarkSubscription(TagsOf(order).value)
       || (LineItems(order).Success? && exists i :: IsFirstMatch(skus, LineItems(order).value, i)))
    ensures IsSubscription(skus, order) == Success(false) <==>
      TagsOf(order).Success? && !TagsMarkSubscription(TagsOf(order).value)
      && LineItems(order).Success? && NoneMatch(skus, LineItems(order).value)
  {
    if LineItems(order).Success? {
      SubscriptionByItemsMeaning(skus, LineItems(order).value);
    }
  }

  /** An empty configured SKU (as a trailing comma in the setting gives)
      matches every SKU, so any order with a readable line item counts as a
      subscription. */
  lemma EmptySkuMatchesAll(skus: seq<string>, order: Fields)
    requires "" in skus
    requires TagsOf(order).Success? && LineItems(order).Success?
    requires |LineItems(order).value| > 0 && SkuOf(LineItems(order).value[0]).Success?
    ensures IsSubscription(skus, order) == Success(true)
  {
    var k :| 0 <= k < |skus| && skus[k] == "";
    var sku := SkuOf(LineItems(order).value[0]).value;
    assert Text.OccursAt(sku, skus[k], 0);
    assert MatchesConfigured(skus, sku);
  }

  // ---------------------------------------------------------------------
  // get_subscription_type
  // ---------------------------------------------------------------------

  /** The kind a single SKU names: monthly is tested first. */
  function KindOfSku(sku: string): Option<string>
  {
    if Text.Contains(sku, "monthly") then Some("monthly")
    else if Text.Contains(sku, "quarterly") || Text.Contains(sku, "3x") then Some("quarterly")
    else None
  }

  /** The second loop: the kind of the first item whose SKU names one,
      "monthly" when none does, or the first exception. */
  function KindByItems(items: seq<Value>): Result<string>
  {
    if items == [] then Success("monthly")
    else
      match SkuOf(items[0])
      case Failure(e) => Failure(e)
      case Success(sku) =>
        if KindOfSku(sku).Some? then Success(KindOfSku(sku).value) else KindByItems(items[1..])
  }

  /** What `get_subscription_type` returns or raises. */
  function SubscriptionType(skus: seq<string>, order: Fields): Result<Option<string>>
  {
    match IsSubscription(skus, order)
    case Failure(e) => Failure(e)
    case Success(false) => Success(None)
    case Success(true) =>
      match LineItems(order)
      case Failure(e) => Failure(e)
      case Success(items) =>
        match KindByItems(items)
        case Failure(e) => Failure(e)
        case Success(kind) => Success(Some(kind))
  }

  /** `get_subscription_type`. */
  method GetSubscriptionType(skus: seq<string>, order: Fields) returns (r: Result<Option<string>>)
    ensures r == SubscriptionType(skus, order)
  {
    var subscription := IsSubscriptionOrder(skus, order);
    match subscription {
      case Failure(e) => return Failure(e);
      case Success(b) => if !b { return Success(None); }
    }
    var items: seq<Value>;
    match LineItems(order) {
      case Failure(e) => return Failure(e);
      case Success(xs) => items := xs;
    }
    var i := 0;
    while i < |items|
      invariant 0 <= i <= |items|
      invariant KindByItems(items) == KindByItems(items[i..])
    {
      assert items[i..][1..] == items[i + 1..];
      var sku: string;
      match SkuOf(items[i]) {
        case Failure(e) => return Failure(e);
        case Success(s) => sku := s;
      }
      if Text.Contains(sku, "monthly") {
        return Success(Some("monthly"));
      }
      if Text.Contains(sku, "quarterly") || Text.Contains(sku, "3x") {
        return Success(Some("quarterly"));
      }
      i := i + 1;
    }
    r := Success(Some("monthly"));
  }

  /** The kind is None exactly for orders that are not subscriptions. */
  lemma SubscriptionTypeNone(skus: seq<string>, order: Fields)
    ensures SubscriptionType(skus, order) == Success(None) <==> IsSubscription(skus, order) == Success(false)
    ensures SubscriptionType(skus, order).Success? ==> IsSubscription(skus, order).Success?
  {
  }

  /** Item `i` is the first whose SKU names a kind. */
  predicate IsFirstKind(items: seq<Value>, i: int)
  {
    0 <= i < |items|
    && (forall j | 0 <= j < i :: SkuOf(items[j]).Success? && KindOfSku(SkuOf(items[j]).value).None?)
    && SkuOf(items[i]).Success? && KindOfSku(SkuOf(items[i]).value).Some?
  }

  /** The kind is monthly or quarterly; it is the kind of the first item
      whose SKU names one, and monthly when no item does. */
  lemma {:induction false} KindByItemsMeaning(items: seq<Value>)
    requires KindByItems(items).Success?
    ensures KindByItems(items).value == "monthly" || KindByItems(items).value == "quarterly"
    ensures forall i | IsFirstKind(items, i) :: Some(KindByItems(items).value) == KindOfSku(SkuOf(items[i]).value)
    ensures (forall i | 0 <= i < |items| :: !IsFirstKind(items, i)) ==> KindByItems(items).value == "monthly"
  {
    if items != [] {
      var rest := items[1..];
      var sku := SkuOf(items[0]).value;
      if KindOfSku(sku).None? {
        KindByItemsMeaning(rest);
        forall i | IsFirstKind(items, i)
          ensures Some(KindByItems(items).value) == KindOfSku(SkuOf(items[i]).value)
        {
          assert i != 0;
          assert items[i] == rest[i - 1];
          assert IsFirstKind(rest, i - 1) by {
            forall j | 0 <= j < i - 1
              ensures SkuOf(rest[j]).Success? && KindOfSku(SkuOf(rest[j]).value).None?
            {
              assert rest[j] == items[j + 1];
            }
          }
        }
        if forall i | 0 <= i < |items| :: !IsFirstKind(items, i) {
          forall i | 0 <= i < |rest| ensures !IsFirstKind(rest, i) {
            if IsFirstKind(rest, i) {
              assert rest[i] == items[i + 1];
              assert IsFirstKind(items, i + 1) by {
                forall j | 0 <= j < i + 1
                  ensures SkuOf(items[j]).Success? && KindOfSku(SkuOf(items[j]).value).None?
                {
                  if j > 0 { assert items[j] == rest[j - 1]; }
                }
              }
            }
          }
        }
      } else {
        assert IsFirstKind(items, 0);
        forall i | IsFirstKind(items, i)
          ensures Some(KindByItems(items).value) == KindOfSku(SkuOf(items[i]).value)
        {
          assert i == 0;
        }
      }
    }
  }

  // ---------------------------------------------------------------------
  // enrich_order
  // ---------------------------------------------------------------------

  /** `_decimal`: None is zero, a number keeps its value, anything else is
      `Decimal(str(value or "0"))`. A bool counts as an int, and
      `Decimal("True")` is invalid. */
  function DecimalOf(codec: Codec, v: Value): (r: Result<real>)
    ensures v.Null? ==> r == Success(0.0)
    ensures v.Int? ==> r == Success(v.i as real)
    ensures v.Float? ==> r == Success(v.f)
    ensures v.Decimal? ==> r == Success(v.d)
    ensures !Truthy(v) && !v.Bool? ==> r == Success(0.0)
    ensures v.Bool? ==> r.Failure?
  {
    match v
    case Null => Success(0.0)
    case Int(i) => Success(i as real)
    case Float(f) => Success(f)
    case Decimal(d) => Success(d)
    case Bool(b) => Failure(InvalidOperation("Decimal(str(bool))"))
    case Str(s) =>
      if s == "" then Success(0.0)
      else if codec.decimal(s).Some? then Success(codec.decimal(s).value)
      else Failure(InvalidOperation("invalid decimal string"))
    case List(items) => if items == [] then Success(0.0) else Failure(InvalidOperation("invalid decimal string"))
    case Dict(fields) => if fields == [] then Success(0.0) else Failure(InvalidOperation("invalid decimal string"))
  }

  /** Python's `a + b` on the numbers `sum` meets; anything else raises. */
  function Add(a: Value, b: Value): Result<Value>
  {
    match (a, b)
    case (Int(x), Int(y)) => Success(Int(x + y))
    case (Int(x), Bool(y)) => Success(Int(x + if y then 1 else 0))
    case (Int(x), Float(y)) => Success(Float(x as real + y))
    case (Int(x), Decimal(y)) => Success(Decimal(x as real + y))
    case (Float(x), Int(y)) => Success(Float(x + y as real))
    case (Float(x), Bool(y)) => Success(Float(x + if y then 1.0 else 0.0))
    case (Float(x), Float(y)) => Success(Float(x + y))
    case (Decimal(x), Int(y)) => Success(Decimal(x + y as real))
    case (Decimal(x), Bool(y)) => Success(Decimal(x + if y then 1.0 else 0.0))
    case (Decimal(x), Decimal(y)) => Success(Decimal(x + y))
    case _ => Failure(UnsupportedAdd)
  }

  /** `sum(item.get("quantity", 0) for item in items)`, continuing from the
      running total `acc`. */
  function QuantitySum(acc: Value, items: seq<Value>): Result<Value>
    decreases items
  {
    if items == [] then Success(acc)
    else
      match items[0]
      case Dict(f) =>
        (match Add(acc, GetOr(f, "quantity", Int(0)))
         case Failure(e) => Failure(e)
         case Success(next) => QuantitySum(next, items[1..]))
      case _ => Failure(NoGet)
  }

  /** `sum(item.get("quantity", 0) for item in order_data.get("line_items", []))`. */
  function TotalQuantityOf(order: Fields): Result<Value>
  {
    match LineItems(order)
    case Failure(e) => Failure(e)
    case Success(items) => QuantitySum(Int(0), items)
  }

  /** A line item whose quantity is an integer or missing. */
  predicate HasIntQuantity(item: Value)
  {
    item.Dict? && GetOr(item.fields, "quantity", Int(0)).Int?
  }

  /** The quantity of such an item, missing being 0. */
  function Quantity(item: Value): int
    requires HasIntQuantity(item)
  {
    GetOr(item.fields, "quantity", Int(0)).i
  }

  /** Every item has an integer (or missing) quantity. */
  predicate IntQuantities(items: seq<Value>)
  {
    items == [] || (HasIntQuantity(items[0]) && IntQuantities(items[1..]))
  }

  /** The total quantity of a run of such items. */
  function QuantityTotal(items: seq<Value>): int
    requires IntQuantities(items)
  {
    if items == [] then 0 else Quantity(items[0]) + QuantityTotal(items[1..])
  }

  /** With integer (or missing) quantities, the sum is the integer total. */
  lemma {:induction false} QuantitySumOfInts(acc: int, items: seq<Value>)
    requires IntQuantities(items)
    ensures QuantitySum(Int(acc), items) == Success(Int(acc + QuantityTotal(items)))
    decreases items
  {
    if items != [] {
      QuantitySumOfInts(acc + Quantity(items[0]), items[1..]);
    }
  }

  /** `len(v)`. */
  function LenOf(v: Value): Result<int>
  {
    if v.List? || v.Dict? || v.Str? then Success(Length(v))
    else Failure(TypeError("object has no len()"))
  }

  /** `order_data.get(key, {})` when it must be a dict to be read further. */
  function SubDict(d: Fields, key: string): Result<Fields>
  {
    match GetOr(d, key, Dict([]))
    case Dict(f) => Success(f)
    case _ => Failure(NoGet)
  }

  /** How each value of the enriched dict is computed. */
  datatype Source =
    | OrderField(key: string)                  // order_data.get(key)
    | OrderFieldOr(key: string, default: Value) // order_data.get(key, default)
    | CustomerField(key: string)               // customer.get(key)
    | ShippingField(key: string)               // shipping.get(key)
    | BillingField(key: string)                // billing.get(key)
    | OrderIdText                              // str(order_data.get("id"))
    | OrderNumberText                          // str(...) unless it is None
    | CustomerIdText                           // str(customer id) if truthy
    | CustomerPhone                            // customer phone or shipping phone
    | Money(key: string)                       // _decimal(order_data.get(key))
    | ShippingMoney                            // _decimal of the shop-money amount
    | JsonText(key: string)                    // json.dumps(order_data.get(key, []))
    | SubscriptionFlag
    | SubscriptionKind
    | LineItemCount
    | TotalQuantity
    | EventType
    | IngestedAt
    | Brand

  /** The inputs `enrich_order` takes besides the order: the configured
      SKUs, the event type, the clock reading and the brand. */
  datatype Env = Env(codec: Codec, skus: seq<string>, eventType: Value, ingestedAt: string, brand: string)

  /** The value of one entry, or the exception computing it raises. */
  function Eval(env: Env, order: Fields, src: Source): Result<Value>
  {
    match src
    case OrderField(k) => Success(GetOr(order, k, Null))
    case OrderFieldOr(k, d) => Success(GetOr(order, k, d))
    case CustomerField(k) =>
      (match SubDict(order, "customer") case Failure(e) => Failure(e) case Success(c) => Success(GetOr(c, k, Null)))
    case ShippingField(k) =>
      (match SubDict(order, "shipping_address") case Failure(e) => Failure(e) case Success(s) => Success(GetOr(s, k, Null)))
    case BillingField(k) =>
      (match SubDict(order, "billing_address") case Failure(e) => Failure(e) case Success(b) => Success(GetOr(b, k, Null)))
    case OrderIdText => Success(Str(env.codec.str(GetOr(order, "id", Null))))
    case OrderNumberText =>
      var n := GetOr(order, "order_number", Null);
      Success(if n.Null? then Null else Str(env.codec.str(n)))
    case CustomerIdText =>
      (match SubDict(order, "customer")
       case Failure(e) => Failure(e)
       case Success(c) =>
         var id := GetOr(c, "id", Null);
         Success(if Truthy(id) then Str(env.codec.str(id)) else Null))
    case CustomerPhone =>
      (match SubDict(order, "customer")
       case Failure(e) => Failure(e)
       case Success(c) =>
         if Truthy(GetOr(c, "phone", Null)) then Success(GetOr(c, "phone", Null))
         else
           match SubDict(order, "shipping_address")
           case Failure(e) => Failure(e)
           case Success(s) => Success(GetOr(s, "phone", Null)))
    case Money(k) =>
      (match DecimalOf(env.codec, GetOr(order, k, Null))
       case Failure(e) => Failure(e)
       case Success(d) => Success(Decimal(d)))
    case ShippingMoney =>
      (match SubDict(order, "total_shipping_price_set")
       case Failure(e) => Failure(e)
       case Success(priceSet) =>
         match SubDict(priceSet, "shop_money")
         case Failure(e) => Failure(e)
         case Success(money) =>
           match DecimalOf(env.codec, GetOr(money, "amount", Null))
           case Failure(e) => Failure(e)
           case Success(d) => Success(Decimal(d)))
    case JsonText(k) => Success(Str(env.codec.dumps(GetOr(order, k, List([])))))
    case SubscriptionFlag =>
      (match IsSubscription(env.skus, order) case Failure(e) => Failure(e) case Success(b) => Success(Bool(b)))
    case SubscriptionKind =>
      (match SubscriptionType(env.skus, order)
       case Failure(e) => Failure(e)
       case Success(None) => Success(Null)
       case Success(Some(kind)) => Success(Str(kind)))
    case LineItemCount =>
      (match LenOf(GetOr(order, "line_items", List([]))) case Failure(e) => Failure(e) case Success(n) => Success(Int(n)))
    case TotalQuantity => TotalQuantityOf(order)
    case EventType => Success(env.eventType)
    case IngestedAt => Success(Str(env.ingestedAt))
    case Brand => Success(Str(env.brand))
  }

  /** The entries of the dict literal up to `processing_method`, in the
      order it lists them. */
  const LayoutOrder: seq<(string, Source)> := [
    ("order_id", OrderIdText),
    ("order_number", OrderNumberText),
    ("created_at", OrderField("created_at")),
    ("updated_at", OrderField("updated_at")),
    ("processed_at", OrderField("processed_at")),
    ("closed_at", OrderField("closed_at")),
    ("customer_id", CustomerIdText),
    ("customer_email", CustomerField("email")),
    ("customer_first_name", CustomerField("first_name")),
    ("customer_last_name", CustomerField("last_name")),
    ("customer_phone", CustomerPhone),
    ("customer_created_at", CustomerField("created_at")),
    ("customer_orders_count", CustomerField("orders_count")),
    ("customer_total_spent", CustomerField("total_spent")),
    ("customer_tags", CustomerField("tags")),
    ("customer_accepts_marketing", CustomerField("accepts_marketing")),
    ("customer_marketing_opt_in_level", CustomerField("marketing_opt_in_level")),
    ("total_price", Money("total_price")),
    ("subtotal_price", Money("subtotal_price")),
    ("total_discounts", Money("total_discounts")),
    ("total_tax", Money("total_tax")),
    ("total_shipping", ShippingMoney),
    ("total_line_items_price", Money("total_line_items_price")),
    ("currency", OrderFieldOr("currency", Str("USD"))),
    ("financial_status", OrderField("financial_status")),
    ("fulfillment_status", OrderField("fulfillment_status")),
    ("cancelled_at", OrderField("cancelled_at")),
    ("cancel_reason", OrderField("cancel_reason")),
    ("confirmed", OrderField("confirmed")),
    ("test", OrderFieldOr("test", Bool(false))),
    ("shipping_city", ShippingField("city")),
    ("shipping_state", ShippingField("province")),
    ("shipping_zip", ShippingField("zip")),
    ("shipping_country", ShippingField("country")),
    ("shipping_address_1", ShippingField("address1")),
    ("shipping_address_2", ShippingField("address2")),
    ("shipping_company", ShippingField("company")),
    ("shipping_name", ShippingField("name")),
    ("billing_city", BillingField("city")),
    ("billing_state", BillingField("province")),
    ("billing_zip", BillingField("zip")),
    ("billing_country", BillingField("country")),
    ("billing_address_1", BillingField("address1")),
    ("billing_address_2", BillingField("address2")),
    ("billing_company", BillingField("company")),
    ("billing_name", BillingField("name")),
    ("source_name", OrderField("source_name")),
    ("source_identifier", OrderField("source_identifier")),
    ("source_url", OrderField("source_url")),
    ("referring_site", OrderField("referring_site")),
    ("landing_site", OrderField("landing_site")),
    ("landing_site_ref", OrderField("landing_site_ref")),
    ("checkout_token", OrderField("checkout_token")),
    ("cart_token", OrderField("cart_token")),
    ("discount_codes", JsonText("discount_codes")),
    ("discount_applications", JsonText("discount_applications")),
    ("tags", OrderFieldOr("tags", Str(""))),
    ("note", OrderField("note")),
    ("note_attributes", JsonText("note_attributes")),
    ("gateway", OrderField("gateway")),
    ("payment_gateway_names", JsonText("payment_gateway_names")),
    ("processing_method", OrderField("processing_method"))]

  /** The subscription flag and kind. */
  const LayoutSubscription: seq<(string, Source)> := [
    ("is_subscription", SubscriptionFlag),
    ("subscription_type", SubscriptionKind)]

  /** The JSON text of the fulfillments, refunds and line items. */
  const LayoutLines: seq<(string, Source)> := [
    ("fulfillments", JsonText("fulfillments")),
    ("refunds", JsonText("refunds")),
    ("line_items", JsonText("line_items"))]

  /** The two line-item counts. */
  const LayoutCounts: seq<(string, Source)> := [
    ("line_item_count", LineItemCount),
    ("total_quantity", TotalQuantity)]

  /** The entries after them. */
  const LayoutTail: seq<(string, Source)> := [
    ("event_type", EventType),
    ("_ingested_at", IngestedAt),
    ("_brand", Brand)]

  /** Every entry of the dict literal, in order. */
  function Layout(): seq<(string, Source)>
  {
    LayoutOrder + LayoutSubscription + LayoutLines + LayoutCounts + LayoutTail
  }

  /** The layout regrouped around the subscription entries. */
  lemma LayoutAround()
    ensures Layout() == LayoutOrder + LayoutSubscription + (LayoutLines + LayoutCounts + LayoutTail)
  {
  }

  /** The dict literal evaluated entry by entry: the first exception wins. */
  function EvalAll(env: Env, order: Fields, layout: seq<(string, Source)>): (r: Result<Fields>)
    ensures r.Success? <==> forall i | 0 <= i < |layout| :: Eval(env, order, layout[i].1).Success?
    ensures r.Success? ==> |r.value| == |layout|
    ensures r.Success? ==> forall i | 0 <= i < |layout| ::
      r.value[i] == (layout[i].0, Eval(env, order, layout[i].1).value)
    ensures r.Failure? ==> exists i | 0 <= i < |layout| ::
      && Eval(env, order, layout[i].1) == Failure(r.error)
      && forall j | 0 <= j < i :: Eval(env, order, layout[j].1).Success?
  {
    if layout == [] then Success([])
    else
      match Eval(env, order, layout[0].1)
      case Failure(e) => Failure(e)
      case Success(v) =>
        assert forall i | 1 <= i < |layout| :: layout[1..][i - 1] == layout[i];
        match EvalAll(env, order, layout[1..])
        case Failure(e) =>
          assert exists i | 1 <= i < |layout| ::
            && Eval(env, order, layout[i].1) == Failure(e)
            && forall j | 0 <= j < i :: Eval(env, order, layout[j].1).Success?;
          Failure(e)
        case Success(rest) => Success([(layout[0].0, v)] + rest)
  }

  /** `{k: v for k, v in enriched.items() if v is not None}`. */
  function DropNone(d: Fields): (r: Fields)
    ensures |r| <= |d|
    ensures forall p :: p in r <==> p in d && p.1 != Null
  {
    if d == [] then []
    else if d[0].1 == Null then DropNone(d[1..])
    else [d[0]] + DropNone(d[1..])
  }

  /** `enrich_order`. */
  function EnrichOrder(env: Env, order: Fields): (r: Result<Fields>)
    ensures r.Success? ==> forall i | 0 <= i < |r.value| :: r.value[i].1 != Null
  {
    match EvalAll(env, order, Layout())
    case Failure(e) => Failure(e)
    case Success(entries) =>
      var r := DropNone(entries);
      assert forall i | 0 <= i < |r| :: r[i] in entries;
      Success(r)
  }

  /** Evaluating a layout made of three parts succeeds only if the middle
      part does, and every entry of the middle part is in the result. */
  lemma {:induction false} EvalAllMiddle(env: Env, order: Fields, a: seq<(string, Source)>,
                                         b: seq<(string, Source)>, c: seq<(string, Source)>)
    requires EvalAll(env, order, a + b + c).Success?
    ensures EvalAll(env, order, b).Success?
    ensures forall p | p in EvalAll(env, order, b).value :: p in EvalAll(env, order, a + b + c).value
  {
    if a == [] {
      assert a + b + c == b + c;
      EvalAllPrefix(env, order, b, c);
    } else {
      assert (a + b + c)[1..] == a[1..] + b + c;
      EvalAllMiddle(env, order, a[1..], b, c);
    }
  }

  /** A successful enrichment keeps every non-null entry of a run of the
      layout. */
  lemma EnrichedMiddle(env: Env, order: Fields, a: seq<(string, Source)>,
                       b: seq<(string, Source)>, c: seq<(string, Source)>)
    requires Layout() == a + b + c
    requires EnrichOrder(env, order).Success?
    ensures EvalAll(env, order, b).Success?
    ensures forall p | p in EvalAll(env, order, b).value && p.1 != Null :: p in EnrichOrder(env, order).value
  {
    EvalAllMiddle(env, order, a, b, c);
  }

  /** Evaluating `b + c` with success evaluates `b` first, to a prefix of
      the result. */
  lemma {:induction false} EvalAllPrefix(env: Env, order: Fields, b: seq<(string, Source)>, c: seq<(string, Source)>)
    requires EvalAll(env, order, b + c).Success?
    ensures EvalAll(env, order, b).Success?
    ensures forall p | p in EvalAll(env, order, b).value :: p in EvalAll(env, order, b + c).value
  {
    if b != [] {
      assert (b + c)[1..] == b[1..] + c;
      EvalAllPrefix(env, order, b[1..], c);
    }
  }

  /** The two line-item count entries, for integer (or missing)
      quantities. */
  lemma CountEntries(env: Env, order: Fields)
    requires EvalAll(env, order, LayoutCounts).Success?
    requires GetOr(order, "line_items", List([])).List?
    requires IntQuantities(LineItems(order).value)
    ensures ("line_item_count", Int(|LineItems(order).value|)) in EvalAll(env, order, LayoutCounts).value
    ensures ("total_quantity", Int(QuantityTotal(LineItems(order).value))) in EvalAll(env, order, LayoutCounts).value
  {
    var items := LineItems(order).value;
    var entries := EvalAll(env, order, LayoutCounts).value;
    EvalLineItemCount(env, order);
    EvalTotalQuantity(env, order);
    TotalQuantityOfInts(order);
    assert entries[0] == ("line_item_count", Int(|items|));
    assert entries[1] == ("total_quantity", Int(QuantityTotal(items)));
  }

  lemma EvalLineItemCount(env: Env, order: Fields)
    requires GetOr(order, "line_items", List([])).List?
    ensures Eval(env, order, LineItemCount) == Success(Int(|LineItems(order).value|))
  {
  }

  lemma EvalTotalQuantity(env: Env, order: Fields)
    ensures Eval(env, order, TotalQuantity) == TotalQuantityOf(order)
  {
  }

  /** With integer (or missing) quantities the order's total quantity is
      their integer sum. */
  lemma TotalQuantityOfInts(order: Fields)
    requires GetOr(order, "line_items", List([])).List?
    requires IntQuantities(LineItems(order).value)
    ensures TotalQuantityOf(order) == Success(Int(QuantityTotal(LineItems(order).value)))
  {
    TotalQuantityOfItems(order, LineItems(order).value);
  }

  lemma TotalQuantityOfItems(order: Fields, items: seq<Value>)
    requires LineItems(order) == Success(items)
    requires IntQuantities(items)
    ensures TotalQuantityOf(order) == Success(Int(QuantityTotal(items)))
  {
    TotalQuantityUnfold(order, items);
    QuantitySumOfInts(0, items);
  }

  lemma TotalQuantityUnfold(order: Fields, items: seq<Value>)
    requires LineItems(order) == Success(items)
    ensures TotalQuantityOf(order) == QuantitySum(Int(0), items)
  {
  }

  /** The subscription flag and kind entries. */
  lemma SubscriptionEntries(env: Env, order: Fields)
    requires EvalAll(env, order, LayoutSubscription).Success?
    ensures IsSubscription(env.skus, order).Success? && SubscriptionType(env.skus, order).Success?
    ensures EvalAll(env, order, LayoutSubscription).value == [
      ("is_subscription", Bool(IsSubscription(env.skus, order).value)),
      ("subscription_type",
        if IsSubscription(env.skus, order).value then Str(SubscriptionType(env.skus, order).value.value) else Null)]
    ensures IsSubscription(env.skus, order).value <==> SubscriptionType(env.skus, order).value.Some?
  {
  }

  /** The enriched record counts the line items and totals their
      quantities, missing quantities counting 0. */
  lemma EnrichedCounts(env: Env, order: Fields)
    requires EnrichOrder(env, order).Success?
    requires GetOr(order, "line_items", List([])).List?
    requires IntQuantities(LineItems(order).value)
    ensures ("line_item_count", Int(|LineItems(order).value|)) in EnrichOrder(env, order).value
    ensures ("total_quantity", Int(QuantityTotal(LineItems(order).value))) in EnrichOrder(env, order).value
  {
    EnrichedMiddle(env, order, LayoutOrder + LayoutSubscription + LayoutLines, LayoutCounts, LayoutTail);
    CountEntries(env, order);
  }

  /** The subscription flag is always stored, and the kind exactly for
      subscriptions. */
  lemma EnrichedSubscription(env: Env, order: Fields)
    requires EnrichOrder(env, order).Success?
    ensures IsSubscription(env.skus, order).Success?
    ensures ("is_subscription", Bool(IsSubscription(env.skus, order).value)) in EnrichOrder(env, order).value
    ensures IsSubscription(env.skus, order).value <==>
      SubscriptionType(env.skus, order).Success? && SubscriptionType(env.skus, order).value.Some?
      && ("subscription_type", Str(SubscriptionType(env.skus, order).value.value)) in EnrichOrder(env, order).value
  {
    LayoutAround();
    EnrichedMiddle(env, order, LayoutOrder, LayoutSubscription, LayoutLines + LayoutCounts + LayoutTail);
    SubscriptionEntries(env, order);
  }

  // ---------------------------------------------------------------------
  // is_recent_order
  // ---------------------------------------------------------------------

  /** `is_recent_order` at the instant `now`: an order without a creation
      time, or with one `fromisoformat` rejects, is recent; otherwise it is
      recent when created no earlier than `ttlDays` days before `now`. A
      naive creation time cannot be compared with the aware clock. */
  function IsRecent(parseIso: string -> Option<Timezones.Timestamp>, order: Fields, now: int, ttlDays: int)
    : (r: Result<bool>)
    ensures !Truthy(GetOr(order, "created_at", Null)) ==> r == Success(true)
    ensures var c := GetOr(order, "created_at", Null);
      Truthy(c) && c.Str? && parseIso(Text.ReplaceChar(c.s, 'Z', "+00:00")).None? ==> r == Success(true)
    ensures var c := GetOr(order, "created_at", Null);
      Truthy(c) && c.Str? && parseIso(Text.ReplaceChar(c.s, 'Z', "+00:00")).Some? ==>
        var t := parseIso(Text.ReplaceChar(c.s, 'Z', "+00:00")).value;
        && (t.Aware? ==> r == Success(t.instant >= now - ttlDays * Timezones.SecondsPerDay))
        && (t.Naive? ==> r == Failure(NaiveAwareCompare))
    ensures var c := GetOr(order, "created_at", Null);
      Truthy(c) && !c.Str? ==> r == Failure(NoReplace)
  {
    var created := GetOr(order, "created_at", Null);
    if !Truthy(created) then Success(true)
    else
      match created
      case Str(s) =>
        (match parseIso(Text.ReplaceChar(s, 'Z', "+00:00"))
         case None => Success(true)
         case Some(Aware(t)) => Success(t >= now - ttlDays * Timezones.SecondsPerDay)
         case Some(Naive(_)) => Failure(NaiveAwareCompare))
      case _ => Failure(NoReplace)
  }

  /** Recency only gets harder to meet as the clock advances or the TTL
      shrinks: an order recent later, or under a shorter TTL, is recent now,
      and one too old now stays too old. */
  lemma RecentWindow(parseIso: string -> Option<Timezones.Timestamp>, order: Fields, now: int, ttlDays: int,
                     later: int, shorter: int)
    requires now <= later && shorter <= ttlDays
    ensures IsRecent(parseIso, order, later, shorter) == Success(true) ==>
      IsRecent(parseIso, order, now, ttlDays) == Success(true)
    ensures IsRecent(parseIso, order, now, ttlDays) == Success(false) ==>
      IsRecent(parseIso, order, later, shorter) == Success(false)
  {
    var created := GetOr(order, "created_at", Null);
    if Truthy(created) && created.Str? {
      assert shorter * Timezones.SecondsPerDay <= ttlDays * Timezones.SecondsPerDay;
    }
  }
}
