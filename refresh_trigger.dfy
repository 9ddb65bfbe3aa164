/** The Triple Whale refresh trigger: the request payload merged from the
    body and the query string, the date range it resolves to, and the HTTP
    response built from the outcome of starting the refresh. Starting the
    state machine is not part of this model; its outcome is an input. */
module RefreshTrigger {
  import opened Wrappers
  import opened Json
  import Calendar

  /** An element of an update sequence that is not of length two. */
  const WrongPairLength := ValueError("dictionary update sequence element has wrong length")

  /** A non-empty string given to `dict.update`: its elements are one-character strings. */
  const LengthOnePair := ValueError("dictionary update sequence element has length 1; 2 is required")

  /** An element of an update sequence that is not iterable. */
  const NotAPair := TypeError("cannot convert dictionary update sequence element to a sequence")

  // ---------------------------------------------------------------------
  // _parse_payload
  // ---------------------------------------------------------------------

  /** One element of a sequence given to `dict.update`: it must be a pair
      (a two-element list, a two-character string or a two-key dict, whose
      iteration yields the pair), and its key must be hashable. */
  function PairOf(item: Value): Result<(string, Value)>
  {
    match item
    case List(xs) =>
      if |xs| != 2 then Failure(WrongPairLength)
      else (match xs[0]
            case Str(k) => Success((k, xs[1]))
            case List(_) => Failure(UnhashableList)
            case Dict(_) => Failure(UnhashableDict)
            case _ => Failure(TypeError("non-string key")))
    case Str(s) =>
      if |s| != 2 then Failure(WrongPairLength)
      else Success(([s[0]], Str([s[1]])))
    case Dict(f) =>
      if |f| != 2 then Failure(WrongPairLength)
      else Success((f[0].0, Str(f[1].0)))
    case _ => Failure(NotAPair)
  }

  /** The pairs of a list given to `dict.update`, or the first error. */
  function PairsOf(items: seq<Value>): (r: Result<Fields>)
    ensures r.Success? ==> (|r.value| == |items|
      && forall k | 0 <= k < |items| :: Success(r.value[k]) == PairOf(items[k]))
  {
    if items == [] then Success([])
    else
      match PairOf(items[0])
      case Failure(e) => Failure(e)
      case Success(p) =>
        match PairsOf(items[1..])
        case Failure(e) => Failure(e)
        case Success(rest) => Success([p] + rest)
  }

  /** What `payload.update(v)` assigns for a decoded JSON value `v`: a dict
      its pairs, a list its pairs; a string is a sequence of one-character
      strings, so only the empty string is accepted; anything else is not
      iterable. */
  function UpdateSource(v: Value): (r: Result<Fields>)
    ensures v.Dict? ==> r == Success(v.fields)
    ensures v.Null? || v.Bool? || v.Int? || v.Float? || v.Decimal? ==> r.Failure?
  {
    match v
    case Dict(f) => Success(f)
    case List(items) => PairsOf(items)
    case Str(s) =>
      if s == [] then Success([]) else Failure(LengthOnePair)
    case _ => Failure(NotIterable)
  }

  /** The payload after the body has been merged in. */
  function BodyPayload(codec: Codec, event: Fields): Result<Fields>
  {
    match GetOr(event, "body", Null)
    case Str(s) =>
      if s == "" then Success([])
      else
        (match codec.loads(s)
         case None => Success([])
         case Some(v) => UpdateSource(v))
    case Dict(f) => Success(f)
    case _ => Success([])
  }

  /** The payload after the query-string dates have filled the keys the
      body left unset. */
  function QueryPayload(payload: Fields, event: Fields): Fields
  {
    match Or(GetOr(event, "queryStringParameters", Null), Dict([]))
    case Dict(qs) =>
      SetDefault(SetDefault(payload, "start_date", GetOr(qs, "start_date", Null)),
                 "end_date", GetOr(qs, "end_date", Null))
    case _ => payload
  }

  /** What `_parse_payload` returns or raises. */
  function Payload(codec: Codec, event: Fields): Result<Fields>
  {
    match BodyPayload(codec, event)
    case Failure(e) => Failure(e)
    case Success(p) => Success(QueryPayload(Update([], p), event))
  }

  /** `_parse_payload`: an empty payload updated from the body, then given
      the query-string dates as defaults. */
  method ParsePayload(codec: Codec, event: Fields) returns (r: Result<Fields>)
    ensures r == Payload(codec, event)
  {
    var merged := MergeBody(codec, event);
    if merged.Failure? {
      return Failure(merged.error);
    }
    var payload := MergeQuery(merged.value, event);
    r := Success(payload);
  }

  /** The first half of `_parse_payload`: the empty payload updated from a
      non-empty string body that decodes, or from a dict body. */
  method MergeBody(codec: Codec, event: Fields) returns (r: Result<Fields>)
    ensures BodyPayload(codec, event).Failure? ==> r == BodyPayload(codec, event)
    ensures BodyPayload(codec, event).Success? ==> r == Success(Update([], BodyPayload(codec, event).value))
  {
    var payload: Fields := [];
    var body := GetOr(event, "body", Null);
    if body.Str? && body.s != "" {
      match codec.loads(body.s) {
        case None =>
        case Some(v) =>
          match UpdateSource(v) {
            case Failure(e) => return Failure(e);
            case Success(pairs) => payload := Update(payload, pairs);
          }
      }
    } else if body.Dict? {
      payload := Update(payload, body.fields);
    }
    r := Success(payload);
  }

  /** The second half of `_parse_payload`: the query-string dates, when the
      query string is a dict or missing, set where the payload lacks them. */
  method MergeQuery(payload: Fields, event: Fields) returns (r: Fields)
    ensures r == QueryPayload(payload, event)
  {
    r := payload;
    var qs := Or(GetOr(event, "queryStringParameters", Null), Dict([]));
    if qs.Dict? {
      r := SetDefault(r, "start_date", GetOr(qs.fields, "start_date", Null));
      r := SetDefault(r, "end_date", GetOr(qs.fields, "end_date", Null));
    }
  }

  /** A key the body sets keeps the body's last value for it; a date the
      body leaves unset comes from the query string, as None when the query
      string lacks it, whenever the query string is a dict or missing. */
  lemma PayloadDate(codec: Codec, event: Fields, key: string)
    requires key == "start_date" || key == "end_date"
    requires BodyPayload(codec, event).Success?
    ensures Payload(codec, event).Success?
    ensures var body := BodyPayload(codec, event).value;
      var qs := Or(GetOr(event, "queryStringParameters", Null), Dict([]));
      && (LastGet(body, key).Some? ==> Get(Payload(codec, event).value, key) == LastGet(body, key))
      && (LastGet(body, key).None? && qs.Dict? ==>
            Get(Payload(codec, event).value, key) == Some(GetOr(qs.fields, key, Null)))
      && (LastGet(body, key).None? && !qs.Dict? ==> Get(Payload(codec, event).value, key) == None)
  {
    var body := BodyPayload(codec, event).value;
    var merged := Update([], body);
    GetOfUpdate([], body, key);
    var qs := Or(GetOr(event, "queryStringParameters", Null), Dict([]));
    if qs.Dict? {
      var first := SetDefault(merged, "start_date", GetOr(qs.fields, "start_date", Null));
      SetDefaultGet(merged, "start_date", GetOr(qs.fields, "start_date", Null), key);
      SetDefaultGet(first, "end_date", GetOr(qs.fields, "end_date", Null), key);
    }
  }

  /** Looking a key up after `setdefault`. */
  lemma SetDefaultGet(d: Fields, k: string, v: Value, key: string)
    ensures Get(SetDefault(d, k, v), key) == if key == k && !HasKey(d, k) then Some(v) else Get(d, key)
  {
  }

  /** A body that is not valid JSON is ignored: the payload holds only the
      query-string dates. */
  lemma InvalidJsonBodyIgnored(codec: Codec, event: Fields)
    requires GetOr(event, "body", Null).Str? && codec.loads(GetOr(event, "body", Null).s).None?
    ensures Payload(codec, event) == Success(QueryPayload([], event))
  {
  }

  // ---------------------------------------------------------------------
  // _resolve_dates
  // ---------------------------------------------------------------------

  /** `_resolve_dates` on the day `today` (days since the epoch): both dates
      as `str` when both are truthy, otherwise yesterday's ISO date twice. */
  function ResolveDates(codec: Codec, payload: Fields, today: int): (r: (string, string))
  {
    var start := GetOr(payload, "start_date", Null);
    var end := GetOr(payload, "end_date", Null);
    if Truthy(start) && Truthy(end) then (codec.str(start), codec.str(end))
    else
      var iso := Calendar.IsoDate(Calendar.CivilFromDays(today - 1));
      (iso, iso)
  }

  /** Dates given in full are kept, as text when they are strings;
      otherwise the range is the single day before `today`, even when one
      of the two dates was given. */
  lemma ResolveDatesMeaning(codec: Codec, payload: Fields, today: int)
    requires codec.Valid()
    ensures var start := GetOr(payload, "start_date", Null);
      var end := GetOr(payload, "end_date", Null);
      && (start.Str? && end.Str? && start.s != "" && end.s != "" ==> ResolveDates(codec, payload, today) == (start.s, end.s))
      && (!Truthy(start) || !Truthy(end) ==>
            ResolveDates(codec, payload, today).0 == ResolveDates(codec, payload, today).1
            == Calendar.IsoDate(Calendar.CivilFromDays(today - 1)))
  {
  }

  /** On 2024-10-14 (day 20010) a request without dates refreshes
      2024-10-13. */
  lemma ResolveDatesExample(codec: Codec)
    ensures ResolveDates(codec, [], 20010) == ("2024-10-13", "2024-10-13")
  {
    Calendar.ExampleDay();
    Calendar.ExampleLabels();
  }

  // ---------------------------------------------------------------------
  // _response and lambda_handler
  // ---------------------------------------------------------------------

  /** The headers every response carries. */
  const ResponseHeaders: Fields := [
    ("Content-Type", Str("application/json")),
    ("Access-Control-Allow-Origin", Str("*"))]

  /** `_response(status_code, body)`. */
  function Response(codec: Codec, statusCode: int, body: Fields): (r: Fields)
    ensures Get(r, "statusCode") == Some(Int(statusCode))
    ensures Get(r, "headers") == Some(Dict(ResponseHeaders))
    ensures Get(r, "body") == Some(Str(codec.dumps(Dict(body))))
    ensures |r| == 3 && DistinctKeys(r)
  {
    var r := [("statusCode", Int(statusCode)), ("headers", Dict(ResponseHeaders)), ("body", Str(codec.dumps(Dict(body))))];
    assert KeyAt(r, 0) == "statusCode" && KeyAt(r, 1) == "headers" && KeyAt(r, 2) == "body";
    r
  }

  /** How starting the state machine ended: with the execution's ARN, or
      with an exception whose text is `message`. */
  datatype StartOutcome = Started(executionArn: string) | Raised(message: string)

  /** The body of the response to a refresh that started. */
  function StartedBody(executionArn: string, dates: (string, string)): Fields
  {
    [("message", Str("Refresh started")),
     ("executionArn", Str(executionArn)),
     ("start_date", Str(dates.0)),
     ("end_date", Str(dates.1))]
  }

  /** `lambda_handler` after `_start_execution` has run with the resolved
      dates and ended with `outcome`. */
  function Handle(codec: Codec, event: Fields, today: int, outcome: StartOutcome): Result<Fields>
  {
    match Payload(codec, event)
    case Failure(e) => Failure(e)
    case Success(payload) =>
      var dates := ResolveDates(codec, payload, today);
      match outcome
      case Raised(message) => Success(Response(codec, 500, [("error", Str(message))]))
      case Started(arn) => Success(Response(codec, 202, StartedBody(arn, dates)))
  }

  /** The status is 202 exactly when the execution started and 500 exactly
      when starting it raised; either way the JSON and CORS headers are
      present; a started refresh reports the resolved dates, and a failed
      start reports the exception's text under "error". */
  lemma HandleStatus(codec: Codec, event: Fields, today: int, outcome: StartOutcome)
    requires Payload(codec, event).Success?
    ensures Handle(codec, event, today, outcome).Success?
    ensures Get(Handle(codec, event, today, outcome).value, "statusCode") == Some(Int(202)) <==> outcome.Started?
    ensures Get(Handle(codec, event, today, outcome).value, "statusCode") == Some(Int(500)) <==> outcome.Raised?
    ensures Get(Handle(codec, event, today, outcome).value, "headers") == Some(Dict(ResponseHeaders))
    ensures outcome.Started? ==>
      Get(Handle(codec, event, today, outcome).value, "body")
      == Some(Str(codec.dumps(Dict(StartedBody(outcome.executionArn,
                                               ResolveDates(codec, Payload(codec, event).value, today))))))
    ensures outcome.Raised? ==>
      Get(Handle(codec, event, today, outcome).value, "body")
      == Some(Str(codec.dumps(Dict([("error", Str(outcome.message))]))))
  {
  }
}
