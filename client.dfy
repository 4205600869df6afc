/**
 * The helpers of `RParifClient`: the two relative-day resolvers, the two
 * field accessors, the outcome of one HTTP query and the endpoint URLs.
 * The current date is a parameter `today` instead of a clock reading.
 */
module Client {
  import opened Wrappers
  import opened Json
  import opened Dates
  import opened Errors
  import opened Objects

  /** The configuration of a client: its API key and the base URL of the service. */
  datatype RParifClient = RParifClient(apiKey: string, baseUrl: string)

  // ----- Relative days -----

  /**
   * The three relative-day tokens of the service, as `index_day` writes them:
   * non-empty and made of lower-case letters only, so they need no escaping
   * inside a query string.
   */
  function DayToken(day: Day): (token: string)
    ensures |token| > 0 && forall i :: 0 <= i < |token| ==> 'a' <= token[i] <= 'z'
  {
    match day
    case Yesterday => "hier"
    case Today => "jour"
    case Tomorrow => "demain"
  }

  /** The calendar date a relative day denotes. */
  function Resolve(day: Day, today: Date): (d: Date)
    requires Valid(today)
    ensures Valid(d)
  {
    match day
    case Yesterday => Pred(today)
    case Today => today
    case Tomorrow => Succ(today)
  }

  /** `convert_json_to_date`: a JSON string holding a day token; the error carries the dumped value. */
  function JsonToDate(value: JsonValue, today: Date): (r: Result<Date, RParifError>)
    requires Valid(today)
    ensures r.Err? ==> r.error == UnexpectedDate(Dump(value))
  {
    if value == Str("hier") then Ok(Pred(today))
    else if value == Str("demain") then Ok(Succ(today))
    else if value == Str("jour") then Ok(today)
    else Err(UnexpectedDate(Dump(value)))
  }

  /** `convert_string_to_date`: the same tokens as a plain string; the error carries the raw string. */
  function StringToDate(value: string, today: Date): (r: Result<Date, RParifError>)
    requires Valid(today)
    ensures r.Err? ==> r.error == UnexpectedDate(value)
  {
    if value == "hier" then Ok(Pred(today))
    else if value == "demain" then Ok(Succ(today))
    else if value == "jour" then Ok(today)
    else Err(UnexpectedDate(value))
  }

  /**
   * The resolver accepts exactly the three tokens of `DayToken` and maps each
   * to its day: `hier` to yesterday, `jour` to today, `demain` to tomorrow.
   */
  lemma StringToDateResolvesTokens(value: string, today: Date)
    requires Valid(today)
    ensures StringToDate(value, today).Ok? <==> value in {DayToken(Yesterday), DayToken(Today), DayToken(Tomorrow)}
    ensures forall day: Day :: DayToken(day) == value ==> StringToDate(value, today) == Ok(Resolve(day, today))
  {
  }

  /**
   * The JSON resolver agrees with the string resolver on JSON strings, fails
   * on every other kind of value, and reports the dump where the string
   * resolver reports the raw text.
   */
  lemma JsonToDateAgrees(value: JsonValue, today: Date)
    requires Valid(today)
    ensures value.Str? && StringToDate(value.s, today).Ok? ==> JsonToDate(value, today) == StringToDate(value.s, today)
    ensures value.Str? && StringToDate(value.s, today).Err? ==> JsonToDate(value, today) == Err(UnexpectedDate(Dump(value)))
    ensures !value.Str? ==> JsonToDate(value, today) == Err(UnexpectedDate(Dump(value)))
  {
  }

  // ----- Field accessors -----

  /** `as_u32().unwrap()` does not panic on the member `key`: absent, not a number, or a `u32`. */
  predicate NumberFits(json: JsonValue, key: string) {
    Get(json, key).Number? ==> 0 <= Get(json, key).n < 0x1_0000_0000
  }

  /** `get_number_value`. */
  function GetNumberValue(key: string, json: JsonValue): (r: Result<u32, RParifError>)
    requires NumberFits(json, key)
    ensures !HasKey(json, key) ==> r == Err(MissingJsonKey(key, Dump(json)))
    ensures HasKey(json, key) && !Get(json, key).Number? ==> r == Err(WrongJsonType("number", Dump(Get(json, key))))
    ensures HasKey(json, key) && Get(json, key).Number? ==> r == Ok(Get(json, key).n)
  {
    if !HasKey(json, key) then
      Err(MissingJsonKey(key, Dump(json)))
    else if !Get(json, key).Number? then
      Err(WrongJsonType("number", Dump(Get(json, key))))
    else
      Ok(Get(json, key).n)
  }

  /** `get_string_value`. */
  function GetStringValue(key: string, json: JsonValue): (r: Result<string, RParifError>)
    ensures !HasKey(json, key) ==> r == Err(MissingJsonKey(key, Dump(json)))
    ensures HasKey(json, key) && !Get(json, key).Str? ==> r == Err(WrongJsonType("string", Dump(Get(json, key))))
    ensures HasKey(json, key) && Get(json, key).Str? ==> r == Ok(Get(json, key).s)
  {
    if !HasKey(json, key) then
      Err(MissingJsonKey(key, Dump(json)))
    else if !Get(json, key).Str? then
      Err(WrongJsonType("string", Dump(Get(json, key))))
    else
      Ok(Get(json, key).s)
  }

  /** On a parsed object the number accessor succeeds exactly on a numeric member of that name. */
  lemma GetNumberValueFindsMember(key: string, json: JsonValue, n: u32)
    requires UniqueKeys(json) && NumberFits(json, key)
    ensures GetNumberValue(key, json) == Ok(n) <==> json.Object? && (key, Number(n)) in json.members
  {
    if json.Object? {
      GetMember(json, key, Number(n));
    }
  }

  /** On a parsed object the string accessor succeeds exactly on a string member of that name. */
  lemma GetStringValueFindsMember(key: string, json: JsonValue, s: string)
    requires UniqueKeys(json)
    ensures GetStringValue(key, json) == Ok(s) <==> json.Object? && (key, Str(s)) in json.members
  {
    if json.Object? {
      GetMember(json, key, Str(s));
    }
  }

  // ----- One HTTP query -----

  /** What the HTTP library reports for a sent request: the status and the outcome of reading the body. */
  datatype Response = Response(status: u16, text: Result<string, RequestFailure>)

  /** `StatusCode::is_success`. */
  predicate IsSuccess(status: u16) {
    200 <= status < 300
  }

  /** The HTTP library seen from the client: what sending a GET of a URL produces. */
  type Transport = string -> Result<Response, RequestFailure>

  /** The JSON parser `json::parse`. */
  type Parser = string -> Result<JsonValue, JsonFailure>

  /**
   * `execute_query`: the outcome of a GET of `url` sent through `send`, with
   * the body text handed to the JSON parser `parse`.
   */
  function ExecuteQuery(url: string, send: Transport, parse: Parser): (r: Result<JsonValue, RParifError>)
    ensures r.Err? ==> r.error.RequestError? || r.error.JsonError? || r.error.CallError?
  {
    match send(url)
    case Err(e) => Err(FromRequestError(e))
    case Ok(response) =>
      match response.text
      case Err(e) => Err(FromRequestError(e))
      case Ok(text) =>
        match parse(text)
        case Err(e) => Err(FromJsonError(e))
        case Ok(data) =>
          if IsSuccess(response.status) then Ok(data)
          else Err(CallError(url, Dump(data), response.status))
  }

  /**
   * The precedence of the outcomes: a transport failure (sending or reading
   * the body) wins, then a malformed body even on a failing status, then a
   * non-2xx status; only a well-formed body with a 2xx status succeeds.
   */
  lemma ExecuteQueryPrecedence(url: string, send: Transport, parse: Parser)
    ensures var sent := send(url); var r := ExecuteQuery(url, send, parse);
      && (sent.Err? ==> r == Err(RequestError(sent.error)))
      && (sent.Ok? && sent.value.text.Err? ==> r == Err(RequestError(sent.value.text.error)))
      && (sent.Ok? && sent.value.text.Ok? && parse(sent.value.text.value).Err? ==>
            r == Err(JsonError(parse(sent.value.text.value).error)))
      && (r.Ok? <==> sent.Ok? && sent.value.text.Ok? && parse(sent.value.text.value).Ok? && IsSuccess(sent.value.status))
      && (r.Ok? ==> r.value == parse(sent.value.text.value).value)
      && (r.Err? && r.error.CallError? <==>
            sent.Ok? && sent.value.text.Ok? && parse(sent.value.text.value).Ok? && !IsSuccess(sent.value.status))
      && (r.Err? && r.error.CallError? ==>
            r.error == CallError(url, Dump(parse(sent.value.text.value).value), sent.value.status))
  {
  }

  // ----- Endpoint URLs -----

  /** `Vec::join(sep)`: the joined text starts with the first part and ends with the last. */
  function Join(parts: seq<string>, sep: string): (r: string)
    ensures |parts| >= 1 ==> ContainsAt(r, parts[0], 0) && EndsWith(r, parts[|parts| - 1])
  {
    if parts == [] then ""
    else if |parts| == 1 then parts[0]
    else
      var rest := Join(parts[1..], sep);
      assert parts[1..][|parts| - 2] == parts[|parts| - 1];
      TwoParts(parts[0], sep + rest);
      EndsWithExtended(parts[0] + sep, rest, parts[|parts| - 1]);
      parts[0] + sep + rest
  }

  /** The credential query parameter, `key=<api_key>`. */
  function KeyParam(c: RParifClient): string {
    "key=" + c.apiKey
  }

  /** The URL of `index`: the base URL, then the `indice` path. */
  function IndexUrl(c: RParifClient): (url: string)
    ensures ContainsAt(url, c.baseUrl, 0) && ContainsAt(url, "/indice?", |c.baseUrl|)
  {
    var url := c.baseUrl + "/indice?" + KeyParam(c);
    assert url[..|c.baseUrl|] == c.baseUrl;
    assert url[|c.baseUrl|..|c.baseUrl| + 8] == "/indice?";
    url
  }

  /** The URL of `index_day`: the base URL, the `indiceJour` path, then the day's token as `date`. */
  function IndexDayUrl(c: RParifClient, day: Day): (url: string)
    ensures ContainsAt(url, c.baseUrl, 0) && ContainsAt(url, "/indiceJour?date=", |c.baseUrl|)
    ensures ContainsAt(url, DayToken(day), |c.baseUrl| + 17)
  {
    var url := c.baseUrl + "/indiceJour?date=" + DayToken(day) + "&" + KeyParam(c);
    assert url[..|c.baseUrl|] == c.baseUrl;
    assert url[|c.baseUrl|..|c.baseUrl| + 17] == "/indiceJour?date=";
    assert url[|c.baseUrl| + 17..|c.baseUrl| + 17 + |DayToken(day)|] == DayToken(day);
    url
  }

  /** The URL of `index_city`: the base URL, the `idxville` path, then the joined codes as `villes`. */
  function IndexCityUrl(c: RParifClient, cities: seq<string>): (url: string)
    ensures ContainsAt(url, c.baseUrl, 0) && ContainsAt(url, "/idxville?villes=", |c.baseUrl|)
    ensures ContainsAt(url, Join(cities, ","), |c.baseUrl| + 17)
  {
    var url := c.baseUrl + "/idxville?villes=" + Join(cities, ",") + "&" + KeyParam(c);
    assert url[..|c.baseUrl|] == c.baseUrl;
    assert url[|c.baseUrl|..|c.baseUrl| + 17] == "/idxville?villes=";
    assert url[|c.baseUrl| + 17..|c.baseUrl| + 17 + |Join(cities, ",")|] == Join(cities, ",");
    url
  }

  /** The URL of `episode`: the base URL, then the `episode` path. */
  function EpisodeUrl(c: RParifClient): (url: string)
    ensures ContainsAt(url, c.baseUrl, 0) && ContainsAt(url, "/episode?", |c.baseUrl|)
  {
    var url := c.baseUrl + "/episode?" + KeyParam(c);
    assert url[..|c.baseUrl|] == c.baseUrl;
    assert url[|c.baseUrl|..|c.baseUrl| + 9] == "/episode?";
    url
  }

  /** Every endpoint URL ends with the credential parameter. */
  lemma UrlsEndWithKey(c: RParifClient, day: Day, cities: seq<string>)
    ensures EndsWith(IndexUrl(c), KeyParam(c))
    ensures EndsWith(IndexDayUrl(c, day), KeyParam(c))
    ensures EndsWith(IndexCityUrl(c, cities), KeyParam(c))
    ensures EndsWith(EpisodeUrl(c), KeyParam(c))
  {
    TwoParts(c.baseUrl + "/indice?", KeyParam(c));
    TwoParts(c.baseUrl + "/indiceJour?date=" + DayToken(day) + "&", KeyParam(c));
    TwoParts(c.baseUrl + "/idxville?villes=" + Join(cities, ",") + "&", KeyParam(c));
    TwoParts(c.baseUrl + "/episode?", KeyParam(c));
  }

  /** The texts between consecutive `sep` characters, as `str::split`. */
  function Split(s: string, sep: char): (parts: seq<string>)
    ensures |parts| >= 1
  {
    if s == [] then [""]
    else
      var rest := Split(s[1..], sep);
      if s[0] == sep then [""] + rest else [[s[0]] + rest[0]] + rest[1..]
  }

  lemma {:induction false} SplitNoSeparator(a: string, b: string, sep: char)
    requires sep !in a
    ensures Split(a + [sep] + b, sep) == [a] + Split(b, sep)
    ensures Split(a, sep) == [a]
  {
    if a != [] {
      SplitNoSeparator(a[1..], b, sep);
      assert (a + [sep] + b)[1..] == a[1..] + [sep] + b;
      assert [a[0]] + a[1..] == a;
    } else {
      assert a + [sep] + b == [sep] + b;
    }
  }

  lemma JoinCons(parts: seq<string>, sep: string)
    requires |parts| >= 2
    ensures Join(parts, sep) == parts[0] + sep + Join(parts[1..], sep)
  {
  }

  /**
   * The `villes` parameter of `index_city` can be split back into the city
   * codes it joins, as long as there is at least one code and none holds a comma.
   */
  lemma {:induction false} JoinSplitRoundTrip(cities: seq<string>)
    requires |cities| >= 1
    requires forall k :: 0 <= k < |cities| ==> ',' !in cities[k]
    ensures Split(Join(cities, ","), ',') == cities
  {
    if |cities| == 1 {
      SplitNoSeparator(cities[0], "", ',');
    } else {
      JoinSplitRoundTrip(cities[1..]);
      JoinCons(cities, ",");
      SplitNoSeparator(cities[0], Join(cities[1..], ","), ',');
      assert cities == [cities[0]] + cities[1..];
    }
  }

  /** Different days give different `indiceJour` URLs. */
  lemma IndexDayUrlInjective(c: RParifClient, d1: Day, d2: Day)
    ensures IndexDayUrl(c, d1) == IndexDayUrl(c, d2) ==> d1 == d2
  {
    var p := c.baseUrl + "/indiceJour?date=";
    assert IndexDayUrl(c, d1)[|p|] == DayToken(d1)[0];
    assert IndexDayUrl(c, d2)[|p|] == DayToken(d2)[0];
  }
}
