/** The crate's error type `RParifError`, its messages and its `From` conversions. */
module Errors {
  import opened Json
  import opened Dates

  /** An HTTP status code (`u16`). */
  type u16 = x: int | 0 <= x < 0x1_0000

  /** The HTTP library's error; only its cause is kept. */
  datatype RequestFailure = RequestFailure(cause: string)

  /**
   * Every failure of the client. The misspelt `UnkownEnumValue` is the
   * variant's name in the crate.
   */
  datatype RParifError =
    | RequestError(request: RequestFailure)
    | JsonError(parse: JsonFailure)
    | DateParseError(date: ParseError)
    | UnkownEnumValue(token: string)
    | WrongJsonType(expected: string, json: string)
    | UnexpectedDate(value: string)
    | CallError(url: string, body: string, status: u16)
    | MissingJsonKey(key: string, json: string)

  /** Position of the variant in the declaration, used to talk about "the same variant". */
  function Variant(e: RParifError): nat {
    match e
    case RequestError(_) => 0
    case JsonError(_) => 1
    case DateParseError(_) => 2
    case UnkownEnumValue(_) => 3
    case WrongJsonType(_, _) => 4
    case UnexpectedDate(_) => 5
    case CallError(_, _, _) => 6
    case MissingJsonKey(_, _) => 7
  }

  /**
   * The variants raised while walking a parsed response; the other three
   * (`RequestError`, `JsonError`, `CallError`) come from the HTTP query.
   */
  predicate IsDecodingError(e: RParifError) {
    e.DateParseError? || e.UnkownEnumValue? || e.WrongJsonType? || e.UnexpectedDate? || e.MissingJsonKey?
  }

  /** `Error::description`: one fixed message per variant, whatever the payload. */
  function Description(e: RParifError): string {
    match e
    case RequestError(_) => "Error calling HTTP API"
    case JsonError(_) => "Error parsing JSON response"
    case DateParseError(_) => "Error parsing date"
    case UnkownEnumValue(_) => "Error parsing enum value"
    case UnexpectedDate(_) => "Wrong date : expect on of 'hier', 'jour', 'demain'"
    case WrongJsonType(_, _) => "Unexpected type value in JSON"
    case CallError(_, _, _) => "Unexpected HTTP response"
    case MissingJsonKey(_, _) => "Missing key in json"
  }

  /** Two errors have the same description exactly when they are of the same variant. */
  lemma DescriptionIdentifiesVariant(a: RParifError, b: RParifError)
    ensures Description(a) == Description(b) <==> Variant(a) == Variant(b)
  {
  }

  /** The variants whose `Display` text the crate writes itself from string payloads. */
  predicate HasOwnText(e: RParifError) {
    e.UnkownEnumValue? || e.MissingJsonKey? || e.UnexpectedDate? || e.WrongJsonType?
  }

  const EnumValuePrefix: string := "Error parsing enum valu : unexpected value "
  const UnexpectedDatePrefix: string := "Wrong date : expect on of 'hier', 'jour', 'demain' but got "
  const WrongTypePrefix: string := "Unexpected type value in JSON : expected an "

  /**
   * `Display` for the variants with their own text. The messages of an
   * unexpected date and of a wrong type start with the variant's
   * description; that of an unknown enum value never does, since it spells
   * the word `valu`.
   */
  function Display(e: RParifError): (msg: string)
    requires HasOwnText(e)
    ensures e.UnexpectedDate? || e.WrongJsonType? ==> ContainsAt(msg, Description(e), 0)
    ensures e.UnkownEnumValue? ==> !ContainsAt(msg, Description(e), 0)
  {
    match e
    case UnkownEnumValue(token) =>
      assert (EnumValuePrefix + token)[23] == ' ' && Description(e)[23] == 'e';
      EnumValuePrefix + token
    case MissingJsonKey(key, json) => "Missing key " + key + " in " + json
    case UnexpectedDate(value) => UnexpectedDatePrefix + value
    case WrongJsonType(expected, actual) => WrongTypePrefix + expected + " but got " + actual
  }

  predicate EndsWith(s: string, suffix: string) {
    |suffix| <= |s| && s[|s| - |suffix|..] == suffix
  }

  predicate ContainsAt(s: string, part: string, at: nat) {
    at + |part| <= |s| && s[at..at + |part|] == part
  }

  lemma TwoParts(a: string, b: string)
    ensures ContainsAt(a + b, a, 0) && EndsWith(a + b, b)
  {
    assert (a + b)[..|a|] == a;
    assert (a + b)[|a|..] == b;
  }

  lemma EndsWithExtended(a: string, b: string, suffix: string)
    requires EndsWith(b, suffix)
    ensures EndsWith(a + b, suffix)
  {
    assert (a + b)[|a + b| - |suffix|..] == b[|b| - |suffix|..];
  }

  lemma FourParts(a: string, b: string, c: string, d: string)
    ensures ContainsAt(a + b + c + d, a, 0) && ContainsAt(a + b + c + d, b, |a|)
    ensures ContainsAt(a + b + c + d, c, |a| + |b|) && EndsWith(a + b + c + d, d)
  {
    assert (a + b + c + d)[..|a|] == a;
    assert (a + b + c + d)[|a|..|a| + |b|] == b;
    assert (a + b + c + d)[|a| + |b|..|a| + |b| + |c|] == c;
    assert (a + b + c + d)[|a + b + c|..] == d;
  }

  /** What each message shows of its payload. */
  lemma DisplayShowsPayload(e: RParifError)
    requires HasOwnText(e)
    ensures e.UnkownEnumValue? ==> EndsWith(Display(e), e.token)
    ensures e.UnexpectedDate? ==> ContainsAt(Display(e), UnexpectedDatePrefix, 0) && EndsWith(Display(e), e.value)
    ensures e.MissingJsonKey? ==>
      && ContainsAt(Display(e), "Missing key ", 0) && ContainsAt(Display(e), e.key, 12)
      && ContainsAt(Display(e), " in ", 12 + |e.key|) && EndsWith(Display(e), e.json)
    ensures e.WrongJsonType? ==>
      && ContainsAt(Display(e), e.expected, |WrongTypePrefix|)
      && ContainsAt(Display(e), " but got ", |WrongTypePrefix| + |e.expected|) && EndsWith(Display(e), e.json)
  {
    match e
    case UnkownEnumValue(token) =>
      TwoParts(EnumValuePrefix, token);
    case UnexpectedDate(value) =>
      TwoParts(UnexpectedDatePrefix, value);
    case MissingJsonKey(key, json) =>
      MissingKeyParts(key, json);
    case WrongJsonType(expected, actual) =>
      WrongTypeParts(expected, actual);
  }

  lemma MissingKeyParts(key: string, json: string)
    ensures var msg := Display(MissingJsonKey(key, json));
      && ContainsAt(msg, "Missing key ", 0) && ContainsAt(msg, key, 12)
      && ContainsAt(msg, " in ", 12 + |key|) && EndsWith(msg, json)
  {
    FourParts("Missing key ", key, " in ", json);
  }

  lemma WrongTypeParts(expected: string, actual: string)
    ensures var msg := Display(WrongJsonType(expected, actual));
      && ContainsAt(msg, expected, |WrongTypePrefix|)
      && ContainsAt(msg, " but got ", |WrongTypePrefix| + |expected|) && EndsWith(msg, actual)
  {
    FourParts(WrongTypePrefix, expected, " but got ", actual);
  }

  /** The offending token or date can be read back from the message. */
  lemma DisplayDeterminesToken(a: RParifError, b: RParifError)
    requires (a.UnkownEnumValue? && b.UnkownEnumValue?) || (a.UnexpectedDate? && b.UnexpectedDate?)
    ensures Display(a) == Display(b) ==> a == b
  {
    if Display(a) == Display(b) {
      var p := if a.UnkownEnumValue? then EnumValuePrefix else UnexpectedDatePrefix;
      assert Display(a)[|p|..] == (if a.UnkownEnumValue? then a.token else a.value);
      assert Display(b)[|p|..] == (if b.UnkownEnumValue? then b.token else b.value);
    }
  }

  /** `From<reqwest::Error>`. */
  function FromRequestError(err: RequestFailure): (r: RParifError)
    ensures r.RequestError? && r.request == err
  {
    RequestError(err)
  }

  /** `From<json::Error>`. */
  function FromJsonError(err: JsonFailure): (r: RParifError)
    ensures r.JsonError? && r.parse == err
  {
    JsonError(err)
  }

  /** `From<chrono::ParseError>`. */
  function FromParseError(err: ParseError): (r: RParifError)
    ensures r.DateParseError? && r.date == err
  {
    DateParseError(err)
  }
}
