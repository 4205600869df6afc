/**
 * The part of the `json` crate the client relies on: the value tree, member
 * lookup (`has_key`, indexing with `[key]`, `entries()`), the compact
 * serialiser `dump()` and the `Display` form used by `to_string()`.
 */
module Json {
  import opened Wrappers
  import opened Decimal

  /**
   * A parsed JSON value. Objects keep their members in source order. The
   * crate's two string representations (short and heap) are one case here,
   * and numbers are integers.
   */
  datatype JsonValue =
    | Null
    | Boolean(b: bool)
    | Number(n: int)
    | Str(s: string)
    | Array(items: seq<JsonValue>)
    | Object(members: seq<(string, JsonValue)>)

  /** The crate's parse error; only its diagnostic text is kept. */
  datatype JsonFailure = JsonFailure(diagnostic: string)

  /** True when no two members of an object share a key, as for every parsed object. */
  predicate UniqueKeys(v: JsonValue) {
    v.Object? ==>
      forall i, j :: 0 <= i < j < |v.members| ==> v.members[i].0 != v.members[j].0
  }

  /** The value of the first member named `key`. */
  function Lookup(members: seq<(string, JsonValue)>, key: string): (r: Option<JsonValue>)
    ensures r.Some? <==> exists i :: 0 <= i < |members| && members[i].0 == key
    ensures r.Some? ==> (key, r.value) in members
  {
    if members == [] then None
    else if members[0].0 == key then Some(members[0].1)
    else Lookup(members[1..], key)
  }

  /** Lookup finds the first member whose key matches. */
  lemma {:induction false} LookupAt(members: seq<(string, JsonValue)>, i: nat, key: string)
    requires i < |members| && members[i].0 == key
    requires forall j :: 0 <= j < i ==> members[j].0 != key
    ensures Lookup(members, key) == Some(members[i].1)
  {
    if i > 0 {
      LookupAt(members[1..], i - 1, key);
    }
  }

  /** `has_key`: false on everything that is not an object. */
  predicate HasKey(v: JsonValue, key: string) {
    v.Object? && Lookup(v.members, key).Some?
  }

  /** `v[key]`: the member's value, or `Null` when the key is absent or `v` is not an object. */
  function Get(v: JsonValue, key: string): (r: JsonValue)
    ensures !HasKey(v, key) ==> r == Null
    ensures HasKey(v, key) ==> (key, r) in v.members
  {
    if HasKey(v, key) then Lookup(v.members, key).value else Null
  }

  /** `entries()`: the members of an object in order, nothing for any other value. */
  function Entries(v: JsonValue): (r: seq<(string, JsonValue)>)
    ensures v.Object? ==> r == v.members
    ensures !v.Object? ==> r == []
  {
    if v.Object? then v.members else []
  }

  /** `as_str()`. */
  function AsStr(v: JsonValue): (r: Option<string>)
    ensures r.Some? <==> v.Str?
    ensures r.Some? ==> r.value == v.s
  {
    if v.Str? then Some(v.s) else None
  }

  /** On an object with unique keys, lookup finds a value exactly when that member is present. */
  lemma {:induction false} LookupMember(members: seq<(string, JsonValue)>, key: string, x: JsonValue)
    requires UniqueKeys(Object(members))
    ensures Lookup(members, key) == Some(x) <==> (key, x) in members
  {
    if members != [] {
      var tail := members[1..];
      assert UniqueKeys(Object(tail)) by {
        forall i, j | 0 <= i < j < |tail| ensures tail[i].0 != tail[j].0 {
          assert tail[i] == members[i + 1] && tail[j] == members[j + 1];
        }
      }
      LookupMember(tail, key, x);
      if members[0].0 != key {
        assert (key, x) in members <==> (key, x) in tail by {
          assert members == [members[0]] + tail;
        }
      }
    }
  }

  /** Corollary for whole values: on a parsed object, `v[key] == x` with `x` not null means a member `(key, x)`. */
  lemma GetMember(v: JsonValue, key: string, x: JsonValue)
    requires UniqueKeys(v) && v.Object?
    ensures HasKey(v, key) && Get(v, key) == x <==> (key, x) in v.members
  {
    LookupMember(v.members, key, x);
  }

  // ----- Serialisation -----

  function IntToDecimal(n: int): string {
    if n < 0 then "-" + NatToDecimal(-n) else NatToDecimal(n)
  }

  function HexChar(d: int): char
    requires 0 <= d < 16
  {
    ['0', '1', '2', '3', '4', '5', '6', '7', '8', '9', 'a', 'b', 'c', 'd', 'e', 'f'][d]
  }

  /** The escape sequence for one character of a string literal. */
  function EscapeChar(c: char): string {
    if c == '"' then "\\\""
    else if c == '\\' then "\\\\"
    else if c == '\n' then "\\n"
    else if c == '\r' then "\\r"
    else if c == '\t' then "\\t"
    else if c == 8 as char then "\\b"
    else if c == 12 as char then "\\f"
    else if (c as int) < 0x20 then "\\u00" + [HexChar(c as int / 16), HexChar(c as int % 16)]
    else [c]
  }

  function Quote(s: string): string {
    "\"" + EscapeChars(s) + "\""
  }

  function EscapeChars(s: string): string {
    if s == [] then "" else EscapeChars(s[..|s| - 1]) + EscapeChar(s[|s| - 1])
  }

  function JoinComma(parts: seq<string>): string {
    if parts == [] then ""
    else if |parts| == 1 then parts[0]
    else JoinComma(parts[..|parts| - 1]) + "," + parts[|parts| - 1]
  }

  /** `dump()`: the compact serialisation, without whitespace. */
  function Dump(v: JsonValue): string
    decreases v
  {
    match v
    case Null => "null"
    case Boolean(b) => if b then "true" else "false"
    case Number(n) => IntToDecimal(n)
    case Str(s) => Quote(s)
    case Array(items) =>
      "[" + JoinComma(seq(|items|, i requires 0 <= i < |items| => Dump(items[i]))) + "]"
    case Object(ms) =>
      "{" + JoinComma(seq(|ms|, i requires 0 <= i < |ms| => Quote(ms[i].0) + ":" + Dump(ms[i].1))) + "}"
  }

  /** `to_string()` (the `Display` form): strings print without quotes, containers as their dump. */
  function DisplayValue(v: JsonValue): (r: string)
    ensures v.Str? ==> r == v.s
    ensures v.Array? || v.Object? ==> r == Dump(v)
  {
    match v
    case Null => "null"
    case Boolean(b) => if b then "true" else "false"
    case Number(n) => IntToDecimal(n)
    case Str(s) => s
    case _ => Dump(v)
  }
}
