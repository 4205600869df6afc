/**
 * The four response decoders of `RParifClient`. Each decoder is a method
 * with the crate's loops, proved equal to a specification function;
 * the lemmas beside each specification say what a successful decode holds
 * and which error a failing one reports.
 *
 * Every list is decoded by `DecodeEach`, which is the `?` inside a loop:
 * elements are decoded in order and the first failure is the result.
 */
module Decoders {
  import opened Wrappers
  import opened Json
  import opened Dates
  import opened Errors
  import opened Objects
  import opened Client

  // =====================================================================
  // Decoding a list element by element
  // =====================================================================

  /** Decodes `xs` in order; the first element that fails decides the result. */
  function DecodeEach<A, B>(f: A --> Result<B, RParifError>, xs: seq<A>): Result<seq<B>, RParifError>
    requires forall k :: 0 <= k < |xs| ==> f.requires(xs[k])
  {
    if xs == [] then Ok([])
    else
      var init :- DecodeEach(f, xs[..|xs| - 1]);
      var last :- f(xs[|xs| - 1]);
      Ok(init + [last])
  }

  /** Decoding one more element after a successful prefix. */
  lemma DecodeEachStep<A, B>(f: A --> Result<B, RParifError>, xs: seq<A>, n: nat, done: seq<B>)
    requires n < |xs| && forall k :: 0 <= k < |xs| ==> f.requires(xs[k])
    requires DecodeEach(f, xs[..n]) == Ok(done)
    ensures f(xs[n]).Err? ==> DecodeEach(f, xs[..n + 1]) == Err(f(xs[n]).error)
    ensures f(xs[n]).Ok? ==> DecodeEach(f, xs[..n + 1]) == Ok(done + [f(xs[n]).value])
  {
    assert xs[..n + 1][..n] == xs[..n];
  }

  /** An error while decoding a prefix is the error of the whole list. */
  lemma {:induction false} DecodeEachPrefixError<A, B>(f: A --> Result<B, RParifError>, xs: seq<A>, n: nat)
    requires forall k :: 0 <= k < |xs| ==> f.requires(xs[k])
    requires n <= |xs| && DecodeEach(f, xs[..n]).Err?
    ensures DecodeEach(f, xs) == DecodeEach(f, xs[..n])
    decreases |xs| - n
  {
    if n < |xs| {
      assert xs[..n + 1][..n] == xs[..n];
      DecodeEachPrefixError(f, xs, n + 1);
    } else {
      assert xs[..n] == xs;
    }
  }

  /** The list decodes exactly when every element does, to one value per element, in order. */
  lemma {:induction false} DecodeEachSucceeds<A, B>(f: A --> Result<B, RParifError>, xs: seq<A>)
    requires forall k :: 0 <= k < |xs| ==> f.requires(xs[k])
    ensures DecodeEach(f, xs).Ok? <==> forall k :: 0 <= k < |xs| ==> f(xs[k]).Ok?
    ensures DecodeEach(f, xs).Ok? ==>
      |DecodeEach(f, xs).value| == |xs| && forall k :: 0 <= k < |xs| ==> f(xs[k]) == Ok(DecodeEach(f, xs).value[k])
  {
    if xs != [] {
      var init := xs[..|xs| - 1];
      DecodeEachSucceeds(f, init);
      assert forall k :: 0 <= k < |init| ==> init[k] == xs[k];
    }
  }

  /** A failing list reports the error of its first failing element. */
  lemma {:induction false} DecodeEachFirstError<A, B>(f: A --> Result<B, RParifError>, xs: seq<A>)
    requires forall k :: 0 <= k < |xs| ==> f.requires(xs[k])
    ensures DecodeEach(f, xs).Err? ==>
      exists k :: 0 <= k < |xs| && f(xs[k]) == Err(DecodeEach(f, xs).error) && forall j :: 0 <= j < k ==> f(xs[j]).Ok?
  {
    if xs != [] && DecodeEach(f, xs).Err? {
      var init := xs[..|xs| - 1];
      assert forall j :: 0 <= j < |init| ==> init[j] == xs[j];
      if DecodeEach(f, init).Err? {
        DecodeEachFirstError(f, init);
      } else {
        DecodeEachSucceeds(f, init);
      }
    }
  }

  /** A list whose elements fail only with decoding errors fails only with a decoding error. */
  lemma DecodeEachDecodingError<A, B>(f: A --> Result<B, RParifError>, xs: seq<A>)
    requires forall k :: 0 <= k < |xs| ==> f.requires(xs[k])
    requires forall k :: 0 <= k < |xs| ==> f(xs[k]).Err? ==> IsDecodingError(f(xs[k]).error)
    ensures DecodeEach(f, xs).Err? ==> IsDecodingError(DecodeEach(f, xs).error)
  {
    DecodeEachFirstError(f, xs);
  }

  /** A list whose elements all decode, to `ys` element by element, decodes to `ys`. */
  lemma DecodeEachAllOk<A, B>(f: A --> Result<B, RParifError>, xs: seq<A>, ys: seq<B>)
    requires forall k :: 0 <= k < |xs| ==> f.requires(xs[k])
    requires |ys| == |xs| && forall k :: 0 <= k < |xs| ==> f(xs[k]) == Ok(ys[k])
    ensures DecodeEach(f, xs) == Ok(ys)
  {
    DecodeEachSucceeds(f, xs);
    var v := DecodeEach(f, xs).value;
    assert DecodeEach(f, xs).Ok?;
    assert |v| == |ys| && forall k :: 0 <= k < |xs| ==> v[k] == ys[k];
    assert v == ys;
  }

  lemma AppendAssociates<T>(a: seq<T>, b: seq<T>, x: T)
    ensures (a + b) + [x] == a + (b + [x])
  {
  }

  /** The members of an object, in order, without those whose key is in `keys`. */
  function WithoutKeys(es: seq<(string, JsonValue)>, keys: set<string>): (r: seq<(string, JsonValue)>)
    ensures forall k :: 0 <= k < |r| ==> r[k] in es && r[k].0 !in keys
  {
    if es == [] then []
    else WithoutKeys(es[..|es| - 1], keys) + (if es[|es| - 1].0 in keys then [] else [es[|es| - 1]])
  }

  /** The kept members of a prefix are a prefix of the kept members. */
  lemma {:induction false} WithoutKeysPrefix(es: seq<(string, JsonValue)>, n: nat, keys: set<string>)
    requires n <= |es|
    ensures |WithoutKeys(es[..n], keys)| <= |WithoutKeys(es, keys)|
    ensures WithoutKeys(es, keys)[..|WithoutKeys(es[..n], keys)|] == WithoutKeys(es[..n], keys)
    decreases |es| - n
  {
    if n < |es| {
      assert es[..n + 1][..n] == es[..n];
      WithoutKeysPrefix(es, n + 1, keys);
    } else {
      assert es[..n] == es;
    }
  }

  /** Filtering a concatenation filters each part. */
  lemma {:induction false} WithoutKeysAppend(a: seq<(string, JsonValue)>, b: seq<(string, JsonValue)>, keys: set<string>)
    ensures WithoutKeys(a + b, keys) == WithoutKeys(a, keys) + WithoutKeys(b, keys)
  {
    if b != [] {
      var init := b[..|b| - 1];
      WithoutKeysAppend(a, init, keys);
      assert (a + b)[..|a + b| - 1] == a + init;
    } else {
      assert a + b == a;
    }
  }

  /** A single member is kept unless its key is excluded. */
  lemma WithoutKeysSingle(e: (string, JsonValue), keys: set<string>)
    ensures WithoutKeys([e], keys) == if e.0 in keys then [] else [e]
  {
    assert [e][..0] == [];
  }

  /** Nothing is dropped from members none of whose keys is excluded. */
  lemma {:induction false} WithoutKeysKeepsAll(es: seq<(string, JsonValue)>, keys: set<string>)
    requires forall k :: 0 <= k < |es| ==> es[k].0 !in keys
    ensures WithoutKeys(es, keys) == es
  {
    if es != [] {
      WithoutKeysKeepsAll(es[..|es| - 1], keys);
    }
  }

  /** The members of `es[..n + 1]` that are kept: those of `es[..n]`, then `es[n]` unless its key is excluded. */
  lemma WithoutKeysStep(es: seq<(string, JsonValue)>, n: nat, keys: set<string>)
    requires n < |es|
    ensures WithoutKeys(es[..n + 1], keys) == WithoutKeys(es[..n], keys) + (if es[n].0 in keys then [] else [es[n]])
  {
    assert es[..n + 1][..n] == es[..n];
  }

  /** `f` can be applied to every member whose key is not in `keys`. */
  ghost predicate KeptFit<B>(f: ((string, JsonValue)) --> Result<B, RParifError>, es: seq<(string, JsonValue)>, keys: set<string>) {
    forall k :: 0 <= k < |es| && es[k].0 !in keys ==> f.requires(es[k])
  }

  /** Decoding the kept members of `es[..n + 1]` after those of `es[..n]` succeeded. */
  lemma DecodeKeptStep<B>(f: ((string, JsonValue)) --> Result<B, RParifError>, es: seq<(string, JsonValue)>, n: nat,
                          keys: set<string>, done: seq<B>)
    requires n < |es| && KeptFit(f, es, keys)
    requires DecodeEach(f, WithoutKeys(es[..n], keys)) == Ok(done)
    ensures es[n].0 in keys ==> DecodeEach(f, WithoutKeys(es[..n + 1], keys)) == Ok(done)
    ensures es[n].0 !in keys && f(es[n]).Err? ==> DecodeEach(f, WithoutKeys(es[..n + 1], keys)) == Err(f(es[n]).error)
    ensures es[n].0 !in keys && f(es[n]).Ok? ==> DecodeEach(f, WithoutKeys(es[..n + 1], keys)) == Ok(done + [f(es[n]).value])
  {
    WithoutKeysStep(es, n, keys);
    if es[n].0 !in keys {
      var w := WithoutKeys(es[..n + 1], keys);
      assert w[..|w| - 1] == WithoutKeys(es[..n], keys);
    } else {
      assert WithoutKeys(es[..n], keys) + [] == WithoutKeys(es[..n], keys);
    }
  }

  /** An error on the kept members of a prefix is the error on all kept members. */
  lemma DecodeKeptPrefixError<B>(f: ((string, JsonValue)) --> Result<B, RParifError>, es: seq<(string, JsonValue)>, n: nat,
                                 keys: set<string>)
    requires n <= |es| && KeptFit(f, es, keys)
    requires DecodeEach(f, WithoutKeys(es[..n], keys)).Err?
    ensures DecodeEach(f, WithoutKeys(es, keys)) == DecodeEach(f, WithoutKeys(es[..n], keys))
  {
    WithoutKeysPrefix(es, n, keys);
    DecodeEachPrefixError(f, WithoutKeys(es, keys), |WithoutKeys(es[..n], keys)|);
  }

  // =====================================================================
  // `index_to_index`: a flat array of relative-day readings
  // =====================================================================

  predicate IndexPayloadFits(json: JsonValue) {
    json.Array? ==> forall k :: 0 <= k < |json.items| ==> NumberFits(json.items[k], "indice")
  }

  /** One element: its `date` token, then the optional `url_carte`, then `indice`. */
  function IndexEntry(value: JsonValue, today: Date): (r: Result<Index, RParifError>)
    requires Valid(today) && NumberFits(value, "indice")
    ensures r.Err? ==> IsDecodingError(r.error)
  {
    var date :- JsonToDate(Get(value, "date"), today);
    var url := if HasKey(value, "url_carte") then Some(DisplayValue(Get(value, "url_carte"))) else None;
    var index :- GetNumberValue("indice", value);
    Ok(Index(date, url, ["global"], index, None))
  }

  function IndexElement(today: Date): JsonValue --> Result<Index, RParifError> {
    value requires Valid(today) && NumberFits(value, "indice") => IndexEntry(value, today)
  }

  function DecodeIndex(json: JsonValue, today: Date): (r: Result<seq<Index>, RParifError>)
    requires Valid(today) && IndexPayloadFits(json)
    ensures !json.Array? ==> r == Err(WrongJsonType("array", Dump(json)))
    ensures r.Err? ==> IsDecodingError(r.error)
  {
    match json
    case Array(items) =>
      DecodeEachDecodingError(IndexElement(today), items);
      DecodeEach(IndexElement(today), items)
    case _ => Err(WrongJsonType("array", Dump(json)))
  }

  /**
   * A bad `date` token is reported before a bad `indice`, and an element with
   * neither decodes; a record carries the resolved date, the `indice`, the
   * single pollutant "global", no INSEE code, and a map URL exactly when
   * `url_carte` is present.
   */
  lemma IndexEntryMeaning(value: JsonValue, today: Date)
    requires Valid(today) && NumberFits(value, "indice")
    ensures var r := IndexEntry(value, today);
      && (JsonToDate(Get(value, "date"), today).Err? ==> r == Err(UnexpectedDate(Dump(Get(value, "date")))))
      && (JsonToDate(Get(value, "date"), today).Ok? && GetNumberValue("indice", value).Err? ==>
            r == Err(GetNumberValue("indice", value).error))
      && (r.Ok? <==> JsonToDate(Get(value, "date"), today).Ok? && GetNumberValue("indice", value).Ok?)
      && (r.Ok? ==>
            && r.value.date == JsonToDate(Get(value, "date"), today).value
            && r.value.index == GetNumberValue("indice", value).value
            && r.value.pollutants == ["global"] && r.value.insee == None
            && (r.value.url.Some? <==> HasKey(value, "url_carte"))
            && r.value.url == (if HasKey(value, "url_carte") then Some(DisplayValue(Get(value, "url_carte"))) else None))
  {
  }

  /** An array decodes exactly when each element does, to one record per element, in order. */
  lemma DecodeIndexSucceeds(json: JsonValue, today: Date)
    requires Valid(today) && IndexPayloadFits(json) && json.Array?
    ensures DecodeIndex(json, today).Ok? <==> forall k :: 0 <= k < |json.items| ==> IndexEntry(json.items[k], today).Ok?
    ensures DecodeIndex(json, today).Ok? ==>
      && |DecodeIndex(json, today).value| == |json.items|
      && forall k :: 0 <= k < |json.items| ==> IndexEntry(json.items[k], today) == Ok(DecodeIndex(json, today).value[k])
  {
    DecodeEachSucceeds(IndexElement(today), json.items);
  }

  /** Conversely, an array whose elements decode to `ys`, one by one, decodes to `ys`. */
  lemma DecodeIndexFromEntries(items: seq<JsonValue>, today: Date, ys: seq<Index>)
    requires Valid(today) && |ys| == |items|
    requires forall k :: 0 <= k < |items| ==> NumberFits(items[k], "indice") && IndexEntry(items[k], today) == Ok(ys[k])
    ensures DecodeIndex(Array(items), today) == Ok(ys)
  {
    DecodeEachAllOk(IndexElement(today), items, ys);
  }

  /** `index_to_index`. */
  method IndexToIndex(json: JsonValue, today: Date) returns (r: Result<seq<Index>, RParifError>)
    requires Valid(today) && IndexPayloadFits(json)
    ensures r == DecodeIndex(json, today)
  {
    if !json.Array? {
      return Err(WrongJsonType("array", Dump(json)));
    }
    var data := json.items;
    ghost var f := IndexElement(today);
    var result: seq<Index> := [];
    var i := 0;
    while i < |data|
      invariant 0 <= i <= |data|
      invariant DecodeEach(f, data[..i]) == Ok(result)
    {
      var value := data[i];
      DecodeEachStep(f, data, i, result);
      var record := IndexEntry(value, today);
      if record.Err? {
        DecodeEachPrefixError(f, data, i + 1);
        return Err(record.error);
      }
      result := result + [record.value];
      i := i + 1;
    }
    assert data[..i] == data;
    return Ok(result);
  }

  // =====================================================================
  // `index_day_to_index`: one object whose keys name pollutants
  // =====================================================================

  predicate DayEntriesFit(es: seq<(string, JsonValue)>) {
    forall k :: 0 <= k < |es| && es[k].0 != "date" ==> NumberFits(es[k].1, "indice")
  }

  /** One pollutant member: `indice` is required, a `url_carte` that is missing or not a string is no URL. */
  function DayEntry(key: string, value: JsonValue, date: Date): (r: Result<Index, RParifError>)
    requires NumberFits(value, "indice")
    ensures r.Err? ==> IsDecodingError(r.error)
  {
    var index :- GetNumberValue("indice", value);
    var url := match GetStringValue("url_carte", value) case Ok(u) => Some(u) case Err(_) => None;
    Ok(Index(date, url, [key], index, None))
  }

  function DayElement(date: Date): ((string, JsonValue)) --> Result<Index, RParifError> {
    (e: (string, JsonValue)) requires NumberFits(e.1, "indice") => DayEntry(e.0, e.1, date)
  }

  /** `date` is read and parsed before any member is looked at; then every other member is a pollutant. */
  function DecodeIndexDay(json: JsonValue): (r: Result<seq<Index>, RParifError>)
    requires DayEntriesFit(Entries(json))
    ensures !HasKey(json, "date") ==> r == Err(MissingJsonKey("date", Dump(json)))
    ensures HasKey(json, "date") && !Get(json, "date").Str? ==> r == Err(WrongJsonType("string", Dump(Get(json, "date"))))
    ensures HasKey(json, "date") && Get(json, "date").Str? && ParseDate(Get(json, "date").s).Err? ==>
      r == Err(DateParseError(ParseDate(Get(json, "date").s).error))
    ensures r.Err? ==> IsDecodingError(r.error)
  {
    var text :- GetStringValue("date", json);
    match ParseDate(text)
    case Err(e) => Err(DateParseError(e))
    case Ok(date) =>
      DecodeEachDecodingError(DayElement(date), MembersExcept(json, "date"));
      DecodeEach(DayElement(date), MembersExcept(json, "date"))
  }

  /** The members of an object in order, but the one named `key`. */
  function MembersExcept(json: JsonValue, key: string): (r: seq<(string, JsonValue)>)
    ensures forall k :: 0 <= k < |r| ==> r[k] in Entries(json) && r[k].0 != key
  {
    WithoutKeys(Entries(json), {key})
  }

  /**
   * A pollutant member fails exactly when its `indice` does; its record is
   * named after the member's key, dated by the object's `date`, and has a map
   * URL exactly when `url_carte` is a string.
   */
  lemma DayEntryMeaning(key: string, value: JsonValue, date: Date)
    requires NumberFits(value, "indice")
    ensures var r := DayEntry(key, value, date);
      && (r.Err? <==> GetNumberValue("indice", value).Err?)
      && (r.Err? ==> r.error == GetNumberValue("indice", value).error)
      && (r.Ok? ==>
            && r.value.date == date && r.value.pollutants == [key] && r.value.insee == None
            && r.value.index == GetNumberValue("indice", value).value
            && r.value.url == (if Get(value, "url_carte").Str? then Some(Get(value, "url_carte").s) else None))
  {
  }

  /**
   * With a well-formed `date`, the object decodes exactly when every member
   * but `date` does, to one record per such member, in source order.
   */
  lemma DecodeIndexDaySucceeds(json: JsonValue, date: Date)
    requires DayEntriesFit(Entries(json))
    requires Get(json, "date").Str? && ParseDate(Get(json, "date").s) == Ok(date)
    ensures DecodeIndexDay(json).Ok? <==>
      forall k :: 0 <= k < |MembersExcept(json, "date")| ==> DayEntry(MembersExcept(json, "date")[k].0, MembersExcept(json, "date")[k].1, date).Ok?
    ensures DecodeIndexDay(json).Ok? ==>
      && |DecodeIndexDay(json).value| == |MembersExcept(json, "date")|
      && forall k :: 0 <= k < |MembersExcept(json, "date")| ==>
           DayEntry(MembersExcept(json, "date")[k].0, MembersExcept(json, "date")[k].1, date) == Ok(DecodeIndexDay(json).value[k])
  {
    var w := MembersExcept(json, "date");
    var f := DayElement(date);
    forall k | 0 <= k < |w|
      ensures f.requires(w[k]) && f(w[k]) == DayEntry(w[k].0, w[k].1, date)
    {
      var e :| e in Entries(json) && e == w[k];
    }
    DecodeEachSucceeds(f, w);
  }

  /** Conversely, with a well-formed `date`, members that decode to `ys`, one by one, give `ys`. */
  lemma DecodeIndexDayFromEntries(json: JsonValue, date: Date, ys: seq<Index>)
    requires DayEntriesFit(Entries(json))
    requires Get(json, "date").Str? && ParseDate(Get(json, "date").s) == Ok(date)
    requires |ys| == |MembersExcept(json, "date")|
    requires forall k :: 0 <= k < |ys| ==>
      NumberFits(MembersExcept(json, "date")[k].1, "indice") && DayEntry(MembersExcept(json, "date")[k].0, MembersExcept(json, "date")[k].1, date) == Ok(ys[k])
    ensures DecodeIndexDay(json) == Ok(ys)
  {
    var w := MembersExcept(json, "date");
    var f := DayElement(date);
    forall k | 0 <= k < |w|
      ensures f.requires(w[k]) && f(w[k]) == Ok(ys[k])
    {
    }
    DecodeEachAllOk(f, w, ys);
    assert GetStringValue("date", json) == Ok(Get(json, "date").s);
  }

  /** The object is its `date` lookup and parse, followed by the decoding of its other members. */
  lemma DayUnfold(json: JsonValue)
    requires DayEntriesFit(Entries(json))
    ensures GetStringValue("date", json).Err? ==> DecodeIndexDay(json) == Err(GetStringValue("date", json).error)
    ensures GetStringValue("date", json).Ok? && ParseDate(GetStringValue("date", json).value).Err? ==>
      DecodeIndexDay(json) == Err(DateParseError(ParseDate(GetStringValue("date", json).value).error))
    ensures GetStringValue("date", json).Ok? && ParseDate(GetStringValue("date", json).value).Ok? ==>
      DecodeIndexDay(json) ==
        DecodeEach(DayElement(ParseDate(GetStringValue("date", json).value).value), WithoutKeys(Entries(json), {"date"}))
  {
  }

  /** `index_day_to_index`. */
  method IndexDayToIndex(json: JsonValue) returns (r: Result<seq<Index>, RParifError>)
    requires DayEntriesFit(Entries(json))
    ensures r == DecodeIndexDay(json)
  {
    DayUnfold(json);
    var text :- GetStringValue("date", json);
    var parsed := ParseDate(text);
    if parsed.Err? {
      return Err(DateParseError(parsed.error));
    }
    r := DayMembersToIndex(Entries(json), parsed.value);
  }

  /** The loop of `index_day_to_index` over the members other than `date`, each dated by `date`. */
  method DayMembersToIndex(entries: seq<(string, JsonValue)>, date: Date) returns (r: Result<seq<Index>, RParifError>)
    requires DayEntriesFit(entries)
    ensures r == DecodeEach(DayElement(date), WithoutKeys(entries, {"date"}))
  {
    ghost var f := DayElement(date);
    assert KeptFit(f, entries, {"date"});
    var result: seq<Index> := [];
    var i := 0;
    while i < |entries|
      invariant 0 <= i <= |entries|
      invariant DecodeEach(f, WithoutKeys(entries[..i], {"date"})) == Ok(result)
    {
      var key := entries[i].0;
      DecodeKeptStep(f, entries, i, {"date"}, result);
      if key != "date" {
        var record := DayEntry(key, entries[i].1, date);
        if record.Err? {
          DecodeKeptPrefixError(f, entries, i + 1, {"date"});
          return Err(record.error);
        }
        result := result + [record.value];
      }
      i := i + 1;
    }
    assert entries[..i] == entries;
    return Ok(result);
  }

  // =====================================================================
  // `idxville_to_index`: an array of cities whose keys are day tokens
  // =====================================================================

  /** `as_str().unwrap()` does not panic on the items of `polluants` when it is an array. */
  predicate PollutantsAreStrings(value: JsonValue) {
    Get(value, "polluants").Array? ==>
      forall k :: 0 <= k < |Get(value, "polluants").items| ==> Get(value, "polluants").items[k].Str?
  }

  predicate CityDayFits(value: JsonValue) {
    NumberFits(value, "indice") && PollutantsAreStrings(value)
  }

  predicate CityDaysFit(es: seq<(string, JsonValue)>) {
    forall k :: 0 <= k < |es| && es[k].0 != "ninsee" ==> CityDayFits(es[k].1)
  }

  predicate IdxvillePayloadFits(json: JsonValue) {
    json.Array? ==> forall k :: 0 <= k < |json.items| ==> CityDaysFit(Entries(json.items[k]))
  }

  function StringItems(items: seq<JsonValue>): (r: seq<string>)
    requires forall k :: 0 <= k < |items| ==> items[k].Str?
    ensures |r| == |items| && forall k :: 0 <= k < |items| ==> Str(r[k]) == items[k]
  {
    if items == [] then [] else StringItems(items[..|items| - 1]) + [items[|items| - 1].s]
  }

  /** The `polluants` strings, or no pollutant at all when the member is not an array. */
  function PollutantNames(value: JsonValue): (r: seq<string>)
    requires PollutantsAreStrings(value)
    ensures !Get(value, "polluants").Array? ==> r == []
    ensures Get(value, "polluants").Array? ==>
      |r| == |Get(value, "polluants").items| &&
      forall k :: 0 <= k < |r| ==> Get(value, "polluants").items[k] == Str(r[k])
  {
    match Get(value, "polluants")
    case Array(p) => StringItems(p)
    case _ => []
  }

  /** One day of one city: the key must be a day token (checked first), then `indice` is required. */
  function CityDay(insee: string, key: string, value: JsonValue, today: Date): (r: Result<Index, RParifError>)
    requires Valid(today) && CityDayFits(value)
    ensures r.Err? ==> IsDecodingError(r.error)
  {
    var date :- StringToDate(key, today);
    var index :- GetNumberValue("indice", value);
    Ok(Index(date, None, PollutantNames(value), index, Some(insee)))
  }

  function CityDayElement(insee: string, today: Date): ((string, JsonValue)) --> Result<Index, RParifError> {
    (e: (string, JsonValue)) requires Valid(today) && CityDayFits(e.1) => CityDay(insee, e.0, e.1, today)
  }

  /** One city: `ninsee` is required before any day is looked at. */
  function City(city: JsonValue, today: Date): (r: Result<seq<Index>, RParifError>)
    requires Valid(today) && CityDaysFit(Entries(city))
    ensures r.Err? ==> IsDecodingError(r.error)
  {
    var insee :- GetStringValue("ninsee", city);
    DecodeEachDecodingError(CityDayElement(insee, today), MembersExcept(city, "ninsee"));
    DecodeEach(CityDayElement(insee, today), MembersExcept(city, "ninsee"))
  }

  function CityElement(today: Date): JsonValue --> Result<seq<Index>, RParifError> {
    city requires Valid(today) && CityDaysFit(Entries(city)) => City(city, today)
  }

  function Concat(parts: seq<seq<Index>>): seq<Index> {
    if parts == [] then [] else Concat(parts[..|parts| - 1]) + parts[|parts| - 1]
  }

  /** The records of all cities, one city after the other. */
  function DecodeIdxville(json: JsonValue, today: Date): (r: Result<seq<Index>, RParifError>)
    requires Valid(today) && IdxvillePayloadFits(json)
    ensures !json.Array? ==> r == Err(WrongJsonType("array", Dump(json)))
    ensures r.Err? ==> IsDecodingError(r.error)
  {
    match json
    case Array(cities) =>
      DecodeEachDecodingError(CityElement(today), cities);
      var parts :- DecodeEach(CityElement(today), cities);
      Ok(Concat(parts))
    case _ => Err(WrongJsonType("array", Dump(json)))
  }

  /**
   * A key that is not a day token is reported before a bad `indice`, and a
   * member with neither decodes; a record has no map URL, carries the city's INSEE code and the
   * `polluants` names.
   */
  lemma CityDayMeaning(insee: string, key: string, value: JsonValue, today: Date)
    requires Valid(today) && CityDayFits(value)
    ensures var r := CityDay(insee, key, value, today);
      && (StringToDate(key, today).Err? ==> r == Err(UnexpectedDate(key)))
      && (StringToDate(key, today).Ok? && GetNumberValue("indice", value).Err? ==>
            r == Err(GetNumberValue("indice", value).error))
      && (r.Ok? <==> StringToDate(key, today).Ok? && GetNumberValue("indice", value).Ok?)
      && (r.Ok? ==>
            && r.value.date == StringToDate(key, today).value
            && r.value.url == None && r.value.insee == Some(insee)
            && r.value.pollutants == PollutantNames(value)
            && r.value.index == GetNumberValue("indice", value).value)
  {
  }

  /**
   * A city without a string `ninsee` fails on it; otherwise it decodes
   * exactly when every member but `ninsee` does, to one record per such
   * member, in source order.
   */
  lemma CitySucceeds(city: JsonValue, today: Date)
    requires Valid(today) && CityDaysFit(Entries(city))
    ensures !HasKey(city, "ninsee") ==> City(city, today) == Err(MissingJsonKey("ninsee", Dump(city)))
    ensures HasKey(city, "ninsee") && !Get(city, "ninsee").Str? ==>
      City(city, today) == Err(WrongJsonType("string", Dump(Get(city, "ninsee"))))
    ensures Get(city, "ninsee").Str? ==>
      (City(city, today).Ok? <==>
        forall k :: 0 <= k < |MembersExcept(city, "ninsee")| ==>
          CityDay(Get(city, "ninsee").s, MembersExcept(city, "ninsee")[k].0, MembersExcept(city, "ninsee")[k].1, today).Ok?)
    ensures Get(city, "ninsee").Str? && City(city, today).Ok? ==>
      && |City(city, today).value| == |MembersExcept(city, "ninsee")|
      && forall k :: 0 <= k < |MembersExcept(city, "ninsee")| ==>
           CityDay(Get(city, "ninsee").s, MembersExcept(city, "ninsee")[k].0, MembersExcept(city, "ninsee")[k].1, today) == Ok(City(city, today).value[k])
  {
    if Get(city, "ninsee").Str? {
      var w := MembersExcept(city, "ninsee");
      var f := CityDayElement(Get(city, "ninsee").s, today);
      forall k | 0 <= k < |w|
        ensures f.requires(w[k]) && f(w[k]) == CityDay(Get(city, "ninsee").s, w[k].0, w[k].1, today)
      {
        var e :| e in Entries(city) && e == w[k];
      }
      DecodeEachSucceeds(f, w);
    }
  }

  /**
   * An array of cities decodes exactly when every city does, and its records
   * are the cities' records concatenated in order.
   */
  lemma DecodeIdxvilleSucceeds(json: JsonValue, today: Date)
    requires Valid(today) && IdxvillePayloadFits(json) && json.Array?
    ensures DecodeIdxville(json, today).Ok? <==> forall k :: 0 <= k < |json.items| ==> City(json.items[k], today).Ok?
    ensures DecodeIdxville(json, today).Ok? ==>
      exists parts: seq<seq<Index>> ::
        && |parts| == |json.items|
        && (forall k :: 0 <= k < |json.items| ==> City(json.items[k], today) == Ok(parts[k]))
        && DecodeIdxville(json, today).value == Concat(parts)
  {
    DecodeEachSucceeds(CityElement(today), json.items);
    if DecodeIdxville(json, today).Ok? {
      var parts := DecodeEach(CityElement(today), json.items).value;
      assert forall k :: 0 <= k < |json.items| ==> City(json.items[k], today) == Ok(parts[k]);
    }
  }

  /** Conversely, a city with a string `ninsee` whose days decode to `ys`, one by one, gives `ys`. */
  lemma CityFromDays(city: JsonValue, today: Date, ys: seq<Index>)
    requires Valid(today) && CityDaysFit(Entries(city))
    requires Get(city, "ninsee").Str? && |ys| == |MembersExcept(city, "ninsee")|
    requires forall k :: 0 <= k < |ys| ==>
      CityDayFits(MembersExcept(city, "ninsee")[k].1) &&
      CityDay(Get(city, "ninsee").s, MembersExcept(city, "ninsee")[k].0, MembersExcept(city, "ninsee")[k].1, today) == Ok(ys[k])
    ensures City(city, today) == Ok(ys)
  {
    var insee := Get(city, "ninsee").s;
    var w := MembersExcept(city, "ninsee");
    var f := CityDayElement(insee, today);
    forall k | 0 <= k < |w|
      ensures f.requires(w[k]) && f(w[k]) == Ok(ys[k])
    {
    }
    DecodeEachAllOk(f, w, ys);
    assert GetStringValue("ninsee", city) == Ok(insee);
  }

  /** Conversely, cities that decode to `parts`, one by one, give the concatenation of `parts`. */
  lemma DecodeIdxvilleFromCities(cities: seq<JsonValue>, today: Date, parts: seq<seq<Index>>)
    requires Valid(today) && |parts| == |cities|
    requires forall k :: 0 <= k < |cities| ==> CityDaysFit(Entries(cities[k])) && City(cities[k], today) == Ok(parts[k])
    ensures DecodeIdxville(Array(cities), today) == Ok(Concat(parts))
  {
    DecodeEachAllOk(CityElement(today), cities, parts);
  }

  /** A city is its `ninsee` lookup followed by the decoding of its other members. */
  lemma CityUnfold(city: JsonValue, today: Date)
    requires Valid(today) && CityDaysFit(Entries(city))
    ensures GetStringValue("ninsee", city).Err? ==> City(city, today) == Err(GetStringValue("ninsee", city).error)
    ensures GetStringValue("ninsee", city).Ok? ==>
      City(city, today) == DecodeEach(CityDayElement(GetStringValue("ninsee", city).value, today), WithoutKeys(Entries(city), {"ninsee"}))
  {
  }

  /**
   * The body of the city loop of `idxville_to_index`: reads `ninsee`, then
   * pushes one record per member but `ninsee`, in source order, onto
   * `result`, stopping at the first member that does not decode.
   */
  method PushCity(result: seq<Index>, city: JsonValue, today: Date) returns (r: Result<seq<Index>, RParifError>)
    requires Valid(today) && CityDaysFit(Entries(city))
    ensures City(city, today).Err? ==> r == Err(City(city, today).error)
    ensures City(city, today).Ok? ==> r == Ok(result + City(city, today).value)
  {
    var insee := GetStringValue("ninsee", city);
    CityUnfold(city, today);
    if insee.Err? {
      return Err(insee.error);
    }
    var entries := Entries(city);
    ghost var f := CityDayElement(insee.value, today);
    assert KeptFit(f, entries, {"ninsee"});
    var pushed := result;
    ghost var days: seq<Index> := [];
    var j := 0;
    while j < |entries|
      invariant 0 <= j <= |entries|
      invariant DecodeEach(f, WithoutKeys(entries[..j], {"ninsee"})) == Ok(days)
      invariant pushed == result + days
    {
      DecodeKeptStep(f, entries, j, {"ninsee"}, days);
      if entries[j].0 != "ninsee" {
        var record := CityDay(insee.value, entries[j].0, entries[j].1, today);
        if record.Err? {
          DecodeKeptPrefixError(f, entries, j + 1, {"ninsee"});
          return Err(record.error);
        }
        AppendAssociates(result, days, record.value);
        pushed := pushed + [record.value];
        days := days + [record.value];
      }
      j := j + 1;
    }
    assert entries[..j] == entries;
    return Ok(pushed);
  }

  /** `idxville_to_index`. */
  method IdxvilleToIndex(json: JsonValue, today: Date) returns (r: Result<seq<Index>, RParifError>)
    requires Valid(today) && IdxvillePayloadFits(json)
    ensures r == DecodeIdxville(json, today)
  {
    if !json.Array? {
      return Err(WrongJsonType("array", Dump(json)));
    }
    var data := json.items;
    ghost var g := CityElement(today);
    ghost var parts: seq<seq<Index>> := [];
    var result: seq<Index> := [];
    var i := 0;
    while i < |data|
      invariant 0 <= i <= |data|
      invariant DecodeEach(g, data[..i]) == Ok(parts)
      invariant result == Concat(parts)
    {
      DecodeEachStep(g, data, i, parts);
      var pushed := PushCity(result, data[i], today);
      if pushed.Err? {
        DecodeEachPrefixError(g, data, i + 1);
        return Err(pushed.error);
      }
      assert (parts + [City(data[i], today).value])[..|parts|] == parts;
      parts := parts + [City(data[i], today).value];
      result := pushed.value;
      i := i + 1;
    }
    assert data[..i] == data;
    return Ok(result);
  }

  // =====================================================================
  // `episode_to_episode`: an array of alerts whose keys are pollutants
  // =====================================================================

  /** `as_str().unwrap().parse().unwrap()` does not panic on the items of `criteres` when it is an array. */
  predicate CriteriaAreTokens(value: JsonValue) {
    Get(value, "criteres").Array? ==>
      forall k :: 0 <= k < |Get(value, "criteres").items| ==>
        Get(value, "criteres").items[k].Str? && ParseCriteria(Get(value, "criteres").items[k].s).Ok?
  }

  predicate PollutantDetailsFit(es: seq<(string, JsonValue)>) {
    forall k :: 0 <= k < |es| && es[k].0 != "date" && es[k].0 != "detail" ==> CriteriaAreTokens(es[k].1)
  }

  predicate EpisodePayloadFits(json: JsonValue) {
    json.Array? ==> forall k :: 0 <= k < |json.items| ==> PollutantDetailsFit(Entries(json.items[k]))
  }

  function CriteriaItems(items: seq<JsonValue>): (r: seq<Criteria>)
    requires forall k :: 0 <= k < |items| ==> items[k].Str? && ParseCriteria(items[k].s).Ok?
    ensures |r| == |items| && forall k :: 0 <= k < |items| ==> ParseCriteria(items[k].s) == Ok(r[k])
  {
    if items == [] then [] else CriteriaItems(items[..|items| - 1]) + [ParseCriteria(items[|items| - 1].s).value]
  }

  /** The parsed `criteres`, or none when the member is not an array. */
  function CriteriaList(value: JsonValue): (r: seq<Criteria>)
    requires CriteriaAreTokens(value)
    ensures !Get(value, "criteres").Array? ==> r == []
    ensures Get(value, "criteres").Array? ==>
      |r| == |Get(value, "criteres").items| &&
      forall k :: 0 <= k < |r| ==> Get(value, "criteres").items[k] == Str(CriteriaToken(r[k]))
  {
    match Get(value, "criteres")
    case Array(v) => CriteriaItems(v)
    case _ => []
  }

  /** The advisory text: absent when `detail` is missing, not a string, or empty. */
  function Detail(j: JsonValue): (r: Option<string>)
    ensures r.Some? <==> Get(j, "detail").Str? && Get(j, "detail").s != ""
    ensures r.Some? ==> r.value == Get(j, "detail").s
  {
    match AsStr(Get(j, "detail"))
    case Some(v) => if v == "" then None else Some(v)
    case None => None
  }

  /** One pollutant of an alert: `type` is read and parsed before `niveau`. */
  function PollutantDetail(entry: (string, JsonValue)): (r: Result<PollutantEpisode, RParifError>)
    requires CriteriaAreTokens(entry.1)
    ensures r.Err? ==> IsDecodingError(r.error)
  {
    var (key, value) := entry;
    var kindToken :- GetStringValue("type", value);
    var kind :- ParseType(kindToken);
    var levelToken :- GetStringValue("niveau", value);
    var level :- ParseLevel(levelToken);
    Ok(PollutantEpisode(key, kind, level, CriteriaList(value)))
  }

  /** One alert: its `date` token first, then each member but `date` and `detail` is a pollutant. */
  function EpisodeEntry(j: JsonValue, today: Date): (r: Result<EpisodeValue, RParifError>)
    requires Valid(today) && PollutantDetailsFit(Entries(j))
    ensures r.Err? ==> IsDecodingError(r.error)
  {
    var date :- JsonToDate(Get(j, "date"), today);
    var pollutants :- PollutantDetails(Entries(j));
    Ok(EpisodeValue(date, Detail(j), pollutants))
  }

  /** The details of the members of an alert but `date` and `detail`, in order. */
  function PollutantDetails(es: seq<(string, JsonValue)>): (r: Result<seq<PollutantEpisode>, RParifError>)
    requires PollutantDetailsFit(es)
    ensures r.Err? ==> IsDecodingError(r.error)
  {
    DecodeEachDecodingError(PollutantDetail, WithoutKeys(es, {"date", "detail"}));
    DecodeEach(PollutantDetail, WithoutKeys(es, {"date", "detail"}))
  }

  /** The pollutant members of an alert: every member but `date` and `detail`. */
  function PollutantMembers(j: JsonValue): (r: seq<(string, JsonValue)>)
    ensures forall k :: 0 <= k < |r| ==> r[k] in Entries(j) && r[k].0 != "date" && r[k].0 != "detail"
  {
    WithoutKeys(Entries(j), {"date", "detail"})
  }

  function EpisodeElement(today: Date): JsonValue --> Result<EpisodeValue, RParifError> {
    j requires Valid(today) && PollutantDetailsFit(Entries(j)) => EpisodeEntry(j, today)
  }

  function Episodes(items: seq<JsonValue>, today: Date): (r: Result<seq<EpisodeValue>, RParifError>)
    requires Valid(today) && forall k :: 0 <= k < |items| ==> PollutantDetailsFit(Entries(items[k]))
    ensures r.Err? ==> IsDecodingError(r.error)
  {
    DecodeEachDecodingError(EpisodeElement(today), items);
    DecodeEach(EpisodeElement(today), items)
  }

  function DecodeEpisode(json: JsonValue, today: Date): (r: Result<seq<EpisodeValue>, RParifError>)
    requires Valid(today) && EpisodePayloadFits(json)
    ensures !json.Array? ==> r == Err(WrongJsonType("array", Dump(json)))
    ensures r.Err? ==> IsDecodingError(r.error)
  {
    match json
    case Array(items) => Episodes(items, today)
    case _ => Err(WrongJsonType("array", Dump(json)))
  }

  /**
   * `type` is checked (present, a string, a known token) before `niveau`,
   * and a member whose two tokens are known decodes; a detail is named after the member's key, and its kind, level and criteria
   * print back as the tokens of the payload.
   */
  lemma PollutantDetailMeaning(key: string, value: JsonValue)
    requires CriteriaAreTokens(value)
    ensures var r := PollutantDetail((key, value));
      && (GetStringValue("type", value).Err? ==> r == Err(GetStringValue("type", value).error))
      && (GetStringValue("type", value).Ok? && ParseType(GetStringValue("type", value).value).Err? ==>
            r == Err(UnkownEnumValue(GetStringValue("type", value).value)))
      && (GetStringValue("type", value).Ok? && ParseType(GetStringValue("type", value).value).Ok? &&
          GetStringValue("niveau", value).Err? ==>
            r == Err(GetStringValue("niveau", value).error))
      && (GetStringValue("type", value).Ok? && ParseType(GetStringValue("type", value).value).Ok? &&
          GetStringValue("niveau", value).Ok? && ParseLevel(GetStringValue("niveau", value).value).Err? ==>
            r == Err(UnkownEnumValue(GetStringValue("niveau", value).value)))
      && (r.Ok? <==>
            && GetStringValue("type", value).Ok? && ParseType(GetStringValue("type", value).value).Ok?
            && GetStringValue("niveau", value).Ok? && ParseLevel(GetStringValue("niveau", value).value).Ok?)
      && (r.Ok? ==>
            && Get(value, "type").Str? && Get(value, "niveau").Str?
            && r.value.pollutant == key
            && TypeToken(r.value.kind) == Get(value, "type").s
            && LevelToken(r.value.level) == Get(value, "niveau").s
            && r.value.criteria == CriteriaList(value))
  {
  }

  /**
   * A bad `date` token is reported before any pollutant is read; otherwise
   * the alert decodes exactly when every member but `date` and `detail`
   * does, and holds its date, its detail, and one pollutant per such member
   * in source order.
   */
  lemma EpisodeEntrySucceeds(j: JsonValue, today: Date)
    requires Valid(today) && PollutantDetailsFit(Entries(j))
    ensures JsonToDate(Get(j, "date"), today).Err? ==> EpisodeEntry(j, today) == Err(UnexpectedDate(Dump(Get(j, "date"))))
    ensures JsonToDate(Get(j, "date"), today).Ok? ==>
      (EpisodeEntry(j, today).Ok? <==> forall k :: 0 <= k < |PollutantMembers(j)| ==> PollutantDetail(PollutantMembers(j)[k]).Ok?)
    ensures EpisodeEntry(j, today).Ok? ==>
      && EpisodeEntry(j, today).value.date == JsonToDate(Get(j, "date"), today).value
      && EpisodeEntry(j, today).value.detail == Detail(j)
      && |EpisodeEntry(j, today).value.pollutants| == |PollutantMembers(j)|
      && forall k :: 0 <= k < |PollutantMembers(j)| ==>
           PollutantDetail(PollutantMembers(j)[k]) == Ok(EpisodeEntry(j, today).value.pollutants[k])
  {
    var w := PollutantMembers(j);
    forall k | 0 <= k < |w|
      ensures PollutantDetail.requires(w[k])
    {
      var e :| e in Entries(j) && e == w[k];
    }
    DecodeEachSucceeds(PollutantDetail, w);
  }

  /** An array of alerts decodes exactly when every alert does, to one episode per element, in order. */
  lemma DecodeEpisodeSucceeds(json: JsonValue, today: Date)
    requires Valid(today) && EpisodePayloadFits(json) && json.Array?
    ensures DecodeEpisode(json, today).Ok? <==> forall k :: 0 <= k < |json.items| ==> EpisodeEntry(json.items[k], today).Ok?
    ensures DecodeEpisode(json, today).Ok? ==>
      && |DecodeEpisode(json, today).value| == |json.items|
      && forall k :: 0 <= k < |json.items| ==> EpisodeEntry(json.items[k], today) == Ok(DecodeEpisode(json, today).value[k])
  {
    DecodeEachSucceeds(EpisodeElement(today), json.items);
  }

  /** Conversely, an alert with a day token whose pollutants decode to `ds`, one by one, gives an episode holding `ds`. */
  lemma EpisodeEntryFromDetails(j: JsonValue, today: Date, ds: seq<PollutantEpisode>)
    requires Valid(today) && PollutantDetailsFit(Entries(j))
    requires JsonToDate(Get(j, "date"), today).Ok? && |ds| == |PollutantMembers(j)|
    requires forall k :: 0 <= k < |ds| ==>
      CriteriaAreTokens(PollutantMembers(j)[k].1) && PollutantDetail(PollutantMembers(j)[k]) == Ok(ds[k])
    ensures EpisodeEntry(j, today) == Ok(EpisodeValue(JsonToDate(Get(j, "date"), today).value, Detail(j), ds))
  {
    DecodeEachAllOk(PollutantDetail, PollutantMembers(j), ds);
  }

  /** Conversely, an array whose alerts decode to `es`, one by one, decodes to `es`. */
  lemma DecodeEpisodeFromEntries(items: seq<JsonValue>, today: Date, es: seq<EpisodeValue>)
    requires Valid(today) && |es| == |items|
    requires forall k :: 0 <= k < |items| ==> PollutantDetailsFit(Entries(items[k])) && EpisodeEntry(items[k], today) == Ok(es[k])
    ensures DecodeEpisode(Array(items), today) == Ok(es)
  {
    DecodeEachAllOk(EpisodeElement(today), items, es);
  }

  /**
   * The inner loop of `episode_to_episode`: one `add` on `episode` per
   * member but `date` and `detail`, in source order, stopping at the first
   * member that does not decode.
   */
  method AddPollutants(episode: Episode, entries: seq<(string, JsonValue)>) returns (r: Result<(), RParifError>)
    requires PollutantDetailsFit(entries) && episode.pollutants == []
    modifies episode
    ensures episode.date == old(episode.date) && episode.detail == old(episode.detail)
    ensures r.Err? <==> PollutantDetails(entries).Err?
    ensures r.Err? ==> r.error == PollutantDetails(entries).error
    ensures r.Ok? ==> PollutantDetails(entries) == Ok(episode.pollutants)
  {
    var k := 0;
    while k < |entries|
      invariant 0 <= k <= |entries|
      invariant episode.date == old(episode.date) && episode.detail == old(episode.detail)
      invariant PollutantDetails(entries[..k]) == Ok(episode.pollutants)
    {
      PollutantDetailsStep(entries, k, episode.pollutants);
      if entries[k].0 != "date" && entries[k].0 != "detail" {
        var p := PollutantDetail(entries[k]);
        if p.Err? {
          PollutantDetailsPrefixError(entries, k + 1);
          return Err(p.error);
        }
        ghost var before := episode.pollutants;
        episode.Add(p.value.pollutant, p.value.kind, p.value.level, p.value.criteria);
        assert episode.pollutants == before + [p.value];
      }
      k := k + 1;
    }
    assert entries[..k] == entries;
    return Ok(());
  }

  /**
   * The body of the alert loop of `episode_to_episode`: `Episode::new` with
   * the resolved date and the detail, then the pollutants added in place;
   * the result is the finished episode.
   */
  method EpisodeOf(j: JsonValue, today: Date) returns (r: Result<EpisodeValue, RParifError>)
    requires Valid(today) && PollutantDetailsFit(Entries(j))
    ensures r == EpisodeEntry(j, today)
  {
    var date := JsonToDate(Get(j, "date"), today);
    if date.Err? {
      return Err(date.error);
    }
    var detail := match AsStr(Get(j, "detail")) case Some(v) => (if v == "" then None else Some(v)) case None => None;
    var episode := new Episode(date.value, detail);
    var added := AddPollutants(episode, Entries(j));
    if added.Err? {
      return Err(added.error);
    }
    assert detail == Detail(j);
    return Ok(episode.Value());
  }

  /** `episode_to_episode`. */
  method EpisodeToEpisode(json: JsonValue, today: Date) returns (r: Result<seq<EpisodeValue>, RParifError>)
    requires Valid(today) && EpisodePayloadFits(json)
    ensures r == DecodeEpisode(json, today)
  {
    if !json.Array? {
      return Err(WrongJsonType("array", Dump(json)));
    }
    var data := json.items;
    var result: seq<EpisodeValue> := [];
    var i := 0;
    while i < |data|
      invariant 0 <= i <= |data|
      invariant Episodes(data[..i], today) == Ok(result)
    {
      EpisodesStep(data, i, today, result);
      var episode := EpisodeOf(data[i], today);
      if episode.Err? {
        EpisodesPrefixError(data, i + 1, today);
        return Err(episode.error);
      }
      result := result + [episode.value];
      i := i + 1;
    }
    assert data[..i] == data;
    return Ok(result);
  }

  lemma PollutantDetailsStep(es: seq<(string, JsonValue)>, n: nat, done: seq<PollutantEpisode>)
    requires n < |es| && PollutantDetailsFit(es) && PollutantDetails(es[..n]) == Ok(done)
    ensures es[n].0 == "date" || es[n].0 == "detail" ==> PollutantDetails(es[..n + 1]) == Ok(done)
    ensures es[n].0 != "date" && es[n].0 != "detail" && PollutantDetail(es[n]).Err? ==>
      PollutantDetails(es[..n + 1]) == Err(PollutantDetail(es[n]).error)
    ensures es[n].0 != "date" && es[n].0 != "detail" && PollutantDetail(es[n]).Ok? ==>
      PollutantDetails(es[..n + 1]) == Ok(done + [PollutantDetail(es[n]).value])
  {
    assert PollutantDetailsFit(es[..n + 1]);
    assert PollutantDetails(es[..n]) == DecodeEach(PollutantDetail, WithoutKeys(es[..n], {"date", "detail"}));
    assert PollutantDetails(es[..n + 1]) == DecodeEach(PollutantDetail, WithoutKeys(es[..n + 1], {"date", "detail"}));
    DecodeKeptStep(PollutantDetail, es, n, {"date", "detail"}, done);
  }

  lemma PollutantDetailsPrefixError(es: seq<(string, JsonValue)>, n: nat)
    requires n <= |es| && PollutantDetailsFit(es) && PollutantDetails(es[..n]).Err?
    ensures PollutantDetails(es) == PollutantDetails(es[..n])
  {
    DecodeKeptPrefixError(PollutantDetail, es, n, {"date", "detail"});
  }

  lemma EpisodesStep(items: seq<JsonValue>, n: nat, today: Date, done: seq<EpisodeValue>)
    requires n < |items| && Valid(today) && forall k :: 0 <= k < |items| ==> PollutantDetailsFit(Entries(items[k]))
    requires Episodes(items[..n], today) == Ok(done)
    ensures EpisodeEntry(items[n], today).Err? ==> Episodes(items[..n + 1], today) == Err(EpisodeEntry(items[n], today).error)
    ensures EpisodeEntry(items[n], today).Ok? ==> Episodes(items[..n + 1], today) == Ok(done + [EpisodeEntry(items[n], today).value])
  {
    DecodeEachStep(EpisodeElement(today), items, n, done);
  }

  lemma EpisodesPrefixError(items: seq<JsonValue>, n: nat, today: Date)
    requires n <= |items| && Valid(today) && forall k :: 0 <= k < |items| ==> PollutantDetailsFit(Entries(items[k]))
    requires Episodes(items[..n], today).Err?
    ensures Episodes(items, today) == Episodes(items[..n], today)
  {
    DecodeEachPrefixError(EpisodeElement(today), items, n);
  }
}
