# r-parif in Dafny

A verified model of the core of `rparif`, a Rust client for the AirParif
pollution API of Ile-de-France. The client calls four HTTP endpoints and
turns their JSON bodies into records:

- `indice`: the global index for yesterday, today and tomorrow;
- `indiceJour`: the global index and the index per pollutant for one relative day;
- `idxville`: the indices of a list of cities, given by INSEE code;
- `episode`: the pollution alerts, one per relative day.

Every failure the crate reports is a value of its error type `RParifError`. The crate also panics through `unwrap()` in a few places. The model states each of those as a precondition, and "## Left out" lists them.

The model follows the crate's modules `client.rs`, `objects.rs` and `error.rs`.

- `client.rs` is split into four files:
  - `client.dfy` holds the day resolvers, the field accessors, one HTTP query (`execute_query`) and the endpoint URLs.
  - `decoders.dfy` holds the four response decoders. Each one is an imperative method with the crate's loops. It is proved equal to a specification function, and lemmas say what a successful decode contains and which error a failing one reports.
  - `endpoints.dfy` holds the four public methods.
  - `fixtures.dfy` restates the crate's integration tests and unit test as lemmas and one method.
- `objects.rs` becomes `objects.dfy`. `Index` and the enumerations are datatypes. `Episode` is a class whose `Add` extends its pollutant list in place. Its iterator is a class with a cursor.
- `error.rs` becomes `errors.dfy`: the error datatype, `description`, `Display` and the `From` conversions.

Three supporting files model the libraries the client leans on:

- `json.dfy` models the `json` crate: the value tree, `has_key`, `[key]`, `entries`, `as_str`, `dump` and `to_string`.
  An object of the `json` crate cannot hold a key twice, because inserting a key replaces its value. The model's objects are lists of members, so `Get` returns the first match. The lemmas that relate lookup to membership (`GetMember` and the two `*FindsMember` lemmas) assume `UniqueKeys`.
- `dates.dfy` models `chrono`: the Gregorian calendar, the next and previous day, and a strict `dd/mm/yyyy` parser.
- `decimal.dfy` holds digit strings.

`wrappers.dfy` holds `Option` and `Result`. A `Result` with `:-` plays the role of Rust's `?` operator.

Four things outside the program are parameters:

- the HTTP library is a function from URL to response (`Transport`);
- the JSON parser is a function from text to value (`Parser`);
- the clock reading `Utc::today()` is the argument `today`;
- the tests' mock server base URL and map URLs are the arguments `base` and `maps`.

## Model

| member | source | states |
|---|---|---|
| Client.Resolve | src/client.rs:65-72 | A relative day resolves to a valid calendar date. |
| Client.JsonToDate | src/client.rs:64-76 | The error of the JSON day resolver is `UnexpectedDate` carrying the dump of the offending value. |
| Client.StringToDate | src/client.rs:89-101 | The error of the string day resolver is `UnexpectedDate` carrying the raw string. |
| Client.StringToDateResolvesTokens | src/client.rs:89-101 | The string resolver succeeds iff the input is one of `hier`, `jour`, `demain`. Each token resolves to its own day: yesterday, today, tomorrow. |
| Client.JsonToDateAgrees | src/client.rs:64-101 | On a JSON string, the JSON resolver gives the same date as the string resolver. It fails on every other kind of value. Its error shows the dumped value where the string resolver shows the raw text. |
| Client.GetNumberValue | src/client.rs:118-132 | A missing key gives `MissingJsonKey(key, dump of the object)`. A member that is not a number gives `WrongJsonType("number", dump of the member)`. Otherwise the result is the member's value. |
| Client.GetStringValue | src/client.rs:149-163 | The same three cases for strings, with `"string"` as the expected type. |
| Client.GetNumberValueFindsMember | src/client.rs:118-132 | On a parsed object, the number accessor returns `n` iff the object has the member `(key, n)`. |
| Client.GetStringValueFindsMember | src/client.rs:149-163 | On a parsed object, the string accessor returns `s` iff the object has the member `(key, s)`. |
| Client.DayToken | src/client.rs:476-480 | The token `index_day` sends for a day is non-empty and made of lower-case letters, so it needs no escaping. `StringToDateResolvesTokens` shows each token reads back as its own day. |
| Client.ExecuteQuery | src/client.rs:182-197 | A failed query reports only a transport error, a JSON error or a call error. |
| Client.ExecuteQueryPrecedence | src/client.rs:182-197 | A failure to send or read the body wins. A malformed body comes next, even with a failing status. A non-2xx status comes last. The query succeeds iff the body parses and the status is 2xx, and then it returns the parsed body. A `CallError` carries the URL, the dumped body and the status. |
| Client.Join | src/client.rs:520 | `cities.join(",")` starts with the first code and ends with the last. `JoinSplitRoundTrip` shows the codes can be split back out. |
| Client.IndexUrl | src/client.rs:443 | The `indice` URL is the base URL followed by `/indice?`. |
| Client.IndexDayUrl | src/client.rs:476-486 | The `indiceJour` URL is the base URL, then `/indiceJour?date=`, then the day's token. |
| Client.IndexCityUrl | src/client.rs:520-526 | The `idxville` URL is the base URL, then `/idxville?villes=`, then the comma-joined codes. |
| Client.EpisodeUrl | src/client.rs:558 | The `episode` URL is the base URL followed by `/episode?`. |
| Client.UrlsEndWithKey | src/client.rs:439-560 | Every endpoint URL ends with the credential parameter `key=<api key>`. |
| Client.JoinSplitRoundTrip | src/client.rs:518-529 | The `villes` parameter splits back at commas into the city codes it joins, given at least one code and no code holding a comma. |
| Client.IndexDayUrlInjective | src/client.rs:473-489 | Different relative days give different `indiceJour` URLs. |
| Dates.Succ | src/client.rs:68-70 | The next day is a valid date strictly after the given one. |
| Dates.Pred | src/client.rs:68-70 | The previous day is a valid date strictly before the given one. |
| Dates.SuccPredInverse | src/client.rs:68-70 | Stepping forward then back, or back then forward, returns the same day. |
| Dates.SuccIsNext | src/client.rs:68-70 | No valid date lies strictly between a day and the next one. |
| Dates.ParseDate | src/client.rs:276-277 | A successfully parsed date is a valid calendar date. |
| Dates.FormatDateParses | src/client.rs:276-277 | The canonical `dd/mm/yyyy` text of a date parses back to that date. |
| Dates.ParsedIsFormatted | src/client.rs:276-277 | Every text that parses is the canonical text of its date. |
| Dates.ParseDateExactly | src/client.rs:276-277 | A text parses to `d` iff it is the canonical text of `d`. |
| Json.Get | src/client.rs:119-130 | `json[key]` is `Null` when the key is absent or the value is not an object. Otherwise it is the value of a member named `key`. |
| Json.GetMember | src/client.rs:119-130 | On a parsed object, `has_key` holds and `json[key]` is `x` iff `(key, x)` is a member. |
| Errors.Description | src/error.rs:86-101 | One fixed message per variant, whatever the payload. `DescriptionIdentifiesVariant` shows the eight messages are pairwise different. |
| Errors.Display | src/error.rs:48-84 | The unexpected-date and wrong-type messages start with their variant's description. The unknown-enum message never does, because it spells `valu`. `DisplayShowsPayload` says where each payload appears. |
| Errors.DescriptionIdentifiesVariant | src/error.rs:86-101 | Two errors have the same description iff they are of the same variant. |
| Errors.DisplayShowsPayload | src/error.rs:48-84 | Each message written by the crate shows its payload. The token or date ends the message. The key follows `Missing key `, ` in ` follows the key, and the JSON ends the message. The expected type follows the fixed prefix, ` but got ` follows it, and the actual JSON ends the message. |
| Errors.DisplayDeterminesToken | src/error.rs:56-64 | Two unknown-enum messages, or two unexpected-date messages, are equal only for equal errors. |
| Errors.FromRequestError | src/error.rs:103-108 | The HTTP library's error becomes `RequestError` holding it. |
| Errors.FromJsonError | src/error.rs:110-115 | The JSON parser's error becomes `JsonError` holding it. |
| Errors.FromParseError | src/error.rs:117-122 | The date parser's error becomes `DateParseError` holding it. |
| Objects.IndexAccessors | src/objects.rs:45-84 | Each accessor of an `Index` returns the argument it was built from. |
| Objects.Episode.constructor | src/objects.rs:124-130 | A new episode has the given date and detail and no pollutants. |
| Objects.Episode.Add | src/objects.rs:143-150 | `add` appends exactly one pollutant, built from its arguments, at the end. The date and detail are unchanged. |
| Objects.Episode.IntoIter | src/objects.rs:182-188 | The iterator walks a copy of the episode and starts at position 0. |
| Objects.PollutantEpisodeIter.constructor | src/objects.rs:182-187 | A new iterator is at position 0 of its episode. |
| Objects.PollutantEpisodeIter.Next | src/objects.rs:199-208 | Before the end, `next` yields the pollutant at the cursor and advances by one. At the end, it yields `None` and stays put. |
| Objects.Drain | src/objects.rs:196-209 | Iterating to the end yields the remaining pollutants, each once and in order, and leaves the iterator exhausted. |
| Objects.ParseLevel | src/objects.rs:266-280 | An unknown token gives `UnkownEnumValue` carrying it. A known token gives the level whose token it is. |
| Objects.ParseType | src/objects.rs:292-304 | An unknown token gives `UnkownEnumValue` carrying it. A known token gives the type whose token it is. |
| Objects.ParseCriteria | src/objects.rs:316-328 | An unknown token gives `UnkownEnumValue` carrying it. A known token gives the criterion whose token it is. |
| Objects.LevelToken | src/objects.rs:266-280 | The token of each level in the `Level::from_str` table. `LevelTokensRoundTrip` shows it parses back to that level. |
| Objects.TypeToken | src/objects.rs:292-304 | The token of each alert type in the `Type::from_str` table. `TypeTokensRoundTrip` shows it parses back to that type. |
| Objects.CriteriaToken | src/objects.rs:316-328 | The token of each criterion in the `Criteria::from_str` table. `CriteriaTokensRoundTrip` shows it parses back to that criterion. |
| Objects.LevelTokensRoundTrip | src/objects.rs:266-280 | Every level's token parses back to that level. |
| Objects.TypeTokensRoundTrip | src/objects.rs:292-304 | Every alert type's token parses back to that type. |
| Objects.CriteriaTokensRoundTrip | src/objects.rs:316-328 | Every criterion's token parses back to that criterion. |
| Decoders.DecodeEachSucceeds | src/client.rs:221-245 | A loop using `?` succeeds iff every element decodes. It then returns one value per element, in order. |
| Decoders.DecodeEachFirstError | src/client.rs:221-245 | A failing loop reports the error of its first failing element, and all elements before it decode. |
| Decoders.DecodeEachAllOk | src/client.rs:221-245 | Elements that decode one by one to `ys` make the loop return `ys`. |
| Decoders.WithoutKeys | src/client.rs:280-281 | Skipping the excluded keys keeps only members of the object whose key is not excluded. |
| Decoders.WithoutKeysKeepsAll | src/client.rs:280-281 | Nothing is skipped when no member has an excluded key. |
| Decoders.IndexEntry | src/client.rs:221-242 | An `indice` element fails only with a decoding error. |
| Decoders.IndexEntryMeaning | src/client.rs:225-242 | A bad `date` token is reported before a bad `indice`. An element decodes iff its `date` resolves and its `indice` is a number. A record carries the resolved date, the `indice`, the single pollutant `global` and no INSEE code. Its map URL is present iff `url_carte` is present, and it is `url_carte.to_string()`: the raw text of a string, the dump of an array or object. |
| Decoders.DecodeIndex | src/client.rs:216-252 | A body that is not an array gives `WrongJsonType("array", dump)`. Every failure is a decoding error. |
| Decoders.DecodeIndexSucceeds | src/client.rs:216-252 | An array decodes iff every element does, to one record per element, in order. |
| Decoders.DecodeIndexFromEntries | src/client.rs:216-252 | Elements that decode one by one to `ys` make the array decode to `ys`. |
| Decoders.IndexToIndex | src/client.rs:216-252 | The loop with early return computes exactly `DecodeIndex`. |
| Decoders.DayEntry | src/client.rs:283-288 | A pollutant member of `indiceJour` fails only with a decoding error. |
| Decoders.DayEntryMeaning | src/client.rs:283-288 | A pollutant member fails iff its `indice` does. Its record is named after the member's key and dated by the object's `date`. It has a map URL iff `url_carte` is a string. |
| Decoders.DecodeIndexDay | src/client.rs:270-294 | `date` is checked first. A missing `date` gives `MissingJsonKey`. A non-string `date` gives `WrongJsonType("string", …)`. A malformed `date` gives `DateParseError`. |
| Decoders.MembersExcept | src/client.rs:280-281 | The members kept by `if key != …` are members of the object, and none has the excluded name. The decoders exclude `date` in `indiceJour` and `ninsee` in `idxville` (src/client.rs:322-323). |
| Decoders.DecodeIndexDaySucceeds | src/client.rs:270-294 | With a well-formed date, the object decodes iff every member but `date` does, to one record per member, in source order. |
| Decoders.DecodeIndexDayFromEntries | src/client.rs:270-294 | With a well-formed date, members that decode one by one to `ys` make the object decode to `ys`. |
| Decoders.IndexDayToIndex | src/client.rs:270-294 | The loop over `entries()` computes exactly `DecodeIndexDay`. |
| Decoders.StringItems | src/client.rs:329-332 | The `polluants` strings are read one per item, in order. |
| Decoders.PollutantNames | src/client.rs:328-334 | The `polluants` names are the strings of the array, in order. A `polluants` that is missing or not an array gives no names. |
| Decoders.CityDay | src/client.rs:326-341 | One day of one city fails only with a decoding error. |
| Decoders.CityDayMeaning | src/client.rs:326-341 | A key that is not a day token gives `UnexpectedDate(key)`, before `indice` is read. A member decodes iff its key is a day token and its `indice` is a number. A record has no map URL, the city's INSEE code, the `polluants` names and the `indice`. |
| Decoders.City | src/client.rs:320-343 | One city fails only with a decoding error. |
| Decoders.CitySucceeds | src/client.rs:320-343 | A missing `ninsee` gives `MissingJsonKey`, and a non-string one gives `WrongJsonType`. Otherwise the city decodes iff every other member does, to one record per member, in source order. |
| Decoders.CityFromDays | src/client.rs:320-343 | A city with a string `ninsee`, whose days decode one by one to `ys`, decodes to `ys`. |
| Decoders.CityUnfold | src/client.rs:320-323 | A city is its `ninsee` lookup followed by the decoding of its other members. |
| Decoders.DecodeIdxville | src/client.rs:312-354 | A body that is not an array gives `WrongJsonType("array", dump)`. Every failure is a decoding error. |
| Decoders.DecodeIdxvilleSucceeds | src/client.rs:312-354 | An array of cities decodes iff every city does. Its records are the cities' records concatenated in order. |
| Decoders.DecodeIdxvilleFromCities | src/client.rs:312-354 | Cities that decode one by one to `parts` make the array decode to the concatenation of `parts`. |
| Decoders.PushCity | src/client.rs:318-344 | The body of the city loop fails exactly as `City` does. Otherwise it appends that city's records to the result so far. |
| Decoders.IdxvilleToIndex | src/client.rs:312-354 | The nested loops compute exactly `DecodeIdxville`. |
| Decoders.CriteriaItems | src/client.rs:395-401 | The `criteres` items are parsed one per item, in order. |
| Decoders.CriteriaList | src/client.rs:395-401 | The criteria are the parsed `criteres` items, in order, each printing back as its item. A `criteres` that is not an array gives none. |
| Decoders.Detail | src/client.rs:382-388 | The detail is present iff `detail` is a non-empty string, and then it is that string. |
| Decoders.PollutantDetail | src/client.rs:391-402 | One pollutant of an alert fails only with a decoding error. |
| Decoders.PollutantDetailMeaning | src/client.rs:391-402 | `type` is checked before `niveau`. Each is checked for presence, then string type, then a known token. A missing or non-string one gives the accessor's error, and an unknown token gives `UnkownEnumValue`. A member decodes iff both are strings holding known tokens. A detail is named after its key, and its kind and level print back as the payload's tokens. |
| Decoders.EpisodeEntry | src/client.rs:380-405 | One alert fails only with a decoding error. |
| Decoders.PollutantDetails | src/client.rs:390-404 | Decoding the pollutant members of an alert fails only with a decoding error. |
| Decoders.PollutantMembers | src/client.rs:390-391 | An alert's pollutant members are members of the object and none is named `date` or `detail`. |
| Decoders.Episodes | src/client.rs:379-406 | Decoding a list of alerts fails only with a decoding error. |
| Decoders.EpisodeEntrySucceeds | src/client.rs:380-405 | A bad `date` token is reported before any pollutant is read. Otherwise the alert decodes iff every member but `date` and `detail` does. The episode holds the resolved date, the detail, and one pollutant per member in source order. |
| Decoders.EpisodeEntryFromDetails | src/client.rs:380-405 | An alert with a day token, whose pollutants decode one by one to `ds`, decodes to the episode holding `ds`. |
| Decoders.DecodeEpisode | src/client.rs:375-416 | A body that is not an array gives `WrongJsonType("array", dump)`. Every failure is a decoding error. |
| Decoders.DecodeEpisodeSucceeds | src/client.rs:375-416 | An array of alerts decodes iff every alert does, to one episode per alert, in order. |
| Decoders.DecodeEpisodeFromEntries | src/client.rs:375-416 | Alerts that decode one by one to `es` make the array decode to `es`. |
| Decoders.AddPollutants | src/client.rs:389-404 | The inner loop fails iff decoding the pollutant members fails, with the same error. Otherwise the episode's pollutants are exactly the decoded details, added in place in source order. The date and detail are unchanged. |
| Decoders.EpisodeOf | src/client.rs:380-405 | Building an episode with `Episode::new` and `add` computes exactly `EpisodeEntry`. |
| Decoders.EpisodeToEpisode | src/client.rs:375-416 | The loop over the alerts computes exactly `DecodeEpisode`. |
| Endpoints.QueryIndex | src/client.rs:439-445 | A failed query is returned unchanged, and a successful one is decoded by `DecodeIndex`. The error variant tells whether the query or the decoding failed. A `CallError` names the `indice` URL. |
| Endpoints.QueryIndexDay | src/client.rs:473-489 | The same composition, on the `indiceJour` URL of the day, with `DecodeIndexDay`. |
| Endpoints.QueryIndexCity | src/client.rs:518-529 | The same composition, on the `idxville` URL of the joined city codes, with `DecodeIdxville`. |
| Endpoints.QueryEpisode | src/client.rs:555-560 | The same composition, on the `episode` URL, with `DecodeEpisode`. |
| Fixtures.IndiceBodyDecodes | tests/integration_test.rs:17-65 | Any array of `{date, indice, url_carte}` readings decodes to one global index per reading, with its resolved day and map URL. |
| Fixtures.IndiceFixture | tests/integration_test.rs:17-65 | The test's three readings decode to the three records the test expects. |
| Fixtures.IndiceNotAnArray | src/client.rs:247-250 | A single reading that is not wrapped in an array is rejected as `WrongJsonType("array", …)`. |
| Fixtures.IndiceBadDate | src/client.rs:225 | A reading dated `lundi` is rejected with `UnexpectedDate("\"lundi\"")`. |
| Fixtures.IndiceDayBodyDecodes | tests/integration_test.rs:67-123 | Any `indiceJour` object with a well-formed date and pollutant members decodes to one record per pollutant, dated by that date, in order. |
| Fixtures.TestDateParses | tests/integration_test.rs:78 | `09/08/2012` parses to 9 August 2012. |
| Fixtures.IndiceDayFixture | tests/integration_test.rs:67-123 | The test's body decodes to the four records the test expects. |
| Fixtures.IdxvilleBodyDecodes | tests/integration_test.rs:125-199 | Any array of cities keyed by day tokens decodes to the cities' records, concatenated in order. |
| Fixtures.IdxvilleFixture | tests/integration_test.rs:125-199 | The test's two cities decode to the six records the test expects. |
| Fixtures.CityBadDayKey | src/client.rs:326 | A city member whose key is not a day token is rejected with `UnexpectedDate(key)`. |
| Fixtures.IdxvilleBadDayKey | src/client.rs:326 | A city member keyed `lundi` is rejected with `UnexpectedDate("lundi")`. |
| Fixtures.DetailJsonDecodes | tests/integration_test.rs:201-271 | A pollutant member written with the tokens of a detail decodes back to that detail. |
| Fixtures.AlertJsonDecodes | tests/integration_test.rs:201-271 | An alert written with a day token, its pollutants and a detail text decodes to its episode. An empty text gives no detail. |
| Fixtures.EpisodeBodyDecodes | tests/integration_test.rs:201-271 | Any array of such alerts decodes to their episodes, in order. |
| Fixtures.EpisodeFixture | tests/integration_test.rs:201-271 | The test's three alerts decode to the three episodes the test expects. |
| Fixtures.AlertUnknownKind | src/client.rs:393 | An alert whose pollutant has an unknown `type` is rejected with `UnkownEnumValue` carrying that token. |
| Fixtures.EpisodeUnknownKind | src/client.rs:393 | A pollutant typed `estime` is rejected with `UnkownEnumValue("estime")`. |
| Fixtures.IndexCityUrlFixture | tests/integration_test.rs:129-144 | With the key `dummy`, the codes `75120` and `94038` give `<base>/idxville?villes=75120,94038&key=dummy`. |
| Fixtures.IterateEpisodeExample | src/objects.rs:336-370 | An episode with three pollutants added in place, walked with `next`, yields them in the order of the `add` calls. |

## Left out

- HTTP transport: `reqwest`, the request itself and the reading of the body are the `Transport` parameter. The JSON parser `json::parse` is the `Parser` parameter.
- Clock: `Utc::today()` is the argument `today`.
- Client constructors: `RParifClient::new` and `new_test` (src/client.rs:30-51) only build a `reqwest` client next to the key and base URL. The model's client is the record of key and base URL. The integration tests call `new_test` with a base URL as a second argument, which the one-argument `new_test` in src/client.rs does not take; the model follows the tests by taking the base URL as an argument.
- Logging: the `debug!` calls are not modelled.
- Optional features: the `serde` derives are not modelled.
- Library documentation: src/lib.rs is not part of this model.
- Display of objects: the `Display` impls of `Index`, `Episode` and `PollutantEpisode` (src/objects.rs:87-95, 168-176, 247-255) print through Rust's `Debug` formatting and chrono's date format. They are not modelled.
- Errors.Display: covers only the four variants whose text the crate writes from string payloads. `RequestError`, `JsonError` and `DateParseError` delegate to foreign libraries. `CallError` prints its body with Rust's `Debug` string escaping.
- Json.Dump: a compact serialiser. The `json` crate's exact escaping of control characters and its number formatting are not reproduced.
- JSON numbers: they are integers; floating-point numbers are not modelled.
- Dates.ParseDate: accepts only the canonical ten-character `dd/mm/yyyy` text. chrono's `%d/%m/%Y` also accepts other field widths and signed years, and its error kinds are reduced to four.
- Dates.Succ: years are unbounded. chrono's `checked_add_signed(..).unwrap()` would panic at the ends of its date range; the model never panics there.
- Dates.Pred: years are unbounded. chrono's `checked_sub_signed(..).unwrap()` would panic at the ends of its date range; the model never panics there.
- Client.GetNumberValue: `as_u32().unwrap()` panics on a number outside `u32`. The model states this as the precondition `NumberFits` instead of modelling a panic.
- Decoders.IndexToIndex: requires `NumberFits` of every element's `indice`. The source panics only on an element it actually reaches before an earlier error.
- Decoders.IndexDayToIndex: requires `NumberFits` of every pollutant member. The source panics only on a member it actually reaches.
- Decoders.IdxvilleToIndex: requires every `polluants` array to hold only strings, and every `indice` to fit. This covers all elements rather than only those reached before the first error, because `as_str().unwrap()` panics.
- Decoders.EpisodeToEpisode: requires every `criteres` item to be a string holding a known criterion token. This covers all elements rather than only those reached, because `parse().unwrap()` panics.
- Objects.Episode.IntoIter: the Rust iterator takes ownership of the episode. The model's iterator holds a copy of the episode's value, so moves and aliasing are not modelled.
- Decoders.EpisodeOf: the finished episode is returned as its value, where the source moves the `Episode` itself into the result vector.
- Fixtures.IndiceFixture: the mock server's map URLs are the parameter `maps`. Matching of the request path and query parameters is not modelled.
- Fixtures.IdxvilleFixture: the mock server's request matching is not modelled.
- Fixtures.EpisodeFixture: the alerts' pollutant names are assumed not to be `date` or `detail`.
