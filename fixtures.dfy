/**
 * The response bodies of the crate's integration tests and the records the
 * tests expect from them, with `today` standing for the day the tests run.
 * Each body is built from one shape per kind of element, and each shape is
 * decoded once for all its instances.
 */
module Fixtures {
  import opened Wrappers
  import opened Json
  import opened Dates
  import opened Errors
  import opened Objects
  import opened Client
  import opened Decoders
  import opened Decimal

  function Strings(ss: seq<string>): (r: seq<JsonValue>)
    ensures |r| == |ss| && forall k :: 0 <= k < |ss| ==> r[k] == Str(ss[k])
  {
    seq(|ss|, k requires 0 <= k < |ss| => Str(ss[k]))
  }

  // ----- `indice` -----

  /** A reading of the `indice` body: its day token, its index and its map. */
  datatype IndiceRow = IndiceRow(day: Day, indice: u32, mapUrl: string)

  function IndiceJson(row: IndiceRow): JsonValue {
    Object([("date", Str(DayToken(row.day))), ("indice", Number(row.indice)), ("url_carte", Str(row.mapUrl))])
  }

  function IndiceBody(rows: seq<IndiceRow>): (r: JsonValue)
    ensures r.Array? && |r.items| == |rows| && forall k :: 0 <= k < |rows| ==> r.items[k] == IndiceJson(rows[k])
  {
    Array(seq(|rows|, k requires 0 <= k < |rows| => IndiceJson(rows[k])))
  }

  lemma IndiceJsonDecodes(row: IndiceRow, today: Date)
    requires Valid(today)
    ensures NumberFits(IndiceJson(row), "indice")
    ensures IndexEntry(IndiceJson(row), today) == Ok(Index(Resolve(row.day, today), Some(row.mapUrl), ["global"], row.indice, None))
  {
    var value := IndiceJson(row);
    LookupAt(value.members, 0, "date");
    LookupAt(value.members, 1, "indice");
    LookupAt(value.members, 2, "url_carte");
    JsonToDateAgrees(Str(DayToken(row.day)), today);
    StringToDateResolvesTokens(DayToken(row.day), today);
    assert JsonToDate(Get(value, "date"), today) == Ok(Resolve(row.day, today));
    assert GetNumberValue("indice", value) == Ok(row.indice);
  }

  /** The records the readings stand for: one global index per reading. */
  function IndiceRecords(rows: seq<IndiceRow>, today: Date): (r: seq<Index>)
    requires Valid(today)
    ensures |r| == |rows|
    ensures forall k :: 0 <= k < |rows| ==> r[k] == Index(Resolve(rows[k].day, today), Some(rows[k].mapUrl), ["global"], rows[k].indice, None)
  {
    seq(|rows|, k requires 0 <= k < |rows| => Index(Resolve(rows[k].day, today), Some(rows[k].mapUrl), ["global"], rows[k].indice, None))
  }

  /** Any body of readings gives one global record per reading, dated by its token, in order. */
  lemma IndiceBodyDecodes(rows: seq<IndiceRow>, today: Date)
    requires Valid(today)
    ensures DecodeIndex(IndiceBody(rows), today) == Ok(IndiceRecords(rows, today))
  {
    var xs := IndiceBody(rows).items;
    var ys := IndiceRecords(rows, today);
    forall k | 0 <= k < |xs|
      ensures NumberFits(xs[k], "indice") && IndexEntry(xs[k], today) == Ok(ys[k])
    {
      IndiceJsonDecodes(rows[k], today);
    }
    DecodeIndexFromEntries(xs, today, ys);
  }

  /** The readings of the `indice` test, their maps under `maps`. */
  function TestReadings(maps: string): seq<IndiceRow> {
    [IndiceRow(Yesterday, 35, maps + "hier"), IndiceRow(Today, 50, maps + "jour"), IndiceRow(Tomorrow, 70, maps + "demain")]
  }

  lemma TestReadingRecords(maps: string, today: Date)
    requires Valid(today)
    ensures IndiceRecords(TestReadings(maps), today) == [
      Index(Pred(today), Some(maps + "hier"), ["global"], 35, None),
      Index(today, Some(maps + "jour"), ["global"], 50, None),
      Index(Succ(today), Some(maps + "demain"), ["global"], 70, None)
    ]
  {
  }

  /** The global index of yesterday, today and tomorrow, each with its map. */
  lemma IndiceFixture(maps: string, today: Date)
    requires Valid(today)
    ensures DecodeIndex(IndiceBody(TestReadings(maps)), today) == Ok([
      Index(Pred(today), Some(maps + "hier"), ["global"], 35, None),
      Index(today, Some(maps + "jour"), ["global"], 50, None),
      Index(Succ(today), Some(maps + "demain"), ["global"], 70, None)
    ])
  {
    IndiceBodyDecodes(TestReadings(maps), today);
    TestReadingRecords(maps, today);
  }

  /** A body that is not an array is refused before anything else is read. */
  lemma IndiceNotAnArray(row: IndiceRow, today: Date)
    requires Valid(today)
    ensures DecodeIndex(IndiceJson(row), today) == Err(WrongJsonType("array", Dump(IndiceJson(row))))
  {
  }

  /** A reading whose `date` is not a day token fails on it, with the token dumped as JSON. */
  lemma IndiceBadDate(today: Date)
    requires Valid(today)
    ensures IndexEntry(Object([("date", Str("lundi")), ("indice", Number(35))]), today)
      == Err(UnexpectedDate(Dump(Str("lundi"))))
  {
    LookupAt([("date", Str("lundi")), ("indice", Number(35))], 0, "date");
  }

  // ----- `indiceJour` -----

  /** A pollutant of the `indiceJour` body: its key, its index and its map. */
  datatype PollutantRow = PollutantRow(key: string, indice: u32, mapUrl: string)

  function PollutantJson(row: PollutantRow): (string, JsonValue) {
    (row.key, Object([("indice", Number(row.indice)), ("url_carte", Str(row.mapUrl))]))
  }

  function PollutantJsons(rows: seq<PollutantRow>): (r: seq<(string, JsonValue)>)
    ensures |r| == |rows| && forall k :: 0 <= k < |rows| ==> r[k] == PollutantJson(rows[k])
  {
    seq(|rows|, k requires 0 <= k < |rows| => PollutantJson(rows[k]))
  }

  function IndiceDayBody(date: string, rows: seq<PollutantRow>): JsonValue {
    Object([("date", Str(date))] + PollutantJsons(rows))
  }

  /** The records the pollutants stand for, all dated `date`. */
  function DayRecords(rows: seq<PollutantRow>, date: Date): (r: seq<Index>)
    ensures |r| == |rows|
    ensures forall k :: 0 <= k < |rows| ==> r[k] == Index(date, Some(rows[k].mapUrl), [rows[k].key], rows[k].indice, None)
  {
    seq(|rows|, k requires 0 <= k < |rows| => Index(date, Some(rows[k].mapUrl), [rows[k].key], rows[k].indice, None))
  }

  lemma PollutantJsonDecodes(row: PollutantRow, date: Date)
    ensures NumberFits(PollutantJson(row).1, "indice")
    ensures DayEntry(row.key, PollutantJson(row).1, date) == Ok(Index(date, Some(row.mapUrl), [row.key], row.indice, None))
  {
    LookupAt(PollutantJson(row).1.members, 0, "indice");
    LookupAt(PollutantJson(row).1.members, 1, "url_carte");
  }

  /** The members of an object that leads with `first`, none of whose other keys is excluded, are the others. */
  lemma MembersAfter(first: (string, JsonValue), rest: seq<(string, JsonValue)>, keys: set<string>)
    requires first.0 in keys
    requires forall k :: 0 <= k < |rest| ==> rest[k].0 !in keys
    ensures WithoutKeys([first] + rest, keys) == rest
  {
    WithoutKeysAppend([first], rest, keys);
    WithoutKeysSingle(first, keys);
    WithoutKeysKeepsAll(rest, keys);
  }

  /** A single element that fails makes the whole decode fail with its error. */
  lemma DecodeOneFailure<A, B>(f: A --> Result<B, RParifError>, x: A)
    requires f.requires(x) && f(x).Err?
    ensures DecodeEach(f, [x]) == Err(f(x).error)
  {
    assert [x][..0] == [];
  }

  /**
   * Any object with a well-formed `date` and pollutant members gives one
   * record per pollutant, in order, all dated by `date`.
   */
  lemma IndiceDayBodyDecodes(text: string, date: Date, rows: seq<PollutantRow>)
    requires ParseDate(text) == Ok(date)
    requires forall k :: 0 <= k < |rows| ==> rows[k].key != "date"
    ensures DayEntriesFit(Entries(IndiceDayBody(text, rows)))
    ensures DecodeIndexDay(IndiceDayBody(text, rows)) == Ok(DayRecords(rows, date))
  {
    var json := IndiceDayBody(text, rows);
    var ps := PollutantJsons(rows);
    forall k | 0 <= k < |ps| ensures NumberFits(ps[k].1, "indice") {
      PollutantJsonDecodes(rows[k], date);
    }
    forall k | 0 <= k < |json.members| && json.members[k].0 != "date"
      ensures NumberFits(json.members[k].1, "indice")
    {
      assert json.members[k] == ps[k - 1];
    }
    LookupAt(json.members, 0, "date");
    MembersAfter(("date", Str(text)), ps, {"date"});
    assert MembersExcept(json, "date") == ps;
    var ys := DayRecords(rows, date);
    forall k | 0 <= k < |ys|
      ensures NumberFits(ps[k].1, "indice") && DayEntry(ps[k].0, ps[k].1, date) == Ok(ys[k])
    {
      PollutantJsonDecodes(rows[k], date);
    }
    DecodeIndexDayFromEntries(json, date, ys);
  }

  /** The date of the `indiceJour` body is 9 August 2012. */
  lemma TestDateParses()
    ensures ParseDate("09/08/2012") == Ok(Date(2012, 8, 9))
  {
    var s := "09/08/2012";
    assert s[6..10] == "2012" && s[3..5] == "08" && s[0..2] == "09";
    assert IsDigit(s[0]) && IsDigit(s[1]) && IsDigit(s[3]) && IsDigit(s[4]);
    assert IsDigit(s[6]) && IsDigit(s[7]) && IsDigit(s[8]) && IsDigit(s[9]);
    assert HasDateShape(s);
    assert DigitsValue("2") == 2;
    assert "20"[..1] == "2";
    assert DigitsValue("20") == 20;
    assert "201"[..2] == "20";
    assert DigitsValue("201") == 201;
    assert "2012"[..3] == "201";
    assert DigitsValue("2012") == 2012;
    assert DigitsValue("08") == 8;
    assert DigitsValue("09") == 9;
  }

  /** The pollutants of the `indiceJour` test, their maps under `maps`. */
  function TestPollutants(maps: string): seq<PollutantRow> {
    [
      PollutantRow("global", 35, maps + "hier"),
      PollutantRow("o2", 20, maps + "hier/pol/O2"),
      PollutantRow("o3", 86, maps + "hier/pol/O3"),
      PollutantRow("pm10", 125, maps + "hier/pol/PM10")
    ]
  }

  lemma TestPollutantRecords(maps: string)
    ensures DayRecords(TestPollutants(maps), Date(2012, 8, 9)) == [
      Index(Date(2012, 8, 9), Some(maps + "hier"), ["global"], 35, None),
      Index(Date(2012, 8, 9), Some(maps + "hier/pol/O2"), ["o2"], 20, None),
      Index(Date(2012, 8, 9), Some(maps + "hier/pol/O3"), ["o3"], 86, None),
      Index(Date(2012, 8, 9), Some(maps + "hier/pol/PM10"), ["pm10"], 125, None)
    ]
  {
  }

  /** One record per pollutant key, in the body's order, all dated 9 August 2012. */
  lemma IndiceDayFixture(maps: string)
    ensures DecodeIndexDay(IndiceDayBody("09/08/2012", TestPollutants(maps))) == Ok([
      Index(Date(2012, 8, 9), Some(maps + "hier"), ["global"], 35, None),
      Index(Date(2012, 8, 9), Some(maps + "hier/pol/O2"), ["o2"], 20, None),
      Index(Date(2012, 8, 9), Some(maps + "hier/pol/O3"), ["o3"], 86, None),
      Index(Date(2012, 8, 9), Some(maps + "hier/pol/PM10"), ["pm10"], 125, None)
    ])
  {
    TestDateParses();
    IndiceDayBodyDecodes("09/08/2012", Date(2012, 8, 9), TestPollutants(maps));
    TestPollutantRecords(maps);
  }

  // ----- `idxville` -----

  /** A day of a city of the `idxville` body: its day token, its index and its pollutants. */
  datatype CityDayRow = CityDayRow(day: Day, indice: u32, pollutants: seq<string>)

  /** A city of the `idxville` body: its INSEE code and its days. */
  datatype CityRow = CityRow(insee: string, days: seq<CityDayRow>)

  function CityDayJson(row: CityDayRow): (string, JsonValue) {
    (DayToken(row.day), Object([("indice", Number(row.indice)), ("polluants", Array(Strings(row.pollutants)))]))
  }

  function CityDayJsons(rows: seq<CityDayRow>): (r: seq<(string, JsonValue)>)
    ensures |r| == |rows| && forall k :: 0 <= k < |rows| ==> r[k] == CityDayJson(rows[k])
  {
    seq(|rows|, k requires 0 <= k < |rows| => CityDayJson(rows[k]))
  }

  function CityJson(city: CityRow): JsonValue {
    Object([("ninsee", Str(city.insee))] + CityDayJsons(city.days))
  }

  function IdxvilleBody(cities: seq<CityRow>): (r: JsonValue)
    ensures r.Array? && |r.items| == |cities| && forall k :: 0 <= k < |cities| ==> r.items[k] == CityJson(cities[k])
  {
    Array(seq(|cities|, k requires 0 <= k < |cities| => CityJson(cities[k])))
  }

  /** The records a city stands for: one per day, with the city's INSEE code. */
  function CityRecords(city: CityRow, today: Date): (r: seq<Index>)
    requires Valid(today)
    ensures |r| == |city.days|
    ensures forall k :: 0 <= k < |city.days| ==>
      r[k] == Index(Resolve(city.days[k].day, today), None, city.days[k].pollutants, city.days[k].indice, Some(city.insee))
  {
    seq(|city.days|, k requires 0 <= k < |city.days| =>
      Index(Resolve(city.days[k].day, today), None, city.days[k].pollutants, city.days[k].indice, Some(city.insee)))
  }

  function CitiesRecords(cities: seq<CityRow>, today: Date): (r: seq<seq<Index>>)
    requires Valid(today)
    ensures |r| == |cities| && forall k :: 0 <= k < |cities| ==> r[k] == CityRecords(cities[k], today)
  {
    seq(|cities|, k requires 0 <= k < |cities| => CityRecords(cities[k], today))
  }

  lemma CityDayJsonDecodes(insee: string, row: CityDayRow, today: Date)
    requires Valid(today)
    ensures CityDayJson(row).0 != "ninsee" && CityDayFits(CityDayJson(row).1)
    ensures CityDay(insee, CityDayJson(row).0, CityDayJson(row).1, today)
      == Ok(Index(Resolve(row.day, today), None, row.pollutants, row.indice, Some(insee)))
  {
    var value := CityDayJson(row).1;
    LookupAt(value.members, 0, "indice");
    LookupAt(value.members, 1, "polluants");
    var names := PollutantNames(value);
    assert names == row.pollutants by {
      forall k | 0 <= k < |names| ensures names[k] == row.pollutants[k] {
        assert Str(names[k]) == Str(row.pollutants[k]);
      }
    }
    StringToDateResolvesTokens(DayToken(row.day), today);
  }

  /** Any city gives one record per day, in the order of its members. */
  lemma CityJsonDecodes(city: CityRow, today: Date)
    requires Valid(today)
    ensures CityDaysFit(Entries(CityJson(city)))
    ensures City(CityJson(city), today) == Ok(CityRecords(city, today))
  {
    var json := CityJson(city);
    var ds := CityDayJsons(city.days);
    forall k | 0 <= k < |ds| ensures ds[k].0 != "ninsee" && CityDayFits(ds[k].1) {
      CityDayJsonDecodes(city.insee, city.days[k], today);
    }
    forall k | 0 <= k < |json.members| && json.members[k].0 != "ninsee"
      ensures CityDayFits(json.members[k].1)
    {
      assert json.members[k] == ds[k - 1];
    }
    LookupAt(json.members, 0, "ninsee");
    MembersAfter(("ninsee", Str(city.insee)), ds, {"ninsee"});
    assert MembersExcept(json, "ninsee") == ds;
    var ys := CityRecords(city, today);
    forall k | 0 <= k < |ys|
      ensures CityDayFits(ds[k].1) && CityDay(city.insee, ds[k].0, ds[k].1, today) == Ok(ys[k])
    {
      CityDayJsonDecodes(city.insee, city.days[k], today);
    }
    CityFromDays(json, today, ys);
  }

  /** Any array of cities gives the records of each city, one city after the other. */
  lemma IdxvilleBodyDecodes(cities: seq<CityRow>, today: Date)
    requires Valid(today)
    ensures IdxvillePayloadFits(IdxvilleBody(cities))
    ensures DecodeIdxville(IdxvilleBody(cities), today) == Ok(Concat(CitiesRecords(cities, today)))
  {
    var xs := IdxvilleBody(cities).items;
    var parts := CitiesRecords(cities, today);
    forall k | 0 <= k < |xs|
      ensures CityDaysFit(Entries(xs[k])) && City(xs[k], today) == Ok(parts[k])
    {
      CityJsonDecodes(cities[k], today);
    }
    DecodeIdxvilleFromCities(xs, today, parts);
  }

  /** The two cities of the `idxville` test. */
  function TestCities(): seq<CityRow> {
    [
      CityRow("75101", [CityDayRow(Yesterday, 25, ["no2", "pm10"]), CityDayRow(Today, 50, ["pm10"]), CityDayRow(Tomorrow, 36, ["o3"])]),
      CityRow("94028", [CityDayRow(Yesterday, 100, ["no2"]), CityDayRow(Today, 40, ["o3"]), CityDayRow(Tomorrow, 95, ["o3", "no2", "pm10"])])
    ]
  }

  /** A city reported for yesterday, today and tomorrow, in that order. */
  lemma ThreeDayRecords(insee: string, n1: u32, p1: seq<string>, n2: u32, p2: seq<string>, n3: u32, p3: seq<string>, today: Date)
    requires Valid(today)
    ensures CityRecords(CityRow(insee, [CityDayRow(Yesterday, n1, p1), CityDayRow(Today, n2, p2), CityDayRow(Tomorrow, n3, p3)]), today) == [
      Index(Pred(today), None, p1, n1, Some(insee)),
      Index(today, None, p2, n2, Some(insee)),
      Index(Succ(today), None, p3, n3, Some(insee))
    ]
  {
  }

  lemma TestCityRecords(today: Date)
    requires Valid(today)
    ensures Concat(CitiesRecords(TestCities(), today)) == [
      Index(Pred(today), None, ["no2", "pm10"], 25, Some("75101")),
      Index(today, None, ["pm10"], 50, Some("75101")),
      Index(Succ(today), None, ["o3"], 36, Some("75101")),
      Index(Pred(today), None, ["no2"], 100, Some("94028")),
      Index(today, None, ["o3"], 40, Some("94028")),
      Index(Succ(today), None, ["o3", "no2", "pm10"], 95, Some("94028"))
    ]
  {
    var parts := CitiesRecords(TestCities(), today);
    assert |parts| == 2;
    ThreeDayRecords("75101", 25, ["no2", "pm10"], 50, ["pm10"], 36, ["o3"], today);
    ThreeDayRecords("94028", 100, ["no2"], 40, ["o3"], 95, ["o3", "no2", "pm10"], today);
    assert parts[..1][..0] == [];
    assert Concat(parts[..1]) == parts[0];
    assert parts[..|parts| - 1] == parts[..1];
    assert Concat(parts) == parts[0] + parts[1];
  }

  /** Six records: the three days of the first city, then those of the second. */
  lemma IdxvilleFixture(today: Date)
    requires Valid(today)
    ensures IdxvillePayloadFits(IdxvilleBody(TestCities()))
    ensures DecodeIdxville(IdxvilleBody(TestCities()), today) == Ok([
      Index(Pred(today), None, ["no2", "pm10"], 25, Some("75101")),
      Index(today, None, ["pm10"], 50, Some("75101")),
      Index(Succ(today), None, ["o3"], 36, Some("75101")),
      Index(Pred(today), None, ["no2"], 100, Some("94028")),
      Index(today, None, ["o3"], 40, Some("94028")),
      Index(Succ(today), None, ["o3", "no2", "pm10"], 95, Some("94028"))
    ])
  {
    IdxvilleBodyDecodes(TestCities(), today);
    TestCityRecords(today);
  }

  /** A city member that is not a day token is reported, as it is, as an unexpected date. */
  lemma CityBadDayKey(insee: string, key: string, value: JsonValue, today: Date)
    requires Valid(today) && CityDayFits(value)
    requires key != "ninsee" && key != "hier" && key != "jour" && key != "demain"
    ensures CityDaysFit(Entries(Object([("ninsee", Str(insee)), (key, value)])))
    ensures City(Object([("ninsee", Str(insee)), (key, value)]), today) == Err(UnexpectedDate(key))
  {
    var json := Object([("ninsee", Str(insee)), (key, value)]);
    LookupAt(json.members, 0, "ninsee");
    MembersAfter(json.members[0], [(key, value)], {"ninsee"});
    assert json.members == [json.members[0]] + [(key, value)];
    var xs := [(key, value)];
    assert MembersExcept(json, "ninsee") == xs;
    var f := CityDayElement(insee, today);
    StringToDateResolvesTokens(key, today);
    assert f(xs[0]) == Err(UnexpectedDate(key));
    DecodeOneFailure(f, xs[0]);
    assert GetStringValue("ninsee", json) == Ok(insee);
  }

  /** The instance of the above with the key `lundi`. */
  lemma IdxvilleBadDayKey(today: Date)
    requires Valid(today)
    ensures City(Object([("ninsee", Str("75101")), ("lundi", CityDayJson(CityDayRow(Today, 25, [])).1)]), today)
      == Err(UnexpectedDate("lundi"))
  {
    CityDayJsonDecodes("75101", CityDayRow(Today, 25, []), today);
    CityBadDayKey("75101", "lundi", CityDayJson(CityDayRow(Today, 25, [])).1, today);
  }

  // ----- `episode` -----

  function CriteriaJsons(criteria: seq<Criteria>): (r: seq<JsonValue>)
    ensures |r| == |criteria| && forall k :: 0 <= k < |criteria| ==> r[k] == Str(CriteriaToken(criteria[k]))
  {
    seq(|criteria|, k requires 0 <= k < |criteria| => Str(CriteriaToken(criteria[k])))
  }

  /** A pollutant of an alert, written as the member the API sends for it. */
  function DetailJson(p: PollutantEpisode): (string, JsonValue) {
    (p.pollutant, Object([
      ("type", Str(TypeToken(p.kind))),
      ("niveau", Str(LevelToken(p.level))),
      ("criteres", Array(CriteriaJsons(p.criteria)))
    ]))
  }

  function DetailJsons(ps: seq<PollutantEpisode>): (r: seq<(string, JsonValue)>)
    ensures |r| == |ps| && forall k :: 0 <= k < |ps| ==> r[k] == DetailJson(ps[k])
  {
    seq(|ps|, k requires 0 <= k < |ps| => DetailJson(ps[k]))
  }

  /** An alert of the `episode` body: its day token, its pollutants and its advice. */
  datatype AlertRow = AlertRow(day: Day, pollutants: seq<PollutantEpisode>, detail: string)

  function AlertJson(alert: AlertRow): JsonValue {
    Object([("date", Str(DayToken(alert.day)))] + DetailJsons(alert.pollutants) + [("detail", Str(alert.detail))])
  }

  function EpisodeBody(alerts: seq<AlertRow>): (r: JsonValue)
    ensures r.Array? && |r.items| == |alerts| && forall k :: 0 <= k < |alerts| ==> r.items[k] == AlertJson(alerts[k])
  {
    Array(seq(|alerts|, k requires 0 <= k < |alerts| => AlertJson(alerts[k])))
  }

  /** The episode an alert stands for: an empty advice is no advice. */
  function AlertValue(alert: AlertRow, today: Date): EpisodeValue
    requires Valid(today)
  {
    EpisodeValue(Resolve(alert.day, today), if alert.detail == "" then None else Some(alert.detail), alert.pollutants)
  }

  function AlertValues(alerts: seq<AlertRow>, today: Date): (r: seq<EpisodeValue>)
    requires Valid(today)
    ensures |r| == |alerts| && forall k :: 0 <= k < |alerts| ==> r[k] == AlertValue(alerts[k], today)
  {
    seq(|alerts|, k requires 0 <= k < |alerts| => AlertValue(alerts[k], today))
  }

  /** Pollutant names that the decoder does not take for `date` or `detail`. */
  predicate PlainNames(ps: seq<PollutantEpisode>) {
    forall k :: 0 <= k < |ps| ==> ps[k].pollutant != "date" && ps[k].pollutant != "detail"
  }

  /** Criteria written as their tokens are read back as the same criteria. */
  lemma CriteriaJsonsDecode(value: JsonValue, criteria: seq<Criteria>)
    requires Get(value, "criteres") == Array(CriteriaJsons(criteria))
    ensures CriteriaAreTokens(value) && CriteriaList(value) == criteria
  {
    var items := CriteriaJsons(criteria);
    forall k | 0 <= k < |items| ensures items[k].Str? && ParseCriteria(items[k].s) == Ok(criteria[k]) {
      CriteriaTokensRoundTrip(criteria[k]);
    }
    var cs := CriteriaList(value);
    forall k | 0 <= k < |cs| ensures cs[k] == criteria[k] {
      CriteriaTokensRoundTrip(cs[k]);
      CriteriaTokensRoundTrip(criteria[k]);
    }
  }

  lemma DetailJsonDecodes(p: PollutantEpisode)
    ensures CriteriaAreTokens(DetailJson(p).1)
    ensures PollutantDetail(DetailJson(p)) == Ok(p)
  {
    var value := DetailJson(p).1;
    LookupAt(value.members, 0, "type");
    LookupAt(value.members, 1, "niveau");
    LookupAt(value.members, 2, "criteres");
    CriteriaJsonsDecode(value, p.criteria);
    TypeTokensRoundTrip(p.kind);
    LevelTokensRoundTrip(p.level);
    assert GetStringValue("type", value) == Ok(TypeToken(p.kind));
    assert GetStringValue("niveau", value) == Ok(LevelToken(p.level));
  }

  /** The members of an alert: `date`, then the pollutants, then `detail`. */
  lemma AlertMembers(date: JsonValue, ds: seq<(string, JsonValue)>, detail: JsonValue)
    requires forall k :: 0 <= k < |ds| ==> ds[k].0 != "date" && ds[k].0 != "detail"
    ensures var json := Object([("date", date)] + ds + [("detail", detail)]);
      && Get(json, "date") == date
      && Get(json, "detail") == detail
      && PollutantMembers(json) == ds
  {
    var json := Object([("date", date)] + ds + [("detail", detail)]);
    var n := |json.members|;
    LookupAt(json.members, 0, "date");
    forall k | 0 <= k < n - 1 ensures json.members[k].0 != "detail" {
      if k > 0 { assert json.members[k] == ds[k - 1]; }
    }
    LookupAt(json.members, n - 1, "detail");
    WithoutKeysAppend([("date", date)] + ds, [("detail", detail)], {"date", "detail"});
    MembersAfter(("date", date), ds, {"date", "detail"});
    WithoutKeysSingle(("detail", detail), {"date", "detail"});
    assert ds + [] == ds;
  }

  /** The pollutant members of an alert are all that its decoder needs to fit. */
  lemma AlertFits(date: JsonValue, ds: seq<(string, JsonValue)>, detail: JsonValue)
    requires forall k :: 0 <= k < |ds| ==> CriteriaAreTokens(ds[k].1)
    ensures PollutantDetailsFit(Entries(Object([("date", date)] + ds + [("detail", detail)])))
  {
    var es := [("date", date)] + ds + [("detail", detail)];
    forall k | 0 <= k < |es| && es[k].0 != "date" && es[k].0 != "detail"
      ensures CriteriaAreTokens(es[k].1)
    {
      assert 0 < k < |es| - 1;
      assert es[k] == ds[k - 1];
    }
  }

  /** An alert is its day token resolved, then its pollutants decoded in order, then its advice. */
  lemma AlertOfMembers(day: Day, ds: seq<(string, JsonValue)>, detail: string, today: Date)
    requires Valid(today)
    requires forall k :: 0 <= k < |ds| ==> ds[k].0 != "date" && ds[k].0 != "detail" && CriteriaAreTokens(ds[k].1)
    ensures PollutantDetailsFit(Entries(Object([("date", Str(DayToken(day)))] + ds + [("detail", Str(detail))])))
    ensures EpisodeEntry(Object([("date", Str(DayToken(day)))] + ds + [("detail", Str(detail))]), today) ==
      match DecodeEach(PollutantDetail, ds)
      case Err(e) => Err(e)
      case Ok(ps) => Ok(EpisodeValue(Resolve(day, today), if detail == "" then None else Some(detail), ps))
  {
    AlertFits(Str(DayToken(day)), ds, Str(detail));
    AlertMembers(Str(DayToken(day)), ds, Str(detail));
    JsonToDateAgrees(Str(DayToken(day)), today);
    StringToDateResolvesTokens(DayToken(day), today);
  }

  /** Any alert gives its day, its advice unless empty, and its pollutants in order. */
  lemma AlertJsonDecodes(alert: AlertRow, today: Date)
    requires Valid(today) && PlainNames(alert.pollutants)
    ensures PollutantDetailsFit(Entries(AlertJson(alert)))
    ensures EpisodeEntry(AlertJson(alert), today) == Ok(AlertValue(alert, today))
  {
    var ds := DetailJsons(alert.pollutants);
    forall k | 0 <= k < |ds| ensures CriteriaAreTokens(ds[k].1) && PollutantDetail(ds[k]) == Ok(alert.pollutants[k]) {
      DetailJsonDecodes(alert.pollutants[k]);
    }
    DecodeEachAllOk(PollutantDetail, ds, alert.pollutants);
    AlertOfMembers(alert.day, ds, alert.detail, today);
  }

  /** Any array of alerts gives one episode per alert, in order. */
  lemma EpisodeBodyDecodes(alerts: seq<AlertRow>, today: Date)
    requires Valid(today)
    requires forall k :: 0 <= k < |alerts| ==> PlainNames(alerts[k].pollutants)
    ensures EpisodePayloadFits(EpisodeBody(alerts))
    ensures DecodeEpisode(EpisodeBody(alerts), today) == Ok(AlertValues(alerts, today))
  {
    var xs := EpisodeBody(alerts).items;
    var es := AlertValues(alerts, today);
    forall k | 0 <= k < |xs|
      ensures PollutantDetailsFit(Entries(xs[k])) && EpisodeEntry(xs[k], today) == Ok(es[k])
    {
      AlertJsonDecodes(alerts[k], today);
    }
    DecodeEpisodeFromEntries(xs, today, es);
  }

  const Advice: string := "Il est conseillé d'éviter les déplacements en Ile de France"

  /** The three alerts of the `episode` test. */
  function TestAlerts(): seq<AlertRow> {
    [
      AlertRow(Yesterday, [
        PollutantEpisode("o3", Observed, Info, [Area, Population]),
        PollutantEpisode("so2", Observed, Alert, [Population])
      ], ""),
      AlertRow(Today, [
        PollutantEpisode("no2", Observed, Normal, [Area]),
        PollutantEpisode("so2", Observed, Alert, [Area])
      ], Advice),
      AlertRow(Tomorrow, [], "")
    ]
  }

  lemma TestAlertValues(today: Date)
    requires Valid(today)
    ensures forall k :: 0 <= k < |TestAlerts()| ==> PlainNames(TestAlerts()[k].pollutants)
    ensures AlertValues(TestAlerts(), today) == [
      EpisodeValue(Pred(today), None, [
        PollutantEpisode("o3", Observed, Info, [Area, Population]),
        PollutantEpisode("so2", Observed, Alert, [Population])
      ]),
      EpisodeValue(today, Some(Advice), [
        PollutantEpisode("no2", Observed, Normal, [Area]),
        PollutantEpisode("so2", Observed, Alert, [Area])
      ]),
      EpisodeValue(Succ(today), None, [])
    ]
  {
  }

  /** Three episodes, the pollutants of each in the body's order, advice only where the text is not empty. */
  lemma EpisodeFixture(today: Date)
    requires Valid(today)
    ensures EpisodePayloadFits(EpisodeBody(TestAlerts()))
    ensures DecodeEpisode(EpisodeBody(TestAlerts()), today) == Ok([
      EpisodeValue(Pred(today), None, [
        PollutantEpisode("o3", Observed, Info, [Area, Population]),
        PollutantEpisode("so2", Observed, Alert, [Population])
      ]),
      EpisodeValue(today, Some(Advice), [
        PollutantEpisode("no2", Observed, Normal, [Area]),
        PollutantEpisode("so2", Observed, Alert, [Area])
      ]),
      EpisodeValue(Succ(today), None, [])
    ])
  {
    TestAlertValues(today);
    EpisodeBodyDecodes(TestAlerts(), today);
  }

  /** A pollutant whose `type` is not a known token fails on it, before `niveau` is read. */
  lemma UnknownKindDetail(key: string, kind: string, level: string)
    requires ParseType(kind).Err?
    ensures CriteriaAreTokens(Object([("type", Str(kind)), ("niveau", Str(level))]))
    ensures PollutantDetail((key, Object([("type", Str(kind)), ("niveau", Str(level))]))) == Err(UnkownEnumValue(kind))
  {
    var value := Object([("type", Str(kind)), ("niveau", Str(level))]);
    LookupAt(value.members, 0, "type");
    assert Get(value, "criteres") == Null;
  }

  /** A pollutant whose `type` is not a known token stops the alert, with that token. */
  lemma AlertUnknownKind(day: Day, key: string, kind: string, level: string, today: Date)
    requires Valid(today) && key != "date" && key != "detail"
    requires ParseType(kind).Err?
    ensures var json := Object([("date", Str(DayToken(day))), (key, Object([("type", Str(kind)), ("niveau", Str(level))])), ("detail", Str(""))]);
      PollutantDetailsFit(Entries(json)) && EpisodeEntry(json, today) == Err(UnkownEnumValue(kind))
  {
    var value := Object([("type", Str(kind)), ("niveau", Str(level))]);
    var xs := [(key, value)];
    UnknownKindDetail(key, kind, level);
    DecodeOneFailure(PollutantDetail, xs[0]);
    AlertOfMembers(day, xs, "", today);
    assert [("date", Str(DayToken(day)))] + xs + [("detail", Str(""))] == [("date", Str(DayToken(day))), (key, value), ("detail", Str(""))];
  }

  /** The instance of the above with the token `estime`. */
  lemma EpisodeUnknownKind(today: Date)
    requires Valid(today)
    ensures EpisodeEntry(Object([("date", Str("jour")), ("o3", Object([("type", Str("estime")), ("niveau", Str("info"))])), ("detail", Str(""))]), today)
      == Err(UnkownEnumValue("estime"))
  {
    AlertUnknownKind(Today, "o3", "estime", "info", today);
  }

  // ----- URLs -----

  /** The query of the city test: both INSEE codes in one `villes` parameter, then the key. */
  lemma IndexCityUrlFixture(base: string)
    ensures IndexCityUrl(RParifClient("dummy", base), ["75120", "94038"]) == base + "/idxville?villes=75120,94038&key=dummy"
  {
    assert Join(["75120", "94038"], ",") == "75120,94038";
  }

  // ----- The iterator of an episode -----

  /**
   * The unit test of the iterator: an episode with three pollutants added
   * in place, walked with `next`, yields them in the order of the `add` calls.
   */
  method IterateEpisodeExample(today: Date) returns (items: seq<PollutantEpisode>)
    ensures items == [
      PollutantEpisode("o3", Observed, Info, [Area, Population]),
      PollutantEpisode("so2", Observed, Alert, [Population]),
      PollutantEpisode("no2", Observed, Normal, [Area])
    ]
  {
    var episode := new Episode(today, None);
    episode.Add("o3", Observed, Info, [Area, Population]);
    episode.Add("so2", Observed, Alert, [Population]);
    episode.Add("no2", Observed, Normal, [Area]);
    var it := episode.IntoIter();
    items := Drain(it);
  }
}
