/**
 * The four public methods of `RParifClient`: each builds its endpoint URL,
 * runs the HTTP query and hands the parsed body to its decoder. The
 * transport and the JSON parser are parameters, and so is the current date.
 */
module Endpoints {
  import opened Wrappers
  import opened Json
  import opened Dates
  import opened Errors
  import opened Objects
  import opened Client
  import opened Decoders

  /**
   * What every endpoint promises about its outcome, given the outcome `q` of
   * its HTTP query on `url` and the outcome `d` of its decoder on the body:
   * a failed query is reported unchanged, a successful one is decoded, and
   * the variant of the error tells which of the two stages failed.
   */
  predicate Composed<T(==)>(url: string, q: Result<JsonValue, RParifError>, d: Result<T, RParifError>, r: Result<T, RParifError>) {
    && (q.Err? ==> r == Err(q.error))
    && (q.Ok? ==> r == d)
    && (r.Err? ==> (IsDecodingError(r.error) <==> q.Ok?))
    && (r.Err? && r.error.CallError? ==> r.error.url == url)
  }

  /** `index`: the `indice` endpoint, decoded by `index_to_index`. */
  method QueryIndex(c: RParifClient, send: Transport, parse: Parser, today: Date) returns (r: Result<seq<Index>, RParifError>)
    requires Valid(today)
    requires ExecuteQuery(IndexUrl(c), send, parse).Ok? ==> IndexPayloadFits(ExecuteQuery(IndexUrl(c), send, parse).value)
    ensures var q := ExecuteQuery(IndexUrl(c), send, parse);
      Composed(IndexUrl(c), q, if q.Ok? then DecodeIndex(q.value, today) else Err(q.error), r)
  {
    ExecuteQueryPrecedence(IndexUrl(c), send, parse);
    var response :- ExecuteQuery(IndexUrl(c), send, parse);
    r := IndexToIndex(response, today);
  }

  /** `index_day`: the `indiceJour` endpoint for one relative day, decoded by `index_day_to_index`. */
  method QueryIndexDay(c: RParifClient, day: Day, send: Transport, parse: Parser) returns (r: Result<seq<Index>, RParifError>)
    requires ExecuteQuery(IndexDayUrl(c, day), send, parse).Ok? ==>
      DayEntriesFit(Entries(ExecuteQuery(IndexDayUrl(c, day), send, parse).value))
    ensures var q := ExecuteQuery(IndexDayUrl(c, day), send, parse);
      Composed(IndexDayUrl(c, day), q, if q.Ok? then DecodeIndexDay(q.value) else Err(q.error), r)
  {
    ExecuteQueryPrecedence(IndexDayUrl(c, day), send, parse);
    var response :- ExecuteQuery(IndexDayUrl(c, day), send, parse);
    r := IndexDayToIndex(response);
  }

  /** `index_city`: the `idxville` endpoint for a list of INSEE codes, decoded by `idxville_to_index`. */
  method QueryIndexCity(c: RParifClient, cities: seq<string>, send: Transport, parse: Parser, today: Date)
    returns (r: Result<seq<Index>, RParifError>)
    requires Valid(today)
    requires ExecuteQuery(IndexCityUrl(c, cities), send, parse).Ok? ==>
      IdxvillePayloadFits(ExecuteQuery(IndexCityUrl(c, cities), send, parse).value)
    ensures var q := ExecuteQuery(IndexCityUrl(c, cities), send, parse);
      Composed(IndexCityUrl(c, cities), q, if q.Ok? then DecodeIdxville(q.value, today) else Err(q.error), r)
  {
    ExecuteQueryPrecedence(IndexCityUrl(c, cities), send, parse);
    var response :- ExecuteQuery(IndexCityUrl(c, cities), send, parse);
    r := IdxvilleToIndex(response, today);
  }

  /** `episode`: the `episode` endpoint, decoded by `episode_to_episode`. */
  method QueryEpisode(c: RParifClient, send: Transport, parse: Parser, today: Date) returns (r: Result<seq<EpisodeValue>, RParifError>)
    requires Valid(today)
    requires ExecuteQuery(EpisodeUrl(c), send, parse).Ok? ==> EpisodePayloadFits(ExecuteQuery(EpisodeUrl(c), send, parse).value)
    ensures var q := ExecuteQuery(EpisodeUrl(c), send, parse);
      Composed(EpisodeUrl(c), q, if q.Ok? then DecodeEpisode(q.value, today) else Err(q.error), r)
  {
    ExecuteQueryPrecedence(EpisodeUrl(c), send, parse);
    var response :- ExecuteQuery(EpisodeUrl(c), send, parse);
    r := EpisodeToEpisode(response, today);
  }
}
