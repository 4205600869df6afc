/**
 * The domain records: pollution indices, pollution episodes with their
 * per-pollutant details and iterator, and the string tables of the three
 * closed enumerations.
 */
module Objects {
  import opened Wrappers
  import opened Dates
  import opened Errors

  /** A pollution index value (`u32`). */
  type u32 = x: int | 0 <= x < 0x1_0000_0000

  /**
   * A pollution index: its date, the map it is drawn on, the pollutants it
   * aggregates, its value and the INSEE code of its city. The destructors
   * `date`, `pollutants`, `index` and `insee` are the accessors of the same
   * name; `map_url` is `MapUrl`.
   */
  datatype Index = Index(date: Date, url: Option<string>, pollutants: seq<string>, index: u32, insee: Option<string>) {

    function MapUrl(): Option<string> {
      url
    }
  }

  /** Each accessor gives back the argument the record was built from. */
  lemma IndexAccessors(date: Date, url: Option<string>, pollutants: seq<string>, index: u32, insee: Option<string>)
    ensures var x := Index(date, url, pollutants, index, insee);
      x.date == date && x.MapUrl() == url && x.pollutants == pollutants && x.index == index && x.insee == insee
  {
  }

  /** The day argument of the `indiceJour` endpoint. */
  datatype Day = Yesterday | Today | Tomorrow

  datatype Level = Info | Alert | Normal

  /** Whether an alert was forecast or observed. */
  datatype Type = Forecast | Observed

  /** Threshold that raised an alert: affected area or affected population. */
  datatype Criteria = Area | Population

  /** The detail of an episode for one pollutant. */
  datatype PollutantEpisode = PollutantEpisode(pollutant: string, kind: Type, level: Level, criteria: seq<Criteria>)

  /** The value of an episode: what the decoder returns and what the iterator walks over. */
  datatype EpisodeValue = EpisodeValue(date: Date, detail: Option<string>, pollutants: seq<PollutantEpisode>)

  /** A pollution episode, built empty and then extended in place with `Add`. */
  class Episode {
    var date: Date
    var detail: Option<string>
    var pollutants: seq<PollutantEpisode>

    /** `Episode::new`. */
    constructor (date: Date, detail: Option<string>)
      ensures this.date == date && this.detail == detail && pollutants == []
    {
      this.date := date;
      this.detail := detail;
      pollutants := [];
    }

    function Value(): (v: EpisodeValue)
      reads this
    {
      EpisodeValue(date, detail, pollutants)
    }

    /** `Episode::add`: one more pollutant at the end; nothing else changes. */
    method Add(pollutant: string, kind: Type, level: Level, criteria: seq<Criteria>)
      modifies this
      ensures pollutants == old(pollutants) + [PollutantEpisode(pollutant, kind, level, criteria)]
      ensures date == old(date) && detail == old(detail)
    {
      pollutants := pollutants + [PollutantEpisode(pollutant, kind, level, criteria)];
    }

    /** `into_iter`: an iterator over a copy of the episode, positioned at its first pollutant. */
    method IntoIter() returns (it: PollutantEpisodeIter)
      ensures fresh(it) && it.Valid()
      ensures it.episode == Value() && it.i == 0
    {
      it := new PollutantEpisodeIter(Value());
    }
  }

  /** `PollutantEpisodeIter`: walks the pollutants of an episode with the index `i`. */
  class PollutantEpisodeIter {
    const episode: EpisodeValue
    var i: nat

    ghost predicate Valid()
      reads this
    {
      i <= |episode.pollutants|
    }

    constructor (episode: EpisodeValue)
      ensures Valid() && this.episode == episode && i == 0
    {
      this.episode := episode;
      i := 0;
    }

    /** `next`: the pollutant at `i`, moving past it, or `None` once all were yielded. */
    method Next() returns (item: Option<PollutantEpisode>)
      requires Valid()
      modifies this
      ensures Valid()
      ensures old(i) < |episode.pollutants| ==> item == Some(episode.pollutants[old(i)]) && i == old(i) + 1
      ensures old(i) == |episode.pollutants| ==> item == None && i == old(i)
    {
      if i < |episode.pollutants| {
        item := Some(episode.pollutants[i]);
        i := i + 1;
      } else {
        item := None;
      }
    }
  }

  /**
   * A `for` loop over the iterator: it yields the remaining pollutants, each
   * once and in order, and leaves the iterator exhausted.
   */
  method Drain(it: PollutantEpisodeIter) returns (items: seq<PollutantEpisode>)
    requires it.Valid()
    modifies it
    ensures it.Valid() && it.i == |it.episode.pollutants|
    ensures items == it.episode.pollutants[old(it.i)..]
  {
    items := [];
    var next := it.Next();
    while next.Some?
      invariant it.Valid()
      invariant next.Some? ==> it.i >= 1 && next.value == it.episode.pollutants[it.i - 1]
      invariant next.Some? ==> old(it.i) < it.i && items == it.episode.pollutants[old(it.i)..it.i - 1]
      invariant next.None? ==> it.i == |it.episode.pollutants| && items == it.episode.pollutants[old(it.i)..]
      decreases |it.episode.pollutants| - it.i, next.Some?
    {
      items := items + [next.value];
      next := it.Next();
    }
  }

  // ----- `FromStr` tables -----

  /** `Level::from_str`. */
  function ParseLevel(s: string): (r: Result<Level, RParifError>)
    ensures r.Err? ==> r.error == UnkownEnumValue(s)
    ensures r.Ok? ==> LevelToken(r.value) == s
  {
    if s == "info" then Ok(Info)
    else if s == "alerte" then Ok(Alert)
    else if s == "normal" then Ok(Normal)
    else Err(UnkownEnumValue(s))
  }

  /** The token of each level, read off the table of `Level::from_str`. */
  function LevelToken(l: Level): string {
    match l
    case Info => "info"
    case Alert => "alerte"
    case Normal => "normal"
  }

  /** `Type::from_str`. */
  function ParseType(s: string): (r: Result<Type, RParifError>)
    ensures r.Err? ==> r.error == UnkownEnumValue(s)
    ensures r.Ok? ==> TypeToken(r.value) == s
  {
    if s == "prevu" then Ok(Forecast)
    else if s == "constate" then Ok(Observed)
    else Err(UnkownEnumValue(s))
  }

  function TypeToken(t: Type): string {
    match t
    case Forecast => "prevu"
    case Observed => "constate"
  }

  /** `Criteria::from_str`. */
  function ParseCriteria(s: string): (r: Result<Criteria, RParifError>)
    ensures r.Err? ==> r.error == UnkownEnumValue(s)
    ensures r.Ok? ==> CriteriaToken(r.value) == s
  {
    if s == "km" then Ok(Area)
    else if s == "pop" then Ok(Population)
    else Err(UnkownEnumValue(s))
  }

  function CriteriaToken(c: Criteria): string {
    match c
    case Area => "km"
    case Population => "pop"
  }

  /** Every level has a token that parses back to it; so the table is onto and one-to-one. */
  lemma LevelTokensRoundTrip(l: Level)
    ensures ParseLevel(LevelToken(l)) == Ok(l)
  {
  }

  lemma TypeTokensRoundTrip(t: Type)
    ensures ParseType(TypeToken(t)) == Ok(t)
  {
  }

  lemma CriteriaTokensRoundTrip(c: Criteria)
    ensures ParseCriteria(CriteriaToken(c)) == Ok(c)
  {
  }
}
