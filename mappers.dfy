/**
 * The field mappers: each turns one API-shaped dict into one row of a model
 * class. A column is either copied from a payload key (`d.get(key)`, None when
 * the key is absent) or computed by one of the two lenient parsers. Nested
 * objects are read through `x or {}`, so a missing or falsy nested object
 * reads as empty; a truthy nested value that is not a dict has no `.get` and
 * raises, which is why three of the mappers return a `Result`.
 */
module Mappers {
  import opened Values
  import opened Schema

  /**
   * The library grammars the mappers rely on, as partial functions:
   * `date.fromisoformat` and the `Decimal` constructor on a string.
   */
  datatype Parsers = Parsers(isoDate: string -> Option<Date>, decimal: string -> Option<Decimal>)

  /** A value that `x or {}` followed by `.get` reads without raising. */
  predicate Shaped(v: Value) {
    !Truthy(v) || v.Obj?
  }

  /** The dict `(m.get(key) or {})` reads from, once `Shaped` has ruled out a raise. */
  function Nested(m: map<string, Value>, key: string): (r: map<string, Value>)
    ensures Shaped(Get(m, key)) ==> SubObject(Get(m, key)) == Success(r)
  {
    match Get(m, key)
    case Obj(f) => f
    case _ => map[]
  }

  /**
   * `_to_date`: None for a falsy value; a string goes to the ISO parser and a
   * rejected string gives None; any other truthy value makes the parser raise
   * TypeError, which is not the ValueError that is caught.
   */
  function ToDate(v: Value, p: Parsers): (r: Result<Option<Date>>)
    ensures r.Failure? <==> Truthy(v) && !v.Str?
    ensures r.Failure? ==> r.fault == TypeError
    ensures r.Success? && r.value.Some? <==> v.Str? && v.s != "" && p.isoDate(v.s).Some?
    ensures r.Success? && r.value.Some? ==> r.value == p.isoDate(v.s)
  {
    if !Truthy(v) then Success(None)
    else if v.Str? then Success(p.isoDate(v.s))
    else Failure(TypeError)
  }

  /**
   * `_to_decimal`: None for None or "", otherwise `Decimal(str(value))`, None
   * when that is rejected. An int converts exactly; `str` of a boolean, a list
   * or a dict is never a decimal literal. It never fails.
   */
  function ToDecimal(v: Value, p: Parsers): (r: Option<Decimal>)
    ensures r.Some? <==> v.Int? || (v.Str? && v.s != "" && p.decimal(v.s).Some?)
    ensures v.Int? ==> r == Some(Decimal(v.i, 0))
    ensures v.Str? && r.Some? ==> r == p.decimal(v.s)
    ensures v == Null || v == Str("") ==> r == None
  {
    match v
    case Str(s) => if s == "" then None else p.decimal(s)
    case Int(i) => Some(Decimal(i, 0))
    case _ => None
  }

  /** `map_league`: league columns from the league dict, country columns from the country dict. */
  function MapLeague(league: map<string, Value>, country: map<string, Value>): (r: Row)
    ensures r.LeagueRow? && KeyOf(r) == [Get(league, "id")]
    ensures r.countryName == Get(country, "name") && r.countryCode == Get(country, "code")
    ensures r.countryFlag == Get(country, "flag")
  {
    LeagueRow(Get(league, "id"), Get(league, "name"), Get(league, "type"), Get(league, "logo"),
              Get(country, "name"), Get(country, "code"), Get(country, "flag"))
  }

  /** Every one of the twelve `coverage_*` columns is None. */
  predicate CoverageIsNone(r: Row)
    requires r.SeasonRow?
  {
    && r.coverageFixturesEvents == Null && r.coverageFixturesLineups == Null
    && r.coverageFixturesStatisticsFixtures == Null && r.coverageFixturesStatisticsPlayers == Null
    && r.coverageInjuries == Null && r.coverageOdds == Null && r.coveragePlayers == Null
    && r.coveragePredictions == Null && r.coverageStandings == Null
    && r.coverageTopAssists == Null && r.coverageTopCards == Null && r.coverageTopScorers == Null
  }

  /**
   * `map_season`: the league id comes from the caller, the coverage flags from
   * the nested `coverage` and `coverage.fixtures` dicts. Reading `fixtures`
   * off `coverage` raises when `coverage` is not a dict; the columns of the
   * result are then evaluated in order, so the two dates are parsed before
   * the first `.get` on `fixtures` can raise.
   */
  function MapSeason(leagueId: Value, season: map<string, Value>, p: Parsers): (r: Result<Row>)
    ensures r.Success? <==>
      && Shaped(Get(season, "coverage"))
      && Shaped(Get(Nested(season, "coverage"), "fixtures"))
      && ToDate(Get(season, "start"), p).Success?
      && ToDate(Get(season, "end"), p).Success?
    ensures !Shaped(Get(season, "coverage")) ==> r == Failure(AttributeError)
    ensures Shaped(Get(season, "coverage")) && ToDate(Get(season, "start"), p).Failure? ==>
      r == Failure(TypeError)
    ensures Shaped(Get(season, "coverage")) && ToDate(Get(season, "end"), p).Failure? ==>
      r == Failure(TypeError)
    ensures (&& ToDate(Get(season, "start"), p).Success?
             && ToDate(Get(season, "end"), p).Success?
             && !Shaped(Get(Nested(season, "coverage"), "fixtures")))
        ==> r == Failure(AttributeError)
    ensures r.Success? ==> r.value.SeasonRow? && KeyOf(r.value) == [leagueId, Get(season, "year")]
    ensures r.Success? ==> r.value.startDate == ToDate(Get(season, "start"), p).value
    ensures r.Success? ==> r.value.endDate == ToDate(Get(season, "end"), p).value
    ensures r.Success? && !Truthy(Get(season, "coverage")) ==> CoverageIsNone(r.value)
  {
    if !Shaped(Get(season, "coverage")) then Failure(AttributeError)
    else
      var coverage := Nested(season, "coverage");
      var start :- ToDate(Get(season, "start"), p);
      var end :- ToDate(Get(season, "end"), p);
      if !Shaped(Get(coverage, "fixtures")) then Failure(AttributeError)
      else
        var fixtures := Nested(coverage, "fixtures");
        Success(SeasonRow(
          leagueId, Get(season, "year"), start, end, Get(season, "current"),
          Get(fixtures, "events"), Get(fixtures, "lineups"),
          Get(fixtures, "statistics_fixtures"), Get(fixtures, "statistics_players"),
          Get(coverage, "injuries"), Get(coverage, "odds"), Get(coverage, "players"),
          Get(coverage, "predictions"), Get(coverage, "standings"),
          Get(coverage, "top_assists"), Get(coverage, "top_cards"), Get(coverage, "top_scorers")))
  }

  /**
   * A season whose `coverage.fixtures` is not a dict and whose `start` is not
   * a string raises the TypeError of the date, which is parsed first.
   */
  lemma SeasonDateRaisesBeforeFixtures(leagueId: Value, p: Parsers)
    ensures MapSeason(leagueId, map["coverage" := Obj(map["fixtures" := Int(1)]), "start" := Int(5)], p)
         == Failure(TypeError)
  {
    var season := map["coverage" := Obj(map["fixtures" := Int(1)]), "start" := Int(5)];
    assert Get(season, "coverage") == Obj(map["fixtures" := Int(1)]);
    assert Get(season, "start") == Int(5);
  }

  /** `map_venue`: every column copied from the key of the same name. */
  function MapVenue(venue: map<string, Value>): (r: Row)
    ensures r.VenueRow? && KeyOf(r) == [Get(venue, "id")]
  {
    VenueRow(Get(venue, "id"), Get(venue, "name"), Get(venue, "address"), Get(venue, "city"),
             Get(venue, "capacity"), Get(venue, "surface"), Get(venue, "image"))
  }

  /** `map_team`: the venue id is whatever the caller passes, None included. */
  function MapTeam(team: map<string, Value>, venueId: Value): (r: Row)
    ensures r.TeamRow? && KeyOf(r) == [Get(team, "id")]
    ensures r.venueId == venueId
  {
    TeamRow(Get(team, "id"), Get(team, "name"), Get(team, "code"), Get(team, "country"),
            Get(team, "founded"), Get(team, "national"), Get(team, "logo"), venueId)
  }

  /** `map_player`: biography columns, the birth columns from the nested `birth` dict. */
  function MapPlayer(player: map<string, Value>, p: Parsers): (r: Result<Row>)
    ensures r.Success? <==>
      Shaped(Get(player, "birth")) && ToDate(Get(Nested(player, "birth"), "date"), p).Success?
    ensures r.Success? ==> r.value.PlayerRow? && KeyOf(r.value) == [Get(player, "id")]
    ensures r.Success? && !Truthy(Get(player, "birth")) ==>
      r.value.birthDate == None && r.value.birthPlace == Null && r.value.birthCountry == Null
  {
    if !Shaped(Get(player, "birth")) then Failure(AttributeError)
    else
      var birth := Nested(player, "birth");
      var birthDate :- ToDate(Get(birth, "date"), p);
      Success(PlayerRow(
        Get(player, "id"), Get(player, "firstname"), Get(player, "lastname"), Get(player, "name"),
        Get(player, "age"), Get(player, "nationality"), Get(player, "height"),
        Get(player, "weight"), Get(player, "injured"), Get(player, "photo"),
        birthDate, Get(birth, "place"), Get(birth, "country")))
  }

  /** Every nested object of a statistics payload reads without raising. */
  predicate StatsShaped(stats: map<string, Value>) {
    && Shaped(Get(stats, "games")) && Shaped(Get(stats, "goals")) && Shaped(Get(stats, "shots"))
    && Shaped(Get(stats, "passes")) && Shaped(Get(stats, "tackles"))
    && Shaped(Get(stats, "duels")) && Shaped(Get(stats, "dribbles"))
    && Shaped(Get(stats, "fouls")) && Shaped(Get(stats, "cards"))
    && Shaped(Get(stats, "penalty")) && Shaped(Get(stats, "substitutes"))
  }

  /**
   * `map_player_statistics`: the four key columns come from the arguments,
   * every other column from one of eleven nested objects. The first nested
   * value that is truthy but not a dict raises AttributeError.
   */
  function MapPlayerStatistics(stats: map<string, Value>, playerId: Value, teamId: Value,
                               leagueId: Value, season: Value, p: Parsers): (r: Result<Row>)
    ensures r.Success? <==> StatsShaped(stats)
    ensures r.Failure? ==> r.fault == AttributeError
    ensures r.Success? ==>
      r.value.StatsRow? && KeyOf(r.value) == [playerId, teamId, leagueId, season]
  {
    if !StatsShaped(stats) then Failure(AttributeError)
    else
      Success(StatsRowOf(
        playerId, teamId, leagueId, season,
        Nested(stats, "games"), Nested(stats, "goals"), Nested(stats, "shots"),
        Nested(stats, "passes"), Nested(stats, "tackles"), Nested(stats, "duels"),
        Nested(stats, "dribbles"), Nested(stats, "fouls"), Nested(stats, "cards"),
        Nested(stats, "penalty"), Nested(stats, "substitutes"), p))
  }

  /** The statistics row read from the eleven nested dicts. */
  function StatsRowOf(playerId: Value, teamId: Value, leagueId: Value, season: Value,
                      games: map<string, Value>, goals: map<string, Value>,
                      shots: map<string, Value>, passes: map<string, Value>,
                      tackles: map<string, Value>, duels: map<string, Value>,
                      dribbles: map<string, Value>, fouls: map<string, Value>,
                      cards: map<string, Value>, penalty: map<string, Value>,
                      substitutes: map<string, Value>, p: Parsers): (r: Row)
    ensures r.StatsRow?
  {
    StatsRow(
      playerId, teamId, leagueId, season,
      Get(games, "position"), Get(games, "number"), Get(games, "captain"),
      ToDecimal(Get(games, "rating"), p),
      Get(games, "appearences"), Get(games, "lineups"), Get(games, "minutes"),
      Get(goals, "total"), Get(goals, "assists"), Get(goals, "conceded"), Get(goals, "saves"),
      Get(shots, "total"), Get(shots, "on"),
      Get(passes, "total"), Get(passes, "key"), Get(passes, "accuracy"),
      Get(tackles, "total"), Get(tackles, "blocks"), Get(tackles, "interceptions"),
      Get(duels, "total"), Get(duels, "won"),
      Get(dribbles, "attempts"), Get(dribbles, "success"), Get(dribbles, "past"),
      Get(fouls, "committed"), Get(fouls, "drawn"),
      Get(cards, "yellow"), Get(cards, "yellowred"), Get(cards, "red"),
      Get(penalty, "won"), Get(penalty, "commited"), Get(penalty, "scored"),
      Get(penalty, "missed"), Get(penalty, "saved"),
      Get(substitutes, "in"), Get(substitutes, "out"), Get(substitutes, "bench"))
  }

  /** Every column read from the `games` dict is None. */
  predicate GamesAreNone(r: Row) requires r.StatsRow? {
    && r.position == Null && r.number == Null && r.captain == Null && r.rating == None
    && r.appearances == Null && r.lineups == Null && r.minutes == Null
  }
  predicate GoalsAreNone(r: Row) requires r.StatsRow? {
    r.goalsTotal == Null && r.goalsAssists == Null && r.goalsConceded == Null && r.goalsSaves == Null
  }
  predicate ShotsAreNone(r: Row) requires r.StatsRow? {
    r.shotsTotal == Null && r.shotsOn == Null
  }
  predicate PassesAreNone(r: Row) requires r.StatsRow? {
    r.passesTotal == Null && r.passesKey == Null && r.passesAccuracy == Null
  }
  predicate TacklesAreNone(r: Row) requires r.StatsRow? {
    r.tacklesTotal == Null && r.tacklesBlocks == Null && r.tacklesInterceptions == Null
  }
  predicate DuelsAreNone(r: Row) requires r.StatsRow? {
    r.duelsTotal == Null && r.duelsWon == Null
  }
  predicate DribblesAreNone(r: Row) requires r.StatsRow? {
    r.dribblesAttempts == Null && r.dribblesSuccess == Null && r.dribblesPast == Null
  }
  predicate FoulsAreNone(r: Row) requires r.StatsRow? {
    r.foulsCommitted == Null && r.foulsDrawn == Null
  }
  predicate CardsAreNone(r: Row) requires r.StatsRow? {
    r.cardsYellow == Null && r.cardsYellowred == Null && r.cardsRed == Null
  }
  predicate PenaltyIsNone(r: Row) requires r.StatsRow? {
    && r.penaltyWon == Null && r.penaltyCommited == Null && r.penaltyScored == Null
    && r.penaltyMissed == Null && r.penaltySaved == Null
  }
  predicate SubstitutesAreNone(r: Row) requires r.StatsRow? {
    r.substitutesIn == Null && r.substitutesOut == Null && r.substitutesBench == Null
  }

  lemma NestedOfFalsy(m: map<string, Value>, key: string)
    requires !Truthy(Get(m, key))
    ensures Nested(m, key) == map[]
  {
  }

  /** A missing or falsy games, goals, shots, passes or tackles object makes every column drawn from it None. */
  lemma {:induction false} FalsyPlayGroupIsNone(stats: map<string, Value>, playerId: Value,
      teamId: Value, leagueId: Value, season: Value, p: Parsers)
    requires StatsShaped(stats)
    ensures var r := MapPlayerStatistics(stats, playerId, teamId, leagueId, season, p).value;
      && (!Truthy(Get(stats, "games")) ==> GamesAreNone(r))
      && (!Truthy(Get(stats, "goals")) ==> GoalsAreNone(r))
      && (!Truthy(Get(stats, "shots")) ==> ShotsAreNone(r))
      && (!Truthy(Get(stats, "passes")) ==> PassesAreNone(r))
      && (!Truthy(Get(stats, "tackles")) ==> TacklesAreNone(r))
  {
    var r := MapPlayerStatistics(stats, playerId, teamId, leagueId, season, p).value;
    if !Truthy(Get(stats, "games")) { NestedOfFalsy(stats, "games"); assert GamesAreNone(r); }
    if !Truthy(Get(stats, "goals")) { NestedOfFalsy(stats, "goals"); assert GoalsAreNone(r); }
    if !Truthy(Get(stats, "shots")) { NestedOfFalsy(stats, "shots"); assert ShotsAreNone(r); }
    if !Truthy(Get(stats, "passes")) { NestedOfFalsy(stats, "passes"); assert PassesAreNone(r); }
    if !Truthy(Get(stats, "tackles")) { NestedOfFalsy(stats, "tackles"); assert TacklesAreNone(r); }
  }

  /** A missing or falsy duels, dribbles, fouls, cards, penalty or substitutes object makes every column drawn from it None. */
  lemma {:induction false} FalsyContestGroupIsNone(stats: map<string, Value>, playerId: Value,
      teamId: Value, leagueId: Value, season: Value, p: Parsers)
    requires StatsShaped(stats)
    ensures var r := MapPlayerStatistics(stats, playerId, teamId, leagueId, season, p).value;
      && (!Truthy(Get(stats, "duels")) ==> DuelsAreNone(r))
      && (!Truthy(Get(stats, "dribbles")) ==> DribblesAreNone(r))
      && (!Truthy(Get(stats, "fouls")) ==> FoulsAreNone(r))
      && (!Truthy(Get(stats, "cards")) ==> CardsAreNone(r))
      && (!Truthy(Get(stats, "penalty")) ==> PenaltyIsNone(r))
      && (!Truthy(Get(stats, "substitutes")) ==> SubstitutesAreNone(r))
  {
    var r := MapPlayerStatistics(stats, playerId, teamId, leagueId, season, p).value;
    if !Truthy(Get(stats, "duels")) { NestedOfFalsy(stats, "duels"); assert DuelsAreNone(r); }
    if !Truthy(Get(stats, "dribbles")) { NestedOfFalsy(stats, "dribbles"); assert DribblesAreNone(r); }
    if !Truthy(Get(stats, "fouls")) { NestedOfFalsy(stats, "fouls"); assert FoulsAreNone(r); }
    if !Truthy(Get(stats, "cards")) { NestedOfFalsy(stats, "cards"); assert CardsAreNone(r); }
    if !Truthy(Get(stats, "penalty")) { NestedOfFalsy(stats, "penalty"); assert PenaltyIsNone(r); }
    if !Truthy(Get(stats, "substitutes")) { NestedOfFalsy(stats, "substitutes"); assert SubstitutesAreNone(r); }
  }

  /** The statistics row does not read `games.rating` except for the `rating` column. */
  lemma StatsRowOfIgnoresRating(playerId: Value, teamId: Value, leagueId: Value, season: Value,
                                g1: map<string, Value>, g2: map<string, Value>,
                                goals: map<string, Value>, shots: map<string, Value>,
                                passes: map<string, Value>, tackles: map<string, Value>,
                                duels: map<string, Value>, dribbles: map<string, Value>,
                                fouls: map<string, Value>, cards: map<string, Value>,
                                penalty: map<string, Value>, substitutes: map<string, Value>,
                                p: Parsers)
    requires Get(g1, "position") == Get(g2, "position") && Get(g1, "number") == Get(g2, "number")
    requires Get(g1, "captain") == Get(g2, "captain") && Get(g1, "minutes") == Get(g2, "minutes")
    requires Get(g1, "appearences") == Get(g2, "appearences") && Get(g1, "lineups") == Get(g2, "lineups")
    ensures
      var r1 := StatsRowOf(playerId, teamId, leagueId, season, g1, goals, shots, passes,
                           tackles, duels, dribbles, fouls, cards, penalty, substitutes, p);
      var r2 := StatsRowOf(playerId, teamId, leagueId, season, g2, goals, shots, passes,
                           tackles, duels, dribbles, fouls, cards, penalty, substitutes, p);
      r2.StatsRow? && r1 == r2.(rating := ToDecimal(Get(g1, "rating"), p))
  {
  }

  /** Payloads that agree outside `games` agree on the other ten nested dicts. */
  lemma OtherGroupsAgree(stats1: map<string, Value>, stats2: map<string, Value>)
    requires forall k | k != "games" :: Get(stats1, k) == Get(stats2, k)
    ensures Nested(stats1, "goals") == Nested(stats2, "goals")
    ensures Nested(stats1, "shots") == Nested(stats2, "shots")
    ensures Nested(stats1, "passes") == Nested(stats2, "passes")
    ensures Nested(stats1, "tackles") == Nested(stats2, "tackles")
    ensures Nested(stats1, "duels") == Nested(stats2, "duels")
    ensures Nested(stats1, "dribbles") == Nested(stats2, "dribbles")
    ensures Nested(stats1, "fouls") == Nested(stats2, "fouls")
    ensures Nested(stats1, "cards") == Nested(stats2, "cards")
    ensures Nested(stats1, "penalty") == Nested(stats2, "penalty")
    ensures Nested(stats1, "substitutes") == Nested(stats2, "substitutes")
  {
  }

  /** Dicts that agree outside `rating` agree on the six other `games` columns. */
  lemma GamesAgreeOutsideRating(g1: map<string, Value>, g2: map<string, Value>)
    requires forall k | k != "rating" :: Get(g1, k) == Get(g2, k)
    ensures Get(g1, "position") == Get(g2, "position") && Get(g1, "number") == Get(g2, "number")
    ensures Get(g1, "captain") == Get(g2, "captain") && Get(g1, "minutes") == Get(g2, "minutes")
    ensures Get(g1, "appearences") == Get(g2, "appearences") && Get(g1, "lineups") == Get(g2, "lineups")
  {
  }

  lemma OtherGroupsShaped(stats1: map<string, Value>, stats2: map<string, Value>)
    requires forall k | k != "games" :: Get(stats1, k) == Get(stats2, k)
    requires Shaped(Get(stats1, "games")) == Shaped(Get(stats2, "games"))
    ensures StatsShaped(stats1) == StatsShaped(stats2)
  {
  }

  /**
   * Two statistics payloads that differ only in `games.rating` map to rows
   * that differ only in the `rating` column; a rating the decimal parser
   * rejects (such as "N/A") is stored as None.
   */
  lemma {:induction false} RatingOnlyAffectsRating(
    stats1: map<string, Value>, stats2: map<string, Value>,
    games1: map<string, Value>, games2: map<string, Value>,
    playerId: Value, teamId: Value, leagueId: Value, season: Value, p: Parsers)
    requires Get(stats1, "games") == Obj(games1) && Get(stats2, "games") == Obj(games2)
    requires forall k | k != "games" :: Get(stats1, k) == Get(stats2, k)
    requires forall k | k != "rating" :: Get(games1, k) == Get(games2, k)
    ensures
      var r1 := MapPlayerStatistics(stats1, playerId, teamId, leagueId, season, p);
      var r2 := MapPlayerStatistics(stats2, playerId, teamId, leagueId, season, p);
      && r1.Success? == r2.Success?
      && (r1.Success? ==> r1.value == r2.value.(rating := ToDecimal(Get(games1, "rating"), p)))
  {
    assert Nested(stats1, "games") == games1 && Nested(stats2, "games") == games2;
    OtherGroupsAgree(stats1, stats2);
    OtherGroupsShaped(stats1, stats2);
    if StatsShaped(stats1) {
      GamesAgreeOutsideRating(games1, games2);
      var n := k => Nested(stats1, k);
      StatsRowOfIgnoresRating(playerId, teamId, leagueId, season, games1, games2,
        n("goals"), n("shots"), n("passes"), n("tackles"), n("duels"),
        n("dribbles"), n("fouls"), n("cards"), n("penalty"), n("substitutes"), p);
    }
  }
}
