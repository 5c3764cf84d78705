/**
 * The six persisted entities as the declarative model classes declare them:
 * one record constructor per model class, one field per column, and the
 * primary-key columns of each. Types and nullability of the columns are the
 * database's business and are not modelled: a column holds the JSON value the
 * mapper copied into it, a parsed date, or a parsed decimal.
 */
module Schema {
  import opened Values

  datatype Model = League | Season | Venue | Team | Player | PlayerStatistics

  /** `__tablename__` of each model class. */
  function TableName(m: Model): string {
    match m
    case League => "leagues"
    case Season => "seasons"
    case Venue => "venues"
    case Team => "teams"
    case Player => "players"
    case PlayerStatistics => "player_statistics"
  }

  datatype Date = Date(year: int, month: int, day: int)

  /** A decimal number coefficient * 10^exponent. */
  datatype Decimal = Decimal(coefficient: int, exponent: int)

  /** One row of one model class, with every column of that class. */
  datatype Row =
    | LeagueRow(id: Value, name: Value, leagueType: Value, logo: Value,
                countryName: Value, countryCode: Value, countryFlag: Value)
    | SeasonRow(leagueId: Value, year: Value, startDate: Option<Date>, endDate: Option<Date>,
                current: Value,
                coverageFixturesEvents: Value, coverageFixturesLineups: Value,
                coverageFixturesStatisticsFixtures: Value, coverageFixturesStatisticsPlayers: Value,
                coverageInjuries: Value, coverageOdds: Value, coveragePlayers: Value,
                coveragePredictions: Value, coverageStandings: Value, coverageTopAssists: Value,
                coverageTopCards: Value, coverageTopScorers: Value)
    | VenueRow(id: Value, name: Value, address: Value, city: Value, capacity: Value,
               surface: Value, image: Value)
    | TeamRow(id: Value, name: Value, code: Value, country: Value, founded: Value,
              national: Value, logo: Value, venueId: Value)
    | PlayerRow(id: Value, firstname: Value, lastname: Value, name: Value, age: Value,
                nationality: Value, height: Value, weight: Value, injured: Value, photo: Value,
                birthDate: Option<Date>, birthPlace: Value, birthCountry: Value)
    | StatsRow(playerId: Value, teamId: Value, leagueId: Value, season: Value,
               position: Value, number: Value, captain: Value, rating: Option<Decimal>,
               appearances: Value, lineups: Value, minutes: Value,
               goalsTotal: Value, goalsAssists: Value, goalsConceded: Value, goalsSaves: Value,
               shotsTotal: Value, shotsOn: Value,
               passesTotal: Value, passesKey: Value, passesAccuracy: Value,
               tacklesTotal: Value, tacklesBlocks: Value, tacklesInterceptions: Value,
               duelsTotal: Value, duelsWon: Value,
               dribblesAttempts: Value, dribblesSuccess: Value, dribblesPast: Value,
               foulsCommitted: Value, foulsDrawn: Value,
               cardsYellow: Value, cardsYellowred: Value, cardsRed: Value,
               penaltyWon: Value, penaltyCommited: Value, penaltyScored: Value,
               penaltyMissed: Value, penaltySaved: Value,
               substitutesIn: Value, substitutesOut: Value, substitutesBench: Value)

  /** The model class a row belongs to. */
  function ModelOf(r: Row): Model {
    if r.LeagueRow? then League
    else if r.SeasonRow? then Season
    else if r.VenueRow? then Venue
    else if r.TeamRow? then Team
    else if r.PlayerRow? then Player
    else PlayerStatistics
  }

  /**
   * The primary key of a row: `id` for four classes, `(league_id, year)` for
   * seasons and `(player_id, team_id, league_id, season)` for statistics.
   */
  function KeyOf(r: Row): (k: seq<Value>)
    ensures |k| == if r.SeasonRow? then 2 else if r.StatsRow? then 4 else 1
  {
    if r.SeasonRow? then [r.leagueId, r.year]
    else if r.StatsRow? then [r.playerId, r.teamId, r.leagueId, r.season]
    else [r.id]
  }
}
