/**
 * The extraction run for one league and season: check that the database is
 * reachable and has its six tables, fetch the league and keep its seasons
 * for the requested year, fetch the teams with their venues, walk each
 * team's players and their statistics, stage every row with the batch
 * upserts, and commit once at the end. An empty league or team answer ends
 * the run early with exit code 1; any exception rolls the session back and
 * also gives 1; the session is closed on every path.
 */
module Extraction {
  import opened Values
  import opened Schema
  import opened Mappers
  import opened ApiClient
  import opened Repositories

  /* ---------------------------------------------------------------------- */
  /* `_check_database_ready`                                                 */
  /* ---------------------------------------------------------------------- */

  /** The six expected table names, in `sorted` order. */
  const ExpectedTables: seq<string> :=
    ["leagues", "player_statistics", "players", "seasons", "teams", "venues"]

  /** Python's `<` on strings: code point by code point, a proper prefix first. */
  predicate StrLess(a: string, b: string) {
    exists k :: 0 <= k <= |a| && LessAt(a, b, k)
  }

  /** `a` and `b` agree before position `k`, where `a` ends first or has the smaller code point. */
  predicate LessAt(a: string, b: string, k: nat) {
    && k <= |a| && k <= |b| && a[..k] == b[..k]
    && ((k == |a| && k < |b|) || (k < |a| && k < |b| && a[k] < b[k]))
  }

  predicate StrictlySorted(xs: seq<string>) {
    forall i, j :: 0 <= i < j < |xs| ==> StrLess(xs[i], xs[j])
  }

  /** The expected tables are exactly the table names of the six models. */
  lemma ExpectedTablesAreTheModels()
    ensures forall m: Model :: TableName(m) in ExpectedTables
    ensures forall t :: t in ExpectedTables ==> exists m: Model :: TableName(m) == t
  {
    assert TableName(League) == ExpectedTables[0];
    assert TableName(PlayerStatistics) == ExpectedTables[1];
    assert TableName(Player) == ExpectedTables[2];
    assert TableName(Season) == ExpectedTables[3];
    assert TableName(Team) == ExpectedTables[4];
    assert TableName(Venue) == ExpectedTables[5];
  }

  lemma ExpectedTablesSorted()
    ensures StrictlySorted(ExpectedTables)
  {
    var xs := ExpectedTables;
    forall i, j | 0 <= i < j < |xs| ensures StrLess(xs[i], xs[j]) {
      if i == 1 && j == 2 {
        assert xs[i][..6] == xs[j][..6] && LessAt(xs[i], xs[j], 6);
      } else {
        assert xs[i][0] < xs[j][0] && LessAt(xs[i], xs[j], 0);
      }
    }
  }

  /** The names of `names` that `existing` lacks, keeping their order. */
  function Missing(names: seq<string>, existing: set<string>): (r: seq<string>)
    ensures forall t :: t in r <==> t in names && t !in existing
    ensures |r| <= |names|
    decreases |names|
  {
    if names == [] then []
    else
      var rest := Missing(names[1..], existing);
      assert forall t :: t in rest ==> t in names[1..];
      if names[0] in existing then rest else [names[0]] + rest
  }

  /** Dropping names keeps a sorted list sorted. */
  lemma {:induction false} MissingSorted(names: seq<string>, existing: set<string>)
    requires StrictlySorted(names)
    ensures StrictlySorted(Missing(names, existing))
    decreases |names|
  {
    if names != [] {
      var rest := Missing(names[1..], existing);
      assert StrictlySorted(names[1..]);
      MissingSorted(names[1..], existing);
      if names[0] !in existing {
        var r := [names[0]] + rest;
        forall j | 1 <= j < |r| ensures StrLess(r[0], r[j]) {
          assert r[j] in names[1..];
          var k :| 0 <= k < |names[1..]| && names[1..][k] == r[j];
          assert names[k + 1] == r[j];
        }
      }
    }
  }

  /** `sorted(expected_tables - existing_tables)`. */
  function MissingTables(existing: set<string>): (r: seq<string>)
    ensures forall t :: t in r <==> t in ExpectedTables && t !in existing
    ensures StrictlySorted(r)
  {
    ExpectedTablesSorted();
    MissingSorted(ExpectedTables, existing);
    Missing(ExpectedTables, existing)
  }

  /**
   * `_check_database_ready(session)`: `probe` is whether `SELECT 1` ran and
   * `existing` the table names the inspector lists. Ready exactly when the
   * probe ran and no expected table is missing.
   */
  predicate DatabaseReady(probe: bool, existing: set<string>) {
    probe && MissingTables(existing) == []
  }

  lemma DatabaseReadyIff(probe: bool, existing: set<string>)
    ensures DatabaseReady(probe, existing)
        <==> probe && forall t :: t in ExpectedTables ==> t in existing
  {
    if probe && MissingTables(existing) != [] {
      assert MissingTables(existing)[0] in MissingTables(existing);
    }
  }

  /* ---------------------------------------------------------------------- */
  /* Reading the API payloads                                                */
  /* ---------------------------------------------------------------------- */

  /** A value read with `.get`: only a dict has one, anything else raises AttributeError. */
  function AsDict(v: Value): (r: Result<map<string, Value>>)
    ensures r.Success? <==> v.Obj?
    ensures v.Obj? ==> r.value == v.fields
    ensures r.Failure? ==> r.fault == AttributeError
  {
    if v.Obj? then Success(v.fields) else Failure(AttributeError)
  }

  /**
   * `response[0]` on a truthy `response`: the first item of a list, the first
   * character of a string; a dict has no key 0 (KeyError) and a number or
   * boolean is not subscriptable (TypeError).
   */
  function FirstItem(v: Value): (r: Result<Value>)
    requires Truthy(v)
    ensures v.Arr? ==> r == Success(v.items[0])
    ensures r.Success? <==> v.Arr? || v.Str?
  {
    match v
    case Arr(xs) => Success(xs[0])
    case Str(s) => Success(Str([s[0]]))
    case Obj(_) => Failure(KeyError)
    case _ => Failure(TypeError)
  }

  /**
   * The `season_payloads` comprehension: for each item of the league's
   * `seasons`, in order, `item.get("year") == season` decides whether
   * `map_season(league_id, item)` is kept.
   */
  function SeasonRows(leagueKey: Value, items: seq<Value>, season: int, p: Parsers)
    : (r: Result<seq<Row>>)
    ensures r.Success? ==> forall i :: 0 <= i < |r.value| ==>
      r.value[i].SeasonRow? && r.value[i].leagueId == leagueKey && EqualsInt(r.value[i].year, season)
    decreases |items|
  {
    if items == [] then Success([])
    else
      var f :- AsDict(items[0]);
      if EqualsInt(Get(f, "year"), season) then
        var row :- MapSeason(leagueKey, f, p);
        var rest :- SeasonRows(leagueKey, items[1..], season, p);
        Success([row] + rest)
      else SeasonRows(leagueKey, items[1..], season, p)
  }

  /** The items of the requested year, in payload order. */
  function Matching(items: seq<Value>, season: int): (ms: seq<map<string, Value>>)
    requires forall i :: 0 <= i < |items| ==> items[i].Obj?
    decreases |items|
  {
    if items == [] then []
    else if EqualsInt(Get(items[0].fields, "year"), season) then
      [items[0].fields] + Matching(items[1..], season)
    else Matching(items[1..], season)
  }

  /**
   * With every season item a dict whose matching entries all map, the
   * season rows are exactly the mapped matching items, in payload order.
   */
  lemma {:induction false} SeasonRowsAreMatchingItems(leagueKey: Value, items: seq<Value>,
                                                      season: int, p: Parsers)
    requires forall i :: 0 <= i < |items| ==> items[i].Obj?
    requires forall i :: 0 <= i < |items| && EqualsInt(Get(items[i].fields, "year"), season) ==>
      MapSeason(leagueKey, items[i].fields, p).Success?
    ensures var r := SeasonRows(leagueKey, items, season, p);
      var ms := Matching(items, season);
      && r.Success? && |r.value| == |ms|
      && forall i :: 0 <= i < |ms| ==> MapSeason(leagueKey, ms[i], p) == Success(r.value[i])
    decreases |items|
  {
    if items != [] {
      var f := items[0].fields;
      SeasonRowsAreMatchingItems(leagueKey, items[1..], season, p);
      var rest := SeasonRows(leagueKey, items[1..], season, p).value;
      var restMs := Matching(items[1..], season);
      if EqualsInt(Get(f, "year"), season) {
        var row := MapSeason(leagueKey, f, p).value;
        assert SeasonRows(leagueKey, items, season, p) == Success([row] + rest);
        assert Matching(items, season) == [f] + restMs;
        forall i | 1 <= i <= |restMs|
          ensures MapSeason(leagueKey, ([f] + restMs)[i], p) == Success(([row] + rest)[i])
        {
          assert ([f] + restMs)[i] == restMs[i - 1] && ([row] + rest)[i] == rest[i - 1];
        }
      }
    }
  }

  /** One team item: its mapped venue and its mapped team, which points at that venue's id. */
  datatype TeamPart = TeamPart(venue: Row, team: Row)

  function TeamPartOf(item: Value): (r: Result<TeamPart>)
    ensures r.Success? ==> r.value.venue.VenueRow? && r.value.team.TeamRow?
    ensures r.Success? ==> r.value.team.venueId == r.value.venue.id
  {
    var f :- AsDict(item);
    var venue :- SubObject(Get(f, "venue"));
    var team :- SubObject(Get(f, "team"));
    var mappedVenue := MapVenue(venue);
    Success(TeamPart(mappedVenue, MapTeam(team, mappedVenue.id)))
  }

  /** The venue rows to upsert and the team rows to upsert. */
  datatype TeamBatch = TeamBatch(venues: seq<Row>, teams: seq<Row>)

  /**
   * The loop over the team items: every item gives one team row; its venue
   * row is kept only when the venue id is not None.
   */
  function TeamBatches(items: seq<Value>): (r: Result<TeamBatch>)
    ensures r.Success? ==> |r.value.teams| == |items| && |r.value.venues| <= |items|
    ensures r.Success? ==> forall i :: 0 <= i < |items| ==>
      TeamPartOf(items[i]).Success? && r.value.teams[i] == TeamPartOf(items[i]).value.team
    ensures r.Success? ==> forall v :: v in r.value.venues ==> v.VenueRow? && v.id != Null
    decreases |items|
  {
    if items == [] then Success(TeamBatch([], []))
    else
      var b :- TeamBatches(items[..|items| - 1]);
      var part :- TeamPartOf(items[|items| - 1]);
      var venues := if part.venue.id != Null then b.venues + [part.venue] else b.venues;
      Success(TeamBatch(venues, b.teams + [part.team]))
  }

  /** The venues of the team items whose id is not None, in item order. */
  function KeptVenues(items: seq<Value>): seq<Row>
    requires forall i :: 0 <= i < |items| ==> TeamPartOf(items[i]).Success?
    decreases |items|
  {
    if items == [] then []
    else
      var v := TeamPartOf(items[|items| - 1]).value.venue;
      KeptVenues(items[..|items| - 1]) + (if v.id != Null then [v] else [])
  }

  /** The venue batch is exactly the non-None venues, in team order. */
  lemma {:induction false} VenueBatchIsKeptVenues(items: seq<Value>)
    requires TeamBatches(items).Success?
    ensures forall i :: 0 <= i < |items| ==> TeamPartOf(items[i]).Success?
    ensures TeamBatches(items).value.venues == KeptVenues(items)
    decreases |items|
  {
    if items != [] {
      VenueBatchIsKeptVenues(items[..|items| - 1]);
    }
  }

  /**
   * One entry of a player's `statistics`: the keyword arguments of
   * `map_player_statistics` fall back with `or`, so a falsy team id, league
   * id or season in the entry (not only a missing one) gives way to the
   * enclosing team id, the requested league id and the requested season.
   */
  function StatsRowFor(stats: Value, playerId: Value, teamId: Value, leagueId: int, season: int,
                       p: Parsers): (r: Result<Row>)
    ensures r.Success? ==> stats.Obj? && r.value.StatsRow?
    ensures r.Success? ==> KeyOf(r.value) == [
      playerId,
      Or(Get(Nested(stats.fields, "team"), "id"), teamId),
      Or(Get(Nested(stats.fields, "league"), "id"), Int(leagueId)),
      Or(Get(Nested(stats.fields, "league"), "season"), Int(season))]
  {
    var s :- AsDict(stats);
    var team :- SubObject(Get(s, "team"));
    var league :- SubObject(Get(s, "league"));
    MapPlayerStatistics(s, playerId, Or(Get(team, "id"), teamId), Or(Get(league, "id"), Int(leagueId)),
                        Or(Get(league, "season"), Int(season)), p)
  }

  /**
   * The statistics keys: a truthy value in the entry wins, and a falsy one
   * (None, 0, "", ...) or a missing one gives way to the fallback.
   */
  lemma StatsKeysFallBack(stats: Value, playerId: Value, teamId: Value, leagueId: int,
                          season: int, p: Parsers)
    requires StatsRowFor(stats, playerId, teamId, leagueId, season, p).Success?
    ensures var r := StatsRowFor(stats, playerId, teamId, leagueId, season, p).value;
      var team := Get(Nested(stats.fields, "team"), "id");
      var league := Nested(stats.fields, "league");
      && r.playerId == playerId
      && r.teamId == (if Truthy(team) then team else teamId)
      && r.leagueId == (if Truthy(Get(league, "id")) then Get(league, "id") else Int(leagueId))
      && r.season == (if Truthy(Get(league, "season")) then Get(league, "season") else Int(season))
  {
  }

  /**
   * A `for` loop that maps each item in turn and stops at the first
   * exception: the mapped items, in order, or that exception.
   */
  function EachOf<T>(items: seq<Value>, f: Value -> Result<T>): (r: Result<seq<T>>)
    ensures r.Success? ==> |r.value| == |items|
    ensures r.Success? ==> forall i :: 0 <= i < |items| ==> f(items[i]) == Success(r.value[i])
    decreases |items|
  {
    if items == [] then Success([])
    else
      var done :- EachOf(items[..|items| - 1], f);
      var last :- f(items[|items| - 1]);
      assert forall i :: 0 <= i < |items| - 1 ==> items[i] == items[..|items| - 1][i];
      Success(done + [last])
  }

  /** Once a prefix raises, the whole loop raises the same exception. */
  lemma {:induction false} EachOfFailureSticks<T>(items: seq<Value>, i: nat, f: Value -> Result<T>)
    requires i <= |items| && EachOf(items[..i], f).Failure?
    ensures EachOf(items, f) == EachOf(items[..i], f)
    decreases |items| - i
  {
    if i < |items| {
      assert items[..i + 1][..i] == items[..i];
      EachOfFailureSticks(items, i + 1, f);
    } else {
      assert items[..i] == items;
    }
  }

  /** One more item: the loop so far, then that item's mapping. */
  lemma EachOfStep<T>(items: seq<Value>, i: nat, f: Value -> Result<T>, done: seq<T>)
    requires i < |items| && EachOf(items[..i], f) == Success(done)
    ensures EachOf(items[..i + 1], f)
         == if f(items[i]).Success? then Success(done + [f(items[i]).value]) else Failure(f(items[i]).fault)
  {
    assert items[..i + 1][..i] == items[..i];
  }

  /** Every item mapped without exception: the loop succeeds, with every item mapped in order. */
  lemma {:induction false} EachOfSucceeds<T>(items: seq<Value>, f: Value -> Result<T>)
    requires forall i :: 0 <= i < |items| ==> f(items[i]).Success?
    ensures EachOf(items, f).Success?
    decreases |items|
  {
    if items != [] {
      var init := items[..|items| - 1];
      assert forall i :: 0 <= i < |init| ==> init[i] == items[i];
      EachOfSucceeds(init, f);
    }
  }

  /** The statistics row of one entry, for a given player, team, league and season. */
  function StatsOf(playerId: Value, teamId: Value, leagueId: int, season: int, p: Parsers)
    : Value -> Result<Row>
  {
    (stats: Value) => StatsRowFor(stats, playerId, teamId, leagueId, season, p)
  }

  /** The `for stats in (row.get("statistics") or [])` loop of one player. */
  function StatsRowsFor(items: seq<Value>, playerId: Value, teamId: Value, leagueId: int,
                        season: int, p: Parsers): (r: Result<seq<Row>>)
    ensures r.Success? ==> |r.value| == |items|
    ensures r.Success? ==> forall i :: 0 <= i < |items| ==>
      StatsRowFor(items[i], playerId, teamId, leagueId, season, p) == Success(r.value[i])
    ensures r.Success? ==> forall x :: x in r.value ==> x.StatsRow? && x.playerId == playerId
  {
    var r := EachOf(items, StatsOf(playerId, teamId, leagueId, season, p));
    assert r.Success? ==> forall i :: 0 <= i < |items| ==>
      StatsRowFor(items[i], playerId, teamId, leagueId, season, p) == Success(r.value[i]);
    r
  }

  /** The player rows and statistics rows gathered so far. */
  datatype PlayerBatch = PlayerBatch(players: seq<Row>, stats: seq<Row>)

  /** The rows one element of the players list contributes (none when the player id is None). */
  function RowsOfPlayer(row: Value, teamId: Value, leagueId: int, season: int, p: Parsers)
    : (r: Result<PlayerBatch>)
    ensures r.Success? ==> |r.value.players| <= 1
    ensures r.Success? ==> forall x :: x in r.value.players ==> x.PlayerRow? && x.id != Null
    ensures r.Success? ==> forall x :: x in r.value.stats ==> x.StatsRow? && x.playerId != Null
  {
    var f :- AsDict(row);
    var player :- SubObject(Get(f, "player"));
    var playerId := Get(player, "id");
    if playerId == Null then Success(PlayerBatch([], []))
    else
      var mapped :- MapPlayer(player, p);
      var items :- ItemsOf(Get(f, "statistics"));
      var stats :- StatsRowsFor(items, playerId, teamId, leagueId, season, p);
      Success(PlayerBatch([mapped], stats))
  }

  /** Two batches, one after the other. */
  function Append(a: PlayerBatch, b: PlayerBatch): PlayerBatch {
    PlayerBatch(a.players + b.players, a.stats + b.stats)
  }

  /**
   * The `for row in players` loop of one team: each element of the players
   * list adds its player row and its statistics rows, in order.
   */
  function TeamPlayerRows(rows: seq<Value>, teamId: Value, leagueId: int, season: int, p: Parsers)
    : (r: Result<PlayerBatch>)
    ensures r.Success? ==> |r.value.players| <= |rows|
    ensures r.Success? ==> forall x :: x in r.value.players ==> x.PlayerRow? && x.id != Null
    ensures r.Success? ==> forall x :: x in r.value.stats ==> x.StatsRow? && x.playerId != Null
    decreases |rows|
  {
    if rows == [] then Success(PlayerBatch([], []))
    else
      var before :- TeamPlayerRows(rows[..|rows| - 1], teamId, leagueId, season, p);
      var more :- RowsOfPlayer(rows[|rows| - 1], teamId, leagueId, season, p);
      Success(Append(before, more))
  }

  /** The ids of the team rows that are not None, in order: the teams whose players are fetched. */
  function QueriedTeams(teams: seq<Row>): (ids: seq<Value>)
    requires forall i :: 0 <= i < |teams| ==> teams[i].TeamRow?
    ensures Null !in ids && |ids| <= |teams|
    ensures forall i :: 0 <= i < |teams| && teams[i].id != Null ==> teams[i].id in ids
    decreases |teams|
  {
    if teams == [] then []
    else
      var ids := QueriedTeams(teams[..|teams| - 1]);
      assert forall i :: 0 <= i < |teams| - 1 ==> teams[i] == teams[..|teams| - 1][i];
      var last := teams[|teams| - 1];
      if last.id == Null then ids else ids + [last.id]
  }

  /** What the players stage gathered, the teams it queried and the 10-second pauses it made. */
  datatype PlayerStageOut = PlayerStageOut(batch: PlayerBatch, queried: seq<Value>, pauses: nat)

  /** Every team's pagination ends: the environment the players stage runs in. */
  ghost predicate AllPagingEnds(c: Client, server: Server, season: int) {
    forall team: Value :: PagingEnds(PlayerPages(c, server, team, season))
  }

  /**
   * One team with an id: every page of its players, then, when the list is
   * not empty, their player and statistics rows.
   */
  ghost function TeamStage(c: Client, server: Server, teamId: Value, leagueId: int, season: int,
                           p: Parsers): (r: Result<PlayerBatch>)
    requires AllPagingEnds(c, server, season)
    ensures r.Success? ==> forall x :: x in r.value.players ==> x.PlayerRow? && x.id != Null
    ensures r.Success? ==> forall x :: x in r.value.stats ==> x.StatsRow? && x.playerId != Null
  {
    var harvest :- AllPlayers(PlayerPages(c, server, teamId, season), c.perPageDelay);
    if harvest.players == [] then Success(PlayerBatch([], []))
    else TeamPlayerRows(harvest.players, teamId, leagueId, season, p)
  }

  /**
   * The loop over the team rows: a team whose id is None is skipped without
   * a request; every other team has its players walked, then their rows
   * gathered when the list is not empty, and is followed by a 10-second
   * pause.
   */
  ghost function PlayerStage(c: Client, server: Server, teams: seq<Row>, leagueId: int,
                             season: int, p: Parsers): (r: Result<PlayerStageOut>)
    requires AllPagingEnds(c, server, season)
    requires forall i :: 0 <= i < |teams| ==> teams[i].TeamRow?
    ensures r.Success? ==> r.value.queried == QueriedTeams(teams)
    ensures r.Success? ==> r.value.pauses == |r.value.queried|
    ensures r.Success? ==> forall x :: x in r.value.batch.players ==> x.PlayerRow? && x.id != Null
    ensures r.Success? ==> forall x :: x in r.value.batch.stats ==> x.StatsRow? && x.playerId != Null
    decreases |teams|
  {
    if teams == [] then Success(PlayerStageOut(PlayerBatch([], []), [], 0))
    else
      var before :- PlayerStage(c, server, teams[..|teams| - 1], leagueId, season, p);
      var teamId := teams[|teams| - 1].id;
      if teamId == Null then Success(before)
      else
        var more :- TeamStage(c, server, teamId, leagueId, season, p);
        Success(PlayerStageOut(Append(before.batch, more), before.queried + [teamId],
                               before.pauses + 1))
  }

  /* ---------------------------------------------------------------------- */
  /* The loops, step by step                                                 */
  /* ---------------------------------------------------------------------- */

  lemma {:induction false} TeamBatchesFailureSticks(items: seq<Value>, i: nat)
    requires i <= |items| && TeamBatches(items[..i]).Failure?
    ensures TeamBatches(items) == TeamBatches(items[..i])
    decreases |items| - i
  {
    if i < |items| {
      assert items[..i + 1][..i] == items[..i];
      TeamBatchesFailureSticks(items, i + 1);
    } else {
      assert items[..i] == items;
    }
  }

  /** Lines 129-140: the venue and team batches, built item by item. */
  method BuildTeamBatches(items: seq<Value>) returns (r: Result<TeamBatch>)
    ensures r == TeamBatches(items)
  {
    var venues: seq<Row> := [];
    var teams: seq<Row> := [];
    var i := 0;
    while i < |items|
      invariant 0 <= i <= |items|
      invariant TeamBatches(items[..i]) == Success(TeamBatch(venues, teams))
    {
      assert items[..i + 1][..i] == items[..i];
      var item := items[i];
      if !item.Obj? {
        TeamBatchesFailureSticks(items, i + 1);
        return Failure(AttributeError);
      }
      var venue := SubObject(Get(item.fields, "venue"));
      if venue.Failure? {
        TeamBatchesFailureSticks(items, i + 1);
        return Failure(venue.fault);
      }
      var team := SubObject(Get(item.fields, "team"));
      if team.Failure? {
        TeamBatchesFailureSticks(items, i + 1);
        return Failure(team.fault);
      }
      var mappedVenue := MapVenue(venue.value);
      if mappedVenue.id != Null {
        venues := venues + [mappedVenue];
      }
      teams := teams + [MapTeam(team.value, mappedVenue.id)];
      i := i + 1;
    }
    assert items[..i] == items;
    return Success(TeamBatch(venues, teams));
  }

  /** A `for` loop that maps each item in turn, stopping at the first exception. */
  method CollectEach<T>(items: seq<Value>, f: Value -> Result<T>) returns (r: Result<seq<T>>)
    ensures r == EachOf(items, f)
  {
    var done: seq<T> := [];
    var i := 0;
    while i < |items|
      invariant 0 <= i <= |items|
      invariant EachOf(items[..i], f) == Success(done)
    {
      EachOfStep(items, i, f, done);
      var mapped := f(items[i]);
      if mapped.Failure? {
        EachOfFailureSticks(items, i + 1, f);
        return Failure(mapped.fault);
      }
      done := done + [mapped.value];
      i := i + 1;
    }
    assert items[..i] == items;
    return Success(done);
  }

  /** Lines 171-180: one statistics row per entry of the player's statistics list. */
  method CollectStats(items: seq<Value>, playerId: Value, teamId: Value, leagueId: int,
                      season: int, p: Parsers) returns (r: Result<seq<Row>>)
    ensures r == StatsRowsFor(items, playerId, teamId, leagueId, season, p)
  {
    r := CollectEach(items, StatsOf(playerId, teamId, leagueId, season, p));
  }

  /** Lines 164-180: one element of the players list, its player row and its statistics rows. */
  method PlayerRows(row: Value, teamId: Value, leagueId: int, season: int, p: Parsers)
    returns (r: Result<PlayerBatch>)
    ensures r == RowsOfPlayer(row, teamId, leagueId, season, p)
  {
    if !row.Obj? {
      return Failure(AttributeError);
    }
    var player := SubObject(Get(row.fields, "player"));
    if player.Failure? {
      return Failure(player.fault);
    }
    var playerId := Get(player.value, "id");
    if playerId == Null {
      return Success(PlayerBatch([], []));
    }
    var mapped := MapPlayer(player.value, p);
    if mapped.Failure? {
      return Failure(mapped.fault);
    }
    var items := ItemsOf(Get(row.fields, "statistics"));
    if items.Failure? {
      return Failure(items.fault);
    }
    var stats := CollectStats(items.value, playerId, teamId, leagueId, season, p);
    if stats.Failure? {
      return Failure(stats.fault);
    }
    return Success(PlayerBatch([mapped.value], stats.value));
  }

  lemma {:induction false} TeamPlayerRowsFailureSticks(rows: seq<Value>, i: nat, teamId: Value,
                                                       leagueId: int, season: int, p: Parsers)
    requires i <= |rows| && TeamPlayerRows(rows[..i], teamId, leagueId, season, p).Failure?
    ensures TeamPlayerRows(rows, teamId, leagueId, season, p)
         == TeamPlayerRows(rows[..i], teamId, leagueId, season, p)
    decreases |rows| - i
  {
    if i < |rows| {
      assert rows[..i + 1][..i] == rows[..i];
      TeamPlayerRowsFailureSticks(rows, i + 1, teamId, leagueId, season, p);
    } else {
      assert rows[..i] == rows;
    }
  }

  /** Lines 156-181: the player rows and statistics rows of one team's players list. */
  method CollectTeamPlayers(rows: seq<Value>, teamId: Value, leagueId: int, season: int,
                            p: Parsers) returns (r: Result<PlayerBatch>)
    ensures r == TeamPlayerRows(rows, teamId, leagueId, season, p)
  {
    var batch := PlayerBatch([], []);
    var i := 0;
    while i < |rows|
      invariant 0 <= i <= |rows|
      invariant TeamPlayerRows(rows[..i], teamId, leagueId, season, p) == Success(batch)
    {
      assert rows[..i + 1][..i] == rows[..i];
      var more := PlayerRows(rows[i], teamId, leagueId, season, p);
      if more.Failure? {
        TeamPlayerRowsFailureSticks(rows, i + 1, teamId, leagueId, season, p);
        return Failure(more.fault);
      }
      batch := Append(batch, more.value);
      i := i + 1;
    }
    assert rows[..i] == rows;
    return Success(batch);
  }

  /** Lines 152-181: the players of one team, fetched page by page and mapped. */
  method PlayersOfTeam(c: Client, server: Server, teamId: Value, leagueId: int, season: int,
                       p: Parsers) returns (r: Result<PlayerBatch>)
    requires AllPagingEnds(c, server, season)
    ensures r == TeamStage(c, server, teamId, leagueId, season, p)
  {
    var harvest := GetAllPlayersByTeam(c, server, teamId, season);
    if harvest.Failure? {
      return Failure(harvest.fault);
    }
    if harvest.value.players == [] {
      return Success(PlayerBatch([], []));
    }
    r := CollectTeamPlayers(harvest.value.players, teamId, leagueId, season, p);
  }

  lemma {:induction false} PlayerStageFailureSticks(c: Client, server: Server, teams: seq<Row>,
                                                    i: nat, leagueId: int, season: int, p: Parsers)
    requires AllPagingEnds(c, server, season)
    requires forall k :: 0 <= k < |teams| ==> teams[k].TeamRow?
    requires i <= |teams| && PlayerStage(c, server, teams[..i], leagueId, season, p).Failure?
    ensures PlayerStage(c, server, teams, leagueId, season, p)
         == PlayerStage(c, server, teams[..i], leagueId, season, p)
    decreases |teams| - i
  {
    if i < |teams| {
      assert teams[..i + 1][..i] == teams[..i];
      PlayerStageFailureSticks(c, server, teams, i + 1, leagueId, season, p);
    } else {
      assert teams[..i] == teams;
    }
  }

  /** One more team row, in terms of the stage so far and that team's own stage. */
  lemma PlayerStageStep(c: Client, server: Server, teams: seq<Row>, i: nat, leagueId: int,
                        season: int, p: Parsers, out: PlayerStageOut)
    requires AllPagingEnds(c, server, season)
    requires forall k :: 0 <= k < |teams| ==> teams[k].TeamRow?
    requires i < |teams| && PlayerStage(c, server, teams[..i], leagueId, season, p) == Success(out)
    ensures PlayerStage(c, server, teams[..i + 1], leagueId, season, p)
         == if teams[i].id == Null then Success(out)
            else match TeamStage(c, server, teams[i].id, leagueId, season, p)
                 case Failure(f) => Failure(f)
                 case Success(more) =>
                   Success(PlayerStageOut(Append(out.batch, more), out.queried + [teams[i].id],
                                          out.pauses + 1))
  {
    assert teams[..i + 1][..i] == teams[..i];
  }

  /**
   * Lines 150-183: for every team row with an id, all its players' pages,
   * their player and statistics rows, and a 10-second pause after the team.
   */
  method CollectAllPlayers(c: Client, server: Server, teams: seq<Row>, leagueId: int,
                           season: int, p: Parsers) returns (r: Result<PlayerStageOut>)
    requires AllPagingEnds(c, server, season)
    requires forall k :: 0 <= k < |teams| ==> teams[k].TeamRow?
    ensures r == PlayerStage(c, server, teams, leagueId, season, p)
  {
    var out := PlayerStageOut(PlayerBatch([], []), [], 0);
    var i := 0;
    while i < |teams|
      invariant 0 <= i <= |teams|
      invariant PlayerStage(c, server, teams[..i], leagueId, season, p) == Success(out)
    {
      PlayerStageStep(c, server, teams, i, leagueId, season, p, out);
      var teamId := teams[i].id;
      if teamId != Null {
        var more := PlayersOfTeam(c, server, teamId, leagueId, season, p);
        if more.Failure? {
          PlayerStageFailureSticks(c, server, teams, i + 1, leagueId, season, p);
          return Failure(more.fault);
        }
        out := PlayerStageOut(Append(out.batch, more.value), out.queried + [teamId],
                              out.pauses + 1);
      }
      i := i + 1;
    }
    assert teams[..i] == teams;
    return Success(out);
  }

  /* ---------------------------------------------------------------------- */
  /* The stages of a run                                                     */
  /* ---------------------------------------------------------------------- */

  /**
   * A stage's outcome: an exception (the run rolls back), `None` (the run
   * stops early with exit code 1) or what the next stage starts from.
   */
  type Stage<T> = Result<Option<T>>

  /**
   * Lines 96-120, from the league document: stop when its `response` is
   * falsy; otherwise merge the league row of the first entry and, when
   * some season item has the requested year, the season rows.
   */
  function LeaguePlan(t: Tables, leagueData: Value, season: int, p: Parsers): (r: Stage<Tables>)
    ensures r == Success(None) <==> leagueData.Obj? && !Truthy(Get(leagueData.fields, "response"))
  {
    var data :- AsDict(leagueData);
    var response := Get(data, "response");
    if !Truthy(response) then Success(None)
    else
      var entry :- FirstItem(response);
      var e :- AsDict(entry);
      var league :- SubObject(Get(e, "league"));
      var country :- SubObject(Get(e, "country"));
      var leagueRow := MapLeague(league, country);
      var items :- ItemsOf(Get(e, "seasons"));
      var seasons :- SeasonRows(leagueRow.id, items, season, p);
      var t1 := MergeRow(t, "league", leagueRow).value;
      if seasons == [] then Success(Some(t1))
      else
        BatchSucceeds(t1, "season", seasons);
        Success(Some(Batch(t1, "season", seasons).tables))
  }

  /**
   * A league stage that goes on has merged the league row of the first
   * entry of `response`, and the season batch has not overwritten it.
   */
  lemma LeaguePlanMergesLeague(t: Tables, leagueData: Value, season: int, p: Parsers)
    requires LeaguePlan(t, leagueData, season, p).Success?
    requires LeaguePlan(t, leagueData, season, p).value.Some?
    ensures leagueData.Obj? && Truthy(Get(leagueData.fields, "response"))
    ensures FirstItem(Get(leagueData.fields, "response")).Success?
    ensures FirstItem(Get(leagueData.fields, "response")).value.Obj?
    ensures var e := FirstItem(Get(leagueData.fields, "response")).value;
      var row := MapLeague(Nested(e.fields, "league"), Nested(e.fields, "country"));
      var u := LeaguePlan(t, leagueData, season, p).value.value;
      KeyOf(row) in TableOf(u, League) && TableOf(u, League)[KeyOf(row)] == row
  {
    var e := FirstItem(Get(leagueData.fields, "response")).value;
    var row := MapLeague(Nested(e.fields, "league"), Nested(e.fields, "country"));
    var t1 := MergeRow(t, "league", row).value;
    assert KeyOf(row) in TableOf(t1, League) && TableOf(t1, League)[KeyOf(row)] == row;
    var items := ItemsOf(Get(e.fields, "seasons")).value;
    var seasons := SeasonRows(row.id, items, season, p).value;
    if seasons != [] {
      BatchSucceeds(t1, "season", seasons);
      BatchKeepsOtherTables(t1, "season", seasons, League);
    }
  }

  /** What the teams stage leaves: the tables and the team rows whose players are fetched next. */
  datatype TeamsLoaded = TeamsLoaded(tables: Tables, teams: seq<Row>)

  /**
   * Lines 142-143: the venue batch, then the team batch; either raises
   * when a row is not of its model.
   */
  function StoreTeams(t: Tables, batch: TeamBatch): (r: Result<Tables>)
    ensures r.Success? <==>
      (batch.venues == [] || AllOf(batch.venues, Venue))
      && (batch.teams == [] || AllOf(batch.teams, Team))
  {
    var a := Batch(t, "venue", batch.venues);
    BatchSucceeds(t, "venue", batch.venues);
    if a.result.Failure? then Failure(a.result.fault)
    else
      var b := Batch(a.tables, "team", batch.teams);
      BatchSucceeds(a.tables, "team", batch.teams);
      if b.result.Failure? then Failure(b.result.fault) else Success(b.tables)
  }

  /** The batches built from the team items are of the models they are stored as. */
  lemma BuiltTeamsAreStored(t: Tables, items: seq<Value>)
    requires TeamBatches(items).Success?
    ensures StoreTeams(t, TeamBatches(items).value).Success?
    ensures forall i :: 0 <= i < |TeamBatches(items).value.teams| ==>
      TeamBatches(items).value.teams[i].TeamRow?
  {
    var batch := TeamBatches(items).value;
    assert AllOf(batch.venues, Venue) by {
      forall i | 0 <= i < |batch.venues| ensures ModelOf(batch.venues[i]) == Venue {
        assert batch.venues[i] in batch.venues;
      }
    }
    assert AllOf(batch.teams, Team) by {
      forall i | 0 <= i < |batch.teams| ensures ModelOf(batch.teams[i]) == Team {
        assert TeamPartOf(items[i]).Success?;
      }
    }
  }

  /**
   * Lines 124-144, from the teams document: stop when its `response` is
   * falsy; otherwise merge the venue batch, then the team batch, which
   * never raise.
   */
  function TeamsPlan(t: Tables, teamsData: Value): (r: Stage<TeamsLoaded>)
    ensures r == Success(None) <==> teamsData.Obj? && !Truthy(Get(teamsData.fields, "response"))
    ensures r.Success? && r.value.Some? ==>
      forall i :: 0 <= i < |r.value.value.teams| ==> r.value.value.teams[i].TeamRow?
  {
    var data :- AsDict(teamsData);
    var response := Get(data, "response");
    if !Truthy(response) then Success(None)
    else
      var items :- ItemsOf(response);
      var batch :- TeamBatches(items);
      BuiltTeamsAreStored(t, items);
      Success(Some(TeamsLoaded(StoreTeams(t, batch).value, batch.teams)))
  }

  /**
   * Lines 185-186: the player batch, then the statistics batch; either
   * raises when a row is not of its model.
   */
  function StorePlayers(t: Tables, batch: PlayerBatch): (r: Result<Tables>)
    ensures r.Success? <==>
      (batch.players == [] || AllOf(batch.players, Player))
      && (batch.stats == [] || AllOf(batch.stats, PlayerStatistics))
  {
    var a := Batch(t, "player", batch.players);
    BatchSucceeds(t, "player", batch.players);
    if a.result.Failure? then Failure(a.result.fault)
    else
      var b := Batch(a.tables, "player_statistics", batch.stats);
      BatchSucceeds(a.tables, "player_statistics", batch.stats);
      if b.result.Failure? then Failure(b.result.fault) else Success(b.tables)
  }

  /** The rows the players stage gathers are of the models they are stored as. */
  lemma GatheredRowsAreStored(t: Tables, batch: PlayerBatch)
    requires forall x :: x in batch.players ==> x.PlayerRow?
    requires forall x :: x in batch.stats ==> x.StatsRow?
    ensures StorePlayers(t, batch).Success?
  {
    assert AllOf(batch.players, Player) by {
      forall i | 0 <= i < |batch.players| ensures ModelOf(batch.players[i]) == Player {
        assert batch.players[i] in batch.players;
      }
    }
    assert AllOf(batch.stats, PlayerStatistics) by {
      forall i | 0 <= i < |batch.stats| ensures ModelOf(batch.stats[i]) == PlayerStatistics {
        assert batch.stats[i] in batch.stats;
      }
    }
  }

  /**
   * Lines 147-187: the players stage, then its two batches, which never
   * raise: the stage raises only where gathering the rows raises.
   */
  ghost function PlayersPlan(c: Client, server: Server, t: Tables, teams: seq<Row>, leagueId: int,
                             season: int, p: Parsers): (r: Result<Tables>)
    requires AllPagingEnds(c, server, season)
    requires forall i :: 0 <= i < |teams| ==> teams[i].TeamRow?
    ensures r.Success? <==> PlayerStage(c, server, teams, leagueId, season, p).Success?
  {
    var out :- PlayerStage(c, server, teams, leagueId, season, p);
    GatheredRowsAreStored(t, out.batch);
    Success(StorePlayers(t, out.batch).value)
  }

  /* ---------------------------------------------------------------------- */
  /* The stages, on the session                                              */
  /* ---------------------------------------------------------------------- */

  /** Lines 95-120: the league and season rows merged into the session. */
  method LoadLeague(session: Session, leagueData: Value, season: int, p: Parsers)
    returns (r: Stage<Tables>)
    modifies session
    ensures r == LeaguePlan(old(session.pending), leagueData, season, p)
    ensures r.Success? && r.value.Some? ==> session.pending == r.value.value
    ensures !(r.Success? && r.value.Some?) ==> session.pending == old(session.pending)
    ensures session.stored == old(session.stored) && session.log == old(session.log)
  {
    if !leagueData.Obj? {
      return Failure(AttributeError);
    }
    var response := Get(leagueData.fields, "response");
    if !Truthy(response) {
      return Success(None);
    }
    var entry := FirstItem(response);
    if entry.Failure? {
      return Failure(entry.fault);
    }
    if !entry.value.Obj? {
      return Failure(AttributeError);
    }
    var e := entry.value.fields;
    var league := SubObject(Get(e, "league"));
    if league.Failure? {
      return Failure(league.fault);
    }
    var country := SubObject(Get(e, "country"));
    if country.Failure? {
      return Failure(country.fault);
    }
    var leagueRow := MapLeague(league.value, country.value);
    var items := ItemsOf(Get(e, "seasons"));
    if items.Failure? {
      return Failure(items.fault);
    }
    var seasons := SeasonRows(leagueRow.id, items.value, season, p);
    if seasons.Failure? {
      return Failure(seasons.fault);
    }
    var merged := UpsertOne(session, "league", leagueRow);
    if seasons.value != [] {
      BatchSucceeds(session.pending, "season", seasons.value);
      var count := UpsertMany(session, "season", seasons.value);
    }
    return Success(Some(session.pending));
  }

  /** Lines 123-144: the venue and team rows merged into the session. */
  method LoadTeams(session: Session, teamsData: Value) returns (r: Stage<TeamsLoaded>)
    modifies session
    ensures r == TeamsPlan(old(session.pending), teamsData)
    ensures r.Success? && r.value.Some? ==> session.pending == r.value.value.tables
    ensures !(r.Success? && r.value.Some?) ==> session.pending == old(session.pending)
    ensures session.stored == old(session.stored) && session.log == old(session.log)
  {
    if !teamsData.Obj? {
      return Failure(AttributeError);
    }
    var response := Get(teamsData.fields, "response");
    if !Truthy(response) {
      return Success(None);
    }
    var items := ItemsOf(response);
    if items.Failure? {
      return Failure(items.fault);
    }
    var batch := BuildTeamBatches(items.value);
    if batch.Failure? {
      return Failure(batch.fault);
    }
    BuiltTeamsAreStored(session.pending, items.value);
    var venueCount := UpsertMany(session, "venue", batch.value.venues);
    var teamCount := UpsertMany(session, "team", batch.value.teams);
    return Success(Some(TeamsLoaded(session.pending, batch.value.teams)));
  }

  /** Lines 147-187: the player and statistics rows merged into the session. */
  method LoadPlayers(session: Session, c: Client, server: Server, teams: seq<Row>, leagueId: int,
                     season: int, p: Parsers) returns (r: Result<Tables>)
    requires AllPagingEnds(c, server, season)
    requires forall i :: 0 <= i < |teams| ==> teams[i].TeamRow?
    modifies session
    ensures r == PlayersPlan(c, server, old(session.pending), teams, leagueId, season, p)
    ensures r.Success? ==> session.pending == r.value
    ensures r.Failure? ==> session.pending == old(session.pending)
    ensures session.stored == old(session.stored) && session.log == old(session.log)
  {
    var out := CollectAllPlayers(c, server, teams, leagueId, season, p);
    if out.Failure? {
      return Failure(out.fault);
    }
    GatheredRowsAreStored(session.pending, out.value.batch);
    var playerCount := UpsertMany(session, "player", out.value.batch.players);
    var statsCount := UpsertMany(session, "player_statistics", out.value.batch.stats);
    return Success(session.pending);
  }

  /* ---------------------------------------------------------------------- */
  /* A whole run                                                             */
  /* ---------------------------------------------------------------------- */

  /** How the stages of `run_extraction` end. */
  datatype RunOutcome =
    | NotReady                  // the database check failed
    | NoLeague                  // the league `response` was empty
    | NoTeams                   // the teams `response` was empty
    | Crashed(fault: Fault)     // an exception reached the `except` clauses
    | Finished(tables: Tables)  // every stage ran: the tables to commit

  /**
   * Lines 89-187: the stages in order, from the session's tables, the
   * database check, the outcome of building the client and the server
   * that answers its requests.
   */
  ghost function RunPlan(db: Tables, ready: bool, client: Result<Client>, server: Server,
                         leagueId: int, season: int, p: Parsers): (r: RunOutcome)
    requires client.Success? ==> AllPagingEnds(client.value, server, season)
    ensures r.NotReady? <==> !ready
    ensures r.Finished? ==> ready && client.Success?
  {
    if !ready then NotReady
    else if client.Failure? then Crashed(client.fault)
    else FromLeague(db, client.value, server, leagueId, season, p)
  }

  /** Lines 95-187: from the league request on. */
  ghost function FromLeague(db: Tables, c: Client, server: Server, leagueId: int, season: int,
                            p: Parsers): (r: RunOutcome)
    requires AllPagingEnds(c, server, season)
    ensures !r.NotReady?
  {
    var league := GetLeague(c, server, leagueId, season).result;
    if league.Failure? then Crashed(league.fault)
    else
      match LeaguePlan(db, league.value, season, p)
      case Failure(f) => Crashed(f)
      case Success(None) => NoLeague
      case Success(Some(withLeague)) => FromTeams(withLeague, c, server, leagueId, season, p)
  }

  /** Lines 123-187: from the teams request on. */
  ghost function FromTeams(t: Tables, c: Client, server: Server, leagueId: int, season: int,
                           p: Parsers): (r: RunOutcome)
    requires AllPagingEnds(c, server, season)
    ensures !r.NotReady? && !r.NoLeague?
  {
    var teams := GetTeams(c, server, leagueId, season).result;
    if teams.Failure? then Crashed(teams.fault)
    else
      match TeamsPlan(t, teams.value)
      case Failure(f) => Crashed(f)
      case Success(None) => NoTeams
      case Success(Some(loaded)) =>
        match PlayersPlan(c, server, loaded.tables, loaded.teams, leagueId, season, p)
        case Failure(f) => Crashed(f)
        case Success(u) => Finished(u)
  }

  /** The run stops for want of a league exactly when the league request's `response` is falsy. */
  lemma StopsWithoutLeague(db: Tables, ready: bool, client: Result<Client>, server: Server,
                           leagueId: int, season: int, p: Parsers)
    requires client.Success? ==> AllPagingEnds(client.value, server, season)
    ensures RunPlan(db, ready, client, server, leagueId, season, p) == NoLeague
        <==> && ready && client.Success?
             && GetLeague(client.value, server, leagueId, season).result.Success?
             && !Truthy(Get(GetLeague(client.value, server, leagueId, season).result.value.fields,
                            "response"))
  {
  }

  /**
   * The run stops for want of teams only after the league stage went on,
   * and exactly when the teams request's `response` is falsy.
   */
  lemma StopsWithoutTeams(db: Tables, ready: bool, client: Result<Client>, server: Server,
                          leagueId: int, season: int, p: Parsers)
    requires client.Success? ==> AllPagingEnds(client.value, server, season)
    requires RunPlan(db, ready, client, server, leagueId, season, p) == NoTeams
    ensures ready && client.Success?
    ensures var league := GetLeague(client.value, server, leagueId, season).result;
      league.Success? && LeaguePlan(db, league.value, season, p).Success?
      && LeaguePlan(db, league.value, season, p).value.Some?
    ensures var teams := GetTeams(client.value, server, leagueId, season).result;
      teams.Success? && !Truthy(Get(teams.value.fields, "response"))
  {
  }

  /** A finished run stores the league row merged by the league stage. */
  lemma FinishedRunStoresLeague(db: Tables, ready: bool, client: Result<Client>, server: Server,
                                leagueId: int, season: int, p: Parsers)
    requires client.Success? ==> AllPagingEnds(client.value, server, season)
    requires RunPlan(db, ready, client, server, leagueId, season, p).Finished?
    ensures var league := GetLeague(client.value, server, leagueId, season).result;
      && league.Success? && LeaguePlan(db, league.value, season, p).Success?
      && LeaguePlan(db, league.value, season, p).value.Some?
      && TableOf(RunPlan(db, ready, client, server, leagueId, season, p).tables, League)
         == TableOf(LeaguePlan(db, league.value, season, p).value.value, League)
  {
    var c := client.value;
    var withLeague := LeaguePlan(db, GetLeague(c, server, leagueId, season).result.value, season, p)
                      .value.value;
    var teams := GetTeams(c, server, leagueId, season).result.value;
    TeamsKeepLeagues(withLeague, teams);
    var loaded := TeamsPlan(withLeague, teams).value.value;
    PlayersKeepLeagues(c, server, loaded.tables, loaded.teams, leagueId, season, p);
  }

  /** The teams stage leaves the league table as it was. */
  lemma TeamsKeepLeagues(t: Tables, teamsData: Value)
    requires TeamsPlan(t, teamsData).Success? && TeamsPlan(t, teamsData).value.Some?
    ensures TableOf(TeamsPlan(t, teamsData).value.value.tables, League) == TableOf(t, League)
  {
    var items := ItemsOf(Get(teamsData.fields, "response")).value;
    var batch := TeamBatches(items).value;
    BuiltTeamsAreStored(t, items);
    var withVenues := Batch(t, "venue", batch.venues);
    BatchKeepsOtherTables(t, "venue", batch.venues, League);
    BatchKeepsOtherTables(withVenues.tables, "team", batch.teams, League);
  }

  /** The players stage leaves the league table as it was. */
  lemma PlayersKeepLeagues(c: Client, server: Server, t: Tables, teams: seq<Row>, leagueId: int,
                           season: int, p: Parsers)
    requires AllPagingEnds(c, server, season)
    requires forall i :: 0 <= i < |teams| ==> teams[i].TeamRow?
    requires PlayersPlan(c, server, t, teams, leagueId, season, p).Success?
    ensures TableOf(PlayersPlan(c, server, t, teams, leagueId, season, p).value, League)
         == TableOf(t, League)
  {
    var batch := PlayerStage(c, server, teams, leagueId, season, p).value.batch;
    GatheredRowsAreStored(t, batch);
    var withPlayers := Batch(t, "player", batch.players);
    BatchKeepsOtherTables(t, "player", batch.players, League);
    BatchKeepsOtherTables(withPlayers.tables, "player_statistics", batch.stats, League);
  }

  /* ---------------------------------------------------------------------- */
  /* Building the client (line 92)                                           */
  /* ---------------------------------------------------------------------- */

  /**
   * Line 92 as written: the keyword argument `rate_limit_retry_seconds` is
   * not a parameter of the client's constructor, so the call raises
   * TypeError before the constructor runs, whatever the environment holds.
   */
  function ClientAsWritten(envKey: Option<string>): (r: Result<Client>)
    ensures r.Failure? && r.fault == TypeError
  {
    Failure(TypeError)
  }

  /**
   * Line 92 as evidently intended: the client with the default base URL,
   * the key from the environment and a 10-second pause between pages. The
   * client has no setting for the wait after a 429, so the retry keyword is
   * dropped and a 429 without `Retry-After` still waits 60 seconds.
   */
  function ClientAsIntended(envKey: Option<string>): (r: Result<Client>)
    ensures r.Success? <==> envKey.Some? && envKey.value != ""
    ensures r.Failure? ==> r.fault == ValueError
    ensures r.Success? ==> r.value.apiKey == envKey.value && r.value.perPageDelay == 10.0
    ensures r.Success? ==> r.value.baseUrl == DefaultBaseUrl
  {
    NewClient(None, envKey, DefaultBaseUrl, 10.0)
  }

  /**
   * As written, a run that gets past the database check always ends in the
   * `except Exception` clause: no request is made and nothing is stored.
   */
  lemma AsWrittenRunAlwaysCrashes(db: Tables, envKey: Option<string>, server: Server,
                                  leagueId: int, season: int, p: Parsers)
    ensures RunPlan(db, true, ClientAsWritten(envKey), server, leagueId, season, p)
         == Crashed(TypeError)
  {
  }

  /**
   * As intended, a run with a configured key gets past the client: it
   * crashes there only for want of a key, and never with the TypeError.
   */
  lemma IntendedClientGetsPastLine92(db: Tables, envKey: Option<string>, server: Server,
                                     leagueId: int, season: int, p: Parsers)
    requires ClientAsIntended(envKey).Success? ==>
      AllPagingEnds(ClientAsIntended(envKey).value, server, season)
    ensures envKey.None? || envKey.value == "" ==>
      RunPlan(db, true, ClientAsIntended(envKey), server, leagueId, season, p)
      == Crashed(ValueError)
    ensures envKey.Some? && envKey.value != "" ==> ClientAsIntended(envKey).Success?
  {
  }

  /** Lines 89-187 on the session: the stages, each returning as soon as the run must end. */
  method RunStages(session: Session, probe: bool, existing: set<string>, envKey: Option<string>,
                   server: Server, leagueId: int, season: int, p: Parsers)
    returns (outcome: RunOutcome)
    requires ClientAsIntended(envKey).Success? ==>
      AllPagingEnds(ClientAsIntended(envKey).value, server, season)
    modifies session
    ensures outcome == RunPlan(old(session.pending), DatabaseReady(probe, existing),
                               ClientAsIntended(envKey), server, leagueId, season, p)
    ensures outcome.Finished? ==> session.pending == outcome.tables
    ensures outcome.NotReady? || outcome.NoLeague? ==> session.pending == old(session.pending)
    ensures session.stored == old(session.stored) && session.log == old(session.log)
  {
    if !DatabaseReady(probe, existing) {
      return NotReady;
    }
    var client := ClientAsIntended(envKey);
    if client.Failure? {
      return Crashed(client.fault);
    }
    var c := client.value;
    var league := GetLeague(c, server, leagueId, season);
    if league.result.Failure? {
      return Crashed(league.result.fault);
    }
    var leagueStage := LoadLeague(session, league.result.value, season, p);
    if leagueStage.Failure? {
      return Crashed(leagueStage.fault);
    }
    if leagueStage.value.None? {
      return NoLeague;
    }
    var teams := GetTeams(c, server, leagueId, season);
    if teams.result.Failure? {
      return Crashed(teams.result.fault);
    }
    var teamStage := LoadTeams(session, teams.result.value);
    if teamStage.Failure? {
      return Crashed(teamStage.fault);
    }
    if teamStage.value.None? {
      return NoTeams;
    }
    var players := LoadPlayers(session, c, server, teamStage.value.value.teams, leagueId, season, p);
    if players.Failure? {
      return Crashed(players.fault);
    }
    return Finished(players.value);
  }

  /**
   * `run_extraction` on a new session: the exit code is 0 exactly when
   * every stage ran, and then the run's rows are committed; an exception
   * rolls back; every path closes the session, so nothing uncommitted
   * survives.
   */
  method RunExtraction(session: Session, probe: bool, existing: set<string>,
                       envKey: Option<string>, server: Server, leagueId: int, season: int,
                       p: Parsers) returns (code: int)
    requires ClientAsIntended(envKey).Success? ==>
      AllPagingEnds(ClientAsIntended(envKey).value, server, season)
    requires session.pending == session.stored
    modifies session
    ensures var plan := RunPlan(old(session.stored), DatabaseReady(probe, existing),
                                ClientAsIntended(envKey), server, leagueId, season, p);
      && (code == 0 || code == 1)
      && (code == 0 <==> plan.Finished?)
      && (plan.Finished? ==> session.stored == plan.tables
                             && session.log == old(session.log) + [TxEvent.Commit, TxEvent.Close])
      && (plan.Crashed? ==> session.stored == old(session.stored)
                            && session.log == old(session.log) + [TxEvent.Rollback, TxEvent.Close])
      && (!plan.Finished? && !plan.Crashed? ==>
            session.stored == old(session.stored) && session.log == old(session.log) + [TxEvent.Close])
    ensures session.pending == session.stored
  {
    ghost var plan := RunPlan(session.stored, DatabaseReady(probe, existing),
                              ClientAsIntended(envKey), server, leagueId, season, p);
    var outcome := RunStages(session, probe, existing, envKey, server, leagueId, season, p);
    assert outcome == plan;
    if outcome.Finished? {
      session.Commit();
      code := 0;
    } else if outcome.Crashed? {
      session.Rollback();
      code := 1;
    } else {
      code := 1;
    }
    session.Close();
  }
}
