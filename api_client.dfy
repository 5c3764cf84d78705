/**
 * The API-Football client: construction (key check, base-URL trimming), the
 * single `request` with its bounded 429 retry and its soft error envelope,
 * and the pagination walk of `get_all_players_by_team`.
 *
 * The network is a function from (url, headers, params, attempt number) to
 * the outcome of one `requests.get`; sleeps are returned as the list of
 * requested durations instead of being performed.
 */
module ApiClient {
  import opened Values

  /* ---------------------------------------------------------------------- */
  /* Text helpers: `str.lstrip`/`str.rstrip` and `int(str)`                  */
  /* ---------------------------------------------------------------------- */

  /** `s.lstrip(chars)`: the longest suffix of `s` that does not start with a dropped char. */
  function TrimLeft(s: string, drop: char -> bool): (r: string)
    ensures |r| <= |s| && r == s[|s| - |r|..]
    ensures r == [] || !drop(r[0])
    ensures forall i :: 0 <= i < |s| - |r| ==> drop(s[i])
    decreases |s|
  {
    if s != [] && drop(s[0]) then TrimLeft(s[1..], drop) else s
  }

  /** `s.rstrip(chars)`: the longest prefix of `s` that does not end with a dropped char. */
  function TrimRight(s: string, drop: char -> bool): (r: string)
    ensures |r| <= |s| && r == s[..|r|]
    ensures r == [] || !drop(r[|r| - 1])
    ensures forall i :: |r| <= i < |s| ==> drop(s[i])
    decreases |s|
  {
    if s != [] && drop(s[|s| - 1]) then TrimRight(s[..|s| - 1], drop) else s
  }

  predicate IsSlash(c: char) { c == '/' }

  /** The ASCII whitespace `int()` strips around its argument. */
  predicate IsSpace(c: char) { c == ' ' || 9 <= c as int <= 13 }

  predicate IsDigit(c: char) { '0' <= c <= '9' }

  predicate AllDigits(s: string) {
    forall i :: 0 <= i < |s| ==> IsDigit(s[i])
  }

  /** The number a string of decimal digits denotes (leading zeros allowed). */
  function DigitsValue(s: string): (n: nat)
    requires AllDigits(s)
    decreases |s|
  {
    if s == [] then 0
    else 10 * DigitsValue(s[..|s| - 1]) + (s[|s| - 1] as int - '0' as int)
  }

  /**
   * `int(s)` on a string: surrounding whitespace is ignored, then an optional
   * sign and at least one decimal digit; anything else is rejected (None
   * stands for the ValueError `int` raises).
   */
  function ParseInt(s: string): (r: Option<int>)
    ensures r.Some? ==> exists i :: 0 <= i < |s| && IsDigit(s[i])
  {
    var t := TrimLeft(TrimRight(s, IsSpace), IsSpace);
    if t != [] && (t[0] == '-' || t[0] == '+') then
      var d := t[1..];
      if d != [] && AllDigits(d) then
        Some(if t[0] == '-' then -(DigitsValue(d) as int) else DigitsValue(d))
      else None
    else if t != [] && AllDigits(t) then Some(DigitsValue(t))
    else None
  }

  /** `str(n)` for a natural number: its decimal digits without leading zeros. */
  function NatToString(n: nat): (s: string)
    ensures s != [] && AllDigits(s)
    ensures |s| > 1 ==> s[0] != '0'
  {
    var last := ['0' + ((n % 10) as char)];
    if n < 10 then last else NatToString(n / 10) + last
  }

  /** `str(n)` for any integer. */
  function IntToString(n: int): (s: string) {
    if n < 0 then "-" + NatToString(-n) else NatToString(n)
  }

  lemma {:induction false} DigitsOfNat(n: nat)
    ensures DigitsValue(NatToString(n)) == n
  {
    var last := ['0' + ((n % 10) as char)];
    if n >= 10 {
      DigitsOfNat(n / 10);
      var s := NatToString(n / 10) + last;
      assert s[..|s| - 1] == NatToString(n / 10);
    }
  }

  lemma NoSpaceIsTrimmed(s: string)
    requires AllDigits(s)
    ensures TrimRight(s, IsSpace) == s && TrimLeft(s, IsSpace) == s
  {
  }

  lemma ParseDigits(s: string)
    requires s != [] && AllDigits(s)
    ensures ParseInt(s) == Some(DigitsValue(s))
  {
    NoSpaceIsTrimmed(s);
  }

  /** `int(str(n)) == n`: the parser reads back every integer Python prints. */
  lemma ParseIntOfIntToString(n: int)
    ensures ParseInt(IntToString(n)) == Some(n)
  {
    var d := NatToString(if n < 0 then -n else n);
    DigitsOfNat(if n < 0 then -n else n);
    if n < 0 {
      var s := "-" + d;
      assert TrimRight(s, IsSpace) == s;
      assert TrimLeft(s, IsSpace) == s;
      assert s[1..] == d;
    } else {
      NoSpaceIsTrimmed(d);
    }
  }

  /* ---------------------------------------------------------------------- */
  /* The client                                                              */
  /* ---------------------------------------------------------------------- */

  const DefaultBaseUrl := "https://v3.football.api-sports.io"
  const KeyHeader := "x-apisports-key"

  /** The state `__init__` leaves behind; nothing updates it afterwards. */
  datatype Client = Client(apiKey: string, baseUrl: string, headers: map<string, string>,
                           perPageDelay: real)

  /**
   * `ApiFootballClient(api_key, base_url, per_page_delay_seconds)`: the key is
   * the argument when it is truthy, else the `API_FOOTBALL_KEY` environment
   * value (read after `.env` is loaded, given here as `envKey`); a missing or
   * empty key raises ValueError.
   */
  function NewClient(apiKey: Option<string>, envKey: Option<string>, baseUrl: string,
                     perPageDelay: real): (r: Result<Client>)
    ensures var key := if apiKey.Some? && apiKey.value != "" then apiKey else envKey;
      && (r.Failure? <==> key.None? || key.value == "")
      && (r.Failure? ==> r.fault == ValueError)
      && (r.Success? ==> r.value.apiKey == key.value && r.value.apiKey != ""
                         && r.value.headers == map[KeyHeader := key.value])
    ensures r.Success? ==> r.value.perPageDelay == perPageDelay
    ensures r.Success? ==> r.value.baseUrl == TrimRight(baseUrl, IsSlash)
    ensures r.Success? ==> r.value.baseUrl == [] || r.value.baseUrl[|r.value.baseUrl| - 1] != '/'
  {
    var key := if apiKey.Some? && apiKey.value != "" then apiKey else envKey;
    if key.None? || key.value == "" then Failure(ValueError)
    else Success(Client(key.value, TrimRight(baseUrl, IsSlash), map[KeyHeader := key.value],
                        perPageDelay))
  }

  /** `f"{self.base_url}/{endpoint.lstrip('/')}"`. */
  function Url(c: Client, endpoint: string): string {
    c.baseUrl + "/" + TrimLeft(endpoint, IsSlash)
  }

  /**
   * The request URL joins the trimmed base and the trimmed endpoint with
   * exactly one slash: the base part ends in no slash, the endpoint part
   * starts with none, and only slashes were removed from either.
   */
  lemma UrlJoinsWithOneSlash(apiKey: Option<string>, envKey: Option<string>, baseUrl: string,
                             perPageDelay: real, endpoint: string)
    requires NewClient(apiKey, envKey, baseUrl, perPageDelay).Success?
    ensures var c := NewClient(apiKey, envKey, baseUrl, perPageDelay).value;
      var u := Url(c, endpoint);
      var b := TrimRight(baseUrl, IsSlash);
      var e := TrimLeft(endpoint, IsSlash);
      && u == b + "/" + e
      && b == baseUrl[..|b|] && (forall i :: |b| <= i < |baseUrl| ==> baseUrl[i] == '/')
      && e == endpoint[|endpoint| - |e|..]
      && (forall i :: 0 <= i < |endpoint| - |e| ==> endpoint[i] == '/')
      && (b == [] || u[|b| - 1] != '/')
      && (e == [] || u[|b| + 1] != '/')
  {
    var b := TrimRight(baseUrl, IsSlash);
    var e := TrimLeft(endpoint, IsSlash);
    assert NewClient(apiKey, envKey, baseUrl, perPageDelay).value.baseUrl == b;
    var u := b + "/" + e;
    if b != [] {
      assert u[|b| - 1] == b[|b| - 1];
    }
    if e != [] {
      assert u[|b| + 1] == e[0];
    }
  }

  /** Leading slashes on the endpoint make no difference to the URL. */
  lemma UrlIgnoresLeadingSlashes(c: Client, endpoint: string, k: nat)
    ensures Url(c, Repeat('/', k) + endpoint) == Url(c, endpoint)
  {
    LeadingSlashesTrimmed(endpoint, k);
  }

  lemma {:induction false} LeadingSlashesTrimmed(s: string, k: nat)
    ensures TrimLeft(Repeat('/', k) + s, IsSlash) == TrimLeft(s, IsSlash)
  {
    if k == 0 {
      assert Repeat('/', k) + s == s;
    } else {
      var t := Repeat('/', k) + s;
      assert t[0] == '/' && t[1..] == Repeat('/', k - 1) + s;
      LeadingSlashesTrimmed(s, k - 1);
    }
  }

  function Repeat<T>(x: T, k: nat): (s: seq<T>)
    ensures |s| == k && forall i :: 0 <= i < k ==> s[i] == x
  {
    if k == 0 then [] else [x] + Repeat(x, k - 1)
  }

  /* ---------------------------------------------------------------------- */
  /* One request                                                             */
  /* ---------------------------------------------------------------------- */

  type Params = map<string, Value>

  /** The body of a response: JSON that decodes, or text that `resp.json()` rejects. */
  datatype Body = Json(doc: Value) | Undecodable(decodeError: string)

  /**
   * What one `requests.get` produced: a transport exception (connection,
   * timeout, ...), or a response with its status, its `Retry-After` header,
   * its body, and the message `raise_for_status` would carry.
   */
  datatype Outcome =
    | Transport(message: string)
    | Http(status: int, retryAfter: Option<string>, body: Body, errorText: string)

  /** The remote API as seen by the client: url, headers, params and attempt number. */
  type Server = (string, map<string, string>, Params, nat) -> Outcome

  /** What `request` returned, with the calls it made and the sleeps it asked for. */
  datatype Reply = Reply(result: Result<Value>, calls: nat, sleeps: seq<nat>)

  /** `{"response": [], "errors": {"request_exception": str(exc)}}`. */
  function ErrorEnvelope(message: string): (v: Value)
    ensures v.Obj? && !Truthy(Get(v.fields, "response"))
    ensures Get(v.fields, "errors") == Obj(map["request_exception" := Str(message)])
  {
    Obj(map["response" := Arr([]), "errors" := Obj(map["request_exception" := Str(message)])])
  }

  /**
   * The answer to a call that is not retried: a transport exception, any
   * status from 400 to 599 (`raise_for_status` raises HTTPError) and a body
   * that does not decode (JSONDecodeError) are all `RequestException`s and
   * come back as the error envelope; a decoded body that is not a dict fails
   * on `data.get` with AttributeError; a decoded dict is returned as it is.
   */
  function Settle(outcome: Outcome): (r: Result<Value>)
    ensures r.Success? ==> r.value.Obj?
    ensures r.Failure? ==> r.fault == AttributeError
    ensures outcome.Transport? ==> r == Success(ErrorEnvelope(outcome.message))
    ensures outcome.Http? && 400 <= outcome.status < 600 ==>
      r == Success(ErrorEnvelope(outcome.errorText))
    ensures outcome.Http? && !(400 <= outcome.status < 600) && outcome.body.Undecodable? ==>
      r == Success(ErrorEnvelope(outcome.body.decodeError))
    ensures outcome.Http? && !(400 <= outcome.status < 600) && outcome.body.Json? ==>
      r == (if outcome.body.doc.Obj? then Success(outcome.body.doc) else Failure(AttributeError))
  {
    match outcome
    case Transport(message) => Success(ErrorEnvelope(message))
    case Http(status, _, body, errorText) =>
      if 400 <= status < 600 then Success(ErrorEnvelope(errorText))
      else
        match body
        case Undecodable(message) => Success(ErrorEnvelope(message))
        case Json(doc) => if doc.Obj? then Success(doc) else Failure(AttributeError)
  }

  /**
   * `request(endpoint, params, retries)`, the call numbered `attempt`.
   * A 429 with retries left sleeps `Retry-After` seconds (60 by default) and
   * asks again with one retry fewer; `int()` of a malformed header and
   * `time.sleep` of a negative one raise ValueError, which is not caught.
   * Every other outcome is settled by that one call.
   */
  function Request(c: Client, server: Server, endpoint: string, params: Params,
                   retries: nat, attempt: nat): (r: Reply)
    ensures 1 <= r.calls <= retries + 1
    ensures |r.sleeps| == r.calls - 1
    ensures r.result.Success? ==> r.result.value.Obj?
    ensures r.result.Failure? ==> r.result.fault == ValueError || r.result.fault == AttributeError
  {
    var outcome := server(Url(c, endpoint), c.headers, params, attempt);
    if outcome.Http? && outcome.status == 429 && retries > 0 then
      var wait := ParseInt(outcome.retryAfter.GetOr("60"));
      if wait.None? || wait.value < 0 then Reply(Failure(ValueError), 1, [])
      else
        var rest := Request(c, server, endpoint, params, retries - 1, attempt + 1);
        Reply(rest.result, rest.calls + 1, [wait.value as nat] + rest.sleeps)
    else Reply(Settle(outcome), 1, [])
  }

  /**
   * Only a 429 with retries left is asked again: every other outcome, a
   * transport exception included, is settled by a single call with no sleep.
   */
  lemma SettledByOneCall(c: Client, server: Server, endpoint: string, params: Params,
                         retries: nat, attempt: nat)
    requires var o := server(Url(c, endpoint), c.headers, params, attempt);
      !(o.Http? && o.status == 429 && retries > 0)
    ensures Request(c, server, endpoint, params, retries, attempt)
      == Reply(Settle(server(Url(c, endpoint), c.headers, params, attempt)), 1, [])
  {
  }

  /**
   * A 429 with retries left and a usable `Retry-After` (60 when absent) sleeps
   * that long and re-issues the same endpoint and params with one retry fewer.
   */
  lemma RateLimitRetried(c: Client, server: Server, endpoint: string, params: Params,
                         retries: nat, attempt: nat, wait: nat)
    requires var o := server(Url(c, endpoint), c.headers, params, attempt);
      o.Http? && o.status == 429 && retries > 0 && ParseInt(o.retryAfter.GetOr("60")) == Some(wait)
    ensures var rest := Request(c, server, endpoint, params, retries - 1, attempt + 1);
      Request(c, server, endpoint, params, retries, attempt)
      == Reply(rest.result, rest.calls + 1, [wait] + rest.sleeps)
  {
  }

  /** The default `Retry-After` is read as 60 seconds. */
  lemma DefaultRetryAfter()
    ensures ParseInt("60") == Some(60)
  {
    ParseDigits("60");
    SixtyDigits();
  }

  lemma SixtyDigits()
    ensures DigitsValue("60") == 60
  {
    assert "60"[..1] == "6" && "6"[..0] == "";
  }

  /**
   * Under a 429 without `Retry-After` on every call, `request` makes exactly
   * `retries + 1` calls, sleeps 60 seconds between consecutive ones, and then
   * returns the error envelope of the last response.
   */
  lemma {:induction false} PersistentRateLimit(c: Client, server: Server, endpoint: string,
                                               params: Params, retries: nat, attempt: nat,
                                               body: Body, errorText: string)
    requires forall a :: attempt <= a ==>
      server(Url(c, endpoint), c.headers, params, a) == Http(429, None, body, errorText)
    ensures Request(c, server, endpoint, params, retries, attempt)
      == Reply(Success(ErrorEnvelope(errorText)), retries + 1, Repeat(60, retries))
  {
    if retries > 0 {
      PersistentRateLimit(c, server, endpoint, params, retries - 1, attempt + 1, body, errorText);
      RateLimitStep(c, server, endpoint, params, retries, attempt, body, errorText);
    } else {
      SettledByOneCall(c, server, endpoint, params, retries, attempt);
    }
  }

  lemma RateLimitStep(c: Client, server: Server, endpoint: string, params: Params,
                      retries: nat, attempt: nat, body: Body, errorText: string)
    requires retries > 0
    requires server(Url(c, endpoint), c.headers, params, attempt) == Http(429, None, body, errorText)
    requires Request(c, server, endpoint, params, retries - 1, attempt + 1)
      == Reply(Success(ErrorEnvelope(errorText)), retries, Repeat(60, retries - 1))
    ensures Request(c, server, endpoint, params, retries, attempt)
      == Reply(Success(ErrorEnvelope(errorText)), retries + 1, Repeat(60, retries))
  {
    DefaultWaitRetried(c, server, endpoint, params, retries, attempt, body, errorText);
    assert Repeat(60, retries) == [60] + Repeat(60, retries - 1);
  }

  /** A 429 without `Retry-After` and with retries left: a 60-second sleep, then the retry. */
  lemma DefaultWaitRetried(c: Client, server: Server, endpoint: string, params: Params,
                           retries: nat, attempt: nat, body: Body, errorText: string)
    requires retries > 0
    requires server(Url(c, endpoint), c.headers, params, attempt) == Http(429, None, body, errorText)
    ensures var rest := Request(c, server, endpoint, params, retries - 1, attempt + 1);
      Request(c, server, endpoint, params, retries, attempt)
      == Reply(rest.result, rest.calls + 1, [60] + rest.sleeps)
  {
    DefaultRetryAfter();
    RateLimitRetried(c, server, endpoint, params, retries, attempt, 60);
  }

  /** `get_league(league_id, season)`: one `leagues` request with the default two retries. */
  function GetLeague(c: Client, server: Server, leagueId: int, season: int): (r: Reply)
    ensures 1 <= r.calls <= 3
    ensures r.result.Success? ==> r.result.value.Obj?
  {
    Request(c, server, "leagues", map["id" := Int(leagueId), "season" := Int(season)], 2, 0)
  }

  /** `get_teams(league_id, season)`: one `teams` request with the default two retries. */
  function GetTeams(c: Client, server: Server, leagueId: int, season: int): (r: Reply)
    ensures 1 <= r.calls <= 3
    ensures r.result.Success? ==> r.result.value.Obj?
  {
    Request(c, server, "teams", map["league" := Int(leagueId), "season" := Int(season)], 2, 0)
  }

  /* ---------------------------------------------------------------------- */
  /* Pagination                                                              */
  /* ---------------------------------------------------------------------- */

  /** `int(v)` on a decoded JSON value (JSON numbers are integers here). */
  function ToInt(v: Value): (r: Result<int>)
    ensures v.Int? ==> r == Success(v.i)
    ensures v.Bool? ==> r == Success(if v.b then 1 else 0)
    ensures v.Str? ==> (r.Success? <==> ParseInt(v.s).Some?)
    ensures v.Str? && r.Success? ==> r.value == ParseInt(v.s).value
    ensures v.Str? && r.Failure? ==> r.fault == ValueError
    ensures v == Null || v.Arr? || v.Obj? ==> r == Failure(TypeError)
  {
    match v
    case Int(i) => Success(i)
    case Bool(b) => Success(if b then 1 else 0)
    case Str(s) => if ParseInt(s).Some? then Success(ParseInt(s).value) else Failure(ValueError)
    case _ => Failure(TypeError)
  }

  /** The players of one page and the page counters the loop compares. */
  datatype PageInfo = PageInfo(items: seq<Value>, current: int, total: int)

  /**
   * One pass of the loop body on the dict `data` of page `page`: the
   * `response` list (empty when falsy), then `current` (the page number when
   * `paging.current` is falsy) and `total` (`current` when `paging.total`
   * is falsy), each through `int()`.
   */
  function ReadPage(data: map<string, Value>, page: nat): (r: Result<PageInfo>)
    ensures r.Success? ==> ItemsOf(Get(data, "response")) == Success(r.value.items)
    ensures page >= 1 && !Truthy(Get(data, "paging")) && ItemsOf(Get(data, "response")).Success? ==>
      r.Success? && r.value.current == page && r.value.total == page
  {
    var items :- ItemsOf(Get(data, "response"));
    var paging :- SubObject(Get(data, "paging"));
    var current :- ToInt(Or(Get(paging, "current"), Int(page)));
    var total :- ToInt(Or(Get(paging, "total"), Int(current)));
    Success(PageInfo(items, current, total))
  }

  /** `{"team": team_id, "season": season, "page": page}`. */
  function PlayerParams(team: Value, season: int, page: nat): Params {
    map["team" := team, "season" := Int(season), "page" := Int(page)]
  }

  /** What fetching page `page` yields: its players, whether the walk stops there, and its calls. */
  datatype Step = Step(items: seq<Value>, stop: bool, calls: nat, waits: seq<nat>)

  /** `get_players_by_team(team_id, season, page)` followed by the reading of the page. */
  function FetchPage(c: Client, server: Server, team: Value, season: int, page: nat): (r: Result<Step>)
    ensures r.Success? ==> 1 <= r.value.calls <= 3
  {
    var reply := Request(c, server, "players", PlayerParams(team, season, page), 2, 0);
    var data :- reply.result;
    var info :- ReadPage(data.fields, page);
    Success(Step(info.items, info.current >= info.total, reply.calls, reply.sleeps))
  }

  /** Page `page` of a team's players, as the walk sees it. */
  function PlayerPages(c: Client, server: Server, team: Value, season: int): (fetch: nat -> Result<Step>)
    ensures forall p :: fetch(p).Success? ==> 1 <= fetch(p).value.calls <= 3
  {
    (p: nat) => FetchPage(c, server, team, season, p)
  }

  /** The page where the walk ends: the fetch raised, or `current >= total`. */
  predicate PageStops(fetch: nat -> Result<Step>, page: nat) {
    fetch(page).Failure? || fetch(page).value.stop
  }

  /**
   * The server eventually ends the walk. Nothing in the client bounds the
   * number of pages, so this is what makes `get_all_players_by_team` return.
   */
  ghost predicate PagingEnds(fetch: nat -> Result<Step>) {
    exists n :: 1 <= n && PageStops(fetch, n)
  }

  /**
   * What the walk gathered: the players in page order, the pages fetched, the
   * HTTP calls made, the `Retry-After` sleeps, and the sleeps between pages.
   */
  datatype Harvest = Harvest(players: seq<Value>, pages: nat, calls: nat, waits: seq<nat>,
                             pauses: nat)

  /** One more page in front of what was gathered. */
  function Join(first: Harvest, rest: Result<Harvest>): (r: Result<Harvest>)
    ensures r.Success? <==> rest.Success?
  {
    match rest
    case Failure(f) => Failure(f)
    case Success(h) =>
      Success(Harvest(first.players + h.players, first.pages + h.pages, first.calls + h.calls,
                      first.waits + h.waits, first.pauses + h.pauses))
  }

  /**
   * The walk from `page` on, given a page `limit` where it is known to stop:
   * pages `page`, `page + 1`, ... are fetched in turn and their players
   * concatenated, with one sleep of `per_page_delay_seconds` before each
   * further page when that delay is positive, until a page stops the walk.
   */
  function Walk(fetch: nat -> Result<Step>, delay: real, page: nat, limit: nat)
    : (r: Result<Harvest>)
    requires 1 <= page <= limit && PageStops(fetch, limit)
    ensures r.Success? ==> 1 <= r.value.pages && page + r.value.pages - 1 <= limit
    decreases limit - page
  {
    var step :- fetch(page);
    if step.stop then Success(Harvest(step.items, 1, step.calls, step.waits, 0))
    else
      var pause := if delay > 0.0 then 1 else 0;
      Join(Harvest(step.items, 1, step.calls, step.waits, pause),
           Walk(fetch, delay, page + 1, limit))
  }

  /**
   * The walk fetches consecutive pages and stops after the first page whose
   * `current >= total`: every earlier page was read and asked for more.
   */
  lemma {:induction false} WalkStopsAtFirstStop(fetch: nat -> Result<Step>, delay: real,
                                                page: nat, limit: nat)
    requires 1 <= page <= limit && PageStops(fetch, limit)
    requires Walk(fetch, delay, page, limit).Success?
    ensures var h := Walk(fetch, delay, page, limit).value;
      var last := page + h.pages - 1;
      && fetch(last).Success?
      && fetch(last).value.stop
      && forall q :: page <= q < last ==>
           fetch(q).Success?
           && !fetch(q).value.stop
    decreases limit - page
  {
    var step := fetch(page);
    if !step.value.stop {
      WalkStopsAtFirstStop(fetch, delay, page + 1, limit);
    }
  }

  /**
   * Each page costs one to three HTTP calls (two retries at most), and the
   * walk sleeps between pages, once per page after the first, only when the
   * per-page delay is positive.
   */
  lemma {:induction false} WalkCosts(fetch: nat -> Result<Step>, delay: real,
                                     page: nat, limit: nat)
    requires 1 <= page <= limit && PageStops(fetch, limit)
    requires forall p :: fetch(p).Success? ==> 1 <= fetch(p).value.calls <= 3
    requires Walk(fetch, delay, page, limit).Success?
    ensures var h := Walk(fetch, delay, page, limit).value;
      && h.pages <= h.calls <= 3 * h.pages
      && h.pauses == if delay > 0.0 then h.pages - 1 else 0
    decreases limit - page
  {
    var step := fetch(page);
    if !step.value.stop {
      WalkCosts(fetch, delay, page + 1, limit);
    }
  }

  /** Where the walk is cut off makes no difference, as long as it is cut off at a stopping page. */
  lemma {:induction false} WalkIgnoresLimit(fetch: nat -> Result<Step>, delay: real,
                                            page: nat, limit1: nat, limit2: nat)
    requires 1 <= page <= limit1 && PageStops(fetch, limit1)
    requires page <= limit2 && PageStops(fetch, limit2)
    ensures Walk(fetch, delay, page, limit1) == Walk(fetch, delay, page, limit2)
    decreases limit1 - page
  {
    var step := fetch(page);
    if step.Success? && !step.value.stop {
      WalkIgnoresLimit(fetch, delay, page + 1, limit1, limit2);
    }
  }

  /** The players of `get_all_players_by_team`: the walk from page 1. */
  ghost function AllPlayers(fetch: nat -> Result<Step>, delay: real): Result<Harvest>
    requires PagingEnds(fetch)
  {
    var n :| 1 <= n && PageStops(fetch, n);
    Walk(fetch, delay, 1, n)
  }

  lemma AllPlayersIsWalk(fetch: nat -> Result<Step>, delay: real, n: nat)
    requires 1 <= n && PageStops(fetch, n)
    ensures AllPlayers(fetch, delay) == Walk(fetch, delay, 1, n)
  {
    forall m | 1 <= m && PageStops(fetch, m)
      ensures Walk(fetch, delay, 1, m) == Walk(fetch, delay, 1, n)
    {
      WalkIgnoresLimit(fetch, delay, 1, m, n);
    }
  }

  /** One page of the walk, taken off the front. */
  lemma WalkUnfolds(fetch: nat -> Result<Step>, delay: real, page: nat, limit: nat)
    requires 1 <= page <= limit && PageStops(fetch, limit)
    ensures fetch(page).Failure? ==> Walk(fetch, delay, page, limit) == Failure(fetch(page).fault)
    ensures fetch(page).Success? ==> var s := fetch(page).value;
      && (s.stop ==> Walk(fetch, delay, page, limit)
                       == Success(Harvest(s.items, 1, s.calls, s.waits, 0)))
      && (!s.stop ==> page < limit && Walk(fetch, delay, page, limit)
                       == Join(Harvest(s.items, 1, s.calls, s.waits, if delay > 0.0 then 1 else 0),
                               Walk(fetch, delay, page + 1, limit)))
  {
  }

  lemma JoinNothing(rest: Result<Harvest>)
    ensures Join(Harvest([], 0, 0, [], 0), rest) == rest
  {
    if rest.Success? {
      assert [] + rest.value.players == rest.value.players;
      assert [] + rest.value.waits == rest.value.waits;
    }
  }

  lemma JoinAssociates(a: Harvest, b: Harvest, rest: Result<Harvest>)
    ensures Join(a, Join(b, rest)) == Join(Harvest(a.players + b.players, a.pages + b.pages,
                                                   a.calls + b.calls, a.waits + b.waits,
                                                   a.pauses + b.pauses), rest)
  {
    if rest.Success? {
      var h := rest.value;
      assert a.players + (b.players + h.players) == (a.players + b.players) + h.players;
      assert a.waits + (b.waits + h.waits) == (a.waits + b.waits) + h.waits;
    }
  }

  /**
   * The loop of `get_all_players_by_team`, over the page fetcher `fetch`:
   * pages 1, 2, ... are fetched in turn, each page's `response` is appended
   * to the players, and the loop ends at the first page whose
   * `current >= total`; before each further page it sleeps `delay` when that
   * is positive. An exception raised while fetching or reading a page ends
   * the walk with that fault.
   */
  method CollectPages(fetch: nat -> Result<Step>, delay: real) returns (r: Result<Harvest>)
    requires PagingEnds(fetch)
    ensures r == AllPlayers(fetch, delay)
  {
    ghost var n :| 1 <= n && PageStops(fetch, n);
    AllPlayersIsWalk(fetch, delay, n);
    JoinNothing(Walk(fetch, delay, 1, n));
    var players: seq<Value> := [];
    var calls: nat := 0;
    var waits: seq<nat> := [];
    var pauses: nat := 0;
    var page: nat := 1;
    while true
      invariant 1 <= page <= n
      invariant Walk(fetch, delay, 1, n)
        == Join(Harvest(players, page - 1, calls, waits, pauses), Walk(fetch, delay, page, n))
      decreases n - page
    {
      var step := fetch(page);
      WalkUnfolds(fetch, delay, page, n);
      if step.Failure? {
        return Failure(step.fault);
      }
      ghost var acc := Harvest(players, page - 1, calls, waits, pauses);
      players := players + step.value.items;
      calls := calls + step.value.calls;
      waits := waits + step.value.waits;
      if step.value.stop {
        JoinAssociates(acc, Harvest(step.value.items, 1, step.value.calls, step.value.waits, 0),
                       Success(Harvest([], 0, 0, [], 0)));
        return Success(Harvest(players, page, calls, waits, pauses));
      }
      var pause := if delay > 0.0 then 1 else 0;
      JoinAssociates(acc, Harvest(step.value.items, 1, step.value.calls, step.value.waits, pause),
                     Walk(fetch, delay, page + 1, n));
      page := page + 1;
      pauses := pauses + pause;
    }
  }

  /** `get_all_players_by_team(team_id, season)`: the loop over this team's pages. */
  method GetAllPlayersByTeam(c: Client, server: Server, team: Value, season: int)
    returns (r: Result<Harvest>)
    requires PagingEnds(PlayerPages(c, server, team, season))
    ensures r == AllPlayers(PlayerPages(c, server, team, season), c.perPageDelay)
  {
    r := CollectPages(PlayerPages(c, server, team, season), c.perPageDelay);
  }

  /** A walk through pages that all ask for more until `limit` fetches exactly those pages. */
  lemma {:induction false} WalkPageCount(fetch: nat -> Result<Step>, delay: real, page: nat,
                                         limit: nat)
    requires 1 <= page <= limit
    requires forall q :: page <= q < limit ==> fetch(q).Success? && !fetch(q).value.stop
    requires fetch(limit).Success? && fetch(limit).value.stop
    ensures Walk(fetch, delay, page, limit).Success?
    ensures Walk(fetch, delay, page, limit).value.pages == limit - page + 1
    decreases limit - page
  {
    if page < limit {
      WalkPageCount(fetch, delay, page + 1, limit);
    }
  }

  /** Page `p` answered with `paging = {"current": p, "total": total}` and a readable `response`. */
  predicate ReportsPage(c: Client, server: Server, team: Value, season: int, p: nat, total: int) {
    var res := Request(c, server, "players", PlayerParams(team, season, p), 2, 0).result;
    && res.Success?
    && Get(res.value.fields, "paging") == Obj(map["current" := Int(p), "total" := Int(total)])
    && ItemsOf(Get(res.value.fields, "response")).Success?
  }

  lemma ReportedPageStops(c: Client, server: Server, team: Value, season: int, p: nat, total: int)
    requires 1 <= p && ReportsPage(c, server, team, season, p, total)
    ensures FetchPage(c, server, team, season, p).Success?
    ensures FetchPage(c, server, team, season, p).value.stop <==> p >= total
  {
    var res := Request(c, server, "players", PlayerParams(team, season, p), 2, 0).result;
    var paging := map["current" := Int(p), "total" := Int(total)];
    assert SubObject(Get(res.value.fields, "paging")) == Success(paging);
    assert Get(paging, "current") == Int(p) && Get(paging, "total") == Int(total);
  }

  function Max1(n: int): nat {
    if n < 1 then 1 else n
  }

  /**
   * When every page `p` reports `current = p` and `total = T`, the walk
   * makes exactly `max(T, 1)` page requests.
   */
  lemma CountedPages(c: Client, server: Server, team: Value, season: int, total: int)
    requires forall p :: 1 <= p <= Max1(total) ==> ReportsPage(c, server, team, season, p, total)
    ensures PagingEnds(PlayerPages(c, server, team, season))
    ensures AllPlayers(PlayerPages(c, server, team, season), c.perPageDelay).Success?
    ensures AllPlayers(PlayerPages(c, server, team, season), c.perPageDelay).value.pages == Max1(total)
  {
    var fetch := PlayerPages(c, server, team, season);
    var last := Max1(total);
    forall q | 1 <= q <= last
      ensures fetch(q).Success? && (fetch(q).value.stop <==> q == last)
    {
      ReportedPageStops(c, server, team, season, q, total);
    }
    AllPlayersIsWalk(fetch, c.perPageDelay, last);
    WalkPageCount(fetch, c.perPageDelay, 1, last);
  }

  /** With no `paging` object on the first page, the walk makes exactly one page request. */
  lemma NoPagingOnePage(c: Client, server: Server, team: Value, season: int)
    requires var res := Request(c, server, "players", PlayerParams(team, season, 1), 2, 0).result;
      res.Success? && !Truthy(Get(res.value.fields, "paging"))
      && ItemsOf(Get(res.value.fields, "response")).Success?
    ensures PagingEnds(PlayerPages(c, server, team, season))
    ensures var reply := Request(c, server, "players", PlayerParams(team, season, 1), 2, 0);
      var items := ItemsOf(Get(reply.result.value.fields, "response")).value;
      AllPlayers(PlayerPages(c, server, team, season), c.perPageDelay)
        == Success(Harvest(items, 1, reply.calls, reply.sleeps, 0))
  {
    var fetch := PlayerPages(c, server, team, season);
    assert fetch(1).Success? && fetch(1).value.stop;
    AllPlayersIsWalk(fetch, c.perPageDelay, 1);
  }
}
