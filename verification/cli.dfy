/** The selection and dispatch logic of the command-line binary
    (`src/bin/main.rs`): which teams are admitted, which game link is
    followed for a team, and what is shown per admitted team, in order. */
module Cli {
  import opened Wrappers
  import opened Text
  import opened Seqs
  import opened Requests
  import opened Links
  import opened Live
  import opened Schedules

  datatype League = League(id: Option<int>, name: Option<string>)

  /** An entry of the bundled team directory. */
  datatype Team = Team(
    id: int,
    name: string,
    league: League,
    teamName: string,
    shortName: string,
    abbreviation: Option<string>)

  const AVAILABLE_LEAGUES: seq<string> := ["american league", "national league"]

  /** The text substituted for a missing league name. */
  const MISSING_LEAGUE: string := "ERROR"

  const NO_GAMES: string := "No game(s) today"

  /** The remote service, as seen by the binary: one answer per address for
      schedules and one for live feeds. */
  datatype Server = Server(
    schedule: Address -> Result<Schedule, FetchError>,
    live: Address -> Result<LiveGame, FetchError>)

  /** A team plays in one of the two major leagues, compared after
      lower-casing; a team without a league name never does. */
  function IsInLeague(t: Team): (b: bool)
    ensures b <==>
      t.league.name.Some? &&
      (Lower(t.league.name.value) == "american league" || Lower(t.league.name.value) == "national league")
  {
    assert Lower(MISSING_LEAGUE) == "error";
    Lower(t.league.name.GetOr(MISSING_LEAGUE)) in AVAILABLE_LEAGUES
  }

  /** League membership ignores the letter case of the league name. */
  lemma LeagueCaseInsensitive(t: Team)
    requires t.league.name.Some?
    ensures IsInLeague(t) == IsInLeague(t.(league := t.league.(name := Some(Lower(t.league.name.value)))))
  {
    LowerIdempotent(t.league.name.value);
  }

  /** The team filter: with a query, the lower-cased team name must contain
      the query as written (it is not lower-cased itself); without one, only
      league membership counts. */
  function Admits(query: Option<string>, t: Team): (b: bool)
    ensures query.None? ==> (b <==> IsInLeague(t))
    ensures query.Some? ==> (b <==> Occurs(query.value, Lower(t.teamName)) && IsInLeague(t))
  {
    match query
    case Some(q) => Contains(Lower(t.teamName), q) && IsInLeague(t)
    case None => IsInLeague(t)
  }

  /** The filter as a function value. */
  function Admitter(query: Option<string>): Team -> bool
  {
    t => Admits(query, t)
  }

  /** An empty query admits every league team. */
  lemma EmptyQueryAdmitsLeagueTeams(t: Team)
    ensures Admits(Some(""), t) == IsInLeague(t)
  {
    EmptyOccurs(Lower(t.teamName));
  }

  /** A query holding an upper-case letter admits no team, since it is
      matched against a lower-cased name. */
  lemma UpperCaseQueryAdmitsNothing(q: string, t: Team, k: int)
    requires 0 <= k < |q| && IsUpper(q[k])
    ensures !Admits(Some(q), t)
  {
    var name := Lower(t.teamName);
    if Occurs(q, name) {
      var i :| OccursAt(q, name, i);
      assert name[i + k] == name[i..i + |q|][k] == q[k];
      LowerHasNoUpper(t.teamName, i + k);
    }
  }

  /** The link `get_game` follows: the first game of the first date, when
      there is one. */
  function FirstGameLink(s: Schedule): (r: Option<Link<LiveGame>>)
    ensures r.Some? <==> |s.dates| > 0 && |s.dates[0].games| > 0
    ensures r.Some? ==> r.value == s.dates[0].games[0].link
  {
    if |s.dates| == 0 then None
    else if |s.dates[0].games| == 0 then None
    else Some(s.dates[0].games[0].link)
  }

  /** Later games of the first date and later dates never influence which
      link is followed. */
  lemma FirstGameLinkIgnoresRest(d: string, g: Game, games: seq<Game>, dates: seq<Date>)
    ensures FirstGameLink(Schedule([Date(d, [g] + games)] + dates)) == Some(g.link)
  {
  }

  /** `get_game`: fetch the team's schedule, pick the first game, follow its
      link. Any failed fetch and any empty schedule give `None`. */
  function GetGame(t: Team, server: Server): (r: Option<LiveGame>)
    ensures var sched := server.schedule(WithQuery("https://statsapi.mlb.com/api/v1/schedule",
                                                   [("sportId", "1"), ("teamId", IntToString(t.id))]));
      && (r.Some? <==>
           && sched.Ok?
           && |sched.value.dates| > 0
           && |sched.value.dates[0].games| > 0
           && server.live(Plain("https://statsapi.mlb.com/" + sched.value.dates[0].games[0].link.link)).Ok?)
      && (r.Some? ==>
           r.value == server.live(Plain("https://statsapi.mlb.com/" + sched.value.dates[0].games[0].link.link)).value)
  {
    match GetSchedule(t.id, server.schedule).ToOption()
    case None => None
    case Some(schedule) =>
      if |schedule.dates| > 0 then
        match FirstGameLink(schedule)
        case None => None
        case Some(link) => Follow(link, server.live).ToOption()
      else None
  }

  /** A schedule with no dates is "no game": the live feed is never asked. */
  lemma NoDatesMeansNoGame(t: Team, server: Server)
    requires server.schedule(Target(ScheduleRequest(t.id))) == Ok(Schedule([]))
    ensures GetGame(t, server) == None
  {
  }

  /** A failed schedule fetch is also "no game". */
  lemma ScheduleFailureMeansNoGame(t: Team, server: Server)
    requires server.schedule(Target(ScheduleRequest(t.id))).Err?
    ensures GetGame(t, server) == None
  {
  }

  /** What is shown for one admitted team. */
  datatype Entry =
    | Score(box: BoxScore)
    | Start(start: GameStart)
    | NoGame

  /** The choice for one team: the score when the game resolved and has
      one, its start time when it resolved without one, and the no-game
      message when it did not resolve. */
  function EntryFor(t: Team, server: Server): (e: Entry)
    ensures GetGame(t, server).None? <==> e.NoGame?
    ensures e.Score? <==> GetGame(t, server).Some? && GetScore(GetGame(t, server).value).Some?
    ensures e.Score? ==> e.box == GetScore(GetGame(t, server).value).value
    ensures e.Start? ==> e.start == GameStart(GetGame(t, server).value.teams, GetGame(t, server).value.startTime)
  {
    match GetGame(t, server)
    case None => NoGame
    case Some(game) =>
      match GetScore(game)
      case Some(score) => Score(score)
      case None => Start(GetStartTime(game).value)
  }

  /** The per-team choice as a function value. */
  function EntryOf(server: Server): Team -> Entry
  {
    t => EntryFor(t, server)
  }

  /** A resolved game whose line-score sides are both the pre-game
      placeholder shows its start time, not a score. */
  lemma PlaceholdersShowStartTime(t: Team, server: Server, g: LiveGame)
    requires GetGame(t, server) == Some(g)
    requires g.linescore.teams.away == Empty && g.linescore.teams.home == Empty
    ensures EntryFor(t, server) == Start(GameStart(g.teams, g.startTime))
  {
  }

  /** The printed text of an entry. `table` renders the two score rows and
      `formatTime` the local start time; both are library code. */
  function EntryText(e: Entry, table: (TeamBoxScore, TeamBoxScore) -> string, formatTime: Instant -> string): (s: string)
    ensures e.NoGame? ==> s == NO_GAMES
    ensures e.Score? ==> s == table(e.box.away, e.box.home) + InningText(e.box.inningState, e.box.inning)
    ensures e.Start? ==> s == StartText(e.start, formatTime)
  {
    match e
    case Score(b) => table(b.away, b.home) + b.inningState + " " + IntToString(b.inning)
    case Start(gs) => StartText(gs, formatTime)
    case NoGame => NO_GAMES
  }

  /** The line printed under a score table is the game's inning text. */
  lemma ScoreLineIsCurrentInning(t: Team, server: Server, table: (TeamBoxScore, TeamBoxScore) -> string, formatTime: Instant -> string)
    requires EntryFor(t, server).Score?
    ensures var text := EntryText(EntryFor(t, server), table, formatTime);
      var b := EntryFor(t, server).box;
      text == table(b.away, b.home) + CurrentInning(GetGame(t, server).value).value
  {
    ScoreImpliesInning(GetGame(t, server).value);
  }

  /** `scores`: walks the directory in order, resolves only admitted teams
      and emits one entry per admitted team. `resolved` lists the teams for
      which `get_game` was run, in the order it was run. */
  method Scores(teams: seq<Team>, query: Option<string>, server: Server)
    returns (resolved: seq<Team>, entries: seq<Entry>)
    ensures resolved == Filter(Admitter(query), teams)
    ensures |entries| == |resolved|
    ensures forall i :: 0 <= i < |entries| ==> entries[i] == EntryFor(resolved[i], server)
  {
    resolved := [];
    entries := [];
    var i := 0;
    while i < |teams|
      invariant 0 <= i <= |teams|
      invariant resolved == Filter(Admitter(query), teams[..i])
      invariant Mapped(EntryOf(server), resolved, entries)
    {
      var team := teams[i];
      FilterSnoc(Admitter(query), teams[..i], team);
      assert teams[..i + 1] == teams[..i] + [team];
      assert Admitter(query)(team) == Admits(query, team);
      if Admits(query, team) {
        var e := EntryFor(team, server);
        MappedSnoc(EntryOf(server), resolved, entries, team);
        resolved := resolved + [team];
        entries := entries + [e];
      }
      i := i + 1;
    }
    assert teams[..i] == teams;
    assert forall k :: 0 <= k < |entries| ==> EntryOf(server)(resolved[k]) == entries[k];
  }

  /** A team the filter rejects is never resolved. */
  lemma RejectedNeverResolved(teams: seq<Team>, query: Option<string>, t: Team)
    requires !Admits(query, t)
    ensures t !in Filter(Admitter(query), teams)
  {
  }

  /** `teams`: the team names of the league teams, in directory order. */
  function TeamNames(teams: seq<Team>): (names: seq<string>)
    ensures |names| == |Filter(IsInLeague, teams)|
    ensures forall i :: 0 <= i < |names| ==> names[i] == Filter(IsInLeague, teams)[i].teamName
  {
    if |teams| == 0 then []
    else if IsInLeague(teams[0]) then [teams[0].teamName] + TeamNames(teams[1..])
    else TeamNames(teams[1..])
  }
}
