/** The live-game feed of `src/live.rs` and the three things derived from it:
    a box score, an inning description ("Bottom 7") and a start-time
    descriptor. The feed's nesting (`gameData`, `liveData`) is flattened. */
module Live {
  import opened Wrappers
  import opened Text
  import opened Json

  /** A UTC instant as parsed from the feed; calendar parsing and time-zone
      conversion are not modelled, so it is only compared and passed on. */
  datatype Instant = Instant(utcSeconds: int)

  datatype Record = Record(wins: int, losses: int)

  datatype GameDataTeam = GameDataTeam(
    id: int,
    name: string,
    abbreviation: string,
    teamName: string,
    record: Record)

  datatype GameDataTeams = GameDataTeams(away: GameDataTeam, home: GameDataTeam)

  /** One side's line: runs, hits, errors and runners left on base. */
  datatype TeamLinescore = TeamLinescore(runs: int, hits: int, errors: int, leftOnBase: int)

  /** A side of the line score: a full line, or the empty object the server
      sends before the first pitch. */
  datatype OrEmpty<T> = Full(line: T) | Empty

  datatype LinescoreTeams = LinescoreTeams(home: OrEmpty<TeamLinescore>, away: OrEmpty<TeamLinescore>)

  datatype Linescore = Linescore(
    currentInning: Option<int>,
    inningState: Option<string>,
    teams: LinescoreTeams)

  datatype LiveGame = LiveGame(
    gamePk: int,
    link: string,
    teams: GameDataTeams,
    startTime: Instant,
    linescore: Linescore)

  /** One row of the rendered score table. */
  datatype TeamBoxScore = TeamBoxScore(team: string, runs: int, hits: int, errors: int)

  datatype BoxScore = BoxScore(
    away: TeamBoxScore,
    home: TeamBoxScore,
    inningState: string,
    inning: int)

  /** What is shown for a game that has not started. */
  datatype GameStart = GameStart(teams: GameDataTeams, startTime: Instant)

  // ----- decoding of a line-score side -----

  /** Each of the four team-line keys holds exactly one `i64`. */
  predicate LineFieldsPresent(m: seq<(string, Json)>)
  {
    && I64Field(m, "runs").Ok? && I64Field(m, "hits").Ok?
    && I64Field(m, "errors").Ok? && I64Field(m, "leftOnBase").Ok?
  }

  /** The derived decoder of a team line: an object with the four `i64`
      fields (other keys ignored), or an array of exactly four `i64`s in
      declaration order. */
  function DecodeTeamLinescore(j: Json): (r: Result<TeamLinescore, DecodeError>)
    ensures r.Ok? && j.Object? ==>
      && ("runs", Number(r.value.runs)) in j.members
      && ("hits", Number(r.value.hits)) in j.members
      && ("errors", Number(r.value.errors)) in j.members
      && ("leftOnBase", Number(r.value.leftOnBase)) in j.members
    ensures r.Ok? ==> j.Object? || (j.Array? && |j.items| == 4)
    ensures j.Object? ==> (r.Ok? <==> LineFieldsPresent(j.members))
    ensures j.Object? && r.Ok? ==>
      r.value == TeamLinescore(I64Field(j.members, "runs").value, I64Field(j.members, "hits").value,
                               I64Field(j.members, "errors").value, I64Field(j.members, "leftOnBase").value)
    ensures j.Array? ==>
      (r.Ok? <==> |j.items| == 4 && forall i :: 0 <= i < |j.items| ==> DecodeI64(j.items[i]).Ok?)
    ensures j.Array? && r.Ok? ==>
      r.value == TeamLinescore(j.items[0].n, j.items[1].n, j.items[2].n, j.items[3].n)
  {
    match j
    case Object(m) =>
      var runs :- I64Field(m, "runs");
      var hits :- I64Field(m, "hits");
      var errors :- I64Field(m, "errors");
      var leftOnBase :- I64Field(m, "leftOnBase");
      Ok(TeamLinescore(runs, hits, errors, leftOnBase))
    case Array(items) =>
      if |items| != 4 then Err(InvalidLength)
      else
        var runs :- DecodeI64(items[0]);
        var hits :- DecodeI64(items[1]);
        var errors :- DecodeI64(items[2]);
        var leftOnBase :- DecodeI64(items[3]);
        Ok(TeamLinescore(runs, hits, errors, leftOnBase))
    case _ => Err(InvalidType)
  }

  /** The untagged decoder of a side: `Full` is tried first; `Empty {}`
      accepts any object (its unknown keys are ignored) and, being a struct
      variant of an untagged enum, no array. */
  function DecodeOrEmpty(j: Json): (r: Result<OrEmpty<TeamLinescore>, DecodeError>)
    ensures forall t :: r == Ok(Full(t)) <==> DecodeTeamLinescore(j) == Ok(t)
    ensures r == Ok(Empty) ==> DecodeTeamLinescore(j).Err?
    ensures r.Err? <==> DecodeTeamLinescore(j).Err? && !j.Object?
  {
    match DecodeTeamLinescore(j)
    case Ok(t) => Ok(Full(t))
    case Err(_) =>
      if j.Object? then Ok(Empty) else Err(NoVariantMatched)
  }

  /** The JSON object the server sends for a team line. */
  function EncodeTeamLinescore(t: TeamLinescore): Json
  {
    Object([("runs", Number(t.runs)), ("hits", Number(t.hits)),
            ("errors", Number(t.errors)), ("leftOnBase", Number(t.leftOnBase))])
  }

  const LINE_KEYS: seq<string> := ["runs", "hits", "errors", "leftOnBase"]

  /** The encoded object stores exactly one value under each of its keys. */
  lemma EncodedField(t: TeamLinescore, i: int)
    requires 0 <= i < 4
    ensures ValuesOf(EncodeTeamLinescore(t).members, LINE_KEYS[i]) == [EncodeTeamLinescore(t).members[i].1]
  {
    var m := EncodeTeamLinescore(t).members;
    assert forall k :: 0 <= k < 4 ==> m[k].0 == LINE_KEYS[k];
    assert forall k :: 0 <= k < 4 && k != i ==> LINE_KEYS[k] != LINE_KEYS[i];
    ValuesOfPick(m, LINE_KEYS[i], i);
  }

  /** Each field of the encoded object reads back as its number. */
  lemma EncodedI64Field(t: TeamLinescore, i: int)
    requires 0 <= i < 4
    requires InI64(t.runs) && InI64(t.hits) && InI64(t.errors) && InI64(t.leftOnBase)
    ensures I64Field(EncodeTeamLinescore(t).members, LINE_KEYS[i])
      == Ok([t.runs, t.hits, t.errors, t.leftOnBase][i])
  {
    EncodedField(t, i);
  }

  /** A team line the server sends decodes as `Full` with the same numbers. */
  lemma DecodeEncodedLine(t: TeamLinescore)
    requires InI64(t.runs) && InI64(t.hits) && InI64(t.errors) && InI64(t.leftOnBase)
    ensures DecodeOrEmpty(EncodeTeamLinescore(t)) == Ok(Full(t))
  {
    var m := EncodeTeamLinescore(t).members;
    EncodedI64Field(t, 0);
    EncodedI64Field(t, 1);
    EncodedI64Field(t, 2);
    EncodedI64Field(t, 3);
    DecodeObjectLine(m, t);
  }

  /** Key order and extra keys do not matter: an object holding each of the
      four keys exactly once with an `i64` decodes as `Full` of those
      numbers. */
  lemma DecodeAnyOrderLine(m: seq<(string, Json)>, t: TeamLinescore)
    requires ValuesOf(m, "runs") == [Number(t.runs)] && InI64(t.runs)
    requires ValuesOf(m, "hits") == [Number(t.hits)] && InI64(t.hits)
    requires ValuesOf(m, "errors") == [Number(t.errors)] && InI64(t.errors)
    requires ValuesOf(m, "leftOnBase") == [Number(t.leftOnBase)] && InI64(t.leftOnBase)
    ensures DecodeOrEmpty(Object(m)) == Ok(Full(t))
  {
    DecodeObjectLine(m, t);
  }

  /** An object whose four fields read back decodes to those numbers. */
  lemma DecodeObjectLine(m: seq<(string, Json)>, t: TeamLinescore)
    requires I64Field(m, "runs") == Ok(t.runs)
    requires I64Field(m, "hits") == Ok(t.hits)
    requires I64Field(m, "errors") == Ok(t.errors)
    requires I64Field(m, "leftOnBase") == Ok(t.leftOnBase)
    ensures DecodeTeamLinescore(Object(m)) == Ok(t)
  {
  }

  /** The pre-game placeholder `{}` decodes as `Empty`. */
  lemma DecodePlaceholder()
    ensures DecodeOrEmpty(Object([])) == Ok(Empty)
  {
    assert ValuesOf([], "runs") == [];
  }

  // ----- derivations -----

  /** A table row: the given team name with the line's runs, hits and
      errors; runners left on base are dropped. */
  function MakeTeamBoxScore(line: TeamLinescore, team: string): (b: TeamBoxScore)
    ensures b.team == team
    ensures b.runs == line.runs && b.hits == line.hits && b.errors == line.errors
  {
    TeamBoxScore(team, line.runs, line.hits, line.errors)
  }

  /** A box score exists exactly when both sides are full lines and the
      inning state and number are both known. */
  function MakeBoxScore(ls: Linescore, awayName: string, homeName: string): (r: Option<BoxScore>)
    ensures r.Some? <==>
      ls.teams.away.Full? && ls.teams.home.Full? && ls.inningState.Some? && ls.currentInning.Some?
    ensures r.Some? ==>
      && r.value.away == TeamBoxScore(awayName, ls.teams.away.line.runs, ls.teams.away.line.hits, ls.teams.away.line.errors)
      && r.value.home == TeamBoxScore(homeName, ls.teams.home.line.runs, ls.teams.home.line.hits, ls.teams.home.line.errors)
      && r.value.inningState == ls.inningState.value
      && r.value.inning == ls.currentInning.value
  {
    match (ls.teams.away, ls.teams.home)
    case (Full(away), Full(home)) =>
      if ls.inningState.None? || ls.currentInning.None? then None
      else
        Some(BoxScore(
          MakeTeamBoxScore(away, awayName),
          MakeTeamBoxScore(home, homeName),
          ls.inningState.value,
          ls.currentInning.value))
    case _ => None
  }

  /** The game's box score, its rows labelled with the teams' abbreviations. */
  function GetScore(g: LiveGame): (r: Option<BoxScore>)
    ensures r.Some? <==>
      && g.linescore.teams.away.Full? && g.linescore.teams.home.Full?
      && g.linescore.inningState.Some? && g.linescore.currentInning.Some?
    ensures r.Some? ==>
      && r.value.away == TeamBoxScore(g.teams.away.abbreviation, g.linescore.teams.away.line.runs,
                                      g.linescore.teams.away.line.hits, g.linescore.teams.away.line.errors)
      && r.value.home == TeamBoxScore(g.teams.home.abbreviation, g.linescore.teams.home.line.runs,
                                      g.linescore.teams.home.line.hits, g.linescore.teams.home.line.errors)
      && r.value.inningState == g.linescore.inningState.value
      && r.value.inning == g.linescore.currentInning.value
  {
    MakeBoxScore(g.linescore, g.teams.away.abbreviation, g.teams.home.abbreviation)
  }

  /** The inning text, the state then a space then the inning number. */
  function InningText(state: string, inning: int): string
  {
    state + " " + IntToString(inning)
  }

  /** "Top 3", "Bottom 7", ...: present exactly when both the state and the
      number are known. */
  function CurrentInning(g: LiveGame): (r: Option<string>)
    ensures r.Some? <==> g.linescore.inningState.Some? && g.linescore.currentInning.Some?
    ensures r.Some? ==> r.value == InningText(g.linescore.inningState.value, g.linescore.currentInning.value)
  {
    var ls := g.linescore;
    if ls.inningState.Some? && ls.currentInning.Some? then
      Some(ls.inningState.value + " " + IntToString(ls.currentInning.value))
    else None
  }

  /** The inning text splits back into its parts: the state, one space, and
      a decimal that reads back as the inning and holds no space (so it is
      everything after the last space). */
  lemma {:induction false} InningTextSplits(state: string, inning: int)
    ensures var s := InningText(state, inning);
      && s[..|state|] == state
      && s[|state|] == ' '
      && ParseInt(s[|state| + 1..]) == Some(inning)
      && (forall k :: |state| < k < |s| ==> s[k] != ' ')
  {
    var s := InningText(state, inning);
    var d := IntToString(inning);
    assert s[|state| + 1..] == d;
    assert forall k :: |state| < k < |s| ==> s[k] == d[k - |state| - 1];
    ParseIntToString(inning);
  }

  /** Whenever a score is available so is the inning text, and it describes
      the same inning as the score. */
  lemma ScoreImpliesInning(g: LiveGame)
    requires GetScore(g).Some?
    ensures CurrentInning(g) == Some(InningText(GetScore(g).value.inningState, GetScore(g).value.inning))
  {
  }

  /** The inning text of the bottom of the seventh. */
  lemma BottomSeventh()
    ensures InningText("Bottom", 7) == "Bottom 7"
  {
  }

  /** The start-time descriptor, always available. */
  function GetStartTime(g: LiveGame): (r: Option<GameStart>)
    ensures r.Some?
    ensures r.value.startTime == g.startTime && r.value.teams == g.teams
  {
    Some(GameStart(g.teams, g.startTime))
  }

  /** The start-time display "AWAY @ HOME - time", where `formatTime` is the
      local-time rendering of the instant. */
  function StartText(gs: GameStart, formatTime: Instant -> string): (s: string)
    ensures var a := gs.teams.away.abbreviation; var h := gs.teams.home.abbreviation;
      var t := formatTime(gs.startTime);
      && |s| == |a| + |h| + |t| + 6
      && s[..|a|] == a
      && s[|a|..|a| + 3] == " @ "
      && s[|a| + 3..|a| + 3 + |h|] == h
      && s[|a| + 3 + |h|..|a| + 6 + |h|] == " - "
      && s[|a| + 6 + |h|..] == t
  {
    var a := gs.teams.away.abbreviation;
    var h := gs.teams.home.abbreviation;
    var t := formatTime(gs.startTime);
    var s := a + " @ " + h + " - " + t;
    assert s[|a|..|a| + 3] == " @ ";
    assert s[|a| + 3..|a| + 3 + |h|] == h;
    assert s[|a| + 3 + |h|..|a| + 6 + |h|] == " - ";
    s
  }
}
