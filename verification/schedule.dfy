/** The schedule response of `src/schedule.rs`, reduced to what selection
    reads, and the request `get_schedule` builds for one team. */
module Schedules {
  import opened Wrappers
  import opened Text
  import opened Requests
  import opened Links
  import opened Live

  /** A scheduled game; `link` points at its live feed. */
  datatype Game = Game(gamePk: int, link: Link<LiveGame>)

  /** One calendar date; `games` may be empty. */
  datatype Date = Date(date: string, games: seq<Game>)

  /** The schedule; `dates` may be empty. */
  datatype Schedule = Schedule(dates: seq<Date>)

  /** The schedule request: endpoint `schedule`, default API prefix, and
      the two query pairs `sportId=1` then `teamId=<id>`. */
  function ScheduleRequest(teamId: int): (r: Request)
    ensures r.baseUrl == BASE_URL && r.api == DEFAULT_API && r.endpoint == "schedule"
    ensures r.params == [("sportId", "1"), ("teamId", IntToString(teamId))]
    ensures Target(r) == WithQuery("https://statsapi.mlb.com/api/v1/schedule", r.params)
  {
    WithParams(WithEndpoint(New(), "schedule"), [("sportId", "1"), ("teamId", IntToString(teamId))])
  }

  /** `get_schedule`: the transport answers for the schedule address. */
  function GetSchedule(teamId: int, transport: Address -> Result<Schedule, FetchError>): (r: Result<Schedule, FetchError>)
    ensures r == transport(WithQuery("https://statsapi.mlb.com/api/v1/schedule",
                                     [("sportId", "1"), ("teamId", IntToString(teamId))]))
  {
    Get(ScheduleRequest(teamId), transport)
  }

  /** Different teams' schedules are requested at different addresses, and
      the team id can be read back from the address. */
  lemma ScheduleAddressIdentifiesTeam(a: int, b: int)
    ensures Target(ScheduleRequest(a)).query[1].1 == IntToString(a)
    ensures ParseInt(Target(ScheduleRequest(a)).query[1].1) == Some(a)
    ensures Target(ScheduleRequest(a)) == Target(ScheduleRequest(b)) <==> a == b
  {
    ParseIntToString(a);
    if Target(ScheduleRequest(a)) == Target(ScheduleRequest(b)) {
      assert Target(ScheduleRequest(a)).query[1].1 == Target(ScheduleRequest(b)).query[1].1;
      IntToStringInjective(a, b);
    }
  }
}
