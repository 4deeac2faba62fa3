# mlb-rs score checker: a Dafny model of its decision and construction logic

`mlb` is a small command-line tool that asks the MLB statistics service for
each selected team's schedule, follows the first scheduled game's link to the
live feed, and prints a box score with the inning ("Bottom 7"), the start
time ("NYY @ BOS - 07:10 PM"), or "No game(s) today". This project models,
as pure Dafny functions over immutable datatypes, the parts of that program
that decide and construct things:

- `Requests` (`src/requests.rs`): the immutable request builder, the base
  string `base_url + "/" + api + endpoint`, and whether query pairs are
  attached.
- `Links` (`src/link.rs`): the typed link, its string-only deserializer, and
  the request `follow` builds (empty API prefix, stored path as endpoint).
- `Live` (`src/live.rs`): the live-feed records, the untagged full-or-empty
  decoding of a line-score side, the box score, the inning text and the
  start-time descriptor with its display shape.
- `Schedules` (`src/schedule.rs`): the schedule shape and the request
  `get_schedule` builds.
- `Cli` (`src/bin/main.rs`): the league predicate, the team-name filter, the
  first-date-first-game selection in `get_game`, the per-team output choice
  and its order in `scores`, and the listing in `teams`.
- Helpers: `Wrappers` (Option/Result), `Seqs` (order-preserving filter),
  `Text` (ASCII lower-casing, substring search, decimal rendering and its
  parser), `Json` (a JSON value and the `i64` / struct-field rules of the
  derived decoders).

The network is a parameter: `Cli.Server` maps each address the builders
produce to a schedule or live-feed result, so every fetch in the model is tied
to the exact address the source would request. Time-zone formatting
(`formatTime: Instant -> string`) and table rendering (`table`) are also
parameters.

Where the sources disagree: `src/bin/main.rs` follows the game link through a
`goto_link` method of a `GetLink` trait imported from `requests`, which
`src/requests.rs` does not define; the model follows `Game.link` with
`Link::follow`, the one way `src/link.rs` offers. The binary shows the
no-game message both when the schedule fetch fails and when there is no game,
which the model keeps (`Cli.ScheduleFailureMeansNoGame`,
`Cli.NoDatesMeansNoGame`).

## Model

| member | source | states |
|---|---|---|
| Requests.New | src/requests.rs:16-23 | the fresh request has base `https://statsapi.mlb.com`, API prefix `api/v1/`, empty endpoint and no query pairs |
| Requests.Default | src/requests.rs:50-54 | the `Default` instance is the same request as `new()` |
| Requests.WithEndpoint | src/requests.rs:25-27 | only the endpoint changes; base, API prefix and query pairs are kept |
| Requests.WithParams | src/requests.rs:29-34 | the query pairs are replaced by exactly the given ones in order; the other fields are kept |
| Requests.WithApi | src/requests.rs:36-38 | only the API prefix changes; the other fields are kept |
| Requests.ParamsLastWins | src/requests.rs:29-34 | a second `with_params` discards the first one's pairs instead of appending |
| Requests.EndpointApiCommute | src/requests.rs:25-38 | setting endpoint and API prefix in either order gives the same request |
| Requests.BaseAddress | src/requests.rs:41 | the base string is base URL, then `/`, then API prefix, then endpoint, each at its own position, and nothing else |
| Requests.BaseIgnoresParams | src/requests.rs:41 | the base string does not depend on the query pairs |
| Requests.Target | src/requests.rs:42-45 | query pairs are attached to the base string exactly when there is at least one |
| Requests.Get | src/requests.rs:40-47 | the fetch is answered for the address `base/api+endpoint`, with the pairs only when non-empty |
| Requests.DefaultApiAddress | src/requests.rs:41 | a default request with only an endpoint addresses `https://statsapi.mlb.com/api/v1/<endpoint>` |
| Links.DeserializeLink | src/link.rs:13-23 | decoding succeeds exactly on a JSON string and stores it verbatim |
| Links.DeserializeLinkExactly | src/link.rs:13-23 | a link is decoded from the JSON string of its path and from no other value |
| Links.FollowRequest | src/link.rs:26-31 | `follow` uses an empty API prefix, the stored path as endpoint and no pairs, so it requests `https://statsapi.mlb.com/<path>` |
| Links.Follow | src/link.rs:26-31 | following a link is the transport's answer for `https://statsapi.mlb.com/<path>` |
| Links.FollowAddressInjective | src/link.rs:27-30 | two links are followed at the same address only if their paths are equal |
| Live.DecodeTeamLinescore | src/live.rs:91-104 | an object decodes iff each of the four keys occurs exactly once with an `i64` (order and other keys ignored), giving those numbers; an array decodes iff it holds exactly four `i64`s, in declaration order |
| Live.DecodeAnyOrderLine | src/live.rs:91-111 | an object holding each team-line key once with an `i64`, in any order and among other keys, decodes as `Full` of those numbers |
| Live.DecodeOrEmpty | src/live.rs:106-111 | a side is `Full` exactly when it decodes as a team line; it is `Empty` only when that fails and the value is an object |
| Live.DecodeEncodedLine | src/live.rs:91-111 | the object the server sends for a team line decodes back to `Full` of the same numbers |
| Live.DecodePlaceholder | src/live.rs:106-111 | the pre-game placeholder `{}` decodes as `Empty` |
| Live.MakeTeamBoxScore | src/live.rs:166-175 | a row carries the given team name and the line's runs, hits and errors; left-on-base is dropped |
| Live.MakeBoxScore | src/live.rs:177-189 | a box score exists iff both sides are full and inning state and number are present; rows, state and inning come from the matching sides and fields |
| Live.GetScore | src/live.rs:192-197 | the score's rows are labelled with the away and home abbreviations and carry the matching sides' runs, hits and errors; same presence condition as the box score |
| Live.CurrentInning | src/live.rs:198-207 | the inning text is present iff state and number are both present, and is then state, a space and the decimal number |
| Live.InningTextSplits | src/live.rs:203 | the inning text splits back into the state, one space, and a space-free decimal that parses back to the inning |
| Live.ScoreImpliesInning | src/live.rs:178-207 | whenever a score exists the inning text exists and describes the score's inning |
| Live.BottomSeventh | src/live.rs:203 | state `Bottom` and inning 7 give `Bottom 7` |
| Live.GetStartTime | src/live.rs:208-213 | the start descriptor always exists and carries the game's teams and parsed start instant |
| Live.StartText | src/live.rs:216-226 | the display is the away abbreviation, ` @ `, the home abbreviation, ` - `, and the formatted time, at those positions |
| Schedules.ScheduleRequest | src/schedule.rs:141-147 | endpoint `schedule`, default API prefix, pairs `sportId=1` then `teamId=<decimal id>`, so the base is `https://statsapi.mlb.com/api/v1/schedule` |
| Schedules.GetSchedule | src/schedule.rs:141-147 | the schedule fetch is the transport's answer for that address and those pairs |
| Schedules.ScheduleAddressIdentifiesTeam | src/schedule.rs:144 | the team id reads back from the request, so different teams are requested at different addresses |
| Text.Contains | src/bin/main.rs:48 | substring search is true exactly when the needle occurs at some position of the haystack |
| Text.ParseIntToString | src/live.rs:203 | the decimal rendering of an integer parses back to that integer |
| Seqs.FilterConcat | src/bin/main.rs:52-58 | filtering a concatenation is the concatenation of the filtered parts, so input order is kept |
| Cli.IsInLeague | src/bin/main.rs:15-25 | true iff the league name is present and lower-cases to `american league` or `national league`; a missing name is rejected |
| Cli.LeagueCaseInsensitive | src/bin/main.rs:15-25 | membership does not change when the league name is lower-cased first |
| Cli.Admits | src/bin/main.rs:46-51 | with a query: the lower-cased team name contains the query as written and the team is in a league; without: league membership only |
| Cli.EmptyQueryAdmitsLeagueTeams | src/bin/main.rs:48 | an empty query admits exactly the league teams |
| Cli.UpperCaseQueryAdmitsNothing | src/bin/main.rs:48 | a query with an upper-case letter admits no team, since the query is not lower-cased |
| Cli.FirstGameLink | src/bin/main.rs:30-36 | a link is selected iff there is a first date with a first game, and it is that game's link |
| Cli.FirstGameLinkIgnoresRest | src/bin/main.rs:30-36 | later games and later dates never change the selected link |
| Cli.GetGame | src/bin/main.rs:28-42 | a game resolves iff the schedule fetch succeeds, has a first date with a first game, and the live fetch at `https://statsapi.mlb.com/<that link>` succeeds; it is that live feed |
| Cli.NoDatesMeansNoGame | src/bin/main.rs:30-41 | a schedule without dates resolves to no game |
| Cli.ScheduleFailureMeansNoGame | src/bin/main.rs:29 | a failed schedule fetch resolves to no game |
| Cli.EntryFor | src/bin/main.rs:60-76 | score when the game resolved and has one, start descriptor when it resolved without one, no-game otherwise |
| Cli.PlaceholdersShowStartTime | src/bin/main.rs:61-72 | a resolved game whose sides are both placeholders shows its start time |
| Cli.EntryText | src/bin/main.rs:61-76 | a score prints the table then the inning text, a start prints its display, and no game prints `No game(s) today` |
| Cli.ScoreLineIsCurrentInning | src/bin/main.rs:61-67 | the text printed after the score table is the game's current-inning text |
| Cli.Scores | src/bin/main.rs:52-77 | exactly the admitted teams are resolved, in input order, and each gets one entry chosen for it |
| Cli.RejectedNeverResolved | src/bin/main.rs:52-58 | a team the filter rejects is never resolved and gets no entry |
| Cli.TeamNames | src/bin/main.rs:81-88 | the listing is the team names of the league teams, one per team, in directory order |

## Left out

- Cli.GetGame: the binary follows the game link through a `goto_link`
  method of a `GetLink` trait that `src/requests.rs` does not define; the
  model assumes it behaves as `Link::follow`, so the live-feed address it
  states (`https://statsapi.mlb.com/<link>`) is that assumption, not code
  the source shows.
- HTTP and URL parsing: `Url::parse`, `Url::parse_with_params` (including
  percent-encoding of the query and `UrlError`), `reqwest::get` and the JSON
  body decoding are library calls; fetches are opaque `Result`s chosen by
  `Cli.Server`, and the model stops at the base string and the pair list.
- Async and stream mechanics: the stream in `scores` is consumed one item at
  a time, so a sequential loop models it; tokio is not modelled.
- Time: parsing the `dateTime` field and formatting it in the local time zone
  as `%I:%M %p` are chrono behaviour; the instant is opaque and the formatted
  text is the parameter `formatTime`.
- Table rendering by `tabled` is the parameter `table`.
- Configuration loading, clap argument parsing and `main`: environment,
  file I/O and command-line glue.
- `build.rs` and the `include_str!` of the team directory: the directory is
  an input sequence of `Cli.Team`.
- `src/teams.rs`: only its `Team` and `League` records are used, declared in
  `Cli`; `get_teams` calls a `requests::get` that `src/requests.rs` does not
  define.
- Cli.IsInLeague, Cli.Admits: `to_lowercase` is modelled for ASCII letters
  only; Unicode case mapping is not modelled.
- Serialization of `Link` (derived over both fields) is not modelled, and no
  round trip with its deserializer is claimed.
- Live.DecodeTeamLinescore: the JSON model holds integers only, so
  fractional numbers (which `i64` fields reject) are not represented, and
  which decode error is reported is not claimed.
- Unused schedule and live-feed fields (copyright, totals, status, records,
  venue, events, win-loss record) are kept as plain data or dropped; they
  carry no behaviour. The live feed's `gameData` / `liveData` nesting is
  flattened into `Live.LiveGame`.
- `follow` borrows the link immutably; Dafny values are immutable, so there
  is nothing to state about the link being unchanged.
- `get_start_time().expect(...)` in `scores` cannot fail: `Live.GetStartTime`
  always returns `Some`, and `Cli.EntryFor` relies on that to verify.
