# gegen — a Dafny model of the terminal football dashboard's core

gegen is a terminal dashboard of live football scores. A background thread
fills a date-keyed cache with the matches of each day. The terminal front end
draws one of two pages:

- the **live-scores page** of a date: the day's matches grouped into leagues,
  four leagues per screen, each league a grid of fixture blocks;
- the **match-overview page**: one match, with its team names and the phase of play.

This project models:

- the application state and its key-driven transitions (`gegen/src/state.rs`,
  `gegen/src/ui/mod.rs`), as a Dafny `class State` whose methods update its
  fields in place under `modifies` frames;
- what the live-scores page computes before it draws
  (`gegen/src/ui/pages/live_scores.rs`): the grouping loop, the clamped scroll
  offset, the row and block layout of each league, the title and the fetch
  request on a cache miss;
- what the match-overview page computes (`gegen/src/ui/pages/match_overview.rs`):
  the two-stage lookup, the team-name fallback and the label for each period code;
- the data types and their serde wire names (`gegen-data/src/types.rs`), as
  datatypes with decoders proved inverse to the encoders.

Modules, leaves first:

- `Wrappers`: `Option` and `Result`.
- `Decimal`: decimal rendering of naturals, zero padding and parsing back.
- `Calendar`: chrono's `NaiveDate` as a bounded day number, the
  civil-from-days conversion and the ISO text chrono's `Display` writes.
- `Types`: the data types and wire codes.
- `AppState`: `State` and `LiveScoresPageState`.
- `LiveScores`: the live-scores page.
- `Ui`: event handling and page dispatch.
- `MatchOverview`: the match-overview page.

The wall clock (`SystemTime::now`, `Local::now`) is passed in as a parameter.
Nanoseconds stand for `SystemTime`, and a `Date` stands for today's date.
The crossbeam channel to the fetch thread is a ghost sequence, `requests`, of
the dates sent so far. A `usize` is 64 bits wide.

Leagues are runs of equal labels, not first occurrences. The grouping loop
uses itertools' `chunk_by`, which cuts the match list wherever the label
"{country} - {competition}" changes. Matches of leagues B, A, B therefore form
three groups, B, A and B, and league B appears twice on the page.
`LiveScores.RecurringLeagueFormsNewGroup` proves this case.
`LiveScores.ChunkingIsUnique` shows that `chunk_by`'s result is the only
grouping that keeps the list, labels its groups and never places equal labels
side by side.

## Model

| member | source | states |
|---|---|---|
| AppState.SaturatingAdd | gegen/src/state.rs:66-70 | `usize::saturating_add`: the exact sum when it fits in 64 bits, otherwise the `usize` maximum; never above either |
| AppState.SaturatingSub | gegen/src/state.rs:79-83 | `usize::saturating_sub`: the exact difference, or 0 when the subtrahend is larger; never above the minuend |
| AppState.LiveScoresPageState.constructor | gegen/src/state.rs:35-39 | the derived `Default` starts scrolled to the top |
| AppState.LiveScoresPageState.ResetScrollState | gegen/src/state.rs:42-44 | the scroll position becomes 0 |
| AppState.State.constructor | gegen/src/state.rs:48-61 | the state starts on today's matches, scrolled to the top, not quitting, pop-up hidden, tick rate 150 ms, last tick at the given clock reading, no requests sent |
| AppState.State.ScrollDown | gegen/src/state.rs:63-74 | on a live-scores page the scroll rises by one, saturating at the `usize` maximum; on the overview page nothing changes; only the scroll may change |
| AppState.State.ScrollUp | gegen/src/state.rs:76-87 | on a live-scores page the scroll falls by one, never below 0; on the overview page nothing changes; only the scroll may change |
| AppState.State.ToggleMetadataPopUp | gegen/src/state.rs:89-91 | the pop-up flag is negated and nothing else changes |
| AppState.State.ResetToToday | gegen/src/state.rs:93-95 | the page becomes today's live-scores page; the scroll and every other field are unchanged |
| AppState.State.PreviousDay | gegen/src/state.rs:97-105 | a live-scores page for day d becomes the page for d-1, scrolled to the top; the overview page is unchanged; stepping below the earliest date panics, so d must be above it |
| AppState.State.NextDay | gegen/src/state.rs:107-115 | a live-scores page for day d becomes the page for d+1, scrolled to the top; the overview page is unchanged; d must be below the latest date |
| AppState.State.ShouldDraw | gegen/src/state.rs:117-124 | answers true exactly when more than the tick rate has passed since the last tick, and only then moves the last tick to now; a clock that went backwards panics |
| AppState.State.OnTick | gegen/src/state.rs:126-129 | today's date is replaced by the clock's date and nothing else changes |
| AppState.State.FetchDataForDate | gegen/src/state.rs:131-135 | exactly one request, for the given date, is appended to the channel |
| AppState.NextDayThenPreviousDay | gegen/src/state.rs:97-115 | a step forward followed by a step back restores the page and leaves it scrolled to the top |
| AppState.ToggleMetadataPopUpTwice | gegen/src/state.rs:89-91 | toggling the pop-up twice restores it |
| Ui.ProcessEvent | gegen/src/ui/mod.rs:7-24 | any key sets the quit flag to whether it was `q`, so another key clears it; `n`, `p` and `t` go to the next day, the previous day and today; any other event keeps page and scroll; the overview page is `todo!()`, so the page must be a live-scores page |
| Ui.NonKeyEventChangesNothing | gegen/src/ui/mod.rs:8-20 | a non-key event leaves quit flag, page and scroll as they were |
| Ui.DrawPage | gegen/src/ui/mod.rs:26-31 | a live-scores page for day d shows the live-scores screen of exactly d, and sends a request for d only on a cache miss |
| LiveScores.LabelParts | gegen/src/ui/pages/live_scores.rs:107 | the label is the country's full name, " - ", then the competition's name |
| LiveScores.AddMatchShape | gegen/src/ui/pages/live_scores.rs:104-110 | one step of `chunk_by` keeps the number of groups exactly when the match's label is the last group's key, and adds one group otherwise; the groups before the last are kept; the last group then has the match's label and ends with the match |
| LiveScores.ChunkByShape | gegen/src/ui/pages/live_scores.rs:104-110 | `chunk_by` gives at most one group per match, no group exactly for no matches, and a last group labelled like the last match |
| LiveScores.ChunkBySnoc | gegen/src/ui/pages/live_scores.rs:104-110 | grouping a list with one more match takes one step of `chunk_by`: the match joins the last group if the labels agree, and otherwise starts a new one |
| LiveScores.AddMatchKeepsChunking | gegen/src/ui/pages/live_scores.rs:104-110 | one grouping step keeps the list of matches, the labels and the distinct neighbours |
| LiveScores.ChunkByIsChunking | gegen/src/ui/pages/live_scores.rs:104-110 | the groups, concatenated, give back the match list in order; every group is non-empty and each of its matches has the group's label "{country} - {competition}"; neighbouring groups have different labels |
| LiveScores.DropLastMatchFlatten | gegen/src/ui/pages/live_scores.rs:104-110 | taking the last match out of the groups removes exactly that match from the end of the concatenated list |
| LiveScores.DropLastMatchKeepsLabels | gegen/src/ui/pages/live_scores.rs:104-110 | taking the last match out keeps every group labelled and neighbouring labels distinct |
| LiveScores.ChunkingDropLast | gegen/src/ui/pages/live_scores.rs:104-110 | removing the last match from a valid grouping leaves a valid grouping of the shorter list; that match sits at the end of the last group, under its own label |
| LiveScores.AddMatchUndoesDrop | gegen/src/ui/pages/live_scores.rs:104-110 | putting the last match back restores the grouping |
| LiveScores.ChunkingIsUnique | gegen/src/ui/pages/live_scores.rs:104-110 | any grouping with those three properties is the one `chunk_by` produces |
| LiveScores.GroupMatches | gegen/src/ui/pages/live_scores.rs:103-110 | the grouping loop produces exactly `chunk_by`'s groups, with the three properties above |
| LiveScores.ChunkByStartsGroup | gegen/src/ui/pages/live_scores.rs:104-110 | a match whose label differs from the last group's key is appended as a group of its own |
| LiveScores.ChunkByPair | gegen/src/ui/pages/live_scores.rs:104-110 | two matches of different leagues form two one-match groups, in order |
| LiveScores.RecurringLeagueFormsNewGroup | gegen/src/ui/pages/live_scores.rs:104-108 | a league that reappears after another league forms a new group: labels a, b, a give three groups |
| LiveScores.Offset | gegen/src/ui/pages/live_scores.rs:113-119 | the offset is `min(scroll, groups - 4)`: at most the scroll, leaving four leagues in range, and equal to one of the two bounds; it needs four groups, because with fewer the page panics (at line 117 when overflow checks are on, at the slice on line 119 when the subtraction wraps) |
| LiveScores.RowCount | gegen/src/ui/pages/live_scores.rs:36 | `div_ceil(n, 5)`: five fixtures per row hold all n fixtures, with fewer than a row to spare; zero rows exactly for zero fixtures |
| LiveScores.RowBlocks | gegen/src/ui/pages/live_scores.rs:47-55 | a row keeps the five inner columns of its seven-column split, the margins dropped |
| LiveScores.LeagueBlocksLength | gegen/src/ui/pages/live_scores.rs:46-56 | a league with r rows gets exactly 5r fixture blocks |
| LiveScores.LeagueBlocksAt | gegen/src/ui/pages/live_scores.rs:46-56 | block k lies in inner row k/5+1 and inner column k%5+1: rows in order, padding rows and padding columns skipped |
| LiveScores.LeagueLayoutFor | gegen/src/ui/pages/live_scores.rs:36-56 | a league of n fixtures gets `div_ceil(n, 5)` rows plus two padding rows, and five blocks per row: at least one block per fixture and fewer than five spare |
| LiveScores.RowConstraints | gegen/src/ui/pages/live_scores.rs:38-41 | the row split is a fill row, r rows of 80/r percent each, and a fill row |
| LiveScores.CalculateLoadedLayout | gegen/src/ui/pages/live_scores.rs:22-60 | the nested loops give each of at most four leagues the row split and block grid for its fixture count; `zip` stops at the shorter input; a zero count would divide by zero, so counts must be positive |
| LiveScores.Title | gegen/src/ui/pages/live_scores.rs:62-67 | the title is "Today ({date})" exactly when the date is today, and the bare date text otherwise |
| LiveScores.Window | gegen/src/ui/pages/live_scores.rs:113-121 | the slice shown always holds four leagues |
| LiveScores.LayOutWindow | gegen/src/ui/pages/live_scores.rs:113-124 | the loaded branch takes the clamped four-league slice, counts each league's fixtures and lays them out, giving exactly the window of leagues |
| LiveScores.WindowShowsLeagues | gegen/src/ui/pages/live_scores.rs:113-133 | the i-th league shown is group offset+i with its own label, and it has a block for each fixture plus fewer than a row of spare blocks |
| LiveScores.Screen | gegen/src/ui/pages/live_scores.rs:100-146 | the loading screen, under the page title, shows exactly on a cache miss; the page panics exactly when the cached matches form fewer than four leagues, and that count is the number of `chunk_by` groups; otherwise the page shows the title and four leagues |
| LiveScores.Draw | gegen/src/ui/pages/live_scores.rs:100-148 | drawing a date shows the screen for what the cache holds; a miss sends exactly one request, for that date, and a hit sends none |
| MatchOverview.FindIndex | gegen/src/ui/pages/match_overview.rs:35-37 | `iter().find`: the index found satisfies the predicate and no earlier element does; with no index, no element does |
| MatchOverview.FindMatch | gegen/src/ui/pages/match_overview.rs:33-54 | any match found has the requested id |
| MatchOverview.FindMatchIsFirst | gegen/src/ui/pages/match_overview.rs:35-47 | with a group of that label, a match is found exactly when the first such group holds the id, and it is that group's first match with the id |
| MatchOverview.FindMatchFailsWithoutGroup | gegen/src/ui/pages/match_overview.rs:33-45 | without grouped data, or without a group of that label, nothing is found |
| MatchOverview.Draw | gegen/src/ui/pages/match_overview.rs:14-86 | the loading state shows exactly when a lookup fails; otherwise the overview shows the found match's team names and time label |
| MatchOverview.TeamName | gegen/src/ui/pages/match_overview.rs:96-101 | a team without a name shows as "tbc"; a named team shows its name |
| MatchOverview.TimeLabel | gegen/src/ui/pages/match_overview.rs:106-140 | a label shows exactly for period codes 1, 2, 5, 10, 14 and 16: "penalties", "ht" and "ft" for 5, 10 and 14, the kick-off time for 16 |
| MatchOverview.InPlayLabelShowsMinute | gegen/src/ui/pages/match_overview.rs:108-110 | in either half the label is the elapsed minute, 0 when absent, followed by `'` |
| MatchOverview.KickoffText | gegen/src/ui/pages/match_overview.rs:135 | `%H:%M` of the kick-off in UTC, which `naive_local` of a UTC timestamp gives: two-digit hour below 24 and two-digit minute below 60 of the timestamp's time of day |
| MatchOverview.MinuteOfDay | gegen/src/ui/pages/match_overview.rs:135 | the minute of the hour is the same counted from the timestamp or from its time of day, since a day is 24 whole hours |
| MatchOverview.EventsDrawn | gegen/src/ui/pages/match_overview.rs:143-148 | with no event list nothing is walked; otherwise exactly the match's events |
| Types.EncodeCard | gegen-data/src/types.rs:68-76 | each card's wire code is an explicit rename made of capital letters and digits ("YC", "Y2C", "RC") |
| Types.DecodeCard | gegen-data/src/types.rs:68-76 | "YC", "Y2C" and "RC" decode to the card encoding to them; any other string fails with that string |
| Types.CardRoundTrip | gegen-data/src/types.rs:68-76 | decoding a card's code gives the card back |
| Types.EncodeGoalType | gegen-data/src/types.rs:92-100 | each goal type's wire code is an explicit rename made of capital letters ("G", "PG", "OG") |
| Types.DecodeGoalType | gegen-data/src/types.rs:92-100 | "G", "PG" and "OG" decode to the goal type encoding to them; any other string fails |
| Types.GoalTypeRoundTrip | gegen-data/src/types.rs:92-100 | decoding a goal type's code gives it back |
| Types.EncodeScoreKey | gegen-data/src/types.rs:115-123 | `rename_all = "camelCase"`: each key's wire name is its Rust variant name with the first letter lowered |
| Types.DecodeScoreKey | gegen-data/src/types.rs:115-123 | the camelCase names decode to the key encoding to them; any other name fails |
| Types.ScoreKeyRoundTrip | gegen-data/src/types.rs:115-123 | decoding a key's name gives the key back |
| Types.ScoreKeyNamesDistinct | gegen-data/src/types.rs:115-123 | no two keys share a name |
| Types.ScoreKeyRank | gegen-data/src/types.rs:115-123 | each key's position in the declaration is one of five |
| Types.ScoreKeyOrder | gegen-data/src/types.rs:115 | the derived `Ord` is a strict total order, running Ft < Ht < Total < Aggregate < TotalUnconfirmed |
| Types.DecodeU8 | gegen-data/src/types.rs:127-129 | a number is accepted as `u8` exactly when it lies in 0..=255, and is then kept as is |
| Types.DecodeScore | gegen-data/src/types.rs:125-130 | a score decodes exactly when both components are `u8`, and keeps them |
| Types.DecodeGoalScore | gegen-data/src/types.rs:89 | a goal's optional `[u8; 2]` score: null is no score; an array decodes exactly when it has two `u8` entries, and the score holds them in order |
| Types.EncodeStatus | gegen-data/src/types.rs:154-160 | `rename_all = "camelCase"`: each status's wire name is its Rust variant name with the first letter lowered |
| Types.DecodeStatus | gegen-data/src/types.rs:154-160 | "played", "fixture" and "playing" decode to the status encoding to them; any other name fails |
| Types.StatusRoundTrip | gegen-data/src/types.rs:154-160 | decoding a status's name gives it back |
| Types.EncodeEventKind | gegen-data/src/types.rs:33-40 | `rename_all = "camelCase"` with `tag = "entity_type"`: each event's tag is its Rust variant name with the first letter lowered |
| Types.DecodeEventKind | gegen-data/src/types.rs:33-40 | the `entity_type` tags "sub", "goal", "card" and "var" select the variant encoding to them; an unknown tag fails |
| Types.EventTagRoundTrip | gegen-data/src/types.rs:33-40 | every event's tag selects exactly its own variant |
| Calendar.LeapShift | gegen/src/ui/pages/live_scores.rs:64-66 | the Gregorian leap rule repeats every 400 years |
| Calendar.EraYearLengthIsLeap | gegen/src/ui/pages/live_scores.rs:64-66 | a March-to-February year of an era has 366 days exactly when its February is a leap February |
| Calendar.YearStartOfSplit | gegen/src/ui/pages/live_scores.rs:64-66 | a year given by century, four-year cycle and year of cycle starts 36524, 1461 and 365 days per unit into its era |
| Calendar.SplitYearLength | gegen/src/ui/pages/live_scores.rs:64-66 | only the last year of a four-year cycle is long, except at the end of the first three centuries of an era |
| Calendar.SplitEra | gegen/src/ui/pages/live_scores.rs:64-66 | a day of a 400-year era is the start of one of its 400 years plus a day inside that year's length |
| Calendar.SplitYear | gegen/src/ui/pages/live_scores.rs:64-66 | a day of a March-based year is the start of a month plus a day of 1..31, and lies before the next month's start |
| Calendar.SplitYearFitsMonth | gegen/src/ui/pages/live_scores.rs:64-66 | the day of month found lies within the month's length, with 29 days in a leap February |
| Calendar.CivilFromDays | gegen/src/ui/pages/live_scores.rs:64-66 | every day number has a calendar date with month 1..12 and a day within that month's length under the Gregorian leap rule |
| Calendar.CivilRoundTrip | gegen/src/state.rs:102-112 | the day number is recovered from its calendar date, so a day step is a step between distinct dates |
| Calendar.DateRangeEnds | gegen/src/state.rs:102-112 | the dates `checked_sub_days` and `checked_add_days` can reach run from -262143-01-01 to 262142-12-31 |
| Calendar.YearText | gegen/src/ui/pages/live_scores.rs:64-66 | chrono writes a year of 0..=9999 as exactly four digits that read back as the year, and any other year as its sign, `-` or `+`, followed by at least four digits that read back as its magnitude |
| Calendar.DateText | gegen/src/ui/pages/live_scores.rs:64-66 | a date is written as its year's text, dash, two-digit month, dash, two-digit day, and the month and day read back as the date's own |
| Decimal.NatToStringFits | gegen/src/ui/pages/live_scores.rs:64-66 | a number below 10^k is written with at most k digits |
| Decimal.NatToString | gegen/src/ui/pages/match_overview.rs:110 | a natural number is written as digits with no leading zero |
| Decimal.ParseNatToString | gegen/src/ui/pages/match_overview.rs:110 | reading back the digits written for n gives n |
| Decimal.ParseZeroPad | gegen/src/ui/pages/live_scores.rs:64-66 | zero padding does not change the value read back |
| Decimal.TwoDigits | gegen/src/ui/pages/match_overview.rs:135 | `%H`, `%M`, `%m` and `%d` write a number below 100 as two digits that read back as it |

## Left out

- The fetch thread (`gegen/src/data_fetch.rs`) is not part of this model: it is concurrency, sleeping and network I/O. The cache is a `map` field that the modelled methods only read.
- HTTP requests, JSON parsing and logging are not part of this model: `gegen-data/src/lib.rs`, `gegen-data/src/utils.rs`, the `main.rs` files and `gegen/src/logging.rs`. The serde rename tables are modelled as encode and decode functions on names; the rest of deserialisation is not.
- Widget drawing, styling, the spinner animation (`calc_next` in `on_tick`) and ratatui's layout solver are left out. Layouts are modelled by their constraints and the split areas a league keeps, not by `Rect` sizes. The loading layout and `render_loading` draw nothing the model can state.
- The overview page's title comes from `gegen/src/ui/pages/shared.rs`, which is not part of this model.
- `get_grouped_data`, which the overview page calls, is not among the source files. The grouped data is a parameter of `MatchOverview.FindMatch` and `MatchOverview.Draw`.
- `AppState.State.FetchDataForDate`: a failed `try_send` is only logged. The model records every request as sent.
- `AppState.State.ShouldDraw`: the source reads the clock twice, once for `elapsed` and once to restart the tick. The model uses one reading for both.
- `Ui.ProcessEvent` and `Ui.DrawPage`: the overview page is `todo!()` and `unimplemented!()` in `gegen/src/ui/mod.rs`, so both require a live-scores page.
- `LiveScores.Draw`: with fewer than four leagues the source panics. With overflow checks on, `len - 4` on line 117 of `gegen/src/ui/pages/live_scores.rs` panics; without them it wraps, and the slice on line 119 is out of bounds and panics. The model returns the explicit outcome `TooFewLeagues` instead of drawing.
- `Calendar.DateRangeEnds`: the date range is the one chrono has used since version 0.4.35. The chrono version is not visible in the source files.
- The overview page reads `period`, `time` and an optional team name, which `gegen-data/src/types.rs` does not declare; the two files come from different revisions. `Types.Match` and `Types.Team` carry those fields as the overview page uses them.
- `MatchOverview.EventsDrawn`: `draw_events` has an empty loop body, so the model states only which events it walks over.
- The score keys are the five that `gegen-data/src/types.rs` declares.
