/**
 * The match-overview page: finds one match by competition label and id in
 * the grouped data and shows the two team names and a label for the phase
 * of play.
 */
module MatchOverview {
  import opened Wrappers
  import opened Decimal
  import opened Types
  import opened LiveScores

  /** Seconds in a day. */
  const SecondsPerDay: nat := 86400

  /** `iter().position`, the index `find` stops at: the first element satisfying `p`. */
  function FindIndex<T>(s: seq<T>, p: T -> bool): (r: Option<nat>)
    ensures r.Some? ==> r.value < |s| && p(s[r.value]) && forall j :: 0 <= j < r.value ==> !p(s[j])
    ensures r.None? ==> forall j :: 0 <= j < |s| ==> !p(s[j])
  {
    if s == [] then None
    else if p(s[0]) then Some(0)
    else
      match FindIndex(s[1..], p)
      case None => None
      case Some(i) => Some(i + 1)
  }

  /** The minute within the hour is the same whether counted from the timestamp or from its time of day. */
  lemma {:induction false} MinuteOfDay(date: int)
    ensures date % SecondsPerDay % 3600 == date % 3600
  {
    var q := date / SecondsPerDay;
    var r := date % SecondsPerDay;
    assert date == 3600 * (24 * q) + r;
  }

  /** The kick-off time as `%H:%M` of the UTC timestamp `date` (seconds). */
  function KickoffText(date: int): (text: string)
    ensures |text| == 5 && text[2] == ':'
    ensures AllDigits(text[..2]) && AllDigits(text[3..])
    ensures ParseDigits(text[..2]) == date % SecondsPerDay / 3600 < 24
    ensures ParseDigits(text[3..]) == date % 3600 / 60 < 60
  {
    var secondOfDay := date % SecondsPerDay;
    assert secondOfDay / 3600 < 24;
    var hours := TwoDigits(secondOfDay / 3600);
    var minuteOfDay := secondOfDay % 3600;
    MinuteOfDay(date);
    var minutes := TwoDigits(minuteOfDay / 60);
    var text := hours + ":" + minutes;
    assert text[..2] == hours && text[3..] == minutes;
    text
  }

  /**
   * The label above the score for each period code: the minute during
   * either half, fixed words for penalties, half time and full time, the
   * kick-off time before the start, and nothing for any other code.
   */
  function TimeLabel(m: Match): (shown: Option<string>)
    ensures shown.Some? <==> m.period in {1, 2, 5, 10, 14, 16}
    ensures m.period == 5 ==> shown == Some("penalties")
    ensures m.period == 10 ==> shown == Some("ht")
    ensures m.period == 14 ==> shown == Some("ft")
    ensures m.period == 16 ==> shown == Some(KickoffText(m.date))
  {
    if m.period == 1 || m.period == 2 then Some(NatToString(m.time.GetOr(0)) + "'")
    else if m.period == 5 then Some("penalties")
    else if m.period == 10 then Some("ht")
    else if m.period == 14 then Some("ft")
    else if m.period == 16 then Some(KickoffText(m.date))
    else None
  }

  /** During either half the label is the elapsed minute, 0 when absent, followed by `'`. */
  lemma {:induction false} InPlayLabelShowsMinute(m: Match)
    requires m.period == 1 || m.period == 2
    ensures var text := TimeLabel(m).value;
      && |text| >= 2 && text[|text| - 1] == '\''
      && AllDigits(text[..|text| - 1])
      && ParseDigits(text[..|text| - 1]) == m.time.GetOr(0)
  {
    var digits := NatToString(m.time.GetOr(0));
    assert (digits + "'")[..|digits|] == digits;
    ParseNatToString(m.time.GetOr(0));
  }

  /** The name shown for a team: its own, or "tbc" while it is unconfirmed. */
  function TeamName(t: Team): (name: string)
    ensures t.name.Some? ==> name == t.name.value
    ensures t.name.None? ==> name == "tbc"
  {
    t.name.GetOr("tbc")
  }

  predicate HasKey(name: string, g: Group) {
    g.key == name
  }

  predicate HasId(id: string, m: Match) {
    m.id == id
  }

  /**
   * The match the page is about: the first group whose label is
   * `competitionName`, then the first match in that group whose id is
   * `matchId`. A later group with the same label is never searched.
   */
  function FindMatch(grouped: Option<seq<Group>>, competitionName: string, matchId: string): (r: Option<Match>)
    ensures r.Some? ==> r.value.id == matchId
  {
    match grouped
    case None => None
    case Some(groups) =>
      match FindIndex(groups, g => HasKey(competitionName, g))
      case None => None
      case Some(gi) =>
        match FindIndex(groups[gi].matches, m => HasId(matchId, m))
        case None => None
        case Some(mi) => Some(groups[gi].matches[mi])
  }

  /** The first index of a group labelled `name`. */
  ghost predicate FirstGroupNamed(groups: seq<Group>, name: string, gi: int) {
    0 <= gi < |groups| && groups[gi].key == name && forall j :: 0 <= j < gi ==> groups[j].key != name
  }

  /** The first index of a match with id `id`. */
  ghost predicate FirstMatchWithId(ms: seq<Match>, id: string, mi: int) {
    0 <= mi < |ms| && ms[mi].id == id && forall j :: 0 <= j < mi ==> ms[j].id != id
  }

  /**
   * The lookup finds a match exactly when grouped data exists, some group has
   * the label and the first such group holds a match with the id; what it
   * finds is the first such match of that first group.
   */
  lemma {:induction false} FindMatchIsFirst(groups: seq<Group>, competitionName: string, matchId: string, gi: int)
    requires FirstGroupNamed(groups, competitionName, gi)
    ensures FindMatch(Some(groups), competitionName, matchId).Some? <==>
      exists mi :: FirstMatchWithId(groups[gi].matches, matchId, mi)
    ensures forall mi :: FirstMatchWithId(groups[gi].matches, matchId, mi) ==>
      FindMatch(Some(groups), competitionName, matchId) == Some(groups[gi].matches[mi])
  {
    var found := FindIndex(groups, g => HasKey(competitionName, g));
    assert HasKey(competitionName, groups[gi]);
    assert found == Some(gi);
    var inGroup := FindIndex(groups[gi].matches, m => HasId(matchId, m));
    if inGroup.Some? {
      assert FirstMatchWithId(groups[gi].matches, matchId, inGroup.value);
    }
    forall mi | FirstMatchWithId(groups[gi].matches, matchId, mi)
      ensures inGroup == Some(mi)
    {
      assert HasId(matchId, groups[gi].matches[mi]);
    }
  }

  /** Without grouped data, or without a group of that label, nothing is found. */
  lemma {:induction false} FindMatchFailsWithoutGroup(grouped: Option<seq<Group>>, competitionName: string, matchId: string)
    requires grouped.None? || forall g :: g in grouped.value ==> g.key != competitionName
    ensures FindMatch(grouped, competitionName, matchId).None?
  {
  }

  /** What the page shows below its title. */
  datatype OverviewView =
    | Loading
    | Overview(homeName: string, awayName: string, timeLabel: Option<string>)

  /** `draw`: the overview of the match found, or the loading spinner when any lookup fails. */
  function Draw(grouped: Option<seq<Group>>, competitionName: string, matchId: string): (view: OverviewView)
    ensures view.Loading? <==> FindMatch(grouped, competitionName, matchId).None?
    ensures view.Overview? ==>
      var m := FindMatch(grouped, competitionName, matchId).value;
      view == Overview(TeamName(m.home), TeamName(m.away), TimeLabel(m))
  {
    match FindMatch(grouped, competitionName, matchId)
    case None => OverviewView.Loading
    case Some(m) => Overview(TeamName(m.home), TeamName(m.away), TimeLabel(m))
  }

  /** `draw_events`: the events it walks over, none when the match has no event list; it draws nothing for them. */
  function EventsDrawn(m: Match): (events: seq<Event>)
    ensures m.events.None? ==> events == []
    ensures m.events.Some? ==> events == m.events.value
  {
    match m.events
    case None => []
    case Some(events) => events
  }
}
