/**
 * The records the live-scores endpoint returns, and the renaming tables by
 * which their enumerations are spelled on the wire. Each table is modelled as
 * an encoder (the variant's wire name) and a decoder (the name's variant, or
 * an error naming the unknown text), proved inverse to each other.
 */
module Types {
  import opened Wrappers

  /** Rust's `u8`, the type of score components and period ids. */
  type U8 = x: int | 0 <= x < 256
  /** Rust's `u16`, the type of an event's minute. */
  type U16 = x: int | 0 <= x < 65536

  /** Why a wire value was refused. */
  datatype DecodeError =
    | UnknownVariant(text: string)
    | OutOfRange(number: int)
    | WrongLength(length: nat)

  // ---------------------------------------------------------------- renaming rules

  /** serde's `rename_all = "camelCase"` on a variant named in PascalCase: the first letter lowered, the rest kept. */
  function CamelCase(name: string): (s: string)
    requires name != [] && 'A' <= name[0] <= 'Z'
    ensures |s| == |name| && s[1..] == name[1..]
    ensures 'a' <= s[0] <= 'z' && s[0] as int - name[0] as int == 'a' as int - 'A' as int
  {
    [(name[0] as int - 'A' as int + 'a' as int) as char] + name[1..]
  }

  /** A wire code spelled out by an explicit `rename`: capital letters and digits. */
  predicate IsUpperCode(s: string) {
    s != [] && forall i :: 0 <= i < |s| ==> 'A' <= s[i] <= 'Z' || '0' <= s[i] <= '9'
  }

  // ---------------------------------------------------------------- Card

  datatype Card = Yellow | SecondYellow | Red

  /** The explicitly renamed code of each card. */
  function EncodeCard(c: Card): (s: string)
    ensures IsUpperCode(s)
  {
    match c
    case Yellow => "YC"
    case SecondYellow => "Y2C"
    case Red => "RC"
  }

  function DecodeCard(s: string): (r: Result<Card, DecodeError>)
    ensures r.Ok? ==> EncodeCard(r.value) == s
    ensures r.Err? ==> r.error == UnknownVariant(s) && forall c: Card :: EncodeCard(c) != s
  {
    if s == "YC" then Ok(Yellow)
    else if s == "Y2C" then Ok(SecondYellow)
    else if s == "RC" then Ok(Red)
    else Err(UnknownVariant(s))
  }

  lemma {:induction false} CardRoundTrip(c: Card)
    ensures DecodeCard(EncodeCard(c)) == Ok(c)
  {
  }

  // ---------------------------------------------------------------- GoalType

  datatype GoalType = Goal | Penalty | OwnGoal

  /** The explicitly renamed code of each goal type. */
  function EncodeGoalType(g: GoalType): (s: string)
    ensures IsUpperCode(s)
  {
    match g
    case Goal => "G"
    case Penalty => "PG"
    case OwnGoal => "OG"
  }

  function DecodeGoalType(s: string): (r: Result<GoalType, DecodeError>)
    ensures r.Ok? ==> EncodeGoalType(r.value) == s
    ensures r.Err? ==> r.error == UnknownVariant(s) && forall g: GoalType :: EncodeGoalType(g) != s
  {
    if s == "G" then Ok(GoalType.Goal)
    else if s == "PG" then Ok(Penalty)
    else if s == "OG" then Ok(OwnGoal)
    else Err(UnknownVariant(s))
  }

  lemma {:induction false} GoalTypeRoundTrip(g: GoalType)
    ensures DecodeGoalType(EncodeGoalType(g)) == Ok(g)
  {
  }

  // ---------------------------------------------------------------- ScoreKey

  /** The keys of a match's score map, in declaration order (which the derived `Ord` follows). */
  datatype ScoreKey = Ft | Ht | Total | Aggregate | TotalUnconfirmed

  /** The variant's name as the Rust source declares it. */
  function ScoreKeyVariant(k: ScoreKey): string {
    match k
    case Ft => "Ft"
    case Ht => "Ht"
    case Total => "Total"
    case Aggregate => "Aggregate"
    case TotalUnconfirmed => "TotalUnconfirmed"
  }

  /** Names in camelCase, as `rename_all = "camelCase"` spells the variants. */
  function EncodeScoreKey(k: ScoreKey): (s: string)
    ensures s == CamelCase(ScoreKeyVariant(k))
  {
    match k
    case Ft => "ft"
    case Ht => "ht"
    case Total => "total"
    case Aggregate => "aggregate"
    case TotalUnconfirmed => "totalUnconfirmed"
  }

  function DecodeScoreKey(s: string): (r: Result<ScoreKey, DecodeError>)
    ensures r.Ok? ==> EncodeScoreKey(r.value) == s
    ensures r.Err? ==> r.error == UnknownVariant(s) && forall k: ScoreKey :: EncodeScoreKey(k) != s
  {
    if s == "ft" then Ok(Ft)
    else if s == "ht" then Ok(Ht)
    else if s == "total" then Ok(Total)
    else if s == "aggregate" then Ok(Aggregate)
    else if s == "totalUnconfirmed" then Ok(TotalUnconfirmed)
    else Err(UnknownVariant(s))
  }

  lemma {:induction false} ScoreKeyRoundTrip(k: ScoreKey)
    ensures DecodeScoreKey(EncodeScoreKey(k)) == Ok(k)
  {
  }

  /** The five key names are pairwise distinct. */
  lemma {:induction false} ScoreKeyNamesDistinct(a: ScoreKey, b: ScoreKey)
    ensures EncodeScoreKey(a) == EncodeScoreKey(b) ==> a == b
  {
    ScoreKeyRoundTrip(a);
    ScoreKeyRoundTrip(b);
  }

  /** Position in the declaration, which the derived `Ord` compares. */
  function ScoreKeyRank(k: ScoreKey): (r: nat)
    ensures r < 5
  {
    match k
    case Ft => 0
    case Ht => 1
    case Total => 2
    case Aggregate => 3
    case TotalUnconfirmed => 4
  }

  /** The derived `Ord`: `a < b`. */
  predicate ScoreKeyLess(a: ScoreKey, b: ScoreKey) {
    ScoreKeyRank(a) < ScoreKeyRank(b)
  }

  /** The derived order is a strict total order on the keys, and runs Ft < Ht < Total < Aggregate < TotalUnconfirmed. */
  lemma {:induction false} ScoreKeyOrder(a: ScoreKey, b: ScoreKey, c: ScoreKey)
    ensures !ScoreKeyLess(a, a)
    ensures ScoreKeyLess(a, b) && ScoreKeyLess(b, c) ==> ScoreKeyLess(a, c)
    ensures a == b || ScoreKeyLess(a, b) || ScoreKeyLess(b, a)
    ensures ScoreKeyLess(Ft, Ht) && ScoreKeyLess(Ht, Total) && ScoreKeyLess(Total, Aggregate)
    ensures ScoreKeyLess(Aggregate, TotalUnconfirmed)
  {
  }

  // ---------------------------------------------------------------- Score

  /** One score pair; both components are `u8`. */
  datatype Score = Score(home: U8, away: U8)

  /** A JSON number read into a `u8`: anything outside 0..255 is refused. */
  function DecodeU8(n: int): (r: Result<U8, DecodeError>)
    ensures r.Ok? <==> 0 <= n < 256
    ensures r.Ok? ==> r.value == n
    ensures r.Err? ==> r.error == OutOfRange(n)
  {
    if 0 <= n < 256 then Ok(n) else Err(OutOfRange(n))
  }

  function DecodeScore(home: int, away: int): (r: Result<Score, DecodeError>)
    ensures r.Ok? <==> 0 <= home < 256 && 0 <= away < 256
    ensures r.Ok? ==> r.value.home == home && r.value.away == away
  {
    match DecodeU8(home)
    case Err(e) => Err(e)
    case Ok(h) =>
      match DecodeU8(away)
      case Err(e) => Err(e)
      case Ok(a) => Ok(Score(h, a))
  }

  /**
   * A goal event's optional `[u8; 2]` running score: JSON null is `None`, an
   * array of exactly two numbers in 0..255 is `Some`, anything else is refused.
   */
  function DecodeGoalScore(raw: Option<seq<int>>): (r: Result<Option<Score>, DecodeError>)
    ensures raw.None? ==> r == Ok(None)
    ensures raw.Some? ==>
      (r.Ok? <==> |raw.value| == 2 && 0 <= raw.value[0] < 256 && 0 <= raw.value[1] < 256)
    ensures raw.Some? && r.Ok? ==>
      r.value.Some? && [r.value.value.home, r.value.value.away] == raw.value
  {
    match raw
    case None => Ok(None)
    case Some(pair) =>
      if |pair| != 2 then Err(WrongLength(|pair|))
      else
        match DecodeScore(pair[0], pair[1])
        case Err(e) => Err(e)
        case Ok(score) => Ok(Some(score))
  }

  // ---------------------------------------------------------------- Status

  datatype Status = Played | Fixture | Playing

  /** The variant's name as the Rust source declares it. */
  function StatusVariant(st: Status): string {
    match st
    case Played => "Played"
    case Fixture => "Fixture"
    case Playing => "Playing"
  }

  /** Names in camelCase, as `rename_all = "camelCase"` spells the variants. */
  function EncodeStatus(st: Status): (s: string)
    ensures s == CamelCase(StatusVariant(st))
  {
    match st
    case Played => "played"
    case Fixture => "fixture"
    case Playing => "playing"
  }

  function DecodeStatus(s: string): (r: Result<Status, DecodeError>)
    ensures r.Ok? ==> EncodeStatus(r.value) == s
    ensures r.Err? ==> r.error == UnknownVariant(s) && forall st: Status :: EncodeStatus(st) != s
  {
    if s == "played" then Ok(Played)
    else if s == "fixture" then Ok(Fixture)
    else if s == "playing" then Ok(Playing)
    else Err(UnknownVariant(s))
  }

  lemma {:induction false} StatusRoundTrip(st: Status)
    ensures DecodeStatus(EncodeStatus(st)) == Ok(st)
  {
  }

  // ---------------------------------------------------------------- Events

  datatype SubEvent = SubEvent(
    periodId: U8, min: U16, timeStr: string, teamId: string,
    playerId: string, playerName: string, player2Id: string, player2Name: string)

  datatype GoalEvent = GoalEvent(
    periodId: U8, min: U16, timeStr: string, teamId: string,
    playerId: string, playerName: string, goalType: GoalType, score: Option<Score>)

  datatype CardEvent = CardEvent(
    periodId: U8, min: U16, timeStr: string, teamId: string, cardType: Card)

  datatype VarEvent = VarEvent(
    periodId: U8, min: U16, timeStr: string, teamId: string,
    playerId: string, playerName: string, varType: string, outcome: string, decision: string)

  /** A match event, internally tagged on the wire by its `entity_type` field. */
  datatype Event =
    | Sub(sub: SubEvent)
    | Goal(goal: GoalEvent)
    | Card(card: CardEvent)
    | Var(review: VarEvent)

  /** Which variant an `entity_type` tag selects, before the rest of the record is read. */
  datatype EventKind = SubKind | GoalKind | CardKind | VarKind

  function KindOf(e: Event): EventKind {
    match e
    case Sub(_) => SubKind
    case Goal(_) => GoalKind
    case Card(_) => CardKind
    case Var(_) => VarKind
  }

  /** The variant's name as the Rust source declares it. */
  function EventVariant(k: EventKind): string {
    match k
    case SubKind => "Sub"
    case GoalKind => "Goal"
    case CardKind => "Card"
    case VarKind => "Var"
  }

  /** The `entity_type` tag of each variant, in camelCase. */
  function EncodeEventKind(k: EventKind): (s: string)
    ensures s == CamelCase(EventVariant(k))
  {
    match k
    case SubKind => "sub"
    case GoalKind => "goal"
    case CardKind => "card"
    case VarKind => "var"
  }

  function DecodeEventKind(tag: string): (r: Result<EventKind, DecodeError>)
    ensures r.Ok? ==> EncodeEventKind(r.value) == tag
    ensures r.Err? ==> r.error == UnknownVariant(tag) && forall k: EventKind :: EncodeEventKind(k) != tag
  {
    if tag == "sub" then Ok(SubKind)
    else if tag == "goal" then Ok(GoalKind)
    else if tag == "card" then Ok(CardKind)
    else if tag == "var" then Ok(VarKind)
    else Err(UnknownVariant(tag))
  }

  /** An event's tag decodes back to exactly its own variant. */
  lemma {:induction false} EventTagRoundTrip(e: Event)
    ensures DecodeEventKind(EncodeEventKind(KindOf(e))) == Ok(KindOf(e))
  {
  }

  // ---------------------------------------------------------------- Matches

  datatype Country = Country(id: string, fullName: string)

  datatype Competition = Competition(id: string, name: string, country: Country)

  /** A team; an unconfirmed team has no name. */
  datatype Team = Team(id: string, name: Option<string>)

  /**
   * One match. `date` and `updated` are Unix timestamps in seconds (the
   * `ts_seconds` format); `period` and `time` are the phase code and the
   * elapsed minute that the match overview reads.
   */
  datatype Match = Match(
    id: string,
    status: Status,
    comp: Competition,
    date: int,
    home: Team,
    away: Team,
    score: Option<map<ScoreKey, Score>>,
    events: Option<seq<Event>>,
    updated: int,
    period: int,
    time: Option<nat>)

  /** The endpoint's response: the matches of one date, in the order sent. */
  datatype LiveScoresResponse = LiveScoresResponse(matches: seq<Match>)
}
