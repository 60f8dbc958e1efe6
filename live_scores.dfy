/**
 * The live-scores page: the matches of one date, grouped into leagues by
 * consecutive runs of the label "{country} - {competition}", four leagues
 * per screen starting at the scroll offset, each league drawn as a grid of
 * fixture blocks five to a row.
 */
module LiveScores {
  import opened Wrappers
  import opened Calendar
  import opened Types
  import opened AppState

  const LeaguesPerScreen: nat := 4
  const FixturesPerRow: nat := 5

  // ------------------------------------------------------------ grouping

  /** The league label a match is grouped by. */
  function Label(m: Match): (text: string)
  {
    m.comp.country.fullName + " - " + m.comp.name
  }

  /** The label is the country's full name, a spaced dash, and the competition's name. */
  lemma {:induction false} LabelParts(m: Match)
    ensures var country := m.comp.country.fullName;
      var text := Label(m);
      && |text| == |country| + 3 + |m.comp.name|
      && text[..|country|] == country
      && text[|country|..|country| + 3] == " - "
      && text[|country| + 3..] == m.comp.name
  {
  }

  /** A league: its label and its matches in arrival order. */
  datatype Group = Group(key: string, matches: seq<Match>)

  /** One step of `chunk_by`: `m` joins the last group when its label is that group's key, and otherwise starts a new group. */
  function AddMatch(gs: seq<Group>, m: Match): seq<Group>
  {
    if gs != [] && gs[|gs| - 1].key == Label(m) then
      gs[..|gs| - 1] + [Group(gs[|gs| - 1].key, gs[|gs| - 1].matches + [m])]
    else
      gs + [Group(Label(m), [m])]
  }

  /**
   * A step keeps the number of groups exactly when the match's label is the
   * last group's key and adds one group otherwise; either way the last group
   * then carries that label and ends with the match.
   */
  lemma {:induction false} AddMatchShape(gs: seq<Group>, m: Match)
    ensures var r := AddMatch(gs, m);
      && (|r| == |gs| <==> gs != [] && gs[|gs| - 1].key == Label(m))
      && (|r| == |gs| || |r| == |gs| + 1)
      && r != [] && r[|r| - 1].key == Label(m)
      && r[|r| - 1].matches != [] && r[|r| - 1].matches[|r[|r| - 1].matches| - 1] == m
      && r[..|r| - 1] == if |r| == |gs| then gs[..|gs| - 1] else gs
  {
  }

  /** `chunk_by` on the label: the matches grouped into runs of equal labels. */
  function ChunkBy(ms: seq<Match>): (gs: seq<Group>)
  {
    if ms == [] then [] else AddMatch(ChunkBy(ms[..|ms| - 1]), ms[|ms| - 1])
  }

  /** The grouping has at most one group per match, none exactly when there are no matches, and its last group carries the last match's label. */
  lemma {:induction false} ChunkByShape(ms: seq<Match>)
    ensures var gs := ChunkBy(ms);
      && |gs| <= |ms|
      && (gs == [] <==> ms == [])
      && (ms != [] ==> gs[|gs| - 1].key == Label(ms[|ms| - 1]))
  {
    if ms != [] {
      ChunkByShape(ms[..|ms| - 1]);
      AddMatchShape(ChunkBy(ms[..|ms| - 1]), ms[|ms| - 1]);
    }
  }

  lemma {:induction false} ChunkBySnoc(init: seq<Match>, m: Match)
    ensures ChunkBy(init + [m]) == AddMatch(ChunkBy(init), m)
  {
    assert (init + [m])[..|init|] == init;
  }

  /** The groups' matches, one group after another. */
  function Flatten(gs: seq<Group>): seq<Match>
  {
    if gs == [] then [] else Flatten(gs[..|gs| - 1]) + gs[|gs| - 1].matches
  }

  /** Every group is non-empty and holds only matches with its key as label. */
  ghost predicate GroupsLabelled(gs: seq<Group>) {
    forall i :: 0 <= i < |gs| ==>
      gs[i].matches != [] && forall m :: m in gs[i].matches ==> Label(m) == gs[i].key
  }

  /** Neighbouring groups have different keys. */
  ghost predicate NeighboursDiffer(gs: seq<Group>) {
    forall i :: 0 < i < |gs| ==> gs[i - 1].key != gs[i].key
  }

  ghost predicate IsChunking(ms: seq<Match>, gs: seq<Group>) {
    Flatten(gs) == ms && GroupsLabelled(gs) && NeighboursDiffer(gs)
  }

  lemma {:induction false} AddMatchKeepsChunking(ms: seq<Match>, gs: seq<Group>, m: Match)
    requires IsChunking(ms, gs)
    ensures IsChunking(ms + [m], AddMatch(gs, m))
  {
    var r := AddMatch(gs, m);
    if gs != [] && gs[|gs| - 1].key == Label(m) {
      var front := gs[..|gs| - 1];
      var last := gs[|gs| - 1];
      assert r[..|r| - 1] == front;
      assert Flatten(gs) == Flatten(front) + last.matches;
      assert Flatten(r) == Flatten(front) + (last.matches + [m]);
    } else {
      assert r[..|r| - 1] == gs;
    }
  }

  /** The grouping loses, adds and reorders no match, labels every group correctly and never puts equal keys side by side. */
  lemma {:induction false} ChunkByIsChunking(ms: seq<Match>)
    ensures IsChunking(ms, ChunkBy(ms))
  {
    if ms != [] {
      var init := ms[..|ms| - 1];
      ChunkByIsChunking(init);
      AddMatchKeepsChunking(init, ChunkBy(init), ms[|ms| - 1]);
      assert init + [ms[|ms| - 1]] == ms;
    }
  }

  /** The groups with the last match taken away, dropping its group if it held only that match. */
  function DropLastMatch(gs: seq<Group>): seq<Group>
    requires gs != [] && gs[|gs| - 1].matches != []
  {
    var last := gs[|gs| - 1];
    if |last.matches| == 1 then gs[..|gs| - 1]
    else gs[..|gs| - 1] + [Group(last.key, last.matches[..|last.matches| - 1])]
  }

  /** Taking the last match away shortens the flattened list by exactly that match. */
  lemma {:induction false} DropLastMatchFlatten(gs: seq<Group>)
    requires gs != [] && gs[|gs| - 1].matches != []
    ensures var last := gs[|gs| - 1].matches;
      Flatten(gs) == Flatten(DropLastMatch(gs)) + [last[|last| - 1]]
  {
    var front := gs[..|gs| - 1];
    var last := gs[|gs| - 1];
    var shorter := last.matches[..|last.matches| - 1];
    var r := DropLastMatch(gs);
    assert Flatten(gs) == Flatten(front) + last.matches;
    assert last.matches == shorter + [last.matches[|last.matches| - 1]];
    if |last.matches| > 1 {
      assert r[..|r| - 1] == front;
      assert Flatten(r) == Flatten(front) + shorter;
    }
  }

  /** Taking the last match away keeps every group labelled and neighbours distinct. */
  lemma {:induction false} DropLastMatchKeepsLabels(gs: seq<Group>)
    requires gs != [] && GroupsLabelled(gs) && NeighboursDiffer(gs)
    ensures GroupsLabelled(DropLastMatch(gs)) && NeighboursDiffer(DropLastMatch(gs))
  {
    var last := gs[|gs| - 1];
    if |last.matches| > 1 {
      var shorter := last.matches[..|last.matches| - 1];
      assert forall x :: x in shorter ==> x in last.matches;
    }
  }

  lemma {:induction false} ChunkingDropLast(ms: seq<Match>, gs: seq<Group>)
    requires IsChunking(ms, gs) && gs != []
    ensures ms != [] && IsChunking(ms[..|ms| - 1], DropLastMatch(gs))
    ensures gs[|gs| - 1].key == Label(ms[|ms| - 1])
    ensures gs[|gs| - 1].matches == gs[|gs| - 1].matches[..|gs[|gs| - 1].matches| - 1] + [ms[|ms| - 1]]
  {
    var last := gs[|gs| - 1];
    DropLastMatchFlatten(gs);
    DropLastMatchKeepsLabels(gs);
    assert ms[..|ms| - 1] == Flatten(DropLastMatch(gs));
    assert ms[|ms| - 1] == last.matches[|last.matches| - 1];
    assert ms[|ms| - 1] in last.matches;
  }

  /** Adding the last match back to the shortened groups restores them. */
  lemma {:induction false} AddMatchUndoesDrop(gs: seq<Group>, m: Match)
    requires gs != [] && gs[|gs| - 1].matches != []
    requires gs[|gs| - 1].key == Label(m)
    requires gs[|gs| - 1].matches == gs[|gs| - 1].matches[..|gs[|gs| - 1].matches| - 1] + [m]
    requires NeighboursDiffer(gs)
    ensures AddMatch(DropLastMatch(gs), m) == gs
  {
    var front := gs[..|gs| - 1];
    var last := gs[|gs| - 1];
    var rest := DropLastMatch(gs);
    if |last.matches| > 1 {
      assert rest[..|rest| - 1] == front;
    } else {
      assert last.matches == [m];
      assert |gs| > 1 ==> gs[|gs| - 2].key != gs[|gs| - 1].key;
      assert front != [] ==> front[|front| - 1].key == gs[|gs| - 2].key;
    }
    assert gs == front + [last];
  }

  /**
   * The grouping is the only one with those properties: any sequence of
   * groups that flattens to `ms`, is correctly labelled and never repeats a
   * key side by side is `ChunkBy(ms)`.
   */
  lemma {:induction false} ChunkingIsUnique(ms: seq<Match>, gs: seq<Group>)
    requires IsChunking(ms, gs)
    ensures gs == ChunkBy(ms)
  {
    if gs == [] {
      assert ms == [];
    } else {
      ChunkingDropLast(ms, gs);
      var init := ms[..|ms| - 1];
      var m := ms[|ms| - 1];
      var rest := DropLastMatch(gs);
      assert rest == ChunkBy(init) by {
        ChunkingIsUnique(init, rest);
      }
      assert AddMatch(rest, m) == gs by {
        AddMatchUndoesDrop(gs, m);
      }
      assert ChunkBy(ms) == AddMatch(ChunkBy(init), m) by {
        ChunkBySnoc(init, m);
        assert init + [m] == ms;
      }
    }
  }

  /** The grouping loop of `draw`: one pass over the matches, extending the last group or starting a new one. */
  method GroupMatches(ms: seq<Match>) returns (groups: seq<Group>)
    ensures groups == ChunkBy(ms)
    ensures IsChunking(ms, groups)
  {
    groups := [];
    var i := 0;
    while i < |ms|
      invariant 0 <= i <= |ms|
      invariant groups == ChunkBy(ms[..i])
    {
      var m := ms[i];
      var key := Label(m);
      assert ms[..i + 1][..i] == ms[..i];
      if groups != [] && groups[|groups| - 1].key == key {
        var last := groups[|groups| - 1];
        groups := groups[..|groups| - 1] + [Group(last.key, last.matches + [m])];
      } else {
        groups := groups + [Group(key, [m])];
      }
      i := i + 1;
    }
    assert ms[..i] == ms;
    ChunkByIsChunking(ms);
  }

  /** A match whose label differs from the last group's key starts a group of its own. */
  lemma {:induction false} ChunkByStartsGroup(init: seq<Match>, m: Match)
    requires init == [] || ChunkBy(init)[|ChunkBy(init)| - 1].key != Label(m)
    ensures ChunkBy(init + [m]) == ChunkBy(init) + [Group(Label(m), [m])]
  {
    ChunkBySnoc(init, m);
  }

  /** Two matches with different labels form two groups. */
  lemma {:induction false} ChunkByPair(a: Match, b: Match)
    requires Label(a) != Label(b)
    ensures ChunkBy([a, b]) == [Group(Label(a), [a]), Group(Label(b), [b])]
  {
    ChunkByStartsGroup([], a);
    assert [] + [a] == [a];
    ChunkByStartsGroup([a], b);
    assert [a] + [b] == [a, b];
  }

  /** A run of equal labels that recurs later forms a group of its own: groups follow runs, not first occurrences. */
  lemma {:induction false} RecurringLeagueFormsNewGroup(a: Match, b: Match, a2: Match)
    requires Label(a) == Label(a2) && Label(a) != Label(b)
    ensures ChunkBy([a, b, a2]) == [Group(Label(a), [a]), Group(Label(b), [b]), Group(Label(a), [a2])]
  {
    var pair := [a, b];
    ChunkByPair(a, b);
    ChunkByStartsGroup(pair, a2);
    assert pair + [a2] == [a, b, a2];
  }

  // ------------------------------------------------------------ the window of leagues

  /**
   * The index of the first league shown: the scroll position, but never so
   * far that fewer than four leagues remain. Only defined for four or more
   * leagues; with fewer the page panics: at `len - 4` when overflow checks
   * are on, and otherwise at the slice, once the subtraction has wrapped.
   */
  function Offset(scroll: nat, groupCount: nat): (offset: nat)
    requires groupCount >= LeaguesPerScreen
    ensures offset <= scroll && offset + LeaguesPerScreen <= groupCount
    ensures offset == scroll || offset + LeaguesPerScreen == groupCount
  {
    if scroll < groupCount - LeaguesPerScreen then scroll else groupCount - LeaguesPerScreen
  }

  // ------------------------------------------------------------ layout of one screen

  /** `div_ceil(n, 5)`: the rows needed to hold `n` fixtures five to a row. */
  function RowCount(fixtures: nat): (rows: nat)
    ensures fixtures <= FixturesPerRow * rows < fixtures + FixturesPerRow
    ensures rows == 0 <==> fixtures == 0
  {
    (fixtures + FixturesPerRow - 1) / FixturesPerRow
  }

  /** Layout constraints, of which the model keeps only the two kinds used here. */
  datatype Constraint = Fill(weight: nat) | Percentage(percent: nat)

  /** A fixture block: the row of the league's vertical split and the column of that row's horizontal split it occupies. */
  datatype Cell = Cell(row: nat, column: nat)

  /** A league's area on screen: its row constraints and its fixture blocks in drawing order. */
  datatype LeagueLayout = LeagueLayout(rows: seq<Constraint>, blocks: seq<Cell>)

  /** One row of fixture blocks: the five inner columns of a seven-column split of row `row`. */
  function RowBlocks(row: nat): (cells: seq<Cell>)
    ensures |cells| == FixturesPerRow
    ensures forall k :: 0 <= k < |cells| ==> cells[k] == Cell(row, k + 1)
  {
    seq(FixturesPerRow, k requires 0 <= k => Cell(row, k + 1))
  }

  /** The fixture blocks of a league with `rows` rows: the inner rows 1..rows, each with its five inner columns. */
  function LeagueBlocks(rows: nat): seq<Cell>
  {
    if rows == 0 then [] else LeagueBlocks(rows - 1) + RowBlocks(rows)
  }

  /** Block `k` of a league sits in row `k / 5 + 1`, column `k % 5 + 1`: row-major, padding row and columns skipped. */
  lemma {:induction false} LeagueBlocksAt(rows: nat, k: nat)
    requires k < FixturesPerRow * rows
    ensures |LeagueBlocks(rows)| == FixturesPerRow * rows
    ensures LeagueBlocks(rows)[k] == Cell(k / FixturesPerRow + 1, k % FixturesPerRow + 1)
  {
    LeagueBlocksLength(rows - 1);
    if k < FixturesPerRow * (rows - 1) {
      LeagueBlocksAt(rows - 1, k);
    }
  }

  lemma {:induction false} LeagueBlocksLength(rows: nat)
    ensures |LeagueBlocks(rows)| == FixturesPerRow * rows
  {
    if rows > 0 {
      LeagueBlocksLength(rows - 1);
    }
  }

  /** A row split: a padding row on either side of `rows` rows of 80 / rows percent each. */
  function RowConstraints(rows: nat): (cs: seq<Constraint>)
    requires rows > 0
    ensures |cs| == rows + 2
    ensures cs[0] == Fill(1) && cs[rows + 1] == Fill(1)
    ensures forall i :: 1 <= i <= rows ==> cs[i] == Percentage(80 / rows)
  {
    [Fill(1)] + seq(rows, _ => Percentage(80 / rows)) + [Fill(1)]
  }

  /** The column split of every row: a 2% margin, five 20% columns, a 2% margin. */
  const ColumnConstraints: seq<Constraint> :=
    [Percentage(2)] + seq(FixturesPerRow, _ => Percentage(20)) + [Percentage(2)]

  /** The layout of a league with `fixtures` fixtures, as `calculate_loaded_layout` builds it. */
  function LeagueLayoutFor(fixtures: nat): (layout: LeagueLayout)
    requires fixtures > 0
    ensures |layout.rows| == RowCount(fixtures) + 2
    ensures |layout.blocks| == FixturesPerRow * RowCount(fixtures)
    ensures fixtures <= |layout.blocks| < fixtures + FixturesPerRow
  {
    LeagueBlocksLength(RowCount(fixtures));
    LeagueLayout(RowConstraints(RowCount(fixtures)), LeagueBlocks(RowCount(fixtures)))
  }

  /**
   * `calculate_loaded_layout`: for each of the four league areas, paired with
   * its fixture count, the row split and the fixture blocks that drop the
   * padding rows and padding columns. A count of zero would divide by zero.
   */
  method CalculateLoadedLayout(fixturesPerLeague: seq<nat>) returns (layouts: seq<LeagueLayout>)
    requires forall i :: 0 <= i < |fixturesPerLeague| && i < LeaguesPerScreen ==> fixturesPerLeague[i] > 0
    ensures |layouts| == if |fixturesPerLeague| < LeaguesPerScreen then |fixturesPerLeague| else LeaguesPerScreen
    ensures forall i :: 0 <= i < |layouts| ==> layouts[i] == LeagueLayoutFor(fixturesPerLeague[i])
  {
    // `zip` stops at the shorter of the four league areas and the counts
    var leagues := if |fixturesPerLeague| < LeaguesPerScreen then |fixturesPerLeague| else LeaguesPerScreen;
    layouts := [];
    var i := 0;
    while i < leagues
      invariant 0 <= i <= leagues
      invariant |layouts| == i
      invariant forall j :: 0 <= j < i ==> layouts[j] == LeagueLayoutFor(fixturesPerLeague[j])
    {
      var noRows := (fixturesPerLeague[i] + FixturesPerRow - 1) / FixturesPerRow;
      assert noRows == RowCount(fixturesPerLeague[i]) > 0;
      var a := seq(noRows, _ => Percentage(80 / noRows));
      a := [Fill(1)] + a;
      a := a + [Fill(1)];
      assert a == RowConstraints(noRows);
      var fbs: seq<Cell> := [];
      var row := 1;
      while row < |a| - 1
        invariant 1 <= row <= |a| - 1
        invariant fbs == LeagueBlocks(row - 1)
      {
        var l := seq(FixturesPerRow, _ => Percentage(20));
        l := [Percentage(2)] + l;
        l := l + [Percentage(2)];
        assert l == ColumnConstraints;
        // the split of `row` by `l` yields one area per constraint; the margins are dropped
        var fixtures := seq(|l|, column requires 0 <= column => Cell(row, column));
        assert fixtures[1..|fixtures| - 1] == RowBlocks(row);
        fbs := fbs + fixtures[1..|fixtures| - 1];
        row := row + 1;
      }
      layouts := layouts + [LeagueLayout(a, fbs)];
      i := i + 1;
    }
  }

  // ------------------------------------------------------------ the page

  /** The page title: the date, marked as today's when it is. */
  function Title(date: Date, today: Date): (title: string)
    ensures |title| >= 10
    ensures date == today <==> title[0] == 'T'
    ensures date == today ==> title[..7] == "Today (" && title[7..|title| - 1] == DateText(date) && title[|title| - 1] == ')'
    ensures date != today ==> title == DateText(date)
  {
    var text := DateText(date);
    if date == today then
      var title := "Today (" + text + ")";
      assert title[..7] == "Today (" && title[7..|title| - 1] == text;
      title
    else
      text
  }

  /** A league on screen: its label and its layout. */
  datatype LeagueView = LeagueView(key: string, layout: LeagueLayout)

  /** What the page shows for one date. */
  datatype LiveScoresView =
    | Loading(title: string)
    | Loaded(title: string, leagues: seq<LeagueView>)
      /**
       * Fewer than four leagues: the page panics before drawing anything, at
       * `len - 4` when overflow checks are on, and otherwise at the slice,
       * once the subtraction has wrapped.
       */
    | TooFewLeagues(groupCount: nat)

  /** The four leagues shown from `groups` when scrolled to `scroll`, each with the layout for its fixture count. */
  function Window(groups: seq<Group>, scroll: nat): (leagues: seq<LeagueView>)
    requires |groups| >= LeaguesPerScreen
    requires forall i :: 0 <= i < |groups| ==> groups[i].matches != []
    ensures |leagues| == LeaguesPerScreen
  {
    var offset := Offset(scroll, |groups|);
    seq(LeaguesPerScreen, i requires 0 <= i < LeaguesPerScreen =>
      LeagueView(groups[offset + i].key, LeagueLayoutFor(|groups[offset + i].matches|)))
  }

  /** The page for `date`, given what the cache holds for it, today's date and the scroll position. */
  function Screen(cached: Option<LiveScoresResponse>, date: Date, today: Date, scroll: nat): (view: LiveScoresView)
    ensures view.Loading? <==> cached.None?
    ensures view.Loading? ==> view.title == Title(date, today)
    ensures view.TooFewLeagues? <==> cached.Some? && |ChunkBy(cached.value.matches)| < LeaguesPerScreen
    ensures view.TooFewLeagues? ==> view.groupCount == |ChunkBy(cached.value.matches)|
    ensures view.Loaded? ==> view.title == Title(date, today) && |view.leagues| == LeaguesPerScreen
  {
    match cached
    case None => Loading(Title(date, today))
    case Some(response) =>
      var groups := ChunkBy(response.matches);
      if |groups| < LeaguesPerScreen then TooFewLeagues(|groups|)
      else
        ChunkByIsChunking(response.matches);
        Loaded(Title(date, today), Window(groups, scroll))
  }

  /**
   * A loaded window shows four consecutive leagues starting at the clamped
   * scroll offset, and gives each league one block per fixture plus fewer
   * than a row's worth of empty blocks.
   */
  lemma {:induction false} WindowShowsLeagues(groups: seq<Group>, scroll: nat, i: nat)
    requires |groups| >= LeaguesPerScreen && i < LeaguesPerScreen
    requires forall j :: 0 <= j < |groups| ==> groups[j].matches != []
    ensures var offset := Offset(scroll, |groups|);
      var league := Window(groups, scroll)[i];
      && league.key == groups[offset + i].key
      && |groups[offset + i].matches| <= |league.layout.blocks| < |groups[offset + i].matches| + FixturesPerRow
  {
    var offset := Offset(scroll, |groups|);
    var n := |groups[offset + i].matches|;
    assert Window(groups, scroll)[i] == LeagueView(groups[offset + i].key, LeagueLayoutFor(n));
    LeagueBlocksLength(RowCount(n));
  }

  /** The loaded branch of `draw`: the clamped slice of four leagues, laid out by their fixture counts. */
  method LayOutWindow(dataGrouped: seq<Group>, scroll: nat) returns (leagues: seq<LeagueView>)
    requires |dataGrouped| >= LeaguesPerScreen
    requires forall i :: 0 <= i < |dataGrouped| ==> dataGrouped[i].matches != []
    ensures leagues == Window(dataGrouped, scroll)
  {
    var offset := Offset(scroll, |dataGrouped|);
    var slice := dataGrouped[offset..offset + LeaguesPerScreen];
    var fixturesPerLeague := seq(|slice|, i requires 0 <= i < |slice| => |slice[i].matches|);
    var layouts := CalculateLoadedLayout(fixturesPerLeague);
    leagues := seq(|slice|, i requires 0 <= i < |slice| => LeagueView(slice[i].key, layouts[i]));
  }

  /**
   * `draw` for one date: a cache hit lays out the window of leagues, a miss
   * asks the fetch thread for the date once and shows the loading page.
   */
  method Draw(s: State, date: Date) returns (view: LiveScoresView)
    modifies s`requests
    ensures view == Screen(if date in s.data then Some(s.data[date]) else None,
                           date, s.today, s.liveScores.verticalScroll)
    ensures s.requests == if date in s.data then old(s.requests) else old(s.requests) + [date]
  {
    if date in s.data {
      var response := s.data[date];
      var dataGrouped := GroupMatches(response.matches);
      if |dataGrouped| < LeaguesPerScreen {
        return TooFewLeagues(|dataGrouped|);
      }
      var leagues := LayOutWindow(dataGrouped, s.liveScores.verticalScroll);
      var title := Title(date, s.today);
      view := Loaded(title, leagues);
    } else {
      s.FetchDataForDate(date);
      view := Loading(Title(date, s.today));
    }
  }
}
