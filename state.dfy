/**
 * The dashboard's application state: which page is shown, how far the
 * live-scores page is scrolled, the quit and pop-up flags, today's date and
 * the redraw clock. The shared cache of fetched responses is a field that
 * these methods only read; the channel to the fetch thread is a ghost
 * sequence of the dates requested so far.
 */
module AppState {
  import opened Calendar
  import opened Types

  /** The largest `usize` (a 64-bit target). */
  const UsizeMax: nat := 0xFFFF_FFFF_FFFF_FFFF
  /** The redraw interval, 150 ms, in nanoseconds. */
  const TickRate: nat := 150_000_000

  datatype Page = Matches(date: Date) | MatchOverview

  /** `usize::saturating_add`: the sum, capped at the largest `usize`. */
  function SaturatingAdd(a: nat, b: nat): (r: nat)
    requires a <= UsizeMax && b <= UsizeMax
    ensures r <= UsizeMax && r <= a + b
    ensures r == a + b || r == UsizeMax
  {
    if a + b > UsizeMax then UsizeMax else a + b
  }

  /** `usize::saturating_sub`: the difference, or 0 when `b` exceeds `a`. */
  function SaturatingSub(a: nat, b: nat): (r: nat)
    ensures r <= a
    ensures r == a - b || (r == 0 && a < b)
  {
    if a < b then 0 else a - b
  }

  /** The live-scores page's own state (its loading spinner is not modelled). */
  class LiveScoresPageState {
    var verticalScroll: nat

    ghost predicate Valid()
      reads this
    {
      verticalScroll <= UsizeMax
    }

    /** `Default`: scrolled to the top. */
    constructor ()
      ensures Valid() && verticalScroll == 0
    {
      verticalScroll := 0;
    }

    method ResetScrollState()
      modifies this
      ensures Valid() && verticalScroll == 0
    {
      verticalScroll := 0;
    }
  }

  class State {
    /** The cache of responses by date, shared with the fetch thread; read here, never written. */
    var data: map<Date, LiveScoresResponse>
    const tickRate: nat
    /** When the screen was last redrawn, in nanoseconds of the wall clock. */
    var lastTick: int
    var currentPage: Page
    const liveScores: LiveScoresPageState
    var shouldQuit: bool
    /** Every date sent to the fetch thread, oldest first. */
    ghost var requests: seq<Date>
    var today: Date
    var showMetadataPopUp: bool

    /** The one invariant: the scroll position fits a `usize`; it depends on nothing but the page state. */
    ghost predicate Valid()
      reads liveScores
    {
      liveScores.Valid()
    }

    /** `State::new`, with the clock reading and today's date passed in. */
    constructor (data: map<Date, LiveScoresResponse>, today: Date, now: int)
      ensures Valid() && fresh(liveScores)
      ensures currentPage == Matches(today) && liveScores.verticalScroll == 0
      ensures !shouldQuit && !showMetadataPopUp
      ensures this.today == today && this.data == data
      ensures tickRate == TickRate && lastTick == now && requests == []
    {
      this.data := data;
      tickRate := TickRate;
      lastTick := now;
      currentPage := Matches(today);
      shouldQuit := false;
      liveScores := new LiveScoresPageState();
      requests := [];
      this.today := today;
      showMetadataPopUp := false;
    }

    /** One line down on the live-scores page; nothing on any other page. */
    method ScrollDown()
      requires Valid()
      modifies liveScores
      ensures Valid()
      ensures liveScores.verticalScroll ==
        if currentPage.Matches? then SaturatingAdd(old(liveScores.verticalScroll), 1)
        else old(liveScores.verticalScroll)
    {
      match currentPage
      case Matches(_) =>
        liveScores.verticalScroll := SaturatingAdd(liveScores.verticalScroll, 1);
      case MatchOverview =>
    }

    /** One line up on the live-scores page, never above the top; nothing on any other page. */
    method ScrollUp()
      requires Valid()
      modifies liveScores
      ensures Valid()
      ensures liveScores.verticalScroll ==
        if currentPage.Matches? then SaturatingSub(old(liveScores.verticalScroll), 1)
        else old(liveScores.verticalScroll)
    {
      match currentPage
      case Matches(_) =>
        liveScores.verticalScroll := SaturatingSub(liveScores.verticalScroll, 1);
      case MatchOverview =>
    }

    method ToggleMetadataPopUp()
      modifies this`showMetadataPopUp
      ensures showMetadataPopUp == !old(showMetadataPopUp)
    {
      showMetadataPopUp := !showMetadataPopUp;
    }

    /** Back to today's matches; the scroll position is kept. */
    method ResetToToday()
      modifies this`currentPage
      ensures currentPage == Matches(today)
    {
      currentPage := Matches(today);
    }

    /**
     * The previous day's matches, scrolled to the top; nothing on any other
     * page. Stepping below the earliest representable date panics.
     */
    method PreviousDay()
      requires Valid()
      requires currentPage.Matches? ==> currentPage.date > MinDay
      modifies this`currentPage, liveScores
      ensures Valid()
      ensures old(currentPage).Matches? ==>
        currentPage == Matches(old(currentPage).date - 1) && liveScores.verticalScroll == 0
      ensures old(currentPage).MatchOverview? ==>
        currentPage == old(currentPage) && liveScores.verticalScroll == old(liveScores.verticalScroll)
    {
      if !currentPage.Matches? {
        return;
      }
      var previous := currentPage.date - 1;
      currentPage := Matches(previous);
      liveScores.ResetScrollState();
    }

    /**
     * The next day's matches, scrolled to the top; nothing on any other page.
     * Stepping past the latest representable date panics.
     */
    method NextDay()
      requires Valid()
      requires currentPage.Matches? ==> currentPage.date < MaxDay
      modifies this`currentPage, liveScores
      ensures Valid()
      ensures old(currentPage).Matches? ==>
        currentPage == Matches(old(currentPage).date + 1) && liveScores.verticalScroll == 0
      ensures old(currentPage).MatchOverview? ==>
        currentPage == old(currentPage) && liveScores.verticalScroll == old(liveScores.verticalScroll)
    {
      if !currentPage.Matches? {
        return;
      }
      var next := currentPage.date + 1;
      currentPage := Matches(next);
      liveScores.ResetScrollState();
    }

    /**
     * True, and the clock restarted at `now`, once more than a tick has passed
     * since the last redraw. A clock reading earlier than the last redraw
     * panics (`elapsed().unwrap()`).
     */
    method ShouldDraw(now: int) returns (draw: bool)
      requires now >= lastTick
      modifies this`lastTick
      ensures draw <==> now - old(lastTick) > tickRate
      ensures lastTick == if draw then now else old(lastTick)
    {
      if now - lastTick > tickRate {
        lastTick := now;
        draw := true;
      } else {
        draw := false;
      }
    }

    /** Recomputes today's date from the wall clock, here passed in. */
    method OnTick(today: Date)
      modifies this`today
      ensures this.today == today
    {
      this.today := today;
    }

    /** Asks the fetch thread for `date`'s matches. */
    method FetchDataForDate(date: Date)
      modifies this`requests
      ensures requests == old(requests) + [date]
    {
      requests := requests + [date];
    }
  }

  /** A step forward and a step back return to the same day, scrolled to the top. */
  method NextDayThenPreviousDay(s: State)
    requires s.Valid() && s.currentPage.Matches? && s.currentPage.date < MaxDay
    modifies s`currentPage, s.liveScores
    ensures s.Valid()
    ensures s.currentPage == old(s.currentPage) && s.liveScores.verticalScroll == 0
  {
    s.NextDay();
    s.PreviousDay();
  }

  /** Toggling the pop-up twice leaves it as it was. */
  method ToggleMetadataPopUpTwice(s: State)
    modifies s`showMetadataPopUp
    ensures s.showMetadataPopUp == old(s.showMetadataPopUp)
  {
    s.ToggleMetadataPopUp();
    s.ToggleMetadataPopUp();
  }
}
