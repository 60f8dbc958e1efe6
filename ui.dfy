/**
 * Input handling and page dispatch: a key press sets the quit flag and, on
 * the live-scores page, moves between days; drawing shows the page of the
 * current date.
 */
module Ui {
  import opened Wrappers
  import opened Calendar
  import opened AppState
  import LiveScores

  /** A key code; every key that is not a character is `OtherKey`. */
  datatype KeyCode = Char(c: char) | OtherKey

  /** A terminal event; mouse, resize, focus and paste events are all `NonKey`. */
  datatype InputEvent = Key(code: KeyCode) | NonKey

  /**
   * `process_event`. Any key sets the quit flag to whether it was `q`; on the
   * live-scores page `n`, `p` and `t` go to the next day, the previous day and
   * today. The match-overview page is not implemented (`todo!()`), so the
   * page must be a live-scores page.
   */
  method ProcessEvent(event: InputEvent, s: State)
    requires s.Valid()
    requires s.currentPage.Matches?
    requires event == Key(Char('n')) ==> s.currentPage.date < MaxDay
    requires event == Key(Char('p')) ==> s.currentPage.date > MinDay
    modifies s`shouldQuit, s`currentPage, s.liveScores
    ensures s.Valid()
    ensures s.shouldQuit == if event.Key? then event.code == Char('q') else old(s.shouldQuit)
    ensures event == Key(Char('n')) ==>
      s.currentPage == Matches(old(s.currentPage).date + 1) && s.liveScores.verticalScroll == 0
    ensures event == Key(Char('p')) ==>
      s.currentPage == Matches(old(s.currentPage).date - 1) && s.liveScores.verticalScroll == 0
    ensures event == Key(Char('t')) ==>
      s.currentPage == Matches(s.today) && s.liveScores.verticalScroll == old(s.liveScores.verticalScroll)
    ensures event !in {Key(Char('n')), Key(Char('p')), Key(Char('t'))} ==>
      s.currentPage == old(s.currentPage) && s.liveScores.verticalScroll == old(s.liveScores.verticalScroll)
  {
    if event.Key? {
      s.shouldQuit := event.code == Char('q');
    }
    match s.currentPage {
      case Matches(_) =>
        if event.Key? {
          match event.code {
            case Char('n') => s.NextDay();
            case Char('p') => s.PreviousDay();
            case Char('t') => s.ResetToToday();
            case _ =>
          }
        }
    }
  }

  /** A non-key event changes nothing. */
  method NonKeyEventChangesNothing(s: State)
    requires s.Valid() && s.currentPage.Matches?
    modifies s`shouldQuit, s`currentPage, s.liveScores
    ensures s.shouldQuit == old(s.shouldQuit) && s.currentPage == old(s.currentPage)
    ensures s.liveScores.verticalScroll == old(s.liveScores.verticalScroll)
  {
    ProcessEvent(NonKey, s);
  }

  /**
   * `draw_page`: the live-scores page of exactly the current page's date. The
   * match-overview page is not implemented (`unimplemented!()`).
   */
  method DrawPage(s: State) returns (view: LiveScores.LiveScoresView)
    requires s.currentPage.Matches?
    modifies s`requests
    ensures var date := s.currentPage.date;
      && view == LiveScores.Screen(if date in s.data then Some(s.data[date]) else None,
                                   date, s.today, s.liveScores.verticalScroll)
      && s.requests == if date in s.data then old(s.requests) else old(s.requests) + [date]
  {
    match s.currentPage {
      case Matches(date) =>
        view := LiveScores.Draw(s, date);
    }
  }
}
