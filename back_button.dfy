/** The hardware back button of the phone app: off the dashboard it goes
    to the dashboard; on the dashboard a second press within two seconds
    of the remembered one leaves the app, any other press shows a warning
    and is remembered. The clock reading is a parameter. */
module BackButton {

  /** Milliseconds within which a second press exits. */
  const ExitWindow: int := 2000

  const Dashboard: string := "/"

  datatype BackAction = ExitApp | ShowExitWarning | NavigateHome

  /** The listener's decision and the remembered press time afterwards,
      for a press at `now` on `path` when the last remembered press was at
      `last` (milliseconds). */
  function Step(path: string, now: int, last: int): (BackAction, int)
  {
    if path == Dashboard then
      if now - last < ExitWindow then (ExitApp, last) else (ShowExitWarning, now)
    else (NavigateHome, last)
  }

  /** Off the dashboard every press goes home and the remembered time stays. */
  lemma OtherPageGoesHome(path: string, now: int, last: int)
    requires path != Dashboard
    ensures Step(path, now, last) == (NavigateHome, last)
  {
  }

  /** On the dashboard a press exits exactly when it comes less than two
      seconds after the remembered one (a clock set back counts as soon);
      otherwise it warns and becomes the remembered press. */
  lemma DashboardPress(now: int, last: int)
    ensures Step(Dashboard, now, last).0 == ExitApp <==> now - last < ExitWindow
    ensures Step(Dashboard, now, last).0 != ExitApp ==>
      Step(Dashboard, now, last) == (ShowExitWarning, now)
    ensures now < last ==> Step(Dashboard, now, last).0 == ExitApp
  {
  }

  /** A warning followed by a press within two seconds exits; one two
      seconds or more later warns again. */
  lemma WarningThenPress(now: int, last: int, later: int)
    requires Step(Dashboard, now, last).0 == ShowExitWarning
    ensures var remembered := Step(Dashboard, now, last).1;
      && (later - now < ExitWindow ==> Step(Dashboard, later, remembered).0 == ExitApp)
      && (later - now >= ExitWindow ==> Step(Dashboard, later, remembered) == (ShowExitWarning, later))
  {
  }

  /** A single press never exits from the start state when the clock reads
      two seconds or more, as a wall clock does. */
  lemma FirstPressWarns(now: int)
    requires now >= ExitWindow
    ensures Step(Dashboard, now, 0) == (ShowExitWarning, now)
  {
  }

  /** The app's routing state and the `lastBackPressTime` ref. */
  class BackButtonListener {
    var path: string
    var lastBackPressTime: int
    var exited: bool

    constructor (start: string)
      ensures path == start && lastBackPressTime == 0 && !exited
    {
      path := start;
      lastBackPressTime := 0;
      exited := false;
    }

    /** One press of the back button at clock reading `now`. */
    method Press(now: int) returns (action: BackAction)
      requires !exited
      modifies this
      ensures (action, lastBackPressTime) == Step(old(path), now, old(lastBackPressTime))
      ensures action == NavigateHome ==> path == Dashboard
      ensures action != NavigateHome ==> path == old(path)
      ensures exited <==> action == ExitApp
    {
      if path == Dashboard {
        if now - lastBackPressTime < ExitWindow {
          action := ExitApp;
          exited := true;
        } else {
          lastBackPressTime := now;
          action := ShowExitWarning;
        }
      } else {
        action := NavigateHome;
        path := Dashboard;
      }
    }

    /** Navigation by the pages themselves. */
    method Navigate(to: string)
      modifies this`path
      ensures path == to
    {
      path := to;
    }
  }
}
