/**
 * The admin session: the application's authentication flag, the time of the
 * last user activity and the countdown shown in the navigation bar, with the
 * login form that opens the session.
 *
 * Time is a parameter: every operation takes the clock reading `now` in
 * milliseconds, as `Date.now()` would give it.
 */
module Session {
  import opened Base
  import Navbar

  /** `SESSION_TIMEOUT`: ten minutes in milliseconds. */
  const SessionTimeout: int := 10 * 60 * 1000

  /** The countdown's starting value: ten minutes in seconds. */
  const FullCountdown: nat := 600

  const IncorrectPassword: string := "Incorrect password"

  datatype SessionState = SessionState(authenticated: bool, lastActivity: int, timeLeft: nat)

  /** The state when the application starts at time `now`. */
  function Initial(now: int): (s: SessionState)
    ensures !s.authenticated && s.timeLeft == FullCountdown && s.lastActivity == now
  {
    SessionState(false, now, FullCountdown)
  }

  /** What one interval tick decides. */
  datatype TickOutcome = Expired | Countdown(seconds: nat)

  /** The tick's arithmetic: the remaining time is the timeout less the time
      since the last activity; none left expires the session, otherwise the
      countdown is the remaining time in whole seconds, rounded down. */
  function TickOutcomeAt(lastActivity: int, now: int): (o: TickOutcome)
    ensures o.Expired? <==> now - lastActivity >= SessionTimeout
    ensures o.Countdown? ==>
              o.seconds * 1000 <= SessionTimeout - (now - lastActivity) < o.seconds * 1000 + 1000
  {
    var remainingTime := SessionTimeout - (now - lastActivity);
    if remainingTime <= 0 then Expired else Countdown(remainingTime / 1000)
  }

  /** The interval body: it runs only while authenticated. */
  function AfterTick(s: SessionState, now: int): (s': SessionState)
    ensures s'.lastActivity == s.lastActivity
    ensures !s.authenticated ==> s' == s
    ensures s.authenticated ==> (s'.authenticated <==> now - s.lastActivity < SessionTimeout)
    ensures !s'.authenticated ==> s'.timeLeft == s.timeLeft
    ensures s'.authenticated ==>
              s'.timeLeft * 1000 <= SessionTimeout - (now - s.lastActivity) < s'.timeLeft * 1000 + 1000
  {
    if !s.authenticated then s
    else
      match TickOutcomeAt(s.lastActivity, now)
      case Expired => s.(authenticated := false)
      case Countdown(seconds) => s.(timeLeft := seconds)
  }

  /** `updateActivity`: records the time only while authenticated. */
  function AfterActivity(s: SessionState, now: int): (s': SessionState)
    ensures s'.authenticated == s.authenticated && s'.timeLeft == s.timeLeft
    ensures s.authenticated ==> s'.lastActivity == now
    ensures !s.authenticated ==> s' == s
  {
    if s.authenticated then s.(lastActivity := now) else s
  }

  /** The login form's submit: an exact match with the configured password
      (`None` when none is configured) opens the session and records the time;
      the countdown is left as it was. A mismatch changes nothing here. */
  function AfterLogin(s: SessionState, input: string, secret: Option<string>, now: int): (s': SessionState)
    ensures s'.timeLeft == s.timeLeft
  {
    if secret == Some(input) then s.(authenticated := true, lastActivity := now) else s
  }

  /** `handleLogout`. */
  function AfterLogout(s: SessionState): (s': SessionState)
    ensures !s'.authenticated && s'.timeLeft == FullCountdown && s'.lastActivity == s.lastActivity
  {
    s.(authenticated := false, timeLeft := FullCountdown)
  }

  /** What the application renders. */
  datatype Screen = LoginScreen | Shell(clock: string)

  function View(s: SessionState): (v: Screen)
    ensures v.LoginScreen? <==> !s.authenticated
  {
    if !s.authenticated then LoginScreen else Shell(Navbar.FormatTime(s.timeLeft))
  }

  /** The routed shell is reached only when authenticated, and the clock it
      shows reads back as the countdown. */
  lemma ShellShowsCountdown(s: SessionState)
    ensures View(s).Shell? ==> s.authenticated
    ensures View(s).Shell? ==> Navbar.ReadClock(View(s).clock) == Some(s.timeLeft)
  {
  }

  /** An event the application reacts to. Login is only offered on the login
      screen and logout only in the shell, so each is ignored in the other. */
  datatype Event = Tick(tickTime: int) | Activity(activityTime: int) | Login(input: string, loginTime: int) | Logout

  function Step(s: SessionState, e: Event, secret: Option<string>): (s': SessionState)
    ensures e.Login? && s.authenticated ==> s' == s
    ensures e.Logout? && !s.authenticated ==> s' == s
    ensures e.Logout? && s.authenticated ==> !s'.authenticated && s'.timeLeft == FullCountdown
  {
    match e
    case Tick(now) => AfterTick(s, now)
    case Activity(now) => AfterActivity(s, now)
    case Login(input, now) => if s.authenticated then s else AfterLogin(s, input, secret, now)
    case Logout => if s.authenticated then AfterLogout(s) else s
  }

  function Run(s: SessionState, events: seq<Event>, secret: Option<string>): SessionState
    decreases |events|
  {
    if |events| == 0 then s else Run(Step(s, events[0], secret), events[1..], secret)
  }

  predicate NoLogin(events: seq<Event>) {
    forall i :: 0 <= i < |events| ==> !events[i].Login?
  }

  /** Time of an event; logout carries none. */
  function EventTime(e: Event, otherwise: int): int {
    match e
    case Tick(t) => t
    case Activity(t) => t
    case Login(_, t) => t
    case Logout => otherwise
  }

  /** The events' times never go back and none is before `from`. */
  predicate Chronological(events: seq<Event>, from: int) {
    forall i :: 0 <= i < |events| ==>
      from <= EventTime(events[i], from) &&
      (forall j :: 0 <= j < i ==> EventTime(events[j], from) <= EventTime(events[i], from))
  }

  /** While no session is open, only a login changes anything: ticks and
      activity are ignored, so an expired session stays expired. */
  lemma {:induction false} LockedWithoutLogin(s: SessionState, events: seq<Event>, secret: Option<string>)
    requires !s.authenticated && NoLogin(events)
    ensures Run(s, events, secret) == s
    decreases |events|
  {
    if |events| > 0 {
      assert !events[0].Login?;
      assert Step(s, events[0], secret) == s;
      assert NoLogin(events[1..]) by {
        forall i | 0 <= i < |events[1..]| ensures !events[1..][i].Login? {
          assert events[1..][i] == events[i + 1];
        }
      }
      LockedWithoutLogin(s, events[1..], secret);
    }
  }

  /** With no password configured, no sequence of events opens the session. */
  lemma {:induction false} UnconfiguredLocks(s: SessionState, events: seq<Event>)
    requires !s.authenticated
    ensures !Run(s, events, None).authenticated
    decreases |events|
  {
    if |events| > 0 {
      var e := events[0];
      assert !Step(s, e, None).authenticated;
      UnconfiguredLocks(Step(s, e, None), events[1..]);
    }
  }

  /** The login submit opens the session exactly when the input equals the
      configured password; otherwise the state is untouched. */
  lemma LoginIffMatch(s: SessionState, input: string, secret: Option<string>, now: int)
    requires !s.authenticated
    ensures AfterLogin(s, input, secret, now).authenticated <==> secret == Some(input)
    ensures secret == Some(input) ==> AfterLogin(s, input, secret, now).lastActivity == now
    ensures secret != Some(input) ==> AfterLogin(s, input, secret, now) == s
  {
  }

  /** A countdown computed from an activity no later than `now` lies in 0..600. */
  lemma CountdownInWindow(lastActivity: int, now: int)
    requires lastActivity <= now
    ensures TickOutcomeAt(lastActivity, now).Countdown? ==>
              TickOutcomeAt(lastActivity, now).seconds <= FullCountdown
  {
  }

  /** With the last activity fixed, a later tick never shows more time left. */
  lemma TickMonotone(s: SessionState, t1: int, t2: int)
    requires s.authenticated && t1 <= t2
    requires AfterTick(s, t2).authenticated
    ensures AfterTick(s, t2).timeLeft <= AfterTick(s, t1).timeLeft
  {
  }

  /** Activity followed by a tick at the same moment shows the full countdown. */
  lemma ActivityRestartsCountdown(s: SessionState, now: int)
    requires s.authenticated
    ensures AfterTick(AfterActivity(s, now), now) == s.(lastActivity := now, timeLeft := FullCountdown)
  {
  }

  /** The countdown never exceeds ten minutes when events come in order. */
  lemma {:induction false} CountdownBounded(s: SessionState, events: seq<Event>, secret: Option<string>)
    requires s.timeLeft <= FullCountdown
    requires Chronological(events, s.lastActivity)
    ensures Run(s, events, secret).timeLeft <= FullCountdown
    decreases |events|
  {
    if |events| > 0 {
      var e := events[0];
      var s' := Step(s, e, secret);
      var t := EventTime(e, s.lastActivity);
      if e.Tick? {
        CountdownInWindow(s.lastActivity, t);
      }
      assert s'.lastActivity == s.lastActivity || s'.lastActivity == t;
      assert Chronological(events[1..], s'.lastActivity) by {
        forall i | 0 <= i < |events[1..]|
          ensures s'.lastActivity <= EventTime(events[1..][i], s'.lastActivity)
          ensures forall j :: 0 <= j < i ==>
                    EventTime(events[1..][j], s'.lastActivity) <= EventTime(events[1..][i], s'.lastActivity)
        {
          assert events[1..][i] == events[i + 1];
          ChronologicalAt(events, s.lastActivity, s'.lastActivity, i + 1);
        }
      }
      CountdownBounded(s', events[1..], secret);
    }
  }

  /** One later event of a chronological sequence, read from a new start that
      lies between the sequence's start and its first event's time. */
  lemma ChronologicalAt(events: seq<Event>, from: int, from': int, k: int)
    requires Chronological(events, from) && 0 < k < |events|
    requires from <= from' <= EventTime(events[0], from)
    ensures from' <= EventTime(events[k], from')
    ensures forall j :: 1 <= j < k ==> EventTime(events[j], from') <= EventTime(events[k], from')
  {
  }

  /** The application's session fields. */
  class SessionMonitor {
    var isAuthenticated: bool
    var lastActivity: int
    var timeLeft: nat

    function State(): SessionState
      reads this
    {
      SessionState(isAuthenticated, lastActivity, timeLeft)
    }

    constructor(now: int)
      ensures State() == Initial(now)
    {
      isAuthenticated := false;
      lastActivity := now;
      timeLeft := FullCountdown;
    }

    /** One run of the interval body at time `now`. */
    method Tick(now: int)
      modifies this
      ensures State() == AfterTick(old(State()), now)
    {
      if !isAuthenticated {
        return;
      }
      var timeSinceLastActivity := now - lastActivity;
      var remainingTime := SessionTimeout - timeSinceLastActivity;
      if remainingTime <= 0 {
        isAuthenticated := false;
      } else {
        timeLeft := remainingTime / 1000;
      }
    }

    /** `updateActivity`, called by the document listeners. */
    method Activity(now: int)
      modifies this
      ensures State() == AfterActivity(old(State()), now)
    {
      if isAuthenticated {
        lastActivity := now;
      }
    }

    /** What the login form does to the session on an exact match. */
    method Login(input: string, secret: Option<string>, now: int) returns (matched: bool)
      modifies this
      ensures matched <==> secret == Some(input)
      ensures State() == AfterLogin(old(State()), input, secret, now)
    {
      matched := secret == Some(input);
      if matched {
        isAuthenticated := true;
        lastActivity := now;
      }
    }

    /** `handleLogout`. */
    method Logout()
      modifies this
      ensures State() == AfterLogout(old(State()))
    {
      isAuthenticated := false;
      timeLeft := FullCountdown;
    }
  }

  /** The login form's own fields; the application renders a fresh one each
      time it shows the login screen. */
  class LoginForm {
    var password: string
    var error: string

    constructor()
      ensures password == "" && error == ""
    {
      password := "";
      error := "";
    }

    /** The password input's `onChange`. */
    method Type(text: string)
      modifies this
      ensures password == text && error == old(error)
    {
      password := text;
    }

    /** `handleSubmit`: the typed password is kept on either outcome. */
    method Submit(session: SessionMonitor, secret: Option<string>, now: int)
      modifies this, session
      ensures password == old(password)
      ensures error == if secret == Some(password) then "" else IncorrectPassword
      ensures session.State() == AfterLogin(old(session.State()), password, secret, now)
    {
      var matched := session.Login(password, secret, now);
      if matched {
        error := "";
      } else {
        error := IncorrectPassword;
      }
    }
  }
}
