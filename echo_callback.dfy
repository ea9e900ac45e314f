/** `frontend/app/echo-callback/page.tsx`: after the Echo OAuth redirect,
    poll every 500 ms whether the SDK reports the user as authenticated;
    redirect to `/upload` half a second after it does, or at once after 30
    attempts.  The effect re-runs, with a fresh counter, whenever
    `isAuthenticated` changes; its interval callback sees the value of
    `isAuthenticated` from when it was created. */
module EchoCallback {

  const MaxAttempts: nat := 30
  const TickMs := 500
  const RedirectDelayMs := 500
  const CallbackPath := "/echo-callback"
  const UploadPath := "/upload"

  datatype Callback = Callback(
    authenticated: bool,     // `isAuthenticated` as captured by the current run
    hasChecked: bool,
    attempts: nat,           // the current run's `attempts`
    intervalActive: bool,
    urlResets: nat,          // `history.replaceState(…, '/echo-callback')` calls
    pendingRedirects: nat,   // `setTimeout(… router.replace('/upload'), 500)` not yet fired
    redirects: seq<string>)  // `router.replace` calls, in order

  /** A new effect run: the previous interval is cleared, a new one starts. */
  function StartRun(c: Callback, authenticated: bool): Callback {
    c.(authenticated := authenticated, attempts := 0, intervalActive := true)
  }

  function Init(authenticated: bool): Callback {
    StartRun(Callback(false, false, 0, false, 0, 0, []), authenticated)
  }

  /** One `checkAuth` tick: it counts an attempt; an authenticated run
      stops at once and schedules the delayed redirect, an unauthenticated
      one redirects at once on its 30th attempt; either way the URL is reset
      when the interval stops. */
  function Tick(c: Callback): (r: Callback)
    ensures !c.intervalActive ==> r == c
    ensures c.intervalActive ==> r.attempts == c.attempts + 1
    ensures r.intervalActive ==> !c.authenticated && r.attempts < MaxAttempts
    ensures c.intervalActive && !r.intervalActive ==> r.urlResets == c.urlResets + 1
    ensures c.intervalActive && c.authenticated ==>
      !r.intervalActive && r.pendingRedirects == c.pendingRedirects + 1 && r.redirects == c.redirects
    ensures r.redirects != c.redirects ==>
      !c.authenticated && c.attempts + 1 >= MaxAttempts && r.redirects == c.redirects + [UploadPath]
  {
    if !c.intervalActive then c
    else
      var attempts := c.attempts + 1;
      if c.authenticated then
        c.(attempts := attempts, hasChecked := true, intervalActive := false,
           urlResets := c.urlResets + 1, pendingRedirects := c.pendingRedirects + 1)
      else if attempts >= MaxAttempts then
        c.(attempts := attempts, intervalActive := false,
           urlResets := c.urlResets + 1, redirects := c.redirects + [UploadPath])
      else c.(attempts := attempts)
  }

  /** The delayed redirect fires (cleanup does not cancel it). */
  function RedirectTimer(c: Callback): (r: Callback)
    ensures c.pendingRedirects == 0 ==> r == c
    ensures c.pendingRedirects > 0 ==> r.redirects == c.redirects + [UploadPath]
    ensures |r.redirects| + r.pendingRedirects == |c.redirects| + c.pendingRedirects
    ensures r.(pendingRedirects := c.pendingRedirects, redirects := c.redirects) == c
  {
    if c.pendingRedirects == 0 then c
    else c.(pendingRedirects := c.pendingRedirects - 1, redirects := c.redirects + [UploadPath])
  }

  datatype Event = TickEvent | AuthChanged(authenticated: bool) | RedirectTimerEvent

  /** One event.  Navigation only ever appends a redirect to `/upload`,
      at most one per event, and the URL resets never decrease. */
  function Step(c: Callback, e: Event): (r: Callback)
    ensures r.redirects == c.redirects || r.redirects == c.redirects + [UploadPath]
    ensures r.urlResets >= c.urlResets
  {
    match e
    case TickEvent => Tick(c)
    case AuthChanged(a) => if a == c.authenticated then c else StartRun(c, a)
    case RedirectTimerEvent => RedirectTimer(c)
  }

  function Run(c: Callback, events: seq<Event>): Callback
    decreases |events|
  {
    if events == [] then c else Run(Step(c, events[0]), events[1..])
  }

  /** The counter never passes 30, a running interval has made fewer than
      30 attempts, and an authenticated run stops at its first tick. */
  ghost predicate Valid(c: Callback) {
    && c.attempts <= MaxAttempts
    && (c.intervalActive ==> c.attempts < MaxAttempts)
    && (c.authenticated && c.intervalActive ==> c.attempts == 0)
  }

  lemma {:induction false} RunValid(c: Callback, events: seq<Event>)
    requires Valid(c)
    ensures Valid(Run(c, events))
    decreases |events|
  {
    if events != [] {
      assert Valid(Step(c, events[0]));
      RunValid(Step(c, events[0]), events[1..]);
    }
  }

  /** Each effective tick first counts itself; if authenticated it marks the
      check done, stops the interval, resets the URL and schedules the
      redirect, and this wins over the timeout even on the thirtieth
      attempt; otherwise on the thirtieth attempt it stops, resets the URL
      and redirects at once, leaving `hasChecked` false. */
  lemma TickSpec(c: Callback)
    requires c.intervalActive
    ensures var d := Tick(c);
      && d.attempts == c.attempts + 1
      && (c.authenticated ==>
            d.hasChecked && !d.intervalActive && d.urlResets == c.urlResets + 1
            && d.pendingRedirects == c.pendingRedirects + 1 && d.redirects == c.redirects)
      && (!c.authenticated && c.attempts + 1 >= MaxAttempts ==>
            d.hasChecked == c.hasChecked && !d.intervalActive && d.urlResets == c.urlResets + 1
            && d.redirects == c.redirects + [UploadPath])
      && (!c.authenticated && c.attempts + 1 < MaxAttempts ==> d == c.(attempts := c.attempts + 1))
  {
  }

  function Ticks(n: nat): seq<Event> {
    seq(n, _ => TickEvent)
  }

  /** An unauthenticated run gives up after exactly 30 ticks with exactly one
      redirect; later ticks do nothing. */
  lemma {:induction false} Timeout(c: Callback, n: nat)
    requires c.intervalActive && !c.authenticated && c.attempts == 0
    ensures var d := Run(c, Ticks(n));
      && d.attempts == (if n < MaxAttempts then n else MaxAttempts)
      && d.intervalActive == (n < MaxAttempts)
      && d.redirects == c.redirects + (if n < MaxAttempts then [] else [UploadPath])
      && d.hasChecked == c.hasChecked
      && !d.authenticated
  {
    if n == 0 {
      assert Ticks(0) == [];
    } else {
      Timeout(c, n - 1);
      TicksSnoc(c, n - 1);
    }
  }

  lemma {:induction false} RunSnoc(c: Callback, events: seq<Event>, e: Event)
    ensures Run(c, events + [e]) == Step(Run(c, events), e)
    decreases |events|
  {
    if events != [] {
      assert (events + [e])[1..] == events[1..] + [e];
      RunSnoc(Step(c, events[0]), events[1..], e);
    }
  }

  lemma TicksSnoc(c: Callback, n: nat)
    ensures Run(c, Ticks(n + 1)) == Tick(Run(c, Ticks(n)))
  {
    assert Ticks(n + 1) == Ticks(n) + [TickEvent];
    RunSnoc(c, Ticks(n), TickEvent);
  }

  /** The status text. */
  function Text(c: Callback): (t: string)
    ensures t == "Connected! Redirecting..." <==> c.hasChecked
  {
    if c.hasChecked then "Connected! Redirecting..." else "Connecting Echo..."
  }

  class EchoCallbackPage {
    var authenticated: bool
    var hasChecked: bool
    var attempts: nat
    var intervalActive: bool
    var urlResets: nat
    var pendingRedirects: nat
    var redirects: seq<string>

    function Snapshot(): Callback
      reads this
    {
      Callback(authenticated, hasChecked, attempts, intervalActive, urlResets, pendingRedirects, redirects)
    }

    constructor (isAuthenticated: bool)
      ensures Snapshot() == Init(isAuthenticated)
    {
      authenticated, hasChecked, urlResets, pendingRedirects, redirects := false, false, 0, 0, [];
      attempts, intervalActive := 0, false;
      new;
      StartEffect(isAuthenticated);
    }

    method StartEffect(isAuthenticated: bool)
      modifies this
      ensures Snapshot() == StartRun(old(Snapshot()), isAuthenticated)
    {
      authenticated := isAuthenticated;
      attempts := 0;
      intervalActive := true;  // setInterval(checkAuth, 500)
    }

    /** `checkAuth`. */
    method CheckAuth()
      modifies this
      ensures Snapshot() == Tick(old(Snapshot()))
    {
      if !intervalActive {
        return;
      }
      attempts := attempts + 1;
      if authenticated {
        hasChecked := true;
        intervalActive := false;
        urlResets := urlResets + 1;
        pendingRedirects := pendingRedirects + 1;
      } else if attempts >= MaxAttempts {
        intervalActive := false;
        urlResets := urlResets + 1;
        redirects := redirects + [UploadPath];
      }
    }

    /** `isAuthenticated` changes: cleanup, then the effect runs again. */
    method AuthChanged(isAuthenticated: bool)
      modifies this
      ensures Snapshot() == Step(old(Snapshot()), Event.AuthChanged(isAuthenticated))
    {
      if isAuthenticated != authenticated {
        intervalActive := false;  // clearInterval(checkAuth)
        StartEffect(isAuthenticated);
      }
    }

    method RedirectTimerFires()
      modifies this
      ensures Snapshot() == RedirectTimer(old(Snapshot()))
    {
      if pendingRedirects > 0 {
        pendingRedirects := pendingRedirects - 1;
        redirects := redirects + [UploadPath];
      }
    }
  }
}
