/** The model-job status poller of `frontend/components/Embedded3DViewer.tsx`.

    The component's `useEffect` is an event-driven state machine: mounting or a
    change of `modelId` starts an effect run (an immediate status check plus a
    2000 ms interval), each interval tick issues another check, each HTTP
    response may update `status`, `modelUrl` and `error`, a terminal response
    clears the interval, and the cleanup flips the run's `isActive` flag and
    clears its interval.  Timers and `fetch` are events here: `Tick` is one
    firing of the interval, `Respond(run, result)` is the settlement of a check
    issued by effect run `run`. */
module StatusPoller {
  import opened Wrappers
  import Config

  const PollIntervalMs: nat := 2000
  const ServerBase: string := "http://localhost:8000"
  const FailedFallback: string := "Model generation failed"
  const FailedViewFallback: string := "An error occurred during generation"

  /** The URL each status check fetches. */
  function StatusUrl(modelId: string): string { ServerBase + "/models/status/" + modelId }

  /** The URL a completed job's file is served from. */
  function FileUrl(filename: string): string { ServerBase + "/models/" + filename }

  /** The component hard-codes the same URLs that the configuration module
      builds from its default base. */
  lemma UrlsMatchDefaultConfig(modelId: string, filename: string)
    ensures StatusUrl(modelId) == Config.ModelStatus(Config.ApiUrl(None), modelId)
    ensures FileUrl(filename) == Config.ModelDownload(Config.ApiUrl(None), filename)
  {
  }

  /** ... and only then: the configured status URL is the hard-coded one
      exactly when the configured base is `http://localhost:8000`, that is
      when the variable is unset, empty or set to that very value. */
  lemma UrlsMatchConfigExactly(env: Option<string>, modelId: string)
    ensures StatusUrl(modelId) == Config.ModelStatus(Config.ApiUrl(env), modelId) <==> Config.ApiUrl(env) == ServerBase
    ensures Config.ApiUrl(env) == ServerBase <==> env.None? || env.value == "" || env.value == ServerBase
  {
    var base := Config.ApiUrl(env);
    var url := Config.ModelStatus(base, modelId);
    if StatusUrl(modelId) == url {
      assert url == base + (Config.ModelStatusPath + modelId);
      assert StatusUrl(modelId) == ServerBase + (Config.ModelStatusPath + modelId);
      assert |base| == |ServerBase|;
      assert base == url[..|base|];
      assert ServerBase == StatusUrl(modelId)[..|ServerBase|];
    }
  }


  /** The parsed JSON body of a status response; `status` is whatever string
      the server sent. */
  datatype StatusData = StatusData(status: string, filename: Option<string>, error: Option<string>)

  /** How one status check settles. */
  datatype PollResult =
    | HttpError          // `!response.ok`
    | NetworkError       // `fetch` or `response.json()` threw
    | Body(data: StatusData)

  /** A status check that was issued, tagged with the effect run that issued it. */
  datatype Request = Request(run: nat, url: string)

  datatype Poller = Poller(
    modelId: Option<string>,
    status: string,
    modelUrl: Option<string>,
    error: Option<string>,
    run: nat,          // number of the current effect run
    active: bool,      // `isActive` of the current effect run
    polling: bool,     // the current run's `interval` is set
    requests: seq<Request>)

  datatype Event = Tick | Respond(run: nat, result: PollResult) | ChangeModelId(id: Option<string>) | Unmount

  ghost predicate Valid(p: Poller) {
    && (p.polling ==> p.active)
    && (p.active ==> Truthy(p.modelId))
    && forall i :: 0 <= i < |p.requests| ==> p.requests[i].run <= p.run
  }

  /** An effect run: with a truthy `modelId`, check at once and start the
      interval; `null` and `""` return early. */
  function Start(p: Poller, id: Option<string>): (r: Poller)
    ensures r.run == p.run + 1 && r.modelId == id
    ensures r.status == p.status && r.modelUrl == p.modelUrl && r.error == p.error
    ensures Truthy(id) ==> r.active && r.polling && r.requests == p.requests + [Request(r.run, StatusUrl(id.value))]
    ensures !Truthy(id) ==> r.active == p.active && r.polling == p.polling && r.requests == p.requests
  {
    var q := p.(modelId := id, run := p.run + 1);
    if !Truthy(id) then q
    else q.(active := true, polling := true, requests := q.requests + [Request(q.run, StatusUrl(id.value))])
  }

  /** The effect cleanup: `isActive = false` and the interval cleared. */
  function Cleanup(p: Poller): (r: Poller)
    ensures !r.active && !r.polling
    ensures r.(active := p.active, polling := p.polling) == p
    ensures Render(r) == Render(p)
  {
    p.(active := false, polling := false)
  }

  /** Mounting: the initial state (`'pending'`, no URL, no error) and the first effect run. */
  function Init(id: Option<string>): Poller {
    Start(Poller(None, "pending", None, None, 0, false, false, []), id)
  }

  /** Only a completed or failed answer ends the polling; every failed
      answer does, a completed one only when it names a file. */
  predicate Terminal(d: StatusData)
    ensures Terminal(d) ==> d.status == "completed" || d.status == "failed"
    ensures d.status == "failed" ==> Terminal(d)
    ensures d.status == "completed" ==> (Terminal(d) <==> Truthy(d.filename))
  {
    (d.status == "completed" && Truthy(d.filename)) || d.status == "failed"
  }

  /** What an accepted response body does to the state: the status is
      copied, a terminal answer stops the interval, the URL changes only to
      the file of a completed job and the error only to a non-empty message
      of a failed one. */
  function Accept(p: Poller, d: StatusData): (r: Poller)
    ensures r.status == d.status
    ensures r.modelId == p.modelId && r.run == p.run && r.active == p.active && r.requests == p.requests
    ensures r.polling <==> p.polling && !Terminal(d)
    ensures r.modelUrl != p.modelUrl ==>
      d.status == "completed" && Truthy(d.filename) && r.modelUrl == Some(FileUrl(d.filename.value))
    ensures r.error != p.error ==> d.status == "failed" && r.error.Some? && r.error.value != ""
  {
    var q := p.(status := d.status);
    if d.status == "completed" && Truthy(d.filename) then
      q.(modelUrl := Some(FileUrl(d.filename.value)), polling := false)
    else if d.status == "failed" then
      q.(error := Some(if Truthy(d.error) then d.error.value else FailedFallback), polling := false)
    else q
  }

  /** One event.  Checks are only ever appended, at most one per event,
      and a new check belongs to the current run and needs the interval. */
  function Step(p: Poller, e: Event): (r: Poller)
    ensures |p.requests| <= |r.requests| <= |p.requests| + 1 && r.requests[..|p.requests|] == p.requests
    ensures r.run == p.run || r.run == p.run + 1
    ensures |r.requests| > |p.requests| ==> r.requests[|p.requests|].run == r.run && r.polling
  {
    match e
    case Tick =>
      if p.polling && Truthy(p.modelId) then p.(requests := p.requests + [Request(p.run, StatusUrl(p.modelId.value))])
      else p
    case Respond(r, result) =>
      if r == p.run && p.active && result.Body? then Accept(p, result.data) else p
    case ChangeModelId(id) =>
      if id == p.modelId then p else Start(Cleanup(p), id)
    case Unmount => Cleanup(p)
  }

  function Run(p: Poller, events: seq<Event>): Poller
    decreases |events|
  {
    if events == [] then p else Run(Step(p, events[0]), events[1..])
  }

  lemma StepValid(p: Poller, e: Event)
    requires Valid(p)
    ensures Valid(Step(p, e))
  {
  }

  lemma {:induction false} RunValid(p: Poller, events: seq<Event>)
    requires Valid(p)
    ensures Valid(Run(p, events))
    decreases |events|
  {
    if events != [] {
      StepValid(p, events[0]);
      RunValid(Step(p, events[0]), events[1..]);
    }
  }

  /** What the component renders. */
  datatype View = Hidden | Initializing | Generating | FailedView(message: string) | ModelView(url: string) | Blank

  function Render(p: Poller): (v: View)
    ensures v == Hidden <==> !Truthy(p.modelId)
    ensures v.ModelView? <==> Truthy(p.modelId) && p.status == "completed" && p.modelUrl.Some?
    ensures v.FailedView? ==> v.message != ""
  {
    if !Truthy(p.modelId) then Hidden
    else if p.status == "pending" then Initializing
    else if p.status == "processing" then Generating
    else if p.status == "failed" then FailedView(if Truthy(p.error) then p.error.value else FailedViewFallback)
    else if p.status == "completed" && p.modelUrl.Some? then ModelView(p.modelUrl.value)
    else Blank
  }

  /** With a null or empty `modelId` nothing is polled and nothing is
      rendered, on mount and after a change to it. */
  lemma NullModelIdDoesNothing(id: Option<string>, p: Poller)
    requires !Truthy(id) && Valid(p)
    ensures !Init(id).polling && !Init(id).active && Init(id).requests == []
    ensures Render(Init(id)) == Hidden
    ensures forall r, res :: Step(Init(id), Respond(r, res)) == Init(id)
    ensures Step(Init(id), Tick) == Init(id)
    ensures var q := Step(p, ChangeModelId(id));
      !q.polling && !q.active && q.requests == p.requests && Render(q) == Hidden
  {
  }

  /** Mounting with a non-empty `modelId` issues one check at once and
      starts the interval. */
  lemma MountChecks(id: string)
    ensures id != "" ==> Init(Some(id)).requests == [Request(1, StatusUrl(id))] && Init(Some(id)).polling
  {
  }

  /** While the interval is set, every tick issues one more check for the
      current run and id. */
  lemma ChecksIssued(p: Poller)
    requires Valid(p) && p.polling
    ensures Step(p, Tick).requests == p.requests + [Request(p.run, StatusUrl(p.modelId.value))]
  {
  }

  /** Every accepted response copies its status unvalidated, whatever the string. */
  lemma AcceptedStatusCopied(p: Poller, d: StatusData)
    requires p.active
    ensures Step(p, Respond(p.run, Body(d))).status == d.status
  {
  }

  /** `completed` with a filename sets the URL and stops polling; without a
      filename only the status changes and polling goes on. */
  lemma CompletedResponse(p: Poller, filename: Option<string>, err: Option<string>)
    requires p.active
    ensures var q := Step(p, Respond(p.run, Body(StatusData("completed", filename, err))));
      && (Truthy(filename) ==> q.modelUrl == Some(FileUrl(filename.value)) && !q.polling)
      && (!Truthy(filename) ==> q.modelUrl == p.modelUrl && q.polling == p.polling)
      && q.error == p.error && q.status == "completed"
  {
  }

  /** `failed` sets the server's error, or the fallback when it is absent or
      empty, and stops polling; the URL is untouched. */
  lemma FailedResponse(p: Poller, filename: Option<string>, err: Option<string>)
    requires p.active
    ensures var q := Step(p, Respond(p.run, Body(StatusData("failed", filename, err))));
      && q.error == Some(if Truthy(err) then err.value else FailedFallback)
      && q.error.value != ""
      && !q.polling && q.modelUrl == p.modelUrl && q.status == "failed"
  {
  }

  /** Transport failures change nothing, so polling continues. */
  lemma TransportErrorsIgnored(p: Poller, r: nat)
    ensures Step(p, Respond(r, HttpError)) == p
    ensures Step(p, Respond(r, NetworkError)) == p
  {
  }

  /** Stopping prevents future ticks only: a response to a check already in
      flight is still applied while the run is active. */
  lemma StoppedRunStillAccepts(p: Poller, d: StatusData)
    requires p.active && !p.polling
    ensures Step(p, Tick) == p
    ensures Step(p, Respond(p.run, Body(d))).status == d.status
  {
  }

  /** Changing `modelId` starts a new run; responses to the old run's checks
      change nothing afterwards.  The old status, URL and error are kept
      (the component does not reset them). */
  lemma ChangeIsolatesOldRun(p: Poller, id: Option<string>, d: StatusData)
    requires Valid(p) && id != p.modelId
    ensures var q := Step(p, ChangeModelId(id));
      && q.run == p.run + 1
      && Step(q, Respond(p.run, Body(d))) == q
      && q.status == p.status && q.modelUrl == p.modelUrl && q.error == p.error
  {
  }

  /** Events the outside world can deliver once the component is torn down. */
  predicate LateEvent(e: Event) { e.Tick? || e.Respond? }

  /** After cleanup no sequence of ticks and responses changes anything. */
  lemma {:induction false} AfterUnmountNothingChanges(p: Poller, events: seq<Event>)
    requires forall i :: 0 <= i < |events| ==> LateEvent(events[i])
    ensures Run(Cleanup(p), events) == Cleanup(p)
    decreases |events|
  {
    if events != [] {
      assert LateEvent(events[0]);
      assert Step(Cleanup(p), events[0]) == Cleanup(p);
      AfterUnmountNothingChanges(p, events[1..]);
    }
  }

  /** Once a run has stopped polling, ticks issue no more checks, however many fire. */
  lemma {:induction false} StoppedRunIssuesNothing(p: Poller, events: seq<Event>)
    requires !p.polling
    requires forall i :: 0 <= i < |events| ==> LateEvent(events[i])
    ensures Run(p, events).requests == p.requests
    ensures !Run(p, events).polling
    decreases |events|
  {
    if events != [] {
      assert LateEvent(events[0]);
      StoppedRunIssuesNothing(Step(p, events[0]), events[1..]);
    }
  }

  /** The component's state, updated in place by its handlers. */
  class Embedded3DViewer {
    var modelId: Option<string>
    var status: string
    var modelUrl: Option<string>
    var error: Option<string>
    var run: nat
    var active: bool
    var polling: bool
    var requests: seq<Request>

    function Snapshot(): Poller
      reads this
    {
      Poller(modelId, status, modelUrl, error, run, active, polling, requests)
    }

    /** Mount with the given `modelId`. */
    constructor (id: Option<string>)
      ensures Snapshot() == Init(id)
    {
      modelId, status, modelUrl, error := None, "pending", None, None;
      run, active, polling, requests := 0, false, false, [];
      new;
      StartRun(id);
    }

    method StartRun(id: Option<string>)
      modifies this
      ensures Snapshot() == Start(old(Snapshot()), id)
    {
      modelId := id;
      run := run + 1;
      if Truthy(id) {
        active := true;
        requests := requests + [Request(run, StatusUrl(id.value))];  // checkStatus()
        polling := true;                                             // setInterval
      }
    }

    method Tick()
      modifies this
      ensures Snapshot() == Step(old(Snapshot()), Event.Tick)
    {
      if polling && Truthy(modelId) {
        requests := requests + [Request(run, StatusUrl(modelId.value))];
      }
    }

    method Respond(r: nat, result: PollResult)
      modifies this
      ensures Snapshot() == Step(old(Snapshot()), Event.Respond(r, result))
    {
      if !result.Body? {
        return;  // thrown before the `isActive` check; logged only
      }
      if r != run || !active {
        return;
      }
      var data := result.data;
      status := data.status;
      if data.status == "completed" && Truthy(data.filename) {
        modelUrl := Some(FileUrl(data.filename.value));
        polling := false;
      } else if data.status == "failed" {
        error := Some(if Truthy(data.error) then data.error.value else FailedFallback);
        polling := false;
      }
    }

    method RunCleanup()
      modifies this
      ensures Snapshot() == Cleanup(old(Snapshot()))
    {
      active := false;
      polling := false;
    }

    method ChangeModelId(id: Option<string>)
      modifies this
      ensures Snapshot() == Step(old(Snapshot()), Event.ChangeModelId(id))
    {
      if id != modelId {
        RunCleanup();
        StartRun(id);
      }
    }

    method Unmount()
      modifies this
      ensures Snapshot() == Step(old(Snapshot()), Event.Unmount)
    {
      RunCleanup();
    }
  }
}
