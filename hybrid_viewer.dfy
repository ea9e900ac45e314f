/** The simulated model loader, the 2D/3D view switch and the render gates of
    `frontend/components/HybridViewer.tsx`.

    The load effect does not poll: with a `modelId` it sets `'processing'` and
    starts a 2000 ms timer that installs a fixed demo URL and `'completed'`; its
    cleanup clears that timer.  A view-mode change fades out and, 500 ms later,
    sets the mode and fades in; those timers are never cleared, and they fire
    in the order they were started.  Timer expiries are events. */
module HybridViewer {
  import opened Wrappers

  const DemoModelUrl: string := "https://raw.githubusercontent.com/RomanSlack/fengshui.ai/demo/frontend/public/demo/model.fbx"
  const LoadDelayMs: nat := 2000
  const FadeDelayMs: nat := 500

  datatype ViewMode = TwoD | ThreeD
  datatype ModelStatus = Pending | Processing | Completed | Failed

  datatype Hybrid = Hybrid(
    modelId: Option<string>,
    viewMode: ViewMode,
    fadeIn: bool,
    status: ModelStatus,
    modelUrl: Option<string>,
    error: Option<string>,
    mounted: bool,
    loadTimer: bool,            // the current run's `loadTimer` is pending
    modeTimers: seq<ViewMode>)  // pending fade timers, in firing order

  datatype Event =
    | ChangeModelId(id: Option<string>)
    | LoadTimerFires
    | RequestMode(mode: ViewMode)
    | ModeTimerFires
    | Unmount

  /** One run of the load effect: a null or empty `modelId` returns early;
      a URL installed by an earlier load is not cleared. */
  function StartLoad(h: Hybrid, id: Option<string>): (r: Hybrid)
    ensures r.modelId == id
    ensures Truthy(id) ==> r.status == Processing && r.loadTimer
    ensures !Truthy(id) ==> r.status == h.status && r.loadTimer == h.loadTimer
    ensures r.viewMode == h.viewMode && r.modelUrl == h.modelUrl && r.error == h.error
    ensures r.mounted == h.mounted && r.modeTimers == h.modeTimers && r.fadeIn == h.fadeIn
  {
    var q := h.(modelId := id);
    if !Truthy(id) then q else q.(status := Processing, loadTimer := true)
  }

  /** First render state, then the two mount effects (fade-in and load). */
  function Init(id: Option<string>): Hybrid {
    StartLoad(Hybrid(None, TwoD, true, Pending, None, None, true, false, []), id)
  }

  /** One event.  No event sets an error, the only URL ever installed is
      the demo URL, and the status only moves to `Processing` or `Completed`. */
  function Step(h: Hybrid, e: Event): (r: Hybrid)
    ensures r.error == h.error
    ensures r.modelUrl != h.modelUrl ==> r.modelUrl == Some(DemoModelUrl)
    ensures r.status != h.status ==> r.status == Processing || r.status == Completed
    ensures r.mounted ==> h.mounted
  {
    match e
    case ChangeModelId(id) =>
      if id == h.modelId || !h.mounted then h else StartLoad(h.(loadTimer := false), id)
    case LoadTimerFires =>
      if h.loadTimer then h.(modelUrl := Some(DemoModelUrl), status := Completed, loadTimer := false) else h
    case RequestMode(m) =>
      if h.mounted then h.(fadeIn := false, modeTimers := h.modeTimers + [m]) else h
    case ModeTimerFires =>
      if h.modeTimers == [] then h
      else if h.mounted then h.(viewMode := h.modeTimers[0], fadeIn := true, modeTimers := h.modeTimers[1..])
      else h.(modeTimers := h.modeTimers[1..])
    case Unmount => h.(mounted := false, loadTimer := false)
  }

  function Run(h: Hybrid, events: seq<Event>): Hybrid
    decreases |events|
  {
    if events == [] then h else Run(Step(h, events[0]), events[1..])
  }

  /** The invariant of every reachable state: this component never fails,
      never sets an error, and only ever shows the demo URL. */
  ghost predicate Valid(h: Hybrid) {
    && h.status != Failed
    && h.error == None
    && (h.modelUrl.Some? ==> h.modelUrl == Some(DemoModelUrl))
    && (h.status == Completed ==> h.modelUrl.Some?)
    && (h.loadTimer ==> h.mounted && Truthy(h.modelId) && h.status == Processing)
  }

  lemma {:induction false} RunValid(id: Option<string>, events: seq<Event>)
    ensures Valid(Run(Init(id), events))
  {
    RunPreservesValid(Init(id), events);
  }

  lemma {:induction false} RunPreservesValid(h: Hybrid, events: seq<Event>)
    requires Valid(h)
    ensures Valid(Run(h, events))
    decreases |events|
  {
    if events != [] {
      RunPreservesValid(Step(h, events[0]), events[1..]);
    }
  }

  /** Status only ever moves to `Processing` (a new `modelId`) or from
      `Processing` to `Completed` (the load timer); `Pending` is never re-entered. */
  lemma StatusTransitions(h: Hybrid, e: Event)
    requires Valid(h)
    ensures var s := Step(h, e).status;
      s == h.status || s == Processing || (h.status == Processing && s == Completed)
  {
  }

  /** `modelStatus === 'completed' && modelUrl`.  In every reachable state
      the URL test is redundant: completion always comes with the demo URL. */
  predicate Is3DAvailable(h: Hybrid)
    ensures Valid(h) ==> (Is3DAvailable(h) <==> h.status == Completed)
  {
    h.status == Completed && Truthy(h.modelUrl)
  }

  /** The 3D button: absent without a truthy `modelId`, otherwise `Some(disabled)`. */
  function ThreeDButton(h: Hybrid): (b: Option<bool>)
    ensures b.None? <==> !Truthy(h.modelId)
    ensures b.Some? ==> (b.value <==> !Is3DAvailable(h))
  {
    if !Truthy(h.modelId) then None else Some(!Is3DAvailable(h))
  }

  /** The overlays of the 3D stage, one per status that has one. */
  datatype Overlay = Initializing | Generating | GenerationFailed(message: string)

  /** The content area: the 2D energy map, or the 3D stage with its overlay
      and, once a model is available, the viewer loading `viewerUrl`. */
  datatype Area = EnergyMap | Stage(overlay: Option<Overlay>, viewerUrl: Option<string>)

  const DefaultErrorMessage: string := "An error occurred during generation"

  function Content(h: Hybrid): (c: Area)
    ensures c.EnergyMap? <==> h.viewMode == TwoD
    ensures c.Stage? ==> (c.overlay.None? <==> h.status == Completed)
    ensures c.Stage? ==> (c.viewerUrl.Some? <==> Is3DAvailable(h))
  {
    if h.viewMode == TwoD then EnergyMap
    else
      var overlay := match h.status {
        case Pending => Some(Initializing)
        case Processing => Some(Generating)
        case Failed => Some(GenerationFailed(if Truthy(h.error) then h.error.value else DefaultErrorMessage))
        case Completed => None
      };
      Stage(overlay, if h.status == Completed && Truthy(h.modelUrl) then h.modelUrl else None)
  }

  /** The viewer only ever appears on a bare stage, never under an overlay,
      and always with a non-empty URL. */
  predicate ViewerShown(h: Hybrid)
    ensures ViewerShown(h) ==> Content(h).Stage? && Content(h).overlay.None? && Truthy(Content(h).viewerUrl)
  {
    Content(h).Stage? && Content(h).viewerUrl.Some?
  }

  /** The download link below the content area, as its `href`: present
      exactly in 3D mode with an available model, and always the model's
      own URL. */
  function DownloadLink(h: Hybrid): (d: Option<string>)
    ensures d.Some? <==> h.viewMode == ThreeD && Is3DAvailable(h)
    ensures d.Some? ==> d == h.modelUrl
  {
    if h.viewMode == ThreeD && h.status == Completed && Truthy(h.modelUrl) then h.modelUrl else None
  }

  /** The tip only shows over the 2D map, next to a 3D button that is
      present but disabled. */
  predicate TipShown(h: Hybrid)
    ensures TipShown(h) ==> Content(h).EnergyMap? && ThreeDButton(h) == Some(true)
  {
    h.viewMode == TwoD && Truthy(h.modelId) && !Is3DAvailable(h) && h.status != Failed
  }

  /** The viewer (inside the 3D branch) and the download link (gated on its
      own) appear together, for the same URL, exactly in 3D mode with an
      available model; the tip never appears beside them. */
  lemma RenderGates(h: Hybrid)
    ensures ViewerShown(h) <==> h.viewMode == ThreeD && Is3DAvailable(h)
    ensures DownloadLink(h).Some? <==> ViewerShown(h)
    ensures ViewerShown(h) ==> DownloadLink(h) == Content(h).viewerUrl == h.modelUrl
    ensures ViewerShown(h) ==> !TipShown(h)
  {
  }

  /** In every reachable state the tip's `'failed'` test is redundant, and
      the 3D stage never shows the failure overlay. */
  lemma TipInReachableStates(h: Hybrid)
    requires Valid(h)
    ensures TipShown(h) <==> h.viewMode == TwoD && Truthy(h.modelId) && !Is3DAvailable(h)
    ensures Content(h).Stage? ==> Content(h).overlay.None? || !Content(h).overlay.value.GenerationFailed?
  {
  }

  /** Without a truthy `modelId` (null or empty): no timer, `'pending'`, no
      URL, no 3D button, and a late load timer changes nothing. */
  lemma NullModelId(id: Option<string>)
    requires !Truthy(id)
    ensures var h := Init(id);
      !h.loadTimer && h.status == Pending && h.modelUrl == None && ThreeDButton(h) == None
      && h.viewMode == TwoD && !TipShown(h)
    ensures Step(Init(id), LoadTimerFires) == Init(id)
  {
  }

  /** With a non-empty `modelId`: `'processing'` at once, then the demo URL
      and `'completed'` when the timer fires. */
  lemma SimulatedLoad(id: string)
    ensures id != "" ==>
      Init(Some(id)).status == Processing && Init(Some(id)).viewMode == TwoD && TipShown(Init(Some(id)))
    ensures id != "" ==>
      var h := Step(Init(Some(id)), LoadTimerFires);
      h.status == Completed && h.modelUrl == Some(DemoModelUrl) && Is3DAvailable(h) && !TipShown(h)
  {
  }

  /** A cleared timer never completes: after the `modelId` goes away or the
      component unmounts, a late expiry changes nothing. */
  lemma StaleTimerIgnored(h: Hybrid)
    requires Valid(h) && h.modelId.Some?
    ensures var q := Step(h, ChangeModelId(None)); Step(q, LoadTimerFires) == q
    ensures var q := Step(h, Unmount); Step(q, LoadTimerFires) == q
  {
  }

  /** A mode change fades out at once and, when its timer fires, sets the
      requested mode and fades back in. */
  lemma ModeChange(h: Hybrid, m: ViewMode)
    requires h.mounted && h.modeTimers == []
    ensures !Step(h, RequestMode(m)).fadeIn
    ensures var q := Run(h, [RequestMode(m), ModeTimerFires]);
      q.viewMode == m && q.fadeIn && q.modeTimers == []
  {
    var q1 := Step(h, RequestMode(m));
    assert Run(h, [RequestMode(m), ModeTimerFires]) == Run(q1, [ModeTimerFires]);
  }

  /** The component's state, updated in place by its effects and handlers. */
  class HybridViewerComponent {
    var modelId: Option<string>
    var viewMode: ViewMode
    var fadeIn: bool
    var status: ModelStatus
    var modelUrl: Option<string>
    var error: Option<string>
    var mounted: bool
    var loadTimer: bool
    var modeTimers: seq<ViewMode>

    function Snapshot(): Hybrid
      reads this
    {
      Hybrid(modelId, viewMode, fadeIn, status, modelUrl, error, mounted, loadTimer, modeTimers)
    }

    constructor (id: Option<string>)
      ensures Snapshot() == Init(id)
    {
      modelId, viewMode, fadeIn, status := None, TwoD, false, Pending;
      modelUrl, error, mounted, loadTimer, modeTimers := None, None, true, false, [];
      new;
      fadeIn := true;
      RunLoadEffect(id);
    }

    method RunLoadEffect(id: Option<string>)
      modifies this
      ensures Snapshot() == StartLoad(old(Snapshot()), id)
    {
      modelId := id;
      if Truthy(id) {
        status := Processing;
        loadTimer := true;
      }
    }

    method ChangeModelId(id: Option<string>)
      modifies this
      ensures Snapshot() == Step(old(Snapshot()), Event.ChangeModelId(id))
    {
      if id != modelId && mounted {
        loadTimer := false;  // clearTimeout(loadTimer)
        RunLoadEffect(id);
      }
    }

    method LoadTimerFires()
      modifies this
      ensures Snapshot() == Step(old(Snapshot()), Event.LoadTimerFires)
    {
      if loadTimer {
        modelUrl := Some(DemoModelUrl);
        status := Completed;
        loadTimer := false;
      }
    }

    method RequestMode(mode: ViewMode)
      modifies this
      ensures Snapshot() == Step(old(Snapshot()), Event.RequestMode(mode))
    {
      if mounted {
        fadeIn := false;
        modeTimers := modeTimers + [mode];
      }
    }

    method ModeTimerFires()
      modifies this
      ensures Snapshot() == Step(old(Snapshot()), Event.ModeTimerFires)
    {
      if modeTimers != [] {
        if mounted {
          viewMode := modeTimers[0];
          fadeIn := true;
        }
        modeTimers := modeTimers[1..];
      }
    }

    method Unmount()
      modifies this
      ensures Snapshot() == Step(old(Snapshot()), Event.Unmount)
    {
      mounted := false;
      loadTimer := false;
    }
  }
}
