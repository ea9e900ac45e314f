/** The demo analysis flow of `frontend/app/upload/page.tsx`: the mascot
    welcome, the preview, the simulated upload with its five-second minimum
    wait, the results with the mascot's comment, and the read-aloud toggle.

    `fetch`, the clock, timers and speech synthesis are the environment:
    each answer, timer expiry or speech callback is an event. */
module UploadPage {
  import opened Wrappers
  import opened Analysis

  const MinimumWaitMs := 5000
  const MascotFadeMs := 700
  const DemoImage := "/demo/room.jpg"
  const AnalyzeFallback := "Failed to analyze image"
  const DemoLoadPrefix := "Failed to load demo data: "
  const PlayFailed := "Failed to play audio"
  const AudioFallback := "Failed to generate audio"
  const HybridWidth := 1170
  const HybridHeight := 1463


  // ---------------------------------------------------------------------
  // Pure helpers

  /** `Math.max(0, 5000 - elapsed)`: the least non-negative wait that
      brings the total to at least five seconds. */
  function RemainingTime(elapsed: int): (w: int)
    ensures 0 <= w && elapsed + w >= MinimumWaitMs
    ensures w > 0 ==> elapsed + w == MinimumWaitMs
  {
    if 5000 - elapsed > 0 then 5000 - elapsed else 0
  }

  /** The wait is never negative, never more than five seconds for a
      non-negative elapsed time, zero exactly once five seconds have passed,
      and always makes the total at least five seconds. */
  lemma RemainingTimeSpec(elapsed: int)
    ensures 0 <= RemainingTime(elapsed)
    ensures elapsed >= 0 ==> RemainingTime(elapsed) <= MinimumWaitMs
    ensures RemainingTime(elapsed) == 0 <==> elapsed >= MinimumWaitMs
    ensures elapsed + RemainingTime(elapsed) >= MinimumWaitMs
    ensures elapsed < MinimumWaitMs ==> elapsed + RemainingTime(elapsed) == MinimumWaitMs
  {
  }

  const CommentFallback := "Every space can be improved - let's start fresh!"

  /** The comments for the scores 10 down to 2. */
  const Comments: seq<string> := [
    "Absolutely perfect! Your space radiates pure harmony!",
    "Amazing energy flow - you've mastered feng shui!",
    "Wonderful balance! Your space feels truly harmonious.",
    "Great work! Just a few tweaks for perfection.",
    "You're on the right track! Let's enhance this energy.",
    "There's potential here - let's unlock it together!",
    "Don't worry, we can improve this with some changes!",
    "Your space needs attention, but I'm here to help!",
    "Let's work together to transform this energy!"]

  /** `getMascotComment`: scores are JavaScript numbers compared with `===`. */
  function MascotComment(score: real): (c: string)
    ensures c in Comments || c == CommentFallback
  {
    if score == 10.0 then Comments[0]
    else if score == 9.0 then Comments[1]
    else if score == 8.0 then Comments[2]
    else if score == 7.0 then Comments[3]
    else if score == 6.0 then Comments[4]
    else if score == 5.0 then Comments[5]
    else if score == 4.0 then Comments[6]
    else if score == 3.0 then Comments[7]
    else if score == 2.0 then Comments[8]
    else CommentFallback
  }

  /** The scores with their own comment: the whole numbers 2 to 10. */
  predicate HasOwnComment(score: real) {
    score == score.Floor as real && 2.0 <= score <= 10.0
  }

  /** Every whole score from 2 to 10 gets its own message, distinct from all
      others and from the fallback; every other number (1, 11, 7.5,
      negative) gets the fallback. */
  lemma MascotCommentSpec(score: real, other: real)
    ensures HasOwnComment(score) ==> MascotComment(score) == Comments[10 - score.Floor]
    ensures MascotComment(score) == CommentFallback <==> !HasOwnComment(score)
    ensures HasOwnComment(score) && HasOwnComment(other) && score != other ==>
              MascotComment(score) != MascotComment(other)
  {
    var f := score.Floor;
    if HasOwnComment(score) {
      assert 2 <= f <= 10;
      assert score == f as real;
    } else if 2.0 <= score <= 10.0 {
      assert score != f as real;
    }
  }

  const VictoryMascot := "/victory_good_mascot.png"
  const PointingMascot := "/mascot_pointing_1.png"

  /** `getMascotImage`: the victory image from 7 up. */
  function MascotImage(score: real): (img: string)
    ensures img == VictoryMascot <==> score >= 7.0
    ensures img == PointingMascot <==> score < 7.0
  {
    if score >= 7.0 then VictoryMascot else PointingMascot
  }

  // ---------------------------------------------------------------------
  // Page state

  /** An error value thrown in the page: an `Error` with its message, or
      any other thrown value. */
  datatype Thrown = ErrorObject(message: string) | NonError

  /** The answer to `fetch("/demo/response.json")` and its parse. */
  datatype Answer = Data(data: AnalysisResult) | NotOk(statusText: string) | Threw(error: Thrown)

  /** Where `handleUpload` is: idle, awaiting the fetch (started at
      `start` ms), or awaiting the minimum-wait timer with the data. */
  datatype Upload = Idle | Fetching(start: int) | Waiting(data: AnalysisResult, wait: int)

  datatype Page = Page(
    preview: Option<string>,
    loading: bool,
    result: Option<AnalysisResult>,
    error: Option<string>,
    showMascotWelcome: bool,
    mascotFadingOut: bool,
    mascotTimer: bool,
    playing: bool,
    upload: Upload)

  const Init := Page(None, false, None, None, true, false, false, false, Idle)

  function Message(t: Thrown, fallback: string): string {
    match t
    case ErrorObject(m) => m
    case NonError => fallback
  }

  // ---- handleUpload

  /** The start of `handleUpload`: loading on, error and result cleared,
      the fetch under way; the preview, the mascot and the audio are kept. */
  function StartUpload(p: Page, now: int): (s: Page)
    ensures s.loading && s.error == None && s.result == None && s.upload == Fetching(now)
    ensures s.preview == p.preview && s.showMascotWelcome == p.showMascotWelcome && s.playing == p.playing
  {
    p.(loading := true, error := None, result := None, upload := Fetching(now))
  }

  /** The fetch settles: data waits out the rest of the five seconds with
      `loading` still on; a failure ends at once with a message.  Neither
      sets the result, and an answer nobody awaits changes nothing. */
  function Answered(p: Page, a: Answer, now: int): (s: Page)
    ensures !p.upload.Fetching? ==> s == p
    ensures s.result == p.result
    ensures p.upload.Fetching? && a.Data? ==>
      s.upload.Waiting? && s.upload.data == a.data && s.loading == p.loading && s.error == p.error
      && now - p.upload.start + s.upload.wait >= MinimumWaitMs
    ensures p.upload.Fetching? && !a.Data? ==> !s.loading && s.upload == Idle && s.error.Some?
  {
    if !p.upload.Fetching? then p
    else match a
      case Data(d) => p.(upload := Waiting(d, RemainingTime(now - p.upload.start)))
      case NotOk(text) => p.(error := Some(DemoLoadPrefix + text), loading := false, upload := Idle)
      case Threw(t) => p.(error := Some(Message(t, AnalyzeFallback)), loading := false, upload := Idle)
  }

  /** The minimum-wait timer fires: the awaited data becomes the result
      and loading ends. */
  function WaitOver(p: Page): (s: Page)
    ensures !p.upload.Waiting? ==> s == p
    ensures p.upload.Waiting? ==>
      s.result == Some(p.upload.data) && !s.loading && s.upload == Idle && s.error == p.error
  {
    if !p.upload.Waiting? then p
    else p.(result := Some(p.upload.data), loading := false, upload := Idle)
  }

  /** At the start the flags are reset; a failure ends with the message
      and no result; a success ends, after the wait, with the data and no
      error; both end with `loading` false. */
  lemma UploadSpec(p: Page, now: int, a: Answer, later: int)
    ensures var s := StartUpload(p, now);
      s.loading && s.error == None && s.result == None
    ensures var s := Answered(StartUpload(p, now), a, later);
      match a
      case Data(d) =>
        s.loading && s.result == None && s.error == None
        && s.upload == Waiting(d, RemainingTime(later - now))
        && var f := WaitOver(s); !f.loading && f.result == Some(d) && f.error == None
      case NotOk(text) =>
        !s.loading && s.result == None && s.error == Some(DemoLoadPrefix + text)
      case Threw(t) =>
        !s.loading && s.result == None
        && s.error == Some(if t.ErrorObject? then t.message else AnalyzeFallback)
  {
  }

  // ---- handleContinueFromMascot

  /** `handleContinueFromMascot`: the mascot starts fading out and the
      700 ms timer is armed; nothing else changes. */
  function Continue(p: Page): (q: Page)
    ensures q.mascotFadingOut && q.mascotTimer
    ensures q.(mascotFadingOut := p.mascotFadingOut, mascotTimer := p.mascotTimer) == p
  {
    p.(mascotFadingOut := true, mascotTimer := true)
  }

  /** The timer of `handleContinueFromMascot`: the welcome goes away and the
      demo photo becomes the preview, so with no upload or result under way
      the preview panel is what shows next.  Without a pending timer nothing
      happens. */
  function MascotTimerFires(p: Page): (q: Page)
    ensures !p.mascotTimer ==> q == p
    ensures p.mascotTimer ==> !q.mascotTimer && !q.showMascotWelcome && q.preview == Some(DemoImage)
    ensures q.loading == p.loading && q.result == p.result && q.error == p.error && q.playing == p.playing
    ensures p.mascotTimer && !p.loading && p.result.None? ==> PreviewShown(q) && !WelcomeShown(q)
  {
    if !p.mascotTimer then p
    else p.(showMascotWelcome := false, preview := Some(DemoImage), mascotTimer := false)
  }

  // ---- handlePlayAudio

  /** The play button; `speakThrows` is what constructing and speaking the
      utterance throws, if anything. */
  function PressAudio(p: Page, speakThrows: Option<Thrown>): (q: Page)
    ensures q.result == p.result && q.preview == p.preview && q.loading == p.loading
    ensures q.playing ==> p.playing || (speakThrows.None? && p.result.Some? && Truthy(p.result.value.overallAnalysis))
    ensures q.error != p.error ==> speakThrows.Some? && q.error.Some? && !q.playing
  {
    if p.result.None? || !Truthy(p.result.value.overallAnalysis) then p
    else if p.playing then p.(playing := false)
    else match speakThrows
      case None => p.(playing := true)
      case Some(t) => p.(playing := false, error := Some(Message(t, AudioFallback)))
  }

  /** `utterance.onend`: only the playing flag drops. */
  function SpeechEnded(p: Page): (q: Page)
    ensures !q.playing && q.(playing := p.playing) == p
  {
    p.(playing := false)
  }

  /** `utterance.onerror`: the flag drops and a non-empty message is shown;
      nothing else changes. */
  function SpeechFailed(p: Page): (q: Page)
    ensures !q.playing && Truthy(q.error)
    ensures q.(playing := p.playing, error := p.error) == p
  {
    p.(playing := false, error := Some(PlayFailed))
  }

  /** With nothing to read the button does nothing; pressing it while
      playing stops; pressing it otherwise starts playing unless speaking
      throws; the end or an error of the speech clears the flag, and an
      error also reports itself. */
  lemma AudioSpec(p: Page, speakThrows: Option<Thrown>)
    ensures p.result.None? || !Truthy(p.result.value.overallAnalysis) ==> PressAudio(p, speakThrows) == p
    ensures p.result.Some? && Truthy(p.result.value.overallAnalysis) ==>
      var q := PressAudio(p, speakThrows);
      && q.playing == (!p.playing && speakThrows.None?)
      && (p.playing || speakThrows.None? ==> q.error == p.error)
      && (!p.playing && speakThrows.Some? ==> q.error.Some?)
    ensures !SpeechEnded(p).playing && SpeechEnded(p).error == p.error
    ensures !SpeechFailed(p).playing && SpeechFailed(p).error == Some(PlayFailed)
  {
  }

  // ---------------------------------------------------------------------
  // Rendering

  /** The four step panels.  Each excludes the ones after it, so at most
      one shows at a time. */
  predicate WelcomeShown(p: Page)
    ensures WelcomeShown(p) ==> !PreviewShown(p) && !LoadingShown(p) && !ResultsShown(p)
  {
    p.showMascotWelcome && !Truthy(p.preview) && !p.loading && p.result.None?
  }

  predicate PreviewShown(p: Page)
    ensures PreviewShown(p) ==> !LoadingShown(p) && !ResultsShown(p)
  {
    Truthy(p.preview) && !p.loading && p.result.None?
  }

  predicate LoadingShown(p: Page)
    ensures LoadingShown(p) ==> !ResultsShown(p)
  {
    p.loading && Truthy(p.preview)
  }

  /** In every consistent state a result always shows: the `!loading` test
      is redundant, since a result only exists once the upload is over. */
  predicate ResultsShown(p: Page)
    ensures Valid(p) ==> (ResultsShown(p) <==> p.result.Some?)
  {
    p.result.Some? && !p.loading
  }

  /** The step panels shown, in page order. */
  function VisiblePanels(p: Page): (panels: seq<string>)
    ensures |panels| <= 1
    ensures "welcome" in panels <==> WelcomeShown(p)
    ensures "preview" in panels <==> PreviewShown(p)
    ensures "loading" in panels <==> LoadingShown(p)
    ensures "results" in panels <==> ResultsShown(p)
  {
    (if WelcomeShown(p) then ["welcome"] else []) +
    (if PreviewShown(p) then ["preview"] else []) +
    (if LoadingShown(p) then ["loading"] else []) +
    (if ResultsShown(p) then ["results"] else [])
  }

  /** The props the results panel gives `HybridViewer`, when it shows one. */
  datatype HybridProps = HybridProps(imageUrl: string, tooltips: seq<Tooltip>, modelId: Option<string>,
                                     imageWidth: int, imageHeight: int)

  /** `result.tooltips.length > 0 && preview && <HybridViewer …>`, with
      `modelId = result.model_3d?.model_id || null`. */
  function HybridViewerProps(result: AnalysisResult, preview: Option<string>): (h: Option<HybridProps>)
    ensures h.Some? <==> |result.tooltips| > 0 && Truthy(preview)
    ensures h.Some? ==> h.value.imageUrl == preview.value && h.value.tooltips == result.tooltips
    ensures h.Some? ==> (h.value.modelId.Some? <==> result.model3d.Some? && Truthy(result.model3d.value.modelId))
    ensures h.Some? && h.value.modelId.Some? ==> h.value.modelId == result.model3d.value.modelId
    ensures h.Some? ==> h.value.imageWidth == HybridWidth && h.value.imageHeight == HybridHeight
  {
    if |result.tooltips| > 0 && Truthy(preview) then
      var id := if result.model3d.Some? && Truthy(result.model3d.value.modelId)
                then result.model3d.value.modelId else None;
      Some(HybridProps(preview.value, result.tooltips, id, HybridWidth, HybridHeight))
    else None
  }

  // ---------------------------------------------------------------------
  // The flow

  datatype Event =
    | ClickContinue | MascotTimer | ClickAnalyze(now: int) | FetchAnswer(answer: Answer, now: int)
    | WaitTimer | ClickAudio(speakThrows: Option<Thrown>) | SpeechEnd | SpeechError

  function Step(p: Page, e: Event): Page {
    match e
    case ClickContinue => Continue(p)
    case MascotTimer => MascotTimerFires(p)
    case ClickAnalyze(now) => StartUpload(p, now)
    case FetchAnswer(a, now) => Answered(p, a, now)
    case WaitTimer => WaitOver(p)
    case ClickAudio(t) => PressAudio(p, t)
    case SpeechEnd => SpeechEnded(p)
    case SpeechError => SpeechFailed(p)
  }

  function Run(p: Page, events: seq<Event>): Page
    decreases |events|
  {
    if events == [] then p else Run(Step(p, events[0]), events[1..])
  }

  /** `loading` is set exactly while an upload is in progress, and a result
      is never shown together with an upload in progress. */
  ghost predicate Valid(p: Page) {
    (p.loading <==> !p.upload.Idle?) && (p.result.Some? ==> p.upload.Idle?)
  }

  lemma {:induction false} RunValid(p: Page, events: seq<Event>)
    requires Valid(p)
    ensures Valid(Run(p, events))
    decreases |events|
  {
    if events != [] {
      assert Valid(Step(p, events[0]));
      RunValid(Step(p, events[0]), events[1..]);
    }
  }

  /** The demo path: continue, the fade-out timer, analyse, a successful
      answer, the wait; the results panel is then the only one shown. */
  lemma DemoPath(d: AnalysisResult, t0: int, t1: int)
    ensures var p := Run(Init, [ClickContinue, MascotTimer, ClickAnalyze(t0), FetchAnswer(Data(d), t1), WaitTimer]);
      && p.preview == Some(DemoImage) && p.result == Some(d) && !p.loading && p.error == None
      && VisiblePanels(p) == ["results"]
  {
    var p1 := Step(Init, ClickContinue);
    var p2 := Step(p1, MascotTimer);
    assert WelcomeShown(Init) && PreviewShown(p2);
    var p3 := Step(p2, ClickAnalyze(t0));
    assert LoadingShown(p3);
    var p4 := Step(p3, FetchAnswer(Data(d), t1));
    var p5 := Step(p4, WaitTimer);
    var es := [ClickContinue, MascotTimer, ClickAnalyze(t0), FetchAnswer(Data(d), t1), WaitTimer];
    assert Run(Init, es) == Run(p1, es[1..]);
    assert Run(p1, es[1..]) == Run(p2, es[2..]);
    assert Run(p2, es[2..]) == Run(p3, es[3..]);
    assert Run(p3, es[3..]) == Run(p4, es[4..]);
    assert Run(p4, es[4..]) == Run(p5, []);
  }

  class UploadFlow {
    var preview: Option<string>
    var loading: bool
    var result: Option<AnalysisResult>
    var error: Option<string>
    var showMascotWelcome: bool
    var mascotFadingOut: bool
    var mascotTimer: bool
    var playing: bool
    var upload: Upload

    function Snapshot(): Page
      reads this
    {
      Page(preview, loading, result, error, showMascotWelcome, mascotFadingOut, mascotTimer, playing, upload)
    }

    constructor ()
      ensures Snapshot() == Init
    {
      preview, loading, result, error := None, false, None, None;
      showMascotWelcome, mascotFadingOut, mascotTimer, playing := true, false, false, false;
      upload := Idle;
    }

    /** `handleUpload` up to its first `await`. */
    method HandleUpload(now: int)
      modifies this
      ensures Snapshot() == StartUpload(old(Snapshot()), now)
    {
      loading := true;
      error := None;
      result := None;
      upload := Fetching(now);  // startTime = Date.now()
    }

    /** The fetch and its parse settle at time `now`. */
    method UploadAnswered(a: Answer, now: int)
      modifies this
      ensures Snapshot() == Answered(old(Snapshot()), a, now)
    {
      if !upload.Fetching? {
        return;
      }
      match a {
        case Data(d) =>
          var elapsed := now - upload.start;
          var remainingTime := RemainingTime(elapsed);
          upload := Waiting(d, remainingTime);
        case NotOk(text) =>
          error := Some(DemoLoadPrefix + text);  // thrown and caught
          loading := false;                       // finally
          upload := Idle;
        case Threw(t) =>
          error := Some(Message(t, AnalyzeFallback));
          loading := false;
          upload := Idle;
      }
    }

    /** The minimum-wait timer expires. */
    method UploadWaitOver()
      modifies this
      ensures Snapshot() == WaitOver(old(Snapshot()))
    {
      if upload.Waiting? {
        result := Some(upload.data);
        loading := false;
        upload := Idle;
      }
    }

    method HandleContinueFromMascot()
      modifies this
      ensures Snapshot() == Continue(old(Snapshot()))
    {
      mascotFadingOut := true;
      mascotTimer := true;
    }

    method MascotFadeDone()
      modifies this
      ensures Snapshot() == MascotTimerFires(old(Snapshot()))
    {
      if mascotTimer {
        showMascotWelcome := false;
        preview := Some(DemoImage);
        mascotTimer := false;
      }
    }

    method HandlePlayAudio(speakThrows: Option<Thrown>)
      modifies this
      ensures Snapshot() == PressAudio(old(Snapshot()), speakThrows)
    {
      if result.None? || !Truthy(result.value.overallAnalysis) {
        return;
      }
      if playing {
        playing := false;  // speechSynthesis.cancel()
        return;
      }
      playing := true;
      if speakThrows.Some? {
        playing := false;
        error := Some(Message(speakThrows.value, AudioFallback));
      }
    }

    method OnSpeechEnd()
      modifies this
      ensures Snapshot() == SpeechEnded(old(Snapshot()))
    {
      playing := false;
    }

    method OnSpeechError()
      modifies this
      ensures Snapshot() == SpeechFailed(old(Snapshot()))
    {
      playing := false;
      error := Some(PlayFailed);
    }
  }
}
