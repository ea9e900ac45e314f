# fengshui.ai front-end core in Dafny

This project models the small pieces of logic inside the fengshui.ai web
front end, plus the `safe_filename` helper of the GLB server. Around them
are React, three.js, `fetch`, timers and auth SDKs, which are not modelled.
Each stateful React component is modelled twice over:

- a pure state machine: a state datatype, a `Step` function over events
  (timer ticks, fetch answers, handler calls, cleanups) and a `Run` over
  event sequences, with lemmas about reachable states;
- a class whose fields are the component's state and whose methods are its
  event handlers. Each method is proved to move the object exactly as
  `Step` does.

Pure helpers are functions with lemmas about them: endpoint builders,
normalised device coordinates (NDC), the filename sanitiser, the extension
classifier, score bands and the first-name chain. The one in-place array
pass in the source becomes an `array` method: the replacement of Phong
materials inside a multi-material mesh.

| file | models |
|---|---|
| `config.dfy` | `frontend/utils/config.ts`: API base URL and endpoint builders |
| `status_poller.dfy` | `frontend/components/Embedded3DViewer.tsx`: the model-job status poller |
| `hybrid_viewer.dfy` | `frontend/components/HybridViewer.tsx`: simulated model load, view-mode switching, render gates |
| `materials.dfy` | material normalisation passes of `ModelViewer.tsx` and `ModelViewer3DWithTooltips.tsx` |
| `tooltip_viewer.dfy` | `ModelViewer3DWithTooltips.tsx`: NDC projection, marker selection, the marker effect |
| `model_viewer.dfy` | `ModelViewer.tsx`: texture-URL rewrite, ngrok header, fetch cache, FBX blob effect, model choice |
| `visualization.dfy` | `frontend/components/FengShuiVisualization.tsx`: colours, per-tooltip groups, hover and overlay size |
| `upload_page.dfy` | `frontend/app/upload/page.tsx`: demo flow, minimum wait, mascot, audio toggle, panels |
| `glb_server.dfy` | `safe_filename` of `glb_server/server.py` |
| `model_uploader.dfy` | `frontend/components/ModelUploader.tsx`: extension classification |
| `circular_progress.dfy` | `frontend/components/CircularProgress.tsx`: offset arithmetic, colour and label bands |
| `echo_callback.dfy` | `frontend/app/echo-callback/page.tsx`: the bounded auth-wait interval |
| `auth_button.dfy` | `frontend/components/Auth0Button.tsx`: render priority and first-name fallback |
| `analysis.dfy`, `strings.dfy`, `wrappers.dfy` | shared records of the analysis response, string helpers, `Option` |

Some behaviour of the code that the model keeps as written:

- The poller does not stop on every `completed`. It stops only when the
  response also names a file. Without one it keeps polling and leaves the
  URL unchanged.
- The poller copies any status string it receives, not only the four
  known ones.
- The poller builds its URLs from a hard-coded `http://localhost:8000`,
  not from `config.ts`. `StatusPoller.UrlsMatchConfigExactly` shows the two
  agree exactly when the configured base is `http://localhost:8000`: the
  environment variable is unset, empty or set to that very value.
- A `modelId` of `""` counts as absent in both viewers, as JavaScript's
  `!modelId` does: nothing is fetched, no timer starts and no 3D button
  shows.
- The 3D tooltip viewer draws no markers, keeps no active-marker state and
  shows no detail cards. It hands the marker list to a callback, and
  nothing in the front end gates features behind a paywall.

## Model

| member | source | states |
|---|---|---|
| Config.ApiUrl | frontend/utils/config.ts:10-12 | the base is the environment value when set and non-empty, otherwise `http://localhost:8000`; it is never empty |
| Config.Analyze | frontend/utils/config.ts:18 | the analyze endpoint is the base followed directly by `/analyze/` |
| Config.TtsGenerate | frontend/utils/config.ts:19 | the speech endpoint is the base followed directly by `/tts/generate` |
| Config.ModelStatus | frontend/utils/config.ts:20 | the status URL is the base, then `/models/status/`, then the id, with nothing in between |
| Config.ModelDownload | frontend/utils/config.ts:21 | the download URL is the base, then `/models/`, then the file name, with nothing in between |
| Config.ParseModelStatus | frontend/utils/config.ts:20 | a recovered id only comes from a URL that begins with the base and the status prefix |
| Config.ModelStatusRoundTrip | frontend/utils/config.ts:20 | removing the fixed prefix from `modelStatus(id)` gives back `id` |
| Config.ParseModelStatusSound | frontend/utils/config.ts:20 | any URL the parser accepts is exactly `modelStatus` of the id it returns |
| Config.ModelStatusInjective | frontend/utils/config.ts:20 | distinct ids give distinct status URLs |
| Config.EndpointsShareBase | frontend/utils/config.ts:18-21 | all four endpoints begin with the same base string |
| StatusPoller.UrlsMatchDefaultConfig | frontend/components/Embedded3DViewer.tsx:45-59 | the hard-coded status and file URLs equal the config builders applied to the default base |
| StatusPoller.UrlsMatchConfigExactly | frontend/components/Embedded3DViewer.tsx:45 | the hard-coded status URL equals the configured one iff the configured base is `http://localhost:8000`, that is iff the variable is unset, empty or that value |
| StatusPoller.Start | frontend/components/Embedded3DViewer.tsx:34-86 | an effect run gets a new run number and keeps the shown status, URL and error; with a truthy id it issues exactly one check for that run and id and starts the interval, with a null or empty id it issues nothing |
| StatusPoller.Accept | frontend/components/Embedded3DViewer.tsx:53-75 | the status is copied; the interval stops iff the answer is terminal; the URL changes only to the file of a completed job, the error only to a non-empty message of a failed one |
| StatusPoller.Terminal | frontend/components/Embedded3DViewer.tsx:57-75 | only a completed or failed answer stops the interval; every failed one does, a completed one iff it names a file |
| StatusPoller.Cleanup | frontend/components/Embedded3DViewer.tsx:89-94 | the cleanup deactivates the run and stops the interval, changes nothing else and leaves the rendering as it was |
| StatusPoller.Step | frontend/components/Embedded3DViewer.tsx:34-95 | checks are only appended, at most one per event; a new check belongs to the current run and needs the interval; the run number grows by at most one |
| StatusPoller.StepValid | frontend/components/Embedded3DViewer.tsx:34-95 | every event keeps the poller invariant: polling implies active, active implies a `modelId`, and every request belongs to a run already started |
| StatusPoller.RunValid | frontend/components/Embedded3DViewer.tsx:34-95 | the poller invariant holds after any sequence of events |
| StatusPoller.Render | frontend/components/Embedded3DViewer.tsx:97-157 | nothing renders iff `modelId` is null or empty; the model view shows iff status is `completed` and a URL is set; a failure message is never empty |
| StatusPoller.NullModelIdDoesNothing | frontend/components/Embedded3DViewer.tsx:35-37 | with a null or empty `modelId` no request is issued, no interval runs, nothing renders, and ticks and responses change nothing; the same holds after a change to such an id |
| StatusPoller.MountChecks | frontend/components/Embedded3DViewer.tsx:83-86 | mounting with a non-empty id issues exactly one check, for that id in run 1, and starts the interval |
| StatusPoller.ChecksIssued | frontend/components/Embedded3DViewer.tsx:86 | while the interval is set, every tick issues one more check for the current run and id |
| StatusPoller.AcceptedStatusCopied | frontend/components/Embedded3DViewer.tsx:53-55 | an accepted response copies its status unvalidated |
| StatusPoller.CompletedResponse | frontend/components/Embedded3DViewer.tsx:57-66 | `completed` with a filename sets the file URL and stops polling; without one the URL and polling are unchanged |
| StatusPoller.FailedResponse | frontend/components/Embedded3DViewer.tsx:67-75 | `failed` sets the server error or `Model generation failed` and stops polling; the URL is unchanged |
| StatusPoller.TransportErrorsIgnored | frontend/components/Embedded3DViewer.tsx:47-49 | a non-OK answer or a thrown fetch changes no state, so polling goes on |
| StatusPoller.StoppedRunStillAccepts | frontend/components/Embedded3DViewer.tsx:53 | once polling has stopped, ticks do nothing, but a response in flight for the live run is still applied |
| StatusPoller.ChangeIsolatesOldRun | frontend/components/Embedded3DViewer.tsx:89-94 | after a `modelId` change a response from the old run is ignored, and status, URL and error are kept |
| StatusPoller.AfterUnmountNothingChanges | frontend/components/Embedded3DViewer.tsx:89-94 | after cleanup no tick or late response changes the state |
| StatusPoller.StoppedRunIssuesNothing | frontend/components/Embedded3DViewer.tsx:63-74 | a stopped poller issues no further requests and never resumes by itself |
| StatusPoller.Embedded3DViewer.constructor | frontend/components/Embedded3DViewer.tsx:19-37 | the mounted component is in the initial state of the effect for its `modelId`; a null or empty id starts nothing |
| StatusPoller.Embedded3DViewer.StartRun | frontend/components/Embedded3DViewer.tsx:34-86 | running the effect starts a new run; with a truthy `modelId` it issues an initial check and starts the interval |
| StatusPoller.Embedded3DViewer.Tick | frontend/components/Embedded3DViewer.tsx:86 | an interval tick moves the object as `Step` does on a tick |
| StatusPoller.Embedded3DViewer.Respond | frontend/components/Embedded3DViewer.tsx:43-80 | `checkStatus` finishing moves the object as `Step` does on that response |
| StatusPoller.Embedded3DViewer.RunCleanup | frontend/components/Embedded3DViewer.tsx:89-94 | cleanup clears `isActive` and the interval |
| StatusPoller.Embedded3DViewer.ChangeModelId | frontend/components/Embedded3DViewer.tsx:34-95 | a new `modelId` cleans up the old run, then starts the effect again, which polls only for a non-empty id |
| StatusPoller.Embedded3DViewer.Unmount | frontend/components/Embedded3DViewer.tsx:89-94 | unmounting runs the cleanup |
| HybridViewer.StartLoad | frontend/components/HybridViewer.tsx:67-81 | with a truthy `modelId` the load effect sets processing and schedules the timer; a null or empty one changes nothing else; an earlier URL is not cleared |
| HybridViewer.Step | frontend/components/HybridViewer.tsx:62-95 | no event sets an error, the only URL ever installed is the demo URL, the status only moves to processing or completed, and nothing remounts |
| HybridViewer.Is3DAvailable | frontend/components/HybridViewer.tsx:97 | in every reachable state 3D is available iff the status is completed (the URL test never decides) |
| HybridViewer.RunValid | frontend/components/HybridViewer.tsx:55-95 | every reachable state satisfies the invariant: status is never `failed`, no error is set, the only URL is the demo URL, completed implies a URL, and a pending timer implies a mounted component with a non-empty `modelId` in processing |
| HybridViewer.RunPreservesValid | frontend/components/HybridViewer.tsx:55-95 | the invariant is preserved by any event sequence |
| HybridViewer.StatusTransitions | frontend/components/HybridViewer.tsx:57-59 | status only stays the same, moves to processing, or goes from processing to completed |
| HybridViewer.ThreeDButton | frontend/components/HybridViewer.tsx:124-127 | the 3D button exists iff `modelId` is non-empty, and it is disabled iff 3D is not available |
| HybridViewer.Content | frontend/components/HybridViewer.tsx:165-211 | the 2D map iff the mode is 2D; in 3D the stage has an overlay iff the status is not completed, and the viewer iff 3D is available |
| HybridViewer.ViewerShown | frontend/components/HybridViewer.tsx:202-209 | the viewer only appears on a stage with no overlay, and always with a non-empty URL |
| HybridViewer.DownloadLink | frontend/components/HybridViewer.tsx:215-225 | the link is present iff the mode is 3D and 3D is available, and it points at the model's URL |
| HybridViewer.TipShown | frontend/components/HybridViewer.tsx:228 | the tip only shows over the 2D map, beside a 3D button that is present and disabled |
| HybridViewer.RenderGates | frontend/components/HybridViewer.tsx:165-228 | the viewer (inside the 3D branch) and the separately gated download link appear together, for the same URL, exactly in 3D mode with 3D available; never together with the tip |
| HybridViewer.TipInReachableStates | frontend/components/HybridViewer.tsx:228 | in reachable states the tip shows iff the mode is 2D, `modelId` is non-empty and 3D is unavailable, and the failure overlay never shows |
| HybridViewer.NullModelId | frontend/components/HybridViewer.tsx:67-70 | with a null or empty `modelId` no timer runs, status is pending, there is no URL, no 3D button and no tip, and a late timer changes nothing |
| HybridViewer.SimulatedLoad | frontend/components/HybridViewer.tsx:73-81 | a non-empty `modelId` sets processing at once and shows the tip; the timer sets the demo URL and completed, making 3D available and hiding the tip |
| HybridViewer.StaleTimerIgnored | frontend/components/HybridViewer.tsx:83-86 | after a `modelId` change or an unmount, the old load timer changes nothing |
| HybridViewer.ModeChange | frontend/components/HybridViewer.tsx:88-95 | a mode request fades out; its timer then sets the requested mode and fades in |
| HybridViewer.HybridViewerComponent.constructor | frontend/components/HybridViewer.tsx:55-86 | mounting gives the initial state for the `modelId`; a null or empty id starts no timer |
| HybridViewer.HybridViewerComponent.RunLoadEffect | frontend/components/HybridViewer.tsx:67-81 | the load effect sets processing and schedules the timer when `modelId` is non-empty |
| HybridViewer.HybridViewerComponent.ChangeModelId | frontend/components/HybridViewer.tsx:83-86 | a new `modelId` clears the old timer and runs the load effect again, which schedules a timer only for a non-empty id |
| HybridViewer.HybridViewerComponent.LoadTimerFires | frontend/components/HybridViewer.tsx:75-81 | the timer callback moves the object as `Step` does |
| HybridViewer.HybridViewerComponent.RequestMode | frontend/components/HybridViewer.tsx:88-91 | `handleViewModeChange` fades out and schedules the switch |
| HybridViewer.HybridViewerComponent.ModeTimerFires | frontend/components/HybridViewer.tsx:91-94 | the switch timer sets the mode and fades in |
| HybridViewer.HybridViewerComponent.Unmount | frontend/components/HybridViewer.tsx:83-86 | unmounting clears the pending load timer |
| Materials.UpgradeAll | frontend/components/ModelViewer.tsx:144-170 | every entry of a material list is upgraded independently, keeping the length (the in-place pass is `UpgradeSlots`) |
| Materials.Upgrade | frontend/components/ModelViewer.tsx:144-169 | the FBX rule leaves no Phong material and gives every standard material the caller's roughness and metalness; a standard material with a broken map loses it and turns `0xcccccc`, one with a working map keeps colour and map; normal maps are kept; other materials stay other |
| Materials.GltfUpdate | frontend/components/ModelViewer.tsx:27-41 | the GLTF rule flags every material, changes no kind, colour or map, and tunes only standard materials |
| Materials.UpgradeNormalizes | frontend/components/ModelViewer.tsx:144-169 | after the upgrade, Phong and standard materials are standard with the caller's roughness and metalness; a converted Phong keeps colour, map and normal map; a standard one with a broken map gets no map and colour `0xcccccc`, otherwise it keeps colour and map, and its normal map always |
| Materials.PhongKeepsUnusableMap | frontend/components/ModelViewer.tsx:146-153 | a converted Phong keeps a broken colour map; only a second pass clears it |
| Materials.UpgradeStable | frontend/components/ModelViewer.tsx:144-169 | applying the pass again changes nothing except the `needsUpdate` flag, apart from the case above |
| Materials.IndexOf | frontend/components/ModelViewer.tsx:155 | `indexOf` gives the first equal slot, or -1 exactly when there is none |
| Materials.UpgradeSlots | frontend/components/ModelViewer.tsx:142-170 | the in-place `forEach` with `indexOf` over a material array leaves exactly the upgraded list |
| Materials.Traverse | frontend/components/ModelViewer.tsx:134-173 | the traversal keeps the tree's shape and leaves objects that are not meshes as they were |
| Materials.TraverseAll | frontend/components/ModelViewer.tsx:134 | traversing children keeps their number |
| Materials.MapNodes | frontend/components/ModelViewer.tsx:134-173 | each visited node is normalised on its own |
| Materials.MapNodesAppend | frontend/components/ModelViewer.tsx:134 | normalising a concatenation of node lists is the concatenation of the results |
| Materials.TraverseNodes | frontend/components/ModelViewer.tsx:134-173 | `traverse` normalises every node of the tree, in pre-order, and changes nothing else |
| Materials.TraverseAllNodes | frontend/components/ModelViewer.tsx:134-173 | the same, for a list of subtrees |
| Materials.UpgradeSlotNormalized | frontend/components/ModelViewer.tsx:142-170 | a single material or a material array is left normalised |
| Materials.TooltipTraversalSpec | frontend/components/ModelViewer3DWithTooltips.tsx:81-113 | every mesh gets both shadow flags and its materials upgraded by `Upgrade` with roughness 0.5 and metalness 0 (so a broken map gives way to `0xcccccc`); other nodes are unchanged |
| Materials.FbxTraversalSpec | frontend/components/ModelViewer.tsx:134-173 | only meshes that have a material get shadows and their materials upgraded by `Upgrade` with the caller's values; all other nodes are unchanged |
| Materials.GltfTraversalSpec | frontend/components/ModelViewer.tsx:27-41 | every mesh gets shadows whether or not it has a material; a single material keeps its kind; standard ones get the roughness and metalness |
| Materials.TraverseTooltip | frontend/components/ModelViewer3DWithTooltips.tsx:81-113 | the tree keeps its shape; a visited mesh always gets its shadow flags, and a mesh without a material ends the traversal as failed |
| Materials.TraverseTooltipCompletes | frontend/components/ModelViewer3DWithTooltips.tsx:81-113 | the tooltip pass completes iff every mesh has a material, and then equals the full traversal |
| Materials.TraverseTooltipAllCompletes | frontend/components/ModelViewer3DWithTooltips.tsx:81-113 | the same, for a list of subtrees |
| TooltipViewer.NdcX | frontend/components/ModelViewer3DWithTooltips.tsx:122 | the pixel map takes the NDC x back to the centre; a centre inside the image lands in [-1, 1] |
| TooltipViewer.NdcY | frontend/components/ModelViewer3DWithTooltips.tsx:123 | the pixel map takes the flipped NDC y back to the centre; a centre inside the image lands in [-1, 1] |
| TooltipViewer.NdcInRange | frontend/components/ModelViewer3DWithTooltips.tsx:122-123 | a centre inside the image lands in the NDC square [-1,1] x [-1,1] |
| TooltipViewer.NdcCorners | frontend/components/ModelViewer3DWithTooltips.tsx:122-123 | left maps to -1 and right to 1; top maps to +1 and bottom to -1 |
| TooltipViewer.NdcRoundTrip | frontend/components/ModelViewer3DWithTooltips.tsx:122-123 | the conversion and its pixel inverse undo each other in both directions |
| TooltipViewer.NdcMonotone | frontend/components/ModelViewer3DWithTooltips.tsx:122-123 | x is increasing and y is decreasing (the flip) |
| TooltipViewer.MarkersSound | frontend/components/ModelViewer3DWithTooltips.tsx:125-144 | every marker carries its tooltip, the tooltip's index, and the first hit of that tooltip's ray |
| TooltipViewer.MarkersOrdered | frontend/components/ModelViewer3DWithTooltips.tsx:120-143 | markers appear in strictly increasing index order |
| TooltipViewer.Markers | frontend/components/ModelViewer3DWithTooltips.tsx:117-145 | at most one marker per tooltip, in increasing index order, each carrying its tooltip |
| TooltipViewer.MarkersComplete | frontend/components/ModelViewer3DWithTooltips.tsx:128 | every tooltip whose ray hits gets a marker |
| TooltipViewer.MarkerIffHit | frontend/components/ModelViewer3DWithTooltips.tsx:125-144 | a tooltip has a marker iff its ray hits, and that marker holds the hit point and the tooltip |
| TooltipViewer.AllHit | frontend/components/ModelViewer3DWithTooltips.tsx:120-145 | when every ray hits, the markers are the tooltips in order with indices 0..n-1 |
| TooltipViewer.NoneHit | frontend/components/ModelViewer3DWithTooltips.tsx:128 | when no ray hits, misses are dropped and the list is empty |
| TooltipViewer.ComputeMarkers | frontend/components/ModelViewer3DWithTooltips.tsx:117-145 | the `forEach` loop pushing into `markers` builds exactly the marker list |
| TooltipViewer.MarkerEffect | frontend/components/ModelViewer3DWithTooltips.tsx:79-148 | normalisation runs over the whole tree before any ray is cast; the effect completes iff all meshes have a material; the callback gets one complete list, and only with a mounted mesh and a non-empty tooltip list |
| TooltipViewer.ReportedAtMostOnce | frontend/components/ModelViewer3DWithTooltips.tsx:116-147 | `onMarkersReady` is called at most once per run, never with no tooltips, no mesh or a failed traversal; the list it gets names valid tooltip indices, each at most once |
| ModelViewer.TextureUrl | frontend/components/ModelViewer.tsx:122-128 | the rewrite keeps the URL or empties it, and no result starts with `/` or contains `:\` |
| ModelViewer.TextureUrlSpec | frontend/components/ModelViewer.tsx:122-128 | paths that start with `/` or contain `:\` become `''`; every other URL is unchanged; the rewrite is idempotent |
| ModelViewer.RequestHeaders | frontend/components/ModelViewer.tsx:65-69 | the ngrok header is present iff the URL contains `ngrok`, with value `true`; no other header is ever sent |
| ModelViewer.Fetch | frontend/components/ModelViewer.tsx:56-90 | the URL is cached afterwards with the returned promise; a cached URL changes nothing; an uncached one appends exactly one unresolved request with the header rule; other entries are kept |
| ModelViewer.Settle | frontend/components/ModelViewer.tsx:71-85 | a pending request is marked settled; its URL stays cached, resolved to the blob URL, iff the answer is an OK response; nothing else changes, and a settled or unknown request changes nothing |
| ModelViewer.FetchValid | frontend/components/ModelViewer.tsx:56-90 | a call keeps the cache invariant: each entry points at a request for its URL and is resolved iff that request settled, and every unsettled request is its URL's entry |
| ModelViewer.SettleValid | frontend/components/ModelViewer.tsx:71-85 | settling a request keeps the cache invariant |
| ModelViewer.CacheRunValid | frontend/components/ModelViewer.tsx:52-90 | the invariant holds after any sequence of calls and settlements |
| ModelViewer.FetchSpec | frontend/components/ModelViewer.tsx:57-88 | a cached URL returns its promise and issues nothing; an uncached URL issues one request with the header rule and caches it |
| ModelViewer.FailureEvicts | frontend/components/ModelViewer.tsx:73-85 | a non-OK answer or a network error removes the URL's entry, so the next call fetches again |
| ModelViewer.SuccessCached | frontend/components/ModelViewer.tsx:77-88 | a successful answer leaves the entry resolved to its blob URL, and the next call reuses it without a request |
| ModelViewer.ResolvedStays | frontend/components/ModelViewer.tsx:83-88 | a resolved entry is never evicted or replaced, whatever happens later |
| ModelViewer.FetchCache.constructor | frontend/components/ModelViewer.tsx:53 | the module-level cache starts empty |
| ModelViewer.FetchCache.FetchWithHeaders | frontend/components/ModelViewer.tsx:56-90 | `fetchFBXWithHeaders` moves the cache as `Fetch` does and returns its promise |
| ModelViewer.FetchCache.Answer | frontend/components/ModelViewer.tsx:71-85 | a fetch settling moves the cache as `Settle` does |
| ModelViewer.BlobStep | frontend/components/ModelViewer.tsx:96-112 | only a resolution of the current live run changes `blobUrl`; only a URL change starts a new live run; once cancelled, nothing but a URL change has an effect |
| ModelViewer.BlobResolution | frontend/components/ModelViewer.tsx:99-107 | a resolution is stored only for the live, not-cancelled run; other resolutions and rejections change nothing |
| ModelViewer.StaleRunsIgnored | frontend/components/ModelViewer.tsx:96-111 | a resolution from a run already cleaned up is ignored forever |
| ModelViewer.UnmountFinal | frontend/components/ModelViewer.tsx:109-111 | after unmount no resolution changes the state |
| ModelViewer.FbxModel.constructor | frontend/components/ModelViewer.tsx:92-112 | mounting starts the first effect run with no blob URL |
| ModelViewer.FbxModel.ChangeUrl | frontend/components/ModelViewer.tsx:96-112 | a new URL cancels the old run and starts a new one |
| ModelViewer.FbxModel.Resolve | frontend/components/ModelViewer.tsx:99-104 | a resolving fetch moves the object as `BlobStep` does |
| ModelViewer.FbxModel.Unmount | frontend/components/ModelViewer.tsx:109-111 | unmounting cancels the current run |
| ModelViewer.SceneModel | frontend/components/ModelViewer.tsx:229-235 | a model is loaded iff the URL is non-empty and a type is given; GLTF type gives the GLTF model, otherwise FBX |
| Visualization.TooltipColor | frontend/components/FengShuiVisualization.tsx:43-69 | `good` gives the green scheme, `bad` the red one, and any other type the yellow one, each iff |
| Visualization.StrokeHex | frontend/components/FengShuiVisualization.tsx:104 | the colour is one of green, red and yellow, and green iff the border class contains `green` |
| Visualization.GoodStroke | frontend/components/FengShuiVisualization.tsx:104 | the green border class gives `#22c55e` |
| Visualization.BadStroke | frontend/components/FengShuiVisualization.tsx:104 | the red border class gives `#ef4444` |
| Visualization.OtherStroke | frontend/components/FengShuiVisualization.tsx:104 | the yellow border class gives `#eab308` |
| Visualization.StrokeByKind | frontend/components/FengShuiVisualization.tsx:104-116 | the stroke and fill colour follow the type: good green, bad red, anything else yellow |
| Visualization.Groups | frontend/components/FengShuiVisualization.tsx:91-123 | one group per tooltip at the tooltip's own pixel coordinates, solid iff its index is hovered |
| Visualization.Cards | frontend/components/FengShuiVisualization.tsx:126-156 | one card per tooltip in list order, with its class, message and type colours, highlighted iff hovered |
| Visualization.GroupsSpec | frontend/components/FengShuiVisualization.tsx:91-156 | one group and one card per tooltip; boxes and markers use the pixel coordinates unchanged; stroke equals fill; only the hovered index is solid at opacity 1, the rest dashed `10,5` at 0.6 |
| Visualization.AtMostOneHighlighted | frontend/components/FengShuiVisualization.tsx:106-108 | at most one tooltip is drawn highlighted |
| Visualization.Init | frontend/components/FengShuiVisualization.tsx:37-41 | nothing is hovered at first; the dimensions are the props, defaulting to 1920 x 1080 |
| Visualization.ViewBox | frontend/components/FengShuiVisualization.tsx:88 | the view box spans the current dimensions |
| Visualization.Step | frontend/components/FengShuiVisualization.tsx:79-119 | only entering and leaving change the hover; only an image load changes the dimensions |
| Visualization.StepSpec | frontend/components/FengShuiVisualization.tsx:79-139 | entering `i` hovers `i` and replaces any previous index; leaving clears it; an image load sets the view box to the natural size |
| Visualization.NoLoadKeepsDimensions | frontend/components/FengShuiVisualization.tsx:41-88 | without an image load, hovering never changes the view box |
| Visualization.LoadedDimensionsStay | frontend/components/FengShuiVisualization.tsx:79-88 | after a load, the natural size stays until the next load |
| Visualization.FengShuiVisualization.constructor | frontend/components/FengShuiVisualization.tsx:37-41 | mounting gives the initial overlay state |
| Visualization.FengShuiVisualization.MouseEnter | frontend/components/FengShuiVisualization.tsx:118 | mouse-enter moves the object as `Step` does |
| Visualization.FengShuiVisualization.MouseLeave | frontend/components/FengShuiVisualization.tsx:119 | mouse-leave moves the object as `Step` does |
| Visualization.FengShuiVisualization.ImageLoaded | frontend/components/FengShuiVisualization.tsx:79-82 | `onLoad` moves the object as `Step` does |
| UploadPage.RemainingTime | frontend/app/upload/page.tsx:92-93 | the wait is the least non-negative time that brings the total to 5000 ms |
| UploadPage.RemainingTimeSpec | frontend/app/upload/page.tsx:92-93 | the wait is never negative, at most 5000, zero iff 5000 ms have passed, and `elapsed + wait` reaches 5000 |
| UploadPage.MascotComment | frontend/app/upload/page.tsx:120-131 | the comment is one of the nine score comments or the fallback |
| UploadPage.MascotCommentSpec | frontend/app/upload/page.tsx:120-131 | each score 2..10 has its own comment, all distinct; every other value, fractions included, gets the fallback |
| UploadPage.MascotImage | frontend/app/upload/page.tsx:133-135 | the victory image iff the score is at least 7, the pointing one otherwise |
| UploadPage.Continue | frontend/app/upload/page.tsx:111-112 | continuing starts the mascot fade-out and arms the timer, and changes nothing else |
| UploadPage.MascotTimerFires | frontend/app/upload/page.tsx:113-117 | the timer hides the welcome and loads the demo photo, so with nothing uploading and no result the preview panel shows; without a pending timer nothing happens |
| UploadPage.StartUpload | frontend/app/upload/page.tsx:74-79 | the start sets loading, clears error and result and starts the fetch; preview, mascot and audio are kept |
| UploadPage.Answered | frontend/app/upload/page.tsx:83-100 | data waits out the rest of the five seconds with loading on; a failure ends loading with a message; neither sets the result; an unawaited answer changes nothing |
| UploadPage.WaitOver | frontend/app/upload/page.tsx:96-102 | the end of the wait shows the awaited data and ends loading, keeping the error |
| UploadPage.UploadSpec | frontend/app/upload/page.tsx:73-104 | the start sets loading and clears error and result; success waits the remaining time and then shows the data with no error; failure ends loading with the message and no result |
| UploadPage.PressAudio | frontend/app/upload/page.tsx:137-182 | the button never touches the result, preview or loading; playing starts only when speech did not throw; the error changes only when speech threw, and then playing is off |
| UploadPage.SpeechEnded | frontend/app/upload/page.tsx:169-171 | the end of speech only clears the playing flag |
| UploadPage.SpeechFailed | frontend/app/upload/page.tsx:173-176 | a speech error clears the playing flag and shows a non-empty message, nothing else |
| UploadPage.AudioSpec | frontend/app/upload/page.tsx:137-183 | no analysis text: nothing happens; pressing while playing stops; pressing otherwise plays unless `speak` throws; end clears the flag; error clears it and sets `Failed to play audio` |
| UploadPage.VisiblePanels | frontend/app/upload/page.tsx:206-369 | at most one of welcome, preview, loading and results shows, for every state, and each shows exactly when its condition holds |
| UploadPage.WelcomeShown | frontend/app/upload/page.tsx:206 | the welcome panel never shows with the preview, loading or results panel |
| UploadPage.PreviewShown | frontend/app/upload/page.tsx:243 | the preview panel never shows with the loading or results panel |
| UploadPage.LoadingShown | frontend/app/upload/page.tsx:281 | the loading panel never shows with the results panel |
| UploadPage.ResultsShown | frontend/app/upload/page.tsx:369 | in every consistent state the results panel shows iff there is a result |
| UploadPage.HybridViewerProps | frontend/app/upload/page.tsx:454-460 | the hybrid viewer appears iff there is a tooltip and a preview; `modelId` falls back to null; the size is 1170 x 1463 |
| UploadPage.RunValid | frontend/app/upload/page.tsx:36-183 | the page invariant holds after any events: loading iff an upload is in progress, and a result only when no upload is in progress |
| UploadPage.DemoPath | frontend/app/upload/page.tsx:73-118 | continue, fade, analyse, answer, wait: the demo image and the data are shown on the results panel alone |
| UploadPage.UploadFlow.constructor | frontend/app/upload/page.tsx:36-45 | mounting gives the initial page state |
| UploadPage.UploadFlow.HandleUpload | frontend/app/upload/page.tsx:74-79 | the start of `handleUpload` moves the page as `StartUpload` does |
| UploadPage.UploadFlow.UploadAnswered | frontend/app/upload/page.tsx:83-100 | the fetch answer moves the page as `Answered` does |
| UploadPage.UploadFlow.UploadWaitOver | frontend/app/upload/page.tsx:96-102 | the end of the wait moves the page as `WaitOver` does |
| UploadPage.UploadFlow.HandleContinueFromMascot | frontend/app/upload/page.tsx:111-113 | continuing starts the mascot fade |
| UploadPage.UploadFlow.MascotFadeDone | frontend/app/upload/page.tsx:113-117 | the fade timer hides the mascot and loads the demo image |
| UploadPage.UploadFlow.HandlePlayAudio | frontend/app/upload/page.tsx:137-182 | the audio button moves the page as `PressAudio` does |
| UploadPage.UploadFlow.OnSpeechEnd | frontend/app/upload/page.tsx:169-171 | speech end moves the page as `SpeechEnded` does |
| UploadPage.UploadFlow.OnSpeechError | frontend/app/upload/page.tsx:173-176 | speech error moves the page as `SpeechFailed` does |
| GlbServer.SkipRun | glb_server/server.py:32 | skipping a run of disallowed characters leaves a suffix that starts with an allowed character, and everything skipped was disallowed |
| GlbServer.Substitute | glb_server/server.py:32 | the substitution output contains only allowed characters and `_`, and is never longer than its input |
| GlbServer.StripLeft | glb_server/server.py:32 | stripping on the left gives a suffix that does not start with `_` |
| GlbServer.StripRight | glb_server/server.py:32 | stripping on the right gives a prefix that does not end with `_` |
| GlbServer.Strip | glb_server/server.py:32 | the stripped string is no longer than its input and has no `_` at either end |
| GlbServer.StripSpec | glb_server/server.py:32 | `strip("_")` keeps only characters of its input, removes `_` from both ends, and is the identity when there is none there |
| GlbServer.StrippedAllowed | glb_server/server.py:32 | after substitution and strip, only allowed characters remain |
| GlbServer.FallbackAllowed | glb_server/server.py:32 | the fallback `item` consists of allowed characters |
| GlbServer.SafeFilenameAllowed | glb_server/server.py:32 | the result consists of word characters, `-`, `.` and `_` only |
| GlbServer.SafeFilename | glb_server/server.py:31-32 | the name is never empty and never has `_` at either end; it is the fallback or no longer than its input |
| GlbServer.SafeFilenameSpec | glb_server/server.py:31-32 | the result is never empty, does not start or end with `_`, has only allowed characters, and contains no `/` or `\`, so it is one path component |
| GlbServer.SubstituteAllowed | glb_server/server.py:32 | a string of allowed characters is unchanged by the substitution |
| GlbServer.FixedPoint | glb_server/server.py:32 | a non-empty name of allowed characters that does not start or end with `_` comes back unchanged |
| GlbServer.DotNamesPassThrough | glb_server/server.py:32 | `.` and `..` pass through unchanged |
| GlbServer.Idempotent | glb_server/server.py:32 | sanitising twice is the same as sanitising once |
| GlbServer.RunBecomesOneUnderscore | glb_server/server.py:32 | a maximal run of disallowed characters becomes exactly one `_` |
| GlbServer.SkipWholeRun | glb_server/server.py:32 | skipping consumes the whole maximal run and nothing after it |
| GlbServer.Marks | glb_server/server.py:32 | the reference view marks each character as kept or as a gap, position by position |
| GlbServer.MergeSeparates | glb_server/server.py:32 | after merging, no two gaps are adjacent |
| GlbServer.MergeRun | glb_server/server.py:32 | a run of gaps at the front merges into one gap |
| GlbServer.SubstituteIsMerge | glb_server/server.py:32 | the substitution equals the reference "collapse each gap run to `_`" definition |
| ModelUploader.Extension | frontend/components/ModelUploader.tsx:15 | the extension is no longer than the name and holds no upper-case ASCII letter |
| ModelUploader.ExtensionSpec | frontend/components/ModelUploader.tsx:15 | the extension has no dot; it is the lower-cased text after the last dot, or the whole name when there is no dot |
| ModelUploader.Classify | frontend/components/ModelUploader.tsx:17-22 | `gltf` or `glb` gives GLTF, `fbx` gives FBX, and anything else is refused, each iff |
| ModelUploader.HandleFileChange | frontend/components/ModelUploader.tsx:12-30 | no file does nothing; a refused type alerts; otherwise `onModelLoad` is called once with the object URL and the type |
| ModelUploader.CaseInsensitive | frontend/components/ModelUploader.tsx:15 | the extension of `stem.ext` is the lower-cased `ext`, whatever the stem |
| ModelUploader.AfterLastOfSuffix | frontend/components/ModelUploader.tsx:15 | the text after the last dot of `stem.ext` is `ext` when `ext` has no dot |
| ModelUploader.UpperCaseGlb | frontend/components/ModelUploader.tsx:15-19 | `room.GLB` loads as GLTF |
| ModelUploader.PlainFbx | frontend/components/ModelUploader.tsx:15-21 | `chair.fbx` loads as FBX |
| ModelUploader.ObjRefused | frontend/components/ModelUploader.tsx:24-27 | `desk.obj` alerts and loads nothing |
| CircularProgress.Offset | frontend/components/CircularProgress.tsx:16-19 | for a score between 0 and `maxScore` the offset lies between 0 and the circumference |
| CircularProgress.OffsetSpec | frontend/components/CircularProgress.tsx:16-19 | the offset is `C * (1 - score/maxScore)`: `C` at score 0, 0 at `maxScore`, `C/2` at half |
| CircularProgress.OffsetMonotone | frontend/components/CircularProgress.tsx:16-19 | a higher score never gives a larger offset |
| CircularProgress.DefaultRadius | frontend/components/CircularProgress.tsx:12-17 | the default size and stroke give radius 94 |
| CircularProgress.Props | frontend/components/CircularProgress.tsx:10-15 | absent props take their defaults: `maxScore` 10, and size and stroke width giving radius 94 |
| CircularProgress.DefaultMaxScoreOffset | frontend/components/CircularProgress.tsx:12-19 | without a `maxScore` the offset is `C * (1 - score/10)`: `C` at 0, `C/2` at 5, 0 at 10 |
| CircularProgress.Band | frontend/components/CircularProgress.tsx:22-34 | the band is one of four |
| CircularProgress.Color | frontend/components/CircularProgress.tsx:22-27 | the colour is one of the four, green iff the score is at least 8, red iff below 4 |
| CircularProgress.Label | frontend/components/CircularProgress.tsx:29-34 | the label is one of the four |
| CircularProgress.SameBand | frontend/components/CircularProgress.tsx:22-34 | colour and label always come from the same band, pairwise iff |
| CircularProgress.BandRanges | frontend/components/CircularProgress.tsx:23-33 | Excellent iff score >= 8, Good iff 6 <= score < 8, Fair iff 4 <= score < 6, Needs Work iff score < 4 |
| CircularProgress.BandMonotone | frontend/components/CircularProgress.tsx:22-34 | bands are monotone in the score |
| EchoCallback.RunValid | frontend/app/echo-callback/page.tsx:12-45 | the invariant holds after any events: the attempt counter never passes 30, a live interval has made fewer than 30 attempts, and it has made none while authenticated |
| EchoCallback.Tick | frontend/app/echo-callback/page.tsx:20-42 | a stopped interval does nothing; a tick counts an attempt; the interval stays only for an unauthenticated run under 30 attempts; stopping resets the URL; authentication schedules the redirect; an immediate redirect to `/upload` happens only on the 30th unauthenticated attempt |
| EchoCallback.Step | frontend/app/echo-callback/page.tsx:12-45 | navigation only appends one redirect to `/upload` at a time, and URL resets never decrease |
| EchoCallback.RedirectTimer | frontend/app/echo-callback/page.tsx:32-34 | a pending delayed redirect fires once, appending `/upload`; scheduled plus performed redirects stay constant; with none pending nothing happens |
| EchoCallback.TickSpec | frontend/app/echo-callback/page.tsx:20-42 | a tick counts one attempt first; authentication wins, clears the interval, resets the URL and schedules the redirect; otherwise the 30th attempt clears the interval and redirects at once without `hasChecked` |
| EchoCallback.Timeout | frontend/app/echo-callback/page.tsx:17-41 | unauthenticated, the interval runs exactly 30 ticks and then redirects to `/upload` once |
| EchoCallback.RunSnoc | frontend/app/echo-callback/page.tsx:12-45 | running one more event is one more step |
| EchoCallback.TicksSnoc | frontend/app/echo-callback/page.tsx:20 | n+1 ticks are n ticks and then one more |
| EchoCallback.Text | frontend/app/echo-callback/page.tsx:52 | the text reads `Connected! Redirecting...` iff `hasChecked` |
| EchoCallback.EchoCallbackPage.constructor | frontend/app/echo-callback/page.tsx:7-45 | mounting runs the effect once from the initial state |
| EchoCallback.EchoCallbackPage.StartEffect | frontend/app/echo-callback/page.tsx:12-45 | a re-run clears the old interval and restarts the counter |
| EchoCallback.EchoCallbackPage.CheckAuth | frontend/app/echo-callback/page.tsx:20-42 | the interval callback moves the page as `Tick` does |
| EchoCallback.EchoCallbackPage.AuthChanged | frontend/app/echo-callback/page.tsx:44-45 | an `isAuthenticated` change moves the page as `Step` does |
| EchoCallback.EchoCallbackPage.RedirectTimerFires | frontend/app/echo-callback/page.tsx:32-34 | the delayed redirect goes to `/upload` |
| AuthButton.FirstName | frontend/components/Auth0Button.tsx:29 | the greeting name is never empty |
| AuthButton.FirstNameSpec | frontend/components/Auth0Button.tsx:29 | a non-empty `given_name` wins; else, when `name` is non-empty and does not start with a space, its text up to the first space; else, when `email` is non-empty and does not start with `@`, its text up to the first `@`; else `User`; each taken piece is a prefix that stops at its separator or the end |
| AuthButton.FirstTokenEmpty | frontend/components/Auth0Button.tsx:29 | `split(sep)[0]` is empty iff the string is empty or starts with the separator |
| AuthButton.LeadingSpaceFallsToEmail | frontend/components/Auth0Button.tsx:29 | a name starting with a space has an empty first token, so the email's local part is used |
| AuthButton.LocalPart | frontend/components/Auth0Button.tsx:29 | the text before the first `@` of `local@domain` is `local` |
| AuthButton.Render | frontend/components/Auth0Button.tsx:10-59 | priority is loading, then error, then signed-in (needs both `isAuthenticated` and a user), then the sign-in button, each iff; signed-in shows the non-empty first name |
| Strings.BeforeFirst | frontend/components/Auth0Button.tsx:29 | `split(sep)[0]`: the prefix before the first separator, without it |
| Strings.AfterLast | frontend/components/ModelUploader.tsx:15 | `split('.').pop()`: the suffix after the last separator, without it |
| Strings.ToLower | frontend/components/ModelUploader.tsx:15 | lower-casing maps each character and keeps the length |

## Left out

- Three.js itself (loaders, `Raycaster`, camera, `Center`) is not modelled. The ray cast is an oracle from a scene and an NDC point to an optional first hit point.
- TooltipViewer.MarkerEffect: the 0.1-unit offset of each hit toward the camera is left out. It needs a square root on floats; the marker holds the raw hit point.
- TooltipViewer.NdcX: requires a non-zero image width. In JavaScript a zero width gives an infinity or NaN, which `real` cannot hold. The same applies to TooltipViewer.NdcY and the height.
- CircularProgress.Offset: requires a non-zero `maxScore` for the same reason. `Math.PI` is not modelled; the circumference is a parameter.
- Materials.Traverse: meshes and their shadow flags and materials are updated as values, not in place. Only the multi-material array is an in-place `array` (Materials.UpgradeSlots). A material object shared by several meshes (aliasing) is not modelled. `needsUpdate` is a boolean flag, not three.js's version counter.
- GlbServer.SafeFilename: Python's Unicode-aware `\w` is a parameter. The only requirements on it are that `_` and the ASCII letters and digits are word characters, and `/` and `\` are not. The rest of `glb_server/server.py` is not part of this model: segmentation, mesh splitting, the shell command and the endpoint.
- ModelUploader.Extension: lower-casing is ASCII only, so the extension can differ from JavaScript's on non-ASCII letters. The classification cannot: no non-ASCII character lowercases into a letter of `gltf`, `glb` or `fbx` (the Kelvin sign U+212A lowercases to `k`, which none of them contains).
- Timers, `fetch`, `URL.createObjectURL`, `Date.now()` and promise resolution are not modelled as timing. They appear as explicit events and parameters: ticks, answers, resolutions and times in milliseconds.
- React scheduling is not modelled: batching, commit order and re-render keys. Each handler or effect is one atomic step.
- ModelViewer.FbxModel.constructor: models the mount as if the fetch effect at `frontend/components/ModelViewer.tsx:96-112` ran. In the code, the first render has no `blobUrl` and throws at lines 115-116 before anything commits, so that effect never runs on mount; the thrown promise goes to Suspense. The model does not capture this suspension, and the `cancelled` flag it tracks belongs to a run that React never starts.
- UploadPage.PressAudio: speech synthesis is reduced to the playing flag and an optional thrown error. Voice selection, rate, pitch and volume are left out. The `beforeunload` fade and `speechSynthesis.cancel()` on unmount are left out, and so is `handleReset` (a page reload).
- Console logging and the alert dialog are not modelled. The alert is an outcome value.
- EchoCallback: the Echo SDK is an input flag, `isAuthenticated`, and the router is a list of redirects.
- The SDK wrappers `EchoAuth.tsx`, `EchoSignIn.tsx` and `providers.tsx` are not part of this model. Neither are styling, layout, navigation and viewer-control files.
- The backend (`backend/*.py`, `main.py`) is not part of this model. It consists of HTTP clients and model calls with no local logic.
