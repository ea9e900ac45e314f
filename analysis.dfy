/** The analysis data the front end receives from the backend and passes
    between components (the `Tooltip` and `AnalysisResult` interfaces of
    `frontend/app/upload/page.tsx`, `FengShuiVisualization.tsx` and
    `ModelViewer3DWithTooltips.tsx`).  Coordinates are pixels of the
    analysed image; JavaScript numbers are modelled as reals. */
module Analysis {
  import opened Wrappers

  datatype BBox = BBox(x1: real, y1: real, x2: real, y2: real, width: real, height: real)

  datatype Center = Center(x: real, y: real)

  /** `type` is declared as `'good' | 'bad' | 'neutral'` but arrives as
      unchecked JSON, so it is kept as a string. */
  datatype Tooltip = Tooltip(
    objectClass: string,
    objectIndex: int,
    kind: string,
    message: string,
    bbox: BBox,
    center: Center,
    confidence: real)

  datatype Model3D = Model3D(modelId: Option<string>, status: string)

  datatype AnalysisResult = AnalysisResult(
    score: real,
    overallAnalysis: Option<string>,
    tooltips: seq<Tooltip>,
    model3d: Option<Model3D>)
}
