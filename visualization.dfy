/** The 2D overlay of `frontend/components/FengShuiVisualization.tsx`: one
    SVG group (bounding box and centre dot) and one card per tooltip,
    coloured by the tooltip's type, with the hovered one highlighted, over a
    view box sized to the image. */
module Visualization {
  import opened Wrappers
  import opened Strings
  import opened Analysis

  const DefaultWidth: real := 1920.0
  const DefaultHeight: real := 1080.0

  /** The Tailwind classes and icon `getTooltipColor` returns. */
  datatype ColorScheme = ColorScheme(border: string, bg: string, text: string, icon: string, iconBg: string)

  const GoodScheme := ColorScheme("border-green-500", "bg-green-50", "text-green-900", "✓", "bg-green-500")
  const BadScheme := ColorScheme("border-red-500", "bg-red-50", "text-red-900", "✗", "bg-red-500")
  const OtherScheme := ColorScheme("border-yellow-500", "bg-yellow-50", "text-yellow-900", "!", "bg-yellow-500")

  function TooltipColor(kind: string): (c: ColorScheme)
    ensures c == GoodScheme <==> kind == "good"
    ensures c == BadScheme <==> kind == "bad"
    ensures c == OtherScheme <==> kind != "good" && kind != "bad"
  {
    if kind == "good" then GoodScheme
    else if kind == "bad" then BadScheme
    else OtherScheme
  }

  const Green := "#22c55e"
  const Red := "#ef4444"
  const Yellow := "#eab308"

  /** Stroke and fill: chosen by searching the border class for a colour name. */
  function StrokeHex(c: ColorScheme): (h: string)
    ensures h == Green || h == Red || h == Yellow
    ensures h == Green <==> Contains(c.border, "green")
  {
    if Contains(c.border, "green") then Green
    else if Contains(c.border, "red") then Red
    else Yellow
  }

  lemma NotContainsFirst(s: string, sub: string)
    requires |sub| > 0 && sub[0] !in s
    ensures !Contains(s, sub)
  {
  }

  lemma NotContainsPair(s: string, sub: string)
    requires |sub| >= 2
    requires forall k :: 0 <= k < |s| - 1 ==> !(s[k] == sub[0] && s[k + 1] == sub[1])
    ensures !Contains(s, sub)
  {
    forall i: nat | i <= |s| ensures !OccursAt(s, sub, i) {
      if i + |sub| <= |s| {
        var w := s[i..i + |sub|];
        assert w[0] == s[i] && w[1] == s[i + 1];
      }
    }
  }

  lemma GoodStroke()
    ensures StrokeHex(GoodScheme) == Green
  {
    assert OccursAt("border-green-500", "green", 7);
  }

  lemma BadStroke()
    ensures StrokeHex(BadScheme) == Red
  {
    NotContainsFirst("border-red-500", "green");
    assert OccursAt("border-red-500", "red", 7);
  }

  lemma OtherStroke()
    ensures StrokeHex(OtherScheme) == Yellow
  {
    NotContainsFirst("border-yellow-500", "green");
    NotContainsPair("border-yellow-500", "red");
  }

  /** The hex colour follows the type: good is green, bad is red, anything
      else yellow. */
  lemma StrokeByKind(kind: string)
    ensures StrokeHex(TooltipColor(kind)) ==
      if kind == "good" then Green else if kind == "bad" then Red else Yellow
  {
    if kind == "good" {
      GoodStroke();
    } else if kind == "bad" {
      BadStroke();
    } else {
      OtherStroke();
    }
  }

  /** One `<g>`: the box and dot at the tooltip's own pixel coordinates. */
  datatype Group = Group(
    x: real, y: real, width: real, height: real,
    stroke: string, dashArray: string, opacity: string,
    cx: real, cy: real, fill: string)

  datatype Card = Card(scheme: ColorScheme, highlighted: bool, title: string, message: string)

  function GroupFor(t: Tooltip, index: nat, hovered: Option<nat>): Group {
    var hex := StrokeHex(TooltipColor(t.kind));
    var on := hovered == Some(index);
    Group(t.bbox.x1, t.bbox.y1, t.bbox.width, t.bbox.height,
          hex, if on then "0" else "10,5", if on then "1" else "0.6",
          t.center.x, t.center.y, hex)
  }

  /** One group per tooltip, at the tooltip's own pixel coordinates, solid
      exactly for the hovered index. */
  function Groups(ts: seq<Tooltip>, hovered: Option<nat>): (gs: seq<Group>)
    ensures |gs| == |ts|
    ensures forall i :: 0 <= i < |ts| ==>
      && gs[i].x == ts[i].bbox.x1 && gs[i].y == ts[i].bbox.y1
      && gs[i].cx == ts[i].center.x && gs[i].cy == ts[i].center.y
      && (gs[i].dashArray == "0" <==> hovered == Some(i))
  {
    seq(|ts|, i requires 0 <= i < |ts| => GroupFor(ts[i], i, hovered))
  }

  /** One card per tooltip, in list order: the tooltip's own class and
      message in its type's colours, highlighted iff it is the hovered one. */
  function Cards(ts: seq<Tooltip>, hovered: Option<nat>): (cs: seq<Card>)
    ensures |cs| == |ts|
    ensures forall i :: 0 <= i < |ts| ==>
      && cs[i].title == ts[i].objectClass && cs[i].message == ts[i].message
      && cs[i].scheme == TooltipColor(ts[i].kind)
      && (cs[i].highlighted <==> hovered == Some(i))
  {
    seq(|ts|, i requires 0 <= i < |ts| =>
      Card(TooltipColor(ts[i].kind), hovered == Some(i), ts[i].objectClass, ts[i].message))
  }

  /** One group and one card per tooltip, in list order; geometry is the
      tooltip's pixel coordinates unchanged; colour follows the type; only
      the hovered index is solid at full opacity, every other is dashed at
      0.6. */
  lemma GroupsSpec(ts: seq<Tooltip>, hovered: Option<nat>)
    ensures |Groups(ts, hovered)| == |ts| && |Cards(ts, hovered)| == |ts|
    ensures forall i :: 0 <= i < |ts| ==>
      var g := Groups(ts, hovered)[i];
      && g.x == ts[i].bbox.x1 && g.y == ts[i].bbox.y1
      && g.width == ts[i].bbox.width && g.height == ts[i].bbox.height
      && g.cx == ts[i].center.x && g.cy == ts[i].center.y
      && g.stroke == g.fill
      && g.stroke == (if ts[i].kind == "good" then Green else if ts[i].kind == "bad" then Red else Yellow)
      && (g.dashArray == "0" <==> hovered == Some(i))
      && (g.dashArray == (if hovered == Some(i) then "0" else "10,5"))
      && (g.opacity == (if hovered == Some(i) then "1" else "0.6"))
      && (Cards(ts, hovered)[i].highlighted <==> hovered == Some(i))
  {
    forall i | 0 <= i < |ts| {
      StrokeByKind(ts[i].kind);
    }
  }

  /** At most one group and one card are highlighted. */
  lemma AtMostOneHighlighted(ts: seq<Tooltip>, hovered: Option<nat>, i: nat, j: nat)
    requires i < |ts| && j < |ts|
    requires Groups(ts, hovered)[i].dashArray == "0" && Groups(ts, hovered)[j].dashArray == "0"
    ensures i == j
  {
    assert "10,5" != "0";
  }

  /** `hoveredTooltip` and `imageDimensions`. */
  datatype Overlay = Overlay(hovered: Option<nat>, width: real, height: real)

  datatype Event = Enter(index: nat) | Leave | ImageLoad(naturalWidth: real, naturalHeight: real)

  /** Mount: dimensions from the props, or 1920×1080 when they are absent. */
  function Init(imageWidth: Option<real>, imageHeight: Option<real>): (o: Overlay)
    ensures o.hovered == None
    ensures o.width == (if imageWidth.Some? then imageWidth.value else 1920.0)
    ensures o.height == (if imageHeight.Some? then imageHeight.value else 1080.0)
  {
    Overlay(None, imageWidth.GetOr(DefaultWidth), imageHeight.GetOr(DefaultHeight))
  }

  /** One event: only entering and leaving change the hover, only an image
      load changes the dimensions. */
  function Step(o: Overlay, e: Event): (r: Overlay)
    ensures r.hovered != o.hovered ==> e.Enter? || e.Leave?
    ensures r.width != o.width || r.height != o.height ==> e.ImageLoad?
  {
    match e
    case Enter(i) => o.(hovered := Some(i))
    case Leave => o.(hovered := None)
    case ImageLoad(w, h) => o.(width := w, height := h)
  }

  function Run(o: Overlay, events: seq<Event>): Overlay
    decreases |events|
  {
    if events == [] then o else Run(Step(o, events[0]), events[1..])
  }

  /** The view box is `0 0 width height`. */
  function ViewBox(o: Overlay): (r: (real, real, real, real))
    ensures r.2 == o.width && r.3 == o.height
  {
    (0.0, 0.0, o.width, o.height)
  }

  /** Entering any dot or card replaces whatever was hovered; leaving any of
      them clears the hover; an image load only replaces the dimensions. */
  lemma StepSpec(o: Overlay, e: Event)
    ensures var o' := Step(o, e);
      match e
      case Enter(i) => o'.hovered == Some(i) && o'.width == o.width && o'.height == o.height
      case Leave => o'.hovered == None && o'.width == o.width && o'.height == o.height
      case ImageLoad(w, h) => o'.hovered == o.hovered && ViewBox(o') == (0.0, 0.0, w, h)
  {
  }

  /** Without an image load the view box stays the initial one, whatever
      the hovering. */
  lemma {:induction false} NoLoadKeepsDimensions(o: Overlay, events: seq<Event>)
    requires forall k :: 0 <= k < |events| ==> !events[k].ImageLoad?
    ensures ViewBox(Run(o, events)) == ViewBox(o)
    decreases |events|
  {
    if events != [] {
      NoLoadKeepsDimensions(Step(o, events[0]), events[1..]);
    }
  }

  /** After an image load and any hovering, the view box is the image's
      natural size. */
  lemma {:induction false} LoadedDimensionsStay(o: Overlay, w: real, h: real, events: seq<Event>)
    requires forall k :: 0 <= k < |events| ==> !events[k].ImageLoad?
    ensures ViewBox(Run(o, [ImageLoad(w, h)] + events)) == (0.0, 0.0, w, h)
  {
    assert ([ImageLoad(w, h)] + events)[1..] == events;
    NoLoadKeepsDimensions(Step(o, ImageLoad(w, h)), events);
  }

  class FengShuiVisualization {
    var hovered: Option<nat>
    var width: real
    var height: real

    function Snapshot(): Overlay
      reads this
    {
      Overlay(hovered, width, height)
    }

    constructor (imageWidth: Option<real>, imageHeight: Option<real>)
      ensures Snapshot() == Init(imageWidth, imageHeight)
    {
      hovered := None;
      width := imageWidth.GetOr(DefaultWidth);
      height := imageHeight.GetOr(DefaultHeight);
    }

    /** `onMouseEnter` of the dot or the card at `index`. */
    method MouseEnter(index: nat)
      modifies this
      ensures Snapshot() == Step(old(Snapshot()), Enter(index))
    {
      hovered := Some(index);
    }

    /** `onMouseLeave` of any dot or card. */
    method MouseLeave()
      modifies this
      ensures Snapshot() == Step(old(Snapshot()), Leave)
    {
      hovered := None;
    }

    /** The image's `onLoad`: its natural size replaces the dimensions. */
    method ImageLoaded(naturalWidth: real, naturalHeight: real)
      modifies this
      ensures Snapshot() == Step(old(Snapshot()), ImageLoad(naturalWidth, naturalHeight))
    {
      width, height := naturalWidth, naturalHeight;
    }
  }
}
