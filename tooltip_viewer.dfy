/** The effect of `FBXModelWithMarkers` in
    `frontend/components/ModelViewer3DWithTooltips.tsx`: normalise the
    loaded model's materials, then project every tooltip's image-pixel
    centre to normalised device coordinates, cast a ray through it and keep
    a marker for every tooltip whose ray hits the model.

    The ray cast (three.js `Raycaster` against the camera and the model) is
    an oracle `ray(scene, x, y)` returning the first hit point, if any.  It
    takes the scene the effect has just normalised, so every cast sees the
    materials after normalisation. */
module TooltipViewer {
  import opened Wrappers
  import opened Analysis
  import Materials

  datatype Point3 = Point3(x: real, y: real, z: real)

  /** A hit: where the ray met the model, the tooltip and its list index. */
  datatype Marker = Marker(position: Point3, tooltip: Tooltip, index: nat)

  type RayCast = (Materials.Object3D, real, real) -> Option<Point3>

  // ---------------------------------------------------------------------
  // Image pixels to normalised device coordinates

  /** Inside the image the x coordinate lands in [-1, 1], and the pixel
      map takes it back to `cx`. */
  function NdcX(cx: real, width: real): (x: real)
    requires width != 0.0
    ensures PixelX(x, width) == cx
    ensures 0.0 < width && 0.0 <= cx <= width ==> -1.0 <= x <= 1.0
  {
    assert cx / width * width == cx;
    cx / width * 2.0 - 1.0
  }

  /** Y is flipped: image rows grow downwards, NDC grows upwards. */
  function NdcY(cy: real, height: real): (y: real)
    requires height != 0.0
    ensures PixelY(y, height) == cy
    ensures 0.0 < height && 0.0 <= cy <= height ==> -1.0 <= y <= 1.0
  {
    assert cy / height * height == cy;
    -(cy / height) * 2.0 + 1.0
  }

  /** The inverse maps, back from NDC to pixels. */
  function PixelX(x: real, width: real): real { (x + 1.0) / 2.0 * width }
  function PixelY(y: real, height: real): real { (1.0 - y) / 2.0 * height }

  /** A centre inside the image lands inside the NDC square. */
  lemma NdcInRange(cx: real, cy: real, width: real, height: real)
    requires 0.0 < width && 0.0 < height
    requires 0.0 <= cx <= width && 0.0 <= cy <= height
    ensures -1.0 <= NdcX(cx, width) <= 1.0
    ensures -1.0 <= NdcY(cy, height) <= 1.0
  {
    assert 0.0 <= cx / width <= 1.0 by {
      assert cx / width * width == cx;
    }
    assert 0.0 <= cy / height <= 1.0 by {
      assert cy / height * height == cy;
    }
  }

  /** The image's left and right edges map to -1 and +1, its top to +1 and
      its bottom to -1. */
  lemma NdcCorners(width: real, height: real)
    requires width != 0.0 && height != 0.0
    ensures NdcX(0.0, width) == -1.0 && NdcX(width, width) == 1.0
    ensures NdcY(0.0, height) == 1.0 && NdcY(height, height) == -1.0
  {
  }

  /** The projection is a bijection between pixels and NDC. */
  lemma NdcRoundTrip(cx: real, cy: real, x: real, y: real, width: real, height: real)
    requires width != 0.0 && height != 0.0
    ensures PixelX(NdcX(cx, width), width) == cx && PixelY(NdcY(cy, height), height) == cy
    ensures NdcX(PixelX(x, width), width) == x && NdcY(PixelY(y, height), height) == y
  {
    var a, b := (x + 1.0) / 2.0, (1.0 - y) / 2.0;
    MulDiv(a, width);
    assert PixelX(x, width) == a * width;
    MulDiv(b, height);
    assert PixelY(y, height) == b * height;
  }

  lemma MulDiv(a: real, d: real)
    requires d != 0.0
    ensures a * d / d == a
  {
    var q := a * d / d;
    assert q * d == a * d;
    assert (q - a) * d == 0.0;
  }

  /** Lower in the image means lower in NDC; further right means further right. */
  lemma NdcMonotone(c1: real, c2: real, width: real, height: real)
    requires 0.0 < width && 0.0 < height && c1 < c2
    ensures NdcX(c1, width) < NdcX(c2, width)
    ensures NdcY(c1, height) > NdcY(c2, height)
  {
    assert c1 / width < c2 / width by {
      assert c1 / width * width == c1 && c2 / width * width == c2;
    }
    assert c1 / height < c2 / height by {
      assert c1 / height * height == c1 && c2 / height * height == c2;
    }
  }

  // ---------------------------------------------------------------------
  // Marker selection

  function Cast(scene: Materials.Object3D, t: Tooltip, ray: RayCast, width: real, height: real): Option<Point3>
    requires width != 0.0 && height != 0.0
  {
    ray(scene, NdcX(t.center.x, width), NdcY(t.center.y, height))
  }

  /** The markers for the first `n` tooltips, in list order. */
  function MarkersUpTo(scene: Materials.Object3D, ts: seq<Tooltip>, ray: RayCast,
                       width: real, height: real, n: nat): seq<Marker>
    requires width != 0.0 && height != 0.0 && n <= |ts|
  {
    if n == 0 then []
    else
      MarkersUpTo(scene, ts, ray, width, height, n - 1) +
      match Cast(scene, ts[n - 1], ray, width, height)
      case Some(p) => [Marker(p, ts[n - 1], n - 1)]
      case None => []
  }

  /** The markers of all tooltips: at most one per tooltip, in list order,
      each carrying its tooltip. */
  function Markers(scene: Materials.Object3D, ts: seq<Tooltip>, ray: RayCast,
                   width: real, height: real): (ms: seq<Marker>)
    requires width != 0.0 && height != 0.0
    ensures |ms| <= |ts|
    ensures forall k :: 0 <= k < |ms| ==> ms[k].index < |ts| && ms[k].tooltip == ts[ms[k].index]
    ensures forall k, l :: 0 <= k < l < |ms| ==> ms[k].index < ms[l].index
  {
    MarkersSound(scene, ts, ray, width, height, |ts|);
    MarkersOrdered(scene, ts, ray, width, height, |ts|);
    MarkersUpTo(scene, ts, ray, width, height, |ts|)
  }

  /** Every marker belongs to one of the first `n` tooltips whose ray hit,
      sits at the hit point and carries that tooltip. */
  lemma {:induction false} MarkersSound(scene: Materials.Object3D, ts: seq<Tooltip>, ray: RayCast,
                                        width: real, height: real, n: nat)
    requires width != 0.0 && height != 0.0 && n <= |ts|
    ensures var ms := MarkersUpTo(scene, ts, ray, width, height, n);
      && |ms| <= n
      && forall k :: 0 <= k < |ms| ==>
           ms[k].index < n && ms[k].tooltip == ts[ms[k].index]
           && Cast(scene, ts[ms[k].index], ray, width, height) == Some(ms[k].position)
  {
    if n > 0 {
      MarkersSound(scene, ts, ray, width, height, n - 1);
    }
  }

  /** Markers come in strictly increasing index order. */
  lemma {:induction false} MarkersOrdered(scene: Materials.Object3D, ts: seq<Tooltip>, ray: RayCast,
                                          width: real, height: real, n: nat)
    requires width != 0.0 && height != 0.0 && n <= |ts|
    ensures var ms := MarkersUpTo(scene, ts, ray, width, height, n);
      forall k, l :: 0 <= k < l < |ms| ==> ms[k].index < ms[l].index
  {
    if n > 0 {
      MarkersOrdered(scene, ts, ray, width, height, n - 1);
      MarkersSound(scene, ts, ray, width, height, n - 1);
    }
  }

  predicate HasMarker(ms: seq<Marker>, i: nat) {
    exists k :: 0 <= k < |ms| && ms[k].index == i
  }

  /** Every one of the first `n` tooltips whose ray hits has a marker. */
  lemma {:induction false} MarkersComplete(scene: Materials.Object3D, ts: seq<Tooltip>, ray: RayCast,
                                           width: real, height: real, n: nat)
    requires width != 0.0 && height != 0.0 && n <= |ts|
    ensures var ms := MarkersUpTo(scene, ts, ray, width, height, n);
      forall i :: 0 <= i < n && Cast(scene, ts[i], ray, width, height).Some? ==> HasMarker(ms, i)
  {
    if n > 0 {
      MarkersComplete(scene, ts, ray, width, height, n - 1);
      var prev := MarkersUpTo(scene, ts, ray, width, height, n - 1);
      var ms := MarkersUpTo(scene, ts, ray, width, height, n);
      forall i | 0 <= i < n && Cast(scene, ts[i], ray, width, height).Some?
        ensures HasMarker(ms, i)
      {
        var tail := match Cast(scene, ts[n - 1], ray, width, height)
          case Some(p) => [Marker(p, ts[n - 1], n - 1)]
          case None => [];
        assert ms == prev + tail;
        if i < n - 1 {
          var k :| 0 <= k < |prev| && prev[k].index == i;
          assert ms[k] == prev[k];
        } else {
          assert ms[|prev|] == tail[0];
          assert ms[|prev|].index == i;
        }
      }
    }
  }

  /** A marker is produced for tooltip `i` iff its ray hits, and it is built
      from the hit point. */
  lemma MarkerIffHit(scene: Materials.Object3D, ts: seq<Tooltip>, ray: RayCast,
                     width: real, height: real, i: nat)
    requires width != 0.0 && height != 0.0 && i < |ts|
    ensures var ms := Markers(scene, ts, ray, width, height);
      Cast(scene, ts[i], ray, width, height).Some? <==> HasMarker(ms, i)
    ensures var ms := Markers(scene, ts, ray, width, height);
      forall k :: 0 <= k < |ms| && ms[k].index == i ==>
        Cast(scene, ts[i], ray, width, height) == Some(ms[k].position) && ms[k].tooltip == ts[i]
  {
    MarkersSound(scene, ts, ray, width, height, |ts|);
    MarkersComplete(scene, ts, ray, width, height, |ts|);
  }

  /** When every ray hits, there is one marker per tooltip, in list order. */
  lemma {:induction false} AllHit(scene: Materials.Object3D, ts: seq<Tooltip>, ray: RayCast,
                                  width: real, height: real, n: nat)
    requires width != 0.0 && height != 0.0 && n <= |ts|
    requires forall i :: 0 <= i < |ts| ==> Cast(scene, ts[i], ray, width, height).Some?
    ensures var ms := MarkersUpTo(scene, ts, ray, width, height, n);
      |ms| == n && forall k :: 0 <= k < n ==> ms[k].index == k && ms[k].tooltip == ts[k]
  {
    if n > 0 {
      AllHit(scene, ts, ray, width, height, n - 1);
    }
  }

  /** When no ray hits, there are no markers. */
  lemma {:induction false} NoneHit(scene: Materials.Object3D, ts: seq<Tooltip>, ray: RayCast,
                                   width: real, height: real, n: nat)
    requires width != 0.0 && height != 0.0 && n <= |ts|
    requires forall i :: 0 <= i < |ts| ==> Cast(scene, ts[i], ray, width, height).None?
    ensures MarkersUpTo(scene, ts, ray, width, height, n) == []
  {
    if n > 0 {
      NoneHit(scene, ts, ray, width, height, n - 1);
    }
  }

  /** The `tooltips.forEach` loop pushing into `markers`. */
  method ComputeMarkers(scene: Materials.Object3D, ts: seq<Tooltip>, ray: RayCast,
                        width: real, height: real) returns (markers: seq<Marker>)
    requires width != 0.0 && height != 0.0
    ensures markers == Markers(scene, ts, ray, width, height)
  {
    markers := [];
    var index := 0;
    while index < |ts|
      invariant 0 <= index <= |ts|
      invariant markers == MarkersUpTo(scene, ts, ray, width, height, index)
    {
      var tooltip := ts[index];
      var x := NdcX(tooltip.center.x, width);
      var y := NdcY(tooltip.center.y, height);
      var hit := ray(scene, x, y);
      if hit.Some? {
        markers := markers + [Marker(hit.value, tooltip, index)];
      }
      index := index + 1;
    }
  }

  /** One run of the effect.  `meshMounted` is `meshRef.current` being set.
      Returns the scene as the traversal left it, whether the traversal
      completed, and the lists passed to `onMarkersReady`, in call order.
      A mesh without a material makes the traversal throw, which ends the
      effect before any ray is cast. */
  method MarkerEffect(fbx: Materials.Object3D, meshMounted: bool, ts: seq<Tooltip>, ray: RayCast,
                      width: real, height: real)
    returns (scene: Materials.Object3D, completed: bool, reported: seq<seq<Marker>>)
    requires width != 0.0 && height != 0.0
    ensures (scene, completed) == Materials.TraverseTooltip(fbx)
    ensures completed <==> Materials.MeshesHaveMaterial(Materials.Nodes(fbx))
    ensures completed ==> scene == Materials.Traverse(Materials.TooltipRule, fbx)
    ensures reported == if completed && meshMounted && |ts| > 0
                        then [Markers(scene, ts, ray, width, height)] else []
  {
    scene, completed := Materials.TraverseTooltip(fbx).0, Materials.TraverseTooltip(fbx).1;
    Materials.TraverseTooltipCompletes(fbx);
    reported := [];
    if !completed {
      return;
    }
    if meshMounted && |ts| > 0 {
      var markers := ComputeMarkers(scene, ts, ray, width, height);
      reported := reported + [markers];
    }
  }

  /** `onMarkersReady` is called at most once per run, not at all with an
      empty tooltip list, an unmounted model or a traversal that threw, and
      the list it gets names each tooltip at most once. */
  lemma ReportedAtMostOnce(fbx: Materials.Object3D, meshMounted: bool, ts: seq<Tooltip>, ray: RayCast,
                           width: real, height: real, scene: Materials.Object3D, completed: bool,
                           reported: seq<seq<Marker>>)
    requires width != 0.0 && height != 0.0
    requires (scene, completed) == Materials.TraverseTooltip(fbx)
    requires reported == if completed && meshMounted && |ts| > 0
                         then [Markers(scene, ts, ray, width, height)] else []
    ensures |reported| <= 1
    ensures (|ts| == 0 || !meshMounted || !completed) ==> reported == []
    ensures |reported| == 1 ==> |reported[0]| <= |ts|
    ensures |reported| == 1 ==> forall k :: 0 <= k < |reported[0]| ==> reported[0][k].index < |ts|
    ensures |reported| == 1 ==>
      forall k, l :: 0 <= k < l < |reported[0]| ==> reported[0][k].index != reported[0][l].index
  {
    if |reported| == 1 {
      MarkersSound(scene, ts, ray, width, height, |ts|);
      MarkersOrdered(scene, ts, ray, width, height, |ts|);
    }
  }
}
