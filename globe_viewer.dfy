/** The camera telemetry tracker of the globe view (src/components/GlobeViewer.tsx, the
    camera-movement effect).  After every rendered frame it works out the camera position and
    the point of the globe under the screen centre, rounds them, and reports them to the
    application when the rounded values differ from the ones it reported last.

    The Cesium queries a frame makes (camera position, view rectangle, pick ray, ellipsoid
    pick, globe pick, depth pick, ray/ellipsoid intersection) are the fields of a `Probe`;
    converting a Cartesian point to degrees of latitude and longitude is the parameter
    `toCartographic`.  `Number(x.toFixed(d))` is `ScaledRound(x, d)`, a whole number of
    10^-d units. */
module GlobeViewer {
  import opened Wrappers
  import opened JsRuntime

  /** A double as Cesium may hand it back: a finite value, or NaN / an infinity. */
  datatype Num = Finite(v: real) | NonFinite

  /** A point in Cesium's Earth-fixed Cartesian frame (metres). */
  datatype Cartesian = Cartesian(x: real, y: real, z: real)

  /** A latitude/longitude pair in degrees. */
  datatype Cartographic = Cartographic(lat: Num, lng: Num)

  /** The camera position: latitude and longitude in degrees, height in metres. */
  datatype CameraPosition = CameraPosition(lat: real, lng: real, height: real)

  /** Where a ray first meets the ellipsoid: the ray parameter `start` and the point there. */
  datatype Hit = Hit(start: real, point: Cartesian)

  /** The pick ray through the screen centre: its ellipsoid intersection and what
      `globe.pick` returns for it. */
  datatype PickRay = PickRay(hit: Option<Hit>, globePick: Option<Cartesian>)

  /** Everything one run of the handler reads from the viewer. */
  datatype Probe = Probe(
    camera: Option<CameraPosition>,       // camera.positionCartographic
    rectCenter: Option<Cartographic>,     // centre of camera.computeViewRectangle, in degrees
    ray: Option<PickRay>,                 // camera.getPickRay(centre)
    ellipsoidPick: Option<Cartesian>,     // camera.pickEllipsoid(centre)
    pickPosition: Option<Cartesian>)      // scene.pickPosition(centre)

  /** What the handler reports: camera latitude and longitude in 10^-6 degrees, height in
      centimetres, centre latitude and longitude in 10^-7 degrees. */
  datatype Frame = Frame(lat: int, lng: int, alt: int, centerLat: int, centerLng: int)

  type ToCartographic = Cartesian -> Option<Cartographic>

  // ---------------------------------------------------------------- the reference definition

  /** The pick ray meets the ellipsoid ahead of the camera. */
  predicate AheadHit(p: Probe) {
    p.ray.Some? && p.ray.value.hit.Some? && p.ray.value.hit.value.start >= 0.0
  }

  /** The point under the screen centre, by precedence: the ray/ellipsoid hit when it lies
      ahead of the camera, then the ellipsoid pick, then the globe pick, then the depth pick. */
  function PickedPoint(p: Probe): Option<Cartesian> {
    if p.ray.Some? && p.ray.value.hit.Some? && p.ray.value.hit.value.start >= 0.0 then
      Some(p.ray.value.hit.value.point)
    else if p.ellipsoidPick.Some? then p.ellipsoidPick
    else if p.ray.Some? && p.ray.value.globePick.Some? then p.ray.value.globePick
    else p.pickPosition
  }

  /** The centre in degrees: the picked point when it converts, otherwise the centre of the
      view rectangle, otherwise nothing. */
  function CenterOf(p: Probe, toCartographic: ToCartographic): Option<Cartographic> {
    var picked := PickedPoint(p);
    if picked.Some? && toCartographic(picked.value).Some? then toCartographic(picked.value)
    else p.rectCenter
  }

  /** One centre coordinate in 10^-7 units: the centre's own value when there is one and it is
      finite, otherwise the camera's coordinate already rounded to 10^-6. */
  function CenterUnits(c: Option<Num>, cameraUnits: int): int {
    var x := if c.Some? && c.value.Finite? then c.value.v else cameraUnits as real / 1000000.0;
    ScaledRound(x, 7)
  }

  /** The rounded values of a frame, or `None` when the camera has no position. */
  function FrameOf(p: Probe, toCartographic: ToCartographic): Option<Frame> {
    if p.camera.None? then None
    else
      var pos := p.camera.value;
      var lat := ScaledRound(pos.lat, 6);
      var lng := ScaledRound(pos.lng, 6);
      var center := CenterOf(p, toCartographic);
      Some(Frame(lat, lng, ScaledRound(pos.height, 2),
                 CenterUnits(if center.Some? then Some(center.value.lat) else None, lat),
                 CenterUnits(if center.Some? then Some(center.value.lng) else None, lng)))
  }

  // ---------------------------------------------------------------- properties of the reference

  /** Each pick is used only when every pick before it in the chain is missing, and the
      ray/ellipsoid hit only when it lies ahead of the camera (`start >= 0`). */
  lemma PickPrecedence(p: Probe)
    ensures AheadHit(p) ==> PickedPoint(p) == Some(p.ray.value.hit.value.point)
    ensures !AheadHit(p) && p.ellipsoidPick.Some? ==> PickedPoint(p) == p.ellipsoidPick
    ensures !AheadHit(p) && p.ellipsoidPick.None? && p.ray.Some? && p.ray.value.globePick.Some?
            ==> PickedPoint(p) == p.ray.value.globePick
    ensures !AheadHit(p) && p.ellipsoidPick.None? && !(p.ray.Some? && p.ray.value.globePick.Some?)
            ==> PickedPoint(p) == p.pickPosition
    ensures PickedPoint(p).None? <==>
      (!AheadHit(p) && p.ellipsoidPick.None? && !(p.ray.Some? && p.ray.value.globePick.Some?)
       && p.pickPosition.None?)
  {
  }

  /** Without a pick ray neither the intersection nor the globe pick can be used: the centre
      comes from the ellipsoid pick or the depth pick. */
  lemma NoRayMeansNoRayPicks(p: Probe)
    requires p.ray.None?
    ensures PickedPoint(p) == if p.ellipsoidPick.Some? then p.ellipsoidPick else p.pickPosition
  {
  }

  /** When no pick is available or the picked point does not convert, the view-rectangle
      centre is used, and a converted pick always wins over it. */
  lemma RectangleFallback(p: Probe, toCartographic: ToCartographic)
    ensures PickedPoint(p).None? ==> CenterOf(p, toCartographic) == p.rectCenter
    ensures PickedPoint(p).Some? && toCartographic(PickedPoint(p).value).None?
            ==> CenterOf(p, toCartographic) == p.rectCenter
    ensures PickedPoint(p).Some? && toCartographic(PickedPoint(p).value).Some?
            ==> CenterOf(p, toCartographic) == toCartographic(PickedPoint(p).value)
  {
  }

  /** Re-rounding a value already rounded to 10^-6 at 10^-7 is exact: the camera fallback
      reports the camera coordinate with one more zero. */
  lemma RescaleExact(n: int)
    ensures ScaledRound(n as real / 1000000.0, 7) == 10 * n
  {
    assert Pow10(7) == 10000000;
    var x := n as real / 1000000.0;
    assert x * 10000000.0 == (10 * n) as real;
  }

  /** Each centre coordinate is the rounded centre when that coordinate exists and is
      finite, and otherwise exactly the camera's rounded coordinate. */
  lemma CenterCoordinate(c: Option<Num>, cameraUnits: int)
    ensures c.Some? && c.value.Finite? ==> CenterUnits(c, cameraUnits) == ScaledRound(c.value.v, 7)
    ensures !(c.Some? && c.value.Finite?) ==> CenterUnits(c, cameraUnits) == 10 * cameraUnits
  {
    if !(c.Some? && c.value.Finite?) {
      RescaleExact(cameraUnits);
    }
  }

  /** With neither a converted pick nor a view rectangle, the reported centre is the camera's
      own rounded position. */
  lemma CameraFallback(p: Probe, toCartographic: ToCartographic)
    requires p.camera.Some? && CenterOf(p, toCartographic).None?
    ensures var f := FrameOf(p, toCartographic).value;
      f.centerLat == 10 * f.lat && f.centerLng == 10 * f.lng
  {
    var lat := ScaledRound(p.camera.value.lat, 6);
    var lng := ScaledRound(p.camera.value.lng, 6);
    CenterCoordinate(None, lat);
    CenterCoordinate(None, lng);
  }

  /** The reported values are the camera position rounded to 6, 6 and 2 decimals; a frame
      exists exactly when the camera has a position. */
  lemma FrameRounding(p: Probe, toCartographic: ToCartographic)
    ensures FrameOf(p, toCartographic).Some? <==> p.camera.Some?
    ensures p.camera.Some? ==>
      var f := FrameOf(p, toCartographic).value;
      var pos := p.camera.value;
      && pos.lat * 1000000.0 - 0.5 <= f.lat as real <= pos.lat * 1000000.0 + 0.5
      && pos.lng * 1000000.0 - 0.5 <= f.lng as real <= pos.lng * 1000000.0 + 0.5
      && pos.height * 100.0 - 0.5 <= f.alt as real <= pos.height * 100.0 + 0.5
  {
    if p.camera.Some? {
      assert Pow10(6) == 1000000 && Pow10(2) == 100;
    }
  }

  // ---------------------------------------------------------------- the tracker

  /** The history is a report log: no report repeats the one before it. */
  predicate NoRepeats(reports: seq<Frame>) {
    forall i :: 0 < i < |reports| ==> reports[i] != reports[i - 1]
  }

  /** One mounted camera-movement effect: its five "last reported" variables (`last`, where
      `None` stands for the NaNs they start as), whether its post-render listener is
      registered, whether the viewer has been destroyed, and the reports made so far. */
  class CameraTracker {
    var last: Option<Frame>
    var listening: bool
    var destroyed: bool
    var reports: seq<Frame>

    /** The last values are those of the last report, and no report repeats the previous. */
    predicate Valid()
      reads this
    {
      && last == (if reports == [] then None else Some(reports[|reports| - 1]))
      && NoRepeats(reports)
    }

    /** Mounting the effect: the last values start as NaN, the handler is registered on
        post-render and called once straight away. */
    constructor Mount(p: Probe, toCartographic: ToCartographic)
      ensures Valid() && listening && !destroyed
      ensures reports == (if p.camera.Some? then [FrameOf(p, toCartographic).value] else [])
    {
      last := None;
      listening := true;
      destroyed := false;
      reports := [];
      new;
      Handle(p, toCartographic);
    }

    /** The handler: one run with the viewer's current answers. */
    method Handle(p: Probe, toCartographic: ToCartographic)
      requires Valid()
      modifies this
      ensures Valid()
      ensures listening == old(listening) && destroyed == old(destroyed)
      ensures FrameOf(p, toCartographic).None? ==> last == old(last) && reports == old(reports)
      ensures FrameOf(p, toCartographic).Some? && old(last) == FrameOf(p, toCartographic)
              ==> last == old(last) && reports == old(reports)
      ensures FrameOf(p, toCartographic).Some? && old(last) != FrameOf(p, toCartographic)
              ==> last == FrameOf(p, toCartographic)
                  && reports == old(reports) + [FrameOf(p, toCartographic).value]
    {
      if p.camera.None? {
        return;
      }
      var pos := p.camera.value;
      var centerLat: Option<Num> := None;
      var centerLng: Option<Num> := None;

      if p.rectCenter.Some? {
        centerLat := Some(p.rectCenter.value.lat);
        centerLng := Some(p.rectCenter.value.lng);
      }

      var picked := PickCenter(p);
      if picked.Some? {
        var cart := toCartographic(picked.value);
        if cart.Some? {
          centerLat := Some(cart.value.lat);
          centerLng := Some(cart.value.lng);
        }
      }

      var lat := ScaledRound(pos.lat, 6);
      var lng := ScaledRound(pos.lng, 6);
      var alt := ScaledRound(pos.height, 2);
      var cLat := CenterUnits(centerLat, lat);
      var cLng := CenterUnits(centerLng, lng);
      var frame := Frame(lat, lng, alt, cLat, cLng);
      assert Some(frame) == FrameOf(p, toCartographic);

      var changed := last != Some(frame);
      if !changed {
        return;
      }
      last := Some(frame);
      reports := reports + [frame];
    }

    /** The pick chain of the handler: the ray/ellipsoid hit ahead of the camera, then the
        ellipsoid pick, then the globe pick, then the scene pick. */
    static method PickCenter(p: Probe) returns (picked: Option<Cartesian>)
      ensures picked == PickedPoint(p)
    {
      var globePick := if p.ray.Some? then p.ray.value.globePick else None;
      var rayEllipsoidPick: Option<Cartesian> := None;
      if p.ray.Some? {
        var hit := p.ray.value.hit;
        if hit.Some? && hit.value.start >= 0.0 {
          rayEllipsoidPick := Some(hit.value.point);
        }
      }

      picked := rayEllipsoidPick;
      if picked.None? { picked := p.ellipsoidPick; }
      if picked.None? { picked := globePick; }
      if picked.None? { picked := p.pickPosition; }
    }

    /** Whether a rendered frame reaches the handler: it is registered and the viewer lives. */
    predicate Active()
      reads this
    {
      listening && !destroyed
    }

    /** A rendered frame: the handler runs while it is registered on a live viewer. */
    method RenderFrame(p: Probe, toCartographic: ToCartographic)
      requires Valid()
      modifies this
      ensures Valid()
      ensures listening == old(listening) && destroyed == old(destroyed)
      ensures !Active() ==> last == old(last) && reports == old(reports)
      ensures Active() && FrameOf(p, toCartographic).Some? && old(last) != FrameOf(p, toCartographic)
              ==> reports == old(reports) + [FrameOf(p, toCartographic).value]
      ensures Active() && !(FrameOf(p, toCartographic).Some? && old(last) != FrameOf(p, toCartographic))
              ==> reports == old(reports)
    {
      if Active() {
        Handle(p, toCartographic);
      }
    }

    /** The viewer is destroyed: it renders no more frames. */
    method DestroyViewer()
      modifies this
      ensures destroyed && listening == old(listening)
      ensures last == old(last) && reports == old(reports)
    {
      destroyed := true;
    }

    /** The effect's clean-up: the listener is removed unless the viewer is already
        destroyed; either way no frame is handled afterwards. */
    method Teardown()
      modifies this
      ensures listening == (old(listening) && old(destroyed))
      ensures destroyed == old(destroyed)
      ensures last == old(last) && reports == old(reports)
      ensures !Active()
    {
      if !destroyed {
        listening := false;
      }
    }
  }
}
