/**
 * One frame of `updateCenter`: the held direction keys propose a new map
 * centre a fixed offset away; a proposal that moves is projected to a
 * screen pixel, the map layer is picked under that pixel, and the centre
 * becomes the proposal snapped onto the picked polygon's outer ring, or the
 * raw proposal when nothing was picked.
 *
 * The rendering engine (viewport projection and picking) and the snapping
 * routine are foreign code; they enter as function-valued parameters and
 * nothing is assumed about what they return.
 */
module Movement {
  import opened Wrappers

  /** A position in map coordinates: x is longitude, y latitude. */
  datatype Point = Point(x: real, y: real)

  /** A screen position returned by the viewport projection. */
  datatype Pixel = Pixel(x: real, y: real)

  /** The arguments of a pick: a pixel, a radius in pixels, the layers searched. */
  datatype PickRequest = PickRequest(x: real, y: real, radius: int, layerIds: seq<string>)

  /** A polygon of the map layer, reduced to its first (outer) coordinate ring. */
  datatype Feature = Feature(outerRing: seq<Point>)

  /** What a pick reports; `obj` (the source's `object`) is absent when nothing lies under the pixel. */
  datatype PickInfo = PickInfo(obj: Option<Feature>)

  /** The engine's two queries: project a map point, pick an object at a pixel. */
  datatype Deck = Deck(project: Point -> Option<Pixel>, pickObject: PickRequest -> Option<PickInfo>)

  /** One query put to the engine during a frame. */
  datatype EngineCall = Project(point: Point) | Pick(request: PickRequest)

  /** The centre after a frame and the engine queries the frame made, in order. */
  datatype FrameResult = FrameResult(center: Point, calls: seq<EngineCall>)

  /** The distance moved per frame on each axis, in degrees. */
  const Offset: real := 0.00005

  /** The id of the map layer that holds the walkable polygons. */
  const MapLayerId: string := "GeoJsonLayer"

  predicate LeftHeld(held: set<string>) { "a" in held || "ArrowLeft" in held }
  predicate RightHeld(held: set<string>) { "d" in held || "ArrowRight" in held }
  predicate DownHeld(held: set<string>) { "s" in held || "ArrowDown" in held }
  predicate UpHeld(held: set<string>) { "w" in held || "ArrowUp" in held }

  /** The direction along one axis, -1, 0 or 1, given its two opposing keys. */
  function Direction(minus: bool, plus: bool): int {
    (if plus then 1 else 0) - (if minus then 1 else 0)
  }

  /** The value of one coordinate after the minus step and then the plus step. */
  function Shift(v: real, minus: bool, plus: bool): real {
    var stepped := if minus then v - Offset else v;
    if plus then stepped + Offset else stepped
  }

  /**
   * The proposed centre: one offset per axis in the direction of the keys
   * held, opposite keys cancelling; it differs from the centre exactly when
   * some axis does not cancel.
   */
  function Proposal(center: Point, held: set<string>): (p: Point)
    ensures p.x == center.x + Offset * Direction(LeftHeld(held), RightHeld(held)) as real
    ensures p.y == center.y + Offset * Direction(DownHeld(held), UpHeld(held)) as real
    ensures p == center <==> LeftHeld(held) == RightHeld(held) && DownHeld(held) == UpHeld(held)
  {
    if |held| > 0 then
      Point(Shift(center.x, LeftHeld(held), RightHeld(held)),
            Shift(center.y, DownHeld(held), UpHeld(held)))
    else
      center
  }

  /** The pick made under a projected pixel: radius 1, the map layer only. */
  function PickAt(pixel: Pixel): PickRequest
  {
    PickRequest(pixel.x, pixel.y, 1, [MapLayerId])
  }

  /** True when a pick reports a polygon. */
  predicate HitsPolygon(hits: Option<PickInfo>) {
    hits.Some? && hits.value.obj.Some?
  }

  /**
   * One frame of `updateCenter` starting from `center` with the keys `held`.
   * `deck` is None while the engine does not exist; `nearestPointOnLine`
   * snaps a point onto a polyline.
   */
  function CenterStep(center: Point, held: set<string>, deck: Option<Deck>,
                      nearestPointOnLine: (seq<Point>, Point) -> Point): (r: FrameResult)
    // The centre is left alone, the raw proposal, or the proposal snapped onto
    // the ring of a polygon picked under the projected proposal.
    ensures var p := Proposal(center, held);
      r.center == center || r.center == p ||
      (deck.Some? && deck.value.project(p).Some? &&
       var hits := deck.value.pickObject(PickAt(deck.value.project(p).value));
       HitsPolygon(hits) && r.center == nearestPointOnLine(hits.value.obj.value.outerRing, p))
    // The engine is queried only when the proposal moves and the engine exists;
    // a pick follows a projection only when the projection succeeded.
    ensures r.calls == [] <==> Proposal(center, held) == center || deck.None?
    ensures r.calls != [] ==> r.calls[0] == Project(Proposal(center, held))
    ensures |r.calls| <= 2
    ensures |r.calls| == 2 <==> r.calls != [] && deck.value.project(Proposal(center, held)).Some?
  {
    var p := Proposal(center, held);
    if p == center || deck.None? then
      FrameResult(center, [])
    else
      match deck.value.project(p)
      case None => FrameResult(center, [Project(p)])
      case Some(pixel) =>
        var request := PickAt(pixel);
        var hits := deck.value.pickObject(request);
        var calls := [Project(p), Pick(request)];
        if HitsPolygon(hits) then
          FrameResult(nearestPointOnLine(hits.value.obj.value.outerRing, p), calls)
        else
          FrameResult(p, calls)
  }

  /** With no key held, or every held key cancelled by its opposite, nothing is queried and nothing moves. */
  lemma AtRestNoQuery(center: Point, held: set<string>, deck: Option<Deck>,
                      nearestPointOnLine: (seq<Point>, Point) -> Point)
    requires LeftHeld(held) == RightHeld(held) && DownHeld(held) == UpHeld(held)
    ensures CenterStep(center, held, deck, nearestPointOnLine) == FrameResult(center, [])
  {
  }

  /** A proposal the engine cannot project (or no engine at all) leaves the centre where it was. */
  lemma UnprojectedIsNoop(center: Point, held: set<string>, deck: Option<Deck>,
                          nearestPointOnLine: (seq<Point>, Point) -> Point)
    requires deck.None? || deck.value.project(Proposal(center, held)).None?
    ensures CenterStep(center, held, deck, nearestPointOnLine).center == center
  {
  }

  /**
   * A moving, projected frame commits the snapped point when the pick hits a
   * polygon and the raw proposal otherwise, after exactly one projection and
   * one pick at the projected pixel.
   */
  lemma MovingFrame(center: Point, held: set<string>, deck: Option<Deck>,
                    nearestPointOnLine: (seq<Point>, Point) -> Point)
    requires Proposal(center, held) != center
    requires deck.Some? && deck.value.project(Proposal(center, held)).Some?
    ensures var p := Proposal(center, held);
      var request := PickAt(deck.value.project(p).value);
      var hits := deck.value.pickObject(request);
      var r := CenterStep(center, held, deck, nearestPointOnLine);
      r.calls == [Project(p), Pick(request)] &&
      r.center == (if HitsPolygon(hits) then nearestPointOnLine(hits.value.obj.value.outerRing, p) else p)
  {
  }

  /** True when the engine projects every point and never picks a polygon. */
  ghost predicate OpenGround(deck: Deck) {
    (forall p :: deck.project(p).Some?) && (forall q :: !HitsPolygon(deck.pickObject(q)))
  }

  /** The centre after `n` frames with the same keys held. */
  function Walk(center: Point, held: set<string>, deck: Option<Deck>,
                nearestPointOnLine: (seq<Point>, Point) -> Point, n: nat): Point
  {
    if n == 0 then center
    else CenterStep(Walk(center, held, deck, nearestPointOnLine, n - 1), held, deck, nearestPointOnLine).center
  }

  /**
   * Away from any polygon, holding the same keys for `n` frames moves the
   * centre `n` offsets per non-cancelled axis: the speed is per frame, not
   * per unit of time.
   */
  lemma {:induction false} WalkOnOpenGround(center: Point, held: set<string>, deck: Deck,
                                            nearestPointOnLine: (seq<Point>, Point) -> Point, n: nat)
    requires OpenGround(deck)
    ensures Walk(center, held, Some(deck), nearestPointOnLine, n) ==
      Point(center.x + (n as real) * Offset * Direction(LeftHeld(held), RightHeld(held)) as real,
            center.y + (n as real) * Offset * Direction(DownHeld(held), UpHeld(held)) as real)
  {
    if n > 0 {
      WalkOnOpenGround(center, held, deck, nearestPointOnLine, n - 1);
      var prev := Walk(center, held, Some(deck), nearestPointOnLine, n - 1);
      var p := Proposal(prev, held);
      assert deck.project(p).Some?;
      assert !HitsPolygon(deck.pickObject(PickAt(deck.project(p).value)));
      assert CenterStep(prev, held, Some(deck), nearestPointOnLine).center == p;
    }
  }

  /** Holding 'w' at the origin with nothing under the proposal moves the centre up one offset. */
  lemma NorthFromOrigin(deck: Deck, nearestPointOnLine: (seq<Point>, Point) -> Point)
    requires deck.project(Point(0.0, Offset)).Some?
    requires !HitsPolygon(deck.pickObject(PickAt(deck.project(Point(0.0, Offset)).value)))
    ensures CenterStep(Point(0.0, 0.0), {"w"}, Some(deck), nearestPointOnLine).center == Point(0.0, 0.00005)
  {
  }
}
