/**
 * DeckComponent: the component's mutable state and the handlers and
 * per-frame routines that update it in place. Each routine is specified by
 * the matching function of Keys, Movement, Swing or Icons, where its
 * properties are proved.
 */
module DeckModel {
  import opened Wrappers
  import Keys
  import opened Movement
  import Swing
  import Icons

  /** The camera the engine is given each frame. */
  datatype ViewState = ViewState(longitude: real, latitude: real, zoom: int, pitch: int, bearing: int)

  class DeckComponent {
    var center: Point
    var mouseAngle: real
    var keyPressed: set<string>
    const actionDuration: int := Swing.ActionDuration
    var actionStart: Option<int>
    var actionAngle: real
    const actionTargetAngle: real := Swing.ActionTargetAngle
    const characterIcons: seq<Icons.Icon> := Icons.CharacterIcons
    /** The queries put to the engine by the frames so far, oldest first. */
    ghost var engineCalls: seq<EngineCall>

    /** The animator's part of the state. */
    ghost function Action(): Swing.Action
      reads this
    {
      Swing.Action(actionStart, actionAngle)
    }

    constructor ()
      ensures center == Point(0.0, 0.0) && mouseAngle == 0.0 && keyPressed == {}
      ensures Action() == Swing.Idle && engineCalls == []
    {
      center := Point(0.0, 0.0);
      mouseAngle := 0.0;
      keyPressed := {};
      actionStart := None;
      actionAngle := 0.0;
      engineCalls := [];
    }

    /** The window lost focus: no key is held any more. */
    method OnBlur()
      modifies this`keyPressed
      ensures keyPressed == Keys.Apply(old(keyPressed), Keys.Blur) == {}
    {
      keyPressed := {};
    }

    /** A key was released: that key alone leaves the set. */
    method OnKeyUp(key: string)
      modifies this`keyPressed
      ensures keyPressed == Keys.Apply(old(keyPressed), Keys.KeyUp(key)) == old(keyPressed) - {key}
    {
      keyPressed := keyPressed - {key};
    }

    /** A key was pressed: it joins the set. */
    method OnKeyDown(key: string)
      modifies this`keyPressed
      ensures keyPressed == Keys.Apply(old(keyPressed), Keys.KeyDown(key)) == old(keyPressed) + {key}
    {
      keyPressed := keyPressed + {key};
    }

    /** The map was clicked at time `now`: a swing starts unless one is in flight. */
    method OnClick(now: int)
      modifies this`actionStart
      ensures Action() == Swing.Click(old(Action()), now)
      ensures old(actionStart).Some? ==> actionStart == old(actionStart)
    {
      if actionStart == None {
        actionStart := Some(now);
      }
    }

    /**
     * The pointer moved to `coords` (None when it is off the map). The facing
     * angle is the bearing from the centre to the pointer less 270 degrees;
     * `atan2Degrees(dy, dx)` is `atan2` converted to degrees.
     */
    method OnHover(coords: Option<Point>, atan2Degrees: (real, real) -> real)
      modifies this`mouseAngle
      ensures coords.None? ==> mouseAngle == old(mouseAngle)
      ensures coords.Some? ==>
        mouseAngle == atan2Degrees(coords.value.y - center.y, coords.value.x - center.x) - 270.0
    {
      if coords.None? {
        return;
      }
      var angle := atan2Degrees(coords.value.y - center.y, coords.value.x - center.x);
      mouseAngle := angle - 270.0;
    }

    /**
     * One frame of movement: build the proposal from the held keys, and if it
     * moves, project it, pick under the pixel and commit the snapped or the
     * raw proposal. A failed projection leaves the centre unchanged.
     */
    method UpdateCenter(deck: Option<Deck>, nearestPointOnLine: (seq<Point>, Point) -> Point)
      modifies this`center, this`engineCalls
      ensures center == CenterStep(old(center), keyPressed, deck, nearestPointOnLine).center
      ensures engineCalls == old(engineCalls) + CenterStep(old(center), keyPressed, deck, nearestPointOnLine).calls
    {
      var x, y := center.x, center.y;
      if |keyPressed| > 0 {
        var offset := Offset;
        if "a" in keyPressed || "ArrowLeft" in keyPressed {
          x := x - offset;
        }
        if "d" in keyPressed || "ArrowRight" in keyPressed {
          x := x + offset;
        }
        if "s" in keyPressed || "ArrowDown" in keyPressed {
          y := y - offset;
        }
        if "w" in keyPressed || "ArrowUp" in keyPressed {
          y := y + offset;
        }
      }
      assert Point(x, y) == Proposal(center, keyPressed);
      if x != center.x || y != center.y {
        var proposal := Point(x, y);
        if deck.None? {
          return;
        }
        var newCenterPixel := deck.value.project(proposal);
        engineCalls := engineCalls + [Project(proposal)];
        if newCenterPixel.None? {
          return;
        }
        var request := PickRequest(newCenterPixel.value.x, newCenterPixel.value.y, 1, [MapLayerId]);
        var hits := deck.value.pickObject(request);
        engineCalls := engineCalls + [Pick(request)];
        if hits.Some? && hits.value.obj.Some? {
          var snapped := nearestPointOnLine(hits.value.obj.value.outerRing, proposal);
          x, y := snapped.x, snapped.y;
        }
        center := Point(x, y);
      }
    }

    /** One frame of the swing animator at time `now`. */
    method UpdateAction(now: int)
      modifies this`actionStart, this`actionAngle
      ensures Action() == Swing.Tick(old(Action()), now, actionDuration, actionTargetAngle)
    {
      if actionStart.Some? && actionStart.value != 0 {
        var delta := now - actionStart.value;
        var progress := delta as real / actionDuration as real;
        if progress > 1.0 {
          actionAngle := 0.0;
          actionStart := None;
          return;
        }
        if progress > 0.5 {
          var half := actionTargetAngle / 2.0;
          actionAngle := half - (actionTargetAngle * progress - half);
          return;
        }
        actionAngle := actionTargetAngle * progress;
      }
    }

    /**
     * One display frame at time `now`: move, animate, then hand the engine a
     * camera on the new centre, the sprites' positions (all at the new
     * centre, raised to their z-index) and their rotations.
     */
    method RenderLayers(now: int, deck: Option<Deck>, nearestPointOnLine: (seq<Point>, Point) -> Point)
      returns (view: ViewState, positions: seq<Icons.Position>, angles: seq<real>)
      modifies this`center, this`engineCalls, this`actionStart, this`actionAngle
      ensures center == CenterStep(old(center), keyPressed, deck, nearestPointOnLine).center
      ensures engineCalls == old(engineCalls) + CenterStep(old(center), keyPressed, deck, nearestPointOnLine).calls
      ensures Action() == Swing.Tick(old(Action()), now, actionDuration, actionTargetAngle)
      ensures view == ViewState(center.x, center.y, 16, 0, 0)
      ensures |positions| == |characterIcons|
      ensures forall i :: 0 <= i < |positions| ==>
        positions[i] == Icons.Position(center.x, center.y, characterIcons[i].zIndex as real)
      ensures |angles| == |characterIcons|
      ensures forall i :: 0 <= i < |angles| ==> angles[i] == Icons.IconAngle(mouseAngle, actionAngle, characterIcons[i])
    {
      UpdateCenter(deck, nearestPointOnLine);
      UpdateAction(now);
      var c, m, a, icons := center, mouseAngle, actionAngle, characterIcons;
      positions := seq(|icons|, i requires 0 <= i < |icons| => Icons.Position(c.x, c.y, icons[i].zIndex as real));
      angles := seq(|icons|, i requires 0 <= i < |icons| => Icons.IconAngle(m, a, icons[i]));
      view := ViewState(center.x, center.y, 16, 0, 0);
    }
  }

  /**
   * During a swing (progress between 0 and 1) the action-linked sprites turn
   * away from the pointer by at most half the target angle, 45 degrees, and
   * always towards the target's side.
   */
  lemma SwingTurnsSpritesAtMostHalfTarget(mouseAngle: real, progress: real, d: Icons.Icon)
    requires 0.0 <= progress <= 1.0
    ensures var r := Icons.IconAngle(mouseAngle, Swing.SwingAngle(Swing.ActionTargetAngle, progress), d);
      mouseAngle - 45.0 <= r <= mouseAngle
  {
    Swing.SwingBounded(Swing.ActionTargetAngle, progress);
  }
}
