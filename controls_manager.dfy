/**
 * modules/ControlsManager.js: the keyboard dictionary, the two on-screen
 * controllers (the throttle lever on the left, the flight stick on the right),
 * the bookkeeping that binds each controller to at most one touch, and the
 * value mappings of the lever and the stick.
 *
 * What the DOM supplies is abstracted into inputs: a touch carries the
 * controller under its point (`getControllerType(elementFromPoint(...))`)
 * and the geometry of the two controls is a `Layout` value.
 */
module Controls {
  import opened Wrappers
  import opened HostMath
  import opened MathUtils

  datatype Controller = LeftJoystick | RightJoystick

  /** `{ x, y, active }` of one on-screen controller. */
  datatype Joystick = Joystick(x: real, y: real, active: bool)

  /** `{ x: 0, y: 0, active: false }` */
  const Centred: Joystick := Joystick(0.0, 0.0, false)

  /** `mobileControls` (its never-read `directionalControls` part is not kept). */
  datatype MobileControls = MobileControls(leftJoystick: Joystick, rightJoystick: Joystick)

  const AtRest: MobileControls := MobileControls(Centred, Centred)

  /** One entry of `changedTouches`, with the controller its point lies over. */
  datatype Touch = Touch(identifier: int, clientX: real, clientY: real, target: Option<Controller>)

  /** A value of the `touchStates` map. */
  datatype TouchState = TouchState(controllerType: Controller, startX: real, startY: real, currentX: real, currentY: real)

  /** `activeTouches`: the touch id each controller is bound to, or `null`. */
  datatype ActiveTouches = ActiveTouches(leftJoystick: Option<int>, rightJoystick: Option<int>)

  /** The bounding rectangles `getBoundingClientRect` reports for the lever and the stick base. */
  datatype Layout = Layout(leverTop: real, leverHeight: real, stickLeft: real, stickTop: real, stickWidth: real, stickHeight: real)

  /** What `getControlState()` hands to the physics. */
  datatype ControlState = ControlState(keyboard: map<string, bool>, mobile: MobileControls)

  /** `controls.<code>` read as a condition: an absent key is `undefined`, which is falsy. */
  predicate Pressed(keyboard: map<string, bool>, code: string) {
    code in keyboard && keyboard[code]
  }

  function Slot(a: ActiveTouches, c: Controller): Option<int> {
    match c
    case LeftJoystick => a.leftJoystick
    case RightJoystick => a.rightJoystick
  }

  function SetSlot(a: ActiveTouches, c: Controller, v: Option<int>): (r: ActiveTouches)
    ensures Slot(r, c) == v
    ensures forall d :: d != c ==> Slot(r, d) == Slot(a, d)
  {
    match c
    case LeftJoystick => a.(leftJoystick := v)
    case RightJoystick => a.(rightJoystick := v)
  }

  function Stick(mc: MobileControls, c: Controller): Joystick {
    match c
    case LeftJoystick => mc.leftJoystick
    case RightJoystick => mc.rightJoystick
  }

  // ---------------------------------------------------------------------
  // The throttle lever (updateThrottleLever)

  /**
   * The knob height: the touch's distance from the bottom of the lever,
   * clamped to [15, 165] pixels.
   */
  function LeverPosition(layout: Layout, clientY: real): (y: real)
    ensures 15.0 <= y <= 165.0
  {
    var touchYFromBottom := layout.leverHeight - (clientY - layout.leverTop);
    Max(15.0, Min(165.0, touchYFromBottom))
  }

  /**
   * The throttle value of a knob height: a knee at 40 pixels, with 15..40
   * mapped linearly onto -1..0 (reverse to idle) and 40..165 onto 0..1.
   */
  function LeverValue(clampedY: real): real {
    if clampedY <= 40.0 then (clampedY - 15.0) / 25.0 - 1.0 else (clampedY - 40.0) / 125.0
  }

  /** The value lies in [-1, 1], with -1 at the bottom stop, 0 at the knee and 1 at the top stop. */
  lemma LeverValueRange(clampedY: real)
    requires 15.0 <= clampedY <= 165.0
    ensures -1.0 <= LeverValue(clampedY) <= 1.0
    ensures LeverValue(15.0) == -1.0 && LeverValue(40.0) == 0.0 && LeverValue(165.0) == 1.0
    ensures LeverValue(clampedY) < 0.0 <==> clampedY < 40.0
  {
  }

  /**
   * The map is nondecreasing and continuous: two heights at most `d` pixels
   * apart give values at most `d / 25` apart.
   */
  lemma LeverValueMonotone(a: real, b: real)
    requires 15.0 <= a <= b <= 165.0
    ensures LeverValue(a) <= LeverValue(b)
    ensures LeverValue(b) - LeverValue(a) <= (b - a) / 25.0
  {
  }

  /** The left controller after a touch at `clientY`: `{ x: 0, y: throttleValue, active: true }`. */
  function ThrottleLever(layout: Layout, clientY: real): (j: Joystick)
    ensures j.active && j.x == 0.0 && -1.0 <= j.y <= 1.0
  {
    var clampedY := LeverPosition(layout, clientY);
    LeverValueRange(clampedY);
    Joystick(0.0, LeverValue(clampedY), true)
  }

  // ---------------------------------------------------------------------
  // The flight stick (updateFlightStick)

  const MaxDistance: real := 30.0
  const DeadZone: real := 0.2

  /** A control component of magnitude at most 0.2 becomes 0. */
  function ApplyDeadZone(c: real): (r: real)
    ensures Abs(c) <= DeadZone ==> r == 0.0
    ensures Abs(c) > DeadZone ==> r == c
  {
    if Abs(c) > DeadZone then c else 0.0
  }

  /** The stick offset after the radius clamp: the offset itself, or its rescaling onto the circle of radius 30. */
  function StickOffset(m: RealMath, dx: real, dy: real): (real, real) {
    var distance := m.sqrt(dx * dx + dy * dy);
    if distance > MaxDistance then
      var ratio := MaxDistance / distance;
      (dx * ratio, dy * ratio)
    else
      (dx, dy)
  }

  /**
   * The right controller after a touch at (`clientX`, `clientY`): each
   * component is 0 or beyond the dead zone, the stick is active exactly when
   * one is nonzero, and `y` has the sign of the offset below the centre.
   */
  function FlightStick(m: RealMath, layout: Layout, clientX: real, clientY: real): (j: Joystick)
    ensures (j.x == 0.0 || Abs(j.x) > DeadZone) && (j.y == 0.0 || Abs(j.y) > DeadZone)
    ensures j.active <==> j.x != 0.0 || j.y != 0.0
    ensures j.y > 0.0 ==> clientY > layout.stickTop + layout.stickHeight / 2.0
    ensures j.y < 0.0 ==> clientY < layout.stickTop + layout.stickHeight / 2.0
  {
    var centerX := layout.stickLeft + layout.stickWidth / 2.0;
    var centerY := layout.stickTop + layout.stickHeight / 2.0;
    SameSignAfterClamp(m, clientX - centerX, clientY - centerY);
    var (finalX, finalY) := StickOffset(m, clientX - centerX, clientY - centerY);
    var controlX := finalX / MaxDistance;
    var controlY := -finalY / MaxDistance;
    var finalControlX := ApplyDeadZone(controlX);
    var finalControlY := ApplyDeadZone(controlY);
    Joystick(finalControlX, -finalControlY, Abs(finalControlX) > 0.0 || Abs(finalControlY) > 0.0)
  }

  /** After the radius clamp each component of the offset lies within 30 pixels. */
  lemma StickOffsetWithinRadius(m: RealMath, dx: real, dy: real)
    requires Lawful(m)
    ensures -MaxDistance <= StickOffset(m, dx, dy).0 <= MaxDistance
    ensures -MaxDistance <= StickOffset(m, dx, dy).1 <= MaxDistance
  {
    var q := dx * dx + dy * dy;
    SquareNonNegative(dx);
    SquareNonNegative(dy);
    SqrtLaw(m, q);
    var distance := m.sqrt(q);
    WithinRoot2(dx, dy, distance);
    WithinRoot2(dy, dx, distance);
    if distance > MaxDistance {
      ShrinkOntoRadius(dx, distance);
      ShrinkOntoRadius(dy, distance);
    }
  }

  /** A component of a 2D offset is bounded by the offset's length. */
  lemma WithinRoot2(a: real, b: real, l: real)
    requires 0.0 <= l && l * l == a * a + b * b
    ensures -l <= a <= l
  {
    SquareNonNegative(b);
    WithinRoot(a, l);
  }

  /** Scaling a component `|c| <= d` by `30 / d` keeps it within 30. */
  lemma ShrinkOntoRadius(c: real, d: real)
    requires 0.0 < d && -d <= c <= d
    ensures -MaxDistance <= c * (MaxDistance / d) <= MaxDistance
  {
    var ratio := MaxDistance / d;
    assert 0.0 < ratio;
    calc {
      c * ratio;
    <=
      d * ratio;
    ==
      MaxDistance;
    }
    calc {
      -MaxDistance;
    ==
      -d * ratio;
    <=
      c * ratio;
    }
  }

  /**
   * The stick's output: both components in [-1, 1]; a component whose
   * magnitude is at most 0.2 reads 0; `active` holds exactly when some
   * component is nonzero; and its `y` has the sign of the downward offset,
   * the convention of the keyboard controls.
   */
  lemma FlightStickSpec(m: RealMath, layout: Layout, clientX: real, clientY: real)
    requires Lawful(m)
    ensures var j := FlightStick(m, layout, clientX, clientY);
      -1.0 <= j.x <= 1.0 && -1.0 <= j.y <= 1.0
      && (j.x == 0.0 || Abs(j.x) > DeadZone) && (j.y == 0.0 || Abs(j.y) > DeadZone)
      && (j.active <==> j.x != 0.0 || j.y != 0.0)
    ensures var centerY := layout.stickTop + layout.stickHeight / 2.0;
      var j := FlightStick(m, layout, clientX, clientY);
      (j.y > 0.0 ==> clientY > centerY) && (j.y < 0.0 ==> clientY < centerY)
  {
    var centerX := layout.stickLeft + layout.stickWidth / 2.0;
    var centerY := layout.stickTop + layout.stickHeight / 2.0;
    var dx, dy := clientX - centerX, clientY - centerY;
    StickOffsetWithinRadius(m, dx, dy);
    var (finalX, finalY) := StickOffset(m, dx, dy);
    SameSignAfterClamp(m, dx, dy);
  }

  /** The radius clamp scales by a positive ratio, so it keeps the sign of the vertical offset. */
  lemma SameSignAfterClamp(m: RealMath, dx: real, dy: real)
    ensures StickOffset(m, dx, dy).1 > 0.0 ==> dy > 0.0
    ensures StickOffset(m, dx, dy).1 < 0.0 ==> dy < 0.0
  {
    var distance := m.sqrt(dx * dx + dy * dy);
    if distance > MaxDistance {
      var ratio := MaxDistance / distance;
      assert 0.0 < ratio;
      SignOfProduct(dy, ratio);
    }
  }

  /** A product with a positive factor has the sign of the other factor. */
  lemma SignOfProduct(a: real, k: real)
    requires 0.0 < k
    ensures a * k > 0.0 ==> a > 0.0
    ensures a * k < 0.0 ==> a < 0.0
  {
    if a <= 0.0 {
      calc {
        a * k;
      <=
        0.0 * k;
      }
    }
    if a >= 0.0 {
      calc {
        a * k;
      >=
        0.0 * k;
      }
    }
  }

  /** `updateControllerFromTouch(controllerType, touch)` applied to the controller values. */
  function UpdateControllerFromTouch(m: RealMath, layout: Layout, mc: MobileControls, c: Controller, t: Touch): (r: MobileControls)
    ensures Stick(r, c).active || c == RightJoystick
    ensures c == LeftJoystick ==> r.rightJoystick == mc.rightJoystick
    ensures c == RightJoystick ==> r.leftJoystick == mc.leftJoystick
  {
    match c
    case LeftJoystick => mc.(leftJoystick := ThrottleLever(layout, t.clientY))
    case RightJoystick => mc.(rightJoystick := FlightStick(m, layout, t.clientX, t.clientY))
  }

  /** `resetController(controllerType)` applied to the controller values. */
  function ResetJoystick(mc: MobileControls, c: Controller): (r: MobileControls)
    ensures Stick(r, c) == Centred
    ensures forall d :: d != c ==> Stick(r, d) == Stick(mc, d)
  {
    match c
    case LeftJoystick => mc.(leftJoystick := Centred)
    case RightJoystick => mc.(rightJoystick := Centred)
  }

  // ---------------------------------------------------------------------
  // Touch bookkeeping (handleTouchStart / handleTouchEnd)

  /** The part of the manager the touch handlers change. */
  datatype Pad = Pad(mobile: MobileControls, touchStates: map<int, TouchState>, activeTouches: ActiveTouches)

  /**
   * The invariant the slot discipline is meant to keep: a bound slot names a
   * tracked touch of that controller, and every tracked touch is the one its
   * controller's slot names.
   */
  ghost predicate OneTouchPerController(p: Pad) {
    (forall c: Controller :: Slot(p.activeTouches, c).Some? ==>
       Slot(p.activeTouches, c).value in p.touchStates
       && p.touchStates[Slot(p.activeTouches, c).value].controllerType == c)
    && (forall id :: id in p.touchStates ==> Slot(p.activeTouches, p.touchStates[id].controllerType) == Some(id))
  }

  /** Under the invariant no two tracked touches share a controller. */
  lemma AtMostOneTouch(p: Pad, i: int, j: int)
    requires OneTouchPerController(p)
    requires i in p.touchStates && j in p.touchStates
    requires p.touchStates[i].controllerType == p.touchStates[j].controllerType
    ensures i == j
  {
    assert Slot(p.activeTouches, p.touchStates[i].controllerType) == Some(i);
  }

  /** A slot is free when it holds `null`. */
  predicate SlotFree(a: ActiveTouches, c: Controller) {
    Slot(a, c).None?
  }

  /** The touch lies over a controller whose slot is free, so `handleTouchStart` binds it. */
  predicate Claims(p: Pad, t: Touch) {
    t.target.Some? && SlotFree(p.activeTouches, t.target.value)
  }

  /** One iteration of the `handleTouchStart` loop. */
  function TouchStartStep(m: RealMath, layout: Layout, p: Pad, t: Touch): Pad {
    if Claims(p, t) then
      var c := t.target.value;
      Pad(UpdateControllerFromTouch(m, layout, p.mobile, c, t),
          p.touchStates[t.identifier := TouchState(c, t.clientX, t.clientY, t.clientX, t.clientY)],
          SetSlot(p.activeTouches, c, Some(t.identifier)))
    else
      p
  }

  /** The `handleTouchStart` loop over the first `|ts|` changed touches. */
  function TouchStartAll(m: RealMath, layout: Layout, p: Pad, ts: seq<Touch>): Pad
    decreases |ts|
  {
    if ts == [] then p else TouchStartStep(m, layout, TouchStartAll(m, layout, p, ts[..|ts| - 1]), ts[|ts| - 1])
  }

  /** Whether some touch of the `handleTouchStart` loop was bound (`hasControllerTouch`). */
  function TouchStartClaims(m: RealMath, layout: Layout, p: Pad, ts: seq<Touch>): bool
    decreases |ts|
  {
    ts != [] &&
    (TouchStartClaims(m, layout, p, ts[..|ts| - 1]) || Claims(TouchStartAll(m, layout, p, ts[..|ts| - 1]), ts[|ts| - 1]))
  }

  /** One iteration of the `handleTouchEnd` loop. */
  function TouchEndStep(p: Pad, t: Touch): Pad {
    if t.identifier in p.touchStates then
      var c := p.touchStates[t.identifier].controllerType;
      Pad(ResetJoystick(p.mobile, c), p.touchStates - {t.identifier}, SetSlot(p.activeTouches, c, None))
    else
      p
  }

  /** The `handleTouchEnd` loop over the first `|ts|` changed touches. */
  function TouchEndAll(p: Pad, ts: seq<Touch>): Pad
    decreases |ts|
  {
    if ts == [] then p else TouchEndStep(TouchEndAll(p, ts[..|ts| - 1]), ts[|ts| - 1])
  }

  /** Whether some touch of the `handleTouchEnd` loop was tracked (`hasControllerTouch`). */
  function TouchEndClaims(p: Pad, ts: seq<Touch>): bool
    decreases |ts|
  {
    ts != [] &&
    (TouchEndClaims(p, ts[..|ts| - 1]) || ts[|ts| - 1].identifier in TouchEndAll(p, ts[..|ts| - 1]).touchStates)
  }

  /**
   * A touch that starts over a controller binds that controller only when its
   * slot is free, and a new touch id then keeps one touch per controller.
   * A touch over no controller, or over a bound one, changes nothing.
   */
  lemma TouchStartPreserves(m: RealMath, layout: Layout, p: Pad, t: Touch)
    requires OneTouchPerController(p)
    requires t.identifier !in p.touchStates
    ensures OneTouchPerController(TouchStartStep(m, layout, p, t))
    ensures !Claims(p, t) ==> TouchStartStep(m, layout, p, t) == p
    ensures Claims(p, t) ==> Slot(TouchStartStep(m, layout, p, t).activeTouches, t.target.value) == Some(t.identifier)
  {
    if Claims(p, t) {
      var c := t.target.value;
      var q := TouchStartStep(m, layout, p, t);
      forall id | id in q.touchStates
        ensures Slot(q.activeTouches, q.touchStates[id].controllerType) == Some(id)
      {
        if id != t.identifier {
          assert p.touchStates[id].controllerType != c;
        }
      }
    }
  }

  /**
   * The loop of `handleTouchStart` keeps one touch per controller when the
   * changed touches carry new, distinct identifiers (as the browser's
   * `Touch.identifier` is unique among the touches on the surface).
   */
  lemma {:induction false} TouchStartAllPreserves(m: RealMath, layout: Layout, p: Pad, ts: seq<Touch>)
    requires OneTouchPerController(p)
    requires forall i :: 0 <= i < |ts| ==> ts[i].identifier !in p.touchStates
    requires forall i, j :: 0 <= i < j < |ts| ==> ts[i].identifier != ts[j].identifier
    ensures OneTouchPerController(TouchStartAll(m, layout, p, ts))
    ensures TouchStartAll(m, layout, p, ts).touchStates.Keys <= p.touchStates.Keys + set i | 0 <= i < |ts| :: ts[i].identifier
    decreases |ts|
  {
    if ts != [] {
      var init := ts[..|ts| - 1];
      var last := ts[|ts| - 1];
      TouchStartAllPreserves(m, layout, p, init);
      var q := TouchStartAll(m, layout, p, init);
      assert last.identifier !in q.touchStates by {
        forall k | 0 <= k < |init|
          ensures init[k].identifier != last.identifier
        {
          assert init[k] == ts[k];
        }
      }
      TouchStartPreserves(m, layout, q, last);
    }
  }

  /**
   * A touch that ends while tracked centres its controller, frees its slot and
   * is no longer tracked; an untracked one changes nothing. Either way the
   * invariant is kept.
   */
  lemma TouchEndPreserves(p: Pad, t: Touch)
    requires OneTouchPerController(p)
    ensures OneTouchPerController(TouchEndStep(p, t))
    ensures t.identifier !in TouchEndStep(p, t).touchStates
    ensures t.identifier !in p.touchStates ==> TouchEndStep(p, t) == p
    ensures t.identifier in p.touchStates ==>
      var c := p.touchStates[t.identifier].controllerType;
      SlotFree(TouchEndStep(p, t).activeTouches, c) && Stick(TouchEndStep(p, t).mobile, c) == Centred
  {
    if t.identifier in p.touchStates {
      var c := p.touchStates[t.identifier].controllerType;
      var q := TouchEndStep(p, t);
      forall id | id in q.touchStates
        ensures Slot(q.activeTouches, q.touchStates[id].controllerType) == Some(id)
      {
        assert p.touchStates[id].controllerType != c;
      }
    }
  }

  /** The loop of `handleTouchEnd` keeps one touch per controller, whatever touches end. */
  lemma {:induction false} TouchEndAllPreserves(p: Pad, ts: seq<Touch>)
    requires OneTouchPerController(p)
    ensures OneTouchPerController(TouchEndAll(p, ts))
    ensures forall i :: 0 <= i < |ts| ==> ts[i].identifier !in TouchEndAll(p, ts).touchStates
    decreases |ts|
  {
    if ts != [] {
      var init := ts[..|ts| - 1];
      TouchEndAllPreserves(p, init);
      TouchEndPreserves(TouchEndAll(p, init), ts[|ts| - 1]);
      forall i | 0 <= i < |ts|
        ensures ts[i].identifier !in TouchEndAll(p, ts).touchStates
      {
        if i < |ts| - 1 {
          assert init[i] == ts[i];
        }
      }
    }
  }

  /** Once its touch has ended a controller can be taken by the next touch over it. */
  lemma ReleaseThenRebind(m: RealMath, layout: Layout, p: Pad, ending: Touch, next: Touch)
    requires OneTouchPerController(p)
    requires ending.identifier in p.touchStates
    requires next.target == Some(p.touchStates[ending.identifier].controllerType)
    ensures var q := TouchStartStep(m, layout, TouchEndStep(p, ending), next);
      Slot(q.activeTouches, next.target.value) == Some(next.identifier)
  {
    TouchEndPreserves(p, ending);
  }

  // ---------------------------------------------------------------------
  // The slot test as the source writes it

  /**
   * `!this.activeTouches[controllerType]`: true for `null`, and also for the
   * touch identifier 0, which JavaScript treats as falsy.
   */
  predicate SlotFreeAsWritten(a: ActiveTouches, c: Controller) {
    Slot(a, c).None? || Slot(a, c) == Some(0)
  }

  /** One iteration of the `handleTouchStart` loop with the slot test as written. */
  function TouchStartStepAsWritten(m: RealMath, layout: Layout, p: Pad, t: Touch): Pad {
    if t.target.Some? && SlotFreeAsWritten(p.activeTouches, t.target.value) then
      var c := t.target.value;
      Pad(UpdateControllerFromTouch(m, layout, p.mobile, c, t),
          p.touchStates[t.identifier := TouchState(c, t.clientX, t.clientY, t.clientX, t.clientY)],
          SetSlot(p.activeTouches, c, Some(t.identifier)))
    else
      p
  }

  /** The two tests differ only on a slot bound to touch 0. */
  lemma SlotTestsAgreeOffZero(a: ActiveTouches, c: Controller)
    requires Slot(a, c) != Some(0)
    ensures SlotFreeAsWritten(a, c) == SlotFree(a, c)
  {
  }

  /**
   * As written, a second touch over the throttle lever while touch 0 holds it
   * takes the lever over: both touches are then tracked on the same controller.
   */
  lemma TouchZeroIsTakenOver(m: RealMath, layout: Layout)
    ensures var held := Pad(MobileControls(Joystick(0.0, 0.5, true), Centred),
                            map[0 := TouchState(LeftJoystick, 10.0, 10.0, 10.0, 10.0)],
                            ActiveTouches(Some(0), None));
      var second := Touch(1, 20.0, 20.0, Some(LeftJoystick));
      var after := TouchStartStepAsWritten(m, layout, held, second);
      OneTouchPerController(held)
      && second.identifier !in held.touchStates
      && !OneTouchPerController(after)
      && 0 in after.touchStates && 1 in after.touchStates
      && after.touchStates[0].controllerType == after.touchStates[1].controllerType
      && TouchStartStep(m, layout, held, second) == held
  {
    var held := Pad(MobileControls(Joystick(0.0, 0.5, true), Centred),
                    map[0 := TouchState(LeftJoystick, 10.0, 10.0, 10.0, 10.0)],
                    ActiveTouches(Some(0), None));
    var second := Touch(1, 20.0, 20.0, Some(LeftJoystick));
    var after := TouchStartStepAsWritten(m, layout, held, second);
    assert Slot(after.activeTouches, after.touchStates[0].controllerType) == Some(1);
  }

  // ---------------------------------------------------------------------
  // The manager

  class ControlsManager {
    /** `controls`: the key-state dictionary, keyed by `KeyboardEvent.code`. */
    var controls: map<string, bool>
    var mobileControls: MobileControls
    var touchStates: map<int, TouchState>
    var activeTouches: ActiveTouches
    const math: RealMath
    const layout: Layout

    /** The fields the touch handlers change. */
    function PadState(): Pad
      reads this
    {
      Pad(mobileControls, touchStates, activeTouches)
    }

    constructor (math: RealMath, layout: Layout)
      ensures this.math == math && this.layout == layout
      ensures controls == map[] && mobileControls == AtRest
      ensures touchStates == map[] && activeTouches == ActiveTouches(None, None)
      ensures OneTouchPerController(PadState())
    {
      this.math := math;
      this.layout := layout;
      controls := map[];
      mobileControls := AtRest;
      touchStates := map[];
      activeTouches := ActiveTouches(None, None);
    }

    /** The `keydown` listener. */
    method KeyDown(code: string)
      modifies this`controls
      ensures controls == old(controls)[code := true]
      ensures Pressed(controls, code)
      ensures forall k :: k != code ==> Pressed(controls, k) == Pressed(old(controls), k)
    {
      controls := controls[code := true];
    }

    /** The `keyup` listener. */
    method KeyUp(code: string)
      modifies this`controls
      ensures controls == old(controls)[code := false]
      ensures !Pressed(controls, code)
      ensures forall k :: k != code ==> Pressed(controls, k) == Pressed(old(controls), k)
    {
      controls := controls[code := false];
    }

    /**
     * `handleTouchStart(event)`; the result is `hasControllerTouch`, which
     * decides whether the default gesture is prevented.
     */
    method HandleTouchStart(changedTouches: seq<Touch>) returns (hasControllerTouch: bool)
      modifies this`mobileControls, this`touchStates, this`activeTouches
      ensures PadState() == TouchStartAll(math, layout, old(PadState()), changedTouches)
      ensures hasControllerTouch == TouchStartClaims(math, layout, old(PadState()), changedTouches)
    {
      hasControllerTouch := false;
      var i := 0;
      while i < |changedTouches|
        invariant 0 <= i <= |changedTouches|
        invariant PadState() == TouchStartAll(math, layout, old(PadState()), changedTouches[..i])
        invariant hasControllerTouch == TouchStartClaims(math, layout, old(PadState()), changedTouches[..i])
      {
        var touch := changedTouches[i];
        var touchId := touch.identifier;
        assert changedTouches[..i + 1][..i] == changedTouches[..i];
        if touch.target.Some? && SlotFree(activeTouches, touch.target.value) {
          var controllerType := touch.target.value;
          hasControllerTouch := true;
          activeTouches := SetSlot(activeTouches, controllerType, Some(touchId));
          touchStates := touchStates[touchId := TouchState(controllerType, touch.clientX, touch.clientY, touch.clientX, touch.clientY)];
          mobileControls := UpdateControllerFromTouch(math, layout, mobileControls, controllerType, touch);
        }
        i := i + 1;
      }
      assert changedTouches[..i] == changedTouches;
    }

    /** `handleTouchEnd(event)`, also the `touchcancel` listener. */
    method HandleTouchEnd(changedTouches: seq<Touch>) returns (hasControllerTouch: bool)
      modifies this`mobileControls, this`touchStates, this`activeTouches
      ensures PadState() == TouchEndAll(old(PadState()), changedTouches)
      ensures hasControllerTouch == TouchEndClaims(old(PadState()), changedTouches)
    {
      hasControllerTouch := false;
      var i := 0;
      while i < |changedTouches|
        invariant 0 <= i <= |changedTouches|
        invariant PadState() == TouchEndAll(old(PadState()), changedTouches[..i])
        invariant hasControllerTouch == TouchEndClaims(old(PadState()), changedTouches[..i])
      {
        var touchId := changedTouches[i].identifier;
        assert changedTouches[..i + 1][..i] == changedTouches[..i];
        if touchId in touchStates {
          var touchState := touchStates[touchId];
          hasControllerTouch := true;
          ResetController(touchState.controllerType);
          activeTouches := SetSlot(activeTouches, touchState.controllerType, None);
          touchStates := touchStates - {touchId};
        }
        i := i + 1;
      }
      assert changedTouches[..i] == changedTouches;
    }

    /** `resetController(controllerType)`: the named controller returns to `{ x: 0, y: 0, active: false }`. */
    method ResetController(controllerType: Controller)
      modifies this`mobileControls
      ensures mobileControls == ResetJoystick(old(mobileControls), controllerType)
    {
      match controllerType
      case LeftJoystick => mobileControls := mobileControls.(leftJoystick := Centred);
      case RightJoystick => mobileControls := mobileControls.(rightJoystick := Centred);
    }

    /** `hasInput()`: some key reads pressed or either controller is active. */
    function HasInput(): (r: bool)
      reads this
      ensures r <==> (exists code :: Pressed(controls, code))
                     || mobileControls.leftJoystick.active || mobileControls.rightJoystick.active
    {
      assert (exists code :: Pressed(controls, code)) <==> true in controls.Values by {
        if true in controls.Values {
          var code :| code in controls && controls[code] == true;
          assert Pressed(controls, code);
        }
      }
      true in controls.Values || mobileControls.leftJoystick.active || mobileControls.rightJoystick.active
    }

    /** `getControlState()` */
    function GetControlState(): (s: ControlState)
      reads this
      ensures forall code :: Pressed(s.keyboard, code) == Pressed(controls, code)
      ensures s.mobile == mobileControls
    {
      ControlState(controls, mobileControls)
    }

    /**
     * `resetControls()`: all keys released and both controllers centred, so
     * no input remains. The touch bookkeeping is left as it was.
     */
    method ResetControls()
      modifies this`controls, this`mobileControls
      ensures controls == map[] && mobileControls == AtRest
      ensures !HasInput()
    {
      controls := map[];
      mobileControls := AtRest;
    }
  }
}
