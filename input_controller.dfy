/**
 * The game-pad handling (`InputController` and `RightThumbXListener`): a
 * stick reading is mapped from the pad's 16-bit range onto ±126 with Java's
 * truncating `int` arithmetic and an off-centre dead zone; each tick of the
 * controller loop, while the pad is enabled and manual mode is on, sends the
 * left stick's position to both actuators, but only when it changed since the
 * last command; the right stick's direction is an angle in whole degrees,
 * shifted by 15 for the display.
 */
module InputControl {
  import opened JavaText
  import opened SharedData

  // ---------------------------------------------------------------------
  // Java `int` arithmetic

  /** Java's `/` on `int`: the quotient truncated toward zero (and `MIN_VALUE / -1` wraps). */
  function JavaDiv(a: int, b: int): (q: int)
    requires IsInt32(a) && IsInt32(b) && b != 0
    ensures IsInt32(q)
  {
    var mag := (if a < 0 then -a else a) / (if b < 0 then -b else b);
    Wrap32(if (a < 0) != (b < 0) then -mag else mag)
  }

  /** Multiplying by a positive factor keeps the order, both ways. */
  lemma {:induction false} MulOrder(x: int, y: int, d: nat)
    requires d > 0
    ensures x <= y <==> x * d <= y * d
    decreases d
  {
    if d > 1 {
      MulOrder(x, y, d - 1);
      assert x * d == x * (d - 1) + x;
      assert y * d == y * (d - 1) + y;
    }
  }

  lemma DivMonotone(a: nat, b: nat, d: nat)
    requires a <= b && d > 0
    ensures a / d <= b / d
  {
    var qa, qb := a / d, b / d;
    assert qa * d <= a;
    assert b < qb * d + d;
    assert (qb + 1) * d == qb * d + d;
    MulOrder(qb + 1, qa, d);
  }

  lemma MulDiv(k: nat, d: nat)
    requires d > 0
    ensures (k * d) / d == k
  {
    var q, r := (k * d) / d, (k * d) % d;
    assert k * d == q * d + r && 0 <= r < d;
    assert (q + 1) * d == q * d + d;
    MulOrder(q + 1, k, d);
    MulOrder(q, k, d);
  }

  lemma DivAtMost(a: nat, b: nat)
    requires b >= 1
    ensures a / b <= a
  {
    var q := a / b;
    assert q * b <= a;
    if q > 0 {
      MulOrder(1, b, q);
      assert 1 * q == q && b * q == q * b;
    }
  }

  /** For a non-positive numerator and a positive divisor, Java's quotient is minus the quotient of the magnitudes. */
  lemma JavaDivNonPositive(a: int, b: int)
    requires IntMin < a <= 0 && 0 < b <= IntMax
    ensures JavaDiv(a, b) == -((-a) / b)
  {
    var mag := (-a) / b;
    DivAtMost(-a, b);
    assert 0 <= mag <= -a;
    assert IsInt32(-mag);
    if a < 0 {
      assert JavaDiv(a, b) == Wrap32(-mag);
    } else {
      assert mag == 0;
    }
  }

  // ---------------------------------------------------------------------
  // The right stick's x axis (RightThumbXListener)

  /** `map`: the linear map of `[inMin, inMax]` onto `[outMin, outMax]`, each step in 32-bit `int` arithmetic. */
  function Map(x: int, inMin: int, inMax: int, outMin: int, outMax: int): int
    requires IsInt32(x) && IsInt32(inMin) && IsInt32(inMax) && IsInt32(outMin) && IsInt32(outMax)
    requires Wrap32(inMax - inMin) != 0
  {
    Wrap32(JavaDiv(Wrap32(Wrap32(x - inMin) * Wrap32(outMax - outMin)), Wrap32(inMax - inMin)) + outMin)
  }

  const PadMin: int := -32768
  const PadMax: int := 32768
  const StickHigh: int := 126

  /** The raw stick value mapped onto the actuator range, reversed: the left end gives +126. */
  function Mapped(v: int): int
    requires IsInt32(v)
  {
    Map(v, PadMin, PadMax, StickHigh, -StickHigh)
  }

  /** Within the pad's range no step overflows: the map is `(v + 32768) * -252 / 65536 + 126`, truncated. */
  lemma MappedInRange(v: int)
    requires PadMin <= v <= PadMax
    ensures Mapped(v) == -((v - PadMin) * 252 / 65536) + StickHigh
  {
    var n := (v - PadMin) * (-252);
    assert 0 <= v - PadMin <= 65536;
    assert -16515072 <= n <= 0;
    JavaDivNonPositive(n, 65536);
    assert -n == (v - PadMin) * 252;
  }

  /** The ends of the range map to +126 and -126, the centre to 0. */
  lemma MappedEnds(v: int)
    requires v == PadMin || v == 0 || v == PadMax
    ensures v == PadMin ==> Mapped(v) == 126
    ensures v == 0 ==> Mapped(v) == 0
    ensures v == PadMax ==> Mapped(v) == -126
  {
    MappedInRange(v);
    if v == PadMax {
      assert (v - PadMin) * 252 == 252 * 65536;
      MulDiv(252, 65536);
    } else if v == 0 {
      assert (v - PadMin) * 252 == 126 * 65536;
      MulDiv(126, 65536);
    }
  }

  /** Over the pad's range the mapped value stays within ±126 and never increases as the raw value grows. */
  lemma MappedBoundedAndNonIncreasing(v: int, w: int)
    requires PadMin <= v <= w <= PadMax
    ensures -StickHigh <= Mapped(v) <= StickHigh
    ensures Mapped(w) <= Mapped(v)
  {
    MappedInRange(v);
    MappedInRange(w);
    var a, b := (v - PadMin) * 252, (w - PadMin) * 252;
    assert 0 <= a <= b <= 65536 * 252;
    DivMonotone(a, b, 65536);
    assert b / 65536 <= 252 by {
      DivMonotone(b, 65536 * 252, 65536);
    }
  }

  /**
   * Java's truncation is not Euclidean division: one step short of the right
   * end, the product is -16514820, which Java divides by 65536 to -251 and
   * Dafny's `/` to -252, so the value is -125, not -126.
   */
  lemma MappedTruncates()
    ensures Mapped(32767) == -125
    ensures (32767 - PadMin) * -252 / 65536 + StickHigh == -126
  {
    MappedInRange(32767);
  }

  /** The dead zone of `value`: mapped values strictly between -17 and 12 become 0. */
  function DeadZone(m: int): (r: int)
    ensures -17 < m < 12 ==> r == 0
    ensures !(-17 < m < 12) ==> r == m
    ensures r == 0 || r <= -17 || r >= 12
  {
    if m > -17 && m < 12 then 0 else m
  }

  /** What `value` hands to the controller for a raw reading. */
  function RightThumbX(v: int): int
    requires IsInt32(v)
  {
    DeadZone(Mapped(v))
  }

  /** The dead zone is off-centre: it reaches 16 steps left of centre but only 11 right of it, and the result stays within ±126. */
  lemma RightThumbXZones(v: int)
    requires PadMin <= v <= PadMax
    ensures -StickHigh <= RightThumbX(v) <= StickHigh
    ensures RightThumbX(v) == 0 <==> -17 < Mapped(v) < 12
  {
    MappedBoundedAndNonIncreasing(v, v);
  }

  // ---------------------------------------------------------------------
  // Angles

  /** `Math.round` on a non-NaN float: the nearest integer, halves rounded up. */
  function Round(x: real): int
  {
    (x + 0.5).Floor
  }

  /**
   * `FindDegree`'s float, given `atan2(x, y)` in degrees: the previous value
   * inside the dead zone (both axes within ±97), otherwise the angle turned
   * into `[0, 360)`.  It is also the new previous value.
   */
  function DegreeValue(x: int, y: int, atanDegrees: real, lastVal: real): real
  {
    if (x < 98 && x > -98) && (y < 98 && y > -98) then lastVal
    else if atanDegrees < 0.0 then atanDegrees + 360.0
    else atanDegrees
  }

  predicate InDeadZone(x: int, y: int) { -98 < x < 98 && -98 < y < 98 }

  /** Outside the dead zone, a direction in `(-180, 180]` gives an angle in `[0, 360]` (a value just under 360 rounds up to it). */
  lemma DegreeOutsideDeadZone(x: int, y: int, atanDegrees: real, lastVal: real)
    requires !InDeadZone(x, y) && -180.0 < atanDegrees <= 180.0
    ensures 0.0 <= DegreeValue(x, y, atanDegrees, lastVal) < 360.0
    ensures 0 <= Round(DegreeValue(x, y, atanDegrees, lastVal)) <= 360
  {
  }

  /** Inside the dead zone the angle is the previous one, whatever the direction. */
  lemma DegreeInsideDeadZone(x: int, y: int, atanDegrees: real, lastVal: real)
    requires InDeadZone(x, y)
    ensures DegreeValue(x, y, atanDegrees, lastVal) == lastVal
  {
  }

  /** `getAngleForGUI`'s shift: 15 degrees back, wrapped into a circle. */
  function AngleForGUI(angle: int): int
  {
    if angle - 15 < 0 then angle - 15 + 360 else angle - 15
  }

  /** For an angle in `[0, 360]` the display angle lies in `[0, 359]`; 0 and 360 both show as 345. */
  lemma AngleForGUIRange(angle: int)
    requires 0 <= angle <= 360
    ensures 0 <= AngleForGUI(angle) <= 359
    ensures (AngleForGUI(angle) + 15) % 360 == angle % 360
  {
  }

  // ---------------------------------------------------------------------
  // The controller

  /** The controller's fields, and the commands it has sent to the vehicle. */
  datatype Pad = Pad(btnLy: int, btnRx: int, btnRy: int, btnLx: int, btnLyGUI: real,
                     angle: int, lastAngle: int, lastVal: real,
                     oldPS: int, oldSB: int, sent: seq<string>)

  function ActuatorPSCommand(ps: int): string { "cmd_actuatorPS:" + IntToString(ps) }
  function ActuatorSBCommand(sb: int): string { "cmd_actuatorSB:" + IntToString(sb) }

  /**
   * One pass of the controller loop: while the pad is enabled and manual
   * mode is on, both actuators are given the left stick's value, each only
   * when it differs from the last value sent to it.
   */
  function Ticked(p: Pad, controllerEnabled: bool, manualMode: bool): Pad
  {
    if controllerEnabled && manualMode then
      var ps, sb := p.btnLy, p.btnLy;
      var afterPS := if ps != p.oldPS then p.(sent := p.sent + [ActuatorPSCommand(ps)], oldPS := ps) else p;
      if sb != afterPS.oldSB then afterPS.(sent := afterPS.sent + [ActuatorSBCommand(sb)], oldSB := sb) else afterPS
    else p
  }

  /** Without the pad enabled and manual mode on, a pass sends nothing and changes nothing. */
  lemma TickIdleOutsideManual(p: Pad, controllerEnabled: bool, manualMode: bool)
    requires !(controllerEnabled && manualMode)
    ensures Ticked(p, controllerEnabled, manualMode) == p
  {
  }

  /**
   * In manual mode a pass sends the PS command exactly when the stick moved
   * since the last PS command, then the SB command exactly when it moved
   * since the last SB command, both with the same value; afterwards both
   * remember the stick's value.
   */
  lemma TickSendsOnChange(p: Pad)
    ensures var q := Ticked(p, true, true);
            && q.sent == p.sent + (if p.btnLy != p.oldPS then [ActuatorPSCommand(p.btnLy)] else [])
                                 + (if p.btnLy != p.oldSB then [ActuatorSBCommand(p.btnLy)] else [])
            && q.oldPS == p.btnLy && q.oldSB == p.btnLy
            && q.btnLy == p.btnLy && q.btnRx == p.btnRx
  {
  }

  /** A second pass with the stick where it was sends nothing more. */
  lemma TickTwiceSendsOnce(p: Pad, controllerEnabled: bool, manualMode: bool)
    ensures var q := Ticked(p, controllerEnabled, manualMode);
            Ticked(q, controllerEnabled, manualMode) == q
  {
    if controllerEnabled && manualMode {
      TickSendsOnChange(p);
    }
  }

  /** The two commands a moved stick produces differ only in the actuator named. */
  lemma ActuatorCommandsShareValue(v: int)
    ensures ActuatorPSCommand(v)[15..] == ActuatorSBCommand(v)[15..] == IntToString(v)
    ensures ActuatorPSCommand(v) != ActuatorSBCommand(v)
  {
    assert ActuatorPSCommand(v)[12] == 'P';
    assert ActuatorSBCommand(v)[12] == 'S';
  }

  class InputController {
    var btnLy: int
    var btnRx: int
    var btnRy: int
    var btnLx: int
    var btnLyGUI: real
    var angle: int
    /** The static `lastAngle` and `lastVal`, shared by every controller; there is one here. */
    var lastAngle: int
    var lastVal: real
    var oldPS: int
    var oldSB: int
    /** The commands handed to the vehicle link. */
    var sent: seq<string>
    const data: Data

    function View(): Pad
      reads this
    {
      Pad(btnLy, btnRx, btnRy, btnLx, btnLyGUI, angle, lastAngle, lastVal, oldPS, oldSB, sent)
    }

    constructor (data: Data)
      ensures this.data == data
      ensures View() == Pad(0, 0, 0, 0, 0.0, 0, 0, 0.0, 0, 0, [])
    {
      this.data := data;
      btnLy, btnRx, btnRy, btnLx, btnLyGUI := 0, 0, 0, 0, 0.0;
      angle, lastAngle, lastVal := 0, 0, 0.0;
      oldPS, oldSB := 0, 0;
      sent := [];
    }

    /** One pass of `run`'s loop, the sleep aside. */
    method Tick()
      modifies this
      ensures View() == Ticked(old(View()), data.modes.controllerEnabled, data.modes.manualMode)
    {
      if data.modes.controllerEnabled && data.modes.manualMode {
        var ps := btnLy;
        var sb := btnLy;
        if ps != oldPS {
          sent := sent + [ActuatorPSCommand(ps)];
          oldPS := ps;
        }
        if sb != oldSB {
          sent := sent + [ActuatorSBCommand(sb)];
          oldSB := sb;
        }
      }
    }

    /** `setBtnLy`: the stick value, and a hundredth of it for the display. */
    method SetBtnLy(v: int)
      modifies this
      ensures View() == old(View()).(btnLy := v, btnLyGUI := v as real / 100.0)
    {
      btnLy := v;
      btnLyGUI := btnLy as real / 100.0;
    }

    method SetBtnRx(v: int)
      modifies this
      ensures View() == old(View()).(btnRx := v)
    {
      btnRx := v;
    }

    method SetBtnRy(v: int)
      modifies this
      ensures View() == old(View()).(btnRy := v)
    {
      btnRy := v;
    }

    /** `FindDegree`, given `atan2(x, y)` in degrees: updates the previous value and returns it rounded. */
    method FindDegree(x: int, y: int, atanDegrees: real) returns (degree: int)
      modifies this
      ensures lastVal == DegreeValue(x, y, atanDegrees, old(lastVal))
      ensures degree == Round(lastVal)
      ensures View() == old(View()).(lastVal := lastVal)
    {
      var value := atanDegrees;
      if (x < 98 && x > -98) && (y < 98 && y > -98) {
        value := lastVal;
      } else if value < 0.0 {
        value := value + 360.0;
      }
      lastVal := value;
      degree := Round(value);
    }

    /** `getAngle`: the right stick's angle, which also becomes the last angle. */
    method GetAngle(atanDegrees: real) returns (a: int)
      modifies this
      ensures lastVal == DegreeValue(btnRx, btnRy, atanDegrees, old(lastVal))
      ensures a == Round(lastVal) && angle == a && lastAngle == a
      ensures View() == old(View()).(lastVal := lastVal, angle := a, lastAngle := a)
    {
      angle := FindDegree(btnRx, btnRy, atanDegrees);
      if angle != lastAngle {
        lastAngle := angle;
      }
      a := angle;
    }

    /** `getAngleForGUI`: the same angle, shifted for the display. */
    method GetAngleForGUI(atanDegrees: real) returns (a: int)
      modifies this
      ensures lastVal == DegreeValue(btnRx, btnRy, atanDegrees, old(lastVal))
      ensures angle == Round(lastVal) && lastAngle == angle
      ensures a == AngleForGUI(angle)
      ensures View() == old(View()).(lastVal := lastVal, angle := angle, lastAngle := angle)
    {
      angle := FindDegree(btnRx, btnRy, atanDegrees);
      if angle != lastAngle {
        lastAngle := angle;
      }
      var returnAngle := angle - 15;
      if returnAngle < 0 {
        returnAngle := returnAngle + 360;
      }
      a := returnAngle;
    }
  }

  class RightThumbXListener {
    const ic: InputController

    constructor (ic: InputController)
      ensures this.ic == ic
    {
      this.ic := ic;
    }

    /** `value`: the raw reading mapped, the dead zone applied, and the result handed to the controller. */
    method Value(newValue: int)
      requires IsInt32(newValue)
      modifies ic
      ensures ic.View() == old(ic.View()).(btnRx := RightThumbX(newValue))
    {
      var v := Map(newValue, -32768, 32768, 126, -126);
      if v > -17 && v < 12 {
        v := 0;
      }
      ic.SetBtnRx(v);
    }
  }
}
