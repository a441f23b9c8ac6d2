/**
 * The rules behind the operator window (`ROVFrame`), without its widgets:
 * the integer test of the camera-offset field, the clamps and range checks
 * of the entry fields, the target-mode machine (0 depth, 1 distance to the
 * seafloor, 2 manual wings) with its buttons, the emergency stop, and the
 * emergency triggers of `update`.  The commands handed to the vehicle
 * link's `sendCommand` are recorded in order in `sentToRov`; what the link
 * then does with each is `StreamLink.TcpClient.SendCommand`.  Decimal
 * formatting of a double is the parameter `show`; `isNumeric` followed by
 * `Double.parseDouble` is the parser's `parseDouble`.
 */
module OperatorRules {
  import opened Wrappers
  import opened JavaText
  import opened SharedData
  import ImageLink

  // ---------------------------------------------------------------------
  // isInteger

  /** What `isInteger` accepts: an optional leading '-' and then one or more ASCII digits, nothing else. */
  predicate IntegerText(s: string)
  {
    if |s| > 0 && s[0] == '-' then |s| > 1 && AllDigits(s[1..]) else |s| > 0 && AllDigits(s)
  }

  /** The number an integer text denotes, without a bound on its size. */
  function TextValue(s: string): int
    requires IntegerText(s)
  {
    if s[0] == '-' then -(DigitsValue(s[1..]) as int) else DigitsValue(s)
  }

  /**
   * `isInteger`: false for null and for the empty text, false for a lone
   * '-', otherwise true exactly when every character after an optional
   * leading '-' is a digit.
   */
  method IsInteger(str: Option<string>) returns (b: bool)
    ensures b <==> str.Some? && IntegerText(str.value)
  {
    if str.None? {
      return false;
    }
    var s := str.value;
    if |s| == 0 {
      return false;
    }
    var i := 0;
    if s[0] == '-' {
      if 1 == |s| {
        return false;
      }
      i := 1;
    }
    ghost var start := i;
    while i < |s|
      invariant start <= i <= |s|
      invariant forall j :: start <= j < i ==> IsDigit(s[j])
    {
      var c := s[i];
      if c < '0' || c > '9' {
        assert s[start..][i - start] == c;
        return false;
      }
      i := i + 1;
    }
    assert forall j :: 0 <= j < |s[start..]| ==> s[start..][j] == s[start + j];
    if start == 0 {
      assert s[start..] == s;
    }
    return true;
  }

  /** An integer text that fits in 32 bits is read by `Integer.parseInt` as its value; a longer one overflows. */
  lemma IntegerTextParses(s: string)
    requires IntegerText(s)
    ensures ParseInt(s) == if IsInt32(TextValue(s)) then Some(TextValue(s)) else None
  {
    if s[0] != '-' {
      assert IsDigit(s[0]);
      assert s[0..] == s;
    }
  }

  /** Of the texts `Integer.parseInt` reads, `isInteger` refuses exactly those with a leading '+'. */
  lemma ParsedIsIntegerUnlessPlus(s: string)
    requires ParseInt(s).Some?
    ensures IntegerText(s) <==> s[0] != '+'
  {
    if s[0] != '-' && s[0] != '+' {
      assert s[0..] == s;
    }
  }

  /** `Integer.toString` always gives a text `isInteger` accepts, denoting the same number. */
  lemma IntToStringIsInteger(n: int)
    ensures IntegerText(IntToString(n)) && TextValue(IntToString(n)) == n
  {
    var s := IntToString(n);
    if n < 0 {
      NatToStringValue(-n);
      assert s[1..] == NatToString(-n);
    } else {
      NatToStringValue(n);
      assert IsDigit(s[0]);
    }
  }

  // ---------------------------------------------------------------------
  // The operator state and the commands

  /** The window's own fields, and the commands it has handed to the vehicle link. */
  datatype Panel = Panel(targetMode: int, cameraPitch: int, photoModeDelay: real, sentToRov: seq<string>)

  /** The window and the shared store together. */
  datatype Console = Console(panel: Panel, st: Store)

  const DepthMode: int := 0
  const SeafloorMode: int := 1
  const ManualMode: int := 2

  /** The window right after construction. */
  const InitialPanel: Panel := Panel(DepthMode, 0, 1.0, [])

  function TargetModeCommand(mode: int): string
  {
    "cmd_targetMode:" + IntToString(mode)
  }

  function TargetDistanceCommand(d: real, show: real -> string): string
  {
    "cmd_targetDistance:" + show(d)
  }

  function WingAngleCommand(a: real, show: real -> string): string
  {
    "cmd_wingAng:" + show(a)
  }

  /** The wing command of the manual toggle: an `int` 0, so no decimal point. */
  const WingZeroCommand: string := "cmd_wingAng:0"
  const EmergencySurfaceCommand: string := "cmd_emergencySurface"
  const ManualModeCommand: string := "cmd_targetMode:2"
  const EmergencyAngleCommand: string := "cmd_angle:30"

  /** `sendCommand` calls on the vehicle link, appended in order. */
  function Sent(c: Console, cmds: seq<string>): Console
  {
    c.(panel := c.panel.(sentToRov := c.panel.sentToRov + cmds))
  }

  function WithManual(st: Store, on: bool): Store
  {
    st.(modes := st.modes.(manualMode := on))
  }

  function WithEmergency(st: Store, on: bool): Store
  {
    st.(modes := st.modes.(emergencyMode := on))
  }

  /** `int` clamp as the camera-offset handler writes it. */
  function ClampInt(v: int, lo: int, hi: int): (r: int)
    requires lo <= hi
    ensures lo <= r <= hi
    ensures lo <= v <= hi ==> r == v
    ensures v > hi ==> r == hi
    ensures v < lo ==> r == lo
  {
    if v > hi then hi else if v < lo then lo else v
  }

  /** `double` clamp as the delay handler writes it. */
  function ClampReal(v: real, lo: real, hi: real): (r: real)
    requires lo <= hi
    ensures lo <= r <= hi
    ensures lo <= v <= hi ==> r == v
    ensures v > hi ==> r == hi
    ensures v < lo ==> r == lo
  {
    if v > hi then hi else if v < lo then lo else v
  }

  // ---------------------------------------------------------------------
  // The target-mode machine

  /**
   * The depth and seafloor buttons: only a change of mode sets it, leaves
   * manual wing control and sends the mode and the distance `d`;
   * re-selecting the current mode does nothing.
   */
  function ModeSelected(c: Console, mode: int, d: real, show: real -> string): (r: Console)
    ensures c.panel.targetMode == mode ==> r == c
    ensures c.panel.targetMode != mode ==>
              && r.panel == c.panel.(targetMode := mode,
                                     sentToRov := c.panel.sentToRov + [TargetModeCommand(mode), TargetDistanceCommand(d, show)])
              && r.st == WithManual(c.st, false)
  {
    if c.panel.targetMode != mode then
      Sent(Console(c.panel.(targetMode := mode), WithManual(c.st, false)),
           [TargetModeCommand(mode), TargetDistanceCommand(d, show)])
    else c
  }

  /** The depth button: mode 0, holding the vehicle's present depth. */
  function DepthSelected(c: Console, show: real -> string): Console
  {
    ModeSelected(c, DepthMode, c.st.camera.rovDepth, show)
  }

  /** The seafloor button: mode 1, holding the present depth beneath the boat. */
  function SeafloorSelected(c: Console, show: real -> string): Console
  {
    ModeSelected(c, SeafloorMode, c.st.attitude.depthBeneathBoat, show)
  }

  /**
   * The manual button: from another mode it enters mode 2 with manual wing
   * control and says so; from mode 2 it presses the depth button and levels
   * the wings.
   */
  function ManualToggled(c: Console, show: real -> string): (r: Console)
    ensures c.panel.targetMode != ManualMode ==>
              && r.panel == c.panel.(targetMode := ManualMode, sentToRov := c.panel.sentToRov + [TargetModeCommand(ManualMode)])
              && r.st == WithManual(c.st, true)
    ensures c.panel.targetMode == ManualMode ==>
              && r.panel.targetMode == DepthMode
              && r.panel.sentToRov == c.panel.sentToRov + [TargetModeCommand(DepthMode),
                                                           TargetDistanceCommand(c.st.camera.rovDepth, show), WingZeroCommand]
              && r.st == WithManual(c.st, false)
  {
    if c.panel.targetMode != ManualMode then
      Sent(Console(c.panel.(targetMode := ManualMode), WithManual(c.st, true)), [TargetModeCommand(ManualMode)])
    else Sent(DepthSelected(c, show), [WingZeroCommand])
  }

  /** The emergency stop: the emergency flag is raised, the manual button pressed, and the vehicle told to surface. */
  function EmergencyStopped(c: Console, show: real -> string): Console
  {
    var raised := if !c.st.modes.emergencyMode then c.(st := WithEmergency(c.st, true)) else c;
    Sent(ManualToggled(raised, show), [EmergencySurfaceCommand])
  }

  /** Re-selecting the mode in force is a no-op, for either button. */
  lemma ReselectingIsIdle(c: Console, show: real -> string)
    ensures DepthSelected(DepthSelected(c, show), show) == DepthSelected(c, show)
    ensures SeafloorSelected(SeafloorSelected(c, show), show) == SeafloorSelected(c, show)
  {
  }

  /**
   * Pressing the manual button twice from mode 0 or 1 returns to depth mode
   * without manual control, having sent mode 2, mode 0 with the depth, and
   * level wings.
   */
  lemma ManualToggleTwice(c: Console, show: real -> string)
    requires c.panel.targetMode != ManualMode
    ensures var r := ManualToggled(ManualToggled(c, show), show);
            && r.panel.targetMode == DepthMode
            && !r.st.modes.manualMode
            && r.panel.sentToRov == c.panel.sentToRov + [TargetModeCommand(ManualMode), TargetModeCommand(DepthMode),
                                                         TargetDistanceCommand(c.st.camera.rovDepth, show), WingZeroCommand]
  {
    var once := ManualToggled(c, show);
    assert once.st.camera == c.st.camera;
    assert once.panel.sentToRov == c.panel.sentToRov + [TargetModeCommand(ManualMode)];
  }

  /**
   * The emergency stop always ends raised, with the surfacing command last;
   * from manual mode it leaves manual control and holds the present depth,
   * from another mode it enters manual control.
   */
  lemma EmergencyStopOutcome(c: Console, show: real -> string)
    ensures var r := EmergencyStopped(c, show);
            && r.st.modes.emergencyMode
            && r.panel.sentToRov[|r.panel.sentToRov| - 1] == EmergencySurfaceCommand
            && (c.panel.targetMode == ManualMode ==>
                  && r.panel.targetMode == DepthMode && !r.st.modes.manualMode
                  && r.panel.sentToRov == c.panel.sentToRov + [TargetModeCommand(DepthMode),
                                          TargetDistanceCommand(c.st.camera.rovDepth, show), WingZeroCommand, EmergencySurfaceCommand])
            && (c.panel.targetMode != ManualMode ==>
                  && r.panel.targetMode == ManualMode && r.st.modes.manualMode
                  && r.panel.sentToRov == c.panel.sentToRov + [TargetModeCommand(ManualMode), EmergencySurfaceCommand])
  {
    var raised := c.(st := WithEmergency(c.st, true));
    assert EmergencyStopped(c, show) == Sent(ManualToggled(raised, show), [EmergencySurfaceCommand]);
    assert raised.st.camera == c.st.camera && raised.panel == c.panel;
  }

  // ---------------------------------------------------------------------
  // The entry fields

  /**
   * The camera-offset field: a commit that throws does nothing; a text that
   * passes `isInteger` replaces the pitch unless `parseInt` overflows, which
   * is caught with nothing written; then the pitch, new or old, is clamped
   * into [-10, 10] and written to the store.
   */
  function PitchEntered(c: Console, text: Option<string>, commitOk: bool): (r: Console)
    ensures !commitOk ==> r == c
    ensures commitOk && text.Some? && IntegerText(text.value) && !IsInt32(TextValue(text.value)) ==> r == c
    ensures commitOk && text.Some? && IntegerText(text.value) && IsInt32(TextValue(text.value)) ==>
              r.panel.cameraPitch == ClampInt(TextValue(text.value), -10, 10)
    ensures commitOk && !(text.Some? && IntegerText(text.value)) ==>
              r.panel.cameraPitch == ClampInt(c.panel.cameraPitch, -10, 10)
    ensures r.panel.(cameraPitch := c.panel.cameraPitch) == c.panel
    ensures r != c ==> -10 <= r.panel.cameraPitch <= 10 && r.st == c.st.(imaging := c.st.imaging.(cameraPitchValue := r.panel.cameraPitch))
  {
    if !commitOk then c
    else if text.Some? && IntegerText(text.value) then
      IntegerTextParses(text.value);
      match ParseInt(text.value)
      case None => c
      case Some(v) => Pitched(c, ClampInt(v, -10, 10))
    else Pitched(c, ClampInt(c.panel.cameraPitch, -10, 10))
  }

  /** The pitch written to the window's field and to the store. */
  function Pitched(c: Console, pitch: int): Console
  {
    Console(c.panel.(cameraPitch := pitch), c.st.(imaging := c.st.imaging.(cameraPitchValue := pitch)))
  }

  /**
   * A text `Integer.parseInt` would read but `isInteger` refuses, such as
   * "+5", leaves the pitch where it was (clamped).
   */
  lemma PlusSignPitchIgnored(c: Console)
    ensures ParseInt("+5") == Some(5)
    ensures PitchEntered(c, Some("+5"), true).panel.cameraPitch == ClampInt(c.panel.cameraPitch, -10, 10)
  {
    assert !IsDigit("+5"[0]);
    assert "+5"[1..] == "5";
    assert DigitsValue("5") == DigitsValue("5"[..0]) * 10 + DigitValue('5');
  }

  /**
   * The delay field: a text that parses sets the delay, clamped into [0, 99],
   * in the window and the store; anything else changes nothing.
   */
  function DelaySet(c: Console, text: Option<string>, p: Parsers): (r: Console)
    ensures text.None? || p.parseDouble(text.value).None? ==> r == c
    ensures text.Some? && p.parseDouble(text.value).Some? ==>
              && r.panel == c.panel.(photoModeDelay := ClampReal(p.parseDouble(text.value).value, 0.0, 99.0))
              && r.st == c.st.(imaging := c.st.imaging.(photoModeDelay := r.panel.photoModeDelay),
                               notifications := c.st.notifications + 1)
  {
    if text.Some? && p.parseDouble(text.value).Some? then
      var d := ClampReal(p.parseDouble(text.value).value, 0.0, 99.0);
      Console(c.panel.(photoModeDelay := d),
              c.st.(imaging := c.st.imaging.(photoModeDelay := d), notifications := c.st.notifications + 1))
    else c
  }

  /**
   * The target-distance field: the emergency flag is cleared first, whatever
   * follows; a distance in [0, 50] is sent, any other entry sends nothing.
   */
  function DistanceEntered(c: Console, text: Option<string>, commitOk: bool, p: Parsers, show: real -> string): (r: Console)
    ensures !r.st.modes.emergencyMode
    ensures r.st == WithEmergency(c.st, false)
    ensures r.panel.(sentToRov := c.panel.sentToRov) == c.panel
    ensures |r.panel.sentToRov| <= |c.panel.sentToRov| + 1
    ensures r.panel.sentToRov != c.panel.sentToRov <==>
              commitOk && text.Some? && p.parseDouble(text.value).Some? && 0.0 <= p.parseDouble(text.value).value <= 50.0
    ensures r.panel.sentToRov != c.panel.sentToRov ==>
              r.panel.sentToRov == c.panel.sentToRov + [TargetDistanceCommand(p.parseDouble(text.value).value, show)]
  {
    var cleared := c.(st := WithEmergency(c.st, false));
    if commitOk && text.Some? && p.parseDouble(text.value).Some? && 0.0 <= p.parseDouble(text.value).value <= 50.0 then
      Sent(cleared, [TargetDistanceCommand(p.parseDouble(text.value).value, show)])
    else cleared
  }

  /** The wing-angle field: an angle in [-30, 30] is sent, any other entry sends nothing. */
  function WingAngleEntered(c: Console, text: Option<string>, commitOk: bool, p: Parsers, show: real -> string): (r: Console)
    ensures r.st == c.st
    ensures r.panel.(sentToRov := c.panel.sentToRov) == c.panel
    ensures r.panel.sentToRov != c.panel.sentToRov <==>
              commitOk && text.Some? && p.parseDouble(text.value).Some? && -30.0 <= p.parseDouble(text.value).value <= 30.0
    ensures r.panel.sentToRov != c.panel.sentToRov ==>
              r.panel.sentToRov == c.panel.sentToRov + [WingAngleCommand(p.parseDouble(text.value).value, show)]
  {
    if commitOk && text.Some? && p.parseDouble(text.value).Some? && -30.0 <= p.parseDouble(text.value).value <= 30.0 then
      Sent(c, [WingAngleCommand(p.parseDouble(text.value).value, show)])
    else c
  }

  /** A target distance typed after an emergency stop lowers the emergency flag again. */
  lemma DistanceAfterStopClearsEmergency(c: Console, text: Option<string>, commitOk: bool, p: Parsers, show: real -> string)
    ensures EmergencyStopped(c, show).st.modes.emergencyMode
    ensures !DistanceEntered(EmergencyStopped(c, show), text, commitOk, p, show).st.modes.emergencyMode
  {
    EmergencyStopOutcome(c, show);
  }

  // ---------------------------------------------------------------------
  // update

  /** The readings `update` treats as an emergency: an I2C error, a leak, a voltage in (25, 28), a lost ping. */
  predicate Triggered(st: Store, pingerConnected: bool)
  {
    || st.rov.i2cError
    || st.camera.leakStatus
    || (25.0 < st.gps.voltage < 28.0)
    || (pingerConnected && st.rov.rovPing == 0.0)
  }

  /**
   * `update`: a raised emergency with the alarm idle presses the manual
   * button and sends mode 2 and a 30 degree angle; then each trigger raises
   * the emergency flag.  Nothing here lowers it.
   */
  function Updated(c: Console, sounderAlive: bool, pingerConnected: bool, show: real -> string): (r: Console)
    ensures r.st.modes.emergencyMode <==> c.st.modes.emergencyMode || Triggered(c.st, pingerConnected)
    ensures !(c.st.modes.emergencyMode && !sounderAlive) ==> r.panel == c.panel
    ensures c.st.modes.emergencyMode && !sounderAlive ==>
              |r.panel.sentToRov| >= 2 && r.panel.sentToRov[|r.panel.sentToRov| - 2..] == [ManualModeCommand, EmergencyAngleCommand]
  {
    var alarmed := if c.st.modes.emergencyMode && !sounderAlive
                   then Sent(ManualToggled(c, show), [ManualModeCommand, EmergencyAngleCommand]) else c;
    if Triggered(alarmed.st, pingerConnected) then alarmed.(st := WithEmergency(alarmed.st, true)) else alarmed
  }

  /**
   * From manual mode, an emergency seen by `update` presses the manual button,
   * which falls back to depth mode, and then tells the vehicle mode 2: the
   * window's mode and the last mode sent disagree.
   */
  lemma EmergencyUpdateFromManual(c: Console, pingerConnected: bool, show: real -> string)
    requires c.st.modes.emergencyMode && c.panel.targetMode == ManualMode
    ensures var r := Updated(c, false, pingerConnected, show);
            && r.panel.targetMode == DepthMode
            && r.panel.sentToRov == c.panel.sentToRov + [TargetModeCommand(DepthMode), TargetDistanceCommand(c.st.camera.rovDepth, show),
                                                         WingZeroCommand, ManualModeCommand, EmergencyAngleCommand]
            && r.st.modes.emergencyMode && !r.st.modes.manualMode
  {
    var toggled := ManualToggled(c, show);
    assert toggled.st.modes.emergencyMode;
  }

  /** The store after one emergency check of `update`. */
  function Raised(st: Store, trigger: bool): Store
  {
    if trigger then WithEmergency(st, true) else st
  }

  /** Four checks in a row raise the flag once when any of them holds, and touch nothing else. */
  lemma RaisedFour(st: Store, a: bool, b: bool, c: bool, d: bool)
    ensures Raised(Raised(Raised(Raised(st, a), b), c), d) == if a || b || c || d then WithEmergency(st, true) else st
  {
  }

  /** The mode command the window sends for mode 2 is the very text `update` sends. */
  lemma ManualModeCommandText()
    ensures TargetModeCommand(ManualMode) == ManualModeCommand
  {
  }

  // ---------------------------------------------------------------------
  // The window

  class RovFrame {
    var targetMode: int
    var cameraPitchValue: int
    var photoModeDelay: real
    var sentToRov: seq<string>
    const data: Data
    const udp: ImageLink.UdpServer

    function View(): Panel
      reads this
    {
      Panel(targetMode, cameraPitchValue, photoModeDelay, sentToRov)
    }

    ghost function Whole(): Console
      reads this, data
    {
      Console(View(), data.View())
    }

    ghost predicate Valid()
      reads this, data, udp
    {
      udp.data == data && udp.Valid()
    }

    constructor (data: Data, udp: ImageLink.UdpServer)
      requires udp.data == data && udp.Valid()
      ensures Valid() && this.data == data && this.udp == udp
      ensures View() == InitialPanel
    {
      this.data := data;
      this.udp := udp;
      targetMode := DepthMode;
      cameraPitchValue := 0;
      photoModeDelay := 1.0;
      sentToRov := [];
    }

    /** A `sendCommand` call on the vehicle link. */
    method Send(cmd: string)
      modifies this
      ensures View() == old(View()).(sentToRov := old(sentToRov) + [cmd])
    {
      sentToRov := sentToRov + [cmd];
    }

    method SelectMode(mode: int, d: real, show: real -> string)
      requires Valid()
      modifies this, data
      ensures Valid()
      ensures Whole() == ModeSelected(old(Whole()), mode, d, show)
    {
      if targetMode != mode {
        targetMode := mode;
        data.SetManualMode(false);
        Send(TargetModeCommand(targetMode));
        Send(TargetDistanceCommand(d, show));
      }
    }

    /** `depthModeButtonActionPerformed`. */
    method DepthModeButtonPressed(show: real -> string)
      requires Valid()
      modifies this, data
      ensures Valid()
      ensures Whole() == DepthSelected(old(Whole()), show)
    {
      var d := data.camera.rovDepth;
      SelectMode(DepthMode, d, show);
    }

    /** `seafloorModeButtonActionPerformed`. */
    method SeafloorModeButtonPressed(show: real -> string)
      requires Valid()
      modifies this, data
      ensures Valid()
      ensures Whole() == SeafloorSelected(old(Whole()), show)
    {
      var d := data.attitude.depthBeneathBoat;
      SelectMode(SeafloorMode, d, show);
    }

    /** `manualControlButtonActionPerformed`. */
    method ManualControlButtonPressed(show: real -> string)
      requires Valid()
      modifies this, data
      ensures Valid()
      ensures Whole() == ManualToggled(old(Whole()), show)
    {
      if targetMode != ManualMode {
        data.SetManualMode(true);
        targetMode := ManualMode;
        Send(TargetModeCommand(targetMode));
      } else {
        DepthModeButtonPressed(show);
        Send(WingZeroCommand);
      }
    }

    /** `emergencyStopButtonActionPerformed`. */
    method EmergencyStopButtonPressed(show: real -> string)
      requires Valid()
      modifies this, data
      ensures Valid()
      ensures Whole() == EmergencyStopped(old(Whole()), show)
    {
      if !data.modes.emergencyMode {
        data.SetEmergencyMode(true);
      }
      ManualControlButtonPressed(show);
      Send(EmergencySurfaceCommand);
    }

    /** `cameraOffsetTextFieldActionPerformed`. */
    method CameraOffsetEntered(text: Option<string>, commitOk: bool)
      requires Valid()
      modifies this, data
      ensures Valid()
      ensures Whole() == PitchEntered(old(Whole()), text, commitOk)
    {
      if !commitOk {
        return;
      }
      var isInt := IsInteger(text);
      if isInt {
        var parsed := ParseInt(text.value);
        if parsed.None? {
          return;
        }
        cameraPitchValue := parsed.value;
      }
      if cameraPitchValue > 10 {
        cameraPitchValue := 10;
      } else if cameraPitchValue < -10 {
        cameraPitchValue := -10;
      }
      data.SetCameraPitchValue(cameraPitchValue);
    }

    /** `delayTextFieldActionPerformed`: the clamped delay is stored, then sent to the camera. */
    method DelayEntered(text: Option<string>, p: Parsers, show: real -> string, sendOk: bool)
      requires Valid()
      modifies this, data, udp
      ensures Valid()
      ensures Whole() == DelaySet(old(Whole()), text, p)
      ensures text.None? || p.parseDouble(text.value).None? ==> udp.View() == old(udp.View())
      ensures text.Some? && p.parseDouble(text.value).Some? ==>
                udp.View() == old(udp.View()).(outbox := if udp.socket == ImageLink.Open && udp.returnAddress.Some? && sendOk
                  then old(udp.outbox) + [ImageLink.Outgoing(ImageLink.DelayText(photoModeDelay, show), udp.returnAddress.value)]
                  else old(udp.outbox))
    {
      if text.Some? {
        var parsed := p.parseDouble(text.value);
        if parsed.Some? {
          photoModeDelay := parsed.value;
          if photoModeDelay > 99.0 {
            photoModeDelay := 99.0;
          } else if photoModeDelay < 0.0 {
            photoModeDelay := 0.0;
          }
          data.SetPhotoModeDelay(photoModeDelay);
          udp.SendDelayCommand(show, sendOk);
        }
      }
    }

    /** `targetDistanceTextFieldActionPerformed`. */
    method TargetDistanceEntered(text: Option<string>, commitOk: bool, p: Parsers, show: real -> string)
      requires Valid()
      modifies this, data
      ensures Valid()
      ensures Whole() == DistanceEntered(old(Whole()), text, commitOk, p, show)
    {
      data.SetEmergencyMode(false);
      if commitOk && text.Some? {
        var parsed := p.parseDouble(text.value);
        if parsed.Some? {
          var d := parsed.value;
          if d <= 50.0 && d >= 0.0 {
            Send(TargetDistanceCommand(d, show));
          }
        }
      }
    }

    /** `wingAngTextFieldActionPerformed`. */
    method WingAngleTextEntered(text: Option<string>, commitOk: bool, p: Parsers, show: real -> string)
      requires Valid()
      modifies this
      ensures Valid()
      ensures Whole() == WingAngleEntered(old(Whole()), text, commitOk, p, show)
    {
      if commitOk && text.Some? {
        var parsed := p.parseDouble(text.value);
        if parsed.Some? {
          var a := parsed.value;
          if a <= 30.0 && a >= -30.0 {
            Send(WingAngleCommand(a, show));
          }
        }
      }
    }

    /** `update`, given whether the alarm thread is running and whether the pinger reports connected. */
    method Update(sounderAlive: bool, pingerConnected: bool, show: real -> string)
      requires Valid()
      modifies this, data
      ensures Valid()
      ensures Whole() == Updated(old(Whole()), sounderAlive, pingerConnected, show)
    {
      if data.modes.emergencyMode && !sounderAlive {
        ManualControlButtonPressed(show);
        Send(ManualModeCommand);
        Send(EmergencyAngleCommand);
      }
      RaiseOnTriggers(pingerConnected);
    }

    /** The four checks of `update` that raise the emergency flag. */
    method RaiseOnTriggers(pingerConnected: bool)
      requires Valid()
      modifies data
      ensures Valid()
      ensures data.View() == if Triggered(old(data.View()), pingerConnected)
                             then WithEmergency(old(data.View()), true) else old(data.View())
    {
      ghost var st0 := data.View();
      RaiseIf(data.rov.i2cError);
      RaiseIf(data.camera.leakStatus);
      RaiseIf(data.gps.voltage < 28.0 && data.gps.voltage > 25.0);
      RaiseIf(pingerConnected && data.rov.rovPing == 0.0);
      RaisedFour(st0, st0.rov.i2cError, st0.camera.leakStatus, 25.0 < st0.gps.voltage < 28.0,
                 pingerConnected && st0.rov.rovPing == 0.0);
    }

    /** One check: the emergency flag is raised when `trigger` holds. */
    method RaiseIf(trigger: bool)
      requires Valid()
      modifies data
      ensures Valid()
      ensures data.View() == Raised(old(data.View()), trigger)
    {
      if trigger {
        data.SetEmergencyMode(true);
      }
    }
  }
}
