/**
 * The shared store `Data` that every link, reader and window of the shore
 * station writes into and reads from.  Only the fields the modelled
 * components touch are kept.  Java floats and doubles are both `real`.
 * `notifications` counts the `setChanged(); notifyObservers()` pairs, so
 * the setters that do and do not notify observers can be told apart.
 */
module SharedData {
  import opened Wrappers
  import opened JavaText

  type Bytes = seq<bv8>

  const RovDepthCapacity: nat := 260
  const DepthBeneathBoatCapacity: nat := 300
  const LabelCount: nat := 8
  const ChannelCount: nat := 9

  /** Feedback from the boat's GPS and echo sounder. */
  datatype GpsFeedback = GpsFeedback(
    satellites: int, altitude: real, gpsAngle: real, speed: real,
    latitude: real, longitude: real, temperature: real, voltage: real)

  /** Feedback from the boat's inertial unit. */
  datatype ImuFeedback = ImuFeedback(roll: real, pitch: real)

  /** Feedback from the camera computer on the vehicle. */
  datatype CameraFeedback = CameraFeedback(
    leakStatus: bool, rovDepth: real, pressure: real,
    outsideTemp: real, insideTemp: real, humidity: real)

  /** Feedback from the vehicle's control computer. */
  datatype RovFeedback = RovFeedback(
    rovPing: real, rovReady: bool, i2cError: bool,
    tempElBoxFront: real, tempElBoxRear: real)

  /** Attitude, wing and depth readings of the vehicle. */
  datatype Attitude = Attitude(
    depthBeneathRov: real, depthBeneathBoat: real, pitchAngle: real,
    rollAngle: real, wingAnglePort: real, wingAngleSB: real, testDepth: real)

  /** The operator-side switches. */
  datatype Modes = Modes(
    emergencyMode: bool, streaming: bool, manualMode: bool, controllerEnabled: bool,
    photoMode: bool, imagesCleared: bool, startLogging: bool)

  /** Photo and camera settings. */
  datatype Imaging = Imaging(
    photoModeDelay: real, photoModeDelayFB: real, imageNumber: int,
    cameraPitchValue: int, videoImage: Option<Bytes>)

  /** Every field of the store, as one value. */
  datatype Store = Store(
    gps: GpsFeedback, imu: ImuFeedback, camera: CameraFeedback, rov: RovFeedback,
    attitude: Attitude, modes: Modes, imaging: Imaging, actuatorStatus: int,
    labels: seq<string>, channelValues: seq<real>,
    rovDepthDataList: seq<string>, depthBeneathBoatDataList: seq<string>,
    comPortList: map<string, string>,
    notifications: nat)

  /** What the store keeps true between any two calls. */
  predicate Inv(st: Store)
  {
    && |st.labels| == LabelCount
    && |st.channelValues| == ChannelCount
    && (forall i :: 0 <= i < ChannelCount ==> st.channelValues[i] == 0.0)
    && |st.rovDepthDataList| <= RovDepthCapacity
    && |st.depthBeneathBoatDataList| <= DepthBeneathBoatCapacity
    && IsInt32(st.imaging.imageNumber) && IsInt32(st.gps.satellites) && IsInt32(st.imaging.cameraPitchValue)
    && -128 <= st.actuatorStatus <= 127
  }

  /** The labels the store falls back on when its options file cannot be read. */
  const DefaultLabels: seq<string> := ["1", "2", "3", "4", "5", "6", "7", "8"]

  /** The store as the field initialisers and the fallback defaults leave it, before the splash image is loaded. */
  const Initial: Store := Store(
    GpsFeedback(0, 0.0, 0.0, 0.0, 0.0, 0.0, 0.01, 0.01),
    ImuFeedback(0.0, 0.0),
    CameraFeedback(false, 0.0, 0.0, 0.0, 0.0, 0.0),
    RovFeedback(999.99, false, false, 0.0, 0.0),
    Attitude(0.0, 0.0, 0.0, 0.0, 0.0, 0.0, 0.0),
    Modes(false, false, false, false, false, false, true),
    Imaging(1.0, 1.0, 0, 0, None),
    0,
    DefaultLabels, seq(ChannelCount, _ => 0.0),
    [], [],
    map[],
    0)

  lemma InitialInv()
    ensures Inv(Initial)
  {
  }

  function Min(a: nat, b: nat): nat { if a <= b then a else b }

  /** The newest `cap` entries of `s` (all of them when there are fewer). */
  function Newest(s: seq<string>, cap: nat): (r: seq<string>)
    ensures |r| == Min(cap, |s|)
  {
    s[|s| - Min(cap, |s|)..]
  }

  /** One bounded FIFO step: evict the oldest entry when full, then append. */
  function Pushed(h: seq<string>, cap: nat, e: string): (r: seq<string>)
    requires 0 < cap && |h| <= cap
    ensures |r| == if |h| < cap then |h| + 1 else cap
    ensures r[|r| - 1] == e
    ensures r == Newest(h + [e], cap)
  {
    if |h| >= cap then
      assert h[1..] + [e] == (h + [e])[1..];
      h[1..] + [e]
    else
      assert h + [e] == (h + [e])[0..];
      h + [e]
  }

  /** Pushes a series of entries one at a time. */
  function PushedAll(h: seq<string>, cap: nat, es: seq<string>): (r: seq<string>)
    requires 0 < cap && |h| <= cap
    ensures |r| <= cap
    decreases |es|
  {
    if |es| == 0 then h else PushedAll(Pushed(h, cap, es[0]), cap, es[1..])
  }

  lemma NewestOfSuffix(s: seq<string>, k: nat, cap: nat)
    requires k <= |s| && |s| - k >= Min(cap, |s|)
    ensures Newest(s[k..], cap) == Newest(s, cap)
  {
    assert s[k..][|s| - k - Min(cap, |s|)..] == s[|s| - Min(cap, |s|)..];
  }

  lemma NewestAppend(a: seq<string>, b: seq<string>, cap: nat)
    ensures Newest(Newest(a, cap) + b, cap) == Newest(a + b, cap)
  {
    var k := |a| - Min(cap, |a|);
    assert Newest(a, cap) + b == (a + b)[k..];
    NewestOfSuffix(a + b, k, cap);
  }

  /** After any series of pushes the history is the newest `cap` entries of all it has seen. */
  lemma {:induction false} PushedAllKeepsNewest(h: seq<string>, cap: nat, es: seq<string>)
    requires 0 < cap && |h| <= cap
    ensures PushedAll(h, cap, es) == Newest(h + es, cap)
    decreases |es|
  {
    SplitFirst(h, es);
    if |es| > 0 {
      var h' := Pushed(h, cap, es[0]);
      PushedAllKeepsNewest(h', cap, es[1..]);
      NewestAppend(h + [es[0]], es[1..], cap);
    }
  }

  /** Appending `es` is appending its first element, then the rest. */
  lemma SplitFirst<T>(h: seq<T>, es: seq<T>)
    ensures |es| == 0 ==> h + es == h
    ensures |es| > 0 ==> h + [es[0]] + es[1..] == h + es
  {
    if |es| > 0 {
      assert (h + [es[0]]) + es[1..] == h + ([es[0]] + es[1..]);
      assert [es[0]] + es[1..] == es;
    }
  }

  /** Java's `Double.parseDouble` and `Float.parseFloat`, None where they throw. */
  datatype Parsers = Parsers(parseDouble: string -> Option<real>, parseFloat: string -> Option<real>)

  /** The setter calls the decoding tables make, each with the parse it applies to the text. */
  datatype Action =
    | SetWingAngleSB | SetWingAnglePort | SetRollAngle | SetPitchAngle | SetDepthBeneathRov
    | SetTempElBoxFront | SetTempElBoxRear | SetRovReady | SetI2cError | LeakAlarmOn
    | SetRovDepth | SetPressure | SetOutsideTemp | SetInsideTemp | SetHumidity
    | SetSatellites | SetAltitude | SetGPSAngle | SetSpeed | SetLatitude | SetLongitude
    | SetDepthBeneathBoatNegated | SetTemperature | SetRoll | SetPitch | SetVoltage | SetTestDepth

  /** The actions whose argument comes from `Float.parseFloat`. */
  predicate ParsesFloat(a: Action)
  {
    a in {SetWingAngleSB, SetWingAnglePort, SetAltitude, SetSpeed, SetLatitude, SetLongitude, SetTemperature}
  }

  /** The actions whose argument is a double or a float. */
  predicate ParsesReal(a: Action)
  {
    !(a in {SetRovReady, SetI2cError, LeakAlarmOn, SetSatellites})
  }

  /** The store after `setLeakStatus(leak)`: a cleared leak also clears the emergency. */
  function LeakSet(st: Store, leak: bool): (r: Store)
    ensures r.camera.leakStatus == leak
    ensures !leak ==> !r.modes.emergencyMode
    ensures leak ==> r.modes.emergencyMode == st.modes.emergencyMode
    ensures r.notifications == st.notifications + 1
  {
    var cleared := if leak then st else st.(modes := st.modes.(emergencyMode := false));
    cleared.(camera := st.camera.(leakStatus := leak), notifications := st.notifications + 1)
  }

  /** The store after a real-valued setter has been given `v`. */
  function RealWritten(st: Store, a: Action, v: real): Store
    requires ParsesReal(a)
  {
    match a
    case SetWingAngleSB => st.(attitude := st.attitude.(wingAngleSB := v), notifications := st.notifications + 1)
    case SetWingAnglePort => st.(attitude := st.attitude.(wingAnglePort := v), notifications := st.notifications + 1)
    case SetRollAngle => st.(attitude := st.attitude.(rollAngle := v), notifications := st.notifications + 1)
    case SetPitchAngle => st.(attitude := st.attitude.(pitchAngle := v), notifications := st.notifications + 1)
    case SetDepthBeneathRov => st.(attitude := st.attitude.(depthBeneathRov := v), notifications := st.notifications + 1)
    case SetTempElBoxFront => st.(rov := st.rov.(tempElBoxFront := v))
    case SetTempElBoxRear => st.(rov := st.rov.(tempElBoxRear := v))
    case SetRovDepth => st.(camera := st.camera.(rovDepth := v))
    case SetPressure => st.(camera := st.camera.(pressure := v), notifications := st.notifications + 1)
    case SetOutsideTemp => st.(camera := st.camera.(outsideTemp := v), notifications := st.notifications + 1)
    case SetInsideTemp => st.(camera := st.camera.(insideTemp := v), notifications := st.notifications + 1)
    case SetHumidity => st.(camera := st.camera.(humidity := v), notifications := st.notifications + 1)
    case SetAltitude => st.(gps := st.gps.(altitude := v), notifications := st.notifications + 1)
    case SetGPSAngle => st.(gps := st.gps.(gpsAngle := v), notifications := st.notifications + 1)
    case SetSpeed => st.(gps := st.gps.(speed := v), notifications := st.notifications + 1)
    case SetLatitude => st.(gps := st.gps.(latitude := v), notifications := st.notifications + 1)
    case SetLongitude => st.(gps := st.gps.(longitude := v), notifications := st.notifications + 1)
    case SetDepthBeneathBoatNegated => st.(attitude := st.attitude.(depthBeneathBoat := -v), notifications := st.notifications + 1)
    case SetTemperature => st.(gps := st.gps.(temperature := v), notifications := st.notifications + 1)
    case SetRoll => st.(imu := st.imu.(roll := v), notifications := st.notifications + 1)
    case SetPitch => st.(imu := st.imu.(pitch := v), notifications := st.notifications + 1)
    case SetVoltage => st.(gps := st.gps.(voltage := v), notifications := st.notifications + 1)
    case SetTestDepth => st.(attitude := st.attitude.(testDepth := v), camera := st.camera.(rovDepth := v))
  }

  /**
   * The store after one setter call made with the text `text`; None when the
   * parse in front of the call throws, in which case nothing is written.
   */
  function Performed(st: Store, a: Action, text: string, p: Parsers): (r: Option<Store>)
    ensures r.None? ==> ParsesReal(a) || a == SetSatellites
    ensures a in {SetRovReady, SetI2cError, LeakAlarmOn} ==> r.Some?
    ensures a == LeakAlarmOn && r.Some? ==> r.value.camera.leakStatus == (st.camera.leakStatus || text == "1")
  {
    if ParsesReal(a) then
      var parsed := if ParsesFloat(a) then p.parseFloat(text) else p.parseDouble(text);
      if parsed.None? then None else Some(RealWritten(st, a, parsed.value))
    else if a == SetSatellites then
      var n := ParseInt(text);
      if n.None? then None
      else Some(st.(gps := st.gps.(satellites := n.value), notifications := st.notifications + 1))
    else if a == SetRovReady then Some(st.(rov := st.rov.(rovReady := ParseBoolean(text))))
    else if a == SetI2cError then Some(st.(rov := st.rov.(i2cError := ParseBoolean(text))))
    else if text == "1" then Some(LeakSet(st, true))
    else Some(st)
  }

  /** A setter call never breaks the store's invariant. */
  lemma PerformedKeepsInv(st: Store, a: Action, text: string, p: Parsers)
    requires Inv(st)
    ensures Performed(st, a, text, p).Some? ==> Inv(Performed(st, a, text, p).value)
  {
  }

  /** No setter the decoding tables can call ever clears the leak flag. */
  lemma {:induction false} PerformedNeverClearsLeak(st: Store, a: Action, text: string, p: Parsers)
    requires st.camera.leakStatus
    ensures Performed(st, a, text, p).Some? ==> Performed(st, a, text, p).value.camera.leakStatus
  {
  }

  /** `getChannel(c)`: None stands for Java's null. */
  function ChannelText(st: Store, c: int): (r: Option<string>)
    requires Inv(st)
    ensures r.Some? <==> 1 <= c <= LabelCount
    ensures 5 <= c <= LabelCount ==> r == Some(st.labels[c - 1])
    ensures 1 <= c <= 4 ==> r == Some(st.labels[c - 1] + ": " + "0.0")
  {
    if 0 < c < 9 then
      if c < 5 then Some(st.labels[c - 1] + ": " + ZeroFloatText(st.channelValues[c - 1]))
      else Some(st.labels[c - 1])
    else None
  }

  /** `Float.toString` of the only value a channel ever holds. */
  function ZeroFloatText(v: real): (s: string)
    requires v == 0.0
    ensures s == "0.0"
  {
    "0.0"
  }

  /**
   * The store as an object whose setters overwrite fields in place.  The
   * fields are those of `Store`; `View` reads them back as one value.
   */
  class Data {
    var gps: GpsFeedback
    var imu: ImuFeedback
    var camera: CameraFeedback
    var rov: RovFeedback
    var attitude: Attitude
    var modes: Modes
    var imaging: Imaging
    var actuatorStatus: int
    var labels: seq<string>
    var channelValues: seq<real>
    var rovDepthDataList: seq<string>
    var depthBeneathBoatDataList: seq<string>
    var comPortList: map<string, string>
    var notifications: nat

    function View(): Store
      reads this
    {
      Store(gps, imu, camera, rov, attitude, modes, imaging, actuatorStatus,
            labels, channelValues, rovDepthDataList, depthBeneathBoatDataList,
            comPortList, notifications)
    }

    ghost predicate Valid()
      reads this
    {
      Inv(View())
    }

    /**
     * A store whose options file could not be read, showing `splash`: the
     * image `ImageIO.read` makes of the bundled TowedROV.jpg, None where it
     * returns null or throws an `IOException`, which is caught.
     */
    constructor (splash: Option<Bytes>)
      ensures Valid()
      ensures View() == Initial.(imaging := Initial.imaging.(videoImage := splash))
    {
      gps, imu, camera, rov := Initial.gps, Initial.imu, Initial.camera, Initial.rov;
      attitude, modes, actuatorStatus := Initial.attitude, Initial.modes, 0;
      imaging := Initial.imaging.(videoImage := splash);
      labels, channelValues := DefaultLabels, seq(ChannelCount, _ => 0.0);
      rovDepthDataList, depthBeneathBoatDataList := [], [];
      comPortList := map[];
      notifications := 0;
    }

    // ----- setters that notify observers

    method SetWingAngleSB(v: real)
      requires Valid()
      modifies this
      ensures Valid() && View() == old(View()).(attitude := old(attitude).(wingAngleSB := v), notifications := old(notifications) + 1)
    {
      attitude := attitude.(wingAngleSB := v);
      notifications := notifications + 1;
    }

    method SetWingAnglePort(v: real)
      requires Valid()
      modifies this
      ensures Valid() && View() == old(View()).(attitude := old(attitude).(wingAnglePort := v), notifications := old(notifications) + 1)
    {
      attitude := attitude.(wingAnglePort := v);
      notifications := notifications + 1;
    }

    method SetRollAngle(v: real)
      requires Valid()
      modifies this
      ensures Valid() && View() == old(View()).(attitude := old(attitude).(rollAngle := v), notifications := old(notifications) + 1)
    {
      attitude := attitude.(rollAngle := v);
      notifications := notifications + 1;
    }

    method SetPitchAngle(v: real)
      requires Valid()
      modifies this
      ensures Valid() && View() == old(View()).(attitude := old(attitude).(pitchAngle := v), notifications := old(notifications) + 1)
    {
      attitude := attitude.(pitchAngle := v);
      notifications := notifications + 1;
    }

    method SetDepthBeneathRov(v: real)
      requires Valid()
      modifies this
      ensures Valid() && View() == old(View()).(attitude := old(attitude).(depthBeneathRov := v), notifications := old(notifications) + 1)
    {
      attitude := attitude.(depthBeneathRov := v);
      notifications := notifications + 1;
    }

    method SetDepthBeneathBoat(v: real)
      requires Valid()
      modifies this
      ensures Valid() && View() == old(View()).(attitude := old(attitude).(depthBeneathBoat := v), notifications := old(notifications) + 1)
    {
      attitude := attitude.(depthBeneathBoat := v);
      notifications := notifications + 1;
    }

    method SetPressure(v: real)
      requires Valid()
      modifies this
      ensures Valid() && View() == old(View()).(camera := old(camera).(pressure := v), notifications := old(notifications) + 1)
    {
      camera := camera.(pressure := v);
      notifications := notifications + 1;
    }

    method SetOutsideTemp(v: real)
      requires Valid()
      modifies this
      ensures Valid() && View() == old(View()).(camera := old(camera).(outsideTemp := v), notifications := old(notifications) + 1)
    {
      camera := camera.(outsideTemp := v);
      notifications := notifications + 1;
    }

    method SetInsideTemp(v: real)
      requires Valid()
      modifies this
      ensures Valid() && View() == old(View()).(camera := old(camera).(insideTemp := v), notifications := old(notifications) + 1)
    {
      camera := camera.(insideTemp := v);
      notifications := notifications + 1;
    }

    method SetHumidity(v: real)
      requires Valid()
      modifies this
      ensures Valid() && View() == old(View()).(camera := old(camera).(humidity := v), notifications := old(notifications) + 1)
    {
      camera := camera.(humidity := v);
      notifications := notifications + 1;
    }

    method SetSatellites(v: int)
      requires Valid() && IsInt32(v)
      modifies this
      ensures Valid() && View() == old(View()).(gps := old(gps).(satellites := v), notifications := old(notifications) + 1)
    {
      gps := gps.(satellites := v);
      notifications := notifications + 1;
    }

    method SetAltitude(v: real)
      requires Valid()
      modifies this
      ensures Valid() && View() == old(View()).(gps := old(gps).(altitude := v), notifications := old(notifications) + 1)
    {
      gps := gps.(altitude := v);
      notifications := notifications + 1;
    }

    method SetGPSAngle(v: real)
      requires Valid()
      modifies this
      ensures Valid() && View() == old(View()).(gps := old(gps).(gpsAngle := v), notifications := old(notifications) + 1)
    {
      gps := gps.(gpsAngle := v);
      notifications := notifications + 1;
    }

    method SetSpeed(v: real)
      requires Valid()
      modifies this
      ensures Valid() && View() == old(View()).(gps := old(gps).(speed := v), notifications := old(notifications) + 1)
    {
      gps := gps.(speed := v);
      notifications := notifications + 1;
    }

    method SetLatitude(v: real)
      requires Valid()
      modifies this
      ensures Valid() && View() == old(View()).(gps := old(gps).(latitude := v), notifications := old(notifications) + 1)
    {
      gps := gps.(latitude := v);
      notifications := notifications + 1;
    }

    method SetLongitude(v: real)
      requires Valid()
      modifies this
      ensures Valid() && View() == old(View()).(gps := old(gps).(longitude := v), notifications := old(notifications) + 1)
    {
      gps := gps.(longitude := v);
      notifications := notifications + 1;
    }

    method SetTemperature(v: real)
      requires Valid()
      modifies this
      ensures Valid() && View() == old(View()).(gps := old(gps).(temperature := v), notifications := old(notifications) + 1)
    {
      gps := gps.(temperature := v);
      notifications := notifications + 1;
    }

    method SetVoltage(v: real)
      requires Valid()
      modifies this
      ensures Valid() && View() == old(View()).(gps := old(gps).(voltage := v), notifications := old(notifications) + 1)
    {
      gps := gps.(voltage := v);
      notifications := notifications + 1;
    }

    method SetRoll(v: real)
      requires Valid()
      modifies this
      ensures Valid() && View() == old(View()).(imu := old(imu).(roll := v), notifications := old(notifications) + 1)
    {
      imu := imu.(roll := v);
      notifications := notifications + 1;
    }

    method SetPitch(v: real)
      requires Valid()
      modifies this
      ensures Valid() && View() == old(View()).(imu := old(imu).(pitch := v), notifications := old(notifications) + 1)
    {
      imu := imu.(pitch := v);
      notifications := notifications + 1;
    }

    method SetRovPing(v: real)
      requires Valid()
      modifies this
      ensures Valid() && View() == old(View()).(rov := old(rov).(rovPing := v), notifications := old(notifications) + 1)
    {
      rov := rov.(rovPing := v);
      notifications := notifications + 1;
    }

    method SetPhotoModeDelay(v: real)
      requires Valid()
      modifies this
      ensures Valid() && View() == old(View()).(imaging := old(imaging).(photoModeDelay := v), notifications := old(notifications) + 1)
    {
      imaging := imaging.(photoModeDelay := v);
      notifications := notifications + 1;
    }

    method SetPhotoModeDelayFB(v: real)
      requires Valid()
      modifies this
      ensures Valid() && View() == old(View()).(imaging := old(imaging).(photoModeDelayFB := v), notifications := old(notifications) + 1)
    {
      imaging := imaging.(photoModeDelayFB := v);
      notifications := notifications + 1;
    }

    method SetVideoImage(v: Option<Bytes>)
      requires Valid()
      modifies this
      ensures Valid() && View() == old(View()).(imaging := old(imaging).(videoImage := v), notifications := old(notifications) + 1)
    {
      imaging := imaging.(videoImage := v);
      notifications := notifications + 1;
    }

    method SetStartLogging(v: bool)
      requires Valid()
      modifies this
      ensures Valid() && View() == old(View()).(modes := old(modes).(startLogging := v), notifications := old(notifications) + 1)
    {
      modes := modes.(startLogging := v);
      notifications := notifications + 1;
    }

    method SetActuatorStatus(status: int)
      requires Valid() && -128 <= status <= 127
      modifies this
      ensures Valid() && View() == old(View()).(actuatorStatus := status, notifications := old(notifications) + 1)
    {
      actuatorStatus := status;
      notifications := notifications + 1;
    }

    /** `setLeakStatus`: clearing the leak also clears the emergency; raising it leaves the emergency alone. */
    method SetLeakStatus(leak: bool)
      requires Valid()
      modifies this
      ensures Valid() && View() == LeakSet(old(View()), leak)
    {
      camera := camera.(leakStatus := leak);
      if !leak {
        SetEmergencyMode(false);
      }
      notifications := notifications + 1;
    }

    /** `increaseImageNumberByOne`: one more image, with Java's int wrap-around. */
    method IncreaseImageNumberByOne()
      requires Valid()
      modifies this
      ensures Valid() && View() == old(View()).(imaging := old(imaging).(imageNumber := Inc32(old(imaging.imageNumber))),
                                                 notifications := old(notifications) + 1)
    {
      imaging := imaging.(imageNumber := Inc32(imaging.imageNumber));
      notifications := notifications + 1;
    }

    /** `setIOLabels`: replaces exactly the eight channel labels. */
    method SetIOLabels(c1: string, c2: string, c3: string, c4: string,
                       c5: string, c6: string, c7: string, c8: string)
      requires Valid()
      modifies this
      ensures Valid() && View() == old(View()).(labels := [c1, c2, c3, c4, c5, c6, c7, c8],
                                                 notifications := old(notifications) + 1)
    {
      labels := [c1, c2, c3, c4, c5, c6, c7, c8];
      notifications := notifications + 1;
    }

    /**
     * `setChannel`: its guard `channel < 0 && channel > 5` can never hold, so
     * no channel value is ever written; observers are still notified.
     */
    method SetChannel(value: real, channel: int)
      requires Valid()
      modifies this
      ensures Valid() && View() == old(View()).(notifications := old(notifications) + 1)
    {
      if channel < 0 && channel > 5 {
        assert false;
      }
      notifications := notifications + 1;
    }

    // ----- setters that do not notify observers

    /** `setEmergencyMode` writes the flag and nothing else, not even a notification. */
    method SetEmergencyMode(v: bool)
      requires Valid()
      modifies this
      ensures Valid() && View() == old(View()).(modes := old(modes).(emergencyMode := v))
    {
      modes := modes.(emergencyMode := v);
    }

    method SetStreaming(v: bool)
      requires Valid()
      modifies this
      ensures Valid() && View() == old(View()).(modes := old(modes).(streaming := v))
    {
      modes := modes.(streaming := v);
    }

    method SetManualMode(v: bool)
      requires Valid()
      modifies this
      ensures Valid() && View() == old(View()).(modes := old(modes).(manualMode := v))
    {
      modes := modes.(manualMode := v);
    }

    method SetPhotoMode(v: bool)
      requires Valid()
      modifies this
      ensures Valid() && View() == old(View()).(modes := old(modes).(photoMode := v))
    {
      modes := modes.(photoMode := v);
    }

    method SetImagesCleared(v: bool)
      requires Valid()
      modifies this
      ensures Valid() && View() == old(View()).(modes := old(modes).(imagesCleared := v))
    {
      modes := modes.(imagesCleared := v);
    }

    method SetRovReady(v: bool)
      requires Valid()
      modifies this
      ensures Valid() && View() == old(View()).(rov := old(rov).(rovReady := v))
    {
      rov := rov.(rovReady := v);
    }

    method SetI2cError(v: bool)
      requires Valid()
      modifies this
      ensures Valid() && View() == old(View()).(rov := old(rov).(i2cError := v))
    {
      rov := rov.(i2cError := v);
    }

    method SetTempElBoxFront(v: real)
      requires Valid()
      modifies this
      ensures Valid() && View() == old(View()).(rov := old(rov).(tempElBoxFront := v))
    {
      rov := rov.(tempElBoxFront := v);
    }

    method SetTempElBoxRear(v: real)
      requires Valid()
      modifies this
      ensures Valid() && View() == old(View()).(rov := old(rov).(tempElBoxRear := v))
    {
      rov := rov.(tempElBoxRear := v);
    }

    method SetRovDepth(v: real)
      requires Valid()
      modifies this
      ensures Valid() && View() == old(View()).(camera := old(camera).(rovDepth := v))
    {
      camera := camera.(rovDepth := v);
    }

    method SetCameraPitchValue(v: int)
      requires Valid() && IsInt32(v)
      modifies this
      ensures Valid() && View() == old(View()).(imaging := old(imaging).(cameraPitchValue := v))
    {
      imaging := imaging.(cameraPitchValue := v);
    }

    /** `setTestDepth` writes the test depth and, through `setRovDepth`, the vehicle depth. */
    method SetTestDepth(v: real)
      requires Valid()
      modifies this
      ensures Valid() && View() == old(View()).(attitude := old(attitude).(testDepth := v),
                                                 camera := old(camera).(rovDepth := v))
    {
      attitude := attitude.(testDepth := v);
      SetRovDepth(v);
    }

    /** `updateRovDepthDataList`: a FIFO of at most 260 "time:value" entries. */
    method UpdateRovDepthDataList(time: string, value: string)
      requires Valid()
      modifies this
      ensures Valid()
      ensures View() == old(View()).(rovDepthDataList :=
                Pushed(old(rovDepthDataList), RovDepthCapacity, time + ":" + value))
    {
      if |rovDepthDataList| >= RovDepthCapacity {
        rovDepthDataList := rovDepthDataList[1..];
      }
      rovDepthDataList := rovDepthDataList + [time + ":" + value];
    }

    /** `updateDepthBeneathBoatDataList`: a FIFO of at most 300 "time:value" entries. */
    method UpdateDepthBeneathBoatDataList(time: string, value: string)
      requires Valid()
      modifies this
      ensures Valid()
      ensures View() == old(View()).(depthBeneathBoatDataList :=
                Pushed(old(depthBeneathBoatDataList), DepthBeneathBoatCapacity, time + ":" + value))
    {
      if |depthBeneathBoatDataList| >= DepthBeneathBoatCapacity {
        depthBeneathBoatDataList := depthBeneathBoatDataList[1..];
      }
      depthBeneathBoatDataList := depthBeneathBoatDataList + [time + ":" + value];
    }

    /** `comPortList.put(port, role)` on the public registry. */
    method PutComPort(port: string, role: string)
      requires Valid()
      modifies this
      ensures Valid() && View() == old(View()).(comPortList := old(comPortList)[port := role])
    {
      comPortList := comPortList[port := role];
    }

    // ----- readers

    /** `getChannel(c)`: label and value for the inputs 1..4, the label alone for 5..8, null otherwise. */
    method GetChannel(c: int) returns (r: Option<string>)
      requires Valid()
      ensures r.Some? <==> 1 <= c <= LabelCount
      ensures 1 <= c <= 4 ==> r == Some(labels[c - 1] + ": 0.0")
      ensures 5 <= c <= LabelCount ==> r == Some(labels[c - 1])
    {
      if c > 0 && c < 9 {
        if c < 5 {
          assert labels[c - 1] + ": " + "0.0" == labels[c - 1] + ": 0.0";
          r := Some(labels[c - 1] + ": " + ZeroFloatText(channelValues[c - 1]));
        } else {
          r := Some(labels[c - 1]);
        }
      } else {
        r := None;
      }
    }

    /** `getChannelValue`: its guard can never hold, so every channel reads 0.001. */
    method GetChannelValue(channel: int) returns (v: real)
      requires Valid()
      ensures v == 0.001
    {
      if channel < 0 && channel > 5 {
        assert false;
        v := 0.0;
      } else {
        v := 0.001;
      }
    }

    /** `getActuatorStatus`: true exactly when the stored status byte is 1. */
    method GetActuatorStatus() returns (running: bool)
      requires Valid()
      ensures running <==> actuatorStatus == 1
    {
      running := actuatorStatus == 1;
    }

    /**
     * Performs one setter call of a decoding table: parses `text` as the
     * setter's argument and, when that succeeds, calls the setter.
     */
    method Perform(a: Action, text: string, p: Parsers) returns (ok: bool)
      requires Valid()
      modifies this
      ensures Valid()
      ensures ok <==> Performed(old(View()), a, text, p).Some?
      ensures ok ==> View() == Performed(old(View()), a, text, p).value
      ensures !ok ==> View() == old(View())
    {
      ok := true;
      if ParsesReal(a) {
        var parsed := if ParsesFloat(a) then p.parseFloat(text) else p.parseDouble(text);
        if parsed.None? {
          ok := false;
        } else {
          WriteReal(a, parsed.value);
        }
      } else if a.SetSatellites? {
        var n := ParseInt(text);
        if n.None? {
          ok := false;
        } else {
          SetSatellites(n.value);
        }
      } else if a.SetRovReady? {
        SetRovReady(ParseBoolean(text));
      } else if a.SetI2cError? {
        SetI2cError(ParseBoolean(text));
      } else if text == "1" {
        SetLeakStatus(true);
      }
    }

    /** Calls the real-valued setter named by `a` with `v`. */
    method WriteReal(a: Action, v: real)
      requires Valid() && ParsesReal(a)
      modifies this
      ensures Valid() && View() == RealWritten(old(View()), a, v)
    {
      match a
      case SetWingAngleSB => SetWingAngleSB(v);
      case SetWingAnglePort => SetWingAnglePort(v);
      case SetRollAngle => SetRollAngle(v);
      case SetPitchAngle => SetPitchAngle(v);
      case SetDepthBeneathRov => SetDepthBeneathRov(v);
      case SetTempElBoxFront => SetTempElBoxFront(v);
      case SetTempElBoxRear => SetTempElBoxRear(v);
      case SetRovDepth => SetRovDepth(v);
      case SetPressure => SetPressure(v);
      case SetOutsideTemp => SetOutsideTemp(v);
      case SetInsideTemp => SetInsideTemp(v);
      case SetHumidity => SetHumidity(v);
      case SetAltitude => SetAltitude(v);
      case SetGPSAngle => SetGPSAngle(v);
      case SetSpeed => SetSpeed(v);
      case SetLatitude => SetLatitude(v);
      case SetLongitude => SetLongitude(v);
      case SetDepthBeneathBoatNegated => SetDepthBeneathBoat(-v);
      case SetTemperature => SetTemperature(v);
      case SetRoll => SetRoll(v);
      case SetPitch => SetPitch(v);
      case SetVoltage => SetVoltage(v);
      case SetTestDepth => SetTestDepth(v);
    }
  }
}
