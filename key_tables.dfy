/**
 * The two key tables that turn a decoded frame into setter calls on the
 * shared store: `TCPClient.handleDataFromRemote` for the vehicle and camera
 * links and `ReadSerialData.sendIncommingDataToDataHandler` for the serial
 * instruments.  Both walk the entries of a HashMap in an order Java does not
 * fix; a parse that throws ends the walk, with the earlier writes kept.
 */
module KeyTables {
  import opened Wrappers
  import opened SharedData
  import FrameCodec

  type Entries = FrameCodec.Entries

  /** For each key, the setter calls its `case` makes, in order; a missing key is `default`. */
  type Table = map<string, seq<Action>>

  /** The switch of `handleDataFromRemote`. */
  const TcpTable: Table := map[
    "Fb_wingPosSb" := [SetWingAngleSB],
    "Fb_wingPosPort" := [SetWingAnglePort],
    "Fb_rollAngle" := [SetRollAngle],
    "Fb_pitchAngle" := [SetPitchAngle],
    "Fb_depthToSeabedEcho" := [SetDepthBeneathRov],
    "Fb_depthBelowTransduser" := [SetDepthBeneathRov],
    "Fb_depthBeneathROV" := [SetDepthBeneathRov],
    "Fb_tempElBoxFront" := [SetTempElBoxFront],
    "Fb_tempElBoxRear" := [SetTempElBoxRear],
    "Fb_ROVReady" := [SetRovReady],
    "ERROR_I2C" := [SetI2cError],
    "leakAlarm" := [LeakAlarmOn],
    "depth" := [SetRovDepth],
    "pressure" := [SetPressure],
    "outsideTemp" := [SetOutsideTemp],
    "insideTemp" := [SetInsideTemp],
    "humidity" := [SetHumidity]
  ]

  /**
   * The switch of `sendIncommingDataToDataHandler`.  `Depth_of_water_0` has no
   * `break` and falls into the next case, so it writes twice; `Heading` does
   * nothing; of the two `Depth_below_Transducer_M` labels the first is the
   * one that is reached.
   */
  const SerialTable: Table := map[
    "Satelites_in_view_value_0" := [SetSatellites],
    "Altitude" := [SetAltitude],
    "GPSAngle" := [SetGPSAngle],
    "Speed" := [SetSpeed],
    "GPS_and_DOP_and_active_satalites_value_0" := [SetLatitude],
    "Global_Positions_System_fix_data_value_1" := [SetLongitude],
    "Depth_of_water_0" := [SetDepthBeneathBoatNegated, SetDepthBeneathBoatNegated],
    "Depth_below_Transducer_M" := [SetDepthBeneathBoatNegated],
    "Depth_of_water_1" := [SetDepthBeneathBoatNegated],
    "Depth_of_water_value_0" := [SetDepthBeneathBoatNegated],
    "Depth_of_water_2" := [SetDepthBeneathBoatNegated],
    "Mean_Temprature_Water_C" := [SetTemperature],
    "Roll" := [SetRoll],
    "Pitch" := [SetPitch],
    "Heading" := [],
    "Voltage" := [SetVoltage]
  ]

  /** The store reached by a walk over setter calls, and whether the walk finished without a throw. */
  datatype Walk = Walk(store: Store, complete: bool)

  /**
   * The setter calls of one `case`, all given the same text: the first parse
   * that throws stops the case, with the writes before it kept.
   */
  function PerformedAll(st: Store, actions: seq<Action>, text: string, p: Parsers): (r: Walk)
    ensures Inv(st) ==> Inv(r.store)
    ensures st.camera.leakStatus ==> r.store.camera.leakStatus
    ensures |actions| == 0 ==> r == Walk(st, true)
    decreases |actions|
  {
    if |actions| == 0 then Walk(st, true)
    else
      PerformedKeepsInvIf(st, actions[0], text, p);
      match Performed(st, actions[0], text, p)
      case None => Walk(st, false)
      case Some(st') => PerformedAll(st', actions[1..], text, p)
  }

  lemma PerformedKeepsInvIf(st: Store, a: Action, text: string, p: Parsers)
    ensures Inv(st) && Performed(st, a, text, p).Some? ==> Inv(Performed(st, a, text, p).value)
    ensures st.camera.leakStatus && Performed(st, a, text, p).Some? ==> Performed(st, a, text, p).value.camera.leakStatus
  {
    if Inv(st) {
      PerformedKeepsInv(st, a, text, p);
    }
    if st.camera.leakStatus {
      PerformedNeverClearsLeak(st, a, text, p);
    }
  }

  /**
   * The walk of a key table over the entries of `m` taken in the order `keys`:
   * keys the table lacks (or `m` lacks) are skipped, and the first parse
   * failure stops the walk with the writes so far kept.
   */
  function ApplyKeys(table: Table, st: Store, m: Entries, keys: seq<string>, p: Parsers): (r: Walk)
    ensures Inv(st) ==> Inv(r.store)
    ensures st.camera.leakStatus ==> r.store.camera.leakStatus
    ensures (forall i :: 0 <= i < |keys| ==> keys[i] !in m || keys[i] !in table || table[keys[i]] == []) ==> r == Walk(st, true)
    decreases |keys|
  {
    if |keys| == 0 then Walk(st, true)
    else
      Step(table, ApplyKeys(table, st, m, keys[..|keys| - 1], p), m, keys[|keys| - 1], p)
  }

  /** One entry of the walk. */
  function Step(table: Table, prev: Walk, m: Entries, k: string, p: Parsers): (r: Walk)
    ensures Inv(prev.store) ==> Inv(r.store)
    ensures prev.store.camera.leakStatus ==> r.store.camera.leakStatus
    ensures k !in m || k !in table || table[k] == [] ==> r == prev
  {
    if !prev.complete || k !in m || k !in table then prev
    else PerformedAll(prev.store, table[k], m[k], p)
  }

  lemma ApplyKeysStep(table: Table, st: Store, m: Entries, keys: seq<string>, k: string, p: Parsers)
    ensures ApplyKeys(table, st, m, keys + [k], p) == Step(table, ApplyKeys(table, st, m, keys, p), m, k, p)
  {
    assert (keys + [k])[..|keys|] == keys;
  }

  /** `order` lists distinct keys of `m`, and all of them when the walk completed. */
  ghost predicate Enumerates(order: seq<string>, m: Entries, complete: bool)
  {
    && (forall i :: 0 <= i < |order| ==> order[i] in m)
    && (forall i, j :: 0 <= i < j < |order| ==> order[i] != order[j])
    && (complete ==> forall k :: k in m ==> k in order)
  }

  /** Makes the setter calls of one `case` on the store object. */
  method PerformEach(data: Data, actions: seq<Action>, text: string, p: Parsers) returns (ok: bool)
    requires data.Valid()
    modifies data
    ensures data.Valid()
    ensures Walk(data.View(), ok) == PerformedAll(old(data.View()), actions, text, p)
  {
    ghost var st0 := data.View();
    ok := true;
    var i := 0;
    while i < |actions| && ok
      invariant 0 <= i <= |actions|
      invariant data.Valid()
      invariant ok ==> PerformedAll(st0, actions, text, p) == PerformedAll(data.View(), actions[i..], text, p)
      invariant !ok ==> PerformedAll(st0, actions, text, p) == Walk(data.View(), false)
    {
      assert actions[i..][1..] == actions[i + 1..];
      ok := data.Perform(actions[i], text, p);
      i := i + 1;
    }
  }

  /**
   * The entry loop of a key table: walks the entries of `m` in some order
   * (returned as `order`), making each key's setter calls until one throws.
   */
  method Dispatch(data: Data, table: Table, m: Entries, p: Parsers) returns (complete: bool, ghost order: seq<string>)
    requires data.Valid()
    modifies data
    ensures data.Valid()
    ensures Enumerates(order, m, complete)
    ensures Walk(data.View(), complete) == ApplyKeys(table, old(data.View()), m, order, p)
  {
    ghost var st0 := data.View();
    var keys := KeysInSomeOrder(m);
    var i := 0;
    complete := true;
    while i < |keys| && complete
      invariant 0 <= i <= |keys|
      invariant data.Valid()
      invariant Walk(data.View(), complete) == ApplyKeys(table, st0, m, keys[..i], p)
    {
      ghost var before := Walk(data.View(), true);
      assert before == ApplyKeys(table, st0, m, keys[..i], p);
      assert keys[..i + 1] == keys[..i] + [keys[i]];
      ApplyKeysStep(table, st0, m, keys[..i], keys[i], p);
      complete := DispatchKey(data, table, m, keys[i], p);
      assert Walk(data.View(), complete) == Step(table, before, m, keys[i], p);
      i := i + 1;
    }
    order := keys[..i];
    EnumeratesPrefix(keys, m, i, complete);
  }

  /** A prefix of a full listing lists distinct keys, and all of them when it is the whole listing. */
  lemma EnumeratesPrefix(keys: seq<string>, m: Entries, i: nat, complete: bool)
    requires Enumerates(keys, m, true) && i <= |keys|
    requires complete ==> i == |keys|
    ensures Enumerates(keys[..i], m, complete)
  {
    if complete {
      assert keys[..i] == keys;
    }
  }

  /** The keys of a HashMap in its iteration order, which Java leaves open: any listing of them. */
  method KeysInSomeOrder(m: Entries) returns (keys: seq<string>)
    ensures Enumerates(keys, m, true)
  {
    var remaining := m.Keys;
    keys := [];
    while remaining != {}
      invariant remaining <= m.Keys
      invariant forall i :: 0 <= i < |keys| ==> keys[i] in m && keys[i] !in remaining
      invariant forall k :: k in m && k !in remaining ==> k in keys
      invariant forall i, j :: 0 <= i < j < |keys| ==> keys[i] != keys[j]
      decreases |remaining|
    {
      var k :| k in remaining;
      remaining := remaining - {k};
      keys := keys + [k];
    }
  }

  /** One turn of the entry loop: the calls of the key's `case`, if the table has one. */
  method DispatchKey(data: Data, table: Table, m: Entries, k: string, p: Parsers) returns (complete: bool)
    requires data.Valid() && k in m
    modifies data
    ensures data.Valid()
    ensures Walk(data.View(), complete) == Step(table, Walk(old(data.View()), true), m, k, p)
  {
    complete := true;
    if k in table {
      complete := PerformEach(data, table[k], m[k], p);
    }
  }

  // ---------------------------------------------------------------------
  // What the tables do

  /** Of two keys that both write `depthBeneathRov`, the one walked last decides the value. */
  lemma LaterDepthKeyWins(table: Table, st: Store, m: Entries, k1: string, k2: string, p: Parsers, y: real)
    requires k1 != k2
    requires k1 in table && table[k1] == [SetDepthBeneathRov]
    requires k2 in table && table[k2] == [SetDepthBeneathRov]
    requires k1 in m && k2 in m
    requires p.parseDouble(m[k1]).Some? && p.parseDouble(m[k2]) == Some(y)
    ensures ApplyKeys(table, st, m, [k1, k2], p).store.attitude.depthBeneathRov == y
  {
    ApplyKeysStep(table, st, m, [], k1, p);
    ApplyKeysStep(table, st, m, [k1], k2, p);
    assert [SetDepthBeneathRov][1..] == [];
    assert [] + [k1] == [k1] && [k1] + [k2] == [k1, k2];
  }

  /** The three depth keys of the vehicle link. */
  const TcpDepthKeys: set<string> := {"Fb_depthToSeabedEcho", "Fb_depthBelowTransduser", "Fb_depthBeneathROV"}

  /** Each depth key of the vehicle link makes the one call `setDepthBeneathRov`. */
  lemma TcpDepthKeysShareSetter(k: string)
    requires k in TcpDepthKeys
    ensures k in TcpTable && TcpTable[k] == [SetDepthBeneathRov]
  {
  }

  /**
   * Since the depth keys all write `depthBeneathRov`, when two of them arrive
   * in one reply the HashMap's order decides which value stays.
   */
  lemma TcpDepthKeysRace(st: Store, k1: string, k2: string, a: string, b: string, p: Parsers, x: real, y: real)
    requires k1 in TcpDepthKeys && k2 in TcpDepthKeys && k1 != k2
    requires p.parseDouble(a) == Some(x) && p.parseDouble(b) == Some(y)
    ensures ApplyKeys(TcpTable, st, map[k1 := a, k2 := b], [k1, k2], p).store.attitude.depthBeneathRov == y
    ensures ApplyKeys(TcpTable, st, map[k1 := a, k2 := b], [k2, k1], p).store.attitude.depthBeneathRov == x
  {
    TcpDepthKeysShareSetter(k1);
    TcpDepthKeysShareSetter(k2);
    var m := map[k1 := a, k2 := b];
    LaterDepthKeyWins(TcpTable, st, m, k1, k2, p, y);
    LaterDepthKeyWins(TcpTable, st, m, k2, k1, p, x);
  }

  /** A walk over a single key is one step. */
  lemma ApplyOne(table: Table, st: Store, m: Entries, k: string, p: Parsers)
    ensures ApplyKeys(table, st, m, [k], p) == Step(table, Walk(st, true), m, k, p)
  {
    ApplyKeysStep(table, st, m, [], k, p);
    assert [] + [k] == [k];
  }

  /**
   * `leakAlarm:0` changes nothing: the branch meant to clear the leak tests
   * the client object itself against "0" and never fires.
   */
  lemma {:induction false} TcpLeakZeroIgnored(st: Store, keys: seq<string>, p: Parsers)
    ensures ApplyKeys(TcpTable, st, map["leakAlarm" := "0"], keys, p) == Walk(st, true)
    decreases |keys|
  {
    if |keys| > 0 {
      TcpLeakZeroIgnored(st, keys[..|keys| - 1], p);
      LeakZeroStep(st, keys[|keys| - 1], p);
    }
  }

  lemma LeakZeroStep(st: Store, k: string, p: Parsers)
    ensures Step(TcpTable, Walk(st, true), map["leakAlarm" := "0"], k, p) == Walk(st, true)
  {
    assert [LeakAlarmOn][1..] == [];
  }

  /** `leakAlarm:1` raises the leak flag and leaves the emergency flag as it was. */
  lemma TcpLeakOneRaises(st: Store, p: Parsers)
    ensures var r := ApplyKeys(TcpTable, st, map["leakAlarm" := "1"], ["leakAlarm"], p);
            && r.complete
            && r.store.camera.leakStatus
            && r.store.modes == st.modes
  {
    ApplyOne(TcpTable, st, map["leakAlarm" := "1"], "leakAlarm", p);
    assert [LeakAlarmOn][1..] == [];
  }

  /** `Depth_of_water_0` falls through into the next case and stores the negated depth twice. */
  lemma SerialFallThroughWritesTwice(st: Store, text: string, p: Parsers, x: real)
    requires p.parseDouble(text) == Some(x)
    ensures ApplyKeys(SerialTable, st, map["Depth_of_water_0" := text], ["Depth_of_water_0"], p)
            == Walk(st.(attitude := st.attitude.(depthBeneathBoat := -x), notifications := st.notifications + 2), true)
  {
    ApplyOne(SerialTable, st, map["Depth_of_water_0" := text], "Depth_of_water_0", p);
    var acts := [SetDepthBeneathBoatNegated, SetDepthBeneathBoatNegated];
    assert acts[1..] == [SetDepthBeneathBoatNegated] && acts[1..][1..] == [];
  }

  /** A depth that does not parse stops the walk before anything is written. */
  lemma SerialBadDepthStops(st: Store, text: string, p: Parsers)
    requires p.parseDouble(text).None?
    ensures ApplyKeys(SerialTable, st, map["Depth_below_Transducer_M" := text], ["Depth_below_Transducer_M"], p)
            == Walk(st, false)
  {
    ApplyOne(SerialTable, st, map["Depth_below_Transducer_M" := text], "Depth_below_Transducer_M", p);
  }
}
