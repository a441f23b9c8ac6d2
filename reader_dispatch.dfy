/**
 * The start-up of the serial readers (`ComPortFinder`): after one port
 * search, every entry of the public port registry is tested for five role
 * names independently, and each match starts a reader on that port at the
 * role's fixed baud rate.  Starting a thread is replaced by appending the
 * reader it would run to `started`.
 */
module ReaderDispatch {
  import opened JavaText
  import opened SharedData
  import opened KeyTables
  import opened PortDiscovery

  /** A serial reader as constructed: the port, the baud rate, and the role it is named after. */
  datatype Reader = Reader(port: string, baud: int, name: string)

  /** A reader on `port` named `role` at `baud` when the role holds `name`, none otherwise. */
  function StartedIf(port: string, role: string, name: string, baud: int): seq<Reader>
  {
    if ContainsText(role, name) then [Reader(port, baud, role)] else []
  }

  /** The readers one registry entry starts: the five tests in order, each with its baud rate. */
  function Started(port: string, role: string): seq<Reader>
  {
    StartedIf(port, role, "IMU", 115200) + StartedIf(port, role, "GPS", 115200)
    + StartedIf(port, role, "EchoSounder", 4800) + StartedIf(port, role, "StepperArduino", 128000)
    + StartedIf(port, role, "ROVDummy", 115200)
  }

  /** The readers the entries listed in `keys` start, in that order. */
  function StartedAll(registry: map<string, string>, keys: seq<string>): seq<Reader>
    requires forall i :: 0 <= i < |keys| ==> keys[i] in registry
    decreases |keys|
  {
    if |keys| == 0 then []
    else StartedAll(registry, keys[..|keys| - 1]) + Started(keys[|keys| - 1], registry[keys[|keys| - 1]])
  }

  lemma Assoc<T>(x: seq<T>, y: seq<T>, z: seq<T>)
    ensures x + y + z == x + (y + z)
  {
  }

  /** A text holding a character that `s` lacks does not occur in `s`. */
  lemma CharAbsent(s: string, t: string, c: char)
    requires c in t && c !in s
    ensures !ContainsText(s, t)
  {
    forall i | 0 <= i && i + |t| <= |s|
      ensures !OccursAt(s, t, i)
    {
      assert c !in s[i..i + |t|];
    }
    ContainsTextOnlyAt(s, t);
  }

  /** An entry whose role holds none of the five names starts nothing. */
  lemma StartedNone(port: string, role: string)
    requires 'I' !in role && 'G' !in role && 'E' !in role && 'S' !in role && 'R' !in role
    ensures Started(port, role) == []
  {
    CharAbsent(role, "IMU", 'I');
    CharAbsent(role, "GPS", 'G');
    CharAbsent(role, "EchoSounder", 'E');
    CharAbsent(role, "StepperArduino", 'S');
    CharAbsent(role, "ROVDummy", 'R');
  }

  /** A role holding "IMU" and no letter that begins another name starts only the IMU reader. */
  lemma ImuOnly(port: string, role: string)
    requires ContainsText(role, "IMU") && 'G' !in role && 'E' !in role && 'S' !in role && 'R' !in role
    ensures Started(port, role) == [Reader(port, 115200, role)]
  {
    CharAbsent(role, "GPS", 'G');
    CharAbsent(role, "EchoSounder", 'E');
    CharAbsent(role, "StepperArduino", 'S');
    CharAbsent(role, "ROVDummy", 'R');
  }

  /** A role holding "GPS" and no letter of the other names that "GPS" lacks starts only the GPS reader. */
  lemma GpsOnly(port: string, role: string)
    requires ContainsText(role, "GPS") && 'I' !in role && 'E' !in role && 'A' !in role && 'R' !in role
    ensures Started(port, role) == [Reader(port, 115200, role)]
  {
    CharAbsent(role, "IMU", 'I');
    CharAbsent(role, "EchoSounder", 'E');
    CharAbsent(role, "StepperArduino", 'A');
    CharAbsent(role, "ROVDummy", 'R');
  }

  /** A role holding "EchoSounder" and no letter of the other names that it lacks starts only the echo sounder reader. */
  lemma EchoOnly(port: string, role: string)
    requires ContainsText(role, "EchoSounder") && 'I' !in role && 'G' !in role && 'A' !in role && 'R' !in role
    ensures Started(port, role) == [Reader(port, 4800, role)]
  {
    CharAbsent(role, "IMU", 'I');
    CharAbsent(role, "GPS", 'G');
    CharAbsent(role, "StepperArduino", 'A');
    CharAbsent(role, "ROVDummy", 'R');
  }

  /** A role holding "ROVDummy" and no other name's first letter starts only the dummy vehicle reader. */
  lemma DummyOnly(port: string, role: string)
    requires ContainsText(role, "ROVDummy") && 'I' !in role && 'G' !in role && 'E' !in role && 'S' !in role
    ensures Started(port, role) == [Reader(port, 115200, role)]
  {
    CharAbsent(role, "IMU", 'I');
    CharAbsent(role, "GPS", 'G');
    CharAbsent(role, "EchoSounder", 'E');
    CharAbsent(role, "StepperArduino", 'S');
  }

  /** Every role the search can give starts exactly one reader, at that role's baud rate. */
  lemma SearchedRoleStartsOne(port: string, role: string)
    requires role in Roles
    ensures Started(port, role) == [Reader(port, if role == "EchoSounder" then 4800 else 115200, role)]
  {
    if role == "IMU" {
      ImuStartsOne(port, role);
    } else if role == "GPS" {
      GpsStartsOne(port, role);
    } else if role == "EchoSounder" {
      EchoStartsOne(port, role);
    } else {
      DummyStartsOne(port, role);
    }
  }

  lemma ImuStartsOne(port: string, role: string)
    requires role == "IMU"
    ensures Started(port, role) == [Reader(port, 115200, role)]
  {
    ContainsTextAt(role, role, 0);
    ImuOnly(port, role);
  }

  lemma GpsStartsOne(port: string, role: string)
    requires role == "GPS"
    ensures Started(port, role) == [Reader(port, 115200, role)]
  {
    ContainsTextAt(role, role, 0);
    GpsOnly(port, role);
  }

  lemma EchoStartsOne(port: string, role: string)
    requires role == "EchoSounder"
    ensures Started(port, role) == [Reader(port, 4800, role)]
  {
    ContainsTextAt(role, role, 0);
    EchoOnly(port, role);
  }

  lemma DummyStartsOne(port: string, role: string)
    requires role == "ROVDummy"
    ensures Started(port, role) == [Reader(port, 115200, role)]
  {
    ContainsTextAt(role, role, 0);
    DummyOnly(port, role);
  }

  /** A port that threw twice during the search starts no reader. */
  lemma UnreadableStartsNone(port: string, role: string)
    requires role == "Unreadable"
    ensures Started(port, role) == []
  {
    StartedNone(port, role);
  }

  /**
   * A registry filled by the search alone never starts the stepper reader:
   * no fingerprint names it, so no reader runs at 128000 baud.
   */
  lemma {:induction false} NoStepperFromSearch(registry: map<string, string>, keys: seq<string>)
    requires forall i :: 0 <= i < |keys| ==> keys[i] in registry
    requires SearchedRoles(registry)
    ensures forall j :: 0 <= j < |StartedAll(registry, keys)| ==> StartedAll(registry, keys)[j].baud != 128000
    ensures |StartedAll(registry, keys)| <= |keys|
    decreases |keys|
  {
    if |keys| > 0 {
      var k := keys[|keys| - 1];
      NoStepperFromSearch(registry, keys[..|keys| - 1]);
      if registry[k] in Roles {
        SearchedRoleStartsOne(k, registry[k]);
      } else {
        UnreadableStartsNone(k, registry[k]);
      }
    }
  }

  class ComPortFinder {
    const search: PortSearch
    const data: Data
    /** The readers started, in order. */
    var started: seq<Reader>

    ghost predicate Valid()
      reads search, data
    {
      search.data == data && search.Valid()
    }

    constructor (search: PortSearch, data: Data)
      requires search.data == data && search.Valid()
      ensures Valid() && this.search == search && this.data == data && started == []
    {
      this.search := search;
      this.data := data;
      started := [];
    }

    /** One of the five tests: a match starts a reader on the port, named after the role. */
    method StartIf(port: string, role: string, name: string, baud: int)
      modifies this
      ensures started == old(started) + StartedIf(port, role, name, baud)
    {
      if ContainsText(role, name) {
        started := started + [Reader(port, baud, role)];
      }
    }

    /** The five independent tests on one registry entry. */
    method StartReaders(port: string, role: string)
      modifies this
      ensures started == old(started) + Started(port, role)
    {
      ghost var before := started;
      ghost var imu := StartedIf(port, role, "IMU", 115200);
      ghost var gps := StartedIf(port, role, "GPS", 115200);
      ghost var echo := StartedIf(port, role, "EchoSounder", 4800);
      ghost var stepper := StartedIf(port, role, "StepperArduino", 128000);
      StartIf(port, role, "IMU", 115200);
      StartIf(port, role, "GPS", 115200);
      Assoc(before, imu, gps);
      StartIf(port, role, "EchoSounder", 4800);
      Assoc(before, imu + gps, echo);
      StartIf(port, role, "StepperArduino", 128000);
      Assoc(before, imu + gps + echo, stepper);
      StartIf(port, role, "ROVDummy", 115200);
      Assoc(before, imu + gps + echo + stepper, StartedIf(port, role, "ROVDummy", 115200));
    }

    /** The second loop of `run`: every registry entry, in the map's order. */
    method StartAll() returns (ghost keys: seq<string>)
      requires Valid()
      modifies this
      ensures Valid()
      ensures Enumerates(keys, data.comPortList, true)
      ensures started == old(started) + StartedAll(data.comPortList, keys)
    {
      var entries := KeysInSomeOrder(data.comPortList);
      var i := 0;
      while i < |entries|
        invariant 0 <= i <= |entries|
        invariant Valid()
        invariant started == old(started) + StartedAll(data.comPortList, entries[..i])
      {
        assert entries[..i + 1][..i] == entries[..i];
        Assoc(old(started), StartedAll(data.comPortList, entries[..i]), Started(entries[i], data.comPortList[entries[i]]));
        StartReaders(entries[i], data.comPortList[entries[i]]);
        i := i + 1;
      }
      assert entries[..i] == entries;
      keys := entries;
    }

    /**
     * `run`: one port search, then a reader per matching role of each
     * registry entry; since the search only records fingerprints and
     * "Unreadable", the stepper reader is never among them.
     */
    method Run(probes: seq<Probe>, fuel: nat) returns (ghost keys: seq<string>)
      requires Valid()
      modifies this, search, data
      ensures Valid()
      ensures Enumerates(keys, data.comPortList, true)
      ensures started == old(started) + StartedAll(data.comPortList, keys)
      ensures data.View() == old(data.View()).(comPortList := data.comPortList)
      ensures forall j :: |old(started)| <= j < |started| ==> started[j].baud != 128000
    {
      var rest, bauds := search.FindComPorts(probes, fuel);
      keys := StartAll();
      NoStepperFromSearch(data.comPortList, keys);
    }
  }
}
