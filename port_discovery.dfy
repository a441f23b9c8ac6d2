/**
 * The serial port search (`SerialDataHandler`): every port whose name holds
 * "COM" is registered as "Unknown", probed in three passes (115200 baud, then
 * 9600 twice), fingerprinted by the first frame it sends, and every entry no
 * longer "Unknown" is copied into the public port registry.  A first throw in
 * an invocation restarts the whole search from inside the handler; too few
 * ports found restarts it from the save.  The ports are replaced by the names
 * the port listing returns and by the sequence of probe outcomes; the nested
 * restarts are bounded by a fuel count.
 */
module PortDiscovery {
  import opened Wrappers
  import opened JavaText
  import opened SharedData
  import opened KeyTables
  import FrameCodec

  /** Port name to role, as in `portNamesList` and `comPortList`. */
  type Ports = map<string, string>

  /** One probe of a port: the text `readString` returned (None for null), or a throw from opening, configuring or reading. */
  datatype Probe = Reads(buffer: Option<string>) | Throws

  /** What the search makes of a probe: nothing to look at, a frame's tokens and body, or a throw. */
  datatype Reading = Silent | Frame(tokens: seq<string>, body: string) | Thrown

  /** The probe the next read yields; once the given outcomes run out, ports read null. */
  function NextProbe(probes: seq<Probe>): Probe
  {
    if |probes| == 0 then Reads(None) else probes[0]
  }

  function AfterProbe(probes: seq<Probe>): (r: seq<Probe>)
    ensures |r| <= |probes|
  {
    if |probes| == 0 then [] else probes[1..]
  }

  /**
   * A probe read as the search reads it: null or a text without both brackets
   * is looked at no further, a `>` only before the first `<` makes `substring`
   * throw, and otherwise the body of the first frame is split on `:`.
   */
  function ReadingOf(p: Probe): (r: Reading)
    ensures p.Throws? ==> r.Thrown?
    ensures p == Reads(None) ==> r.Silent?
    ensures p.Reads? && p.buffer.Some? ==> (r.Silent? <==> '<' !in p.buffer.value || '>' !in p.buffer.value)
    ensures r.Frame? ==> r.tokens == JavaSplit(r.body, ':') && '>' !in r.body
  {
    match p
    case Throws => Thrown
    case Reads(None) => Silent
    case Reads(Some(s)) =>
      match FrameCodec.Interior(s)
      case Err(MissingBracket) => Silent
      case Err(NoEndAfterStart) => Thrown
      case Ok(body) => Frame(JavaSplit(body, ':'), body)
  }

  /** The search frames a read exactly as the serial reader does. */
  lemma SameFramingAsReader(b: Option<string>)
    ensures ReadingOf(Reads(b)).Silent? <==> FrameCodec.SerialChunk(b) == FrameCodec.NoFrame
    ensures ReadingOf(Reads(b)).Thrown? <==> FrameCodec.SerialChunk(b) == FrameCodec.Broken
    ensures ReadingOf(Reads(b)).Frame? ==> FrameCodec.SerialChunk(b) == FrameCodec.Tokens(ReadingOf(Reads(b)).tokens)
  {
  }

  predicate IsComName(name: string) { ContainsText(name, "COM") }

  predicate IsUnknown(role: string) { ContainsText(role, "Unknown") }

  /** The roles a fingerprint can give. */
  const Roles: set<string> := {"IMU", "GPS", "ROVDummy", "EchoSounder"}

  /** The token (or, for the echo sounder, the frame body) names some device. */
  predicate Marked(token: string, body: string)
  {
    || ContainsText(token, "Roll") || ContainsText(token, "GPS")
    || ContainsText(token, "ROVDummy") || ContainsText(token, "Test")
    || ContainsText(token, "EchoSounder") || ContainsText(body, "<[")
  }

  /**
   * The role after looking at one token: the four tests run in order and each
   * match overwrites the last, so the later test has priority.
   */
  function TokenRole(token: string, body: string, current: string): (r: string)
    ensures !Marked(token, body) ==> r == current
    ensures Marked(token, body) ==> r in Roles
    ensures ContainsText(token, "EchoSounder") || ContainsText(body, "<[") ==> r == "EchoSounder"
    ensures !ContainsText(token, "EchoSounder") && !ContainsText(body, "<[")
            && (ContainsText(token, "ROVDummy") || ContainsText(token, "Test"))
            ==> r == "ROVDummy"
    ensures !ContainsText(token, "EchoSounder") && !ContainsText(body, "<[")
            && !ContainsText(token, "ROVDummy") && !ContainsText(token, "Test") && ContainsText(token, "GPS")
            ==> r == "GPS"
    ensures !ContainsText(token, "EchoSounder") && !ContainsText(body, "<[")
            && !ContainsText(token, "ROVDummy") && !ContainsText(token, "Test") && !ContainsText(token, "GPS")
            && ContainsText(token, "Roll")
            ==> r == "IMU"
  {
    var r1 := if ContainsText(token, "Roll") then "IMU" else current;
    var r2 := if ContainsText(token, "GPS") then "GPS" else r1;
    var r3 := if ContainsText(token, "ROVDummy") || ContainsText(token, "Test") then "ROVDummy" else r2;
    if ContainsText(token, "EchoSounder") || ContainsText(body, "<[") then "EchoSounder" else r3
  }

  /** The role after the tokens at `i`, `i + 2`, ... (the keys of the frame's pairs). */
  function Fingerprint(tokens: seq<string>, body: string, current: string, i: nat): (r: string)
    ensures r == current || r in Roles
    decreases |tokens| - i
  {
    if i >= |tokens| then current
    else Fingerprint(tokens, body, TokenRole(tokens[i], body, current), i + 2)
  }

  /** Keys that name no device leave the role as it was. */
  lemma {:induction false} UnmarkedKeepsRole(tokens: seq<string>, body: string, current: string, i: nat)
    requires forall l :: i <= l < |tokens| && (l - i) % 2 == 0 ==> !Marked(tokens[l], body)
    ensures Fingerprint(tokens, body, current, i) == current
    decreases |tokens| - i
  {
    if i < |tokens| {
      assert !Marked(tokens[i], body);
      UnmarkedKeepsRole(tokens, body, current, i + 2);
    }
  }

  /** The last key naming a device decides the role, whatever came before it. */
  lemma {:induction false} LastMarkWins(tokens: seq<string>, body: string, current: string, i: nat, j: nat)
    requires i <= j < |tokens| && (j - i) % 2 == 0 && Marked(tokens[j], body)
    requires forall l :: j < l < |tokens| && (l - i) % 2 == 0 ==> !Marked(tokens[l], body)
    ensures Fingerprint(tokens, body, current, i) == TokenRole(tokens[j], body, "")
    decreases |tokens| - i
  {
    if i == j {
      UnmarkedKeepsRole(tokens, body, TokenRole(tokens[j], body, current), j + 2);
    } else {
      LastMarkWins(tokens, body, TokenRole(tokens[i], body, current), i + 2, j);
    }
  }

  /** A frame body holding "<[" makes the port an echo sounder as soon as there is one token. */
  lemma {:induction false} EchoBodyWins(tokens: seq<string>, body: string, current: string, i: nat)
    requires ContainsText(body, "<[") && i < |tokens|
    ensures Fingerprint(tokens, body, current, i) == "EchoSounder"
    decreases |tokens| - i
  {
    if i + 2 < |tokens| {
      EchoBodyWins(tokens, body, TokenRole(tokens[i], body, current), i + 2);
    }
  }

  /** The registration at the top of each pass: every listed COM name is (re)set to "Unknown". */
  function Registered(m: Ports, names: seq<string>): (r: Ports)
    ensures forall k :: k in r <==> k in m || (k in names && IsComName(k))
    ensures forall k :: k in names && IsComName(k) ==> r[k] == "Unknown"
    ensures forall k :: k in m && k !in names ==> r[k] == m[k]
    decreases |names|
  {
    if |names| == 0 then m
    else
      var n := names[|names| - 1];
      var r := Registered(m, names[..|names| - 1]);
      assert forall k :: k in names ==> k in names[..|names| - 1] || k == n;
      if IsComName(n) then r[n := "Unknown"] else r
  }

  /** The entries `saveUsableComPorts` copies: all but those still "Unknown". */
  function Usable(m: Ports): Ports
  {
    map k | k in m && !IsUnknown(m[k]) :: m[k]
  }

  /** The registry after the copying loop has visited the keys `ks` in that order. */
  function Copied(registry: Ports, m: Ports, ks: seq<string>): Ports
    requires forall i :: 0 <= i < |ks| ==> ks[i] in m
    decreases |ks|
  {
    if |ks| == 0 then registry
    else
      var k := ks[|ks| - 1];
      var r := Copied(registry, m, ks[..|ks| - 1]);
      if IsUnknown(m[k]) then r else r[k := m[k]]
  }

  /** How many of the keys `ks` the copying loop counts. */
  function CountUsable(m: Ports, ks: seq<string>): nat
    requires forall i :: 0 <= i < |ks| ==> ks[i] in m
    decreases |ks|
  {
    if |ks| == 0 then 0
    else CountUsable(m, ks[..|ks| - 1]) + if IsUnknown(m[ks[|ks| - 1]]) then 0 else 1
  }

  /** The usable entries among the keys listed in `ks`. */
  function UsableAmong(m: Ports, ks: seq<string>): Ports
  {
    map k | k in m && k in ks && !IsUnknown(m[k]) :: m[k]
  }

  /** Adding one more, new key to the visited ones adds its entry when it is usable. */
  lemma UsableAmongSnoc(m: Ports, ks: seq<string>)
    requires |ks| > 0 && ks[|ks| - 1] in m && ks[|ks| - 1] !in ks[..|ks| - 1]
    ensures ks[|ks| - 1] !in UsableAmong(m, ks[..|ks| - 1])
    ensures !IsUnknown(m[ks[|ks| - 1]]) ==>
              UsableAmong(m, ks) == UsableAmong(m, ks[..|ks| - 1])[ks[|ks| - 1] := m[ks[|ks| - 1]]]
    ensures IsUnknown(m[ks[|ks| - 1]]) ==> UsableAmong(m, ks) == UsableAmong(m, ks[..|ks| - 1])
  {
    assert forall x :: x in ks <==> x in ks[..|ks| - 1] || x == ks[|ks| - 1];
  }

  /** Visiting distinct keys copies exactly the usable entries among them. */
  lemma {:induction false} CopiedAmong(registry: Ports, m: Ports, ks: seq<string>)
    requires forall i :: 0 <= i < |ks| ==> ks[i] in m
    requires forall i, j :: 0 <= i < j < |ks| ==> ks[i] != ks[j]
    ensures Copied(registry, m, ks) == registry + UsableAmong(m, ks)
    decreases |ks|
  {
    if |ks| > 0 {
      var n := |ks| - 1;
      var k := ks[n];
      assert forall i :: 0 <= i < n ==> ks[..n][i] == ks[i];
      assert k !in ks[..n];
      CopiedAmong(registry, m, ks[..n]);
      UsableAmongSnoc(m, ks);
      var before := UsableAmong(m, ks[..n]);
      if !IsUnknown(m[k]) {
        UnionUpdate(registry, before, k, m[k]);
      }
    }
  }

  lemma UnionUpdate(a: Ports, b: Ports, k: string, v: string)
    ensures (a + b)[k := v] == a + b[k := v]
  {
  }

  /** Visiting distinct keys counts each usable entry among them once. */
  lemma {:induction false} CountedAmong(m: Ports, ks: seq<string>)
    requires forall i :: 0 <= i < |ks| ==> ks[i] in m
    requires forall i, j :: 0 <= i < j < |ks| ==> ks[i] != ks[j]
    ensures CountUsable(m, ks) == |UsableAmong(m, ks)|
    decreases |ks|
  {
    if |ks| > 0 {
      var n := |ks| - 1;
      CountedAmong(m, ks[..n]);
      UsableAmongSnoc(m, ks);
    }
  }

  /** After a full listing the loop has copied `Usable(m)` and counted its entries. */
  lemma CopiedIsUnion(registry: Ports, m: Ports, keys: seq<string>)
    requires Enumerates(keys, m, true)
    ensures Copied(registry, m, keys) == registry + Usable(m)
    ensures CountUsable(m, keys) == |Usable(m)|
  {
    CopiedAmong(registry, m, keys);
    CountedAmong(m, keys);
    assert UsableAmong(m, keys) == Usable(m);
  }

  /** A port that threw twice is marked "Unreadable", which is not "Unknown": it is copied as a found port. */
  lemma UnreadableIsSaved(m: Ports, k: string)
    requires k in m && m[k] == "Unreadable"
    ensures k in Usable(m) && Usable(m)[k] == "Unreadable"
  {
    var s := "Unreadable";
    forall i | 0 <= i && i + 7 <= |s|
      ensures !OccursAt(s, "Unknown", i)
    {
      assert s[i..i + 7][0] == s[i] && s[i..i + 7][2] == s[i + 2];
    }
    ContainsTextOnlyAt(s, "Unknown");
  }

  /** Every fingerprinted port is copied, and a port no frame named stays behind. */
  lemma RolesAreSaved(m: Ports, k: string)
    requires k in m && (m[k] in Roles || m[k] == "Unknown")
    ensures k in Usable(m) <==> m[k] in Roles
  {
    ContainsTextAt("Unknown", "Unknown", 0);
    var s := m[k];
    if s in Roles {
      forall i | 0 <= i && i + 7 <= |s|
        ensures !OccursAt(s, "Unknown", i)
      {
        assert s[i..i + 7][0] == s[i];
      }
      ContainsTextOnlyAt(s, "Unknown");
    }
  }

  /** What the probe of an entry reaches: a new port object for an "Unknown" entry, the previous object otherwise. */
  function PortFor(role: string, key: string, previous: Option<string>): Option<string>
  {
    if IsUnknown(role) then Some(key) else previous
  }

  /** The probe's outcome: with no port object yet, the call on null throws before anything is read. */
  function Attempt(port: Option<string>, probes: seq<Probe>): Reading
  {
    if port.None? then Thrown else ReadingOf(NextProbe(probes))
  }

  /** The roles an entry of `portNamesList` can hold: a fingerprint, "Unknown" before one, or "Unreadable". */
  predicate ProbedRoles(m: Ports)
  {
    forall k :: k in m ==> m[k] in Roles || m[k] == "Unknown" || m[k] == "Unreadable"
  }

  /** The roles the search puts into the public registry: a fingerprint or "Unreadable". */
  predicate SearchedRoles(m: Ports)
  {
    forall k :: k in m ==> m[k] in Roles || m[k] == "Unreadable"
  }

  /** Every usable entry of `names` is in `registry` with the same role. */
  predicate SavedIn(names: Ports, registry: Ports)
  {
    forall k :: k in Usable(names) ==> k in registry && registry[k] == names[k]
  }

  // ---------------------------------------------------------------------
  // One pass of the probing loop

  /**
   * Where a pass of the probing loop stands: the roles, the port the current
   * port object was made for, the probes still to come, the throws counted in
   * this invocation, and whether a first throw has handed over to a restart.
   */
  datatype Pass = Pass(roles: Ports, port: Option<string>, probes: seq<Probe>, throws: nat, restarted: bool)

  /** The role an entry gets from what its probe read, the second throw of an invocation included. */
  function RoleFrom(r: Reading, current: string): (role: string)
    ensures r.Silent? ==> role == current
    ensures r.Thrown? ==> role == "Unreadable"
    ensures r.Frame? ==> role == current || role in Roles
  {
    match r
    case Silent => current
    case Frame(tokens, body) => Fingerprint(tokens, body, current, 0)
    case Thrown => "Unreadable"
  }

  /**
   * One entry of the probing loop, as far as it goes without a restart: the
   * port object (new for an "Unknown" entry), its one probe, and the role
   * that probe gives; a first throw marks the pass as restarted.
   */
  function ProbeStep(s: Pass, key: string): (r: Pass)
    ensures s.restarted || key !in s.roles ==> r == s
    ensures r.roles.Keys == s.roles.Keys && r.throws >= s.throws && |r.probes| <= |s.probes|
    ensures forall k :: k in s.roles && k != key ==> r.roles[k] == s.roles[k]
    ensures ProbedRoles(s.roles) ==> ProbedRoles(r.roles)
  {
    if s.restarted || key !in s.roles then s
    else
      var port := PortFor(s.roles[key], key, s.port);
      var rest := if port.Some? then AfterProbe(s.probes) else s.probes;
      var reading := Attempt(port, s.probes);
      if reading.Thrown? && s.throws == 0 then s.(port := port, probes := rest, throws := 1, restarted := true)
      else
        s.(roles := s.roles[key := RoleFrom(reading, s.roles[key])], port := port, probes := rest,
           throws := if reading.Thrown? then s.throws + 1 else s.throws)
  }

  /** The probing loop over the entries `keys`, in that order. */
  function ProbePass(s: Pass, keys: seq<string>): (r: Pass)
    ensures r.roles.Keys == s.roles.Keys && r.throws >= s.throws && |r.probes| <= |s.probes|
    ensures forall k :: k in s.roles && k !in keys ==> r.roles[k] == s.roles[k]
    ensures ProbedRoles(s.roles) ==> ProbedRoles(r.roles)
    ensures s.restarted ==> r == s
    decreases |keys|
  {
    if |keys| == 0 then s
    else
      var n := |keys| - 1;
      assert forall k :: k !in keys ==> k !in keys[..n];
      ProbeStep(ProbePass(s, keys[..n]), keys[n])
  }

  /** The probes left after `n` reads. */
  function Drop(probes: seq<Probe>, n: nat): seq<Probe>
  {
    if n <= |probes| then probes[n..] else []
  }

  /** The probe the `i`-th read yields. */
  function ProbeAt(probes: seq<Probe>, i: nat): Probe
  {
    NextProbe(Drop(probes, i))
  }

  /**
   * A throw after the first of an invocation never restarts the search: the
   * port is marked "Unreadable" instead, and the pass runs to its end.
   */
  lemma {:induction false} LaterThrowsNeverRestart(s: Pass, keys: seq<string>)
    requires !s.restarted && s.throws >= 1
    ensures !ProbePass(s, keys).restarted
    decreases |keys|
  {
    if |keys| > 0 {
      LaterThrowsNeverRestart(s, keys[..|keys| - 1]);
    }
  }

  /** One "Unknown" entry reached without a restart: a port object of its own, the next probe, and the role it gives. */
  lemma FreshStep(prev: Pass, k: string)
    requires !prev.restarted && k in prev.roles && prev.roles[k] == "Unknown"
    requires prev.throws >= 1 || !ReadingOf(NextProbe(prev.probes)).Thrown?
    ensures var r := ProbeStep(prev, k);
            && !r.restarted && r.probes == AfterProbe(prev.probes)
            && r.roles[k] == RoleFrom(ReadingOf(NextProbe(prev.probes)), "Unknown")
  {
    ContainsTextAt("Unknown", "Unknown", 0);
    assert PortFor(prev.roles[k], k, prev.port) == Some(k);
  }

  /**
   * A pass over distinct entries that are all "Unknown", as every entry is
   * right after the registration: each entry gets a port object of its own
   * and the next probe, the `i`-th entry ends with the role the `i`-th
   * probe's reading gives, and no probe is skipped.  This holds as long as no
   * first throw restarts the search.
   */
  lemma {:induction false} FreshPassRecordsReadings(s: Pass, keys: seq<string>)
    requires !s.restarted
    requires forall i :: 0 <= i < |keys| ==> keys[i] in s.roles && s.roles[keys[i]] == "Unknown"
    requires forall i, j :: 0 <= i < j < |keys| ==> keys[i] != keys[j]
    requires s.throws >= 1 || forall i :: 0 <= i < |keys| ==> !ReadingOf(ProbeAt(s.probes, i)).Thrown?
    ensures var r := ProbePass(s, keys);
            && !r.restarted
            && r.probes == Drop(s.probes, |keys|)
            && (forall i :: 0 <= i < |keys| ==> r.roles[keys[i]] == RoleFrom(ReadingOf(ProbeAt(s.probes, i)), "Unknown"))
    decreases |keys|
  {
    if |keys| > 0 {
      var ks := keys[..|keys| - 1];
      assert forall i :: 0 <= i < |ks| ==> ks[i] == keys[i];
      FreshPassRecordsReadings(s, ks);
      FreshPassExtends(s, keys);
    }
  }

  /** The inductive step of `FreshPassRecordsReadings`: one more fresh entry at the end of the pass. */
  lemma FreshPassExtends(s: Pass, keys: seq<string>)
    requires !s.restarted && |keys| > 0
    requires forall i :: 0 <= i < |keys| ==> keys[i] in s.roles && s.roles[keys[i]] == "Unknown"
    requires forall i, j :: 0 <= i < j < |keys| ==> keys[i] != keys[j]
    requires s.throws >= 1 || !ReadingOf(ProbeAt(s.probes, |keys| - 1)).Thrown?
    requires var prev := ProbePass(s, keys[..|keys| - 1]);
             && !prev.restarted
             && prev.probes == Drop(s.probes, |keys| - 1)
             && (forall i :: 0 <= i < |keys| - 1 ==> prev.roles[keys[i]] == RoleFrom(ReadingOf(ProbeAt(s.probes, i)), "Unknown"))
    ensures var r := ProbePass(s, keys);
            && !r.restarted
            && r.probes == Drop(s.probes, |keys|)
            && (forall i :: 0 <= i < |keys| ==> r.roles[keys[i]] == RoleFrom(ReadingOf(ProbeAt(s.probes, i)), "Unknown"))
  {
    var n := |keys| - 1;
    var prev := ProbePass(s, keys[..n]);
    assert AfterProbe(prev.probes) == Drop(s.probes, n + 1);
    assert NextProbe(prev.probes) == ProbeAt(s.probes, n);
    FreshStep(prev, keys[n]);
    var r := ProbeStep(prev, keys[n]);
    RolesAfterStep(prev.roles, r.roles, keys, s.probes);
  }

  /** The role the `i`-th probe's reading gives an "Unknown" entry. */
  function FreshRole(probes: seq<Probe>, i: nat): string
  {
    RoleFrom(ReadingOf(ProbeAt(probes, i)), "Unknown")
  }

  /**
   * Bookkeeping for one more entry at the end of a pass: the earlier entries
   * keep the roles they had and the last one has its own.
   */
  lemma RolesAfterStep(before: Ports, after: Ports, keys: seq<string>, probes: seq<Probe>)
    requires |keys| > 0
    requires forall i, j :: 0 <= i < j < |keys| ==> keys[i] != keys[j]
    requires forall i :: 0 <= i < |keys| - 1 ==> keys[i] in before && before[keys[i]] == FreshRole(probes, i)
    requires keys[|keys| - 1] in after && after[keys[|keys| - 1]] == FreshRole(probes, |keys| - 1)
    requires forall x :: x in before && x != keys[|keys| - 1] ==> x in after && after[x] == before[x]
    ensures forall i :: 0 <= i < |keys| ==> keys[i] in after && after[keys[i]] == FreshRole(probes, i)
  {
    var last := keys[|keys| - 1];
    forall i | 0 <= i < |keys| - 1
      ensures keys[i] in after && after[keys[i]] == FreshRole(probes, i)
    {
      assert keys[i] != last && keys[i] in before;
    }
  }

  /** The baud rate of the `j`-th pass: 115200 first, 9600 after. */
  function PassBaud(j: nat): int
  {
    if j == 0 then 115200 else 9600
  }

  class PortSearch {
    var comCheck: int
    var portNamesList: Ports
    /** The port the current SerialPort object was made for; None before the first. */
    var serialPort: Option<string>
    /** Every probe made: the entry examined, the port actually opened, and the baud rate. */
    var probed: seq<(string, string, int)>
    /** The names `getAvailableComPorts` returns, the same at every call. */
    const listing: seq<string>
    const data: Data

    /**
     * The search only ever records listed COM names with the roles probing can
     * give, its count only grows from zero, and the registry holds only
     * fingerprinted or unreadable ports.
     */
    ghost predicate Valid()
      reads this, data
    {
      && data.Valid()
      && comCheck >= 0
      && (forall k :: k in portNamesList ==> k in listing && IsComName(k))
      && ProbedRoles(portNamesList)
      && SearchedRoles(data.comPortList)
    }

    constructor (data: Data, listing: seq<string>)
      requires data.Valid() && SearchedRoles(data.comPortList)
      ensures Valid() && this.data == data && this.listing == listing
      ensures comCheck == 0 && portNamesList == map[] && serialPort == None && probed == []
    {
      this.data := data;
      this.listing := listing;
      comCheck := 0;
      portNamesList := map[];
      serialPort := None;
      probed := [];
    }

    /** The first loop of a pass: every listed name holding "COM" is put as "Unknown". */
    method Register()
      requires Valid()
      modifies this
      ensures Valid()
      ensures portNamesList == Registered(old(portNamesList), listing)
      ensures comCheck == old(comCheck) && serialPort == old(serialPort) && probed == old(probed)
    {
      for i := 0 to |listing|
        invariant Valid()
        invariant portNamesList == Registered(old(portNamesList), listing[..i])
        invariant comCheck == old(comCheck) && serialPort == old(serialPort) && probed == old(probed)
      {
        assert listing[..i + 1][..i] == listing[..i];
        if IsComName(listing[i]) {
          portNamesList := portNamesList[listing[i] := "Unknown"];
        }
      }
      assert listing[..|listing|] == listing;
    }

    /** One turn of the token loop: the four tests on one key, each match overwriting the entry. */
    method ClassifyToken(key: string, token: string, body: string)
      requires Valid() && key in portNamesList
      modifies this
      ensures Valid()
      ensures portNamesList == old(portNamesList)[key := TokenRole(token, body, old(portNamesList)[key])]
      ensures comCheck == old(comCheck) && serialPort == old(serialPort) && probed == old(probed)
    {
      var role := portNamesList[key];
      if ContainsText(token, "Roll") {
        role := "IMU";
      }
      if ContainsText(token, "GPS") {
        role := "GPS";
      }
      if ContainsText(token, "ROVDummy") || ContainsText(token, "Test") {
        role := "ROVDummy";
      }
      if ContainsText(token, "EchoSounder") || ContainsText(body, "<[") {
        role := "EchoSounder";
      }
      portNamesList := portNamesList[key := role];
    }

    /** The token loop: the entry's role after every key of the frame is tested. */
    method Classify(key: string, tokens: seq<string>, body: string)
      requires Valid() && key in portNamesList
      modifies this
      ensures Valid()
      ensures portNamesList == old(portNamesList)[key := Fingerprint(tokens, body, old(portNamesList)[key], 0)]
      ensures comCheck == old(comCheck) && serialPort == old(serialPort) && probed == old(probed)
    {
      var i := 0;
      while i < |tokens|
        invariant Valid() && key in portNamesList
        invariant portNamesList == old(portNamesList)[key := portNamesList[key]]
        invariant Fingerprint(tokens, body, old(portNamesList)[key], 0) == Fingerprint(tokens, body, portNamesList[key], i)
        invariant comCheck == old(comCheck) && serialPort == old(serialPort) && probed == old(probed)
        decreases |tokens| - i
      {
        ClassifyToken(key, tokens[i], body);
        i := i + 2;
      }
    }

    /** The copying loop of `saveUsableComPorts`: every entry not "Unknown" goes to the registry and is counted. */
    method CopyUsable()
      requires Valid()
      modifies this, data
      ensures Valid()
      ensures data.View() == old(data.View()).(comPortList := data.comPortList)
      ensures data.comPortList == old(data.comPortList) + Usable(portNamesList)
      ensures comCheck == old(comCheck) + |Usable(portNamesList)|
      ensures portNamesList == old(portNamesList) && serialPort == old(serialPort) && probed == old(probed)
    {
      var keys := KeysInSomeOrder(portNamesList);
      var i := 0;
      while i < |keys|
        invariant 0 <= i <= |keys|
        invariant Valid()
        invariant portNamesList == old(portNamesList) && serialPort == old(serialPort) && probed == old(probed)
        invariant data.View() == old(data.View()).(comPortList := data.comPortList)
        invariant data.comPortList == Copied(old(data.comPortList), portNamesList, keys[..i])
        invariant comCheck == old(comCheck) + CountUsable(portNamesList, keys[..i])
      {
        assert keys[..i + 1][..i] == keys[..i];
        CopyEntry(keys[i]);
        i := i + 1;
      }
      assert keys[..i] == keys;
      CopiedIsUnion(old(data.comPortList), portNamesList, keys);
    }

    /** One turn of the copying loop. */
    method CopyEntry(k: string)
      requires Valid() && k in portNamesList
      modifies this, data
      ensures Valid()
      ensures portNamesList == old(portNamesList) && serialPort == old(serialPort) && probed == old(probed)
      ensures data.View() == old(data.View()).(comPortList := data.comPortList)
      ensures IsUnknown(portNamesList[k]) ==> data.comPortList == old(data.comPortList) && comCheck == old(comCheck)
      ensures !IsUnknown(portNamesList[k]) ==>
                data.comPortList == old(data.comPortList)[k := portNamesList[k]] && comCheck == old(comCheck) + 1
    {
      if !IsUnknown(portNamesList[k]) {
        ContainsTextAt("Unknown", "Unknown", 0);
        data.PutComPort(k, portNamesList[k]);
        comCheck := comCheck + 1;
      }
    }

    /**
     * `saveUsableComPorts`: copies the usable entries, and while fewer than
     * three ports have been counted over the object's life, searches again.
     */
    method SaveUsableComPorts(probes: seq<Probe>, fuel: nat) returns (rest: seq<Probe>)
      requires Valid()
      modifies this, data
      decreases fuel, 2
      ensures Valid()
      ensures old(portNamesList).Keys <= portNamesList.Keys && old(probed) <= probed && |rest| <= |probes|
      ensures comCheck >= old(comCheck) + |Usable(old(portNamesList))|
      ensures data.View() == old(data.View()).(comPortList := data.comPortList)
      ensures old(data.comPortList).Keys <= data.comPortList.Keys
      ensures forall k :: k in Usable(old(portNamesList)) ==> k in data.comPortList
      ensures SavedIn(portNamesList, data.comPortList)
      ensures old(comCheck) + |Usable(old(portNamesList))| >= 3 ==>
                && rest == probes
                && portNamesList == old(portNamesList) && serialPort == old(serialPort) && probed == old(probed)
                && data.comPortList == old(data.comPortList) + Usable(old(portNamesList))
                && comCheck == old(comCheck) + |Usable(old(portNamesList))|
    {
      CopyUsable();
      rest := probes;
      if comCheck < 3 && fuel > 0 {
        var bauds;
        rest, bauds := FindComPorts(probes, fuel - 1);
      }
    }

    /**
     * One entry of the probing loop: a port object is made only for an
     * "Unknown" entry, the read's frame fingerprints the entry, and a throw
     * either restarts the search (the first in this invocation) or marks the
     * entry "Unreadable".
     */
    method ProbeEntry(key: string, baud: int, eNumb: nat, probes: seq<Probe>, fuel: nat)
      returns (eNumbAfter: nat, rest: seq<Probe>)
      requires Valid() && key in portNamesList
      modifies this, data
      decreases fuel, 1
      ensures Valid()
      ensures old(portNamesList).Keys <= portNamesList.Keys && old(probed) <= probed && |rest| <= |probes|
      ensures comCheck >= old(comCheck)
      ensures data.View() == old(data.View()).(comPortList := data.comPortList)
      ensures old(data.comPortList).Keys <= data.comPortList.Keys
      ensures var port := PortFor(old(portNamesList)[key], key, old(serialPort));
              var r := Attempt(port, probes);
              && (port.Some? ==> |old(probed)| < |probed| && probed[|old(probed)|] == (key, port.value, baud))
              && (r.Silent? || r.Frame? ==>
                    && eNumbAfter == eNumb && rest == AfterProbe(probes)
                    && serialPort == port && probed == old(probed) + [(key, port.value, baud)]
                    && comCheck == old(comCheck) && data.View() == old(data.View()))
              && (r.Silent? ==> portNamesList == old(portNamesList))
              && (r.Frame? ==>
                    portNamesList == old(portNamesList)[key := Fingerprint(r.tokens, r.body, old(portNamesList)[key], 0)])
              && (r.Thrown? ==> eNumbAfter == eNumb + 1)
              && (r.Thrown? && eNumb >= 1 ==>
                    && rest == (if port.Some? then AfterProbe(probes) else probes)
                    && portNamesList == old(portNamesList)[key := "Unreadable"]
                    && serialPort == port && comCheck == old(comCheck) && data.View() == old(data.View()))
      ensures var f := ProbeStep(Pass(old(portNamesList), old(serialPort), probes, eNumb, false), key);
              !f.restarted ==>
                && portNamesList == f.roles && serialPort == f.port && rest == f.probes && eNumbAfter == f.throws
                && comCheck == old(comCheck) && data.View() == old(data.View())
    {
      var r;
      r, rest := OpenAndRead(key, baud, probes);
      eNumbAfter := eNumb;
      match r
      case Silent =>
      case Frame(tokens, body) =>
        Classify(key, tokens, body);
      case Thrown =>
        eNumbAfter := eNumb + 1;
        if eNumbAfter < 2 {
          if fuel > 0 {
            var bauds;
            rest, bauds := FindComPorts(rest, fuel - 1);
          }
        } else {
          portNamesList := portNamesList[key := "Unreadable"];
        }
    }

    /** The try block up to the read: the port object for the entry, then one probe through it. */
    method OpenAndRead(key: string, baud: int, probes: seq<Probe>) returns (r: Reading, rest: seq<Probe>)
      requires Valid() && key in portNamesList
      modifies this
      ensures Valid()
      ensures portNamesList == old(portNamesList) && comCheck == old(comCheck)
      ensures serialPort == PortFor(old(portNamesList)[key], key, old(serialPort))
      ensures r == Attempt(serialPort, probes)
      ensures serialPort.None? ==> rest == probes && probed == old(probed)
      ensures serialPort.Some? ==> rest == AfterProbe(probes) && probed == old(probed) + [(key, serialPort.value, baud)]
    {
      if IsUnknown(portNamesList[key]) {
        serialPort := Some(key);
      }
      rest := probes;
      if serialPort.None? {
        r := Thrown;
      } else {
        r := ReadingOf(NextProbe(probes));
        rest := AfterProbe(probes);
        probed := probed + [(key, serialPort.value, baud)];
      }
    }

    /**
     * The probing loop of a pass, over the registered entries in the map's
     * order `keys`: unless a first throw restarts the search, the roles, the
     * port object, the probes left and the throw count are `ProbePass`'s.
     */
    method ProbeAll(baud: int, eNumb: nat, probes: seq<Probe>, fuel: nat)
      returns (eNumbAfter: nat, rest: seq<Probe>, ghost keys: seq<string>)
      requires Valid()
      modifies this, data
      decreases fuel, 2
      ensures Valid()
      ensures old(portNamesList).Keys <= portNamesList.Keys && old(probed) <= probed && |rest| <= |probes|
      ensures comCheck >= old(comCheck) && eNumbAfter >= eNumb
      ensures data.View() == old(data.View()).(comPortList := data.comPortList)
      ensures old(data.comPortList).Keys <= data.comPortList.Keys
      ensures Enumerates(keys, old(portNamesList), true)
      ensures var f := ProbePass(Pass(old(portNamesList), old(serialPort), probes, eNumb, false), keys);
              !f.restarted ==>
                && portNamesList == f.roles && serialPort == f.port && rest == f.probes && eNumbAfter == f.throws
                && comCheck == old(comCheck) && data.View() == old(data.View())
    {
      var order := KeysInSomeOrder(portNamesList);
      keys := order;
      ghost var start := Pass(portNamesList, serialPort, probes, eNumb, false);
      eNumbAfter := eNumb;
      rest := probes;
      var i := 0;
      while i < |order|
        invariant 0 <= i <= |keys|
        invariant Valid()
        invariant forall j :: 0 <= j < |keys| ==> keys[j] in portNamesList
        invariant old(portNamesList).Keys <= portNamesList.Keys && old(probed) <= probed && |rest| <= |probes|
        invariant comCheck >= old(comCheck) && eNumbAfter >= eNumb
        invariant data.View() == old(data.View()).(comPortList := data.comPortList)
        invariant old(data.comPortList).Keys <= data.comPortList.Keys
        invariant var f := ProbePass(start, keys[..i]);
                  !f.restarted ==>
                    && portNamesList == f.roles && serialPort == f.port && rest == f.probes && eNumbAfter == f.throws
                    && comCheck == old(comCheck) && data.View() == old(data.View())
      {
        ghost var before := ProbePass(start, keys[..i]);
        assert keys[..i + 1][..i] == keys[..i];
        assert ProbePass(start, keys[..i + 1]) == ProbeStep(before, keys[i]);
        assert !before.restarted ==> before == Pass(portNamesList, serialPort, rest, eNumbAfter, false);
        eNumbAfter, rest := ProbeEntry(order[i], baud, eNumbAfter, rest, fuel);
        i := i + 1;
      }
      assert keys[..i] == keys;
    }

    /**
     * One turn of `findComPorts`'s loop: register the COM names, probe every
     * entry at the pass's baud rate, and save the usable ones.
     */
    method SearchRun(baud: int, eNumb: nat, probes: seq<Probe>, fuel: nat) returns (eNumbAfter: nat, rest: seq<Probe>)
      requires Valid()
      modifies this, data
      decreases fuel, 3
      ensures Valid()
      ensures old(portNamesList).Keys <= portNamesList.Keys && old(probed) <= probed && |rest| <= |probes|
      ensures comCheck >= old(comCheck) && eNumbAfter >= eNumb
      ensures data.View() == old(data.View()).(comPortList := data.comPortList)
      ensures old(data.comPortList).Keys <= data.comPortList.Keys
      ensures forall n :: n in listing && IsComName(n) ==> n in portNamesList
      ensures SavedIn(portNamesList, data.comPortList)
    {
      Register();
      ghost var keys;
      eNumbAfter, rest, keys := ProbeAll(baud, eNumb, probes, fuel);
      rest := SaveUsableComPorts(rest, fuel);
    }

    /**
     * `findComPorts`: three passes at 115200, 9600 and 9600 baud, the throw
     * count shared by all three.  Returns the baud rate of each pass.
     */
    method FindComPorts(probes: seq<Probe>, fuel: nat) returns (rest: seq<Probe>, bauds: seq<int>)
      requires Valid()
      modifies this, data
      decreases fuel, 4
      ensures Valid()
      ensures old(portNamesList).Keys <= portNamesList.Keys && old(probed) <= probed && |rest| <= |probes|
      ensures comCheck >= old(comCheck)
      ensures data.View() == old(data.View()).(comPortList := data.comPortList)
      ensures old(data.comPortList).Keys <= data.comPortList.Keys
      ensures bauds == [115200, 9600, 9600]
      ensures forall n :: n in listing && IsComName(n) ==> n in portNamesList
      ensures SavedIn(portNamesList, data.comPortList)
    {
      var eNumb: nat := 0;
      var baudrate := 0;
      var searchRuns := 0;
      rest := probes;
      bauds := [];
      while searchRuns != 3
        invariant 0 <= searchRuns <= 3
        invariant Valid()
        invariant old(portNamesList).Keys <= portNamesList.Keys && old(probed) <= probed && |rest| <= |probes|
        invariant comCheck >= old(comCheck)
        invariant data.View() == old(data.View()).(comPortList := data.comPortList)
        invariant old(data.comPortList).Keys <= data.comPortList.Keys
        invariant |bauds| == searchRuns && forall j :: 0 <= j < searchRuns ==> bauds[j] == PassBaud(j)
        invariant searchRuns > 0 ==> baudrate == PassBaud(searchRuns - 1)
        invariant searchRuns > 0 ==> forall n :: n in listing && IsComName(n) ==> n in portNamesList
        invariant searchRuns > 0 ==> SavedIn(portNamesList, data.comPortList)
        decreases 3 - searchRuns
      {
        if searchRuns == 0 {
          baudrate := 115200;
        }
        if searchRuns == 1 {
          baudrate := 9600;
        }
        bauds := bauds + [baudrate];
        eNumb, rest := SearchRun(baudrate, eNumb, rest, fuel);
        searchRuns := searchRuns + 1;
      }
      assert bauds == [PassBaud(0), PassBaud(1), PassBaud(2)];
    }
  }
}
