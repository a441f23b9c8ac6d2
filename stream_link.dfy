/**
 * The TCP link to the vehicle and to the camera (`TCPClient`): the
 * `connected` / `connectionResetError` flags, the command exchange of
 * `sendCommand`, and the walk of `handleDataFromRemote` over a decoded reply.
 * The socket is replaced by the lines written (`sent`) and by the reply line
 * each exchange reads, None standing for a read that fails or hits the end of
 * the stream.
 */
module StreamLink {
  import opened Wrappers
  import opened JavaText
  import opened SharedData
  import opened KeyTables
  import FrameCodec

  /** The two commands whose reply is decoded and applied. */
  predicate IsDataRequest(cmd: string)
  {
    cmd == "fb_allData" || cmd == "getData"
  }

  /** What `sendCommand` makes of the reply: a throw, nothing, or a map to apply. */
  datatype Handling = Fault | Ignored | Apply(entries: Entries)

  /**
   * The reply's fate: a missing line throws (the null dereference), a reply
   * saying "not ready" or the reply to any other command is ignored, and a
   * data reply is decoded, where a malformed frame throws.
   */
  function ReplyHandling(cmd: string, reply: Option<string>): (h: Handling)
    ensures reply.None? ==> h == Fault
    ensures reply.Some? && (ContainsText(reply.value, "not ready") || !IsDataRequest(cmd)) ==> h == Ignored
    ensures reply.Some? && IsDataRequest(cmd) && !ContainsText(reply.value, "not ready")
            && ('<' !in reply.value || '>' !in reply.value)
            ==> h == Apply(map[])
    ensures h.Apply? ==> IsDataRequest(cmd) && forall k :: k in h.entries ==> '?' !in k && ':' !in k
  {
    match reply
    case None => Fault
    case Some(line) =>
      if ContainsText(line, "not ready") || !IsDataRequest(cmd) then Ignored
      else
        match FrameCodec.DecodeReply(line)
        case None => Fault
        case Some(m) => Apply(m)
  }

  /** The store after the exchange, and whether it ended without a throw. */
  function Exchanged(st: Store, h: Handling, order: seq<string>, p: Parsers): (w: Walk)
    ensures Inv(st) ==> Inv(w.store)
    ensures st.camera.leakStatus ==> w.store.camera.leakStatus
    ensures h.Fault? ==> w == Walk(st, false)
    ensures h.Ignored? ==> w == Walk(st, true)
  {
    match h
    case Fault => Walk(st, false)
    case Ignored => Walk(st, true)
    case Apply(m) => ApplyKeys(TcpTable, st, m, order, p)
  }

  class TcpClient {
    var connected: bool
    var connectionResetError: bool
    /** The lines written to the socket so far. */
    var sent: seq<string>
    const data: Data

    /** A live link has no pending reset error. */
    ghost predicate Valid()
      reads this, data
    {
      data.Valid() && (connected ==> !connectionResetError)
    }

    constructor (data: Data)
      requires data.Valid()
      ensures Valid()
      ensures this.data == data
      ensures !connected && !connectionResetError && sent == []
    {
      this.data := data;
      connected := false;
      connectionResetError := false;
      sent := [];
    }

    /** `connect`: on success the link is up and the reset error cleared; a failure throws and changes nothing. */
    method Connect(ok: bool)
      requires Valid()
      modifies this
      ensures Valid() && sent == old(sent)
      ensures ok ==> connected && !connectionResetError
      ensures !ok ==> connected == old(connected) && connectionResetError == old(connectionResetError)
    {
      if ok {
        connected := true;
        connectionResetError := false;
      }
    }

    /** `disconnect`: the link is down; the reset error is left as it was. */
    method Disconnect()
      requires Valid()
      modifies this
      ensures Valid() && sent == old(sent)
      ensures !connected && connectionResetError == old(connectionResetError)
    {
      connected := false;
    }

    /**
     * The first loop of `run`: attempts to connect until one succeeds, using
     * one outcome per attempt; returns how many attempts were made.
     */
    method WaitForConnection(attempts: seq<bool>) returns (used: nat)
      requires Valid()
      modifies this
      ensures Valid() && sent == old(sent)
      ensures used <= |attempts|
      ensures old(connected) ==> used == 0 && connected && connectionResetError == old(connectionResetError)
      ensures !old(connected) ==> (connected <==> true in attempts)
      ensures !old(connected) && connected ==> 0 < used && attempts[used - 1] && true !in attempts[..used - 1]
                                               && !connectionResetError
      ensures !connected ==> used == |attempts| && connectionResetError == old(connectionResetError)
    {
      used := 0;
      while !connected && used < |attempts|
        invariant Valid() && sent == old(sent)
        invariant used <= |attempts|
        invariant old(connected) ==> used == 0 && connected && connectionResetError == old(connectionResetError)
        invariant !old(connected) && !connected ==> true !in attempts[..used] && connectionResetError == old(connectionResetError)
        invariant !old(connected) && connected ==> 0 < used && attempts[used - 1] && true !in attempts[..used - 1]
                                                   && !connectionResetError
      {
        assert attempts[..used + 1] == attempts[..used] + [attempts[used]];
        Connect(attempts[used]);
        used := used + 1;
      }
      if !connected {
        assert attempts[..used] == attempts;
      } else if !old(connected) {
        assert attempts[used - 1] in attempts;
      }
    }

    /**
     * One pass of the second loop of `run`: it reconnects only after a reset
     * error while disconnected; a failed attempt throws into the handler,
     * which records the error again.
     */
    method RunStep(attempt: bool)
      requires Valid()
      modifies this
      ensures Valid() && sent == old(sent)
      ensures !(old(connectionResetError) && !old(connected)) ==>
                connected == old(connected) && connectionResetError == old(connectionResetError)
      ensures old(connectionResetError) && !old(connected) ==>
                connected == attempt && connectionResetError == !attempt
    {
      if connectionResetError && !connected {
        Connect(attempt);
        if !attempt {
          connectionResetError := true;
          connected := false;
        }
      }
    }

    /** `handleDataFromRemote`: the vehicle link's key table walked over the decoded map. */
    method HandleDataFromRemote(m: Entries, p: Parsers) returns (complete: bool, ghost order: seq<string>)
      requires Valid()
      modifies data
      ensures Valid()
      ensures Enumerates(order, m, complete)
      ensures Walk(data.View(), complete) == ApplyKeys(TcpTable, old(data.View()), m, order, p)
    {
      complete, order := Dispatch(data, TcpTable, m, p);
    }

    /**
     * `sendCommand`: when connected, writes the framed command, reads one
     * reply and handles it; any throw takes the link down with a reset error.
     * When not connected nothing is written and nothing changes.
     */
    method SendCommand(cmd: string, reply: Option<string>, p: Parsers) returns (ghost order: seq<string>)
      requires Valid()
      modifies this, data
      ensures Valid()
      ensures !old(connected) ==> sent == old(sent) && !connected
                                  && connectionResetError == old(connectionResetError)
                                  && data.View() == old(data.View())
      ensures old(connected) ==> sent == old(sent) + [FrameCodec.Encode(cmd)]
      ensures old(connected) ==>
                var h := ReplyHandling(cmd, reply);
                var w := Exchanged(old(data.View()), h, order, p);
                && (h.Apply? ==> Enumerates(order, h.entries, w.complete))
                && data.View() == w.store
                && connected == w.complete
                && connectionResetError == !w.complete
    {
      order := [];
      if connected {
        sent := sent + [FrameCodec.Encode(cmd)];
        var h := ReplyHandling(cmd, reply);
        var ok := true;
        if h.Fault? {
          ok := false;
        } else if h.Apply? {
          ok, order := HandleDataFromRemote(h.entries, p);
        }
        if !ok {
          connectionResetError := true;
          connected := false;
        }
      }
    }
  }

  // ---------------------------------------------------------------------
  // Properties of the exchange

  /** A text without a space cannot contain "not ready". */
  lemma NoSpaceNotReady(s: string)
    requires ' ' !in s
    ensures !ContainsText(s, "not ready")
  {
    forall i | 0 <= i && i + 9 <= |s|
      ensures !OccursAt(s, "not ready", i)
    {
      assert s[i..i + 9][3] == s[i + 3] && s[i + 3] in s;
    }
    ContainsTextOnlyAt(s, "not ready");
  }

  /** A data reply with no complete frame applies an empty map: the store and the link stay as they were. */
  lemma UnframedReplyChangesNothing(cmd: string, line: string, st: Store, order: seq<string>, p: Parsers)
    requires IsDataRequest(cmd) && !ContainsText(line, "not ready")
    requires '<' !in line || '>' !in line
    ensures Exchanged(st, ReplyHandling(cmd, Some(line)), order, p) == Walk(st, true)
  {
  }

  /**
   * A reply whose last value is empty loses that value to `split`; the odd
   * token count throws and takes the link down, with the store untouched.
   */
  lemma DanglingValueDisconnects(cmd: string, k: string, st: Store, order: seq<string>, p: Parsers)
    requires IsDataRequest(cmd)
    requires FrameCodec.Plain(k) && k != "" && ' ' !in k
    ensures Exchanged(st, ReplyHandling(cmd, Some(FrameCodec.Encode(k + ":"))), order, p) == Walk(st, false)
  {
    var line := FrameCodec.Encode(k + ":");
    assert ' ' !in line by {
      assert forall x :: x in line ==> x in k || x == ':' || x == '<' || x == '>';
    }
    NoSpaceNotReady(line);
    FrameCodec.EmptyLastValueThrows(k);
  }

  /**
   * A well-formed data reply built from plain pairs is applied as the map
   * those pairs denote, later pairs overriding earlier ones.
   */
  lemma EncodedReplyApplied(cmd: string, ps: seq<(string, string)>)
    requires IsDataRequest(cmd)
    requires |ps| >= 1 && ps[|ps| - 1].1 != ""
    requires forall i :: 0 <= i < |ps| ==> FrameCodec.Plain(ps[i].0) && FrameCodec.Plain(ps[i].1)
    requires forall i :: 0 <= i < |ps| ==> ' ' !in ps[i].0 && ' ' !in ps[i].1
    ensures ReplyHandling(cmd, Some(FrameCodec.Encode(Join(FrameCodec.Flatten(ps), ':'))))
            == Apply(FrameCodec.Collect(map[], ps))
  {
    var tokens := FrameCodec.Flatten(ps);
    FrameCodec.FlattenAvoids(ps, ' ');
    JoinAvoids(tokens, ':', ' ');
    var line := FrameCodec.Encode(Join(tokens, ':'));
    assert ' ' !in line by {
      assert forall x :: x in line ==> x in Join(tokens, ':') || x == '<' || x == '>';
    }
    NoSpaceNotReady(line);
    FrameCodec.DecodeReplyOfEncoded(ps);
  }
}
