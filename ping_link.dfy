/**
 * The latency probe to the vehicle (`TCPpinger`): a bare `ping` line, a reply
 * compared with `<ping:true>`, and the measured time written to the store's
 * `rovPing` while the link is up.  The socket is replaced by the lines
 * written and by the outcome of each read; the clock by the elapsed time the
 * caller measured.
 */
module PingLink {
  import opened Wrappers
  import opened SharedData
  import FrameCodec

  /** The one reply that counts as an answer to the probe. */
  const PingReply: string := "<ping:true>"

  /** The probe line: the bare word, not a bracketed frame. */
  const PingProbe: string := "ping"

  /** How a `readLine` on the socket ends: a line, the end of the stream (null), or a throw. */
  datatype ReadOutcome = Line(text: string) | EndOfStream | Failure

  /** The latency `getPing` reports for a response: the elapsed time only after the exact reply, 0.00 otherwise. */
  function PingValue(response: Option<string>, elapsed: real): (v: real)
    ensures response == Some(PingReply) ==> v == elapsed
    ensures response != Some(PingReply) ==> v == 0.0
  {
    if response.Some? && response.value == PingReply then elapsed else 0.0
  }

  /** The probe is not a frame: it carries no brackets, unlike every command `sendCommand` writes. */
  lemma ProbeIsNotAFrame(cmd: string)
    ensures PingProbe != FrameCodec.Encode(cmd)
    ensures '<' !in PingProbe && '>' !in PingProbe
  {
    assert FrameCodec.Encode(cmd)[0] == '<';
  }

  class Pinger {
    var connected: bool
    var connectionResetError: bool
    /** Whether `connect` has ever made the reader and writer. */
    var hasStreams: bool
    /** The static `serverResponse`: the last line read, kept across calls. */
    var serverResponse: Option<string>
    /** The lines written to the socket. */
    var sent: seq<string>
    const data: Data

    ghost predicate Valid()
      reads this, data
    {
      data.Valid() && (connected ==> hasStreams)
    }

    constructor (data: Data)
      requires data.Valid()
      ensures Valid() && this.data == data
      ensures !connected && !connectionResetError && !hasStreams && serverResponse == None && sent == []
    {
      this.data := data;
      connected := false;
      connectionResetError := false;
      hasStreams := false;
      serverResponse := None;
      sent := [];
    }

    /** `connect`: on success the link is up and the reset error cleared; a failure throws and changes nothing. */
    method Connect(ok: bool)
      requires Valid()
      modifies this
      ensures Valid() && sent == old(sent) && serverResponse == old(serverResponse)
      ensures ok ==> connected && !connectionResetError && hasStreams
      ensures !ok ==> connected == old(connected) && connectionResetError == old(connectionResetError)
                      && hasStreams == old(hasStreams)
    {
      if ok {
        hasStreams := true;
        connected := true;
        connectionResetError := false;
      }
    }

    /** `disconnect`: the link is down; the reset error and the old streams stay. */
    method Disconnect()
      requires Valid()
      modifies this
      ensures Valid() && sent == old(sent) && serverResponse == old(serverResponse)
      ensures !connected && connectionResetError == old(connectionResetError) && hasStreams == old(hasStreams)
    {
      connected := false;
    }

    /**
     * `sendData`: writes the line and reads one back into the static response.
     * Without streams the write throws first; a failed read leaves the
     * previous response in place, and that is what is returned.
     */
    method SendData(sentence: string, read: ReadOutcome) returns (response: Option<string>)
      requires Valid()
      modifies this
      ensures Valid()
      ensures connected == old(connected) && connectionResetError == old(connectionResetError) && hasStreams == old(hasStreams)
      ensures sent == if hasStreams then old(sent) + [sentence] else old(sent)
      ensures hasStreams && read.Line? ==> serverResponse == Some(read.text)
      ensures hasStreams && read.EndOfStream? ==> serverResponse == None
      ensures !hasStreams || read.Failure? ==> serverResponse == old(serverResponse)
      ensures response == serverResponse
    {
      if hasStreams {
        sent := sent + [sentence];
        match read
        case Line(text) => serverResponse := Some(text);
        case EndOfStream => serverResponse := None;
        case Failure =>
      }
      response := serverResponse;
    }

    /** `getPing`: the probe, then the latency decision on whatever `sendData` returned. */
    method GetPing(read: ReadOutcome, elapsed: real) returns (ping: real)
      requires Valid()
      modifies this
      ensures Valid()
      ensures connected == old(connected) && connectionResetError == old(connectionResetError) && hasStreams == old(hasStreams)
      ensures sent == if hasStreams then old(sent) + [PingProbe] else old(sent)
      ensures ping == PingValue(serverResponse, elapsed)
      ensures hasStreams && read.Line? ==> ping == (if read.text == PingReply then elapsed else 0.0)
      ensures hasStreams && read.EndOfStream? ==> ping == 0.0
      ensures (!hasStreams || read.Failure?) && old(serverResponse) == Some(PingReply) ==> ping == elapsed
    {
      var response := SendData(PingProbe, read);
      ping := PingValue(response, elapsed);
    }

    /** `run`: the ping is measured and stored only while connected; otherwise `rovPing` keeps its value. */
    method Run(read: ReadOutcome, elapsed: real)
      requires Valid()
      modifies this, data
      ensures Valid()
      ensures connected == old(connected) && connectionResetError == old(connectionResetError)
      ensures !old(connected) ==> data.View() == old(data.View()) && sent == old(sent)
      ensures old(connected) ==>
                && sent == old(sent) + [PingProbe]
                && data.View() == old(data.View()).(rov := old(data.rov).(rovPing := PingValue(serverResponse, elapsed)),
                                                    notifications := old(data.notifications) + 1)
    {
      if connected {
        var ping := GetPing(read, elapsed);
        data.SetRovPing(ping);
      }
    }
  }
}
