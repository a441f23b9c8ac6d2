/**
 * The video link from the camera (`UDPServer`): each `run` is one tick that
 * may recycle the socket, receives one datagram, stores the frame, counts
 * images, saves photos while photo mode is on, and tells the camera once per
 * change of photo mode.  The socket, the clock, image decoding and the
 * photo directory are replaced by the outcomes of one tick (`Tick`); the
 * datagrams sent and the photos written are kept as sequences.
 */
module ImageLink {
  import opened Wrappers
  import opened JavaText
  import opened SharedData

  /** The time after which the socket is closed and opened again, in milliseconds. */
  const RecycleAfter: int := 60000

  /** A receive slower than this while photo mode was on counts one more image, in milliseconds. */
  const SlowReceive: int := 500

  /** The sender of a datagram. */
  datatype Address = Address(host: string, port: int)

  /** The socket field: never made (the constructor threw), closed after a failed rebind, or open. */
  datatype Socket = NoSocket | Closed | Open

  /** `ImageIO.read` on the received bytes: an image, null (no reader), or a throw. */
  datatype Decoding = Image(bytes: Bytes) | NoReader | DecodeThrows

  /** The receive: a datagram from a sender between two clock readings, or a throw. */
  datatype Receive = Datagram(sender: Address, start: int, end: int, decoding: Decoding) | ReceiveThrows

  /**
   * What the environment does during one tick: the clock, whether a new
   * socket binds, the receive, whether writing the photo file succeeds,
   * whether `mkdir` makes the directory, and whether a send succeeds.
   */
  datatype Tick = Tick(now: int, rebindOk: bool, receive: Receive, writeOk: bool, mkdirOk: bool, sendOk: bool)

  /** A saved photo: its number in the file name and the image. */
  datatype Photo = Photo(number: int, image: Bytes)

  /** A datagram sent to the camera. */
  datatype Outgoing = Outgoing(text: string, to: Address)

  /** The fields of the server that a tick reads and writes. */
  datatype Server = Server(
    socket: Socket, timer: int, connected: bool, returnAddress: Option<Address>,
    lastPhotoMode: bool, photoNumber: int, directory: bool,
    saved: seq<Photo>, outbox: seq<Outgoing>)

  // ----- the three commands

  /** The photo-mode command text. */
  function PhotoModeText(on: bool): string
  {
    "photoMode:" + BoolToString(on)
  }

  /** The delay command text, with `show` standing for `String.valueOf(double)`. */
  function DelayText(delay: real, show: real -> string): string
  {
    "photoDelay:" + show(delay)
  }

  const ResetImgText: string := "resetImgNumber"

  /** The photo-mode command splits at its colon into its name and the flag, which parses back. */
  lemma PhotoModeTextSplits(on: bool)
    ensures JavaSplit(PhotoModeText(on), ':') == ["photoMode", BoolToString(on)]
    ensures ParseBoolean(JavaSplit(PhotoModeText(on), ':')[1]) == on
  {
    var xs := ["photoMode", BoolToString(on)];
    assert Join(xs, ':') == PhotoModeText(on);
    JavaSplitJoin(xs, ':');
    ParseBooleanRoundTrip(on);
  }

  /** The delay command splits at its colon into its name and the formatted delay. */
  lemma DelayTextSplits(delay: real, show: real -> string)
    requires ':' !in show(delay) && show(delay) != ""
    ensures JavaSplit(DelayText(delay, show), ':') == ["photoDelay", show(delay)]
  {
    var xs := ["photoDelay", show(delay)];
    assert Join(xs, ':') == DelayText(delay, show);
    JavaSplitJoin(xs, ':');
  }

  /** The three commands are told apart by their text. */
  lemma CommandsDiffer(on: bool, delay: real, show: real -> string)
    ensures PhotoModeText(on) != ResetImgText
    ensures DelayText(delay, show) != ResetImgText
    ensures PhotoModeText(on) != DelayText(delay, show)
  {
    assert PhotoModeText(on)[5] == 'M' && DelayText(delay, show)[5] == 'D';
    assert PhotoModeText(on)[0] == 'p' && ResetImgText[0] == 'r' && DelayText(delay, show)[0] == 'p';
  }

  // ----- what a tick does to the store

  /**
   * What a tick writes to the store: the delay feedback, the frame (an
   * image or null), whether the image count moved, and the streaming flag it
   * leaves.  Every write but the streaming flag notifies observers.
   */
  datatype Effect = Effect(feedback: Option<real>, frame: Option<Option<Bytes>>, counted: bool, streaming: bool)

  /** A tick that fails before the receive: only the streaming flag drops. */
  const Dropped: Effect := Effect(None, None, false, false)

  function Feed(d: Store, feedback: Option<real>): Store
  {
    if feedback.Some? then d.(imaging := d.imaging.(photoModeDelayFB := feedback.value), notifications := d.notifications + 1) else d
  }

  function Show(d: Store, frame: Option<Option<Bytes>>): Store
  {
    if frame.Some? then d.(imaging := d.imaging.(videoImage := frame.value), notifications := d.notifications + 1) else d
  }

  function Count(d: Store, counted: bool): Store
    requires IsInt32(d.imaging.imageNumber)
  {
    if counted then d.(imaging := d.imaging.(imageNumber := Inc32(d.imaging.imageNumber)), notifications := d.notifications + 1) else d
  }

  function Stream(d: Store, on: bool): Store
  {
    d.(modes := d.modes.(streaming := on))
  }

  /** The store after a tick's writes, in the order the tick makes them. */
  function Apply(d: Store, e: Effect): (r: Store)
    requires Inv(d)
    ensures Inv(r)
  {
    Stream(Count(Show(Feed(d, e.feedback), e.frame), e.counted), e.streaming)
  }

  /**
   * A tick touches only the streaming flag, the delay feedback, the frame and
   * the image count, which moves by at most one; each of the other writes
   * notifies observers once.
   */
  lemma ApplyTouchesOnly(d: Store, e: Effect)
    requires Inv(d)
    ensures Apply(d, e).(modes := d.modes, imaging := d.imaging, notifications := d.notifications) == d
    ensures Apply(d, e).modes == d.modes.(streaming := e.streaming)
    ensures Apply(d, e).imaging.photoModeDelayFB == if e.feedback.Some? then e.feedback.value else d.imaging.photoModeDelayFB
    ensures Apply(d, e).imaging.videoImage == if e.frame.Some? then e.frame.value else d.imaging.videoImage
    ensures Apply(d, e).imaging.imageNumber == if e.counted then Inc32(d.imaging.imageNumber) else d.imaging.imageNumber
    ensures Apply(d, e).imaging.(photoModeDelayFB := d.imaging.photoModeDelayFB, videoImage := d.imaging.videoImage,
                                 imageNumber := d.imaging.imageNumber) == d.imaging
    ensures Apply(d, e).notifications == d.notifications + (if e.feedback.Some? then 1 else 0)
                                         + (if e.frame.Some? then 1 else 0) + (if e.counted then 1 else 0)
  {
  }

  lemma StreamCommutes(d: Store, b: bool, e: Effect)
    requires Inv(d)
    ensures Feed(Stream(d, b), e.feedback) == Stream(Feed(d, e.feedback), b)
    ensures Show(Stream(Feed(d, e.feedback), b), e.frame) == Stream(Show(Feed(d, e.feedback), e.frame), b)
  {
  }

  lemma StreamCommutesCount(d: Store, b: bool, counted: bool)
    requires IsInt32(d.imaging.imageNumber)
    ensures Count(Stream(d, b), counted) == Stream(Count(d, counted), b)
  {
  }

  lemma StreamTwice(d: Store, b: bool, c: bool)
    ensures Stream(Stream(d, b), c) == Stream(d, c)
  {
  }

  /** Writing the streaming flag it already has changes nothing. */
  lemma StreamSame(d: Store, b: bool)
    requires d.modes.streaming == b
    ensures Stream(d, b) == d
  {
  }

  /** Writing the feedback first and the rest of a tick's writes after is the whole tick. */
  lemma ApplyAfterFeed(d: Store, v: real, e: Effect)
    requires Inv(d) && e.feedback == None
    ensures Inv(Feed(d, Some(v)))
    ensures Apply(Feed(d, Some(v)), e) == Apply(d, e.(feedback := Some(v)))
  {
  }

  /** The streaming flag before a tick does not matter: the tick sets it last. */
  lemma {:induction false} ApplyIgnoresStreaming(d: Store, b: bool, e: Effect)
    requires Inv(d)
    ensures Inv(Stream(d, b))
    ensures Apply(Stream(d, b), e) == Apply(d, e)
  {
    StreamCommutes(d, b, e);
    var shown := Show(Feed(d, e.feedback), e.frame);
    StreamCommutesCount(shown, b, e.counted);
    StreamTwice(Count(shown, e.counted), b, e.streaming);
  }

  // ----- one tick of the server

  /**
   * The photo step while photo mode is on: write and count if the directory
   * is there, otherwise create it.  `t.writeOk` is false where `ImageIO.write`
   * throws; where it returns false without writing (no "jpg" writer for the
   * image) the count still steps and `writeOk` is true, with the saved photo
   * standing for the file name used up.  The count is an `int`, so `++` wraps.
   */
  function SavePhoto(s: Server, image: Option<Bytes>, t: Tick): Server
  {
    if s.directory then
      if image.Some? && t.writeOk then s.(saved := s.saved + [Photo(s.photoNumber, image.value)], photoNumber := Wrap32(s.photoNumber + 1))
      else s
    else s.(directory := t.mkdirOk)
  }

  /** The end of the tick: the photo command goes out when the store's mode differs from the last one sent. */
  function Toggle(s: Server, on: bool, sender: Address, sendOk: bool): Server
  {
    if on == s.lastPhotoMode then s
    else if !sendOk then s.(connected := false)
    else s.(outbox := s.outbox + [Outgoing(PhotoModeText(on), sender)], lastPhotoMode := on)
  }

  /** A frame that decoded (or decoded to null): saved if photo mode is on, then the photo command. */
  function Delivered(s: Server, on: bool, image: Option<Bytes>, sender: Address, t: Tick): Server
  {
    Toggle(if on then SavePhoto(s, image, t) else s, on, sender, t.sendOk)
  }

  /** The image carried by a decoding, when it decoded to one. */
  function ImageOf(d: Decoding): Option<Bytes>
  {
    if d.Image? then Some(d.bytes) else None
  }

  /**
   * After the frame bytes are read: a decode that throws fails the tick;
   * otherwise the frame is shown, counted when `slow`, and delivered.
   */
  function AfterDecode(s: Server, on: bool, sender: Address, decoding: Decoding, slow: bool, t: Tick): (r: (Server, Effect))
    ensures r.1.feedback == None
  {
    if decoding.DecodeThrows? then (s.(connected := false), Effect(None, None, false, false))
    else
      var s2 := Delivered(s, on, ImageOf(decoding), sender, t);
      (s2, Effect(None, Some(ImageOf(decoding)), slow, s2.connected))
  }

  /**
   * `(endTime - startTime) / 1000` on the `double` clock readings: the
   * receive time in seconds, fractions kept.
   */
  function ElapsedSeconds(start: int, end: int): (r: real)
    ensures 1000.0 * r == (end - start) as real
    ensures 0.0 <= r <==> start <= end
    ensures r > 0.5 <==> end - start > SlowReceive
  {
    (end - start) as real / 1000.0
  }

  /**
   * A datagram arrived from `sender` between the clock readings `start` and
   * `end`: the reply address and the delay feedback are written, then the
   * frame is decoded; it counts as slow when it took over 500 ms while the
   * last mode sent was on.
   */
  function Arrived(s: Server, on: bool, sender: Address, start: int, end: int, decoding: Decoding, t: Tick): (Server, Effect)
  {
    var r := AfterDecode(s.(returnAddress := Some(sender)), on, sender, decoding, s.lastPhotoMode && end - start > SlowReceive, t);
    (r.0, r.1.(feedback := Some(ElapsedSeconds(start, end))))
  }

  /** The receive's writes, then the decode's, make up `Arrived`. */
  lemma ArrivedComposes(s0: Server, d0: Store, on: bool, sender: Address, start: int, end: int, decoding: Decoding, t: Tick,
                        s2: Server, d2: Store)
    requires Inv(d0)
    requires var v := ElapsedSeconds(start, end);
             var r := AfterDecode(s0.(returnAddress := Some(sender)), on, sender, decoding, s0.lastPhotoMode && end - start > SlowReceive, t);
             && Inv(Feed(d0, Some(v)))
             && s2 == r.0 && d2 == Apply(Feed(d0, Some(v)), r.1)
    ensures s2 == Arrived(s0, on, sender, start, end, decoding, t).0
    ensures d2 == Apply(d0, Arrived(s0, on, sender, start, end, decoding, t).1)
  {
    var v := ElapsedSeconds(start, end);
    var r := AfterDecode(s0.(returnAddress := Some(sender)), on, sender, decoding, s0.lastPhotoMode && end - start > SlowReceive, t);
    ApplyAfterFeed(d0, v, r.1);
  }

  /** The part of the tick after the clock check: a socket that is not open or a receive that throws fails it. */
  function Receiving(s: Server, on: bool, t: Tick): (Server, Effect)
  {
    if s.socket != Open || t.receive.ReceiveThrows? then (s.(connected := false), Dropped)
    else Arrived(s, on, t.receive.sender, t.receive.start, t.receive.end, t.receive.decoding, t)
  }

  /** The clock check of `run`: past the timer the socket is closed and a new one bound. */
  predicate Recycles(s: Server, t: Tick)
  {
    t.now - s.timer > RecycleAfter
  }

  /** One `run`, given the store's photo mode. */
  function Step(s: Server, on: bool, t: Tick): (Server, Effect)
  {
    if Recycles(s, t) then
      if s.socket == NoSocket then (s.(connected := false), Dropped)
      else if !t.rebindOk then (s.(socket := Closed, connected := false), Dropped)
      else Receiving(s.(socket := Open, timer := t.now, connected := true), on, t)
    else Receiving(s.(connected := true), on, t)
  }

  /** The server after a run of ticks, each with the photo mode the store had then, and the store effects in order. */
  function Steps(s: Server, ts: seq<(bool, Tick)>): (Server, seq<Effect>)
    decreases |ts|
  {
    if |ts| == 0 then (s, [])
    else
      var r := Step(s, ts[0].0, ts[0].1);
      var rest := Steps(r.0, ts[1..]);
      (rest.0, [r.1] + rest.1)
  }

  // ----- what a tick promises

  /**
   * Photos are numbered 1, 2, 3, ... in the order they were written, as an
   * `int` counts (wrapping past the largest value), and the next number is
   * the one after the last.
   */
  ghost predicate Numbered(s: Server)
  {
    s.photoNumber == Wrap32(|s.saved| + 1) && forall i :: 0 <= i < |s.saved| ==> s.saved[i].number == Wrap32(i + 1)
  }

  /**
   * The photo command after a frame: at most one, for the current mode, to
   * the sender, only on a change; `lastPhotoMode` changes exactly with a
   * send, and a connected end leaves it equal to the mode.
   */
  ghost predicate ToggledOnChange(s: Server, r: Server, on: bool, sender: Address)
  {
    && (r.outbox == s.outbox || (s.lastPhotoMode != on && r.outbox == s.outbox + [Outgoing(PhotoModeText(on), sender)]))
    && (r.outbox == s.outbox <==> r.lastPhotoMode == s.lastPhotoMode)
    && (r.connected ==> r.lastPhotoMode == on)
  }

  /** The photos after a frame: numbering kept, at most one more, only from an image into the directory in photo mode. */
  ghost predicate SavedOnce(s: Server, r: Server, on: bool, image: Option<Bytes>, writeOk: bool)
  {
    && (Numbered(s) ==> Numbered(r))
    && (r.saved == s.saved || (on && s.directory && writeOk && image.Some? && r.saved == s.saved + [Photo(s.photoNumber, image.value)]))
  }

  lemma DeliveredFacts(s: Server, on: bool, image: Option<Bytes>, sender: Address, t: Tick)
    ensures var r := Delivered(s, on, image, sender, t);
            && r.socket == s.socket && r.timer == s.timer
            && ToggledOnChange(s, r, on, sender)
            && SavedOnce(s, r, on, image, t.writeOk)
  {
    Wrap32Succ(|s.saved| + 1);
  }

  /** After the clock check the link flag and the streaming flag agree, and the socket and timer stay. */
  lemma ReceivingLink(s: Server, on: bool, t: Tick)
    ensures var r := Receiving(s, on, t);
            r.0.socket == s.socket && r.0.timer == s.timer && r.0.connected == r.1.streaming
  {
  }

  /** After the clock check the photo command is sent at most once, for the mode, to the sender, on a change only. */
  lemma ReceivingToggle(s: Server, on: bool, t: Tick)
    ensures var r := Receiving(s, on, t);
            if t.receive.Datagram? then ToggledOnChange(s, r.0, on, t.receive.sender)
            else r.0.outbox == s.outbox && r.0.lastPhotoMode == s.lastPhotoMode && !r.0.connected
  {
    if s.socket == Open && t.receive.Datagram? && !t.receive.decoding.DecodeThrows? {
      DeliveredFacts(s.(returnAddress := Some(t.receive.sender)), on, ImageOf(t.receive.decoding), t.receive.sender, t);
    }
  }

  /** After the clock check at most one photo is saved, from the frame just received, and the numbering is kept. */
  lemma ReceivingSaved(s: Server, on: bool, t: Tick)
    ensures SavedOnce(s, Receiving(s, on, t).0, on, if t.receive.Datagram? then ImageOf(t.receive.decoding) else None, t.writeOk)
  {
    if s.socket == Open && t.receive.Datagram? {
      var s1 := s.(returnAddress := Some(t.receive.sender));
      assert Numbered(s) ==> Numbered(s1);
      if !t.receive.decoding.DecodeThrows? {
        DeliveredFacts(s1, on, ImageOf(t.receive.decoding), t.receive.sender, t);
      }
    }
  }

  /** After the clock check the image count moves exactly on a decoded frame slower than 500 ms while the last mode sent was on. */
  lemma ReceivingCounted(s: Server, on: bool, t: Tick)
    ensures Receiving(s, on, t).1.counted <==>
              && s.socket == Open && t.receive.Datagram? && !t.receive.decoding.DecodeThrows?
              && s.lastPhotoMode && t.receive.end - t.receive.start > SlowReceive
  {
  }

  /** The state a tick receives in, when it gets that far. */
  function Ready(s: Server, t: Tick): Server
  {
    if Recycles(s, t) then s.(socket := Open, timer := t.now, connected := true) else s.(connected := true)
  }

  /** Whether a tick gets past the clock check. */
  predicate Proceeds(s: Server, t: Tick)
  {
    !Recycles(s, t) || (s.socket != NoSocket && t.rebindOk)
  }

  /** A tick either stops at the clock check, dropping the link, or receives in the `Ready` state. */
  lemma StepCases(s: Server, on: bool, t: Tick)
    ensures Proceeds(s, t) ==> Step(s, on, t) == Receiving(Ready(s, t), on, t)
    ensures !Proceeds(s, t) ==> Step(s, on, t).1 == Dropped
    ensures !Proceeds(s, t) ==> Step(s, on, t).0 == s.(connected := false, socket := if s.socket == NoSocket then NoSocket else Closed)
  {
  }

  /** Every tick ends with the link flag and the store's streaming flag agreeing. */
  lemma StreamingFollowsLink(s: Server, on: bool, t: Tick)
    ensures Step(s, on, t).0.connected == Step(s, on, t).1.streaming
  {
    StepCases(s, on, t);
    ReceivingLink(Ready(s, t), on, t);
  }

  /** The timer moves only when the socket was recycled, to that tick's clock, and the socket is then open. */
  lemma TimerOnlyOnRecycle(s: Server, on: bool, t: Tick)
    ensures Step(s, on, t).0.timer == (if Recycles(s, t) && s.socket != NoSocket && t.rebindOk then t.now else s.timer)
    ensures Recycles(s, t) ==> (Step(s, on, t).0.socket == Open <==> s.socket != NoSocket && t.rebindOk)
  {
    StepCases(s, on, t);
    ReceivingLink(Ready(s, t), on, t);
  }

  /**
   * The photo-mode command: a tick sends at most one datagram, only the
   * command for the store's current mode, only to the sender of the frame
   * just received, and only when that mode differs from the last one sent;
   * `lastPhotoMode` changes exactly with a send, and a tick that ends
   * connected leaves it equal to the store's mode.
   */
  lemma ToggleOnChangeOnly(s: Server, on: bool, t: Tick)
    ensures var r := Step(s, on, t).0;
            || r.outbox == s.outbox
            || (&& t.receive.Datagram? && s.lastPhotoMode != on
                && r.outbox == s.outbox + [Outgoing(PhotoModeText(on), t.receive.sender)])
    ensures Step(s, on, t).0.outbox == s.outbox <==> Step(s, on, t).0.lastPhotoMode == s.lastPhotoMode
    ensures Step(s, on, t).0.connected ==> Step(s, on, t).0.lastPhotoMode == on
  {
    StepCases(s, on, t);
    ReceivingToggle(Ready(s, t), on, t);
  }

  /** Once the command for a mode has been sent, the next tick sends nothing while the mode stays. */
  lemma {:induction false} NoRepeatedToggle(s: Server, on: bool, t1: Tick, t2: Tick)
    requires Step(s, on, t1).0.outbox != s.outbox
    ensures Step(Step(s, on, t1).0, on, t2).0.outbox == Step(s, on, t1).0.outbox
  {
    ToggleOnChangeOnly(s, on, t1);
    ToggleOnChangeOnly(Step(s, on, t1).0, on, t2);
  }

  /** A tick keeps the photo numbering and adds at most one photo, from a decoded image, in photo mode, into the directory. */
  lemma StepSavesOnce(s: Server, on: bool, t: Tick)
    ensures Numbered(s) ==> Numbered(Step(s, on, t).0)
    ensures || Step(s, on, t).0.saved == s.saved
            || (&& on && s.directory && t.writeOk && t.receive.Datagram? && t.receive.decoding.Image?
                && Step(s, on, t).0.saved == s.saved + [Photo(s.photoNumber, t.receive.decoding.bytes)])
  {
    StepCases(s, on, t);
    ReceivingSaved(Ready(s, t), on, t);
  }

  /** The image count moves exactly on a decoded frame slower than 500 ms while the last mode sent was on. */
  lemma ImageCountOnSlowFrames(s: Server, on: bool, t: Tick)
    ensures Step(s, on, t).1.counted <==>
              && (if Recycles(s, t) then s.socket != NoSocket && t.rebindOk else s.socket == Open)
              && t.receive.Datagram? && !t.receive.decoding.DecodeThrows?
              && s.lastPhotoMode && t.receive.end - t.receive.start > SlowReceive
  {
    StepCases(s, on, t);
    ReceivingCounted(Ready(s, t), on, t);
  }

  /** Over any run of ticks the photos stay numbered 1, 2, 3, ...: no file name is used twice. */
  lemma {:induction false} StepsKeepNumbering(s: Server, ts: seq<(bool, Tick)>)
    requires Numbered(s)
    ensures Numbered(Steps(s, ts).0)
    decreases |ts|
  {
    if |ts| > 0 {
      StepSavesOnce(s, ts[0].0, ts[0].1);
      StepsKeepNumbering(Step(s, ts[0].0, ts[0].1).0, ts[1..]);
    }
  }

  /**
   * A server whose socket was never made (the constructor threw) never
   * recovers: every later tick fails before receiving, sends nothing, saves
   * nothing, and does nothing to the store but drop streaming.
   */
  lemma {:induction false} NoSocketNeverStreams(s: Server, ts: seq<(bool, Tick)>)
    requires s.socket == NoSocket && !s.connected
    ensures Steps(s, ts).0 == s
    ensures forall i :: 0 <= i < |Steps(s, ts).1| ==> Steps(s, ts).1[i] == Dropped
    ensures |Steps(s, ts).1| == |ts|
    decreases |ts|
  {
    if |ts| > 0 {
      assert Step(s, ts[0].0, ts[0].1) == (s, Dropped);
      NoSocketNeverStreams(s, ts[1..]);
    }
  }

  class UdpServer {
    var socket: Socket
    var timer: int
    var connected: bool
    var returnAddress: Option<Address>
    var lastPhotoMode: bool
    var photoNumber: int
    /** Whether the photo directory exists as a directory. */
    var directory: bool
    /** The photos written, in order. */
    var saved: seq<Photo>
    /** The datagrams sent, in order. */
    var outbox: seq<Outgoing>
    const data: Data

    function View(): Server
      reads this
    {
      Server(socket, timer, connected, returnAddress, lastPhotoMode, photoNumber, directory, saved, outbox)
    }

    ghost predicate Valid()
      reads this, data
    {
      data.Valid() && Numbered(View())
    }

    /** The constructor: the socket binds or not, the timer starts at the clock, the directory may already exist. */
    constructor (data: Data, now: int, bindOk: bool, directoryExists: bool)
      requires data.Valid()
      ensures Valid() && this.data == data
      ensures View() == Server(if bindOk then Open else NoSocket, now, false, None, false, 1, directoryExists, [], [])
    {
      this.data := data;
      socket := if bindOk then Open else NoSocket;
      timer := now;
      connected := false;
      returnAddress := None;
      lastPhotoMode := false;
      photoNumber := 1;
      directory := directoryExists;
      saved := [];
      outbox := [];
    }

    /** The catch blocks of `run`: the link is down and the store stops streaming. */
    method Fail()
      requires Valid()
      modifies this, data
      ensures Valid()
      ensures View() == old(View()).(connected := false)
      ensures data.View() == Stream(old(data.View()), false)
    {
      connected := false;
      data.SetStreaming(false);
    }

    /** A datagram to the last sender; a missing address or socket, or a failed send, is caught and sends nothing. */
    method Send(text: string, sendOk: bool)
      requires Valid()
      modifies this
      ensures Valid()
      ensures View() == old(View()).(outbox := outbox)
      ensures outbox == if socket == Open && returnAddress.Some? && sendOk
                        then old(outbox) + [Outgoing(text, returnAddress.value)] else old(outbox)
    {
      if socket == Open && returnAddress.Some? && sendOk {
        outbox := outbox + [Outgoing(text, returnAddress.value)];
      }
    }

    /** `sendDelayCommand`: the store's photo delay to the camera. */
    method SendDelayCommand(show: real -> string, sendOk: bool)
      requires Valid()
      modifies this
      ensures Valid()
      ensures View() == old(View()).(outbox := outbox)
      ensures outbox == if socket == Open && returnAddress.Some? && sendOk
                        then old(outbox) + [Outgoing(DelayText(data.imaging.photoModeDelay, show), returnAddress.value)]
                        else old(outbox)
    {
      Send(DelayText(data.imaging.photoModeDelay, show), sendOk);
    }

    /** `sendResetIMGcommand`: asks the camera to restart its image count. */
    method SendResetImgCommand(sendOk: bool)
      requires Valid()
      modifies this
      ensures Valid()
      ensures View() == old(View()).(outbox := outbox)
      ensures outbox == if socket == Open && returnAddress.Some? && sendOk
                        then old(outbox) + [Outgoing(ResetImgText, returnAddress.value)] else old(outbox)
    {
      Send(ResetImgText, sendOk);
    }

    /** The photo step of `run`. */
    method Save(image: Option<Bytes>, t: Tick)
      requires Valid()
      modifies this
      ensures Valid()
      ensures View() == SavePhoto(old(View()), image, t)
    {
      if directory {
        if image.Some? && t.writeOk {
          Wrap32Succ(|saved| + 1);
          saved := saved + [Photo(photoNumber, image.value)];
          photoNumber := Wrap32(photoNumber + 1);
        }
      } else {
        directory := t.mkdirOk;
      }
    }

    /** The photo-mode command at the end of `run`; a failed send is caught as any other. */
    method SendToggle(on: bool, sender: Address, sendOk: bool)
      requires Valid() && connected
      modifies this, data
      ensures Valid()
      ensures View() == Toggle(old(View()), on, sender, sendOk)
      ensures connected ==> data.View() == old(data.View())
      ensures !connected ==> data.View() == Stream(old(data.View()), false)
    {
      if on != lastPhotoMode {
        if !sendOk {
          Fail();
          return;
        }
        outbox := outbox + [Outgoing(PhotoModeText(on), sender)];
        lastPhotoMode := on;
      }
    }

    /** What follows a frame that decoded, or decoded to null: shown, counted, saved, announced. */
    method Deliver(image: Option<Bytes>, counted: bool, sender: Address, t: Tick)
      requires Valid() && connected && data.modes.streaming
      modifies this, data
      ensures Valid()
      ensures View() == Delivered(old(View()), old(data.modes.photoMode), image, sender, t)
      ensures data.View() == Stream(Count(Show(old(data.View()), Some(image)), counted), connected)
    {
      data.SetVideoImage(image);
      assert data.View() == Show(old(data.View()), Some(image));
      ghost var shown := data.View();
      if counted {
        data.IncreaseImageNumberByOne();
      }
      assert data.View() == Count(shown, counted);
      ghost var counts := data.View();
      var on := data.modes.photoMode;
      if on {
        Save(image, t);
      }
      assert View() == if on then SavePhoto(old(View()), image, t) else old(View());
      assert data.View() == counts;
      SendToggle(on, sender, t.sendOk);
      if connected {
        StreamSame(counts, true);
      }
    }

    /** The decode and what follows it. */
    method Decode(decoding: Decoding, slow: bool, sender: Address, t: Tick)
      requires Valid() && connected && data.modes.streaming
      modifies this, data
      ensures Valid()
      ensures View() == AfterDecode(old(View()), old(data.modes.photoMode), sender, decoding, slow, t).0
      ensures data.View() == Apply(old(data.View()), AfterDecode(old(View()), old(data.modes.photoMode), sender, decoding, slow, t).1)
    {
      if decoding.DecodeThrows? {
        Fail();
      } else {
        Deliver(ImageOf(decoding), slow, sender, t);
      }
    }

    /** A datagram arrived: reply address, delay feedback, then the decode. */
    method Arrive(sender: Address, start: int, end: int, decoding: Decoding, t: Tick)
      requires Valid() && connected && data.modes.streaming
      modifies this, data
      ensures Valid()
      ensures View() == Arrived(old(View()), old(data.modes.photoMode), sender, start, end, decoding, t).0
      ensures data.View() == Apply(old(data.View()), Arrived(old(View()), old(data.modes.photoMode), sender, start, end, decoding, t).1)
    {
      ghost var s0, d0, on := View(), data.View(), data.modes.photoMode;
      var v := ElapsedSeconds(start, end);
      var slow := lastPhotoMode && end - start > SlowReceive;
      Note(sender, v);
      Decode(decoding, slow, sender, t);
      ArrivedComposes(s0, d0, on, sender, start, end, decoding, t, View(), data.View());
    }

    /** The two writes that follow every receive: the reply address and the delay feedback. */
    method Note(sender: Address, v: real)
      requires Valid() && connected && data.modes.streaming
      modifies this, data
      ensures Valid() && connected && data.modes.streaming
      ensures View() == old(View()).(returnAddress := Some(sender))
      ensures data.View() == Feed(old(data.View()), Some(v))
    {
      returnAddress := Some(sender);
      data.SetPhotoModeDelayFB(v);
    }

    /** The receive and what follows it, once the clock check is past. */
    method Receive(t: Tick)
      requires Valid() && connected && data.modes.streaming
      modifies this, data
      ensures Valid()
      ensures View() == Receiving(old(View()), old(data.modes.photoMode), t).0
      ensures data.View() == Apply(old(data.View()), Receiving(old(View()), old(data.modes.photoMode), t).1)
    {
      if socket != Open || t.receive.ReceiveThrows? {
        Fail();
        return;
      }
      Arrive(t.receive.sender, t.receive.start, t.receive.end, t.receive.decoding, t);
    }

    /** The clock check of `run`: past the timer the socket is recycled; then the link and the store's streaming flag are set. */
    method Enter(t: Tick) returns (proceed: bool)
      requires Valid()
      modifies this, data
      ensures Valid()
      ensures proceed == Proceeds(old(View()), t)
      ensures proceed ==> View() == Ready(old(View()), t) && data.View() == Stream(old(data.View()), true)
      ensures !proceed ==> View() == Step(old(View()), old(data.modes.photoMode), t).0
                           && data.View() == Apply(old(data.View()), Dropped)
    {
      if t.now - timer > RecycleAfter {
        if socket == NoSocket {
          Fail();
          return false;
        }
        if !t.rebindOk {
          socket := Closed;
          Fail();
          return false;
        }
        socket := Open;
        timer := t.now;
        connected := true;
        data.SetStreaming(true);
      }
      connected := true;
      data.SetStreaming(true);
      StreamTwice(old(data.View()), true, true);
      return true;
    }

    /** `run`: one tick of the video link. */
    method Run(t: Tick)
      requires Valid()
      modifies this, data
      ensures Valid()
      ensures View() == Step(old(View()), old(data.modes.photoMode), t).0
      ensures data.View() == Apply(old(data.View()), Step(old(View()), old(data.modes.photoMode), t).1)
    {
      StepCases(View(), data.modes.photoMode, t);
      var proceed := Enter(t);
      if proceed {
        ApplyIgnoresStreaming(old(data.View()), true, Receiving(View(), old(data.modes.photoMode), t).1);
        Receive(t);
      }
    }
  }
}
