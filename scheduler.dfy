/**
 * The periodic fetch tick (`DataUpdater`): the vehicle link is asked for
 * `fb_allData` and the camera link for `getData`, each only while it reports
 * connected, the vehicle first.  The two requests sit in separate `try`
 * blocks, so whatever happens to the first, the second is still made; the
 * tick itself writes nothing to the store.
 */
module Scheduler {
  import opened Wrappers
  import opened JavaText
  import opened SharedData
  import opened KeyTables
  import opened StreamLink
  import FrameCodec

  const RovRequest: string := "fb_allData"
  const CameraRequest: string := "getData"

  /** The requests a tick makes, in order, given which links report connected. */
  function Requests(rovUp: bool, cameraUp: bool): (r: seq<string>)
    ensures RovRequest in r <==> rovUp
    ensures CameraRequest in r <==> cameraUp
    ensures |r| == (if rovUp then 1 else 0) + (if cameraUp then 1 else 0)
    ensures forall i :: 0 <= i < |r| ==> IsDataRequest(r[i])
    ensures rovUp && cameraUp ==> r[0] == RovRequest && r[1] == CameraRequest
  {
    (if rovUp then [RovRequest] else []) + (if cameraUp then [CameraRequest] else [])
  }

  /**
   * One link's share of a tick: whether it reported connected, the reply line
   * its exchange read (None for a read that failed), and the order in which
   * the decoded entries were walked.
   */
  datatype LinkTick = LinkTick(up: bool, reply: Option<string>, order: seq<string>)

  /** The store after one link's request: unchanged when the link is down. */
  function Fetch(st: Store, cmd: string, l: LinkTick, p: Parsers): (r: Store)
    ensures Inv(st) ==> Inv(r)
    ensures st.camera.leakStatus ==> r.camera.leakStatus
    ensures !l.up || l.reply.None? ==> r == st
  {
    if l.up then Exchanged(st, ReplyHandling(cmd, l.reply), l.order, p).store else st
  }

  /**
   * The store after a tick: the vehicle's exchange, then the camera's on the
   * store it left.  A vehicle exchange that throws leaves the store as it was
   * and the camera's request is made all the same.
   */
  function Fetched(st: Store, rov: LinkTick, camera: LinkTick, p: Parsers): (r: Store)
    ensures Inv(st) ==> Inv(r)
    ensures st.camera.leakStatus ==> r.camera.leakStatus
    ensures !rov.up && !camera.up ==> r == st
    ensures rov.up && rov.reply.None? ==> r == Fetch(st, CameraRequest, camera, p)
  {
    Fetch(Fetch(st, RovRequest, rov, p), CameraRequest, camera, p)
  }

  /** A reply carrying the single pair `key:value` is applied as that one entry. */
  lemma SinglePairApplied(cmd: string, key: string, value: string)
    requires IsDataRequest(cmd)
    requires FrameCodec.Plain(key) && FrameCodec.Plain(value) && value != ""
    requires ' ' !in key && ' ' !in value
    ensures ReplyHandling(cmd, Some(FrameCodec.Encode(key + ":" + value))) == Apply(map[key := value])
  {
    var ps := [(key, value)];
    assert FrameCodec.Flatten(ps) == [key, value] by {
      assert ps[..0] == [];
    }
    assert Join([key, value], ':') == key + ":" + value by {
      assert [key, value][1..] == [value];
    }
    assert FrameCodec.Collect(map[], ps) == map[key := value] by {
      assert ps[..0] == [];
    }
    EncodedReplyApplied(cmd, ps);
  }

  /** A data reply carrying the single pair `depth:text` is applied as that one entry. */
  lemma DepthReplyHandled(cmd: string, text: string)
    requires IsDataRequest(cmd)
    requires FrameCodec.Plain(text) && text != "" && ' ' !in text
    ensures ReplyHandling(cmd, Some(FrameCodec.Encode("depth:" + text))) == Apply(map["depth" := text])
  {
    assert "depth:" + text == "depth" + ":" + text;
    SinglePairApplied(cmd, "depth", text);
  }

  /** The entry `depth` stores its parsed value in the vehicle depth, without notifying. */
  lemma DepthEntryStored(st: Store, text: string, p: Parsers, x: real)
    requires p.parseDouble(text) == Some(x)
    ensures ApplyKeys(TcpTable, st, map["depth" := text], ["depth"], p) == Walk(st.(camera := st.camera.(rovDepth := x)), true)
  {
    ApplyOne(TcpTable, st, map["depth" := text], "depth", p);
    assert TcpTable["depth"] == [SetRovDepth];
    assert [SetRovDepth][1..] == [];
  }

  /** A link whose reply carries the single pair `depth:text` stores the parsed depth and nothing else. */
  lemma DepthReplyStored(st: Store, cmd: string, l: LinkTick, p: Parsers, text: string, x: real)
    requires IsDataRequest(cmd) && l.up && l.order == ["depth"]
    requires FrameCodec.Plain(text) && text != "" && ' ' !in text && p.parseDouble(text) == Some(x)
    requires l.reply == Some(FrameCodec.Encode("depth:" + text))
    ensures Fetch(st, cmd, l, p) == st.(camera := st.camera.(rovDepth := x))
  {
    DepthReplyHandled(cmd, text);
    DepthEntryStored(st, text, p, x);
  }

  /**
   * The vehicle's request comes first: when both replies carry a `depth`
   * value, the camera's is the one the store keeps.  (A one-entry reply is
   * walked in the one order it has.)
   */
  lemma CameraDepthOverridesRov(st: Store, rov: LinkTick, camera: LinkTick, p: Parsers, a: string, b: string, x: real, y: real)
    requires rov.up && camera.up && rov.order == ["depth"] && camera.order == ["depth"]
    requires FrameCodec.Plain(a) && a != "" && ' ' !in a && p.parseDouble(a) == Some(x)
    requires FrameCodec.Plain(b) && b != "" && ' ' !in b && p.parseDouble(b) == Some(y)
    requires rov.reply == Some(FrameCodec.Encode("depth:" + a))
    requires camera.reply == Some(FrameCodec.Encode("depth:" + b))
    ensures Fetched(st, rov, camera, p) == st.(camera := st.camera.(rovDepth := y))
  {
    DepthReplyStored(st, RovRequest, rov, p, a, x);
    DepthReplyStored(st.(camera := st.camera.(rovDepth := x)), CameraRequest, camera, p, b, y);
  }

  /**
   * A vehicle reply whose last value is empty takes the vehicle link down and
   * leaves the store as it was; the camera's reply is still applied.
   */
  lemma RovDanglingValueStillFetchesCamera(st: Store, rov: LinkTick, camera: LinkTick, p: Parsers, k: string)
    requires rov.up
    requires FrameCodec.Plain(k) && k != "" && ' ' !in k
    requires rov.reply == Some(FrameCodec.Encode(k + ":"))
    ensures Exchanged(st, ReplyHandling(RovRequest, rov.reply), rov.order, p) == Walk(st, false)
    ensures Fetched(st, rov, camera, p) == Fetch(st, CameraRequest, camera, p)
  {
    DanglingValueDisconnects(RovRequest, k, st, rov.order, p);
  }

  class DataUpdater {
    const rov: TcpClient
    const camera: TcpClient
    const data: Data

    /** Two distinct links over the one store. */
    ghost predicate Valid()
      reads this, rov, camera, data
    {
      && rov != camera
      && rov.data == data && camera.data == data
      && rov.Valid() && camera.Valid()
    }

    constructor (rov: TcpClient, camera: TcpClient, data: Data)
      requires rov != camera && rov.data == data && camera.data == data
      requires rov.Valid() && camera.Valid()
      ensures Valid() && this.rov == rov && this.camera == camera && this.data == data
    {
      this.rov := rov;
      this.camera := camera;
      this.data := data;
    }

    /**
     * `run`: each connected link is sent its request, the vehicle first.  The
     * requests made are returned in order; each link writes its own framed
     * request, and the store ends as the two exchanges leave it.
     */
    method Run(rovReply: Option<string>, cameraReply: Option<string>, p: Parsers)
      returns (requests: seq<string>, ghost rovTick: LinkTick, ghost cameraTick: LinkTick)
      requires Valid()
      modifies rov, camera, data
      ensures Valid()
      ensures requests == Requests(old(rov.connected), old(camera.connected))
      ensures rovTick.up == old(rov.connected) && rovTick.reply == rovReply
      ensures cameraTick.up == old(camera.connected) && cameraTick.reply == cameraReply
      ensures rov.sent == old(rov.sent) + (if rovTick.up then [FrameCodec.Encode(RovRequest)] else [])
      ensures camera.sent == old(camera.sent) + (if cameraTick.up then [FrameCodec.Encode(CameraRequest)] else [])
      ensures data.View() == Fetched(old(data.View()), rovTick, cameraTick, p)
    {
      requests := [];
      rovTick := LinkTick(rov.connected, rovReply, []);
      if rov.connected {
        ghost var order := rov.SendCommand(RovRequest, rovReply, p);
        rovTick := rovTick.(order := order);
        requests := requests + [RovRequest];
      }
      ghost var mid := data.View();
      assert mid == Fetch(old(data.View()), RovRequest, rovTick, p);
      cameraTick := LinkTick(camera.connected, cameraReply, []);
      if camera.connected {
        ghost var order := camera.SendCommand(CameraRequest, cameraReply, p);
        cameraTick := cameraTick.(order := order);
        requests := requests + [CameraRequest];
      }
    }
  }
}
