/**
 * The serial reader (`ReadSerialData`): frames read from an instrument's port
 * are decoded into the map `incommingData`, which lives as long as the reader
 * and is never cleared, and after each complete frame the whole map is walked
 * through the serial key table.  The port is replaced by the outcome of its
 * one opening and by the sequence of chunks its reads return, None standing
 * for null or a read that throws.
 */
module SerialIngest {
  import opened Wrappers
  import opened JavaText
  import opened SharedData
  import opened KeyTables
  import FrameCodec

  /** `incommingData` after one read: the pairs of a framed chunk stored over the old ones. */
  function Merged(incoming: Entries, buffer: Option<string>): (r: Entries)
    ensures forall k :: k in incoming ==> k in r
    ensures !FrameCodec.SerialChunk(buffer).Tokens? ==> r == incoming
  {
    match FrameCodec.SerialChunk(buffer)
    case Tokens(t) => FrameCodec.PutPairs(incoming, t).entries
    case _ => incoming
  }

  /** The read is a frame whose tokens pair up, so the map is walked afterwards. */
  predicate Applies(incoming: Entries, buffer: Option<string>)
  {
    FrameCodec.SerialChunk(buffer).Tokens? && FrameCodec.PutPairs(incoming, FrameCodec.SerialChunk(buffer).tokens).Paired?
  }

  /** `incommingData` after a run of chunks. */
  function MergedAll(incoming: Entries, chunks: seq<Option<string>>): Entries
    decreases |chunks|
  {
    if |chunks| == 0 then incoming else Merged(MergedAll(incoming, chunks[..|chunks| - 1]), chunks[|chunks| - 1])
  }

  /** A key once received is never forgotten: every later walk applies it again. */
  lemma {:induction false} MergedAllKeepsKeys(incoming: Entries, chunks: seq<Option<string>>, k: string)
    requires k in incoming
    ensures k in MergedAll(incoming, chunks)
    decreases |chunks|
  {
    if |chunks| > 0 {
      MergedAllKeepsKeys(incoming, chunks[..|chunks| - 1], k);
    }
  }

  /**
   * The walk after one read, given the listing of the map it used: the merged
   * map walked through the serial table when the frame paired up, the store
   * untouched otherwise.
   */
  function ReadOnce(st: Store, incoming: Entries, buffer: Option<string>, order: seq<string>, p: Parsers): (r: Walk)
    ensures Inv(st) ==> Inv(r.store)
    ensures st.camera.leakStatus ==> r.store.camera.leakStatus
    ensures !Applies(incoming, buffer) ==> r == Walk(st, true)
  {
    if Applies(incoming, buffer) then ApplyKeys(SerialTable, st, Merged(incoming, buffer), order, p) else Walk(st, true)
  }

  /** The store after a run of reads, the i-th walked in the listing `orders[i]`. */
  function ReadAll(st: Store, incoming: Entries, chunks: seq<Option<string>>, orders: seq<seq<string>>, p: Parsers): (r: Store)
    requires |orders| == |chunks|
    ensures Inv(st) ==> Inv(r)
    ensures st.camera.leakStatus ==> r.camera.leakStatus
    ensures (forall i :: 0 <= i < |chunks| ==> !Applies(MergedAll(incoming, chunks[..i]), chunks[i])) ==> r == st
    decreases |chunks|
  {
    if |chunks| == 0 then st
    else
      var n := |chunks| - 1;
      assert forall i :: 0 <= i < n ==> chunks[..n][..i] == chunks[..i];
      ReadOnce(ReadAll(st, incoming, chunks[..n], orders[..n], p), MergedAll(incoming, chunks[..n]), chunks[n], orders[n], p).store
  }

  /**
   * Every walk of the run lists distinct keys of the map it walked, and all
   * of them when it ran to the end.
   */
  ghost predicate ListingsFit(st: Store, incoming: Entries, chunks: seq<Option<string>>, orders: seq<seq<string>>, p: Parsers)
    requires |orders| == |chunks|
    decreases |chunks|
  {
    |chunks| == 0 ||
    var n := |chunks| - 1;
    var m := MergedAll(incoming, chunks[..n]);
    && ListingsFit(st, incoming, chunks[..n], orders[..n], p)
    && (Applies(m, chunks[n]) ==>
          Enumerates(orders[n], Merged(m, chunks[n]), ReadOnce(ReadAll(st, incoming, chunks[..n], orders[..n], p), m, chunks[n], orders[n], p).complete))
  }

  /** One more read extends the run: the map takes one more merge, the fold one more step, and the listings still fit. */
  lemma ReadAllSnoc(st: Store, incoming: Entries, chunks: seq<Option<string>>, orders: seq<seq<string>>,
                    c: Option<string>, o: seq<string>, p: Parsers)
    requires |orders| == |chunks| && ListingsFit(st, incoming, chunks, orders, p)
    requires var prev := ReadAll(st, incoming, chunks, orders, p);
             Applies(MergedAll(incoming, chunks), c) ==>
               Enumerates(o, Merged(MergedAll(incoming, chunks), c), ReadOnce(prev, MergedAll(incoming, chunks), c, o, p).complete)
    ensures MergedAll(incoming, chunks + [c]) == Merged(MergedAll(incoming, chunks), c)
    ensures ReadAll(st, incoming, chunks + [c], orders + [o], p)
            == ReadOnce(ReadAll(st, incoming, chunks, orders, p), MergedAll(incoming, chunks), c, o, p).store
    ensures ListingsFit(st, incoming, chunks + [c], orders + [o], p)
  {
    assert (chunks + [c])[..|chunks|] == chunks;
    assert (orders + [o])[..|chunks|] == orders;
  }

  /**
   * A frame with an odd number of tokens stores the pairs before the odd
   * token and is not applied.
   */
  lemma OddFrameStoresEarlierPair(incoming: Entries, k: string, v: string, tail: string)
    requires ':' !in k && ':' !in v && ':' !in tail && '>' !in k && '>' !in v && '>' !in tail
    requires tail != ""
    ensures var b := Some(FrameCodec.Encode(Join([k, v, tail], ':')));
            && Merged(incoming, b) == incoming[k := v]
            && !Applies(incoming, b)
  {
    var t := [k, v, tail];
    assert forall i :: 0 <= i < |t| ==> ':' !in t[i] && '>' !in t[i];
    FrameCodec.SerialChunkOfJoin(t);
    var b := Some(FrameCodec.Encode(Join(t, ':')));
    assert FrameCodec.SerialChunk(b) == FrameCodec.Tokens(t);
    assert t[2..] == [tail];
    assert FrameCodec.PutPairs(incoming, t) == FrameCodec.PutPairs(incoming[k := v], [tail]);
  }

  /** The prefix one element longer, and the whole sequence as its longest prefix. */
  lemma PrefixGrows<T>(s: seq<T>, i: nat)
    requires i <= |s|
    ensures i < |s| ==> s[..i + 1] == s[..i] + [s[i]]
    ensures s[..|s|] == s
  {
  }

  class SerialReader {
    var portIsOpen: bool
    /** How many times the port was opened. */
    var opens: nat
    var incommingData: Entries
    const data: Data

    ghost predicate Valid()
      reads this, data
    {
      data.Valid() && opens <= 1 && (portIsOpen <==> opens == 1)
    }

    constructor (data: Data)
      requires data.Valid()
      ensures Valid() && this.data == data
      ensures !portIsOpen && incommingData == map[]
    {
      this.data := data;
      portIsOpen := false;
      opens := 0;
      incommingData := map[];
    }

    /** The opening at the top of `readData`: attempted only while the port is not yet open. */
    method OpenPort(ok: bool)
      requires Valid()
      modifies this
      ensures Valid() && incommingData == old(incommingData)
      ensures portIsOpen <==> old(portIsOpen) || ok
      ensures old(portIsOpen) ==> opens == old(opens)
    {
      if !portIsOpen {
        if ok {
          portIsOpen := true;
          opens := opens + 1;
        }
      }
    }

    /** `sendIncommingDataToDataHandler`: the serial key table walked over the whole map. */
    method SendIncommingDataToDataHandler(p: Parsers) returns (complete: bool, ghost order: seq<string>)
      requires Valid()
      modifies data
      ensures Valid()
      ensures Enumerates(order, incommingData, complete)
      ensures Walk(data.View(), complete) == ApplyKeys(SerialTable, old(data.View()), incommingData, order, p)
    {
      complete, order := Dispatch(data, SerialTable, incommingData, p);
    }

    /**
     * One turn of the read loop: a framed chunk's pairs go into the map, and
     * if they paired up the whole map is applied; an odd count throws after
     * the earlier pairs are stored, and a parse failure ends the walk.  Either
     * throw is caught inside the loop.
     */
    method ReadStep(buffer: Option<string>, p: Parsers) returns (ghost order: seq<string>)
      requires Valid()
      modifies this, data
      ensures Valid()
      ensures portIsOpen == old(portIsOpen) && opens == old(opens)
      ensures incommingData == Merged(old(incommingData), buffer)
      ensures data.View() == ReadOnce(old(data.View()), old(incommingData), buffer, order, p).store
      ensures Applies(old(incommingData), buffer) ==>
                Enumerates(order, incommingData, ReadOnce(old(data.View()), old(incommingData), buffer, order, p).complete)
    {
      order := [];
      var chunk := FrameCodec.SerialChunk(buffer);
      if chunk.Tokens? {
        var pairing := FrameCodec.PutPairs(incommingData, chunk.tokens);
        incommingData := pairing.entries;
        if pairing.Paired? {
          var complete;
          complete, order := SendIncommingDataToDataHandler(p);
        }
      }
    }

    /**
     * `readData`: a fresh port object is made and opened if the reader's flag
     * says no port is open yet, then the loop reads on.  Only when this call
     * opened its port does a read succeed; otherwise (the flag was already
     * set, or the opening failed) `setParams` throws on the unopened port in
     * every turn, the throw is caught, and nothing changes.  The loop has no
     * exit of its own, so the model stops when the given reads run out.
     */
    method ReadData(openOk: bool, chunks: seq<Option<string>>, p: Parsers) returns (ghost orders: seq<seq<string>>)
      requires Valid()
      modifies this, data
      ensures Valid()
      ensures portIsOpen <==> old(portIsOpen) || openOk
      ensures old(portIsOpen) ==> opens == old(opens)
      ensures |orders| == |chunks|
      ensures incommingData == if !old(portIsOpen) && openOk then MergedAll(old(incommingData), chunks) else old(incommingData)
      ensures !old(portIsOpen) && openOk ==>
                && data.View() == ReadAll(old(data.View()), old(incommingData), chunks, orders, p)
                && ListingsFit(old(data.View()), old(incommingData), chunks, orders, p)
      ensures !(!old(portIsOpen) && openOk) ==> data.View() == old(data.View())
    {
      var ownPort := !portIsOpen && openOk;
      OpenPort(openOk);
      if ownPort {
        orders := ReadChunks(chunks, p);
      } else {
        orders := seq(|chunks|, _ => []);
      }
    }

    /** One turn of the read loop, seen as one more step of the run so far. */
    method ReadTurn(c: Option<string>, p: Parsers, ghost st0: Store, ghost m0: Entries,
                    ghost done: seq<Option<string>>, ghost orders: seq<seq<string>>) returns (ghost o: seq<string>)
      requires Valid() && |orders| == |done|
      requires incommingData == MergedAll(m0, done)
      requires data.View() == ReadAll(st0, m0, done, orders, p) && ListingsFit(st0, m0, done, orders, p)
      modifies this, data
      ensures Valid()
      ensures portIsOpen == old(portIsOpen) && opens == old(opens)
      ensures incommingData == MergedAll(m0, done + [c])
      ensures data.View() == ReadAll(st0, m0, done + [c], orders + [o], p)
      ensures ListingsFit(st0, m0, done + [c], orders + [o], p)
    {
      o := ReadStep(c, p);
      ReadAllSnoc(st0, m0, done, orders, c, o, p);
    }

    /** The read loop on a port this call opened: every chunk goes through `ReadStep`. */
    method ReadChunks(chunks: seq<Option<string>>, p: Parsers) returns (ghost orders: seq<seq<string>>)
      requires Valid()
      modifies this, data
      ensures Valid()
      ensures portIsOpen == old(portIsOpen) && opens == old(opens)
      ensures |orders| == |chunks|
      ensures incommingData == MergedAll(old(incommingData), chunks)
      ensures data.View() == ReadAll(old(data.View()), old(incommingData), chunks, orders, p)
      ensures ListingsFit(old(data.View()), old(incommingData), chunks, orders, p)
    {
      ghost var st0, m0 := data.View(), incommingData;
      ghost var done: seq<Option<string>> := [];
      orders := [];
      var i := 0;
      while i < |chunks|
        invariant 0 <= i <= |chunks| && |orders| == i && done == chunks[..i]
        invariant Valid()
        invariant portIsOpen == old(portIsOpen) && opens == old(opens)
        invariant incommingData == MergedAll(m0, done)
        invariant data.View() == ReadAll(st0, m0, done, orders, p)
        invariant ListingsFit(st0, m0, done, orders, p)
      {
        ghost var o := ReadTurn(chunks[i], p, st0, m0, done, orders);
        PrefixGrows(chunks, i);
        done, orders := done + [chunks[i]], orders + [o];
        i := i + 1;
      }
      PrefixGrows(chunks, i);
    }
  }
}
