/**
 * The bracket frame `<k1:v1:k2:v2...>` shared by the vehicle link, the
 * camera link and the boat's serial devices.  Encoding wraps a command in
 * `<` and `>`.  Decoding takes the text after the first `<`, cuts it at the
 * first `>` after that, splits it on `:` as Java's `String.split` does and
 * stores the tokens pairwise in a hash map, so a later duplicate key
 * overwrites an earlier one.  The copies of the decoder differ slightly:
 * the TCP link deletes `?` and ignores a body without `:`; the serial
 * reader does neither.
 */
module FrameCodec {
  import opened Wrappers
  import opened JavaText

  type Entries = map<string, string>

  /** The line `sendCommand` writes for a command. */
  function Encode(cmd: string): (line: string)
    ensures |line| == |cmd| + 2 && line[0] == '<' && line[|line| - 1] == '>'
    ensures line[1..|line| - 1] == cmd
  {
    "<" + cmd + ">"
  }

  /** Why a text yields no frame body. */
  datatype FrameError =
    | MissingBracket   // the text lacks `<` or `>`: the frame is skipped
    | NoEndAfterStart  // every `>` comes before the first `<`: `substring(0, -1)` throws

  /** The body of the first frame in `s`: the text after the first `<`, up to the first `>` after it. */
  function Interior(s: string): (r: Result<string, FrameError>)
    ensures r == Err(MissingBracket) <==> '<' !in s || '>' !in s
    ensures r == Err(NoEndAfterStart) <==> '<' in s && '>' in s && '>' !in s[IndexOf(s, '<') + 1..]
    ensures r.Ok? ==>
              var k := IndexOf(s, '<') + 1;
              && k + |r.value| < |s|
              && s[k..k + |r.value|] == r.value
              && s[k + |r.value|] == '>'
              && '>' !in r.value
  {
    if '<' !in s || '>' !in s then Err(MissingBracket)
    else
      var rest := s[IndexOf(s, '<') + 1..];
      if '>' !in rest then Err(NoEndAfterStart)
      else Ok(rest[..IndexOf(rest, '>')])
  }

  /** Anything before the frame without `<`, and anything after it, does not disturb the body. */
  lemma InteriorOfFramed(pre: string, body: string, post: string)
    requires '<' !in pre && '>' !in body
    ensures Interior(pre + "<" + body + ">" + post) == Ok(body)
  {
    var s := pre + "<" + body + ">" + post;
    assert s[..|pre|] == pre;
    IndexOfAt(s, '<', |pre|);
    var rest := s[|pre| + 1..];
    assert rest == body + ">" + post;
    assert rest[..|body|] == body;
    IndexOfAt(rest, '>', |body|);
  }

  /** Decoding the body of an encoded command gives the command back. */
  lemma InteriorEncode(cmd: string)
    requires '>' !in cmd
    ensures Interior(Encode(cmd)) == Ok(cmd)
  {
    InteriorOfFramed("", cmd, "");
    assert "" + "<" + cmd + ">" + "" == Encode(cmd);
  }

  // ---------------------------------------------------------------------
  // Pairing tokens into a map

  /** Token `2j` and `2j + 1` both exist. */
  predicate IsPair(tokens: seq<string>, j: int)
  {
    0 <= j && 2 * j + 1 < |tokens|
  }

  function KeyAt(tokens: seq<string>, j: int): string
    requires IsPair(tokens, j)
  {
    tokens[2 * j]
  }

  function ValueAt(tokens: seq<string>, j: int): string
    requires IsPair(tokens, j)
  {
    tokens[2 * j + 1]
  }

  /** Some complete pair of `tokens` has the key `k`. */
  ghost predicate HasPairKey(tokens: seq<string>, k: string)
  {
    exists j :: IsPair(tokens, j) && KeyAt(tokens, j) == k
  }

  lemma PairsOfTail(tokens: seq<string>)
    requires |tokens| >= 2
    ensures forall j :: 0 <= j ==> (IsPair(tokens[2..], j) <==> IsPair(tokens, j + 1))
    ensures forall j :: IsPair(tokens[2..], j) ==>
              KeyAt(tokens[2..], j) == KeyAt(tokens, j + 1) && ValueAt(tokens[2..], j) == ValueAt(tokens, j + 1)
    ensures forall k :: HasPairKey(tokens, k) <==> k == tokens[0] || HasPairKey(tokens[2..], k)
  {
    forall k | HasPairKey(tokens, k)
      ensures k == tokens[0] || HasPairKey(tokens[2..], k)
    {
      var j :| IsPair(tokens, j) && KeyAt(tokens, j) == k;
      if j > 0 {
        assert IsPair(tokens[2..], j - 1) && KeyAt(tokens[2..], j - 1) == k;
      }
    }
    forall k | k == tokens[0] || HasPairKey(tokens[2..], k)
      ensures HasPairKey(tokens, k)
    {
      if k == tokens[0] {
        assert IsPair(tokens, 0) && KeyAt(tokens, 0) == k;
      } else {
        var j :| IsPair(tokens[2..], j) && KeyAt(tokens[2..], j) == k;
        assert IsPair(tokens, j + 1) && KeyAt(tokens, j + 1) == k;
      }
    }
  }

  /** The map after the pairing loop, and whether the loop finished or threw. */
  datatype Pairing = Paired(entries: Entries) | OddCount(entries: Entries)

  /**
   * `for (i = 0; i < n; i += 2) map.put(t[i], t[i + 1])` starting from `acc`:
   * an odd token count throws at the last token, after the earlier pairs are stored.
   */
  function PutPairs(acc: Entries, tokens: seq<string>): (r: Pairing)
    ensures r.Paired? <==> |tokens| % 2 == 0
    ensures forall k :: k in r.entries <==> k in acc || HasPairKey(tokens, k)
    ensures forall k :: k in acc && !HasPairKey(tokens, k) ==> r.entries[k] == acc[k]
    ensures forall k :: k in r.entries ==> (k in acc && r.entries[k] == acc[k])
                                            || (k in tokens && r.entries[k] in tokens)
    decreases |tokens|
  {
    if |tokens| == 0 then Paired(acc)
    else if |tokens| == 1 then OddCount(acc)
    else
      PairsOfTail(tokens);
      var r := PutPairs(acc[tokens[0] := tokens[1]], tokens[2..]);
      assert forall x :: x in tokens[2..] ==> x in tokens;
      r
  }

  /** A later pair overwrites every earlier pair with the same key. */
  lemma {:induction false} LastPairWins(acc: Entries, tokens: seq<string>, j: int)
    requires IsPair(tokens, j)
    requires forall j' :: j < j' && IsPair(tokens, j') ==> KeyAt(tokens, j') != KeyAt(tokens, j)
    ensures KeyAt(tokens, j) in PutPairs(acc, tokens).entries
    ensures PutPairs(acc, tokens).entries[KeyAt(tokens, j)] == ValueAt(tokens, j)
    decreases |tokens|
  {
    PairsOfTail(tokens);
    var acc' := acc[tokens[0] := tokens[1]];
    if j == 0 {
      assert !HasPairKey(tokens[2..], tokens[0]);
    } else {
      forall j' | j - 1 < j' && IsPair(tokens[2..], j')
        ensures KeyAt(tokens[2..], j') != KeyAt(tokens[2..], j - 1)
      {
        assert IsPair(tokens, j' + 1);
      }
      LastPairWins(acc', tokens[2..], j - 1);
    }
  }

  /** The tokens of a list of key/value pairs, in order. */
  function Flatten(ps: seq<(string, string)>): (t: seq<string>)
    ensures |t| == 2 * |ps|
  {
    if |ps| == 0 then [] else Flatten(ps[..|ps| - 1]) + [ps[|ps| - 1].0, ps[|ps| - 1].1]
  }

  /** The map a list of pairs denotes when later pairs overwrite earlier ones. */
  function Collect(acc: Entries, ps: seq<(string, string)>): Entries
  {
    if |ps| == 0 then acc else Collect(acc, ps[..|ps| - 1])[ps[|ps| - 1].0 := ps[|ps| - 1].1]
  }

  lemma {:induction false} PutPairsAppend(acc: Entries, tokens: seq<string>, k: string, v: string)
    requires |tokens| % 2 == 0
    ensures PutPairs(acc, tokens + [k, v]) == Paired(PutPairs(acc, tokens).entries[k := v])
    decreases |tokens|
  {
    if |tokens| == 0 {
      assert tokens + [k, v] == [k, v];
      assert [k, v][2..] == [];
    } else {
      assert (tokens + [k, v])[2..] == tokens[2..] + [k, v];
      PutPairsAppend(acc[tokens[0] := tokens[1]], tokens[2..], k, v);
    }
  }

  /** Pairing the tokens of a list of pairs builds exactly the map the list denotes. */
  lemma {:induction false} PutPairsFlatten(acc: Entries, ps: seq<(string, string)>)
    ensures PutPairs(acc, Flatten(ps)) == Paired(Collect(acc, ps))
    decreases |ps|
  {
    if |ps| > 0 {
      var n := |ps| - 1;
      PutPairsFlatten(acc, ps[..n]);
      PutPairsAppend(acc, Flatten(ps[..n]), ps[n].0, ps[n].1);
    }
  }

  // ---------------------------------------------------------------------
  // The TCP link's decoder

  /**
   * How `sendCommand` turns the reply to a data request into the map handed
   * to the key table; None where decoding throws (no `>` after the first `<`,
   * or an odd token count).
   */
  function DecodeReply(reply: string): (r: Option<Entries>)
    ensures '<' !in reply || '>' !in reply ==> r == Some(map[])
    ensures r.Some? ==> forall k :: k in r.value ==>
              ':' !in k && '?' !in k && ':' !in r.value[k] && '?' !in r.value[k]
  {
    match Interior(reply)
    case Err(MissingBracket) => Some(map[])
    case Err(NoEndAfterStart) => None
    case Ok(body) => PairBody(RemoveChar(body, '?'))
  }

  /**
   * The reply's body after `?` is deleted: nothing when it has no `:`,
   * otherwise its tokens paired up; None when the count is odd.
   */
  function PairBody(clean: string): (r: Option<Entries>)
    ensures ':' !in clean ==> r == Some(map[])
    ensures r.Some? ==> forall k :: k in r.value ==>
              && ':' !in k && ':' !in r.value[k]
              && (forall x :: x in k ==> x in clean)
              && (forall x :: x in r.value[k] ==> x in clean)
  {
    if ':' !in clean then Some(map[])
    else
      var tokens := JavaSplit(clean, ':');
      assert forall i :: 0 <= i < |tokens| ==> ':' !in tokens[i] && forall x :: x in tokens[i] ==> x in clean;
      var pairing := PutPairs(map[], tokens);
      if pairing.Paired? then Some(pairing.entries) else None
  }

  /** A text free of the frame's special characters. */
  predicate Plain(s: string)
  {
    '<' !in s && '>' !in s && ':' !in s && '?' !in s
  }

  /**
   * Encoding a list of plain pairs and decoding the reply gives the map the
   * list denotes, provided the last value is not empty.
   */
  lemma DecodeReplyOfEncoded(ps: seq<(string, string)>)
    requires |ps| >= 1 && ps[|ps| - 1].1 != ""
    requires forall i :: 0 <= i < |ps| ==> Plain(ps[i].0) && Plain(ps[i].1)
    ensures DecodeReply(Encode(Join(Flatten(ps), ':'))) == Some(Collect(map[], ps))
  {
    var tokens := Flatten(ps);
    PlainTokens(ps);
    var body := Join(tokens, ':');
    JoinPlain(tokens);
    InteriorEncode(body);
    assert RemoveChar(body, '?') == body;
    assert body == tokens[0] + [':'] + Join(tokens[1..], ':');
    assert ':' in body by { assert body[|tokens[0]|] == ':'; }
    JavaSplitJoin(tokens, ':');
    PutPairsFlatten(map[], ps);
  }

  lemma {:induction false} PlainTokens(ps: seq<(string, string)>)
    requires forall i :: 0 <= i < |ps| ==> Plain(ps[i].0) && Plain(ps[i].1)
    ensures forall i :: 0 <= i < |Flatten(ps)| ==> Plain(Flatten(ps)[i])
    ensures |ps| >= 1 ==> Flatten(ps)[|Flatten(ps)| - 1] == ps[|ps| - 1].1
    decreases |ps|
  {
    if |ps| > 0 {
      PlainTokens(ps[..|ps| - 1]);
    }
  }

  /** A character absent from every key and value is absent from every token. */
  lemma {:induction false} FlattenAvoids(ps: seq<(string, string)>, c: char)
    requires forall i :: 0 <= i < |ps| ==> c !in ps[i].0 && c !in ps[i].1
    ensures forall i :: 0 <= i < |Flatten(ps)| ==> c !in Flatten(ps)[i]
    decreases |ps|
  {
    if |ps| > 0 {
      FlattenAvoids(ps[..|ps| - 1], c);
    }
  }

  lemma {:induction false} JoinPlain(tokens: seq<string>)
    requires forall i :: 0 <= i < |tokens| ==> Plain(tokens[i])
    ensures '<' !in Join(tokens, ':') && '>' !in Join(tokens, ':') && '?' !in Join(tokens, ':')
    decreases |tokens|
  {
    if |tokens| > 1 {
      JoinPlain(tokens[1..]);
    }
  }

  /**
   * An empty last value is lost to `split`, which leaves an odd token count:
   * decoding throws instead of storing the key.
   */
  lemma EmptyLastValueThrows(k: string)
    requires Plain(k) && k != ""
    ensures DecodeReply(Encode(k + ":")) == None
  {
    var body := k + ":";
    assert '>' !in body && '?' !in body by { assert forall x :: x in body ==> x in k || x == ':'; }
    InteriorEncode(body);
    SplitDangling(k);
    assert PutPairs(map[], [k]).OddCount?;
  }

  /** `split` drops the empty piece after a trailing separator. */
  lemma SplitDangling(k: string)
    requires ':' !in k && k != ""
    ensures ':' in k + ":"
    ensures JavaSplit(k + ":", ':') == [k]
  {
    SplitAtFirst(k, "", ':');
    assert k + ":" == k + [':'] + "";
    assert SplitAll("", ':') == [""];
    assert [k] + [""] == [k, ""] && [k, ""][..1] == [k];
    assert SplitAll(k + ":", ':') == [k, ""];
    assert DropTrailingEmpty([k]) == [k];
  }

  /**
   * A reply that has a `>` but none after its first `<` makes the second
   * substring throw, as `"x>y<z"` does; `"x>y<z>"` has one after and does not.
   */
  lemma ReplyWithEndBeforeStartThrows(pre: string, post: string)
    requires '<' !in pre && '>' in pre && '>' !in post
    ensures DecodeReply(pre + "<" + post) == None
  {
    var s := pre + "<" + post;
    assert s[..|pre|] == pre;
    IndexOfAt(s, '<', |pre|);
    assert s[|pre| + 1..] == post;
  }

  // ---------------------------------------------------------------------
  // The serial reader's decoder

  /** What `readData` makes of one chunk read from a serial port. */
  datatype Chunk =
    | NoFrame                   // null, or no `<` or no `>`: skipped
    | Tokens(tokens: seq<string>)
    | Broken                    // `substring` throws

  /** The serial reader's decode: the body split on `:`, question marks kept. */
  function SerialChunk(buffer: Option<string>): (c: Chunk)
    ensures buffer.None? ==> c == NoFrame
    ensures buffer.Some? ==> (c == NoFrame <==> '<' !in buffer.value || '>' !in buffer.value)
    ensures c.Tokens? ==> |c.tokens| == 0 || c.tokens[|c.tokens| - 1] != "" || c.tokens == [""]
  {
    if buffer.None? then NoFrame
    else
      match Interior(buffer.value)
      case Err(MissingBracket) => NoFrame
      case Err(NoEndAfterStart) => Broken
      case Ok(body) => Tokens(JavaSplit(body, ':'))
  }

  /** A single key and a non-empty value, joined by `:`, split back into the two. */
  lemma SplitOnePair(k: string, v: string)
    requires ':' !in k && ':' !in v && v != ""
    ensures ':' in k + ":" + v
    ensures JavaSplit(k + ":" + v, ':') == [k, v]
  {
    SplitAtFirst(k, v, ':');
    assert SplitAll(v, ':') == [v];
  }

  /** Unlike the TCP link, the serial reader keeps `?` inside values. */
  lemma SerialKeepsQuestionMarks(k: string, v: string)
    requires ':' !in k && ':' !in v && '>' !in k && '>' !in v && v != ""
    ensures SerialChunk(Some(Encode(k + ":" + v))) == Tokens([k, v])
  {
    var body := k + ":" + v;
    assert '>' !in body by { assert forall x :: x in body ==> x in k || x == ':' || x in v; }
    InteriorEncode(body);
    SplitOnePair(k, v);
  }

  /** A body holding one key and a non-empty value pairs into a one-entry map. */
  lemma PairBodyOfPair(k: string, v: string)
    requires ':' !in k && ':' !in v && v != ""
    ensures PairBody(k + ":" + v) == Some(map[k := v])
  {
    SplitOnePair(k, v);
    assert PutPairs(map[], [k, v]) == Paired(map[k := v]) by {
      assert [k, v][2..] == [];
    }
  }

  /** Deleting `?` from `k:v` leaves `k` and deletes it from `v` only. */
  lemma RemoveFromValue(k: string, v: string)
    requires '?' !in k
    ensures RemoveChar(k + ":" + v, '?') == k + ":" + RemoveChar(v, '?')
  {
    RemoveCharAppend(k + ":", v, '?');
    assert '?' !in k + ":" by { assert forall x :: x in k + ":" ==> x in k || x == ':'; }
  }

  /** The TCP link deletes every `?` before it splits. */
  lemma ReplyDropsQuestionMarks(k: string, v: string)
    requires ':' !in k && ':' !in v && '>' !in k && '>' !in v && '?' !in k
    requires RemoveChar(v, '?') != ""
    ensures DecodeReply(Encode(k + ":" + v)) == Some(map[k := RemoveChar(v, '?')])
  {
    var body := k + ":" + v;
    assert '>' !in body by { assert forall x :: x in body ==> x in k || x == ':' || x in v; }
    InteriorEncode(body);
    RemoveFromValue(k, v);
    PairBodyOfPair(k, RemoveChar(v, '?'));
  }

  /** The serial reader splits a framed join of separator-free tokens back into those tokens. */
  lemma SerialChunkOfJoin(t: seq<string>)
    requires |t| >= 1 && (|t| == 1 || t[|t| - 1] != "")
    requires forall i :: 0 <= i < |t| ==> ':' !in t[i] && '>' !in t[i]
    ensures SerialChunk(Some(Encode(Join(t, ':')))) == Tokens(t)
  {
    JoinAvoids(t, ':', '>');
    InteriorEncode(Join(t, ':'));
    JavaSplitJoin(t, ':');
  }
}
