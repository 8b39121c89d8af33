/** Length-prefixed frames and heartbeats on one stream. */
module Framing {
  import opened Wrappers
  import opened Protocol
  import opened Bytes
  import opened Encoding
  import opened Decoding
  import opened RoundTrips

  const HEARTBEAT_REQUEST: byte := 0xFE
  const HEARTBEAT_REPLY: byte := 0xFF

  /** What is written to a stream. */
  datatype Item = Ping | Pong | Note(msg: WireMsg)

  /** What one read of the stream gives: heartbeats are recognised, other payloads are decoded. */
  datatype Received = HeartbeatRequest | HeartbeatReply | NodeMessage(msg: Decoded<WireMsg>)

  datatype Reading = Got(item: Received, rest: seq<byte>) | ConnectionLost

  predicate ItemEncodable(item: Item) {
    item.Note? ==> Encodable(item.msg)
  }

  function Payload(item: Item): seq<byte>
    requires ItemEncodable(item)
  {
    match item
    case Ping => [HEARTBEAT_REQUEST]
    case Pong => [HEARTBEAT_REPLY]
    case Note(m) => MessageBytes(m)
  }

  /** The length goes into sixteen bits, whatever it is. */
  function Frame(item: Item): seq<byte>
    requires ItemEncodable(item)
  {
    ToBytes(|Payload(item)| % 0x1_0000, 2) + Payload(item)
  }

  function Classify(payload: seq<byte>): Received {
    if payload == [HEARTBEAT_REQUEST] then HeartbeatRequest
    else if payload == [HEARTBEAT_REPLY] then HeartbeatReply
    else NodeMessage(DecodeMessage(payload))
  }

  function Receive(stream: seq<byte>): Reading {
    if |stream| < 2 then ConnectionLost
    else
      var len := ReadU16(stream);
      if |stream| < 2 + len then ConnectionLost else Got(Classify(stream[2..2 + len]), stream[2 + len..])
  }

  /** The write half: `outgoing` is the channel of messages to send, `written` what went out. */
  class StreamSender {
    var outgoing: seq<WireMsg>
    var written: seq<byte>

    constructor (outgoing: seq<WireMsg>)
      ensures this.outgoing == outgoing && written == []
    {
      this.outgoing, written := outgoing, [];
    }

    method SendHeartbeatRequest()
      modifies this`written
      ensures written == old(written) + Frame(Ping)
    {
      var lenBytes := ToBytes(1, 2);
      lenBytes := lenBytes + [HEARTBEAT_REQUEST];
      written := written + lenBytes;
    }

    method SendHeartbeatReply()
      modifies this`written
      ensures written == old(written) + Frame(Pong)
    {
      var lenBytes := ToBytes(1, 2);
      lenBytes := lenBytes + [HEARTBEAT_REPLY];
      written := written + lenBytes;
    }

    /** `ok` is false when the channel is closed: nothing more will come. */
    method Send() returns (ok: bool)
      requires outgoing != [] ==> Encodable(outgoing[0])
      modifies this
      ensures ok <==> old(outgoing) != []
      ensures if ok then outgoing == old(outgoing)[1..] && written == old(written) + Frame(Note(old(outgoing)[0]))
              else outgoing == old(outgoing) && written == old(written)
    {
      if outgoing == [] {
        return false;
      }
      var msg := outgoing[0];
      outgoing := outgoing[1..];
      var bytes := SerializeMessage(msg);
      var lenBytes := ToBytes(|bytes| % 0x1_0000, 2);
      lenBytes := lenBytes + bytes;
      written := written + lenBytes;
      ok := true;
    }
  }

  /** The read half: `incoming` is what is still to be read, `forwarded` the results passed on. */
  class StreamReceiver {
    var incoming: seq<byte>
    var forwarded: seq<Decoded<WireMsg>>

    constructor (incoming: seq<byte>)
      ensures this.incoming == incoming && forwarded == []
    {
      this.incoming, forwarded := incoming, [];
    }

    /** A decoder error ends the read before anything is forwarded; a heartbeat forwards nothing. */
    method Recv() returns (r: Reading)
      modifies this
      ensures r == Receive(old(incoming))
      ensures r.Got? ==> incoming == r.rest
      ensures forwarded == old(forwarded) + if r.Got? && r.item.NodeMessage? && r.item.msg.Good? then [r.item.msg] else []
    {
      if |incoming| < 2 {
        return ConnectionLost;
      }
      var len := ReadU16(incoming);
      if |incoming| < 2 + len as int {
        return ConnectionLost;
      }
      var bytes := incoming[2..2 + len];
      incoming := incoming[2 + len..];
      if bytes == [HEARTBEAT_REQUEST] {
        return Got(HeartbeatRequest, incoming);
      }
      if bytes == [HEARTBEAT_REPLY] {
        return Got(HeartbeatReply, incoming);
      }
      var msg := DeserializeMessage(bytes);
      if msg.Good? {
        forwarded := forwarded + [msg];
      }
      return Got(NodeMessage(msg), incoming);
    }
  }

  // ---- one frame ----

  /** What an item is received as. */
  function AsReceived(item: Item): Received {
    match item
    case Ping => HeartbeatRequest
    case Pong => HeartbeatReply
    case Note(m) => NodeMessage(ReadMessage(m))
  }

  /** No message looks like a heartbeat. */
  lemma NeverAHeartbeat(m: WireMsg)
    requires Encodable(m)
    ensures MessageBytes(m) != [] && MessageBytes(m)[0] < HEARTBEAT_REQUEST
  {
  }

  /** A length, what it measures, and the rest. */
  lemma FrameParts(p: seq<byte>, rest: seq<byte>)
    requires |p| < 0x1_0000
    ensures var s := ToBytes(|p| % 0x1_0000, 2) + p + rest;
      |s| >= 2 + |p| && ReadU16(s) == |p| && s[2..2 + |p|] == p && s[2 + |p|..] == rest
  {
    hide ToBytes, FromBytes, Pow256;
    Widths();
    ReadsHead(|p|, 2, p + rest);
    Slices(ToBytes(|p|, 2), p, rest);
  }

  lemma Slices(head: seq<byte>, p: seq<byte>, rest: seq<byte>)
    ensures var s, n := head + p + rest, |head|;
      s == head + (p + rest) && s[n..n + |p|] == p && s[n + |p|..] == rest
  {
  }

  /** A frame is received as its item, and the stream stays in step, when the length fits. */
  lemma FrameReads(item: Item, rest: seq<byte>)
    requires ItemEncodable(item) && |Payload(item)| < 0x1_0000
    ensures Receive(Frame(item) + rest) == Got(AsReceived(item), rest)
  {
    hide MessageBytes, DecodeMessage, ReadMessage, Encodable, ToBytes, FromBytes;
    FrameParts(Payload(item), rest);
    if item.Note? {
      NeverAHeartbeat(item.msg);
      MessageReads(item.msg);
    }
  }

  /** Past 65535 bytes the length wraps: the reader stops short and the rest of the message is taken for frames. */
  lemma InStepExactlyWhenShort(m: WireMsg, rest: seq<byte>)
    requires Encodable(m)
    ensures (exists item :: Receive(Frame(Note(m)) + rest) == Got(item, rest)) <==> |MessageBytes(m)| < 0x1_0000
  {
    hide MessageBytes, DecodeMessage, ReadMessage, Encodable;
    var p := MessageBytes(m);
    var s, len := Frame(Note(m)) + rest, |p| % 0x1_0000;
    if |p| < 0x1_0000 {
      FrameReads(Note(m), rest);
    } else {
      Widths();
      ReadsHead(len, 2, p + rest);
      assert s == ToBytes(len, 2) + (p + rest);
      assert |s[2 + len..]| > |rest|;
    }
  }

  lemma CardSizes(card: CardSnapshot<Amount>)
    ensures |CardBytes(card)| == 24
  {
  }

  lemma DumpOfCards(addr: SocketAddr, card: CardSnapshot<Amount>, cards: seq<CardSnapshot<Amount>>)
    requires addr.V4? && 0 < |cards| < 0x1_0000_0000 && forall x :: x in cards ==> x == card
    ensures var s := DatabaseSnapshot(addr, [], cards);
      && DumpEncodable(s) && DumpKept(s) == LimitKept(card.limit)
      && |DumpBytes(s)| >= 24 * |cards|
  {
    hide CardBytes, AccountBytes, AddrBytes, LimitKept;
    assert cards[0] in cards;
    CardSizes(card);
    FlatSize(cards, 24, CardBytes);
  }

  lemma ViewOfCards(addr: SocketAddr, s: WireDump)
    requires addr.V4? && DumpEncodable(s)
    ensures var m := ClusterView([], addr, s);
      && Encodable(m) && Kept(m) == DumpKept(s)
      && |MessageBytes(m)| >= |DumpBytes(s)|
  {
    hide DumpBytes, DumpEncodable, DumpKept;
  }

  /** Such messages exist: the view a newcomer gets of a cluster with 3000 cards. */
  lemma LongViewsGetOutOfStep(addr: SocketAddr, card: CardSnapshot<Amount>, rest: seq<byte>)
    requires addr.V4?
    ensures var m := ClusterView([], addr, DatabaseSnapshot(addr, [], seq(3000, _ => card)));
      && Encodable(m) && Kept(m) == LimitKept(card.limit)
      && |MessageBytes(m)| >= 0x1_0000
      && !exists item :: Receive(Frame(Note(m)) + rest) == Got(item, rest)
  {
    hide MessageBytes, Encodable, Kept, Frame, Receive, DumpEncodable, DumpBytes, DumpKept, LimitKept;
    var s := DatabaseSnapshot(addr, [], seq(3000, _ => card));
    DumpOfCards(addr, card, s.cards);
    ViewOfCards(addr, s);
    InStepExactlyWhenShort(ClusterView([], addr, s), rest);
  }

  // ---- streams ----

  function Stream(items: seq<Item>): seq<byte>
    requires forall item :: item in items ==> ItemEncodable(item)
  {
    if items == [] then [] else Frame(items[0]) + Stream(items[1..])
  }

  /** Reading until the stream ends; `None` when it ends inside a frame. */
  function ReceiveAll(stream: seq<byte>): Option<seq<Received>>
    decreases |stream|
  {
    if stream == [] then Some([])
    else
      match Receive(stream)
      case ConnectionLost => None
      case Got(item, rest) =>
        match ReceiveAll(rest)
        case None => None
        case Some(more) => Some([item] + more)
  }

  function AllReceived(items: seq<Item>): seq<Received> {
    seq(|items|, i requires 0 <= i < |items| => AsReceived(items[i]))
  }

  /**
   Any sequence of heartbeats and messages of fewer than 65536 bytes is received as the
   same sequence, each item classified as what it was.
   */
  lemma {:induction false} StreamReads(items: seq<Item>)
    requires forall item :: item in items ==> ItemEncodable(item) && |Payload(item)| < 0x1_0000
    ensures ReceiveAll(Stream(items)) == Some(AllReceived(items))
    decreases |items|
  {
    hide Receive, Payload, AsReceived;
    if items != [] {
      StreamReads(items[1..]);
      FrameReads(items[0], Stream(items[1..]));
      assert AllReceived(items) == [AsReceived(items[0])] + AllReceived(items[1..]);
      assert |Frame(items[0])| >= 2;
    }
  }

  /** In particular messages that survive the codec arrive unchanged. */
  lemma KeptArrive(m: WireMsg)
    requires Encodable(m) && Kept(m)
    ensures AsReceived(Note(m)) == NodeMessage(Good(m))
  {
    MessageReads(m);
    RoundTrip(m);
  }
}
