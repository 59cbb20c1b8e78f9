/** Length-prefixed frames between the controller and its clients. */
module Frames {
  import opened Wrappers
  import opened KernelProof

  const MAX_REQUEST_BYTES := 16 * 1024 * 1024
  const HEADER_SIZE := 4

  /** The body format, JSON in the source: how an object is written, and which bytes are an object. */
  datatype Codec<!Payload(!new)> = Codec(dump: Payload -> Bytes, load: Bytes -> Option<Payload>)

  ghost predicate RoundTrips<Payload(!new)>(codec: Codec<Payload>) {
    forall p: Payload :: codec.load(codec.dump(p)) == Some(p)
  }

  datatype FrameError = TooLarge | LengthOverflow | Truncated | EndOfStream | BadBody

  /** Blocking: recv_frame on a socket. Streaming: read_frame on an asyncio stream. */
  datatype Side = Blocking | Streaming

  function Pack(n: nat): (header: Bytes)
    requires n < 0x1_0000_0000
    ensures |header| == HEADER_SIZE
  {
    [n / 0x100_0000, n / 0x1_0000 % 0x100, n / 0x100 % 0x100, n % 0x100]
  }

  function Unpack(header: Bytes): nat
    requires |header| == HEADER_SIZE
  {
    var a: int, b: int, c: int, d: int := header[0], header[1], header[2], header[3];
    a * 0x100_0000 + b * 0x1_0000 + c * 0x100 + d
  }

  lemma UnpackPack(n: nat)
    requires n < 0x1_0000_0000
    ensures Unpack(Pack(n)) == n
  {
    assert n / 0x1_0000 == n / 0x100 / 0x100 && n / 0x100_0000 == n / 0x1_0000 / 0x100;
  }

  /** encode_frame */
  function EncodeFrame<Payload(!new)>(codec: Codec<Payload>, payload: Payload, maxBytes: nat): Result<Bytes, FrameError> {
    var body := codec.dump(payload);
    if |body| > maxBytes then Err(TooLarge)
    else if |body| >= 0x1_0000_0000 then Err(LengthOverflow)
    else Ok(Pack(|body|) + body)
  }

  /** What one frame read returns from the bytes still to come, and what it leaves of them. */
  function Received<Payload(!new)>(codec: Codec<Payload>, side: Side, data: Bytes, maxBytes: nat): (Result<Payload, FrameError>, Bytes) {
    if |data| < HEADER_SIZE then (Err(if side == Blocking then Truncated else EndOfStream), [])
    else
      var length, rest := Unpack(data[..HEADER_SIZE]), data[HEADER_SIZE..];
      if length > maxBytes then (Err(TooLarge), rest)
      else if |rest| < length then (Err(Truncated), [])
      else
        match codec.load(rest[..length])
        case None => (Err(BadBody), rest[length..])
        case Some(payload) => (Ok(payload), rest[length..])
  }

  /** The receiving end of a stream: `pending` is all the peer will still send before it closes. */
  class Connection {
    var pending: Bytes

    constructor (data: Bytes)
      ensures pending == data
    {
      pending := data;
    }

    /** socket.recv: some of the next bytes, empty only at the end of the stream. */
    method Recv(limit: nat) returns (chunk: Bytes)
      requires limit > 0
      modifies this
      ensures chunk + pending == old(pending)
      ensures |chunk| <= limit
      ensures chunk == [] <==> old(pending) == []
    {
      if pending == [] {
        return [];
      }
      var n: nat :| 1 <= n <= limit && n <= |pending|;
      chunk := pending[..n];
      pending := pending[n..];
    }

    /** _recv_exact */
    method RecvExact(length: nat) returns (result: Result<Bytes, FrameError>)
      modifies this
      ensures |old(pending)| < length ==> result == Err(Truncated) && pending == []
      ensures |old(pending)| >= length ==> result == Ok(old(pending)[..length]) && pending == old(pending)[length..]
    {
      var chunks: Bytes := [];
      var remaining: nat := length;
      while remaining != 0
        invariant remaining <= length && |chunks| == length - remaining
        invariant chunks + pending == old(pending)
        decreases remaining
      {
        var chunk := Recv(remaining);
        if chunk == [] {
          return Err(Truncated);
        }
        chunks := chunks + chunk;
        remaining := remaining - |chunk|;
      }
      return Ok(chunks);
    }

    /** recv_frame: how the stream was split into receives makes no difference. */
    method RecvFrame<Payload(!new)>(codec: Codec<Payload>, maxBytes: nat) returns (result: Result<Payload, FrameError>)
      modifies this
      ensures (result, pending) == Received(codec, Blocking, old(pending), maxBytes)
    {
      var header := RecvExact(HEADER_SIZE);
      if header.Err? {
        return Err(header.error);
      }
      var length := Unpack(header.value);
      if length > maxBytes {
        return Err(TooLarge);
      }
      var body := RecvExact(length);
      if body.Err? {
        return Err(body.error);
      }
      match codec.load(body.value) {
        case None => return Err(BadBody);
        case Some(payload) => return Ok(payload);
      }
    }

    /** read_frame: readexactly fails in the header as the end of the stream, in the body as a broken frame. */
    method ReadFrame<Payload(!new)>(codec: Codec<Payload>, maxBytes: nat) returns (result: Result<Payload, FrameError>)
      modifies this
      ensures (result, pending) == Received(codec, Streaming, old(pending), maxBytes)
    {
      var header := RecvExact(HEADER_SIZE);
      if header.Err? {
        return Err(EndOfStream);
      }
      var length := Unpack(header.value);
      if length > maxBytes {
        return Err(TooLarge);
      }
      var body := RecvExact(length);
      if body.Err? {
        return Err(Truncated);
      }
      match codec.load(body.value) {
        case None => return Err(BadBody);
        case Some(payload) => return Ok(payload);
      }
    }

    /** The controller's connection loop: read requests until a read fails. */
    method ReadAll<Payload(!new)>(codec: Codec<Payload>, maxBytes: nat) returns (payloads: seq<Payload>, error: FrameError)
      modifies this
      ensures (payloads, error) == AllReceived(codec, Streaming, old(pending), maxBytes)
    {
      payloads := [];
      while true
        invariant AllReceived(codec, Streaming, old(pending), maxBytes).0
                  == payloads + AllReceived(codec, Streaming, pending, maxBytes).0
        invariant AllReceived(codec, Streaming, old(pending), maxBytes).1
                  == AllReceived(codec, Streaming, pending, maxBytes).1
        decreases |pending|
      {
        var result := ReadFrame(codec, maxBytes);
        match result {
          case Err(e) =>
            assert payloads + [] == payloads;
            return payloads, e;
          case Ok(payload) => payloads := payloads + [payload];
        }
      }
    }
  }

  /** Frames read until one fails, and how it fails. */
  function AllReceived<Payload(!new)>(codec: Codec<Payload>, side: Side, data: Bytes, maxBytes: nat): (seq<Payload>, FrameError)
    decreases |data|
  {
    match Received(codec, side, data, maxBytes)
    case (Err(error), _) => ([], error)
    case (Ok(payload), rest) =>
      var (more, error) := AllReceived(codec, side, rest, maxBytes);
      ([payload] + more, error)
  }

  predicate Fits<Payload(!new)>(codec: Codec<Payload>, payload: Payload, maxBytes: nat) {
    EncodeFrame(codec, payload, maxBytes).Ok?
  }

  function Frame<Payload(!new)>(codec: Codec<Payload>, payload: Payload, maxBytes: nat): Bytes
    requires Fits(codec, payload, maxBytes)
  {
    EncodeFrame(codec, payload, maxBytes).value
  }

  /** The byte stream of a list of payloads. */
  function Sent<Payload(!new)>(codec: Codec<Payload>, payloads: seq<Payload>, maxBytes: nat): Bytes
    requires forall p <- payloads :: Fits(codec, p, maxBytes)
  {
    if payloads == [] then [] else Frame(codec, payloads[0], maxBytes) + Sent(codec, payloads[1..], maxBytes)
  }

  /** The layout on the wire: four bytes with the length of the body, the highest first, and the body. */
  lemma FrameLayout<Payload(!new)>(codec: Codec<Payload>, payload: Payload, maxBytes: nat)
    requires Fits(codec, payload, maxBytes)
    ensures var frame, body := Frame(codec, payload, maxBytes), codec.dump(payload);
            && |frame| == 4 + |body| && frame[4..] == body
            && var a: int, b: int, c: int, d: int := frame[0], frame[1], frame[2], frame[3];
               a * 16777216 + b * 65536 + c * 256 + d == |body|
  {
    UnpackPack(|codec.dump(payload)|);
    assert Frame(codec, payload, maxBytes)[..4] == Pack(|codec.dump(payload)|);
  }

  /** One frame comes back whatever follows it. */
  lemma FrameRoundTrip<Payload(!new)>(codec: Codec<Payload>, side: Side, payload: Payload, rest: Bytes, maxBytes: nat)
    requires RoundTrips(codec) && Fits(codec, payload, maxBytes)
    ensures Received(codec, side, Frame(codec, payload, maxBytes) + rest, maxBytes) == (Ok(payload), rest)
  {
    var body := codec.dump(payload);
    var data := Frame(codec, payload, maxBytes) + rest;
    UnpackPack(|body|);
    assert data[..HEADER_SIZE] == Pack(|body|);
    assert data[HEADER_SIZE..] == body + rest;
    assert (body + rest)[..|body|] == body && (body + rest)[|body|..] == rest;
  }

  /** A proper prefix of a frame is never decoded. */
  lemma CutFrame<Payload(!new)>(codec: Codec<Payload>, side: Side, payload: Payload, k: nat, maxBytes: nat)
    requires Fits(codec, payload, maxBytes) && k < |Frame(codec, payload, maxBytes)|
    ensures Received(codec, side, Frame(codec, payload, maxBytes)[..k], maxBytes) == (Err(CutError(side, k)), [])
  {
    var body := codec.dump(payload);
    if k >= HEADER_SIZE {
      UnpackPack(|body|);
      assert Frame(codec, payload, maxBytes)[..k][..HEADER_SIZE] == Pack(|body|);
    }
  }

  /** How a read fails that finds only k bytes of a frame. */
  function CutError(side: Side, k: nat): FrameError {
    if side == Streaming && k < HEADER_SIZE then EndOfStream else Truncated
  }

  /** How many whole frames the first k bytes hold, and how many bytes they leave over. */
  function Whole<Payload(!new)>(codec: Codec<Payload>, payloads: seq<Payload>, k: nat, maxBytes: nat): (r: (nat, nat))
    requires forall p <- payloads :: Fits(codec, p, maxBytes)
    ensures r.0 <= |payloads|
  {
    if payloads == [] || k < |Frame(codec, payloads[0], maxBytes)| then (0, k)
    else
      var (n, left) := Whole(codec, payloads[1..], k - |Frame(codec, payloads[0], maxBytes)|, maxBytes);
      (n + 1, left)
  }

  lemma WholeCons<Payload(!new)>(codec: Codec<Payload>, payloads: seq<Payload>, k: nat, maxBytes: nat)
    requires forall p <- payloads :: Fits(codec, p, maxBytes)
    requires payloads != [] && k >= |Frame(codec, payloads[0], maxBytes)|
    ensures var later := Whole(codec, payloads[1..], k - |Frame(codec, payloads[0], maxBytes)|, maxBytes);
            var all := Whole(codec, payloads, k, maxBytes);
            all.1 == later.1 && payloads[..all.0] == [payloads[0]] + payloads[1..][..later.0]
  {
  }

  lemma AllReceivedCons<Payload(!new)>(codec: Codec<Payload>, side: Side, payload: Payload, rest: Bytes, maxBytes: nat)
    requires RoundTrips(codec) && Fits(codec, payload, maxBytes)
    ensures var later := AllReceived(codec, side, rest, maxBytes);
            AllReceived(codec, side, Frame(codec, payload, maxBytes) + rest, maxBytes) == ([payload] + later.0, later.1)
  {
    FrameRoundTrip(codec, side, payload, rest, maxBytes);
  }

  /**
   A stream of frames cut anywhere yields exactly the frames that are whole, in order, and then an
   error; nothing is ever decoded from part of a frame.
   */
  lemma {:induction false} CutStream<Payload(!new)>(codec: Codec<Payload>, side: Side, payloads: seq<Payload>, k: nat, maxBytes: nat)
    requires RoundTrips(codec) && forall p <- payloads :: Fits(codec, p, maxBytes)
    requires k <= |Sent(codec, payloads, maxBytes)|
    ensures var (n, left) := Whole(codec, payloads, k, maxBytes);
            AllReceived(codec, side, Sent(codec, payloads, maxBytes)[..k], maxBytes) == (payloads[..n], CutError(side, left))
    decreases |payloads|
  {
    if payloads != [] {
      var data := Sent(codec, payloads, maxBytes);
      var frame := Frame(codec, payloads[0], maxBytes);
      if k < |frame| {
        assert data[..k] == frame[..k];
        CutFrame(codec, side, payloads[0], k, maxBytes);
      } else {
        var rest := Sent(codec, payloads[1..], maxBytes)[..k - |frame|];
        assert data[..k] == frame + rest;
        AllReceivedCons(codec, side, payloads[0], rest, maxBytes);
        CutStream(codec, side, payloads[1..], k - |frame|, maxBytes);
        WholeCons(codec, payloads, k, maxBytes);
      }
    }
  }

  /** Uncut, the stream yields exactly the list, and then its end. */
  lemma {:induction false} WholeStream<Payload(!new)>(codec: Codec<Payload>, side: Side, payloads: seq<Payload>, maxBytes: nat)
    requires RoundTrips(codec) && forall p <- payloads :: Fits(codec, p, maxBytes)
    ensures AllReceived(codec, side, Sent(codec, payloads, maxBytes), maxBytes) == (payloads, CutError(side, 0))
    decreases |payloads|
  {
    if payloads != [] {
      AllReceivedCons(codec, side, payloads[0], Sent(codec, payloads[1..], maxBytes), maxBytes);
      WholeStream(codec, side, payloads[1..], maxBytes);
      assert payloads == [payloads[0]] + payloads[1..];
    }
  }

  /** A frame declared too large is refused on its header alone. */
  lemma OversizeRefused<Payload(!new)>(codec: Codec<Payload>, side: Side, length: nat, rest: Bytes, maxBytes: nat)
    requires maxBytes < length < 0x1_0000_0000
    ensures Received(codec, side, Pack(length) + rest, maxBytes) == (Err(TooLarge), rest)
  {
    UnpackPack(length);
    assert (Pack(length) + rest)[..HEADER_SIZE] == Pack(length);
  }

  /** Exactly the payloads within the limit are encoded, when the limit fits the length field, as the default does. */
  lemma EncodesUpToLimit<Payload(!new)>(codec: Codec<Payload>, payload: Payload, maxBytes: nat)
    requires maxBytes <= MAX_REQUEST_BYTES
    ensures Fits(codec, payload, maxBytes) <==> |codec.dump(payload)| <= maxBytes
    ensures MAX_REQUEST_BYTES == 16777216
  {
  }
}
