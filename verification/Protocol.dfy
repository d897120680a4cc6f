/** The message codec of src/common/Protocol.hpp: the eight messages, the encoder with its
    datagram cap, and the decoder that trusts nothing. */
module Protocol {
  import opened Numbers
  import opened Wire

  const VERSION: uint32 := 2
  const MAX_DATAGRAM: nat := 1200
  const MAX_STRING_SIZE: uint16 := 256
  const HEADER_SIZE: nat := 4
  const NO_FLAGS: uint8 := 0
  const RELIABLE: uint8 := 1

  datatype Type =
    | InvalidType
    | HelloType
    | HelloAckType
    | PingType
    | PongType
    | PlayerStateType
    | NotifyPlayerStateType
    | NotifyPlayerJoinedType
    | NotifyPlayerLeftType

  datatype Message =
    | Hello(version: uint32, username: Bytes)
    | HelloAck(accepted: bool, version: uint32, reason: Bytes)
    | Ping(sentAt: uint64)
    | Pong(sentAt: uint64)
    | PlayerState(tick: uint64, position: Vec3, rotation: Float32)
    | NotifyPlayerState(playerId: uint32, tick: uint64, position: Vec3, rotation: Float32)
    | NotifyPlayerJoined(playerId: uint32, username: Bytes)
    | NotifyPlayerLeft(playerId: uint32)

  datatype Header = Header(kind: Type, flags: uint8, size: uint16)

  function Code(t: Type): uint8 {
    match t
    case InvalidType => 0
    case HelloType => 1
    case HelloAckType => 2
    case PingType => 3
    case PongType => 4
    case PlayerStateType => 5
    case NotifyPlayerStateType => 6
    case NotifyPlayerJoinedType => 7
    case NotifyPlayerLeftType => 8
  }

  // Codes past the last message, and the reserved zero, name no message.
  function TypeOfCode(code: uint8): (t: Type)
    ensures t != InvalidType <==> 1 <= code <= 8
    ensures t != InvalidType ==> Code(t) == code
  {
    match code
    case 1 => HelloType
    case 2 => HelloAckType
    case 3 => PingType
    case 4 => PongType
    case 5 => PlayerStateType
    case 6 => NotifyPlayerStateType
    case 7 => NotifyPlayerJoinedType
    case 8 => NotifyPlayerLeftType
    case _ => InvalidType
  }

  function TypeOf(m: Message): (t: Type)
    ensures t != InvalidType
  {
    match m
    case Hello(_, _) => HelloType
    case HelloAck(_, _, _) => HelloAckType
    case Ping(_) => PingType
    case Pong(_) => PongType
    case PlayerState(_, _, _) => PlayerStateType
    case NotifyPlayerState(_, _, _, _) => NotifyPlayerStateType
    case NotifyPlayerJoined(_, _) => NotifyPlayerJoinedType
    case NotifyPlayerLeft(_) => NotifyPlayerLeftType
  }

  function FlagsOf(m: Message): uint8 {
    if m.Hello? || m.HelloAck? || m.NotifyPlayerJoined? || m.NotifyPlayerLeft? then RELIABLE else NO_FLAGS
  }

  // The one string a message may carry.
  function Text(m: Message): Bytes {
    match m
    case Hello(_, username) => username
    case HelloAck(_, _, reason) => reason
    case NotifyPlayerJoined(_, username) => username
    case _ => []
  }

  predicate ShortText(m: Message) {
    |Text(m)| <= MAX_STRING_SIZE
  }

  // ---------------------------------------------------------------- encoding

  function Motion(position: Vec3, rotation: Float32): Bytes {
    LE32(position.x) + (LE32(position.y) + (LE32(position.z) + LE32(rotation)))
  }

  function Body(m: Message): Bytes {
    match m
    case Hello(version, username) => LE32(version) + LEStr(username)
    case HelloAck(accepted, version, reason) => [if accepted then 1 else 0] + (LE32(version) + LEStr(reason))
    case Ping(sentAt) => LE64(sentAt)
    case Pong(sentAt) => LE64(sentAt)
    case PlayerState(tick, position, rotation) => LE64(tick) + Motion(position, rotation)
    case NotifyPlayerState(playerId, tick, position, rotation) =>
      LE32(playerId) + (LE64(tick) + Motion(position, rotation))
    case NotifyPlayerJoined(playerId, username) => LE32(playerId) + LEStr(username)
    case NotifyPlayerLeft(playerId) => LE32(playerId)
  }

  // The size of the body, counted without writing it.
  function BodySize(m: Message): nat {
    match m
    case Hello(_, username) => 6 + |username|
    case HelloAck(_, _, reason) => 7 + |reason|
    case Ping(_) => 8
    case Pong(_) => 8
    case PlayerState(_, _, _) => 24
    case NotifyPlayerState(_, _, _, _) => 28
    case NotifyPlayerJoined(_, username) => 6 + |username|
    case NotifyPlayerLeft(_) => 4
  }

  lemma BodySizeExact(m: Message)
    ensures |Body(m)| == BodySize(m)
  {
  }

  predicate Encodable(m: Message) {
    HEADER_SIZE + BodySize(m) <= MAX_DATAGRAM
  }

  function Frame(m: Message): (data: Bytes)
    requires Encodable(m)
    ensures |data| == HEADER_SIZE + BodySize(m)
  {
    BodySizeExact(m);
    [Code(TypeOf(m)), FlagsOf(m)] + LE16(BodySize(m)) + Body(m)
  }

  // Every message without a string is far below the cap; a string is what can exceed it, and a
  // string that fits always has an exact length prefix.
  lemma EncodableByText(m: Message)
    ensures BodySize(m) <= 28 + |Text(m)|
    ensures m.Hello? || m.NotifyPlayerJoined? ==> (Encodable(m) <==> |Text(m)| <= 1190)
    ensures m.HelloAck? ==> (Encodable(m) <==> |Text(m)| <= 1189)
    ensures !m.Hello? && !m.HelloAck? && !m.NotifyPlayerJoined? ==> Encodable(m)
    ensures ShortText(m) ==> Encodable(m)
    ensures Encodable(m) ==> |Text(m)| % TWO_16 == |Text(m)|
  {
  }

  // In particular everything the server sends: its names and reasons are all short.
  lemma ShortTextFits(m: Message)
    requires ShortText(m)
    ensures Encodable(m)
  {
    EncodableByText(m);
  }

  // Appends the fields of one message, in wire order.
  method WriteBody(w: Writer, m: Message)
    modifies w
    ensures w.buffer == old(w.buffer) + Body(m)
  {
    if m.Hello? || m.HelloAck? || m.NotifyPlayerJoined? {
      WriteWithText(w, m);
    } else if m.PlayerState? || m.NotifyPlayerState? {
      WriteWithMotion(w, m);
    } else if m.NotifyPlayerLeft? {
      w.U32(m.playerId);
    } else {
      w.U64(m.sentAt);
    }
  }

  method WriteWithText(w: Writer, m: Message)
    requires m.Hello? || m.HelloAck? || m.NotifyPlayerJoined?
    modifies w
    ensures w.buffer == old(w.buffer) + Body(m)
  {
    if m.HelloAck? {
      w.U8(if m.accepted then 1 else 0);
    }
    WriteNumberAndText(w, if m.NotifyPlayerJoined? then m.playerId else m.version, Text(m));
  }

  method WriteWithMotion(w: Writer, m: Message)
    requires m.PlayerState? || m.NotifyPlayerState?
    modifies w
    ensures w.buffer == old(w.buffer) + Body(m)
  {
    if m.NotifyPlayerState? {
      w.U32(m.playerId);
    }
    WriteTickAndMotion(w, m.tick, m.position, m.rotation);
  }

  method WriteNumberAndText(w: Writer, number: uint32, text: Bytes)
    modifies w
    ensures w.buffer == old(w.buffer) + (LE32(number) + LEStr(text))
  {
    w.U32(number);
    w.Str(text);
  }

  method WriteTickAndMotion(w: Writer, tick: uint64, position: Vec3, rotation: Float32)
    modifies w
    ensures w.buffer == old(w.buffer) + (LE64(tick) + Motion(position, rotation))
  {
    w.U64(tick);
    WriteMotion(w, position, rotation);
  }

  method WriteMotion(w: Writer, position: Vec3, rotation: Float32)
    modifies w
    ensures w.buffer == old(w.buffer) + Motion(position, rotation)
  {
    w.U32(position.x);
    w.U32(position.y);
    w.U32(position.z);
    w.U32(rotation);
  }

  method WriteHeader(w: Writer, h: Header)
    modifies w
    ensures w.buffer == old(w.buffer) + ([Code(h.kind), h.flags] + LE16(h.size))
  {
    w.U8(Code(h.kind));
    w.U8(h.flags);
    w.U16(h.size);
  }

  // The size field is written as zero and patched once the body is known.
  method Encode(m: Message) returns (out: Option<Bytes>)
    ensures out.Some? <==> Encodable(m)
    ensures out.Some? ==> out.value == Frame(m)
  {
    hide Body, BodySize;
    var w := new Writer();
    WriteHeader(w, Header(TypeOf(m), FlagsOf(m), 0));
    WriteBody(w, m);
    BodySizeExact(m);

    var bodySize := |w.buffer| - HEADER_SIZE;
    if |w.buffer| > MAX_DATAGRAM || bodySize > 0xFFFF {
      return None;
    }
    PatchedSize([Code(TypeOf(m)), FlagsOf(m)], Body(m), bodySize);
    w.buffer := w.buffer[2 := bodySize % TWO_8];
    w.buffer := w.buffer[3 := bodySize / TWO_8 % TWO_8];
    return Some(w.buffer);
  }

  lemma PatchedSize(start: Bytes, body: Bytes, size: uint16)
    requires |start| == 2
    ensures (start + LE16(0) + body)[2 := size % TWO_8][3 := size / TWO_8 % TWO_8] == start + LE16(size) + body
  {
  }

  // ---------------------------------------------------------------- decoding

  function TakeMotion(c: Cursor): (Cursor, Option<(Vec3, Float32)>) {
    var (c1, x) := TakeU32(c);
    if x.None? then (c1, None) else
    var (c2, y) := TakeU32(c1);
    if y.None? then (c2, None) else
    var (c3, z) := TakeU32(c2);
    if z.None? then (c3, None) else
    var (c4, rotation) := TakeU32(c3);
    if rotation.None? then (c4, None) else
    (c4, Some((Vec3(x.value, y.value, z.value), rotation.value)))
  }

  function TakeHello(c: Cursor): (Cursor, Option<Message>) {
    var (c1, version) := TakeU32(c);
    if version.None? then (c1, None) else
    var (c2, username) := TakeStr(c1, MAX_STRING_SIZE);
    if username.None? then (c2, None) else (c2, Some(Hello(version.value, username.value)))
  }

  // Any byte but zero reads as true.
  function TakeHelloAck(c: Cursor): (Cursor, Option<Message>) {
    var (c1, raw) := TakeU8(c);
    if raw.None? then (c1, None) else
    var (c2, version) := TakeU32(c1);
    if version.None? then (c2, None) else
    var (c3, reason) := TakeStr(c2, MAX_STRING_SIZE);
    if reason.None? then (c3, None) else (c3, Some(HelloAck(raw.value != 0, version.value, reason.value)))
  }

  function TakePing(c: Cursor): (Cursor, Option<Message>) {
    var (c1, sentAt) := TakeU64(c);
    if sentAt.None? then (c1, None) else (c1, Some(Ping(sentAt.value)))
  }

  function TakePong(c: Cursor): (Cursor, Option<Message>) {
    var (c1, sentAt) := TakeU64(c);
    if sentAt.None? then (c1, None) else (c1, Some(Pong(sentAt.value)))
  }

  function TakePlayerState(c: Cursor): (Cursor, Option<Message>) {
    var (c1, tick) := TakeU64(c);
    if tick.None? then (c1, None) else
    var (c2, motion) := TakeMotion(c1);
    if motion.None? then (c2, None) else (c2, Some(PlayerState(tick.value, motion.value.0, motion.value.1)))
  }

  function TakeNotifyPlayerState(c: Cursor): (Cursor, Option<Message>) {
    var (c1, playerId) := TakeU32(c);
    if playerId.None? then (c1, None) else
    var (c2, tick) := TakeU64(c1);
    if tick.None? then (c2, None) else
    var (c3, motion) := TakeMotion(c2);
    if motion.None? then (c3, None) else
    (c3, Some(NotifyPlayerState(playerId.value, tick.value, motion.value.0, motion.value.1)))
  }

  function TakeNotifyPlayerJoined(c: Cursor): (Cursor, Option<Message>) {
    var (c1, playerId) := TakeU32(c);
    if playerId.None? then (c1, None) else
    var (c2, username) := TakeStr(c1, MAX_STRING_SIZE);
    if username.None? then (c2, None) else (c2, Some(NotifyPlayerJoined(playerId.value, username.value)))
  }

  function TakeNotifyPlayerLeft(c: Cursor): (Cursor, Option<Message>) {
    var (c1, playerId) := TakeU32(c);
    if playerId.None? then (c1, None) else (c1, Some(NotifyPlayerLeft(playerId.value)))
  }

  function TakeBody(c: Cursor, t: Type): (Cursor, Option<Message>) {
    match t
    case InvalidType => (c, None)
    case HelloType => TakeHello(c)
    case HelloAckType => TakeHelloAck(c)
    case PingType => TakePing(c)
    case PongType => TakePong(c)
    case PlayerStateType => TakePlayerState(c)
    case NotifyPlayerStateType => TakeNotifyPlayerState(c)
    case NotifyPlayerJoinedType => TakeNotifyPlayerJoined(c)
    case NotifyPlayerLeftType => TakeNotifyPlayerLeft(c)
  }

  function TakeHeader(c: Cursor): (r: (Cursor, Option<Header>))
    ensures r.0.data == c.data
  {
    var (c1, rawType) := TakeU8(c);
    if rawType.None? then (c1, None) else
    var (c2, flags) := TakeU8(c1);
    if flags.None? then (c2, None) else
    var (c3, size) := TakeU16(c2);
    if size.None? then (c3, None) else
    var t := TypeOfCode(rawType.value);
    if t == InvalidType then (c3, None) else (c3, Some(Header(t, flags.value, size.value)))
  }

  function PeekHeader(data: Bytes): Option<Header> {
    TakeHeader(Cursor(data, 0, false)).1
  }

  function Decode(data: Bytes, t: Type): Option<Message> {
    var (c, header) := TakeHeader(Cursor(data, 0, false));
    if header.None? || header.value.kind != t then None
    else if header.value.size != Remaining(c) then None
    else TakeBody(c, t).1
  }

  // ---------------------------------------------------------------- what decoding means

  // The header announces this message type and exactly the bytes that follow it.
  predicate Framed(data: Bytes, t: Type) {
    && |data| >= HEADER_SIZE
    && data[0] == Code(t)
    && data[2] + TWO_8 * data[3] == |data| - HEADER_SIZE
  }

  // The unread bytes start with the body of m. The acceptance byte of an ack may be any nonzero
  // value; what follows the body is not looked at.
  predicate BodyAt(c: Cursor, m: Message) {
    match m
    case HelloAck(accepted, version, reason) =>
      && Available(c, 1)
      && accepted == (c.data[c.offset] != 0)
      && At(Advance(c, 1), LE32(version) + LEStr(reason))
    case _ => At(c, Body(m))
  }

  function AfterHeader(data: Bytes): Cursor
    requires |data| >= HEADER_SIZE
  {
    Cursor(data, HEADER_SIZE, false)
  }

  lemma PeekHeaderExact(data: Bytes)
    ensures PeekHeader(data).Some? <==> |data| >= HEADER_SIZE && 1 <= data[0] <= 8
    ensures PeekHeader(data).Some? ==>
              && Code(PeekHeader(data).value.kind) == data[0]
              && PeekHeader(data).value.kind != InvalidType
              && PeekHeader(data).value.size == data[2] + TWO_8 * data[3]
              && TakeHeader(Cursor(data, 0, false)).0 == AfterHeader(data)
  {
  }

  lemma TakeMotionExact(c: Cursor, position: Vec3, rotation: Float32)
    ensures TakeMotion(c).1 == Some((position, rotation)) <==> At(c, Motion(position, rotation))
  {
    hide TakeU32, LE32;
    AtConcat(c, LE32(position.x), LE32(position.y) + (LE32(position.z) + LE32(rotation)));
    TakeU32Exact(c, position.x);
    if At(c, LE32(position.x)) {
      var c1 := Advance(c, 4);
      AtConcat(c1, LE32(position.y), LE32(position.z) + LE32(rotation));
      TakeU32Exact(c1, position.y);
      if At(c1, LE32(position.y)) {
        var c2 := Advance(c1, 4);
        AtConcat(c2, LE32(position.z), LE32(rotation));
        TakeU32Exact(c2, position.z);
        if At(c2, LE32(position.z)) {
          TakeU32Exact(Advance(c2, 4), rotation);
        }
      }
    }
  }

  lemma TakeHelloExact(c: Cursor, m: Message)
    requires m.Hello?
    ensures TakeHello(c).1 == Some(m) <==> ShortText(m) && At(c, Body(m))
  {
    hide TakeU32, TakeStr, LE32, LEStr;
    AtConcat(c, LE32(m.version), LEStr(m.username));
    TakeU32Exact(c, m.version);
    if At(c, LE32(m.version)) {
      TakeStrExact(Advance(c, 4), MAX_STRING_SIZE, m.username);
    }
  }

  lemma TakeHelloAckExact(c: Cursor, m: Message)
    requires m.HelloAck?
    ensures TakeHelloAck(c).1 == Some(m) <==> ShortText(m) && BodyAt(c, m)
  {
    hide TakeU32, TakeStr, LE32, LEStr;
    if Available(c, 1) {
      var c1 := Advance(c, 1);
      AtConcat(c1, LE32(m.version), LEStr(m.reason));
      TakeU32Exact(c1, m.version);
      if At(c1, LE32(m.version)) {
        TakeStrExact(Advance(c1, 4), MAX_STRING_SIZE, m.reason);
      }
    }
  }

  lemma TakePlayerStateExact(c: Cursor, m: Message)
    requires m.PlayerState?
    ensures TakePlayerState(c).1 == Some(m) <==> At(c, Body(m))
  {
    hide TakeU32, TakeU64, TakeMotion, LE32, LE64, Motion;
    AtConcat(c, LE64(m.tick), Motion(m.position, m.rotation));
    TakeU64Exact(c, m.tick);
    if At(c, LE64(m.tick)) {
      TakeMotionExact(Advance(c, 8), m.position, m.rotation);
    }
  }

  lemma TakeNotifyPlayerStateExact(c: Cursor, m: Message)
    requires m.NotifyPlayerState?
    ensures TakeNotifyPlayerState(c).1 == Some(m) <==> At(c, Body(m))
  {
    hide TakeU32, TakeU64, TakeMotion, LE32, LE64, Motion;
    AtConcat(c, LE32(m.playerId), LE64(m.tick) + Motion(m.position, m.rotation));
    TakeU32Exact(c, m.playerId);
    if At(c, LE32(m.playerId)) {
      var c1 := Advance(c, 4);
      AtConcat(c1, LE64(m.tick), Motion(m.position, m.rotation));
      TakeU64Exact(c1, m.tick);
      if At(c1, LE64(m.tick)) {
        TakeMotionExact(Advance(c1, 8), m.position, m.rotation);
      }
    }
  }

  lemma TakeNotifyPlayerJoinedExact(c: Cursor, m: Message)
    requires m.NotifyPlayerJoined?
    ensures TakeNotifyPlayerJoined(c).1 == Some(m) <==> ShortText(m) && At(c, Body(m))
  {
    hide TakeU32, TakeStr, LE32, LEStr;
    AtConcat(c, LE32(m.playerId), LEStr(m.username));
    TakeU32Exact(c, m.playerId);
    if At(c, LE32(m.playerId)) {
      TakeStrExact(Advance(c, 4), MAX_STRING_SIZE, m.username);
    }
  }

  // What is read as one type is a message of that type.
  lemma TakeBodyKind(c: Cursor, t: Type)
    ensures TakeBody(c, t).1.Some? ==> TypeOf(TakeBody(c, t).1.value) == t
  {
    hide TakeU8, TakeU32, TakeU64, TakeStr, TakeMotion;
  }

  lemma TakeNumberExact(c: Cursor, m: Message)
    requires m.Ping? || m.Pong? || m.NotifyPlayerLeft?
    ensures TakeBody(c, TypeOf(m)).1 == Some(m) <==> At(c, Body(m))
  {
    hide TakeU32, TakeU64, LE32, LE64;
    if m.NotifyPlayerLeft? {
      TakeU32Exact(c, m.playerId);
    } else {
      TakeU64Exact(c, m.sentAt);
    }
  }

  lemma TakeBodyExact(c: Cursor, t: Type, m: Message)
    ensures TakeBody(c, t).1 == Some(m) <==> t == TypeOf(m) && ShortText(m) && BodyAt(c, m)
  {
    if t == TypeOf(m) {
      TakeOwnBodyExact(c, m);
    } else {
      TakeBodyKind(c, t);
    }
  }

  lemma TakeOwnBodyExact(c: Cursor, m: Message)
    ensures TakeBody(c, TypeOf(m)).1 == Some(m) <==> ShortText(m) && BodyAt(c, m)
  {
    hide TakeHello, TakeHelloAck, TakePlayerState, TakeNotifyPlayerState, TakeNotifyPlayerJoined, Body, At;
    match m {
      case Hello(_, _) => TakeHelloExact(c, m);
      case HelloAck(_, _, _) => TakeHelloAckExact(c, m);
      case PlayerState(_, _, _) => TakePlayerStateExact(c, m);
      case NotifyPlayerState(_, _, _, _) => TakeNotifyPlayerStateExact(c, m);
      case NotifyPlayerJoined(_, _) => TakeNotifyPlayerJoinedExact(c, m);
      case _ => TakeNumberExact(c, m);
    }
  }

  // Decoding, on every byte string and for every expected type: it returns m exactly when the
  // frame names that type and its own length, m's string is within the cap, and the body of m
  // comes right after the header. Flags and leftover bytes are ignored.
  lemma DecodeExact(data: Bytes, t: Type, m: Message)
    ensures Decode(data, t) == Some(m) <==>
              t == TypeOf(m) && Framed(data, t) && ShortText(m) && BodyAt(AfterHeader(data), m)
  {
    hide TakeBody, BodyAt;
    PeekHeaderExact(data);
    if |data| >= HEADER_SIZE {
      TakeBodyExact(AfterHeader(data), t, m);
    }
  }

  // ---------------------------------------------------------------- round trip

  lemma FrameIsFramed(m: Message)
    requires Encodable(m)
    ensures Framed(Frame(m), TypeOf(m))
    ensures BodyAt(AfterHeader(Frame(m)), m)
  {
    var data := Frame(m);
    BodySizeExact(m);
    assert data[2..4] == LE16(BodySize(m));
    assert data[HEADER_SIZE..] == Body(m);
    var c := AfterHeader(data);
    assert At(c, Body(m));
    if m.HelloAck? {
      AtConcat(c, [if m.accepted then 1 else 0], LE32(m.version) + LEStr(m.reason));
    }
  }

  // Decoding an encoded message as its own type gives it back unchanged when its string is
  // within the cap and gives nothing otherwise; decoding it as any other type gives nothing.
  lemma RoundTrip(m: Message, t: Type)
    requires Encodable(m)
    ensures Decode(Frame(m), t) == if t == TypeOf(m) && ShortText(m) then Some(m) else None
  {
    FrameIsFramed(m);
    DecodeExact(Frame(m), t, m);
    if Decode(Frame(m), t).Some? {
      OnlyReading(m, t, Decode(Frame(m), t).value);
    }
  }

  lemma OnlyReading(m: Message, t: Type, n: Message)
    requires Encodable(m) && Decode(Frame(m), t) == Some(n)
    ensures t == TypeOf(m) && ShortText(m)
  {
    hide Decode, BodyAt, Frame;
    FrameIsFramed(m);
    DecodeExact(Frame(m), t, n);
    assert Code(TypeOf(m)) == Code(t);
    EncodableByText(m);
    SameTextSize(AfterHeader(Frame(m)), m, n);
  }

  // Two messages of one type whose bodies stand at the same place have equally long strings.
  lemma SameTextSize(c: Cursor, m: Message, n: Message)
    requires TypeOf(m) == TypeOf(n) && BodyAt(c, m) && BodyAt(c, n)
    requires |Text(m)| < TWO_16 && |Text(n)| < TWO_16
    ensures |Text(m)| == |Text(n)|
  {
    if TextOffset(m) > 0 {
      TextLengthAt(c, m);
      TextLengthAt(c, n);
      AtUnique(Advance(c, TextOffset(m)), LE16(|Text(m)|), LE16(|Text(n)|));
    }
  }

  // Where the length prefix of a message's string stands in its body; 0 without a string.
  function TextOffset(m: Message): nat {
    match m
    case Hello(_, _) => 4
    case HelloAck(_, _, _) => 5
    case NotifyPlayerJoined(_, _) => 4
    case _ => 0
  }

  lemma TextLengthAt(c: Cursor, m: Message)
    requires TextOffset(m) > 0 && BodyAt(c, m) && |Text(m)| < TWO_16
    ensures Available(c, TextOffset(m)) && At(Advance(c, TextOffset(m)), LE16(|Text(m)|))
  {
    var number := if m.NotifyPlayerJoined? then m.playerId else m.version;
    var c1 := if m.HelloAck? then Advance(c, 1) else c;
    NumberThenLength(c1, number, Text(m));
  }

  lemma NumberThenLength(c: Cursor, number: uint32, text: Bytes)
    requires |text| < TWO_16 && At(c, LE32(number) + LEStr(text))
    ensures Available(c, 4) && At(Advance(c, 4), LE16(|text|))
  {
    AtConcat(c, LE32(number), LEStr(text));
    AtConcat(Advance(c, 4), LE16(|text|), text);
  }

  // ---------------------------------------------------------------- the stateful decoder

  method ReadMotion(r: Reader) returns (motion: Option<(Vec3, Float32)>)
    requires r.Valid()
    modifies r
    ensures r.Valid() && (r.View(), motion) == TakeMotion(old(r.View()))
  {
    var x := r.U32();
    if x.None? {
      return None;
    }
    var y := r.U32();
    if y.None? {
      return None;
    }
    var z := r.U32();
    if z.None? {
      return None;
    }
    var rotation := r.U32();
    if rotation.None? {
      return None;
    }
    return Some((Vec3(x.value, y.value, z.value), rotation.value));
  }

  method ReadHelloAck(r: Reader) returns (m: Option<Message>)
    requires r.Valid()
    modifies r
    ensures r.Valid() && (r.View(), m) == TakeHelloAck(old(r.View()))
  {
    var raw := r.U8();
    if raw.None? {
      return None;
    }
    var version := r.U32();
    if version.None? {
      return None;
    }
    var reason := r.Str(MAX_STRING_SIZE);
    return if reason.None? then None else Some(HelloAck(raw.value != 0, version.value, reason.value));
  }

  method ReadPlayerState(r: Reader) returns (m: Option<Message>)
    requires r.Valid()
    modifies r
    ensures r.Valid() && (r.View(), m) == TakePlayerState(old(r.View()))
  {
    var tick := r.U64();
    if tick.None? {
      return None;
    }
    var motion := ReadMotion(r);
    return if motion.None? then None else Some(PlayerState(tick.value, motion.value.0, motion.value.1));
  }

  method ReadNotifyPlayerState(r: Reader) returns (m: Option<Message>)
    requires r.Valid()
    modifies r
    ensures r.Valid() && (r.View(), m) == TakeNotifyPlayerState(old(r.View()))
  {
    var playerId := r.U32();
    if playerId.None? {
      return None;
    }
    var tick := r.U64();
    if tick.None? {
      return None;
    }
    var motion := ReadMotion(r);
    return if motion.None? then None
      else Some(NotifyPlayerState(playerId.value, tick.value, motion.value.0, motion.value.1));
  }

  // Hello and the join notice have the same layout: a 32-bit number and a bounded string.
  method ReadNumberAndText(r: Reader) returns (v: Option<(uint32, Bytes)>)
    requires r.Valid()
    modifies r
    ensures r.Valid()
    ensures v.Some? <==> TakeHello(old(r.View())).1.Some?
    ensures v.Some? ==> TakeHello(old(r.View())).1.value == Hello(v.value.0, v.value.1)
    ensures r.View() == TakeHello(old(r.View())).0
  {
    var number := r.U32();
    if number.None? {
      return None;
    }
    var text := r.Str(MAX_STRING_SIZE);
    return if text.None? then None else Some((number.value, text.value));
  }

  method ReadBody(r: Reader, t: Type) returns (m: Option<Message>)
    requires r.Valid()
    modifies r
    ensures r.Valid() && (r.View(), m) == TakeBody(old(r.View()), t)
  {
    match t {
      case InvalidType =>
        m := None;
      case HelloType =>
        var v := ReadNumberAndText(r);
        m := if v.None? then None else Some(Hello(v.value.0, v.value.1));
      case HelloAckType =>
        m := ReadHelloAck(r);
      case PingType =>
        var sentAt := r.U64();
        m := if sentAt.None? then None else Some(Ping(sentAt.value));
      case PongType =>
        var sentAt := r.U64();
        m := if sentAt.None? then None else Some(Pong(sentAt.value));
      case PlayerStateType =>
        m := ReadPlayerState(r);
      case NotifyPlayerStateType =>
        m := ReadNotifyPlayerState(r);
      case NotifyPlayerJoinedType =>
        var v := ReadNumberAndText(r);
        m := if v.None? then None else Some(NotifyPlayerJoined(v.value.0, v.value.1));
      case NotifyPlayerLeftType =>
        var playerId := r.U32();
        m := if playerId.None? then None else Some(NotifyPlayerLeft(playerId.value));
    }
  }

  method ReadHeader(r: Reader) returns (h: Option<Header>)
    requires r.Valid()
    modifies r
    ensures r.Valid() && (r.View(), h) == TakeHeader(old(r.View()))
  {
    var rawType := r.U8();
    if rawType.None? {
      return None;
    }
    var flags := r.U8();
    if flags.None? {
      return None;
    }
    var size := r.U16();
    if size.None? {
      return None;
    }
    var t := TypeOfCode(rawType.value);
    return if t == InvalidType then None else Some(Header(t, flags.value, size.value));
  }

  method DecodeMessage(data: Bytes, t: Type) returns (m: Option<Message>)
    ensures m == Decode(data, t)
  {
    var r := new Reader(data);
    var header := ReadHeader(r);
    if header.None? || header.value.kind != t {
      return None;
    }
    var left := r.Left();
    if header.value.size != left {
      return None;
    }
    m := ReadBody(r, t);
  }
}
