// PlayerData as both programs write and read it, and the way it takes from one
// client through the server to another.

module PlayerCodec {
  import opened GameData
  import opened Wire

  // ----- layout -----

  function ModeNumber(m: GameMode): Byte {
    match m
    case Cube => 0
    case Ship => 1
    case Ball => 2
    case Ufo => 3
    case Wave => 4
    case Robot => 5
    case Spider => 6
    case NoMode => 255
  }

  // `numberToGm` of the client, which throws on any other number.
  function ModeOf(n: Byte): Option<GameMode> {
    if n == 0 then Some(Cube)
    else if n == 1 then Some(Ship)
    else if n == 2 then Some(Ball)
    else if n == 3 then Some(Ufo)
    else if n == 4 then Some(Wave)
    else if n == 5 then Some(Robot)
    else if n == 6 then Some(Spider)
    else None
  }

  function IconFlags(i: Icon<Word>): (r: Byte) {
    Bit(i.hidden, 0) + Bit(i.dashing, 1) + Bit(i.upsideDown, 2) + Bit(i.mini, 3) + Bit(i.grounded, 4)
  }

  function PlayerFlags(p: Player<Word>): (r: Byte) {
    Bit(p.practice, 0) + Bit(p.dead, 1) + Bit(p.paused, 2)
  }

  function EncodeIcon(i: Icon<Word>): (r: seq<Byte>)
    ensures |r| == 14
  {
    U32(i.x) + U32(i.y) + U32(i.rot) + [ModeNumber(i.mode), IconFlags(i)]
  }

  function EncodePlayer(p: Player<Word>): (r: seq<Byte>)
    ensures |r| == 41
  {
    U32(p.timestamp) + EncodeIcon(p.player1) + EncodeIcon(p.player2) + U32(p.camX) + U32(p.camY) + [PlayerFlags(p)]
  }

  // What 14 bytes mean once the mode byte has been interpreted.
  function IconFields(b: seq<Byte>, mode: GameMode): Icon<Word>
    requires |b| == 14
  {
    Icon(FromU32(b[..4]), FromU32(b[4..8]), FromU32(b[8..12]), mode,
         BitAt(b[13], 0), BitAt(b[13], 1), BitAt(b[13], 2), BitAt(b[13], 3), BitAt(b[13], 4))
  }

  function PlayerFields(b: seq<Byte>, mode1: GameMode, mode2: GameMode): Player<Word>
    requires |b| == 41
  {
    Player(FromU32(b[..4]), IconFields(b[4..18], mode1), IconFields(b[18..32], mode2),
           FromU32(b[32..36]), FromU32(b[36..40]), BitAt(b[40], 0), BitAt(b[40], 1), BitAt(b[40], 2))
  }

  // The client refuses unknown modes, the server takes them for Cube.
  function ClientDecode(b: seq<Byte>): Option<Player<Word>>
    requires |b| == 41
  {
    var m1, m2 := ModeOf(b[16]), ModeOf(b[30]);
    if m1.Some? && m2.Some? then Some(PlayerFields(b, m1.value, m2.value)) else None
  }

  function ModeOrCube(n: Byte): GameMode {
    if ModeOf(n).Some? then ModeOf(n).value else Cube
  }

  function ServerDecode(b: seq<Byte>): ServerPlayer
    requires |b| == 41
  {
    PlayerFields(b, ModeOrCube(b[16]), ModeOrCube(b[30]))
  }

  // A record sits at position p of a longer buffer.
  function TakePlayer(d: seq<Byte>, p: nat): Option<Player<Word>> {
    if p + 41 <= |d| then ClientDecode(d[p..p + 41]) else None
  }

  function ServerTakePlayer(d: seq<Byte>, p: nat): Option<ServerPlayer> {
    if p + 41 <= |d| then Some(ServerDecode(d[p..p + 41])) else None
  }

  function TakeIcon(d: seq<Byte>, p: nat): Option<Icon<Word>> {
    if p + 14 <= |d| && ModeOf(d[p + 12]).Some? then Some(IconFields(d[p..p + 14], ModeOf(d[p + 12]).value)) else None
  }

  function ServerTakeIcon(d: seq<Byte>, p: nat): Option<Icon<Word>> {
    if p + 14 <= |d| then Some(IconFields(d[p..p + 14], ModeOrCube(d[p + 12]))) else None
  }

  lemma SegmentsOf(d: seq<Byte>, p: nat)
    requires p + 41 <= |d|
    ensures var b := d[p..p + 41];
            && b[..4] == d[p..p + 4] && b[4..18] == d[p + 4..p + 18] && b[18..32] == d[p + 18..p + 32]
            && b[32..36] == d[p + 32..p + 36] && b[36..40] == d[p + 36..p + 40]
            && b[16] == d[p + 16] && b[30] == d[p + 30] && b[40] == d[p + 40]
  {
    SubSlice(d, p, 41, 0, 4);
    SubSlice(d, p, 41, 4, 18);
    SubSlice(d, p, 41, 18, 32);
    SubSlice(d, p, 41, 32, 36);
    SubSlice(d, p, 41, 36, 40);
  }

  lemma IconSegmentsOf(d: seq<Byte>, p: nat)
    requires p + 14 <= |d|
    ensures var b := d[p..p + 14];
            b[..4] == d[p..p + 4] && b[4..8] == d[p + 4..p + 8] && b[8..12] == d[p + 8..p + 12] && b[13] == d[p + 13]
  {
    SubSlice(d, p, 14, 0, 4);
    SubSlice(d, p, 14, 4, 8);
    SubSlice(d, p, 14, 8, 12);
  }

  // Reading a record is reading its parts in order.
  lemma PlayerByParts(d: seq<Byte>, p: nat)
    ensures var i1, i2 := TakeIcon(d, p + 4), TakeIcon(d, p + 18);
            TakePlayer(d, p) ==
              if p + 41 <= |d| && i1.Some? && i2.Some? then
                Some(Player(FromU32(d[p..p + 4]), i1.value, i2.value, FromU32(d[p + 32..p + 36]),
                            FromU32(d[p + 36..p + 40]),
                            BitAt(d[p + 40], 0), BitAt(d[p + 40], 1), BitAt(d[p + 40], 2)))
              else None
  {
    if p + 41 <= |d| { SegmentsOf(d, p); }
  }

  lemma ServerPlayerByParts(d: seq<Byte>, p: nat)
    ensures var i1, i2 := ServerTakeIcon(d, p + 4), ServerTakeIcon(d, p + 18);
            ServerTakePlayer(d, p) ==
              if p + 41 <= |d| then
                Some(Player(FromU32(d[p..p + 4]), i1.value, i2.value, FromU32(d[p + 32..p + 36]),
                            FromU32(d[p + 36..p + 40]),
                            BitAt(d[p + 40], 0), BitAt(d[p + 40], 1), BitAt(d[p + 40], 2)))
              else None
  {
    if p + 41 <= |d| { SegmentsOf(d, p); }
  }

  // ----- round trips -----

  lemma FlagsRoundTrip(h: bool, d: bool, u: bool, m: bool, g: bool)
    ensures var b := Bit(h, 0) + Bit(d, 1) + Bit(u, 2) + Bit(m, 3) + Bit(g, 4);
            BitAt(b, 0) == h && BitAt(b, 1) == d && BitAt(b, 2) == u && BitAt(b, 3) == m && BitAt(b, 4) == g
  {
    var b := Bit(h, 0) + Bit(d, 1) + Bit(u, 2) + Bit(m, 3) + Bit(g, 4);
    var n0 := if h then 1 else 0;
    var n1 := 2 * n0 + if d then 1 else 0;
    var n2 := 2 * n1 + if u then 1 else 0;
    var n3 := 2 * n2 + if m then 1 else 0;
    var n4 := 2 * n3 + if g then 1 else 0;
    assert b == 8 * n4;
    assert b / 0x80 == n0 && b / 0x40 == n1 && b / 0x20 == n2 && b / 0x10 == n3 && b / 8 == n4;
  }

  lemma IconRoundTrip(i: Icon<Word>)
    ensures IconFields(EncodeIcon(i), i.mode) == i
  {
    var b := EncodeIcon(i);
    assert b[..4] == U32(i.x) && b[4..8] == U32(i.y) && b[8..12] == U32(i.rot);
    WordRoundTrip(i.x);
    WordRoundTrip(i.y);
    WordRoundTrip(i.rot);
    FlagsRoundTrip(i.hidden, i.dashing, i.upsideDown, i.mini, i.grounded);
  }

  lemma PlayerSegments(p: Player<Word>)
    ensures var b := EncodePlayer(p);
            && b[..4] == U32(p.timestamp) && b[4..18] == EncodeIcon(p.player1) && b[18..32] == EncodeIcon(p.player2)
            && b[32..36] == U32(p.camX) && b[36..40] == U32(p.camY) && b[40] == PlayerFlags(p)
            && b[16] == ModeNumber(p.player1.mode) && b[30] == ModeNumber(p.player2.mode)
  {
    var b := EncodePlayer(p);
    assert b[16] == b[4..18][12] && b[30] == b[18..32][12];
  }

  lemma PlayerRoundTrip(p: Player<Word>)
    ensures PlayerFields(EncodePlayer(p), p.player1.mode, p.player2.mode) == p
  {
    PlayerSegments(p);
    WordRoundTrip(p.timestamp);
    WordRoundTrip(p.camX);
    WordRoundTrip(p.camY);
    IconRoundTrip(p.player1);
    IconRoundTrip(p.player2);
    FlagsRoundTrip(p.practice, p.dead, p.paused, false, false);
  }

  // What stands where in a record.
  lemma IconLayout(i: Icon<Word>)
    ensures var b := EncodeIcon(i);
            && FromU32(b[0..4]) == i.x && FromU32(b[4..8]) == i.y && FromU32(b[8..12]) == i.rot
            && b[12] == (match i.mode
                         case Cube => 0
                         case Ship => 1
                         case Ball => 2
                         case Ufo => 3
                         case Wave => 4
                         case Robot => 5
                         case Spider => 6
                         case NoMode => 255)
            && b[13] == (if i.hidden then 128 else 0) + (if i.dashing then 64 else 0)
                        + (if i.upsideDown then 32 else 0) + (if i.mini then 16 else 0) + (if i.grounded then 8 else 0)
  {
    var b := EncodeIcon(i);
    assert b[0..4] == U32(i.x) && b[4..8] == U32(i.y) && b[8..12] == U32(i.rot);
    WordRoundTrip(i.x);
    WordRoundTrip(i.y);
    WordRoundTrip(i.rot);
  }

  lemma PlayerLayout(p: Player<Word>)
    ensures var b := EncodePlayer(p);
            && FromU32(b[0..4]) == p.timestamp
            && b[4..18] == EncodeIcon(p.player1) && b[18..32] == EncodeIcon(p.player2)
            && FromU32(b[32..36]) == p.camX && FromU32(b[36..40]) == p.camY
            && b[40] == (if p.practice then 128 else 0) + (if p.dead then 64 else 0) + (if p.paused then 32 else 0)
  {
    PlayerSegments(p);
    WordRoundTrip(p.timestamp);
    WordRoundTrip(p.camX);
    WordRoundTrip(p.camY);
  }

  // What a client's record is after it went through the server.
  function Served(p: Player<Word>): ServerPlayer {
    p.(player1 := p.player1.(mode := if p.player1.mode == NoMode then Cube else p.player1.mode),
       player2 := p.player2.(mode := if p.player2.mode == NoMode then Cube else p.player2.mode))
  }

  lemma ServerReadsClient(p: Player<Word>)
    ensures ServerDecode(EncodePlayer(p)) == Served(p)
  {
    PlayerSegments(p);
    PlayerRoundTrip(p);
  }

  lemma ClientReadsServer(p: ServerPlayer)
    ensures ClientDecode(EncodePlayer(p)) == Some(p)
  {
    PlayerSegments(p);
    PlayerRoundTrip(p);
  }

  // Main result: client A's record reaches client B through the server, unchanged
  // exactly when neither icon's mode is NONE.
  lemma RelayIsFaithful(p: Player<Word>)
    ensures ClientDecode(EncodePlayer(ServerDecode(EncodePlayer(p)))) == Some(Served(p))
    ensures ClientDecode(EncodePlayer(ServerDecode(EncodePlayer(p)))) == Some(p) <==> HasModes(p)
  {
    ServerReadsClient(p);
    ClientReadsServer(Served(p));
  }

  // Without the server in between, a NONE mode cannot be read back at all.
  lemma ClientReadsClient(p: Player<Word>)
    ensures ClientDecode(EncodePlayer(p)) == if HasModes(p) then Some(p) else None
  {
    PlayerSegments(p);
    PlayerRoundTrip(p);
  }

  // For every body a packet may carry: storing and sending it on normalises it once,
  // a second time changes nothing, and every client can read the result.
  lemma ServingIsProjection(b: seq<Byte>)
    requires |b| == 41
    ensures var served := EncodePlayer(ServerDecode(b));
            && EncodePlayer(ServerDecode(served)) == served
            && ClientDecode(served) == Some(ServerDecode(b))
  {
    var p := ServerDecode(b);
    ServerReadsClient(p);
    ClientReadsServer(p);
  }

  function KnownMode(n: Byte): Byte {
    if n <= 6 then n else 0
  }

  // The highest bits of a byte, the others cleared.
  function HighBits(b: Byte, weight: nat): Byte
    requires weight > 0
  {
    b / weight * weight
  }

  lemma SecondBit(b: Byte)
    ensures b / 0x40 == b / 0x80 * 2 + b / 0x40 % 2
  {
  }

  lemma ThirdBit(b: Byte)
    ensures b / 0x20 == b / 0x40 * 2 + b / 0x20 % 2
  {
  }

  lemma FourthBit(b: Byte)
    ensures b / 0x10 == b / 0x20 * 2 + b / 0x10 % 2
  {
  }

  lemma FifthBit(b: Byte)
    ensures b / 8 == b / 0x10 * 2 + b / 8 % 2
  {
  }

  lemma TopFlags(b: Byte)
    ensures Bit(BitAt(b, 0), 0) + Bit(BitAt(b, 1), 1) + Bit(BitAt(b, 2), 2) == HighBits(b, 32)
  {
    SecondBit(b);
    ThirdBit(b);
    assert b / 0x80 < 2;
  }

  lemma FlagsAreHighBits(b: Byte)
    ensures Bit(BitAt(b, 0), 0) + Bit(BitAt(b, 1), 1) + Bit(BitAt(b, 2), 2) == HighBits(b, 32)
    ensures Bit(BitAt(b, 0), 0) + Bit(BitAt(b, 1), 1) + Bit(BitAt(b, 2), 2) + Bit(BitAt(b, 3), 3) + Bit(BitAt(b, 4), 4)
              == HighBits(b, 8)
  {
    TopFlags(b);
    FourthBit(b);
    FifthBit(b);
  }

  // What the server makes of the bytes of an icon.
  function ServedIcon(b: seq<Byte>): (r: seq<Byte>)
    requires |b| == 14
  {
    b[..12] + [KnownMode(b[12]), HighBits(b[13], 8)]
  }

  lemma IconIsServed(b: seq<Byte>)
    requires |b| == 14
    ensures EncodeIcon(IconFields(b, ModeOrCube(b[12]))) == ServedIcon(b)
  {
    BytesRoundTrip(b[..4]);
    BytesRoundTrip(b[4..8]);
    BytesRoundTrip(b[8..12]);
    FlagsAreHighBits(b[13]);
    assert b[..4] + b[4..8] + b[8..12] == b[..12];
  }

  lemma JoinedBody(b: seq<Byte>, p: Player<Word>)
    requires |b| == 41 && U32(p.timestamp) == b[..4] && U32(p.camX) == b[32..36] && U32(p.camY) == b[36..40]
    requires EncodeIcon(p.player1) == ServedIcon(b[4..18]) && EncodeIcon(p.player2) == ServedIcon(b[18..32])
    requires PlayerFlags(p) == HighBits(b[40], 32)
    ensures EncodePlayer(p)
         == b[..4] + ServedIcon(b[4..18]) + ServedIcon(b[18..32]) + b[32..40] + [HighBits(b[40], 32)]
  {
    assert b[32..36] + b[36..40] == b[32..40];
  }

  // Main result: of any body the server sends every byte on as it was, except that an unknown mode
  // becomes 0 and bits that are no flags are cleared.
  lemma BodyIsServed(b: seq<Byte>)
    requires |b| == 41
    ensures EncodePlayer(ServerDecode(b))
         == b[..4] + ServedIcon(b[4..18]) + ServedIcon(b[18..32]) + b[32..40] + [HighBits(b[40], 32)]
  {
    BytesRoundTrip(b[..4]);
    IconIsServed(b[4..18]);
    IconIsServed(b[18..32]);
    BytesRoundTrip(b[32..36]);
    BytesRoundTrip(b[36..40]);
    FlagsAreHighBits(b[40]);
    JoinedBody(b, ServerDecode(b));
  }

  // ----- the client's code -----

  method EncodeSpecificIcon(i: Icon<Word>, buffer: ByteBuffer)
    modifies buffer
    ensures buffer.data == old(buffer.data) + EncodeIcon(i)
  {
    buffer.WriteF32(i.x);
    buffer.WriteF32(i.y);
    buffer.WriteF32(i.rot);
    buffer.WriteU8(ModeNumber(i.mode));
    var flags := 0;
    if i.hidden { flags := flags + BitValue(0); }
    if i.dashing { flags := flags + BitValue(1); }
    if i.upsideDown { flags := flags + BitValue(2); }
    if i.mini { flags := flags + BitValue(3); }
    if i.grounded { flags := flags + BitValue(4); }
    buffer.WriteU8(flags);
  }

  // Appending the parts of a record one by one appends the record.
  lemma AppendedParts(start: seq<Byte>, p: Player<Word>)
    ensures start + U32(p.timestamp) + EncodeIcon(p.player1) + EncodeIcon(p.player2)
              + U32(p.camX) + U32(p.camY) + [PlayerFlags(p)] == start + EncodePlayer(p)
  {
    var a, b, c, d, e := U32(p.timestamp), EncodeIcon(p.player1), EncodeIcon(p.player2), U32(p.camX), U32(p.camY);
    Assoc(start, a, b);
    Assoc(start, a + b, c);
    Assoc(start, a + b + c, d);
    Assoc(start, a + b + c + d, e);
    Assoc(start, a + b + c + d + e, [PlayerFlags(p)]);
  }

  method EncodePlayerData(p: Player<Word>, buffer: ByteBuffer)
    modifies buffer
    ensures buffer.data == old(buffer.data) + EncodePlayer(p)
  {
    ghost var start := buffer.data;
    buffer.WriteF32(p.timestamp);
    EncodeSpecificIcon(p.player1, buffer);
    EncodeSpecificIcon(p.player2, buffer);
    buffer.WriteF32(p.camX);
    buffer.WriteF32(p.camY);
    var flags := 0;
    if p.practice { flags := flags + BitValue(0); }
    if p.dead { flags := flags + BitValue(1); }
    if p.paused { flags := flags + BitValue(2); }
    buffer.WriteU8(flags);
    AppendedParts(start, p);
  }

  method DecodeSpecificIcon(buffer: ByteBuffer) returns (r: Option<Icon<Word>>)
    modifies buffer`position
    ensures r == TakeIcon(buffer.data, old(buffer.position))
    ensures r.Some? ==> buffer.position == old(buffer.position) + 14
  {
    ghost var start := buffer.position;
    var x := buffer.ReadF32();
    if x.None? { return None; }
    var y := buffer.ReadF32();
    if y.None? { return None; }
    var rot := buffer.ReadF32();
    if rot.None? { return None; }
    var n := buffer.ReadU8();
    if n.None? { return None; }
    var mode := ModeOf(n.value);
    if mode.None? { return None; }
    var flags := buffer.ReadU8();
    if flags.None? { return None; }
    var f := flags.value;
    IconSegmentsOf(buffer.data, start);
    r := Some(Icon(x.value, y.value, rot.value, mode.value,
                   BitAt(f, 0), BitAt(f, 1), BitAt(f, 2), BitAt(f, 3), BitAt(f, 4)));
  }

  method DecodePlayerData(buffer: ByteBuffer) returns (r: Option<Player<Word>>)
    modifies buffer`position
    ensures r == TakePlayer(buffer.data, old(buffer.position))
    ensures r.Some? ==> buffer.position == old(buffer.position) + 41
  {
    PlayerByParts(buffer.data, buffer.position);
    var timestamp := buffer.ReadF32();
    if timestamp.None? { return None; }
    var player1 := DecodeSpecificIcon(buffer);
    if player1.None? { return None; }
    var player2 := DecodeSpecificIcon(buffer);
    if player2.None? { return None; }
    var camX := buffer.ReadF32();
    if camX.None? { return None; }
    var camY := buffer.ReadF32();
    if camY.None? { return None; }
    var flags := buffer.ReadU8();
    if flags.None? { return None; }
    var f := flags.value;
    r := Some(Player(timestamp.value, player1.value, player2.value, camX.value, camY.value,
                     BitAt(f, 0), BitAt(f, 1), BitAt(f, 2)));
  }

  // ----- the server's code -----

  lemma BumpLast(data: seq<Byte>, before: seq<Byte>, f: Byte, x: int)
    requires data == before + [f] && 0 <= f + x < 0x100
    ensures data[|data| - 1 := data[|data| - 1] + x] == before + [f + x]
  {
  }

  // One more flag in the byte that is being filled.
  method WriteFlag(buf: BitBuffer, ghost before: seq<Byte>, ghost f: Byte, bit: bool)
    requires buf.Valid() && 0 < buf.used && buf.data == before + [f] && f + Bit(bit, buf.used) < 0x100
    modifies buf
    ensures buf.Valid() && buf.used == (old(buf.used) + 1) % 8
    ensures buf.data == before + [f + Bit(bit, old(buf.used))]
  {
    BumpLast(buf.data, before, f, Bit(bit, buf.used));
    buf.WriteBit(bit);
  }

  method WriteIconFlags(buf: BitBuffer, i: Icon<Word>)
    requires buf.Valid() && buf.used == 0
    modifies buf
    ensures buf.Valid() && buf.used == 5 && buf.data == old(buf.data) + [IconFlags(i)]
  {
    ghost var before, f := buf.data, Bit(i.hidden, 0);
    buf.WriteBit(i.hidden);
    WriteFlag(buf, before, f, i.dashing);
    f := f + Bit(i.dashing, 1);
    WriteFlag(buf, before, f, i.upsideDown);
    f := f + Bit(i.upsideDown, 2);
    WriteFlag(buf, before, f, i.mini);
    f := f + Bit(i.mini, 3);
    WriteFlag(buf, before, f, i.grounded);
  }

  method ServerEncodeSpecific(buf: BitBuffer, i: Icon<Word>)
    requires buf.Valid()
    modifies buf
    ensures buf.Valid() && buf.used == 0 && buf.data == old(buf.data) + EncodeIcon(i)
  {
    buf.WriteBytes(U32(i.x));
    buf.WriteBytes(U32(i.y));
    buf.WriteBytes(U32(i.rot));
    buf.WriteBytes([ModeNumber(i.mode)]);
    WriteIconFlags(buf, i);
    buf.FlushBits();
  }

  // The three bits are left in an open byte, which the next write closes.
  method WritePlayerFlags(buf: BitBuffer, p: ServerPlayer)
    requires buf.Valid() && buf.used == 0
    modifies buf
    ensures buf.Valid() && buf.data == old(buf.data) + [PlayerFlags(p)]
  {
    ghost var before := buf.data;
    buf.WriteBit(p.practice);
    assert buf.data == before + [Bit(p.practice, 0)];
    buf.WriteBit(p.dead);
    buf.WriteBit(p.paused);
  }

  method ServerEncode(buf: BitBuffer, p: ServerPlayer)
    requires buf.Valid()
    modifies buf
    ensures buf.Valid() && buf.data == old(buf.data) + EncodePlayer(p)
  {
    ghost var start := buf.data;
    buf.WriteBytes(U32(p.timestamp));
    ServerEncodeSpecific(buf, p.player1);
    ServerEncodeSpecific(buf, p.player2);
    buf.WriteBytes(U32(p.camX));
    buf.WriteBytes(U32(p.camY));
    WritePlayerFlags(buf, p);
    AppendedParts(start, p);
  }

  method ReadIconFlags(buf: BitReader) returns (r: Option<(bool, bool, bool, bool, bool)>)
    requires buf.used == 0
    modifies buf
    ensures var p := old(buf.position);
            r == if p < |buf.data| then Some((BitAt(buf.data[p], 0), BitAt(buf.data[p], 1), BitAt(buf.data[p], 2),
                                              BitAt(buf.data[p], 3), BitAt(buf.data[p], 4)))
                 else None
    ensures r.Some? ==> buf.position == old(buf.position) + 1 && buf.used == 0
  {
    var hidden := buf.ReadBit();
    if hidden.None? { return None; }
    var dashing := buf.ReadBit();
    if dashing.None? { return None; }
    var upsideDown := buf.ReadBit();
    if upsideDown.None? { return None; }
    var mini := buf.ReadBit();
    if mini.None? { return None; }
    var grounded := buf.ReadBit();
    if grounded.None? { return None; }
    buf.FlushBits();
    r := Some((hidden.value, dashing.value, upsideDown.value, mini.value, grounded.value));
  }

  method ReadPlayerFlags(buf: BitReader) returns (r: Option<(bool, bool, bool)>)
    requires buf.used == 0
    modifies buf
    ensures var p := old(buf.position);
            r == if p < |buf.data| then Some((BitAt(buf.data[p], 0), BitAt(buf.data[p], 1), BitAt(buf.data[p], 2)))
                 else None
  {
    var practice := buf.ReadBit();
    if practice.None? { return None; }
    var dead := buf.ReadBit();
    if dead.None? { return None; }
    var paused := buf.ReadBit();
    if paused.None? { return None; }
    r := Some((practice.value, dead.value, paused.value));
  }

  method ServerDecodeSpecific(buf: BitReader) returns (r: Option<Icon<Word>>)
    requires buf.used == 0
    modifies buf
    ensures r == ServerTakeIcon(buf.data, old(buf.position))
    ensures r.Some? ==> buf.position == old(buf.position) + 14 && buf.used == 0
  {
    ghost var start := buf.position;
    var x := buf.ReadF32();
    if x.None? { return None; }
    var y := buf.ReadF32();
    if y.None? { return None; }
    var rot := buf.ReadF32();
    if rot.None? { return None; }
    var n := buf.ReadU8();
    if n.None? { return None; }
    var flags := ReadIconFlags(buf);
    if flags.None? { return None; }
    IconSegmentsOf(buf.data, start);
    r := Some(Icon(x.value, y.value, rot.value, ModeOrCube(n.value),
                   flags.value.0, flags.value.1, flags.value.2, flags.value.3, flags.value.4));
  }

  method ServerDecodePlayer(buf: BitReader) returns (r: Option<ServerPlayer>)
    requires buf.used == 0
    modifies buf
    ensures r == ServerTakePlayer(buf.data, old(buf.position))
  {
    ServerPlayerByParts(buf.data, buf.position);
    var timestamp := buf.ReadF32();
    if timestamp.None? { return None; }
    var player1 := ServerDecodeSpecific(buf);
    if player1.None? { return None; }
    var player2 := ServerDecodeSpecific(buf);
    if player2.None? { return None; }
    var camX := buf.ReadF32();
    if camX.None? { return None; }
    var camY := buf.ReadF32();
    if camY.None? { return None; }
    var flags := ReadPlayerFlags(buf);
    if flags.None? { return None; }
    r := Some(Player(timestamp.value, player1.value, player2.value, camX.value, camY.value,
                     flags.value.0, flags.value.1, flags.value.2));
  }
}
