// Whole packets: what the client sends and the server parses, what the server
// answers and the client reads in counted loops.

module Packets {
  import opened Collections
  import opened GameData
  import opened ServerState
  import opened Wire
  import opened PlayerCodec
  import opened AccountCodec

  const CHECK_IN: Byte := 100
  const KEEPALIVE: Byte := 101
  const DISCONNECT: Byte := 102
  const PING: Byte := 103
  const ACCOUNT_DATA_REQUEST: Byte := 104
  const LEVEL_LIST_REQUEST: Byte := 105
  const SEND_TEXT_MESSAGE: Byte := 106
  const USER_LEVEL_ENTRY: Byte := 110
  const USER_LEVEL_EXIT: Byte := 111
  const USER_LEVEL_DATA: Byte := 112
  const SPECTATE_NO_DATA: Byte := 113
  const CHECKED_IN: Byte := 200
  const KEEPALIVE_RESPONSE: Byte := 201
  const SERVER_DISCONNECT: Byte := 202
  const PING_RESPONSE: Byte := 203
  const ACCOUNT_DATA_RESPONSE: Byte := 204
  const LEVEL_LIST_RESPONSE: Byte := 205
  const LEVEL_DATA: Byte := 210
  const TEXT_MESSAGE_SENT: Byte := 211
  const SERVER_BROADCAST: Byte := 212

  // ----- from the client to the server -----

  // `utf8` says which strings are well-formed text.
  function ParseBody(kind: Byte, d: seq<Byte>, utf8: seq<Byte> -> bool): Option<Request> {
    if kind == CHECK_IN then Some(CheckIn(ServerTakeAccount(d, 9, utf8)))
    else if kind == KEEPALIVE then Some(Keepalive)
    else if kind == DISCONNECT then Some(Disconnect)
    else if kind == ACCOUNT_DATA_REQUEST then Some(AccountDataRequest(TakeI32(d, 9)))
    else if kind == LEVEL_LIST_REQUEST then Some(LevelListRequest)
    else if kind == SEND_TEXT_MESSAGE then
      var text := TakeString(d, 9);
      Some(SendTextMessage(if text.Some? && utf8(text.value) then text else None))
    else if kind == USER_LEVEL_ENTRY then Some(UserLevelEntry(TakeI32(d, 9)))
    else if kind == USER_LEVEL_EXIT then Some(UserLevelExit)
    else if kind == USER_LEVEL_DATA then Some(UserLevelData(ServerTakePlayer(d, 9)))
    else if kind == SPECTATE_NO_DATA then Some(SpectateNoData)
    else None
  }

  // The header as `handle_packet` reads it.
  function ParsePacket(d: seq<Byte>, utf8: seq<Byte> -> bool): Packet {
    match TakeU8(d, 0)
    case None => Unreadable
    case Some(kind) =>
      if kind == PING then Ping(TakeI32(d, 1))
      else
        var body := ParseBody(kind, d, utf8);
        var client, key := TakeI32(d, 1), TakeI32(d, 5);
        if body.Some? && client.Some? && key.Some? then FromClient(client.value, key.value, body.value) else Unreadable
  }

  function ClientMessage(kind: Byte, account: Int32, key: Int32, body: seq<Byte>): seq<Byte> {
    [kind] + I32(account) + I32(key) + body
  }

  lemma MessageLayout(kind: Byte, account: Int32, key: Int32, body: seq<Byte>)
    ensures var d := ClientMessage(kind, account, key, body);
            && |d| == 9 + |body| && TakeU8(d, 0) == Some(kind)
            && TakeI32(d, 1) == Some(account) && TakeI32(d, 5) == Some(key)
            && d[9..] == body
  {
    var d := ClientMessage(kind, account, key, body);
    assert d[1..5] == I32(account);
    assert d[5..9] == I32(key);
    SignedRoundTrip(account);
    SignedRoundTrip(key);
  }

  lemma HeaderIsParsed(kind: Byte, account: Int32, key: Int32, body: seq<Byte>, utf8: seq<Byte> -> bool)
    requires kind != PING
    ensures var d := ClientMessage(kind, account, key, body);
            var request := ParseBody(kind, d, utf8);
            ParsePacket(d, utf8) == if request.Some? then FromClient(account, key, request.value) else Unreadable
  {
    MessageLayout(kind, account, key, body);
  }

  // The server reads each packet of the client as what it is: first those that are only a header,
  lemma ServerParsesBare(account: Int32, key: Int32, utf8: seq<Byte> -> bool)
    ensures ParsePacket(ClientMessage(101, account, key, []), utf8) == FromClient(account, key, Keepalive)
    ensures ParsePacket(ClientMessage(102, account, key, []), utf8) == FromClient(account, key, Disconnect)
    ensures ParsePacket(ClientMessage(105, account, key, []), utf8) == FromClient(account, key, LevelListRequest)
    ensures ParsePacket(ClientMessage(111, account, key, []), utf8) == FromClient(account, key, UserLevelExit)
    ensures ParsePacket(ClientMessage(113, account, key, []), utf8) == FromClient(account, key, SpectateNoData)
  {
    HeaderIsParsed(101, account, key, [], utf8);
    HeaderIsParsed(102, account, key, [], utf8);
    HeaderIsParsed(105, account, key, [], utf8);
    HeaderIsParsed(111, account, key, [], utf8);
    HeaderIsParsed(113, account, key, [], utf8);
  }

  lemma NumberIsParsed(kind: Byte, account: Int32, key: Int32, n: Int32)
    ensures TakeI32(ClientMessage(kind, account, key, I32(n)), 9) == Some(n)
  {
    var d := ClientMessage(kind, account, key, I32(n));
    MessageLayout(kind, account, key, I32(n));
    assert d[9..9 + 4] == d[9..];
    SignedRoundTrip(n);
  }

  // then those with a number,
  lemma ServerParsesAccountRequest(account: Int32, key: Int32, target: Int32, utf8: seq<Byte> -> bool)
    ensures ParsePacket(ClientMessage(104, account, key, I32(target)), utf8)
              == FromClient(account, key, AccountDataRequest(Some(target)))
  {
    HeaderIsParsed(104, account, key, I32(target), utf8);
    NumberIsParsed(104, account, key, target);
  }

  lemma ServerParsesEntry(account: Int32, key: Int32, level: Int32, utf8: seq<Byte> -> bool)
    ensures ParsePacket(ClientMessage(110, account, key, I32(level)), utf8)
              == FromClient(account, key, UserLevelEntry(Some(level)))
  {
    HeaderIsParsed(110, account, key, I32(level), utf8);
    NumberIsParsed(110, account, key, level);
  }

  lemma ServerParsesPing(id: Int32, utf8: seq<Byte> -> bool)
    ensures ParsePacket([103] + I32(id), utf8) == Ping(Some(id))
  {
    var d: seq<Byte> := [103] + I32(id);
    assert d[1..1 + 4] == I32(id);
    SignedRoundTrip(id);
  }

  // a text, a frame or an account.
  lemma ServerParsesText(account: Int32, key: Int32, text: seq<Byte>, utf8: seq<Byte> -> bool)
    requires |text| < 0x1_0000_0000
    ensures ParsePacket(ClientMessage(106, account, key, Str(text)), utf8)
              == FromClient(account, key, SendTextMessage(if utf8(text) then Some(text) else None))
  {
    HeaderIsParsed(106, account, key, Str(text), utf8);
    MessageLayout(106, account, key, Str(text));
    StringIsRead(ClientMessage(106, account, key, Str(text)), 9, text);
  }

  lemma ServerParsesPlayerData(account: Int32, key: Int32, p: Player<Word>, utf8: seq<Byte> -> bool)
    ensures ParsePacket(ClientMessage(112, account, key, EncodePlayer(p)), utf8)
              == FromClient(account, key, UserLevelData(Some(Served(p))))
  {
    var d := ClientMessage(112, account, key, EncodePlayer(p));
    MessageLayout(112, account, key, EncodePlayer(p));
    assert d[9..9 + 41] == d[9..];
    ServerReadsClient(p);
  }

  lemma ServerParsesCheckIn(account: Int32, key: Int32, a: Account, utf8: seq<Byte> -> bool)
    requires |a.name| < 0x1_0000_0000 && utf8(a.name)
    ensures ParsePacket(ClientMessage(100, account, key, EncodeAccount(a)), utf8)
              == FromClient(account, key, CheckIn(Some(a)))
  {
    MessageLayout(100, account, key, EncodeAccount(a));
    AccountRoundTrip(ClientMessage(100, account, key, EncodeAccount(a)), 9, a);
  }

  // A packet without its body reaches its handler, and one of no kind, or without a whole header,
  // reaches none.
  lemma ServerParsesIncomplete(account: Int32, key: Int32, utf8: seq<Byte> -> bool)
    ensures ParsePacket(ClientMessage(100, account, key, []), utf8) == FromClient(account, key, CheckIn(None))
    ensures ParsePacket(ClientMessage(104, account, key, []), utf8)
              == FromClient(account, key, AccountDataRequest(None))
    ensures ParsePacket(ClientMessage(106, account, key, []), utf8) == FromClient(account, key, SendTextMessage(None))
    ensures ParsePacket(ClientMessage(110, account, key, []), utf8) == FromClient(account, key, UserLevelEntry(None))
    ensures ParsePacket(ClientMessage(112, account, key, []), utf8) == FromClient(account, key, UserLevelData(None))
    ensures ParsePacket([103], utf8) == Ping(None)
  {
    HeaderIsParsed(100, account, key, [], utf8);
    HeaderIsParsed(104, account, key, [], utf8);
    HeaderIsParsed(106, account, key, [], utf8);
    HeaderIsParsed(110, account, key, [], utf8);
    HeaderIsParsed(112, account, key, [], utf8);
    MessageLayout(100, account, key, []);
  }

  lemma ServerRefuses(d: seq<Byte>, utf8: seq<Byte> -> bool)
    ensures ParsePacket(d, utf8) == Unreadable <==>
              || d == []
              || (d[0] != 103 && |d| < 9)
              || d[0] !in {100, 101, 102, 103, 104, 105, 106, 110, 111, 112, 113}
  {
  }

  // ----- equal-sized blocks -----

  function Flatten<T>(blocks: seq<seq<T>>): seq<T> {
    if blocks == [] then [] else Flatten(blocks[..|blocks| - 1]) + blocks[|blocks| - 1]
  }

  predicate AllOfSize(blocks: seq<seq<Byte>>, size: nat) {
    forall i | 0 <= i < |blocks| :: |blocks[i]| == size
  }

  lemma {:induction false} FlattenLength(blocks: seq<seq<Byte>>, size: nat)
    requires AllOfSize(blocks, size)
    ensures |Flatten(blocks)| == |blocks| * size
  {
    if blocks != [] {
      FlattenLength(blocks[..|blocks| - 1], size);
      assert |blocks| * size == (|blocks| - 1) * size + size;
    }
  }

  lemma SliceOfSum(a: seq<Byte>, b: seq<Byte>, p: nat, n: nat)
    ensures p + n <= |a| ==> (a + b)[p..p + n] == a[p..p + n]
    ensures p == |a| && n == |b| ==> (a + b)[p..p + n] == b
  {
  }

  lemma {:induction false} FlattenAt(blocks: seq<seq<Byte>>, size: nat, i: nat, p: nat)
    requires AllOfSize(blocks, size) && i < |blocks| && p == i * size
    ensures p + size <= |Flatten(blocks)| && Flatten(blocks)[p..p + size] == blocks[i]
  {
    var init, last := blocks[..|blocks| - 1], blocks[|blocks| - 1];
    SliceOfSum(Flatten(init), last, p, size);
    if i < |init| {
      FlattenAt(init, size, i, p);
    } else {
      FlattenLength(init, size);
    }
  }

  lemma Middle(a: seq<Byte>, b: seq<Byte>, c: seq<Byte>)
    ensures (a + b + c)[|a|..|a| + |b|] == b
  {
  }

  lemma SliceAfter(a: seq<Byte>, b: seq<Byte>, q: nat, n: nat)
    requires q + n <= |b|
    ensures (a + b)[|a| + q..|a| + q + n] == b[q..q + n]
  {
  }

  lemma BlockAfterHeader(header: seq<Byte>, blocks: seq<seq<Byte>>, size: nat, i: nat, q: nat)
    requires AllOfSize(blocks, size) && i < |blocks| && q == i * size
    ensures var d, p := header + Flatten(blocks), |header| + q;
            p + size <= |d| && d[p..p + size] == blocks[i]
  {
    FlattenAt(blocks, size, i, q);
    SliceAfter(header, Flatten(blocks), q, size);
  }

  // ----- LevelData -----

  function PlayerEntry(id: Int32, p: ServerPlayer): (r: seq<Byte>)
    ensures |r| == 45
  {
    I32(id) + EncodePlayer(p)
  }

  function PlayerBlocks(order: seq<Int32>, level: LevelData): (r: seq<seq<Byte>>)
    requires Known(order, level.Keys)
    ensures AllOfSize(r, 45) && |r| == |order|
  {
    seq(|order|, i requires 0 <= i < |order| => PlayerEntry(order[i], level[order[i]]))
  }

  function LevelDataBytes(order: seq<Int32>, level: LevelData): seq<Byte>
    requires Known(order, level.Keys)
  {
    [LEVEL_DATA] + U16(|level| % 0x1_0000) + Flatten(PlayerBlocks(order, level))
  }

  // The client's counted loops: read entry i up to entry n into a map, skipping one
  // key; a key that is already there is not overwritten.
  function Collect<V>(read: nat -> Option<(Int32, V)>, i: nat, n: nat, own: Option<Int32>, got: map<Int32, V>)
    : Option<map<Int32, V>>
    decreases n - i
  {
    if i >= n then Some(got)
    else match read(i)
      case None => None
      case Some((id, v)) =>
        Collect(read, i + 1, n, own, if own == Some(id) || id in got then got else got[id := v])
  }

  function Without<V>(m: map<Int32, V>, own: Option<Int32>): map<Int32, V> {
    if own.Some? then m - {own.value} else m
  }

  // The first k entries of a map were collected.
  ghost predicate Collected<V>(order: seq<Int32>, m: map<Int32, V>, own: Option<Int32>, k: nat, got: map<Int32, V>)
    requires k <= |order|
  {
    && (forall id :: id in got <==> id in order[..k] && own != Some(id))
    && (forall id | id in got :: id in m && got[id] == m[id])
  }

  lemma CollectedOneMore<V>(order: seq<Int32>, m: map<Int32, V>, own: Option<Int32>, k: nat, got: map<Int32, V>)
    requires Enumerates(order, m.Keys) && k < |order| && Collected(order, m, own, k, got)
    ensures order[k] in m && order[k] !in got
    ensures Collected(order, m, own, k + 1, if own == Some(order[k]) then got else got[order[k] := m[order[k]]])
  {
    assert order[k] in order;
    assert order[..k + 1] == order[..k] + [order[k]];
  }

  lemma CollectedAll<V>(order: seq<Int32>, m: map<Int32, V>, own: Option<Int32>, got: map<Int32, V>)
    requires Enumerates(order, m.Keys) && Collected(order, m, own, |order|, got)
    ensures got == Without(m, own)
  {
    assert order[..|order|] == order;
    assert got.Keys == Without(m, own).Keys;
  }

  // Reading the entries of a map in any order collects the map.
  lemma {:induction false} CollectFinishes<V>(read: nat -> Option<(Int32, V)>, order: seq<Int32>, m: map<Int32, V>,
                                              own: Option<Int32>, k: nat, got: map<Int32, V>)
    requires Enumerates(order, m.Keys) && k <= |order| && Collected(order, m, own, k, got)
    requires forall i | 0 <= i < |order| :: order[i] in m && read(i) == Some((order[i], m[order[i]]))
    ensures Collect(read, k, |order|, own, got) == Some(Without(m, own))
    decreases |order| - k
  {
    if k == |order| {
      CollectedAll(order, m, own, got);
    } else {
      CollectedOneMore(order, m, own, k, got);
      CollectFinishes(read, order, m, own, k + 1, if own == Some(order[k]) then got else got[order[k] := m[order[k]]]);
    }
  }

  function FirstWith<V>(read: nat -> Option<(Int32, V)>, i: nat, n: nat, id: Int32): Option<V>
    decreases n - i
  {
    if i >= n then None
    else match read(i)
      case None => None
      case Some((x, v)) => if x == id then Some(v) else FirstWith(read, i + 1, n, id)
  }

  // Whatever the entries are: reading them fails exactly if one cannot be read, and of several with
  // one id the first counts.
  lemma {:induction false} FirstEntryCounts<V>(read: nat -> Option<(Int32, V)>, i: nat, n: nat, own: Option<Int32>,
                                               got: map<Int32, V>, id: Int32)
    ensures Collect(read, i, n, own, got).None? <==> exists k | i <= k < n :: read(k).None?
    ensures var r := Collect(read, i, n, own, got);
            r.Some? ==>
              && (id in r.value <==> id in got || (own != Some(id) && FirstWith(read, i, n, id).Some?))
              && (id in r.value ==> r.value[id] == if id in got then got[id] else FirstWith(read, i, n, id).value)
    decreases n - i
  {
    if i < n && read(i).Some? {
      var (x, v) := read(i).value;
      FirstEntryCounts(read, i + 1, n, own, if own == Some(x) || x in got then got else got[x := v], id);
    }
  }

  function TakeEntry(d: seq<Byte>, p: nat): Option<(Int32, Player<Word>)> {
    var id, player := TakeI32(d, p), TakePlayer(d, p + 4);
    if id.Some? && player.Some? then Some((id.value, player.value)) else None
  }

  function PlayerAt(d: seq<Byte>): nat -> Option<(Int32, Player<Word>)> {
    (i: nat) => TakeEntry(d, 3 + 45 * i)
  }

  lemma EntryIsRead(d: seq<Byte>, p: nat, id: Int32, player: ServerPlayer)
    requires p + 45 <= |d| && d[p..p + 45] == PlayerEntry(id, player)
    ensures TakeEntry(d, p) == Some((id, player))
  {
    SubSlice(d, p, 45, 0, 4);
    SubSlice(d, p, 45, 4, 45);
    assert PlayerEntry(id, player)[0..4] == I32(id);
    assert PlayerEntry(id, player)[4..45] == EncodePlayer(player);
    SignedRoundTrip(id);
    ClientReadsServer(player);
  }

  lemma EntryAt(d: seq<Byte>, i: nat, id: Int32, player: ServerPlayer)
    requires 3 + 45 * i + 45 <= |d| && d[3 + 45 * i..3 + 45 * i + 45] == PlayerEntry(id, player)
    ensures PlayerAt(d)(i) == Some((id, player))
  {
    EntryIsRead(d, 3 + 45 * i, id, player);
  }

  lemma PlayerBlockAt(order: seq<Int32>, level: LevelData, i: nat)
    requires Known(order, level.Keys) && i < |order|
    ensures var d, p := LevelDataBytes(order, level), 3 + 45 * i;
            p + 45 <= |d| && d[p..p + 45] == PlayerEntry(order[i], level[order[i]])
  {
    var header, blocks := [LEVEL_DATA] + U16(|level| % 0x1_0000), PlayerBlocks(order, level);
    assert |header| == 3;
    BlockAfterHeader(header, blocks, 45, i, 45 * i);
  }

  lemma BlockIsRead(order: seq<Int32>, level: LevelData, i: nat)
    requires Known(order, level.Keys) && i < |order|
    ensures PlayerAt(LevelDataBytes(order, level))(i) == Some((order[i], level[order[i]]))
  {
    PlayerBlockAt(order, level, i);
    EntryAt(LevelDataBytes(order, level), i, order[i], level[order[i]]);
  }

  lemma SnapshotEntries(order: seq<Int32>, level: LevelData, own: Option<Int32>)
    requires Enumerates(order, level.Keys)
    requires Known(order, level.Keys)
    ensures Collect(PlayerAt(LevelDataBytes(order, level)), 0, |order|, own, map[]) == Some(Without(level, own))
  {
    var d := LevelDataBytes(order, level);
    var players: map<Int32, Player<Word>> := level;
    forall i | 0 <= i < |order| ensures PlayerAt(d)(i) == Some((order[i], players[order[i]])) {
      BlockIsRead(order, level, i);
    }
    CollectFinishes(PlayerAt(d), order, players, own, 0, map[]);
  }

  lemma ShortHeader(kind: Byte, n: int, rest: seq<Byte>)
    requires 0 <= n < 0x1_0000
    ensures var d := [kind] + U16(n) + rest;
            |d| == 3 + |rest| && TakeU8(d, 0) == Some(kind) && TakeU16(d, 1) == Some(n)
  {
    Middle([kind], U16(n), rest);
    ShortRoundTrip(n);
  }

  lemma SnapshotStart(order: seq<Int32>, level: LevelData)
    requires Known(order, level.Keys)
    ensures var d, n := LevelDataBytes(order, level), |level| % 0x1_0000;
            |d| == 3 + 45 * |order| && TakeU8(d, 0) == Some(LEVEL_DATA) && TakeU16(d, 1) == Some(n)
  {
    FlattenLength(PlayerBlocks(order, level), 45);
    ShortHeader(LEVEL_DATA, |level| % 0x1_0000, Flatten(PlayerBlocks(order, level)));
  }

  lemma SnapshotHeader(order: seq<Int32>, level: LevelData)
    requires Enumerates(order, level.Keys) && |level| < 0x1_0000 && Known(order, level.Keys)
    ensures var d := LevelDataBytes(order, level);
            |order| == |level| && |d| == 3 + 45 * |level| && TakeU8(d, 0) == Some(LEVEL_DATA)
              && TakeU16(d, 1) == Some(|level|)
  {
    EnumerationLength(order, level.Keys);
    assert |level| == |level.Keys|;
    SnapshotStart(order, level);
  }

  // ----- LevelListResponse -----

  function CountEntry(level: Int32, count: nat): (r: seq<Byte>)
    ensures |r| == 6
  {
    I32(ToWireLevel(level)) + U16(count % 0x1_0000)
  }

  function CountBlocks(order: seq<Int32>, levels: map<Int32, LevelData>): (r: seq<seq<Byte>>)
    requires Known(order, levels.Keys)
    ensures AllOfSize(r, 6) && |r| == |order|
  {
    seq(|order|, i requires 0 <= i < |order| => CountEntry(order[i], |levels[order[i]]|))
  }

  function LevelListBytes(order: seq<Int32>, levels: map<Int32, LevelData>): seq<Byte>
    requires Known(order, levels.Keys)
  {
    [LEVEL_LIST_RESPONSE] + U32(|levels| % 0x1_0000_0000) + Flatten(CountBlocks(order, levels))
  }

  function TakeCount(d: seq<Byte>, p: nat): Option<(Int32, int)> {
    var id, n := TakeI32(d, p), TakeU16(d, p + 4);
    if id.Some? && n.Some? then Some((id.value, n.value)) else None
  }

  function CountAt(d: seq<Byte>): nat -> Option<(Int32, int)> {
    (i: nat) => TakeCount(d, 5 + 6 * i)
  }

  lemma WireLevelsAreDistinct(l: Int32, m: Int32)
    requires RealLevel(l) && RealLevel(m)
    ensures ToServerLevel(ToWireLevel(l)) == l
    ensures ToWireLevel(l) == ToWireLevel(m) ==> l == m
  {
  }

  function WireIds(ls: set<Int32>): set<Int32> {
    set l | l in ls :: ToWireLevel(l)
  }

  lemma WireIdsFacts(ls: set<Int32>)
    requires AreReal(ls)
    ensures forall w | w in WireIds(ls) :: ToServerLevel(w) in ls && ToWireLevel(ToServerLevel(w)) == w
    ensures |WireIds(ls)| == |ls|
  {
    forall w | w in WireIds(ls) ensures ToServerLevel(w) in ls && ToWireLevel(ToServerLevel(w)) == w {
      var l :| l in ls && w == ToWireLevel(l);
      WireLevelsAreDistinct(l, l);
    }
    if ls != {} {
      var l :| l in ls;
      WireIdsFacts(ls - {l});
      assert WireIds(ls) == WireIds(ls - {l}) + {ToWireLevel(l)};
      assert ToWireLevel(l) !in WireIds(ls - {l});
    }
  }

  // The list a client should see: every level under its wire id, with its size.
  function WireList(levels: map<Int32, LevelData>): map<Int32, int>
    requires AreReal(levels.Keys)
  {
    WireIdsFacts(levels.Keys);
    map w | w in WireIds(levels.Keys) :: |levels[ToServerLevel(w)]|
  }

  // One entry a level, with that level's count.
  lemma WireListFacts(levels: map<Int32, LevelData>)
    requires AreReal(levels.Keys)
    ensures |WireList(levels)| == |levels|
    ensures forall l | l in levels ::
              ToWireLevel(l) in WireList(levels) && WireList(levels)[ToWireLevel(l)] == |levels[l]|
    ensures forall w | w in WireList(levels) :: ToServerLevel(w) in levels && ToWireLevel(ToServerLevel(w)) == w
  {
    WireIdsFacts(levels.Keys);
    assert WireList(levels).Keys == WireIds(levels.Keys);
    forall l | l in levels
      ensures ToWireLevel(l) in WireList(levels) && WireList(levels)[ToWireLevel(l)] == |levels[l]|
    {
      WireLevelsAreDistinct(l, l);
    }
  }

  lemma CountEntryIsRead(d: seq<Byte>, p: nat, level: Int32, count: nat)
    requires count < 0x1_0000 && p + 6 <= |d| && d[p..p + 6] == CountEntry(level, count)
    ensures TakeCount(d, p) == Some((ToWireLevel(level), count))
  {
    SubSlice(d, p, 6, 0, 4);
    SubSlice(d, p, 6, 4, 6);
    assert CountEntry(level, count)[0..4] == I32(ToWireLevel(level));
    assert CountEntry(level, count)[4..6] == U16(count);
    SignedRoundTrip(ToWireLevel(level));
    ShortRoundTrip(count);
  }

  lemma SixByteBlockAt(header: seq<Byte>, blocks: seq<seq<Byte>>, i: nat)
    requires |header| == 5 && AllOfSize(blocks, 6) && i < |blocks|
    ensures var d := header + Flatten(blocks); 5 + 6 * i + 6 <= |d| && d[5 + 6 * i..5 + 6 * i + 6] == blocks[i]
  {
    BlockAfterHeader(header, blocks, 6, i, 6 * i);
  }

  lemma CountBlockAt(order: seq<Int32>, levels: map<Int32, LevelData>, i: nat)
    requires Known(order, levels.Keys) && i < |order|
    ensures var d, p := LevelListBytes(order, levels), 5 + 6 * i;
            p + 6 <= |d| && d[p..p + 6] == CountEntry(order[i], |levels[order[i]]|)
  {
    SixByteBlockAt([LEVEL_LIST_RESPONSE] + U32(|levels| % 0x1_0000_0000), CountBlocks(order, levels), i);
  }

  lemma CountBlockIsRead(order: seq<Int32>, levels: map<Int32, LevelData>, i: nat)
    requires Known(order, levels.Keys) && i < |order| && |levels[order[i]]| < 0x1_0000
    ensures CountAt(LevelListBytes(order, levels))(i) == Some((ToWireLevel(order[i]), |levels[order[i]]|))
  {
    CountBlockAt(order, levels, i);
    CountEntryIsRead(LevelListBytes(order, levels), 5 + 6 * i, order[i], |levels[order[i]]|);
  }

  function WireOrder(order: seq<Int32>): (r: seq<Int32>)
    ensures |r| == |order| && forall i | 0 <= i < |r| :: r[i] == ToWireLevel(order[i])
  {
    seq(|order|, i requires 0 <= i < |order| => ToWireLevel(order[i]))
  }

  lemma WireOrderEnumerates(order: seq<Int32>, levels: map<Int32, LevelData>)
    requires AreReal(levels.Keys) && Enumerates(order, levels.Keys)
    ensures Enumerates(WireOrder(order), WireList(levels).Keys)
  {
    var wires := WireOrder(order);
    WireListFacts(levels);
    forall i, j | 0 <= i < j < |wires| ensures wires[i] != wires[j] {
      assert order[i] in order && order[j] in order;
      WireLevelsAreDistinct(order[i], order[j]);
    }
    forall w ensures w in wires <==> w in WireList(levels) {
      if w in wires {
        var i :| 0 <= i < |wires| && wires[i] == w;
        assert order[i] in order;
      }
      if w in WireList(levels) {
        var i :| 0 <= i < |order| && order[i] == ToServerLevel(w);
        assert wires[i] == w;
      }
    }
  }

  lemma LevelListEntries(order: seq<Int32>, levels: map<Int32, LevelData>)
    requires AreReal(levels.Keys) && Enumerates(order, levels.Keys)
    requires Known(order, levels.Keys)
    requires forall l | l in levels :: |levels[l]| < 0x1_0000
    ensures Collect(CountAt(LevelListBytes(order, levels)), 0, |order|, None, map[]) == Some(WireList(levels))
  {
    var d := LevelListBytes(order, levels);
    var wires := WireOrder(order);
    WireOrderEnumerates(order, levels);
    WireListFacts(levels);
    forall i | 0 <= i < |wires|
      ensures wires[i] in WireList(levels) && CountAt(d)(i) == Some((wires[i], WireList(levels)[wires[i]]))
    {
      CountBlockIsRead(order, levels, i);
    }
    CollectFinishes(CountAt(d), wires, WireList(levels), None, 0, map[]);
  }

  lemma WordHeader(kind: Byte, n: Word, rest: seq<Byte>)
    ensures var d := [kind] + U32(n) + rest;
            |d| == 5 + |rest| && TakeU8(d, 0) == Some(kind) && TakeU32(d, 1) == Some(n)
  {
    Middle([kind], U32(n), rest);
    WordRoundTrip(n);
  }

  lemma LevelListStart(order: seq<Int32>, levels: map<Int32, LevelData>)
    requires Known(order, levels.Keys)
    ensures var d, n := LevelListBytes(order, levels), |levels| % 0x1_0000_0000;
            TakeU8(d, 0) == Some(LEVEL_LIST_RESPONSE) && TakeU32(d, 1) == Some(n)
  {
    WordHeader(LEVEL_LIST_RESPONSE, |levels| % 0x1_0000_0000, Flatten(CountBlocks(order, levels)));
  }

  lemma LevelListHeader(order: seq<Int32>, levels: map<Int32, LevelData>)
    requires Enumerates(order, levels.Keys) && |levels| < 0x1_0000_0000 && Known(order, levels.Keys)
    ensures var d := LevelListBytes(order, levels);
            |order| == |levels| && TakeU8(d, 0) == Some(LEVEL_LIST_RESPONSE) && TakeU32(d, 1) == Some(|levels|)
  {
    EnumerationLength(order, levels.Keys);
    assert |levels| == |levels.Keys|;
    LevelListStart(order, levels);
  }

  // ----- every packet the client may receive -----

  datatype Received =
    | CheckedIn(tps: int)
    | KeepaliveReceived(playerCount: Word)
    | Disconnected(message: seq<Byte>)
    | PingReceived(pingId: Int32, playerCount: Word)
    | AccountReceived(id: Int32, account: Account)
    | LevelDataReceived(players: map<Int32, Player<Word>>)
    | LevelListReceived(levels: map<Int32, int>)
    | TextReceived(sender: Int32, message: seq<Byte>)
    | BroadcastReceived(message: seq<Byte>, color: (Byte, Byte, Byte))

  const MAX_TEXT := 80

  function Cut(text: seq<Byte>): seq<Byte> {
    if |text| > MAX_TEXT then text[..MAX_TEXT] else text
  }

  function ReadPing(d: seq<Byte>): Option<Received> {
    var id, n := TakeI32(d, 1), TakeU32(d, 5);
    if id.Some? && n.Some? then Some(PingReceived(id.value, n.value)) else None
  }

  function ReadAccount(d: seq<Byte>): Option<Received> {
    var id, account := TakeI32(d, 1), TakeAccount(d, 5);
    if id.Some? && account.Some? then Some(AccountReceived(id.value, account.value)) else None
  }

  function ReadLevelData(d: seq<Byte>, own: Option<Int32>): Option<Received> {
    match TakeU16(d, 1)
    case None => None
    case Some(n) =>
      var players := Collect(PlayerAt(d), 0, n, own, map[]);
      if players.Some? then Some(LevelDataReceived(players.value)) else None
  }

  function ReadLevelList(d: seq<Byte>): Option<Received> {
    match TakeU32(d, 1)
    case None => None
    case Some(n) =>
      var levels := Collect(CountAt(d), 0, n, None, map[]);
      if levels.Some? then Some(LevelListReceived(levels.value)) else None
  }

  function ReadText(d: seq<Byte>): Option<Received> {
    var sender, message := TakeI32(d, 1), TakeString(d, 5);
    if sender.Some? && message.Some? then Some(TextReceived(sender.value, Cut(message.value))) else None
  }

  function ReadBroadcast(d: seq<Byte>): Option<Received> {
    match TakeString(d, 1)
    case None => None
    case Some(message) =>
      var p := 5 + |message|;
      if p + 3 <= |d| then Some(BroadcastReceived(Cut(message), (d[p], d[p + 1], d[p + 2]))) else None
  }

  // What the client makes of the bytes of a packet; None where it throws.
  function ReadPacket(d: seq<Byte>, own: Option<Int32>): Option<Received> {
    match TakeU8(d, 0)
    case None => None
    case Some(kind) =>
      if kind == CHECKED_IN then
        var tps := TakeU16(d, 1);
        if tps.Some? then Some(CheckedIn(tps.value)) else None
      else if kind == KEEPALIVE_RESPONSE then
        var n := TakeU32(d, 1);
        if n.Some? then Some(KeepaliveReceived(n.value)) else None
      else if kind == SERVER_DISCONNECT then
        var message := TakeString(d, 1);
        if message.Some? then Some(Disconnected(message.value)) else None
      else if kind == LEVEL_DATA then ReadLevelData(d, own)
      else if kind == PING_RESPONSE then ReadPing(d)
      else if kind == ACCOUNT_DATA_RESPONSE then ReadAccount(d)
      else if kind == LEVEL_LIST_RESPONSE then ReadLevelList(d)
      else if kind == TEXT_MESSAGE_SENT then ReadText(d)
      else if kind == SERVER_BROADCAST then ReadBroadcast(d)
      else None
  }

  lemma ClientRefuses(d: seq<Byte>, own: Option<Int32>)
    requires d == [] || d[0] !in {200, 201, 202, 203, 204, 205, 210, 211, 212}
    ensures ReadPacket(d, own) == None
  {
  }

  // ----- what the client makes of the two maps -----

  // Main result: whatever order the server's map yields, the client reads back exactly
  // the server's level without itself.
  lemma SnapshotIsFaithful(order: seq<Int32>, level: LevelData, own: Option<Int32>)
    requires Enumerates(order, level.Keys) && |level| < 0x1_0000
    ensures Known(order, level.Keys)
    ensures var d := LevelDataBytes(order, level);
            && |d| == 3 + 45 * |level|
            && ReadPacket(d, own) == Some(LevelDataReceived(Without(level, own)))
  {
    assert forall i | 0 <= i < |order| :: order[i] in order;
    SnapshotHeader(order, level);
    SnapshotEntries(order, level, own);
  }

  lemma ListIsRead(d: seq<Byte>, n: nat, levels: map<Int32, int>, own: Option<Int32>)
    requires TakeU8(d, 0) == Some(LEVEL_LIST_RESPONSE) && TakeU32(d, 1) == Some(n)
    requires Collect(CountAt(d), 0, n, None, map[]) == Some(levels)
    ensures ReadPacket(d, own) == Some(LevelListReceived(levels))
  {
  }

  // Main result: the decoded list has exactly one entry for every level of the server.
  lemma LevelListIsFaithful(order: seq<Int32>, levels: map<Int32, LevelData>, own: Option<Int32>)
    requires AreReal(levels.Keys)
    requires Enumerates(order, levels.Keys) && |levels| < 0x1_0000_0000
    requires forall l | l in levels :: |levels[l]| < 0x1_0000
    ensures Known(order, levels.Keys)
    ensures ReadPacket(LevelListBytes(order, levels), own) == Some(LevelListReceived(WireList(levels)))
  {
    assert forall i | 0 <= i < |order| :: order[i] in order;
    LevelListHeader(order, levels);
    LevelListEntries(order, levels);
    ListIsRead(LevelListBytes(order, levels), |levels|, WireList(levels), own);
  }
}
