// What the server sends in answer to a packet, and what the client makes of it.

module Replies {
  import opened Collections
  import opened GameData
  import opened ServerState
  import opened Handling
  import opened Wire
  import opened AccountCodec
  import opened Packets
  import IdLists

  datatype Message =
    | Welcome(tps: nat)
    | Alive(clients: nat)
    | Kick(reason: string)
    | Pong(id: Int32, clients: nat)
    | AccountOf(id: Int32, account: Account)
    | LevelCounts(levels: map<Int32, LevelData>)
    | Snapshot(level: LevelData)
    | Chat(sender: Int32, text: seq<Byte>)
    | Joined(name: seq<Byte>)
    | Left(name: seq<Byte>)

  // ----- the bytes of a message -----

  const NOT_SIGNED_IN := "You have to sign into a Geometry Dash account before connecting."
                         + " If you already are, please restart your game."
  const INVALID_DATA := "Invalid data was passed. Contact the developer if you think this is wrong."
  const ALREADY_CONNECTED := "Client already exists, please wait a minute before reconnecting."

  function ServerIsFull(clients: nat): string {
    "This server is configured to handle a maximum of " + IdLists.ToString(clients)
    + " clients, and cannot take any more."
  }

  function KeyIsRefused(sh: Shared, c: Int32): string {
    "Failed to verify secret key: "
    + if c in sh.clients then "Secret key does not match" else "Client not found by id " + IdLists.ToString(c)
  }

  // Text without characters beyond one byte, as bytes.
  function Text(s: string): (r: seq<Byte>)
    ensures |r| == |s|
  {
    seq(|s|, i requires 0 <= i < |s| => s[i] as int % 0x100)
  }

  const JOINED_COLOR: (Byte, Byte, Byte) := (30, 200, 30)
  const LEFT_COLOR: (Byte, Byte, Byte) := (200, 30, 30)

  function NoticeBytes(text: seq<Byte>, color: (Byte, Byte, Byte)): seq<Byte> {
    [SERVER_BROADCAST] + Str(text) + [color.0, color.1, color.2]
  }

  // The bytes that a message may be sent as. A hash map is written in whatever order it yields its keys.
  ghost predicate Encodes(m: Message, data: seq<Byte>) {
    match m
    case Welcome(tps) => data == [CHECKED_IN] + U16(tps % 0x1_0000)
    case Alive(clients) => data == [KEEPALIVE_RESPONSE] + U32(clients % 0x1_0000_0000)
    case Kick(reason) => data == [SERVER_DISCONNECT] + Str(Text(reason))
    case Pong(id, clients) => data == [PING_RESPONSE] + I32(id) + U32(clients % 0x1_0000_0000)
    case AccountOf(id, account) => data == [ACCOUNT_DATA_RESPONSE] + I32(id) + EncodeAccount(account)
    case LevelCounts(levels) =>
      exists order | Enumerates(order, levels.Keys) && Known(order, levels.Keys) ::
        data == LevelListBytes(order, levels)
    case Snapshot(level) =>
      exists order | Enumerates(order, level.Keys) && Known(order, level.Keys) :: data == LevelDataBytes(order, level)
    case Chat(sender, text) => data == [TEXT_MESSAGE_SENT] + I32(sender) + Str(Cut(text))
    case Joined(name) => data == NoticeBytes(name + Text(" joined"), JOINED_COLOR)
    case Left(name) => data == NoticeBytes(name + Text(" left"), LEFT_COLOR)
  }

  lemma MessageKinds(m: Message, data: seq<Byte>)
    requires Encodes(m, data)
    ensures data != []
    ensures data[0] == match m
                       case Welcome(_) => 200
                       case Alive(_) => 201
                       case Kick(_) => 202
                       case Pong(_, _) => 203
                       case AccountOf(_, _) => 204
                       case LevelCounts(_) => 205
                       case Snapshot(_) => 210
                       case Chat(_, _) => 211
                       case Joined(_) => 212
                       case Left(_) => 212
  {
  }

  // ----- sending -----

  datatype Datagram = Datagram(to: int, data: seq<Byte>)

  // One datagram with the message to each of some addresses.
  ghost predicate SentTo(addresses: seq<int>, m: Message, sent: seq<Datagram>) {
    |sent| == |addresses| && forall i | 0 <= i < |sent| :: sent[i].to == addresses[i] && Encodes(m, sent[i].data)
  }

  lemma SentOneMore(addresses: seq<int>, m: Message, sent: seq<Datagram>, to: int, piece: seq<Datagram>)
    requires SentTo(addresses, m, sent) && SentTo([to], m, piece)
    ensures SentTo(addresses + [to], m, sent + piece)
  {
  }

  function Addresses(ids: seq<Int32>, clients: map<Int32, Client>): (r: seq<int>)
    requires Known(ids, clients.Keys)
    ensures |r| == |ids|
  {
    seq(|ids|, i requires 0 <= i < |ids| => clients[ids[i]].address)
  }

  lemma AddressesOneMore(ids: seq<Int32>, clients: map<Int32, Client>, c: Int32)
    requires Known(ids, clients.Keys) && c in clients
    ensures Known(ids + [c], clients.Keys)
    ensures Addresses(ids + [c], clients) == Addresses(ids, clients) + [clients[c].address]
  {
  }

  // What the server sets out to send: nothing, a message to an address, or one to everyone whose
  // record names a level.
  datatype Plan =
    | Silence
    | Reply(to: int, message: Message)
    | Announce(clients: map<Int32, Client>, level: Int32, message: Message)

  // An announcement got as far as `reached`: to everyone on the level, or, if someone there cannot be
  // reached, to some of those who can.
  ghost predicate Heard(net: Network, clients: map<Int32, Client>, l: Int32, reached: seq<Int32>) {
    && (forall i, j | 0 <= i < j < |reached| :: reached[i] != reached[j])
    && (forall i | 0 <= i < |reached| ::
          reached[i] in clients && clients[reached[i]].levelId == l && net(clients[reached[i]].address))
    && ((forall c | c in clients && clients[c].levelId == l :: net(clients[c].address)) ==>
          forall c | c in clients && clients[c].levelId == l :: c in reached)
  }

  ghost predicate AnnouncedTo(reached: seq<Int32>, clients: map<Int32, Client>, l: Int32, m: Message, net: Network,
                              sent: seq<Datagram>)
  {
    Heard(net, clients, l, reached) && Known(reached, clients.Keys) && SentTo(Addresses(reached, clients), m, sent)
  }

  ghost predicate Carried(plan: Plan, net: Network, sent: seq<Datagram>) {
    match plan
    case Silence => sent == []
    case Reply(to, m) => SentTo(if net(to) then [to] else [], m, sent)
    case Announce(clients, l, m) => exists reached :: AnnouncedTo(reached, clients, l, m, net, sent)
  }

  // ----- replies -----

  function ToClient(sh: Shared, c: Int32, m: Message): Plan {
    if c in sh.clients then Reply(sh.clients[c].address, m) else Silence
  }

  // Client c is shown the level its record names, if there is one.
  function ShowLevel(sh: Shared, c: Int32): Plan {
    var l := Named(sh, c);
    if l in sh.levels then ToClient(sh, c, Snapshot(sh.levels[l])) else Silence
  }

  function ShowAccount(sh: Shared, c: Int32, target: Option<Int32>): Plan {
    if target.None? || target.value !in sh.clients then Silence
    else ToClient(sh, c, AccountOf(target.value, sh.clients[target.value].account))
  }

  function SpreadText(sh: Shared, c: Int32, text: Option<seq<Byte>>): Plan {
    if text.None? || c !in sh.clients then Silence else Announce(sh.clients, Named(sh, c), Chat(c, text.value))
  }

  function AnnounceEntry(sh: Shared, c: Int32, target: Option<Int32>): Plan {
    if target.None? || c !in sh.clients then Silence
    else Announce(sh.clients, ToServerLevel(target.value), Joined(sh.clients[c].account.name))
  }

  // Everyone whose record still names the level: with -1 that includes the client itself.
  function AnnounceExit(sh: Shared, c: Int32): Plan {
    if c !in sh.clients then Silence
    else Announce(SetLevel(sh, c, -1).clients, Named(sh, c), Left(sh.clients[c].account.name))
  }

  // Unless a tick shows the level.
  function AnswerData(cfg: Settings, sh: Shared, c: Int32, spectating: bool, data: Option<ServerPlayer>): Plan {
    if cfg.tickBased || (!spectating && data.None?) then Silence
    else ShowLevel(if spectating then sh else Updated(sh, c, data), c)
  }

  // What a verified client's request is answered with.
  function AnswerPlan(cfg: Settings, sh: Shared, c: Int32, request: Request): Plan {
    match request
    case Keepalive => ToClient(sh, c, Alive(|sh.clients|))
    case AccountDataRequest(target) => ShowAccount(sh, c, target)
    case LevelListRequest => ToClient(sh, c, LevelCounts(sh.levels))
    case SendTextMessage(text) => SpreadText(sh, c, text)
    case UserLevelEntry(target) => AnnounceEntry(sh, c, target)
    case UserLevelExit => AnnounceExit(sh, c)
    case UserLevelData(data) => AnswerData(cfg, sh, c, false, data)
    case SpectateNoData => AnswerData(cfg, sh, c, true, None)
    case _ => Silence
  }

  function RequestPlan(cfg: Settings, sh: Shared, c: Int32, key: Int32, request: Request, peer: int): Plan {
    if Accepted(sh, c, key) then AnswerPlan(cfg, sh, c, request) else Reply(peer, Kick(KeyIsRefused(sh, c)))
  }

  function CheckInPlan(cfg: Settings, tps: nat, sh: Shared, c: Int32, peer: int, account: Option<Account>): Plan {
    if c in sh.clients then Reply(peer, Kick(ALREADY_CONNECTED))
    else if IsFull(cfg, sh) then Reply(peer, Kick(ServerIsFull(|sh.clients|)))
    else if account.None? then Silence
    else if ValidAccount(account.value) then Reply(peer, Welcome(tps))
    else Reply(peer, Kick(INVALID_DATA))
  }

  // What a packet from `peer` is answered with by a server in state sh.
  function ReplyPlan(cfg: Settings, tps: nat, sh: Shared, packet: Packet, peer: int): Plan {
    match packet
    case Unreadable => Silence
    case Ping(id) => if id.None? then Silence else Reply(peer, Pong(id.value, |sh.clients|))
    case FromClient(c, key, request) =>
      if c == 0 then Reply(peer, Kick(NOT_SIGNED_IN))
      else if request.CheckIn? then CheckInPlan(cfg, tps, sh, c, peer, request.account)
      else RequestPlan(cfg, sh, c, key, request, peer)
  }

  // ----- ticks -----

  function Reachable(clients: map<Int32, Client>, level: LevelData, net: Network): set<Int32> {
    set c | c in level && c in clients && net(clients[c].address)
  }

  // A level was sent once to each of its members who can be reached.
  ghost predicate LevelSent(reached: seq<Int32>, clients: map<Int32, Client>, level: LevelData, net: Network,
                            sent: seq<Datagram>)
  {
    && Enumerates(reached, Reachable(clients, level, net)) && Known(reached, clients.Keys)
    && SentTo(Addresses(reached, clients), Snapshot(level), sent)
  }

  // What a tick sends because some record names level l.
  ghost predicate LevelTicked(sh: Shared, l: Int32, net: Network, sent: seq<Datagram>) {
    if l !in sh.levels then sent == [] else exists reached :: LevelSent(reached, sh.clients, sh.levels[l], net, sent)
  }

  // A tick met the levels ls, and sent pieces[i] for level ls[i].
  ghost predicate TickSends(sh: Shared, ls: seq<Int32>, net: Network, pieces: seq<seq<Datagram>>) {
    |pieces| == |ls| && forall i | 0 <= i < |ls| :: LevelTicked(sh, ls[i], net, pieces[i])
  }

  lemma TickSendsOneMore(sh: Shared, ls: seq<Int32>, net: Network, pieces: seq<seq<Datagram>>, l: Int32,
                         piece: seq<Datagram>, outbox: seq<Datagram>)
    requires TickSends(sh, ls, net, pieces) && LevelTicked(sh, l, net, piece)
    ensures TickSends(sh, ls + [l], net, pieces + [piece])
    ensures outbox + Flatten(pieces + [piece]) == outbox + Flatten(pieces) + piece
  {
    assert (pieces + [piece])[..|pieces|] == pieces;
    assert outbox + (Flatten(pieces) + piece) == outbox + Flatten(pieces) + piece;
  }

  // Repairs change no address.
  lemma LevelTickedBefore(sh: Shared, todo: set<Int32>, l: Int32, net: Network, sent: seq<Datagram>)
    requires LevelTicked(sh.(clients := RepairedBut(sh, todo)), l, net, sent)
    ensures LevelTicked(sh, l, net, sent)
  {
    if l in sh.levels {
      var level, repaired := sh.levels[l], RepairedBut(sh, todo);
      var reached :| LevelSent(reached, repaired, level, net, sent);
      assert Reachable(repaired, level, net) == Reachable(sh.clients, level, net);
      assert Addresses(reached, repaired) == Addresses(reached, sh.clients);
      assert LevelSent(reached, sh.clients, level, net, sent);
    }
  }
}
