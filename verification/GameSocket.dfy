// The client's end of the connection to the game server.

module GameSocket {
  import opened GameData
  import opened Wire
  import opened PlayerCodec
  import opened AccountCodec
  import opened Packets

  // What the rest of the client asks its network thread to send. ForCentralServer stands for the
  // messages about the menu, pings and the central server, which are not sent here.
  datatype NetworkMessage =
    | LevelEntry(level: Int32)
    | LevelExit
    | Frame(data: Player<Word>)
    | RequestAccount(id: Int32)
    | RequestLevelList
    | Spectating
    | SendText(text: seq<Byte>)
    | ForCentralServer

  class GameSocket {
    const accountId: Int32
    const secretKey: Int32
    const debug: bool

    // Pings that wait for their answers, and the servers they were sent to.
    var pingTimes: map<Int32, string>

    constructor (accountId: Int32, secretKey: Int32, debug: bool)
      ensures this.accountId == accountId && this.secretKey == secretKey && this.debug == debug && pingTimes == map[]
    {
      this.accountId := accountId;
      this.secretKey := secretKey;
      this.debug := debug;
      pingTimes := map[];
    }

    function Skipped(): Option<Int32> {
      if debug then None else Some(accountId)
    }

    method WriteAuth(buf: ByteBuffer)
      modifies buf
      ensures buf.data == old(buf.data) + I32(accountId) + I32(secretKey)
    {
      buf.WriteI32(accountId);
      buf.WriteI32(secretKey);
    }

    // Messages that are not for the game server are refused.
    method SendMessage(message: NetworkMessage, littleEndian: bool) returns (sent: Option<seq<Byte>>)
      ensures sent == match message
                      case LevelEntry(level) => Some(ClientMessage(110, accountId, secretKey, I32(level)))
                      case LevelExit => Some(ClientMessage(111, accountId, secretKey, []))
                      case Frame(data) => Some(ClientMessage(112, accountId, secretKey, EncodePlayer(data)))
                      case RequestAccount(id) => Some(ClientMessage(104, accountId, secretKey, I32(id)))
                      case RequestLevelList => Some(ClientMessage(105, accountId, secretKey, []))
                      case Spectating => Some(ClientMessage(113, accountId, secretKey, []))
                      case SendText(text) => Some(ClientMessage(106, accountId, secretKey, Str(text)))
                      case ForCentralServer => None
    {
      var buf := new ByteBuffer(littleEndian, []);
      match message {
        case LevelEntry(level) =>
          buf.WriteU8(USER_LEVEL_ENTRY);
          WriteAuth(buf);
          buf.WriteI32(level);
          assert buf.data == ClientMessage(110, accountId, secretKey, I32(level));
        case LevelExit =>
          buf.WriteU8(USER_LEVEL_EXIT);
          WriteAuth(buf);
          assert buf.data == ClientMessage(111, accountId, secretKey, []);
        case Frame(data) =>
          buf.WriteU8(USER_LEVEL_DATA);
          WriteAuth(buf);
          EncodePlayerData(data, buf);
          assert buf.data == ClientMessage(112, accountId, secretKey, EncodePlayer(data));
        case RequestAccount(id) =>
          buf.WriteU8(ACCOUNT_DATA_REQUEST);
          WriteAuth(buf);
          buf.WriteI32(id);
          assert buf.data == ClientMessage(104, accountId, secretKey, I32(id));
        case RequestLevelList =>
          buf.WriteU8(LEVEL_LIST_REQUEST);
          WriteAuth(buf);
          assert buf.data == ClientMessage(105, accountId, secretKey, []);
        case Spectating =>
          buf.WriteU8(SPECTATE_NO_DATA);
          WriteAuth(buf);
          assert buf.data == ClientMessage(113, accountId, secretKey, []);
        case SendText(text) =>
          buf.WriteU8(SEND_TEXT_MESSAGE);
          WriteAuth(buf);
          buf.WriteString(text);
          assert buf.data == ClientMessage(106, accountId, secretKey, Str(text));
        case ForCentralServer =>
          return None;
      }
      sent := Some(buf.data);
    }

    method SendHeartbeat(littleEndian: bool) returns (sent: seq<Byte>)
      ensures sent == ClientMessage(101, accountId, secretKey, [])
    {
      var buf := new ByteBuffer(littleEndian, []);
      buf.WriteU8(KEEPALIVE);
      WriteAuth(buf);
      sent := buf.data;
    }

    method SendCheckIn(a: Account, littleEndian: bool) returns (sent: seq<Byte>)
      ensures sent == ClientMessage(100, accountId, secretKey, EncodeAccount(a))
    {
      var buf := new ByteBuffer(littleEndian, []);
      buf.WriteU8(CHECK_IN);
      WriteAuth(buf);
      EncodeAccountData(a, buf);
      sent := buf.data;
    }

    method SendAccountDataRequest(playerId: Int32, littleEndian: bool) returns (sent: seq<Byte>)
      ensures sent == ClientMessage(104, accountId, secretKey, I32(playerId))
    {
      var buf := new ByteBuffer(littleEndian, []);
      buf.WriteU8(ACCOUNT_DATA_REQUEST);
      WriteAuth(buf);
      buf.WriteI32(playerId);
      sent := buf.data;
    }

    method SendDisconnect(littleEndian: bool) returns (sent: seq<Byte>)
      ensures sent == ClientMessage(102, accountId, secretKey, [])
    {
      var buf := new ByteBuffer(littleEndian, []);
      buf.WriteU8(DISCONNECT);
      WriteAuth(buf);
      sent := buf.data;
    }

    // The id of a ping is random; one that is still waiting keeps its server.
    method SendPingTo(serverId: string, num: Int32, littleEndian: bool) returns (sent: seq<Byte>)
      modifies this`pingTimes
      ensures sent == [103] + I32(num)
      ensures pingTimes == if num in old(pingTimes) then old(pingTimes) else old(pingTimes)[num := serverId]
    {
      var buf := new ByteBuffer(littleEndian, []);
      buf.WriteU8(PING);
      buf.WriteI32(num);
      if num !in pingTimes { pingTimes := pingTimes[num := serverId]; }
      sent := buf.data;
    }

    method RecvLevelData(buf: ByteBuffer, playerCount: nat) returns (r: Option<map<Int32, Player<Word>>>)
      modifies buf`position
      requires buf.position == 3
      ensures r == Collect(PlayerAt(buf.data), 0, playerCount, Skipped(), map[])
    {
      var players: map<Int32, Player<Word>> := map[];
      var i := 0;
      while i < playerCount
        invariant i <= playerCount && buf.position == 3 + 45 * i
        invariant Collect(PlayerAt(buf.data), 0, playerCount, Skipped(), map[])
               == Collect(PlayerAt(buf.data), i, playerCount, Skipped(), players)
      {
        var playerId := buf.ReadI32();
        if playerId.None? { return None; }
        var playerData := DecodePlayerData(buf);
        if playerData.None? { return None; }
        if (debug || playerId.value != accountId) && playerId.value !in players {
          players := players[playerId.value := playerData.value];
        }
        i := i + 1;
      }
      r := Some(players);
    }

    method RecvLevelList(buf: ByteBuffer, levelCount: nat) returns (r: Option<map<Int32, int>>)
      modifies buf`position
      requires buf.position == 5
      ensures r == Collect(CountAt(buf.data), 0, levelCount, None, map[])
    {
      var levels: map<Int32, int> := map[];
      var i := 0;
      while i < levelCount
        invariant i <= levelCount && buf.position == 5 + 6 * i
        invariant Collect(CountAt(buf.data), 0, levelCount, None, map[])
               == Collect(CountAt(buf.data), i, levelCount, None, levels)
      {
        var levelId := buf.ReadI32();
        if levelId.None? { return None; }
        var playerCount := buf.ReadU16();
        if playerCount.None? { return None; }
        if levelId.value !in levels {
          levels := levels[levelId.value := playerCount.value];
        }
        i := i + 1;
      }
      r := Some(levels);
    }

    method RecvPing(buf: ByteBuffer) returns (r: Option<Received>)
      requires buf.position == 1
      modifies buf`position, this`pingTimes
      ensures var read := ReadPing(buf.data);
              && r == (if read.Some? && read.value.pingId in old(pingTimes) then read else None)
              && pingTimes == if r.Some? then old(pingTimes) - {r.value.pingId} else old(pingTimes)
    {
      var pingId := buf.ReadI32();
      if pingId.None? || pingId.value !in pingTimes { return None; }
      var playerCount := buf.ReadU32();
      if playerCount.None? { return None; }
      pingTimes := pingTimes - {pingId.value};
      r := Some(PingReceived(pingId.value, playerCount.value));
    }

    method RecvAccount(buf: ByteBuffer) returns (r: Option<Received>)
      requires buf.position == 1
      modifies buf`position
      ensures r == ReadAccount(buf.data)
    {
      var playerId := buf.ReadI32();
      if playerId.None? { return None; }
      var account := DecodeAccountData(buf);
      r := if account.Some? then Some(AccountReceived(playerId.value, account.value)) else None;
    }

    method RecvText(buf: ByteBuffer) returns (r: Option<Received>)
      requires buf.position == 1
      modifies buf`position
      ensures r == ReadText(buf.data)
    {
      var sender := buf.ReadI32();
      if sender.None? { return None; }
      var message := buf.ReadString();
      if message.None? { return None; }
      var text := message.value;
      if |text| > MAX_TEXT { text := text[..MAX_TEXT]; }
      r := Some(TextReceived(sender.value, text));
    }

    method RecvBroadcast(buf: ByteBuffer) returns (r: Option<Received>)
      requires buf.position == 1
      modifies buf`position
      ensures r == ReadBroadcast(buf.data)
    {
      var message := buf.ReadString();
      if message.None? { return None; }
      var red := buf.ReadU8();
      if red.None? { return None; }
      var green := buf.ReadU8();
      if green.None? { return None; }
      var blue := buf.ReadU8();
      if blue.None? { return None; }
      var text := message.value;
      if |text| > MAX_TEXT { text := text[..MAX_TEXT]; }
      r := Some(BroadcastReceived(text, (red.value, green.value, blue.value)));
    }

    // Any other first byte, those of the client's own packets included, is refused. An answer
    // to a ping that was not sent, or was answered, is refused too.
    method RecvPacket(received: seq<Byte>, littleEndian: bool) returns (r: Option<Received>)
      modifies this`pingTimes
      ensures var read := ReadPacket(received, Skipped());
              && r == (if read.Some? && read.value.PingReceived?
                       && read.value.pingId !in old(pingTimes) then None else read)
              && pingTimes == if r.Some? && r.value.PingReceived? then old(pingTimes) - {r.value.pingId}
                else old(pingTimes)
    {
      var buf := new ByteBuffer(littleEndian, received);
      var kind := buf.ReadU8();
      if kind.None? { return None; }
      if kind.value == CHECKED_IN {
        var tps := buf.ReadU16();
        r := if tps.Some? then Some(CheckedIn(tps.value)) else None;
      } else if kind.value == KEEPALIVE_RESPONSE {
        var playerCount := buf.ReadU32();
        r := if playerCount.Some? then Some(KeepaliveReceived(playerCount.value)) else None;
      } else if kind.value == SERVER_DISCONNECT {
        var message := buf.ReadString();
        r := if message.Some? then Some(Disconnected(message.value)) else None;
      } else if kind.value == LEVEL_DATA {
        var playerCount := buf.ReadU16();
        if playerCount.None? { return None; }
        var players := RecvLevelData(buf, playerCount.value);
        r := if players.Some? then Some(LevelDataReceived(players.value)) else None;
      } else if kind.value == PING_RESPONSE {
        r := RecvPing(buf);
      } else if kind.value == ACCOUNT_DATA_RESPONSE {
        r := RecvAccount(buf);
      } else if kind.value == LEVEL_LIST_RESPONSE {
        var levelCount := buf.ReadU32();
        if levelCount.None? { return None; }
        var levels := RecvLevelList(buf, levelCount.value);
        r := if levels.Some? then Some(LevelListReceived(levels.value)) else None;
      } else if kind.value == TEXT_MESSAGE_SENT {
        r := RecvText(buf);
      } else if kind.value == SERVER_BROADCAST {
        r := RecvBroadcast(buf);
      } else {
        r := None;
      }
    }
  }
}
