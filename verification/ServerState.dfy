// The two maps behind the server's read/write locks, and the packets that change them.

module ServerState {
  import opened GameData

  datatype Client = Client(address: int, secretKey: Int32, levelId: Int32, lastKeepalive: int, account: Account)

  type LevelData = map<Int32, ServerPlayer>

  datatype Shared = Shared(levels: map<Int32, LevelData>, clients: map<Int32, Client>)

  datatype Settings = Settings(maxClients: Int32, tickBased: bool, kickTimeout: nat)

  const DAILY_LEVEL_ID := -2_000_000_000
  const WEEKLY_LEVEL_ID := -2_000_000_001

  // A packet after its header was read. A body that cannot be decoded is None;
  // it is looked at only where the handler decodes it.
  datatype Request =
    | CheckIn(account: Option<Account>)
    | Keepalive
    | Disconnect
    | AccountDataRequest(target: Option<Int32>)
    | LevelListRequest
    | SendTextMessage(text: Option<seq<Byte>>)
    | UserLevelEntry(level: Option<Int32>)
    | UserLevelExit
    | UserLevelData(data: Option<ServerPlayer>)
    | SpectateNoData

  datatype Packet =
    | Unreadable
    | Ping(id: Option<Int32>)
    | FromClient(client: Int32, key: Int32, request: Request)

  // Level ids -1 and -2 stand for the daily and the weekly level on the wire.
  function ToServerLevel(wire: Int32): Int32 {
    if wire == -1 then DAILY_LEVEL_ID else if wire == -2 then WEEKLY_LEVEL_ID else wire
  }

  function ToWireLevel(level: Int32): Int32 {
    if level == DAILY_LEVEL_ID then -1 else if level == WEEKLY_LEVEL_ID then -2 else level
  }

  // The ids that a level can have on the server.
  predicate RealLevel(l: Int32) {
    l != -1 && l != -2
  }

  predicate AreReal(ls: set<Int32>) {
    forall l | l in ls :: RealLevel(l)
  }

  function Put(level: LevelData, c: Int32, p: ServerPlayer): LevelData {
    level[c := p]
  }

  // Client c is a member of level l.
  predicate Member(sh: Shared, c: Int32, l: Int32) {
    l in sh.levels && c in sh.levels[l]
  }

  // The level that the client record of c names; -1 for no level or no record.
  function Named(sh: Shared, c: Int32): Int32 {
    if c in sh.clients then sh.clients[c].levelId else -1
  }

  predicate HasRecipient(sh: Shared, l: Int32) {
    exists c | c in sh.clients :: sh.clients[c].levelId == l
  }

  // `clients.len() as i32`
  function AsInt32(n: nat): Int32 {
    var m := n % 0x1_0000_0000;
    if m < 0x8000_0000 then m else m - 0x1_0000_0000
  }

  predicate IsFull(cfg: Settings, sh: Shared) {
    cfg.maxClients != 0 && AsInt32(|sh.clients|) >= cfg.maxClients
  }

  predicate IsDead(cfg: Settings, now: int, client: Client) {
    var elapsed := now - client.lastKeepalive;
    elapsed < 0 || elapsed > cfg.kickTimeout
  }

  function SetLevel(sh: Shared, c: Int32, l: Int32): Shared {
    if c in sh.clients then sh.(clients := sh.clients[c := sh.clients[c].(levelId := l)]) else sh
  }

  function Recipients(sh: Shared, l: Int32): set<Int32> {
    set c | c in sh.clients && sh.clients[c].levelId == l
  }

  function DeadClients(cfg: Settings, sh: Shared, now: int): set<Int32> {
    set c | c in sh.clients && IsDead(cfg, now, sh.clients[c])
  }

  function Repaired(clients: map<Int32, Client>, players: set<Int32>): map<Int32, Client> {
    map c | c in clients :: if c in players then clients[c].(levelId := -1) else clients[c]
  }

  function NamedLevels(sh: Shared): set<Int32> {
    set c | c in sh.clients && sh.clients[c].levelId != -1 :: sh.clients[c].levelId
  }

  function TickGroups(sh: Shared): map<Int32, set<Int32>> {
    map l | l in NamedLevels(sh) :: Recipients(sh, l)
  }
}
