// Every task the server can spawn, cut at the points where it waits for a lock.
//
// A task runs from the grant of one lock to where it needs the next in one step. A code
// point names the locks the task already holds there, the lock it needs,
// and the local variables it carries.

module Tasks {
  import opened GameData
  import opened Locks
  import opened ServerState

  // Where `remove_client_from_level` and `remove_client` return to.
  datatype Cont =
    | Finish
    | ThenDecode(entrant: Int32, level: Option<Int32>)
    | ThenSweep(rest: set<Int32>)

  datatype Code =
    // handle_packet
    | PingCount
    | Verify(client: Int32, key: Int32, request: Request)
    | CheckInAdd(client: Int32, peer: int, key: Int32, account: Option<Account>)
    | CheckInReject(client: Int32)
    | CheckInStore(client: Int32, data: Account)
    | Reply(client: Int32)
    // on_keepalive, remove_client
    | KeepaliveTouch(client: Int32)
    | Forget(client: Int32, cont: Cont)
    // remove_client_from_level
    | LeaveFind(client: Int32, level: Int32, cont: Cont)
    | LeaveErase(client: Int32, level: Int32, cont: Cont)
    | SpawnCleanup(cont: Cont)
    // on_userlevelentry, add_client_to_level
    | EntryLook(client: Int32, target: Option<Int32>)
    | EntryAnnounce(client: Int32, level: Int32)
    | EnterOpen(client: Int32, level: Int32)
    | EnterInsert(client: Int32, level: Int32)
    | EnterRecord(client: Int32, level: Int32)
    // on_userlevelexit
    | ExitClear(client: Int32)
    | ExitAnnounce(client: Int32, level: Int32)
    // on_updatedata
    | UpdateLook(client: Int32, spectating: bool, body: Option<ServerPlayer>)
    | UpdateFind(client: Int32, level: Int32, player: ServerPlayer)
    | UpdateStore(client: Int32, level: Int32, player: ServerPlayer)
    | SnapFind(client: Int32, level: Int32)
    | SnapRead(client: Int32, level: Int32)
    | SnapSend(client: Int32, level: Int32, payload: LevelData)
    // on_levellistrequest
    | ListOpen(client: Int32)
    | ListCount(client: Int32, level: Int32, todo: set<Int32>, counts: map<Int32, nat>)
    | ListSend(client: Int32, counts: map<Int32, nat>)
    // on_playeraccountdatarequest, on_sendtextmessage
    | AccountLook(client: Int32, other: Int32)
    | TextLook(client: Int32)
    | TextBroadcast(client: Int32)
    // remove_dead_clients
    | SweepLook
    | SweepNext(todo: set<Int32>)
    // remove_empty_levels
    | CleanOpen
    | CleanCheck(level: Int32, todo: set<Int32>)
    // tick
    | TickLook
    | TickOpen(groups: map<Int32, set<Int32>>)
    | TickRead(level: Int32, groups: map<Int32, set<Int32>>)
    | TickSend(level: Int32, ids: set<Int32>, groups: map<Int32, set<Int32>>)
    | TickRepair(players: set<Int32>, groups: map<Int32, set<Int32>>)

  predicate Ticks(code: Code) {
    code.TickLook? || code.TickOpen? || code.TickRead? || code.TickSend? || code.TickRepair?
  }

  predicate Scans(code: Code) {
    code.ListOpen? || code.ListCount? || code.CleanOpen? || code.CleanCheck? || code.SweepLook? || code.SweepNext?
  }

  predicate Leaves(code: Code) {
    code.Forget? || code.LeaveFind? || code.LeaveErase? || code.SpawnCleanup?
  }

  predicate SignsIn(code: Code) {
    code.PingCount? || code.Verify? || code.CheckInAdd? || code.CheckInReject? || code.CheckInStore? || code.Reply?
    || code.KeepaliveTouch?
  }

  predicate EntersOrExits(code: Code) {
    code.EntryLook? || code.EntryAnnounce? || code.EnterOpen? || code.EnterInsert? || code.EnterRecord?
    || code.ExitClear? || code.ExitAnnounce?
  }

  // The guards alive at a code point, oldest first.
  function Held(code: Code): seq<Claim> {
    match code
    case LeaveErase(_, _, _) => [LEVELS_READ]
    case EnterInsert(_, _) => [LEVELS_WRITE]
    case UpdateStore(_, _, _) => [LEVELS_READ]
    case SnapRead(_, _) => [LEVELS_READ]
    case SnapSend(_, l, _) => [LEVELS_READ, Claim(OneLevel(l), Read)]
    case ListCount(_, _, _, _) => [LEVELS_READ]
    case ListSend(_, _) => [LEVELS_READ]
    case CleanCheck(_, _) => [LEVELS_WRITE]
    case TickRead(_, _) => [LEVELS_READ]
    case TickSend(l, _, _) => [LEVELS_READ, Claim(OneLevel(l), Read)]
    case TickRepair(_, _) => [LEVELS_READ]
    case _ => []
  }

  // The lock a task needs at a code point.
  function Wanted(code: Code): Option<Claim> {
    match code
    case PingCount => Some(CLIENTS_READ)
    case Verify(_, _, _) => Some(CLIENTS_READ)
    case CheckInAdd(_, _, _, _) => Some(CLIENTS_WRITE)
    case CheckInReject(_) => Some(CLIENTS_WRITE)
    case CheckInStore(_, _) => Some(CLIENTS_WRITE)
    case Reply(_) => Some(CLIENTS_READ)
    case KeepaliveTouch(_) => Some(CLIENTS_WRITE)
    case Forget(_, _) => Some(CLIENTS_WRITE)
    case LeaveFind(_, _, _) => Some(LEVELS_READ)
    case LeaveErase(_, l, _) => Some(Claim(OneLevel(l), Write))
    case SpawnCleanup(_) => None
    case EntryLook(_, _) => Some(CLIENTS_READ)
    case EntryAnnounce(_, _) => Some(CLIENTS_WRITE)
    case EnterOpen(_, _) => Some(LEVELS_WRITE)
    case EnterInsert(_, l) => Some(Claim(OneLevel(l), Write))
    case EnterRecord(_, _) => Some(CLIENTS_WRITE)
    case ExitClear(_) => Some(CLIENTS_WRITE)
    case ExitAnnounce(_, _) => Some(CLIENTS_WRITE)
    case UpdateLook(_, _, _) => Some(CLIENTS_READ)
    case UpdateFind(_, _, _) => Some(LEVELS_READ)
    case UpdateStore(_, l, _) => Some(Claim(OneLevel(l), Write))
    case SnapFind(_, _) => Some(LEVELS_READ)
    case SnapRead(_, l) => Some(Claim(OneLevel(l), Read))
    case SnapSend(_, _, _) => Some(CLIENTS_READ)
    case ListOpen(_) => Some(LEVELS_READ)
    case ListCount(_, l, _, _) => Some(Claim(OneLevel(l), Read))
    case ListSend(_, _) => Some(CLIENTS_READ)
    case AccountLook(_, _) => Some(CLIENTS_READ)
    case TextLook(_) => Some(CLIENTS_WRITE)
    case TextBroadcast(_) => Some(CLIENTS_WRITE)
    case SweepLook => Some(CLIENTS_READ)
    case SweepNext(_) => None
    case CleanOpen => Some(LEVELS_WRITE)
    case CleanCheck(l, _) => Some(Claim(OneLevel(l), Read))
    case TickLook => Some(CLIENTS_READ)
    case TickOpen(_) => Some(LEVELS_READ)
    case TickRead(l, _) => Some(Claim(OneLevel(l), Read))
    case TickSend(_, _, _) => Some(CLIENTS_READ)
    case TickRepair(_, _) => Some(CLIENTS_WRITE)
  }

  function GuardsOf(code: Code): Guards {
    Guards(Held(code), Wanted(code))
  }

  // What a task does not decide itself: the next key of a map iteration, whether
  // its sends succeed, and the clock.
  datatype Choice = Choice(pick: Int32, sent: bool, now: int)

  predicate PickOk(todo: set<Int32>, pick: Int32) {
    todo != {} ==> pick in todo
  }

  // Levels that a code point has looked up in the level map and still relies on.
  function Needs(code: Code): set<Int32> {
    match code
    case LeaveErase(_, l, _) => {l}
    case EnterInsert(_, l) => {l}
    case UpdateStore(_, l, _) => {l}
    case SnapRead(_, l) => {l}
    case SnapSend(_, l, _) => {l}
    case ListCount(_, l, todo, _) => {l} + todo
    case CleanCheck(l, todo) => {l} + todo
    case TickRead(l, _) => {l}
    case TickSend(l, _, _) => {l}
    case _ => {}
  }

  // The iteration keys that the step leaving a code point may continue with.
  function Picks(sh: Shared, code: Code): set<Int32>
    requires Needs(code) <= sh.levels.Keys
  {
    match code
    case ListOpen(_) => sh.levels.Keys
    case ListCount(_, _, todo, _) => todo
    case SweepNext(todo) => todo
    case CleanOpen => sh.levels.Keys
    case CleanCheck(_, todo) => todo
    case TickOpen(groups) => groups.Keys
    case TickRead(l, groups) => if sh.levels[l].Keys != {} then sh.levels[l].Keys else groups.Keys
    case TickSend(_, ids, groups) => if ids != {} then ids else groups.Keys
    case TickRepair(_, groups) => groups.Keys
    case _ => {}
  }

  predicate Ready(sh: Shared, code: Code, ch: Choice) {
    Needs(code) <= sh.levels.Keys && PickOk(Picks(sh, code), ch.pick)
  }

  // First code point of the task spawned for a packet; None when it ends before
  // it takes any lock.
  function Begin(packet: Packet, peer: int): Option<Code> {
    match packet
    case Unreadable => None
    case Ping(id) => if id.Some? then Some(PingCount) else None
    case FromClient(c, key, request) =>
      if c == 0 then None
      else match request
        case CheckIn(account) => Some(CheckInAdd(c, peer, key, account))
        case _ => Some(Verify(c, key, request))
  }

  function Dispatch(c: Int32, request: Request): Option<Code> {
    match request
    case CheckIn(_) => None
    case Keepalive => Some(KeepaliveTouch(c))
    case Disconnect => Some(Forget(c, Finish))
    case AccountDataRequest(target) => if target.Some? then Some(AccountLook(c, target.value)) else None
    case LevelListRequest => Some(ListOpen(c))
    case SendTextMessage(text) => if text.Some? then Some(TextLook(c)) else None
    case UserLevelEntry(level) => Some(EntryLook(c, level))
    case UserLevelExit => Some(ExitClear(c))
    case UserLevelData(data) => Some(UpdateLook(c, false, data))
    case SpectateNoData => Some(UpdateLook(c, true, None))
  }

  function Resume(cont: Cont): Option<Code> {
    match cont
    case Finish => None
    case ThenDecode(c, target) =>
      if target.Some? then Some(EntryAnnounce(c, ToServerLevel(target.value))) else None
    case ThenSweep(rest) => if rest == {} then None else Some(SweepNext(rest))
  }

  function AfterUpdate(cfg: Settings, c: Int32, l: Int32): Option<Code> {
    if cfg.tickBased then None else Some(SnapFind(c, l))
  }

  function ListNext(c: Int32, todo: set<Int32>, counts: map<Int32, nat>, pick: Int32): Code {
    if todo == {} then ListSend(c, counts) else ListCount(c, pick, todo - {pick}, counts)
  }

  function CleanNext(todo: set<Int32>, pick: Int32): Option<Code> {
    if todo == {} then None else Some(CleanCheck(pick, todo - {pick}))
  }

  function TickNext(sh: Shared, groups: map<Int32, set<Int32>>, pick: Int32): Option<Code>
    requires PickOk(groups.Keys, pick)
  {
    if groups.Keys == {} then None
    else if pick in sh.levels then Some(TickRead(pick, groups - {pick}))
    else Some(TickRepair(groups[pick], groups - {pick}))
  }

  // What a step does to the level map.
  function LevelsAfter(sh: Shared, code: Code): map<Int32, LevelData>
    requires Needs(code) <= sh.levels.Keys
  {
    match code
    case LeaveErase(c, l, _) => sh.levels[l := sh.levels[l] - {c}]
    case EnterOpen(_, l) => if l in sh.levels then sh.levels else sh.levels[l := map[]]
    case EnterInsert(c, l) => sh.levels[l := Put(sh.levels[l], c, EmptyPlayer)]
    case UpdateStore(c, l, data) => sh.levels[l := Put(sh.levels[l], c, data)]
    case CleanCheck(l, _) => if sh.levels[l] == map[] then sh.levels - {l} else sh.levels
    case _ => sh.levels
  }

  // What a step does to the client map.
  function ClientsAfter(cfg: Settings, sh: Shared, code: Code, now: int): map<Int32, Client> {
    match code
    case CheckInAdd(c, peer, key, _) =>
      if c in sh.clients || IsFull(cfg, sh) then sh.clients
      else sh.clients[c := Client(peer, key, -1, now, EmptyAccount)]
    case CheckInReject(c) => sh.clients - {c}
    case CheckInStore(c, a) =>
      if c in sh.clients then sh.clients[c := sh.clients[c].(account := a)] else sh.clients
    case KeepaliveTouch(c) =>
      if c in sh.clients then sh.clients[c := sh.clients[c].(lastKeepalive := now)] else sh.clients
    case Forget(c, _) => sh.clients - {c}
    case EnterRecord(c, l) => SetLevel(sh, c, l).clients
    case ExitClear(c) => SetLevel(sh, c, -1).clients
    case TickRepair(players, _) => Repaired(sh.clients, players)
    case _ => sh.clients
  }

  // Where a step leads; None when the task ends.
  function Next(cfg: Settings, sh: Shared, code: Code, ch: Choice): Option<Code>
    requires Ready(sh, code, ch)
  {
    match code
    case PingCount => None
    case Verify(c, key, request) =>
      if c in sh.clients && sh.clients[c].secretKey == key then Dispatch(c, request) else None
    case CheckInAdd(c, _, _, account) =>
      if c in sh.clients || IsFull(cfg, sh) || account.None? then None
      else if ValidAccount(account.value) then Some(CheckInStore(c, account.value))
      else if ch.sent then Some(CheckInReject(c))
      else None
    case CheckInReject(_) => None
    case CheckInStore(c, _) => if c in sh.clients then Some(Reply(c)) else None
    case Reply(_) => None
    case KeepaliveTouch(c) => Some(Reply(c))
    case Forget(c, cont) => if Named(sh, c) != -1 then Some(LeaveFind(c, Named(sh, c), cont)) else Resume(cont)
    case LeaveFind(c, l, cont) => if l in sh.levels then Some(LeaveErase(c, l, cont)) else Resume(cont)
    case LeaveErase(_, _, cont) => Some(SpawnCleanup(cont))
    case SpawnCleanup(cont) => Resume(cont)
    case EntryLook(c, target) =>
      if c !in sh.clients then None
      else if Named(sh, c) != -1 then Some(LeaveFind(c, Named(sh, c), ThenDecode(c, target)))
      else Resume(ThenDecode(c, target))
    case EntryAnnounce(c, l) => if ch.sent || !HasRecipient(sh, l) then Some(EnterOpen(c, l)) else None
    case EnterOpen(c, l) => Some(EnterInsert(c, l))
    case EnterInsert(c, l) => Some(EnterRecord(c, l))
    case EnterRecord(_, _) => None
    case ExitClear(c) => if c in sh.clients then Some(ExitAnnounce(c, Named(sh, c))) else None
    case ExitAnnounce(c, l) => if ch.sent || !HasRecipient(sh, l) then Some(LeaveFind(c, l, Finish)) else None
    case UpdateLook(c, spectating, body) =>
      if c !in sh.clients || (!spectating && body.None?) then None
      else if !spectating && Named(sh, c) != -1 then Some(UpdateFind(c, Named(sh, c), body.value))
      else AfterUpdate(cfg, c, Named(sh, c))
    case UpdateFind(c, l, data) => if l in sh.levels then Some(UpdateStore(c, l, data)) else None
    case UpdateStore(c, l, _) => AfterUpdate(cfg, c, l)
    case SnapFind(c, l) => if l in sh.levels then Some(SnapRead(c, l)) else None
    case SnapRead(c, l) => Some(SnapSend(c, l, sh.levels[l]))
    case SnapSend(_, _, _) => None
    case ListOpen(c) => Some(ListNext(c, sh.levels.Keys, map[], ch.pick))
    case ListCount(c, l, todo, counts) => Some(ListNext(c, todo, counts[l := |sh.levels[l]|], ch.pick))
    case ListSend(_, _) => None
    case AccountLook(c, other) => if other in sh.clients then Some(Reply(c)) else None
    case TextLook(c) => Some(TextBroadcast(c))
    case TextBroadcast(_) => None
    case SweepLook => Resume(ThenSweep(DeadClients(cfg, sh, ch.now)))
    case SweepNext(todo) => if todo == {} then None else Some(Forget(ch.pick, ThenSweep(todo - {ch.pick})))
    case CleanOpen => CleanNext(sh.levels.Keys, ch.pick)
    case CleanCheck(_, todo) => CleanNext(todo, ch.pick)
    case TickLook => Some(TickOpen(TickGroups(sh)))
    case TickOpen(groups) => TickNext(sh, groups, ch.pick)
    case TickRead(l, groups) =>
      var ids := sh.levels[l].Keys;
      if ids != {} then Some(TickSend(l, ids - {ch.pick}, groups)) else TickNext(sh, groups, ch.pick)
    case TickSend(l, ids, groups) =>
      if ids != {} then Some(TickSend(l, ids - {ch.pick}, groups)) else TickNext(sh, groups, ch.pick)
    case TickRepair(_, groups) => TickNext(sh, groups, ch.pick)
  }

  // One step of a task whose wanted lock has been granted, as seen by the maps.
  function After(cfg: Settings, sh: Shared, code: Code, ch: Choice): Shared
    requires Ready(sh, code, ch)
  {
    Shared(LevelsAfter(sh, code), ClientsAfter(cfg, sh, code, ch.now))
  }
}
