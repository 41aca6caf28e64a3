// What every whole packet, sweep and tick does to the server's two maps when nothing
// else runs in the meantime and the cleanup it spawns runs at once.

module Handling {
  import opened Collections
  import opened GameData
  import opened ServerState

  // Which addresses a send reaches while one packet is handled.
  type Network = int -> bool

  // A broadcast to level l succeeds.
  predicate Reaches(net: Network, sh: Shared, l: Int32) {
    forall c | c in Recipients(sh, l) :: net(sh.clients[c].address)
  }

  function DropEmpty(levels: map<Int32, LevelData>): map<Int32, LevelData> {
    map l | l in levels && levels[l] != map[] :: levels[l]
  }

  function Leave(sh: Shared, c: Int32, l: Int32): Shared {
    if l in sh.levels then sh.(levels := DropEmpty(sh.levels[l := sh.levels[l] - {c}])) else sh
  }

  function LeaveNamed(sh: Shared, c: Int32): Shared {
    if Named(sh, c) != -1 then Leave(sh, c, Named(sh, c)) else sh
  }

  function Enter(sh: Shared, c: Int32, l: Int32): Shared {
    var level := if l in sh.levels then sh.levels[l] else map[];
    SetLevel(sh.(levels := sh.levels[l := Put(level, c, EmptyPlayer)]), c, l)
  }

  predicate CanEnter(net: Network, sh: Shared, target: Option<Int32>) {
    target.Some? && Reaches(net, sh, ToServerLevel(target.value))
  }

  function Entered(sh: Shared, c: Int32, target: Option<Int32>, net: Network): Shared {
    if c !in sh.clients then sh
    else
      var left := LeaveNamed(sh, c);
      if CanEnter(net, left, target) then Enter(left, c, ToServerLevel(target.value)) else left
  }

  function Exited(sh: Shared, c: Int32, net: Network): Shared {
    if c !in sh.clients then sh
    else
      var cleared := SetLevel(sh, c, -1);
      if Reaches(net, cleared, Named(sh, c)) then Leave(cleared, c, Named(sh, c)) else cleared
  }

  function Updated(sh: Shared, c: Int32, data: Option<ServerPlayer>): Shared {
    var l := Named(sh, c);
    if data.None? || l == -1 || l !in sh.levels then sh
    else sh.(levels := sh.levels[l := Put(sh.levels[l], c, data.value)])
  }

  function SignedIn(cfg: Settings, sh: Shared, c: Int32, peer: int, key: Int32, account: Option<Account>,
                    net: Network, now: int): Shared
  {
    if c in sh.clients || IsFull(cfg, sh) then sh
    else if account.Some? && ValidAccount(account.value) then
      sh.(clients := sh.clients[c := Client(peer, key, -1, now, account.value)])
    else if account.Some? && net(peer) then sh
    else sh.(clients := sh.clients[c := Client(peer, key, -1, now, EmptyAccount)])
  }

  function Touched(sh: Shared, c: Int32, now: int): Shared {
    if c in sh.clients then sh.(clients := sh.clients[c := sh.clients[c].(lastKeepalive := now)]) else sh
  }

  function Forgotten(sh: Shared, c: Int32): Shared {
    var gone := sh.(clients := sh.clients - {c});
    if Named(sh, c) != -1 then Leave(gone, c, Named(sh, c)) else gone
  }

  function ForgottenAll(sh: Shared, order: seq<Int32>): Shared {
    if order == [] then sh else Forgotten(ForgottenAll(sh, order[..|order| - 1]), order[|order| - 1])
  }

  // Clients whose record names a level that does not exist.
  function Strays(sh: Shared): set<Int32> {
    set c | c in sh.clients && sh.clients[c].levelId != -1 && sh.clients[c].levelId !in sh.levels
  }

  function Ticked(sh: Shared): Shared {
    sh.(clients := Repaired(sh.clients, Strays(sh)))
  }

  function StraysOn(sh: Shared, ls: set<Int32>): set<Int32> {
    set c | c in sh.clients && sh.clients[c].levelId in ls && sh.clients[c].levelId !in sh.levels
  }

  // The client map during a tick that still has some levels to do.
  function RepairedBut(sh: Shared, todo: set<Int32>): map<Int32, Client> {
    Repaired(sh.clients, StraysOn(sh, NamedLevels(sh) - todo))
  }

  lemma TickStartsAndEnds(sh: Shared)
    ensures RepairedBut(sh, NamedLevels(sh)) == sh.clients
    ensures RepairedBut(sh, {}) == Ticked(sh).clients
  {
    assert StraysOn(sh, NamedLevels(sh)) == Strays(sh);
  }

  lemma OneLevelTicked(sh: Shared, todo: set<Int32>, l: Int32)
    requires l in todo && todo <= NamedLevels(sh)
    ensures Recipients(sh, l) <= RepairedBut(sh, todo).Keys
    ensures RepairedBut(sh, todo - {l}) == if l in sh.levels then RepairedBut(sh, todo)
                                           else Repaired(RepairedBut(sh, todo), Recipients(sh, l))
  {
    var done := NamedLevels(sh) - todo;
    assert NamedLevels(sh) - (todo - {l}) == done + {l};
    if l in sh.levels {
      assert StraysOn(sh, done + {l}) == StraysOn(sh, done);
    } else {
      assert StraysOn(sh, done + {l}) == StraysOn(sh, done) + Recipients(sh, l);
    }
  }

  predicate Accepted(sh: Shared, c: Int32, key: Int32) {
    c in sh.clients && sh.clients[c].secretKey == key
  }

  function Answered(sh: Shared, c: Int32, request: Request, net: Network, now: int): Shared {
    match request
    case Keepalive => Touched(sh, c, now)
    case Disconnect => Forgotten(sh, c)
    case UserLevelEntry(target) => Entered(sh, c, target, net)
    case UserLevelExit => Exited(sh, c, net)
    case UserLevelData(data) => Updated(sh, c, data)
    case _ => sh
  }

  function Handled(cfg: Settings, sh: Shared, packet: Packet, peer: int, net: Network, now: int): Shared {
    if !packet.FromClient? || packet.client == 0 then sh
    else if packet.request.CheckIn? then
      SignedIn(cfg, sh, packet.client, peer, packet.key, packet.request.account, net, now)
    else if Accepted(sh, packet.client, packet.key) then Answered(sh, packet.client, packet.request, net, now)
    else sh
  }

  // One thing that happens to the server. A sweep removes its dead in some order.
  datatype Input =
    | Received(packet: Packet, peer: int, net: Network, now: int)
    | Sweep(now: int, order: seq<Int32>)
    | Tick

  ghost predicate Possible(cfg: Settings, sh: Shared, input: Input) {
    match input
    case Received(_, _, _, _) => true
    case Sweep(now, order) => Enumerates(order, DeadClients(cfg, sh, now))
    case Tick => cfg.tickBased
  }

  function Outcome(cfg: Settings, sh: Shared, input: Input): Shared {
    match input
    case Received(packet, peer, net, now) => Handled(cfg, sh, packet, peer, net, now)
    case Sweep(_, order) => ForgottenAll(sh, order)
    case Tick => Ticked(sh)
  }

  // The maps after a run that starts with an empty server.
  function Play(cfg: Settings, inputs: seq<Input>): Shared {
    if inputs == [] then Shared(map[], map[])
    else Outcome(cfg, Play(cfg, inputs[..|inputs| - 1]), inputs[|inputs| - 1])
  }
}
