// Who is connected to the server that handles one packet at a time, under which session,
// and when it was last heard of.

module Presence {
  import opened Collections
  import opened GameData
  import opened ServerState
  import opened Handling
  import opened Sequential
  import opened Registers
  import opened Sessions

  // What a check-in makes of a client that was not connected.
  function CheckedIn(peer: int, key: Int32, account: Option<Account>, net: Network, now: int): Option<Session> {
    if account.None? then Some(Session(peer, key, EmptyAccount, now))
    else if ValidAccount(account.value) then Some(Session(peer, key, account.value, now))
    else if net(peer) then None
    else Some(Session(peer, key, EmptyAccount, now))
  }

  // What a packet makes of the session of client c.
  function AfterPacket(s: Option<Session>, c: Int32, full: bool, packet: Packet, peer: int, net: Network, now: int)
    : Option<Session>
  {
    if !packet.FromClient? || packet.client != c || c == 0 then s
    else match packet.request
      case CheckIn(account) => if s.Some? || full then s else CheckedIn(peer, packet.key, account, net, now)
      case Keepalive => if s.Some? && s.value.key == packet.key then Some(s.value.(heard := now)) else s
      case Disconnect => if s.Some? && s.value.key == packet.key then None else s
      case _ => s
  }

  // The session of client c, as its own check-ins, keepalives and disconnects, and the sweeps that
  // find it silent, have left it.
  function SessionOf(cfg: Settings, inputs: seq<Input>, c: Int32): Option<Session> {
    if inputs == [] then None
    else
      var init := inputs[..|inputs| - 1];
      var s := SessionOf(cfg, init, c);
      match inputs[|inputs| - 1]
      case Received(packet, peer, net, now) => AfterPacket(s, c, IsFull(cfg, Play(cfg, init)), packet, peer, net, now)
      case Sweep(now, _) => if s.Some? && 0 <= now - s.value.heard <= cfg.kickTimeout then s else None
      case Tick => s
  }

  lemma SignInTracks(cfg: Settings, sh: Shared, s: Option<Session>, d: Int32, key: Int32, account: Option<Account>,
                     peer: int, net: Network, now: int, c: Int32)
    requires Tracks(s, sh, c) && d != 0
    ensures Tracks(AfterPacket(s, c, IsFull(cfg, sh), FromClient(d, key, CheckIn(account)), peer, net, now),
                   SignedIn(cfg, sh, d, peer, key, account, net, now), c)
  {
  }

  // Only the level may have changed.
  ghost predicate SameSessions(a: Shared, b: Shared) {
    && a.clients.Keys == b.clients.Keys
    && forall c | c in a.clients && c in b.clients ::
         b.clients[c].(levelId := a.clients[c].levelId) == a.clients[c]
  }

  lemma SameSessionsTrack(a: Shared, b: Shared, s: Option<Session>, c: Int32)
    requires SameSessions(a, b) && Tracks(s, a, c)
    ensures Tracks(s, b, c)
  {
    assert c in a.clients.Keys <==> c in b.clients.Keys;
    if c in a.clients { assert b.clients[c].(levelId := a.clients[c].levelId) == a.clients[c]; }
  }

  lemma MovingKeepsSessions(sh: Shared, d: Int32, request: Request, net: Network, now: int)
    requires !request.Keepalive? && !request.Disconnect?
    ensures SameSessions(sh, Answered(sh, d, request, net, now))
  {
  }

  lemma AnswerTracks(sh: Shared, s: Option<Session>, d: Int32, key: Int32, request: Request, net: Network, now: int,
                     c: Int32, full: bool, peer: int)
    requires Tracks(s, sh, c) && d != 0 && !request.CheckIn? && Accepted(sh, d, key)
    ensures Tracks(AfterPacket(s, c, full, FromClient(d, key, request), peer, net, now),
                   Answered(sh, d, request, net, now), c)
  {
    if !request.Keepalive? && !request.Disconnect? {
      MovingKeepsSessions(sh, d, request, net, now);
      SameSessionsTrack(sh, Answered(sh, d, request, net, now), s, c);
    }
  }

  lemma PacketTracks(cfg: Settings, sh: Shared, s: Option<Session>, packet: Packet, peer: int, net: Network, now: int,
                     c: Int32)
    requires Tracks(s, sh, c)
    ensures Tracks(AfterPacket(s, c, IsFull(cfg, sh), packet, peer, net, now),
                   Handled(cfg, sh, packet, peer, net, now), c)
  {
    if packet.FromClient? && packet.client != 0 {
      if packet.request.CheckIn? {
        SignInTracks(cfg, sh, s, packet.client, packet.key, packet.request.account, peer, net, now, c);
      } else if Accepted(sh, packet.client, packet.key) {
        AnswerTracks(sh, s, packet.client, packet.key, packet.request, net, now, c, IsFull(cfg, sh), peer);
      }
    }
  }

  lemma SweepTracks(cfg: Settings, sh: Shared, s: Option<Session>, now: int, order: seq<Int32>, c: Int32)
    requires Tracks(s, sh, c) && Enumerates(order, DeadClients(cfg, sh, now))
    ensures Tracks(if s.Some? && 0 <= now - s.value.heard <= cfg.kickTimeout then s else None,
                   ForgottenAll(sh, order), c)
  {
    SweepKeepsTheLiving(cfg, sh, now, order, c);
  }

  lemma TickTracks(sh: Shared, s: Option<Session>, c: Int32)
    requires Tracks(s, sh, c)
    ensures Tracks(s, Ticked(sh), c)
  {
    SameSessionsTrack(sh, Ticked(sh), s, c);
  }

  // Main result: in every run a client is connected exactly while it has a session, and its record
  // holds the address, key and account of that session and the time it was last heard of.
  lemma {:induction false} SessionsAreKept(cfg: Settings, inputs: seq<Input>, c: Int32)
    requires AllPossible(cfg, inputs)
    ensures Tracks(SessionOf(cfg, inputs, c), Play(cfg, inputs), c)
  {
    if inputs != [] {
      var init, sh := inputs[..|inputs| - 1], Play(cfg, inputs[..|inputs| - 1]);
      PossibleSoFar(cfg, inputs);
      SessionsAreKept(cfg, init, c);
      match inputs[|inputs| - 1]
      case Received(packet, peer, net, now) =>
        PacketTracks(cfg, sh, SessionOf(cfg, init, c), packet, peer, net, now, c);
      case Sweep(now, order) => SweepTracks(cfg, sh, SessionOf(cfg, init, c), now, order, c);
      case Tick => TickTracks(sh, SessionOf(cfg, init, c), c);
    }
  }

  // So a sweep removes exactly the clients that it has not heard of within the timeout.
  lemma SweepRemovesTheSilent(cfg: Settings, inputs: seq<Input>, now: int, order: seq<Int32>, c: Int32)
    requires AllPossible(cfg, inputs + [Sweep(now, order)])
    ensures c in Play(cfg, inputs + [Sweep(now, order)]).clients <==>
              var s := SessionOf(cfg, inputs, c); s.Some? && 0 <= now - s.value.heard <= cfg.kickTimeout
  {
    SessionsAreKept(cfg, inputs + [Sweep(now, order)], c);
    assert (inputs + [Sweep(now, order)])[..|inputs|] == inputs;
  }

  // Main result: no one is shown an account that is out of range.
  lemma AccountsAreInRange(cfg: Settings, inputs: seq<Input>, c: Int32)
    requires AllPossible(cfg, inputs) && SessionOf(cfg, inputs, c).Some?
    ensures var a := SessionOf(cfg, inputs, c).value.account;
            a == EmptyAccount
            || (|a.name| < 16 && (forall i | 0 <= i < |a.name| :: a.name[i] < 128)
                && 0 <= a.cube <= 148 && 1 <= a.ship <= 51 && 0 <= a.ball <= 43 && 1 <= a.ufo <= 35
                && 1 <= a.wave <= 35 && 1 <= a.robot <= 26 && 1 <= a.spider <= 17 && 1 <= a.deathEffect <= 17)
  {
    SessionsAreKept(cfg, inputs, c);
    RunsAreVetted(cfg, inputs);
  }
}
