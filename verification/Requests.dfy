// What each packet of a client comes to, from its bytes to what the server's maps hold and what is
// read by those who are sent something.

module Requests {
  import opened Collections
  import opened GameData
  import opened ServerState
  import opened Agreement
  import opened Handling
  import opened Sequential
  import opened Registers
  import opened Wire
  import opened PlayerCodec
  import opened AccountCodec
  import opened Packets
  import opened Replies
  import IdLists
  import EndToEnd
  import Presence

  // A server, and which strings are text for it.
  datatype Host = Host(cfg: Settings, tps: nat, utf8: seq<Byte> -> bool) {
    // The maps after the bytes of a packet from `peer` were handled, as State.HandlePacket leaves them.
    function After(sh: Shared, d: seq<Byte>, peer: int, net: Network, now: int): Shared {
      Handled(cfg, sh, ParsePacket(d, utf8), peer, net, now)
    }

    // What State.HandlePacket may send because of them.
    ghost predicate Sends(sh: Shared, d: seq<Byte>, peer: int, net: Network, sent: seq<Datagram>) {
      Carried(ReplyPlan(cfg, tps, sh, ParsePacket(d, utf8), peer), net, sent)
    }
  }

  // One datagram goes to an address if it can be reached, and is read as r.
  ghost predicate OneReads(sent: seq<Datagram>, to: int, net: Network, own: Option<Int32>, r: Packets.Received) {
    if net(to) then |sent| == 1 && sent[0].to == to && ReadPacket(sent[0].data, own) == Some(r) else sent == []
  }

  // Each of some clients is sent one datagram, and reads it as r.
  ghost predicate AllRead(sent: seq<Datagram>, clients: map<Int32, Client>, ids: set<Int32>, own: Option<Int32>,
                          r: Packets.Received)
  {
    exists order | Enumerates(order, ids) && Known(order, clients.Keys) ::
      && |sent| == |order|
      && forall i | 0 <= i < |order| ::
           sent[i].to == clients[order[i]].address && ReadPacket(sent[i].data, own) == Some(r)
  }

  lemma ReplyIsRead(to: int, m: Message, net: Network, sent: seq<Datagram>, own: Option<Int32>)
    requires Carried(Reply(to, m), net, sent) && EndToEnd.Readable(m)
    ensures OneReads(sent, to, net, own, EndToEnd.Read(m, own))
  {
    if net(to) { EndToEnd.MessageIsRead(m, sent[0].data, own); }
  }

  function OnLevel(clients: map<Int32, Client>, l: Int32): set<Int32> {
    set c | c in clients && clients[c].levelId == l
  }

  // Names are too short for a notice to be cut.
  lemma NoticesAreWhole(name: seq<Byte>, own: Option<Int32>)
    requires |name| < 16
    ensures EndToEnd.Readable(Joined(name)) && EndToEnd.Readable(Left(name))
    ensures EndToEnd.Read(Joined(name), own) == BroadcastReceived(name + Text(" joined"), (30, 200, 30))
    ensures EndToEnd.Read(Left(name), own) == BroadcastReceived(name + Text(" left"), (200, 30, 30))
  {
  }

  predicate AllReachable(clients: map<Int32, Client>, l: Int32, net: Network) {
    forall c | c in OnLevel(clients, l) :: net(clients[c].address)
  }

  lemma AnnouncementIsRead(clients: map<Int32, Client>, l: Int32, m: Message, net: Network, sent: seq<Datagram>,
                           own: Option<Int32>)
    requires Carried(Announce(clients, l, m), net, sent) && EndToEnd.Readable(m) && AllReachable(clients, l, net)
    ensures AllRead(sent, clients, OnLevel(clients, l), own, EndToEnd.Read(m, own))
  {
    var reached :| AnnouncedTo(reached, clients, l, m, net, sent);
    forall i | 0 <= i < |sent| ensures ReadPacket(sent[i].data, own) == Some(EndToEnd.Read(m, own)) {
      EndToEnd.MessageIsRead(m, sent[i].data, own);
    }
    assert Enumerates(reached, OnLevel(clients, l)) && Known(reached, clients.Keys);
  }

  // If someone cannot be reached, the announcement still goes to no one else, and is read as the same.
  lemma AnnouncementStaysOnLevel(clients: map<Int32, Client>, l: Int32, m: Message, net: Network, sent: seq<Datagram>,
                                 own: Option<Int32>)
    requires Carried(Announce(clients, l, m), net, sent) && EndToEnd.Readable(m)
    ensures exists ids :: ids <= OnLevel(clients, l) && AllRead(sent, clients, ids, own, EndToEnd.Read(m, own))
  {
    var reached :| AnnouncedTo(reached, clients, l, m, net, sent);
    forall i | 0 <= i < |sent| ensures ReadPacket(sent[i].data, own) == Some(EndToEnd.Read(m, own)) {
      EndToEnd.MessageIsRead(m, sent[i].data, own);
    }
    assert Enumerates(reached, Elements(reached)) && Elements(reached) <= OnLevel(clients, l);
    assert AllRead(sent, clients, Elements(reached), own, EndToEnd.Read(m, own));
  }

  lemma SameAddresses(sent: seq<Datagram>, a: map<Int32, Client>, b: map<Int32, Client>, ids: set<Int32>,
                      own: Option<Int32>, r: Packets.Received)
    requires AllRead(sent, a, ids, own, r) && a.Keys == b.Keys
    requires forall c | c in a && c in b :: a[c].address == b[c].address
    ensures AllRead(sent, b, ids, own, r)
  {
  }

  // ----- packets that are only a header -----

  // What the two sides of a packet are, for each request.
  lemma AnsweredBy(h: Host, sh: Shared, d: seq<Byte>, c: Int32, key: Int32, request: Request, peer: int, net: Network,
                   now: int, sent: seq<Datagram>)
    requires ParsePacket(d, h.utf8) == FromClient(c, key, request)
    requires c != 0 && !request.CheckIn? && Accepted(sh, c, key)
    ensures h.After(sh, d, peer, net, now) == Answered(sh, c, request, net, now)
    ensures h.Sends(sh, d, peer, net, sent) <==> Carried(AnswerPlan(h.cfg, sh, c, request), net, sent)
  {
  }

  lemma SignedInBy(h: Host, sh: Shared, d: seq<Byte>, c: Int32, key: Int32, a: Option<Account>, peer: int, net: Network,
                   now: int, sent: seq<Datagram>)
    requires ParsePacket(d, h.utf8) == FromClient(c, key, CheckIn(a)) && c != 0
    ensures h.After(sh, d, peer, net, now) == SignedIn(h.cfg, sh, c, peer, key, a, net, now)
    ensures h.Sends(sh, d, peer, net, sent) <==> Carried(CheckInPlan(h.cfg, h.tps, sh, c, peer, a), net, sent)
  {
  }

  // A keepalive is noted, and answered with the number of clients.
  lemma KeepaliveArrives(h: Host, sh: Shared, c: Int32, key: Int32, peer: int, net: Network, now: int,
                         sent: seq<Datagram>, own: Option<Int32>)
    requires c != 0 && Accepted(sh, c, key)
    requires h.Sends(sh, ClientMessage(101, c, key, []), peer, net, sent)
    ensures h.After(sh, ClientMessage(101, c, key, []), peer, net, now)
         == Shared(sh.levels, sh.clients[c := sh.clients[c].(lastKeepalive := now)])
    ensures OneReads(sent, sh.clients[c].address, net, own, KeepaliveReceived(|sh.clients| % 0x1_0000_0000))
  {
    ServerParsesBare(c, key, h.utf8);
    AnsweredBy(h, sh, ClientMessage(101, c, key, []), c, key, Keepalive, peer, net, now, sent);
    ReplyIsRead(sh.clients[c].address, Alive(|sh.clients|), net, sent, own);
  }

  // A disconnect takes the client, and no one else, from the server and from its level.
  lemma DisconnectArrives(h: Host, sh: Shared, c: Int32, key: Int32, peer: int, net: Network, now: int,
                          sent: seq<Datagram>)
    requires c != 0 && Accepted(sh, c, key) && AllAgree(false, sh) && Tidy(sh)
    requires h.Sends(sh, ClientMessage(102, c, key, []), peer, net, sent)
    ensures var after := h.After(sh, ClientMessage(102, c, key, []), peer, net, now);
            && after.clients == sh.clients - {c} && sent == []
            && forall d, m :: Member(after, d, m) <==> Member(sh, d, m) && d != c
  {
    ServerParsesBare(c, key, h.utf8);
    AnsweredBy(h, sh, ClientMessage(102, c, key, []), c, key, Request.Disconnect, peer, net, now, sent);
    forall d, m ensures Member(Forgotten(sh, c), d, m) <==> Member(sh, d, m) && d != c { ForgetMembers(sh, c, d, m); }
  }

  // A request for the level list changes nothing and is answered with every level's size.
  lemma LevelListArrives(h: Host, sh: Shared, c: Int32, key: Int32, peer: int, net: Network, now: int,
                         sent: seq<Datagram>, own: Option<Int32>)
    requires c != 0 && Accepted(sh, c, key) && Tidy(sh) && EndToEnd.Countable(sh)
    requires h.Sends(sh, ClientMessage(105, c, key, []), peer, net, sent)
    ensures h.After(sh, ClientMessage(105, c, key, []), peer, net, now) == sh && AreReal(sh.levels.Keys)
    ensures OneReads(sent, sh.clients[c].address, net, own, LevelListReceived(WireList(sh.levels)))
  {
    ServerParsesBare(c, key, h.utf8);
    AnsweredBy(h, sh, ClientMessage(105, c, key, []), c, key, LevelListRequest, peer, net, now, sent);
    assert AreReal(sh.levels.Keys);
    ReplyIsRead(sh.clients[c].address, LevelCounts(sh.levels), net, sent, own);
  }

  // Without ticks a spectator is shown the level it names, and changes nothing.
  lemma SpectatorArrives(h: Host, sh: Shared, c: Int32, key: Int32, peer: int, net: Network, now: int,
                         sent: seq<Datagram>, own: Option<Int32>)
    requires c != 0 && Accepted(sh, c, key)
    requires Named(sh, c) in sh.levels ==> |sh.levels[Named(sh, c)]| < 0x1_0000
    requires h.Sends(sh, ClientMessage(113, c, key, []), peer, net, sent)
    ensures h.After(sh, ClientMessage(113, c, key, []), peer, net, now) == sh
    ensures if h.cfg.tickBased || Named(sh, c) !in sh.levels then sent == []
            else OneReads(sent, sh.clients[c].address, net, own,
                          LevelDataReceived(Without(sh.levels[Named(sh, c)], own)))
  {
    ServerParsesBare(c, key, h.utf8);
    AnsweredBy(h, sh, ClientMessage(113, c, key, []), c, key, SpectateNoData, peer, net, now, sent);
    if !h.cfg.tickBased && Named(sh, c) in sh.levels {
      ReplyIsRead(sh.clients[c].address, Snapshot(sh.levels[Named(sh, c)]), net, sent, own);
    }
  }

  // ----- entering and leaving -----

  // The other clients are where they were.
  ghost predicate OthersStay(a: Shared, b: Shared, c: Int32) {
    && b.clients - {c} == a.clients - {c}
    && forall d, m | d != c :: Member(b, d, m) <==> Member(a, d, m)
  }

  lemma LeavingMovesOne(sh: Shared, c: Int32)
    requires AllAgree(false, sh) && Tidy(sh)
    ensures OthersStay(sh, LeaveNamed(sh, c), c) && Nowhere(LeaveNamed(sh, c), c)
    ensures LeaveNamed(sh, c).clients == sh.clients
  {
    LeaveNamedGoesNowhere(false, sh, c);
    forall d, m | d != c ensures Member(LeaveNamed(sh, c), d, m) <==> Member(sh, d, m) {
      LeaveMembers(sh, c, Named(sh, c), d, m);
    }
  }

  lemma EnteringMovesOne(sh: Shared, c: Int32, l: Int32)
    requires c in sh.clients
    ensures OthersStay(sh, Enter(sh, c, l), c)
    ensures forall m :: Member(Enter(sh, c, l), c, m) <==> Member(sh, c, m) || m == l
    ensures l in Enter(sh, c, l).levels && Enter(sh, c, l).levels[l][c] == EmptyPlayer
    ensures Enter(sh, c, l).clients[c] == sh.clients[c].(levelId := l)
  {
    forall d, m ensures Member(Enter(sh, c, l), d, m) <==> Member(sh, d, m) || (d == c && m == l) {
      EnterMembers(sh, c, l, d, m);
    }
    assert Enter(sh, c, l).clients - {c} == sh.clients - {c};
  }

  function LevelOnServer(wire: Int32): Int32 {
    if wire == -1 then -2_000_000_000 else if wire == -2 then -2_000_000_001 else wire
  }

  lemma EntryIs(sh: Shared, c: Int32, wire: Int32, net: Network)
    requires c in sh.clients
    ensures Entered(sh, c, Some(wire), net)
         == if AllReachable(sh.clients, LevelOnServer(wire), net) then Enter(LeaveNamed(sh, c), c, LevelOnServer(wire))
            else LeaveNamed(sh, c)
  {
    assert LeaveNamed(sh, c).clients == sh.clients;
    assert Recipients(LeaveNamed(sh, c), LevelOnServer(wire)) == OnLevel(sh.clients, LevelOnServer(wire));
  }

  // An entry that can be announced puts the client, with the empty record, into the level it asks for
  // and into no other.
  lemma EntryArrives(h: Host, sh: Shared, c: Int32, key: Int32, wire: Int32, peer: int, net: Network, now: int)
    requires c != 0 && Accepted(sh, c, key) && AllAgree(false, sh) && Tidy(sh)
    requires AllReachable(sh.clients, LevelOnServer(wire), net)
    ensures var l := LevelOnServer(wire);
            var after := h.After(sh, ClientMessage(110, c, key, I32(wire)), peer, net, now);
            && OthersStay(sh, after, c)
            && c in after.clients && after.clients[c] == sh.clients[c].(levelId := l)
            && (forall m :: Member(after, c, m) <==> m == l)
            && l in after.levels && c in after.levels[l] && after.levels[l][c] == EmptyPlayer
  {
    ServerParsesEntry(c, key, wire, h.utf8);
    AnsweredBy(h, sh, ClientMessage(110, c, key, I32(wire)), c, key, UserLevelEntry(Some(wire)), peer, net, now, []);
    EntryIs(sh, c, wire, net);
    LeavingMovesOne(sh, c);
    EnteringMovesOne(LeaveNamed(sh, c), c, LevelOnServer(wire));
  }

  // That is said to everyone whose record names the level.
  lemma EntryIsAnnounced(h: Host, sh: Shared, c: Int32, key: Int32, wire: Int32, peer: int, net: Network,
                         sent: seq<Datagram>, own: Option<Int32>)
    requires c != 0 && Accepted(sh, c, key) && Vetted(sh) && AllReachable(sh.clients, LevelOnServer(wire), net)
    requires h.Sends(sh, ClientMessage(110, c, key, I32(wire)), peer, net, sent)
    ensures AllRead(sent, sh.clients, OnLevel(sh.clients, LevelOnServer(wire)), own,
                    BroadcastReceived(sh.clients[c].account.name + Text(" joined"), (30, 200, 30)))
  {
    ServerParsesEntry(c, key, wire, h.utf8);
    AnsweredBy(h, sh, ClientMessage(110, c, key, I32(wire)), c, key, UserLevelEntry(Some(wire)), peer, net, 0, sent);
    NoticesAreWhole(sh.clients[c].account.name, own);
    AnnouncementIsRead(sh.clients, LevelOnServer(wire), Joined(sh.clients[c].account.name), net, sent, own);
  }

  // An entry that cannot be announced leaves the client in no level, with its record as it was.
  lemma EntryFails(h: Host, sh: Shared, c: Int32, key: Int32, wire: Int32, peer: int, net: Network, now: int)
    requires c != 0 && Accepted(sh, c, key) && AllAgree(false, sh) && Tidy(sh)
    requires !AllReachable(sh.clients, LevelOnServer(wire), net)
    ensures var after := h.After(sh, ClientMessage(110, c, key, I32(wire)), peer, net, now);
            OthersStay(sh, after, c) && Nowhere(after, c) && after.clients == sh.clients
  {
    ServerParsesEntry(c, key, wire, h.utf8);
    AnsweredBy(h, sh, ClientMessage(110, c, key, I32(wire)), c, key, UserLevelEntry(Some(wire)), peer, net, now, []);
    EntryIs(sh, c, wire, net);
    LeavingMovesOne(sh, c);
  }

  lemma ClearedMembers(sh: Shared, c: Int32)
    requires AllAgree(false, sh) && c in sh.clients
    ensures var cleared := SetLevel(sh, c, -1);
            && cleared.clients == sh.clients[c := sh.clients[c].(levelId := -1)]
            && (forall d, m :: Member(cleared, d, m) == Member(sh, d, m))
            && (forall m :: Member(sh, c, m) ==> m == Named(sh, c))
  {
    assert Agrees(false, sh, c);
  }

  lemma LeavingAfterClear(sh: Shared, c: Int32)
    requires AllAgree(false, sh) && c in sh.clients
    ensures var after := Leave(SetLevel(sh, c, -1), c, Named(sh, c));
            OthersStay(sh, after, c) && Nowhere(after, c) && after.clients[c] == sh.clients[c].(levelId := -1)
  {
    var cleared, l := SetLevel(sh, c, -1), Named(sh, c);
    ClearedMembers(sh, c);
    forall d, m ensures Member(Leave(cleared, c, l), d, m) <==> Member(sh, d, m) && !(d == c && m == l) {
      LeaveMembers(cleared, c, l, d, m);
    }
    assert Leave(cleared, c, l).clients - {c} == sh.clients - {c};
  }

  lemma ExitIs(h: Host, sh: Shared, c: Int32, key: Int32, peer: int, net: Network, now: int, sent: seq<Datagram>)
    requires c != 0 && Accepted(sh, c, key)
    ensures h.After(sh, ClientMessage(111, c, key, []), peer, net, now) == Exited(sh, c, net)
    ensures h.Sends(sh, ClientMessage(111, c, key, []), peer, net, sent) <==> Carried(AnnounceExit(sh, c), net, sent)
  {
    ServerParsesBare(c, key, h.utf8);
    AnsweredBy(h, sh, ClientMessage(111, c, key, []), c, key, UserLevelExit, peer, net, now, sent);
  }

  lemma OthersOnLevel(sh: Shared, c: Int32)
    requires c in sh.clients && Named(sh, c) != -1
    ensures OnLevel(SetLevel(sh, c, -1).clients, Named(sh, c)) == OnLevel(sh.clients, Named(sh, c)) - {c}
  {
  }

  predicate OthersReachable(sh: Shared, c: Int32, net: Network) {
    forall d | d in OnLevel(sh.clients, Named(sh, c)) - {c} :: net(sh.clients[d].address)
  }

  lemma ExitReaches(sh: Shared, c: Int32, net: Network)
    requires c in sh.clients && Named(sh, c) != -1
    ensures Reaches(net, SetLevel(sh, c, -1), Named(sh, c)) <==> OthersReachable(sh, c, net)
    ensures AllReachable(SetLevel(sh, c, -1).clients, Named(sh, c), net) <==> OthersReachable(sh, c, net)
  {
    var cleared, l := SetLevel(sh, c, -1), Named(sh, c);
    OthersOnLevel(sh, c);
    assert Recipients(cleared, l) == OnLevel(cleared.clients, l);
    assert forall d | d in OnLevel(sh.clients, l) - {c} :: cleared.clients[d] == sh.clients[d];
  }

  // An exit that can be announced takes the client out of every level; one that cannot leaves it where
  // it is. Its record names no level in either case.
  lemma ExitArrives(h: Host, sh: Shared, c: Int32, key: Int32, peer: int, net: Network, now: int)
    requires c != 0 && Accepted(sh, c, key) && AllAgree(false, sh) && Named(sh, c) != -1
    ensures var after := h.After(sh, ClientMessage(111, c, key, []), peer, net, now);
            && OthersStay(sh, after, c)
            && c in after.clients && after.clients[c] == sh.clients[c].(levelId := -1)
            && (if OthersReachable(sh, c, net) then Nowhere(after, c) else after.levels == sh.levels)
  {
    ExitIs(h, sh, c, key, peer, net, now, []);
    ExitReaches(sh, c, net);
    ClearedMembers(sh, c);
    if OthersReachable(sh, c, net) {
      LeavingAfterClear(sh, c);
    } else {
      assert SetLevel(sh, c, -1).clients - {c} == sh.clients - {c};
    }
  }

  lemma FarewellIsRead(sh: Shared, c: Int32, net: Network, sent: seq<Datagram>, own: Option<Int32>)
    requires c in sh.clients && Named(sh, c) != -1 && |sh.clients[c].account.name| < 16
    requires OthersReachable(sh, c, net) && Carried(AnnounceExit(sh, c), net, sent)
    ensures AllRead(sent, SetLevel(sh, c, -1).clients, OnLevel(sh.clients, Named(sh, c)) - {c}, own,
                    BroadcastReceived(sh.clients[c].account.name + Text(" left"), (200, 30, 30)))
  {
    ExitReaches(sh, c, net);
    OthersOnLevel(sh, c);
    NoticesAreWhole(sh.clients[c].account.name, own);
    AnnouncementIsRead(SetLevel(sh, c, -1).clients, Named(sh, c), Left(sh.clients[c].account.name), net, sent, own);
  }

  // The others on its level are told.
  lemma ExitIsAnnounced(h: Host, sh: Shared, c: Int32, key: Int32, peer: int, net: Network, sent: seq<Datagram>,
                        own: Option<Int32>)
    requires c != 0 && Accepted(sh, c, key) && Vetted(sh) && Named(sh, c) != -1 && OthersReachable(sh, c, net)
    requires h.Sends(sh, ClientMessage(111, c, key, []), peer, net, sent)
    ensures AllRead(sent, sh.clients, OnLevel(sh.clients, Named(sh, c)) - {c}, own,
                    BroadcastReceived(sh.clients[c].account.name + Text(" left"), (200, 30, 30)))
  {
    ExitIs(h, sh, c, key, peer, net, 0, sent);
    assert |sh.clients[c].account.name| < 16;
    FarewellIsRead(sh, c, net, sent, own);
    SameAddresses(sent, SetLevel(sh, c, -1).clients, sh.clients, OnLevel(sh.clients, Named(sh, c)) - {c}, own,
                  BroadcastReceived(sh.clients[c].account.name + Text(" left"), (200, 30, 30)));
  }

  // ----- frames, texts and accounts -----

  // A frame of a client in its level is stored there, and nothing else changes.
  lemma FrameArrives(h: Host, sh: Shared, c: Int32, key: Int32, p: Player<Word>, peer: int, net: Network, now: int)
    requires c != 0 && Accepted(sh, c, key)
    ensures var after := h.After(sh, ClientMessage(112, c, key, EncodePlayer(p)), peer, net, now);
            var l := Named(sh, c);
            && after.clients == sh.clients
            && after.levels == if l == -1 || l !in sh.levels then sh.levels
                               else sh.levels[l := Put(sh.levels[l], c, PlayerCodec.Served(p))]
  {
    ServerParsesPlayerData(c, key, p, h.utf8);
    AnsweredBy(h, sh, ClientMessage(112, c, key, EncodePlayer(p)), c, key,
               UserLevelData(Some(PlayerCodec.Served(p))), peer, net, now, []);
  }

  lemma TextIs(h: Host, sh: Shared, c: Int32, key: Int32, text: seq<Byte>, peer: int, net: Network, now: int,
               sent: seq<Datagram>)
    requires c != 0 && Accepted(sh, c, key) && |text| < 0x1_0000_0000
    ensures h.After(sh, ClientMessage(106, c, key, Str(text)), peer, net, now) == sh
    ensures h.Sends(sh, ClientMessage(106, c, key, Str(text)), peer, net, sent)
       <==> Carried(if h.utf8(text) then Announce(sh.clients, Named(sh, c), Chat(c, text)) else Silence, net, sent)
  {
    ServerParsesText(c, key, text, h.utf8);
    AnsweredBy(h, sh, ClientMessage(106, c, key, Str(text)), c, key,
               SendTextMessage(if h.utf8(text) then Some(text) else None), peer, net, now, sent);
  }

  // A text changes nothing and is read, cut to 80 bytes, by no one but those on the sender's level,
  lemma TextArrives(h: Host, sh: Shared, c: Int32, key: Int32, text: seq<Byte>, peer: int, net: Network, now: int,
                    sent: seq<Datagram>, own: Option<Int32>)
    requires c != 0 && Accepted(sh, c, key) && |text| < 0x1_0000_0000
    requires h.Sends(sh, ClientMessage(106, c, key, Str(text)), peer, net, sent)
    ensures h.After(sh, ClientMessage(106, c, key, Str(text)), peer, net, now) == sh
    ensures if h.utf8(text) then
              exists ids :: ids <= OnLevel(sh.clients, sh.clients[c].levelId)
                            && AllRead(sent, sh.clients, ids, own,
                                       TextReceived(c, if |text| > 80 then text[..80] else text))
            else sent == []
  {
    TextIs(h, sh, c, key, text, peer, net, now, sent);
    if h.utf8(text) { AnnouncementStaysOnLevel(sh.clients, Named(sh, c), Chat(c, text), net, sent, own); }
  }

  // and by all of them if they can be reached.
  lemma TextIsHeard(h: Host, sh: Shared, c: Int32, key: Int32, text: seq<Byte>, peer: int, net: Network,
                    sent: seq<Datagram>, own: Option<Int32>)
    requires c != 0 && Accepted(sh, c, key) && |text| < 0x1_0000_0000 && h.utf8(text)
    requires h.Sends(sh, ClientMessage(106, c, key, Str(text)), peer, net, sent)
    requires AllReachable(sh.clients, sh.clients[c].levelId, net)
    ensures AllRead(sent, sh.clients, OnLevel(sh.clients, sh.clients[c].levelId), own,
                    TextReceived(c, if |text| > 80 then text[..80] else text))
  {
    TextIs(h, sh, c, key, text, peer, net, 0, sent);
    AnnouncementIsRead(sh.clients, Named(sh, c), Chat(c, text), net, sent, own);
  }

  // A client that asks for another one's account reads what that one signed in with.
  lemma AccountArrives(h: Host, sh: Shared, c: Int32, key: Int32, a: Int32, peer: int, net: Network, now: int,
                       sent: seq<Datagram>, own: Option<Int32>)
    requires c != 0 && Accepted(sh, c, key) && Vetted(sh)
    requires h.Sends(sh, ClientMessage(104, c, key, I32(a)), peer, net, sent)
    ensures h.After(sh, ClientMessage(104, c, key, I32(a)), peer, net, now) == sh
    ensures if a in sh.clients then
              OneReads(sent, sh.clients[c].address, net, own, AccountReceived(a, sh.clients[a].account))
            else sent == []
  {
    ServerParsesAccountRequest(c, key, a, h.utf8);
    AnsweredBy(h, sh, ClientMessage(104, c, key, I32(a)), c, key, AccountDataRequest(Some(a)), peer, net, now, sent);
    if a in sh.clients {
      assert |sh.clients[a].account.name| < 16;
      ReplyIsRead(sh.clients[c].address, AccountOf(a, sh.clients[a].account), net, sent, own);
    }
  }

  // Main result: in every run, a connected client that asks for the account of client a reads the
  // account of a's session, or nothing if a has none.
  lemma AccountTravels(h: Host, inputs: seq<Input>, c: Int32, key: Int32, a: Int32, peer: int, net: Network,
                       sent: seq<Datagram>, own: Option<Int32>)
    requires AllPossible(h.cfg, inputs) && c != 0 && Accepted(Play(h.cfg, inputs), c, key)
    requires h.Sends(Play(h.cfg, inputs), ClientMessage(104, c, key, I32(a)), peer, net, sent)
    ensures Presence.SessionOf(h.cfg, inputs, c).Some?
    ensures var asker, asked := Presence.SessionOf(h.cfg, inputs, c).value, Presence.SessionOf(h.cfg, inputs, a);
            if asked.Some? then OneReads(sent, asker.address, net, own, AccountReceived(a, asked.value.account))
            else sent == []
  {
    Presence.SessionsAreKept(h.cfg, inputs, c);
    Presence.SessionsAreKept(h.cfg, inputs, a);
    RunsAreVetted(h.cfg, inputs);
    AccountArrives(h, Play(h.cfg, inputs), c, key, a, peer, net, 0, sent, own);
  }

  // ----- signing in -----

  lemma CheckInIs(h: Host, sh: Shared, c: Int32, key: Int32, a: Account, peer: int, net: Network, now: int,
                  sent: seq<Datagram>)
    requires c != 0 && |a.name| < 0x1_0000_0000 && h.utf8(a.name)
    ensures h.After(sh, ClientMessage(100, c, key, EncodeAccount(a)), peer, net, now)
         == SignedIn(h.cfg, sh, c, peer, key, Some(a), net, now)
    ensures h.Sends(sh, ClientMessage(100, c, key, EncodeAccount(a)), peer, net, sent)
       <==> Carried(CheckInPlan(h.cfg, h.tps, sh, c, peer, Some(a)), net, sent)
  {
    ServerParsesCheckIn(c, key, a, h.utf8);
    SignedInBy(h, sh, ClientMessage(100, c, key, EncodeAccount(a)), c, key, Some(a), peer, net, now, sent);
  }

  lemma RoomIsLeft(cfg: Settings, sh: Shared)
    requires cfg.maxClients == 0 || |sh.clients| < cfg.maxClients
    ensures !IsFull(cfg, sh)
  {
  }

  // A new client is admitted while there is room: without a limit, or with fewer clients than it.
  lemma CheckInArrives(h: Host, sh: Shared, c: Int32, key: Int32, a: Account, peer: int, net: Network, now: int,
                       sent: seq<Datagram>, own: Option<Int32>)
    requires c != 0 && c !in sh.clients && h.utf8(a.name)
    requires |a.name| < 16 && forall i | 0 <= i < |a.name| :: a.name[i] < 128
    requires 0 <= a.cube <= 148 && 1 <= a.ship <= 51 && 0 <= a.ball <= 43 && 1 <= a.ufo <= 35 && 1 <= a.wave <= 35
    requires 1 <= a.robot <= 26 && 1 <= a.spider <= 17 && 1 <= a.deathEffect <= 17
    requires h.cfg.maxClients == 0 || |sh.clients| < h.cfg.maxClients
    requires h.Sends(sh, ClientMessage(100, c, key, EncodeAccount(a)), peer, net, sent)
    ensures h.After(sh, ClientMessage(100, c, key, EncodeAccount(a)), peer, net, now)
         == Shared(sh.levels, sh.clients[c := Client(peer, key, -1, now, a)])
    ensures OneReads(sent, peer, net, own, CheckedIn(h.tps % 0x1_0000))
  {
    CheckInIs(h, sh, c, key, a, peer, net, now, sent);
    RoomIsLeft(h.cfg, sh);
    ReplyIsRead(peer, Welcome(h.tps), net, sent, own);
  }

  // One with an account that is not valid is told so and not admitted, unless it cannot be told.
  lemma InvalidCheckInArrives(h: Host, sh: Shared, c: Int32, key: Int32, a: Account, peer: int, net: Network, now: int,
                              sent: seq<Datagram>, own: Option<Int32>)
    requires c != 0 && c !in sh.clients && !ValidAccount(a) && |a.name| < 0x1_0000_0000 && h.utf8(a.name)
    requires h.cfg.maxClients == 0 || |sh.clients| < h.cfg.maxClients
    requires h.Sends(sh, ClientMessage(100, c, key, EncodeAccount(a)), peer, net, sent)
    ensures h.After(sh, ClientMessage(100, c, key, EncodeAccount(a)), peer, net, now)
         == if net(peer) then sh
            else Shared(sh.levels, sh.clients[c := Client(peer, key, -1, now, EmptyAccount)])
    ensures OneReads(sent, peer, net, own,
                     Disconnected(Text("Invalid data was passed. Contact the developer if you think this is wrong.")))
  {
    CheckInIs(h, sh, c, key, a, peer, net, now, sent);
    RoomIsLeft(h.cfg, sh);
    ReplyIsRead(peer, Kick(INVALID_DATA), net, sent, own);
  }

  lemma SecondCheckInArrives(h: Host, sh: Shared, c: Int32, key: Int32, a: Account, peer: int, net: Network, now: int,
                             sent: seq<Datagram>, own: Option<Int32>)
    requires c != 0 && c in sh.clients && |a.name| < 0x1_0000_0000 && h.utf8(a.name)
    requires h.Sends(sh, ClientMessage(100, c, key, EncodeAccount(a)), peer, net, sent)
    ensures h.After(sh, ClientMessage(100, c, key, EncodeAccount(a)), peer, net, now) == sh
    ensures OneReads(sent, peer, net, own,
                     Disconnected(Text("Client already exists, please wait a minute before reconnecting.")))
  {
    CheckInIs(h, sh, c, key, a, peer, net, now, sent);
    ReplyIsRead(peer, Kick(ALREADY_CONNECTED), net, sent, own);
  }

  lemma NoRoomIsLeft(cfg: Settings, sh: Shared)
    requires cfg.maxClients != 0 && cfg.maxClients <= |sh.clients| < 0x8000_0000
    ensures IsFull(cfg, sh)
  {
  }

  // With a limit, no one is admitted once it is reached.
  lemma LateCheckInArrives(h: Host, sh: Shared, c: Int32, key: Int32, a: Account, peer: int, net: Network, now: int,
                           sent: seq<Datagram>, own: Option<Int32>)
    requires c != 0 && c !in sh.clients && |a.name| < 0x1_0000_0000 && h.utf8(a.name)
    requires h.cfg.maxClients != 0 && h.cfg.maxClients <= |sh.clients| < 0x8000_0000
    requires h.Sends(sh, ClientMessage(100, c, key, EncodeAccount(a)), peer, net, sent)
    ensures h.After(sh, ClientMessage(100, c, key, EncodeAccount(a)), peer, net, now) == sh
    ensures OneReads(sent, peer, net, own,
                     Disconnected(Text("This server is configured to handle a maximum of "
                                       + IdLists.ToString(|sh.clients|) + " clients, and cannot take any more.")))
  {
    CheckInIs(h, sh, c, key, a, peer, net, now, sent);
    NoRoomIsLeft(h.cfg, sh);
    EndToEnd.ReasonsAreShort(sh, c);
    ReplyIsRead(peer, Kick(ServerIsFull(|sh.clients|)), net, sent, own);
  }

  // ----- everyone else -----

  // Anyone may ask how many clients there are.
  lemma PingArrives(h: Host, sh: Shared, id: Int32, peer: int, net: Network, now: int, sent: seq<Datagram>,
                    own: Option<Int32>)
    requires h.Sends(sh, [103] + I32(id), peer, net, sent)
    ensures h.After(sh, [103] + I32(id), peer, net, now) == sh
    ensures OneReads(sent, peer, net, own, PingReceived(id, |sh.clients| % 0x1_0000_0000))
  {
    ServerParsesPing(id, h.utf8);
    ReplyIsRead(peer, Pong(id, |sh.clients|), net, sent, own);
  }

  // A packet with a key that is not its client's, or of no client, only tells its sender so.
  lemma WrongKeyArrives(h: Host, sh: Shared, d: seq<Byte>, c: Int32, key: Int32, request: Request, peer: int,
                        net: Network, now: int, sent: seq<Datagram>, own: Option<Int32>)
    requires ParsePacket(d, h.utf8) == FromClient(c, key, request) && c != 0 && !request.CheckIn?
    requires (c !in sh.clients || sh.clients[c].secretKey != key) && |sh.clients| < 0x8000_0000
    requires h.Sends(sh, d, peer, net, sent)
    ensures h.After(sh, d, peer, net, now) == sh
    ensures OneReads(sent, peer, net, own,
                     Disconnected(Text("Failed to verify secret key: "
                                       + if c in sh.clients then "Secret key does not match"
                                         else "Client not found by id " + IdLists.ToString(c))))
  {
    EndToEnd.ReasonsAreShort(sh, c);
    ReplyIsRead(peer, Kick(KeyIsRefused(sh, c)), net, sent, own);
  }

  lemma SignedOutArrives(h: Host, sh: Shared, d: seq<Byte>, key: Int32, request: Request, peer: int, net: Network,
                         now: int, sent: seq<Datagram>, own: Option<Int32>)
    requires ParsePacket(d, h.utf8) == FromClient(0, key, request) && h.Sends(sh, d, peer, net, sent)
    ensures h.After(sh, d, peer, net, now) == sh
    ensures OneReads(sent, peer, net, own,
                     Disconnected(Text("You have to sign into a Geometry Dash account before connecting."
                                       + " If you already are, please restart your game.")))
  {
    ReplyIsRead(peer, Kick(NOT_SIGNED_IN), net, sent, own);
  }
}
