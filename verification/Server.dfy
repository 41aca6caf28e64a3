// The server's state and its whole handlers, proved against the outcomes of Handling.

module Server {
  import opened Collections
  import opened GameData
  import opened ServerState
  import opened Handling
  import opened Wire
  import opened PlayerCodec
  import opened AccountCodec
  import opened Packets
  import opened Sequential

  import opened Replies

  // The level map when only the levels `todo` may still be empty.
  function DropEmptyBut(levels: map<Int32, LevelData>, todo: set<Int32>): map<Int32, LevelData> {
    map l | l in levels && (l in todo || levels[l] != map[]) :: levels[l]
  }

  lemma DropOneMore(levels: map<Int32, LevelData>, todo: set<Int32>, l: Int32)
    requires l in todo && todo <= levels.Keys
    ensures var before, after := DropEmptyBut(levels, todo), DropEmptyBut(levels, todo - {l});
            l in before && after == if before[l] == map[] then before - {l} else before
  {
  }

  lemma HandledStaysValid(cfg: Settings, sh: Shared, packet: Packet, peer: int, net: Network, now: int)
    requires Tidy(sh) && Vetted(sh)
    ensures Tidy(Handled(cfg, sh, packet, peer, net, now)) && Vetted(Handled(cfg, sh, packet, peer, net, now))
  {
    if packet.FromClient? {
      SignInKeepsVetted(cfg, sh, packet.client, peer, packet.key,
                        if packet.request.CheckIn? then packet.request.account else None,
                        net, now);
      AnswerKeepsTidy(sh, packet.client, packet.request, net, now);
      AnswerKeepsVetted(sh, packet.client, packet.request, net, now);
    }
  }

  lemma TickKeepsValid(sh: Shared)
    requires Tidy(sh) && Vetted(sh)
    ensures Tidy(Ticked(sh)) && Vetted(Ticked(sh))
  {
  }

  lemma SignInByParts(cfg: Settings, sh: Shared, c: Int32, peer: int, key: Int32, account: Option<Account>,
                      net: Network, now: int)
    requires c !in sh.clients && !IsFull(cfg, sh)
    ensures var added := sh.clients[c := Client(peer, key, -1, now, EmptyAccount)];
            SignedIn(cfg, sh, c, peer, key, account, net, now).clients
              == if account.None? then added
                 else if ValidAccount(account.value) then added[c := added[c].(account := account.value)]
                 else if net(peer) then added - {c}
                 else added
  {
    var added := sh.clients[c := Client(peer, key, -1, now, EmptyAccount)];
    assert added - {c} == sh.clients;
  }

  lemma FlattenOneMore(blocks: seq<seq<Byte>>, block: seq<Byte>)
    ensures Flatten(blocks + [block]) == Flatten(blocks) + block
  {
    assert (blocks + [block])[..|blocks|] == blocks;
  }

  lemma LevelDataOneMore(order: seq<Int32>, level: LevelData, id: Int32)
    requires Known(order, level.Keys) && id in level
    ensures Known(order + [id], level.Keys)
    ensures LevelDataBytes(order + [id], level) == LevelDataBytes(order, level) + PlayerEntry(id, level[id])
  {
    var header, blocks, entry := [LEVEL_DATA] + U16(|level| % 0x1_0000), PlayerBlocks(order, level),
      PlayerEntry(id, level[id]);
    assert PlayerBlocks(order + [id], level) == blocks + [entry];
    FlattenOneMore(blocks, entry);
    Assoc(header, Flatten(blocks), entry);
  }

  lemma LevelListOneMore(order: seq<Int32>, levels: map<Int32, LevelData>, id: Int32)
    requires Known(order, levels.Keys) && id in levels
    ensures Known(order + [id], levels.Keys)
    ensures LevelListBytes(order + [id], levels) == LevelListBytes(order, levels) + CountEntry(id, |levels[id]|)
  {
    var header, blocks := [LEVEL_LIST_RESPONSE] + U32(|levels| % 0x1_0000_0000), CountBlocks(order, levels);
    var entry := CountEntry(id, |levels[id]|);
    assert CountBlocks(order + [id], levels) == blocks + [entry];
    FlattenOneMore(blocks, entry);
    Assoc(header, Flatten(blocks), entry);
  }

  lemma NothingYet(header: seq<Byte>)
    ensures header + Flatten([]) == header
  {
  }

  method WritePlayer(buf: BitBuffer, playerId: Int32, data: ServerPlayer)
    requires buf.Valid()
    modifies buf
    ensures buf.Valid() && buf.data == old(buf.data) + PlayerEntry(playerId, data)
  {
    Assoc(buf.data, I32(playerId), EncodePlayer(data));
    buf.WriteBytes(I32(playerId));
    ServerEncode(buf, data);
  }

  method WriteCount(buf: BitBuffer, levelId: Int32, count: nat)
    requires buf.Valid()
    modifies buf
    ensures buf.Valid() && buf.data == old(buf.data) + CountEntry(levelId, count)
  {
    Assoc(buf.data, I32(ToWireLevel(levelId)), U16(count % 0x1_0000));
    buf.WriteBytes(I32(ToWireLevel(levelId)));
    buf.WriteBytes(U16(count % 0x1_0000));
  }

  method WriteLevelData(level: LevelData) returns (data: seq<Byte>, ghost order: seq<Int32>)
    ensures Enumerates(order, level.Keys) && Known(order, level.Keys)
    ensures data == LevelDataBytes(order, level)
    ensures |level| < 0x1_0000 ==> ReadPacket(data, None) == Some(LevelDataReceived(level))
  {
    var buf := new BitBuffer();
    buf.WriteBytes([LEVEL_DATA]);
    buf.WriteBytes(U16(|level| % 0x1_0000));
    NothingYet(buf.data);
    var todo := level.Keys;
    order := [];
    StartVisiting(todo);
    while todo != {}
      invariant buf.Valid() && fresh(buf)
      invariant Visiting(order, todo, level.Keys)
      invariant buf.data == LevelDataBytes(order, level)
      decreases todo
    {
      var playerId :| playerId in todo;
      WritePlayer(buf, playerId, level[playerId]);
      LevelDataOneMore(order, level, playerId);
      VisitOneMore(order, todo, level.Keys, playerId);
      todo, order := todo - {playerId}, order + [playerId];
    }
    VisitedAll(order, level.Keys);
    data := buf.data;
    if |level| < 0x1_0000 { SnapshotIsFaithful(order, level, None); }
  }

  method WriteLevelList(levels: map<Int32, LevelData>) returns (data: seq<Byte>, ghost order: seq<Int32>)
    ensures Enumerates(order, levels.Keys) && Known(order, levels.Keys)
    ensures data == LevelListBytes(order, levels)
    ensures AreReal(levels.Keys) && |levels| < 0x1_0000_0000 && (forall l | l in levels :: |levels[l]| < 0x1_0000) ==>
              ReadPacket(data, None) == Some(LevelListReceived(WireList(levels)))
  {
    var buf := new BitBuffer();
    buf.WriteBytes([LEVEL_LIST_RESPONSE]);
    buf.WriteBytes(U32(|levels| % 0x1_0000_0000));
    NothingYet(buf.data);
    var todo := levels.Keys;
    order := [];
    StartVisiting(todo);
    while todo != {}
      invariant buf.Valid() && fresh(buf)
      invariant Visiting(order, todo, levels.Keys)
      invariant buf.data == LevelListBytes(order, levels)
      decreases todo
    {
      var levelId :| levelId in todo;
      WriteCount(buf, levelId, |levels[levelId]|);
      LevelListOneMore(order, levels, levelId);
      VisitOneMore(order, todo, levels.Keys, levelId);
      todo, order := todo - {levelId}, order + [levelId];
    }
    VisitedAll(order, levels.Keys);
    data := buf.data;
    if AreReal(levels.Keys) && |levels| < 0x1_0000_0000 && forall l | l in levels :: |levels[l]| < 0x1_0000 {
      LevelListIsFaithful(order, levels, None);
    }
  }

  class State {
    const settings: Settings
    const tps: nat
    var levels: map<Int32, LevelData>
    var connectedClients: map<Int32, Client>
    var outbox: seq<Datagram>

    ghost function Maps(): Shared
      reads this
    {
      Shared(levels, connectedClients)
    }

    ghost predicate Valid()
      reads this
    {
      Tidy(Maps()) && Vetted(Maps())
    }

    constructor (settings: Settings, tps: nat)
      ensures Valid() && this.settings == settings && this.tps == tps
      ensures Maps() == Play(settings, []) && outbox == []
    {
      this.settings, this.tps := settings, tps;
      levels, connectedClients, outbox := map[], map[], [];
    }

    // ----- sending -----

    // `m` is the message that the bytes are.
    method SendBufTo(address: int, data: seq<Byte>, net: Network, ghost m: Message)
      returns (ok: bool, ghost sent: seq<Datagram>)
      requires Encodes(m, data)
      modifies this`outbox
      ensures ok == net(address)
      ensures outbox == old(outbox) + sent && Carried(Reply(address, m), net, sent)
    {
      sent := [];
      ok := net(address);
      if ok {
        outbox := outbox + [Datagram(address, data)];
        sent := [Datagram(address, data)];
      }
    }

    method SendTo(clientId: Int32, data: seq<Byte>, net: Network, ghost m: Message)
      returns (ok: bool, ghost sent: seq<Datagram>)
      requires Encodes(m, data)
      modifies this`outbox
      ensures ok <==> clientId in connectedClients && net(connectedClients[clientId].address)
      ensures outbox == old(outbox) + sent && Carried(ToClient(Maps(), clientId, m), net, sent)
    {
      if clientId !in connectedClients { return false, []; }
      ok, sent := SendBufTo(connectedClients[clientId].address, data, net, m);
    }

    // Sends to everyone on a level, and stops at the first send that fails.
    method Broadcast(levelId: Int32, data: seq<Byte>, net: Network, ghost m: Message)
      returns (ok: bool, ghost sent: seq<Datagram>)
      requires Encodes(m, data)
      modifies this`outbox
      ensures ok == Reaches(net, Maps(), levelId)
      ensures outbox == old(outbox) + sent && Carried(Announce(connectedClients, levelId, m), net, sent)
    {
      ghost var recipients := Recipients(Maps(), levelId);
      var todo := connectedClients.Keys;
      ghost var reached := [];
      sent := [];
      StartSearching(todo, recipients);
      while todo != {}
        invariant todo <= connectedClients.Keys && Searching(reached, todo, recipients)
        invariant forall c | c in recipients && c !in todo :: net(connectedClients[c].address)
        invariant forall i | 0 <= i < |reached| :: reached[i] in recipients && reached[i] !in todo
        invariant Known(reached, connectedClients.Keys) && SentTo(Addresses(reached, connectedClients), m, sent)
        invariant outbox == old(outbox) + sent
        decreases todo
      {
        var c :| c in todo;
        SearchOneMore(reached, todo, recipients, c);
        if connectedClients[c].levelId == levelId {
          ghost var piece;
          ok, piece := SendBufTo(connectedClients[c].address, data, net, m);
          if !ok {
            assert AnnouncedTo(reached, connectedClients, levelId, m, net, sent);
            return;
          }
          AddressesOneMore(reached, connectedClients, c);
          SentOneMore(Addresses(reached, connectedClients), m, sent, connectedClients[c].address, piece);
          Assoc(old(outbox), sent, piece);
          reached, sent := reached + [c], sent + piece;
        }
        todo := todo - {c};
      }
      SearchedAll(reached, recipients);
      assert AnnouncedTo(reached, connectedClients, levelId, m, net, sent);
      ok := true;
    }

    // ----- clients -----

    method AddClient(clientId: Int32, address: int, secretKey: Int32, now: int) returns (error: Option<string>)
      modifies this`connectedClients
      ensures error == if clientId in old(connectedClients) then Some(ALREADY_CONNECTED)
                       else if IsFull(settings, old(Maps())) then Some(ServerIsFull(|old(connectedClients)|))
                       else None
      ensures connectedClients
              == if error.Some? then old(connectedClients)
                 else old(connectedClients)[clientId := Client(address, secretKey, -1, now, EmptyAccount)]
    {
      if clientId in connectedClients { return Some(ALREADY_CONNECTED); }
      if settings.maxClients != 0 && AsInt32(|connectedClients|) >= settings.maxClients {
        return Some(ServerIsFull(|connectedClients|));
      }
      connectedClients := connectedClients[clientId := Client(address, secretKey, -1, now, EmptyAccount)];
      error := None;
    }

    method RemoveEmptyLevels()
      modifies this`levels
      ensures levels == DropEmpty(old(levels))
    {
      var todo := levels.Keys;
      while todo != {}
        invariant todo <= levels.Keys && levels == DropEmptyBut(old(levels), todo)
        decreases todo
      {
        var l :| l in todo;
        DropOneMore(old(levels), todo, l);
        if levels[l] == map[] {
          levels := levels - {l};
        }
        todo := todo - {l};
      }
    }

    method RemoveClientFromLevel(clientId: Int32, levelId: Int32)
      modifies this`levels
      ensures Maps() == Leave(old(Maps()), clientId, levelId)
    {
      if levelId !in levels { return; }
      levels := levels[levelId := levels[levelId] - {clientId}];
      RemoveEmptyLevels();
    }

    method RemoveClient(clientId: Int32)
      modifies this`connectedClients, this`levels
      ensures Maps() == Forgotten(old(Maps()), clientId)
    {
      if clientId in connectedClients {
        var client := connectedClients[clientId];
        connectedClients := connectedClients - {clientId};
        if client.levelId != -1 {
          RemoveClientFromLevel(clientId, client.levelId);
        }
      } else {
        assert connectedClients - {clientId} == connectedClients;
      }
    }

    method FindDead(now: int) returns (toRemove: seq<Int32>)
      ensures Enumerates(toRemove, DeadClients(settings, Maps(), now))
    {
      ghost var dead := DeadClients(settings, Maps(), now);
      var todo := connectedClients.Keys;
      toRemove := [];
      StartSearching(todo, dead);
      while todo != {}
        invariant todo <= connectedClients.Keys && Searching(toRemove, todo, dead)
        decreases todo
      {
        var c :| c in todo;
        SearchOneMore(toRemove, todo, dead, c);
        if IsDead(settings, now, connectedClients[c]) {
          toRemove := toRemove + [c];
        }
        todo := todo - {c};
      }
      SearchedAll(toRemove, dead);
    }

    // `toRemove` is the order in which the dead were met.
    method RemoveDeadClients(now: int) returns (toRemove: seq<Int32>)
      requires Valid()
      modifies this`connectedClients, this`levels
      ensures Valid()
      ensures Enumerates(toRemove, DeadClients(settings, old(Maps()), now))
      ensures Maps() == ForgottenAll(old(Maps()), toRemove)
    {
      toRemove := FindDead(now);
      for i := 0 to |toRemove|
        invariant Maps() == ForgottenAll(old(Maps()), toRemove[..i])
      {
        assert toRemove[..i + 1][..i] == toRemove[..i];
        RemoveClient(toRemove[i]);
      }
      assert toRemove[..|toRemove|] == toRemove;
      SweepKeepsTidy(old(Maps()), toRemove);
      SweepKeepsVetted(old(Maps()), toRemove);
    }

    method VerifySecretKey(clientId: Int32, key: Int32) returns (ok: bool)
      ensures ok == Accepted(Maps(), clientId, key)
    {
      if clientId !in connectedClients { return false; }
      ok := connectedClients[clientId].secretKey == key;
    }

    method Disconnect(peer: int, reason: string, net: Network) returns (ok: bool, ghost sent: seq<Datagram>)
      modifies this`outbox
      ensures ok == net(peer)
      ensures outbox == old(outbox) + sent && Carried(Reply(peer, Kick(reason)), net, sent)
    {
      ok, sent := SendBufTo(peer, [SERVER_DISCONNECT] + Str(Text(reason)), net, Kick(reason));
    }

    method RefuseKey(clientId: Int32, peer: int, net: Network) returns (ghost sent: seq<Datagram>)
      modifies this`outbox
      ensures outbox == old(outbox) + sent && Carried(Reply(peer, Kick(KeyIsRefused(Maps(), clientId))), net, sent)
    {
      var err := if clientId in connectedClients then "Secret key does not match"
                 else "Client not found by id " + IdLists.ToString(clientId);
      var _, reply := Disconnect(peer, "Failed to verify secret key: " + err, net);
      sent := reply;
    }

    // ----- levels -----

    method AddClientToLevel(clientId: Int32, levelId: Int32)
      modifies this`levels, this`connectedClients
      ensures Maps() == Enter(old(Maps()), clientId, levelId)
    {
      if levelId !in levels {
        levels := levels[levelId := map[]];
      }
      levels := levels[levelId := Put(levels[levelId], clientId, EmptyPlayer)];
      assert levels == old(levels)[levelId := levels[levelId]];
      if clientId in connectedClients {
        connectedClients := connectedClients[clientId := connectedClients[clientId].(levelId := levelId)];
      }
    }

    // ----- handlers -----

    method OnKeepalive(clientId: Int32, now: int, net: Network) returns (ok: bool, ghost sent: seq<Datagram>)
      modifies this`connectedClients, this`outbox
      ensures Maps() == Touched(old(Maps()), clientId, now)
      ensures ok <==> clientId in connectedClients && net(connectedClients[clientId].address)
      ensures outbox == old(outbox) + sent
      ensures Carried(ToClient(old(Maps()), clientId, Alive(|old(connectedClients)|)), net, sent)
    {
      if clientId in connectedClients {
        connectedClients := connectedClients[clientId := connectedClients[clientId].(lastKeepalive := now)];
      }
      var clients := |connectedClients|;
      ok, sent := SendTo(clientId, [KEEPALIVE_RESPONSE] + U32(clients % 0x1_0000_0000), net, Alive(clients));
    }

    method OnUserLevelEntry(clientId: Int32, target: Option<Int32>, net: Network)
      returns (ok: bool, ghost sent: seq<Datagram>)
      modifies this`levels, this`connectedClients, this`outbox
      ensures Maps() == Entered(old(Maps()), clientId, target, net)
      ensures ok <==> clientId in old(connectedClients) && CanEnter(net, LeaveNamed(old(Maps()), clientId), target)
      ensures outbox == old(outbox) + sent && Carried(AnnounceEntry(old(Maps()), clientId, target), net, sent)
    {
      sent := [];
      if clientId !in connectedClients { return false, sent; }
      var client := connectedClients[clientId];
      if client.levelId != -1 {
        RemoveClientFromLevel(clientId, client.levelId);
      }
      if target.None? { return false, sent; }
      var levelId := if target.value == -1 then DAILY_LEVEL_ID
                     else if target.value == -2 then WEEKLY_LEVEL_ID
                     else target.value;
      var name := client.account.name;
      ok, sent := Broadcast(levelId, NoticeBytes(name + Text(" joined"), JOINED_COLOR), net, Joined(name));
      if !ok { return; }
      AddClientToLevel(clientId, levelId);
    }

    method OnUserLevelExit(clientId: Int32, net: Network) returns (ok: bool, ghost sent: seq<Datagram>)
      modifies this`levels, this`connectedClients, this`outbox
      ensures Maps() == Exited(old(Maps()), clientId, net)
      ensures ok <==> clientId in old(connectedClients)
                      && Reaches(net, SetLevel(old(Maps()), clientId, -1), Named(old(Maps()), clientId))
      ensures outbox == old(outbox) + sent && Carried(AnnounceExit(old(Maps()), clientId), net, sent)
    {
      sent := [];
      if clientId !in connectedClients { return false, sent; }
      var client := connectedClients[clientId];
      connectedClients := connectedClients[clientId := client.(levelId := -1)];
      assert Maps() == SetLevel(old(Maps()), clientId, -1);
      var name := client.account.name;
      ok, sent := Broadcast(client.levelId, NoticeBytes(name + Text(" left"), LEFT_COLOR), net, Left(name));
      if !ok { return; }
      RemoveClientFromLevel(clientId, client.levelId);
    }

    // Stores data for a client that is on no level, or on one that exists.
    method StoreData(clientId: Int32, body: Option<ServerPlayer>) returns (ok: bool)
      requires clientId in connectedClients
      modifies this`levels
      ensures Maps() == Updated(old(Maps()), clientId, body)
      ensures ok <==> body.Some? && (Named(Maps(), clientId) == -1 || Named(Maps(), clientId) in levels)
    {
      var levelId := connectedClients[clientId].levelId;
      if body.None? { return false; }
      if levelId != -1 {
        if levelId !in levels { return false; }
        levels := levels[levelId := Put(levels[levelId], clientId, body.value)];
      }
      ok := true;
    }

    method ShowTo(clientId: Int32, level: LevelData, net: Network) returns (ok: bool, ghost sent: seq<Datagram>)
      modifies this`outbox
      ensures ok <==> clientId in connectedClients && net(connectedClients[clientId].address)
      ensures outbox == old(outbox) + sent && Carried(ToClient(Maps(), clientId, Snapshot(level)), net, sent)
    {
      var data;
      ghost var order;
      data, order := WriteLevelData(level);
      ok, sent := SendTo(clientId, data, net, Snapshot(level));
    }

    // Answers with the whole level, unless a tick does.
    method OnUpdateData(clientId: Int32, spectating: bool, body: Option<ServerPlayer>, net: Network)
      returns (ok: bool, ghost sent: seq<Datagram>)
      modifies this`levels, this`outbox
      ensures Maps() == if spectating then old(Maps()) else Updated(old(Maps()), clientId, body)
      ensures var l := Named(Maps(), clientId);
              ok <==> clientId in connectedClients && (spectating || (body.Some? && (l == -1 || l in levels)))
                      && (!settings.tickBased && l in levels ==> net(connectedClients[clientId].address))
      ensures outbox == old(outbox) + sent
      ensures Carried(AnswerData(settings, old(Maps()), clientId, spectating, body), net, sent)
    {
      ok, sent := clientId in connectedClients, [];
      if !ok { return; }
      if !spectating {
        ok := StoreData(clientId, body);
        if !ok { return; }
      }
      var levelId := connectedClients[clientId].levelId;
      if !settings.tickBased && levelId in levels {
        ok, sent := ShowTo(clientId, levels[levelId], net);
      }
    }

    method OnLevelListRequest(clientId: Int32, net: Network) returns (ok: bool, ghost sent: seq<Datagram>)
      modifies this`outbox
      ensures ok <==> clientId in connectedClients && net(connectedClients[clientId].address)
      ensures outbox == old(outbox) + sent && Carried(ToClient(Maps(), clientId, LevelCounts(levels)), net, sent)
    {
      var data;
      ghost var order;
      data, order := WriteLevelList(levels);
      ok, sent := SendTo(clientId, data, net, LevelCounts(levels));
    }

    method OnAccountDataRequest(clientId: Int32, target: Option<Int32>, net: Network)
      returns (ok: bool, ghost sent: seq<Datagram>)
      modifies this`outbox
      ensures ok <==> target.Some? && target.value in connectedClients
                      && clientId in connectedClients && net(connectedClients[clientId].address)
      ensures outbox == old(outbox) + sent && Carried(ShowAccount(Maps(), clientId, target), net, sent)
    {
      if target.None? || target.value !in connectedClients { return false, []; }
      var icons := connectedClients[target.value].account;
      ok, sent := SendTo(clientId, [ACCOUNT_DATA_RESPONSE] + I32(target.value) + EncodeAccount(icons), net,
                         AccountOf(target.value, icons));
    }

    method OnSendTextMessage(clientId: Int32, text: Option<seq<Byte>>, net: Network)
      returns (ghost sent: seq<Datagram>)
      modifies this`outbox
      ensures outbox == old(outbox) + sent && Carried(SpreadText(Maps(), clientId, text), net, sent)
    {
      sent := [];
      if text.None? || clientId !in connectedClients { return; }
      var ok;
      ok, sent := Broadcast(connectedClients[clientId].levelId,
                            [TEXT_MESSAGE_SENT] + I32(clientId) + Str(Cut(text.value)),
                            net, Chat(clientId, text.value));
    }

    // The rest of a check-in, for a client that was just added.
    method StoreAccount(clientId: Int32, peer: int, account: Option<Account>, net: Network)
      returns (ghost sent: seq<Datagram>)
      requires clientId in connectedClients && connectedClients[clientId].address == peer
      modifies this`connectedClients, this`outbox
      ensures var before := old(connectedClients);
              connectedClients == if account.None? then before
                                  else if ValidAccount(account.value) then
                                    before[clientId := before[clientId].(account := account.value)]
                                  else if net(peer) then before - {clientId}
                                  else before
      ensures outbox == old(outbox) + sent
      ensures Carried(if account.None? then Silence
                      else if ValidAccount(account.value) then Reply(peer, Welcome(tps))
                      else Reply(peer, Kick(INVALID_DATA)), net, sent)
    {
      if account.None? { return []; }
      var ok;
      if !ValidAccount(account.value) {
        ok, sent := Disconnect(peer, INVALID_DATA, net);
        if ok {
          connectedClients := connectedClients - {clientId};
        }
        return;
      }
      connectedClients := connectedClients[clientId := connectedClients[clientId].(account := account.value)];
      ok, sent := SendTo(clientId, [CHECKED_IN] + U16(tps % 0x1_0000), net, Welcome(tps));
    }

    method OnCheckIn(clientId: Int32, peer: int, key: Int32, account: Option<Account>, net: Network, now: int)
      returns (ghost sent: seq<Datagram>)
      modifies this`connectedClients, this`outbox
      ensures Maps() == SignedIn(settings, old(Maps()), clientId, peer, key, account, net, now)
      ensures outbox == old(outbox) + sent
      ensures Carried(CheckInPlan(settings, tps, old(Maps()), clientId, peer, account), net, sent)
    {
      var error := AddClient(clientId, peer, key, now);
      if error.None? {
        SignInByParts(settings, old(Maps()), clientId, peer, key, account, net, now);
        sent := StoreAccount(clientId, peer, account, net);
      } else {
        var _, reply := Disconnect(peer, error.value, net);
        sent := reply;
      }
    }

    method OnPing(id: Int32, peer: int, net: Network) returns (ghost sent: seq<Datagram>)
      modifies this`outbox
      ensures outbox == old(outbox) + sent && Carried(Reply(peer, Pong(id, |connectedClients|)), net, sent)
    {
      var ok;
      var clients := |connectedClients|;
      ok, sent := SendBufTo(peer, [PING_RESPONSE] + I32(id) + U32(clients % 0x1_0000_0000), net, Pong(id, clients));
    }

    // `sent` is what the request is answered with.
    method Answer(clientId: Int32, request: Request, net: Network, now: int) returns (ghost sent: seq<Datagram>)
      requires clientId in connectedClients && !request.CheckIn?
      modifies this
      ensures Maps() == Answered(old(Maps()), clientId, request, net, now)
      ensures outbox == old(outbox) + sent
      ensures Carried(AnswerPlan(settings, old(Maps()), clientId, request), net, sent)
    {
      var ok;
      match request {
        case Keepalive => ok, sent := OnKeepalive(clientId, now, net);
        case Disconnect => RemoveClient(clientId); sent := [];
        case AccountDataRequest(target) => ok, sent := OnAccountDataRequest(clientId, target, net);
        case LevelListRequest => ok, sent := OnLevelListRequest(clientId, net);
        case SendTextMessage(text) => sent := OnSendTextMessage(clientId, text, net);
        case UserLevelEntry(level) => ok, sent := OnUserLevelEntry(clientId, level, net);
        case UserLevelExit => ok, sent := OnUserLevelExit(clientId, net);
        case UserLevelData(data) => ok, sent := OnUpdateData(clientId, false, data, net);
        case SpectateNoData => ok, sent := OnUpdateData(clientId, true, None, net);
        case CheckIn(_) => assert false;
      }
    }

    // What happens to any packet but a check-in; `accepted` says whether its key was right.
    method HandleRequest(clientId: Int32, key: Int32, request: Request, peer: int, net: Network, now: int)
      returns (accepted: bool, ghost sent: seq<Datagram>)
      requires !request.CheckIn?
      modifies this
      ensures accepted == Accepted(old(Maps()), clientId, key) && outbox == old(outbox) + sent
      ensures Maps() == if accepted then Answered(old(Maps()), clientId, request, net, now) else old(Maps())
      ensures accepted ==> Carried(AnswerPlan(settings, old(Maps()), clientId, request), net, sent)
      ensures !accepted ==> Carried(Reply(peer, Kick(KeyIsRefused(old(Maps()), clientId))), net, sent)
    {
      accepted := VerifySecretKey(clientId, key);
      if !accepted {
        sent := RefuseKey(clientId, peer, net);
        return;
      }
      sent := Answer(clientId, request, net, now);
    }

    // `sent` is what the packet is answered with.
    method HandlePacket(d: seq<Byte>, peer: int, net: Network, now: int, utf8: seq<Byte> -> bool)
      returns (ghost sent: seq<Datagram>)
      requires Valid()
      modifies this
      ensures Valid() && Maps() == Handled(settings, old(Maps()), ParsePacket(d, utf8), peer, net, now)
      ensures outbox == old(outbox) + sent
      ensures Carried(ReplyPlan(settings, tps, old(Maps()), ParsePacket(d, utf8), peer), net, sent)
    {
      sent := [];
      var packet := ParsePacket(d, utf8);
      HandledStaysValid(settings, Maps(), packet, peer, net, now);
      match packet {
        case Unreadable =>
        case Ping(id) => if id.Some? { sent := OnPing(id.value, peer, net); }
        case FromClient(clientId, key, request) =>
          if clientId == 0 {
            var _, reply := Disconnect(peer, NOT_SIGNED_IN, net);
            sent := reply;
          } else if request.CheckIn? {
            sent := OnCheckIn(clientId, peer, key, request.account, net, now);
          } else {
            var _, reply := HandleRequest(clientId, key, request, peer, net, now);
            sent := reply;
          }
      }
    }

    // ----- tick -----

    method GroupByLevel() returns (groups: map<Int32, set<Int32>>)
      ensures groups == TickGroups(Maps())
    {
      groups := map[];
      var todo := connectedClients.Keys;
      while todo != {}
        invariant todo <= connectedClients.Keys
        invariant forall l :: l in groups <==>
                    exists c | c in connectedClients && c !in todo :: connectedClients[c].levelId == l && l != -1
        invariant forall l | l in groups :: groups[l] == Recipients(Maps(), l) - todo
        decreases todo
      {
        var c :| c in todo;
        todo := todo - {c};
        var l := connectedClients[c].levelId;
        if l != -1 {
          groups := groups[l := (if l in groups then groups[l] else {}) + {c}];
        }
      }
      assert groups.Keys == NamedLevels(Maps());
      assert forall l | l in groups :: groups[l] == Recipients(Maps(), l);
    }

    // Sends to each member, going on after a send that fails.
    method SendAround(level: LevelData, data: seq<Byte>, net: Network)
      returns (ghost reached: seq<Int32>, ghost sent: seq<Datagram>)
      requires Encodes(Snapshot(level), data)
      modifies this`outbox
      ensures outbox == old(outbox) + sent && LevelSent(reached, connectedClients, level, net, sent)
    {
      ghost var reachable := Reachable(connectedClients, level, net);
      var todo := level.Keys;
      reached, sent := [], [];
      StartSearching(todo, reachable);
      while todo != {}
        invariant todo <= level.Keys && Searching(reached, todo, reachable)
        invariant Known(reached, connectedClients.Keys)
        invariant SentTo(Addresses(reached, connectedClients), Snapshot(level), sent)
        invariant outbox == old(outbox) + sent
        decreases todo
      {
        var c :| c in todo;
        SearchOneMore(reached, todo, reachable, c);
        var ok;
        ghost var piece;
        ok, piece := SendTo(c, data, net, Snapshot(level));
        if ok {
          AddressesOneMore(reached, connectedClients, c);
          SentOneMore(Addresses(reached, connectedClients), Snapshot(level), sent, connectedClients[c].address, piece);
          Assoc(old(outbox), sent, piece);
          reached, sent := reached + [c], sent + piece;
        }
        todo := todo - {c};
      }
      SearchedAll(reached, reachable);
    }

    method SendLevel(level: LevelData, net: Network) returns (ghost reached: seq<Int32>, ghost sent: seq<Datagram>)
      modifies this`outbox
      ensures outbox == old(outbox) + sent && LevelSent(reached, connectedClients, level, net, sent)
    {
      var data;
      ghost var order;
      data, order := WriteLevelData(level);
      reached, sent := SendAround(level, data, net);
    }

    method RepairLevels(players: set<Int32>)
      requires players <= connectedClients.Keys
      modifies this`connectedClients
      ensures connectedClients == Repaired(old(connectedClients), players)
    {
      var todo := players;
      while todo != {}
        invariant todo <= players <= connectedClients.Keys
        invariant connectedClients == Repaired(old(connectedClients), players - todo)
        decreases todo
      {
        var c :| c in todo;
        connectedClients := connectedClients[c := connectedClients[c].(levelId := -1)];
        todo := todo - {c};
      }
    }

    // What one round of the tick's loop does for the players of a level. The tick started with the
    // maps `before` and has still to do the levels `todo`.
    method TickLevel(l: Int32, players: set<Int32>, net: Network, ghost before: Shared, ghost todo: set<Int32>)
      returns (ghost sent: seq<Datagram>)
      requires l in todo && todo <= NamedLevels(before) && players == Recipients(before, l)
      requires Maps() == before.(clients := RepairedBut(before, todo))
      modifies this`connectedClients, this`outbox
      ensures Maps() == before.(clients := RepairedBut(before, todo - {l}))
      ensures outbox == old(outbox) + sent && LevelTicked(before, l, net, sent)
    {
      OneLevelTicked(before, todo, l);
      if l in levels {
        ghost var reached;
        reached, sent := SendLevel(levels[l], net);
        LevelTickedBefore(before, todo, l, net, sent);
      } else {
        RepairLevels(players);
        sent := [];
      }
    }

    // `ls` is the order in which the levels were met.
    method Tick(net: Network) returns (ghost ls: seq<Int32>, ghost pieces: seq<seq<Datagram>>)
      requires Valid()
      modifies this`connectedClients, this`outbox
      ensures Valid() && Maps() == Ticked(old(Maps()))
      ensures Enumerates(ls, NamedLevels(old(Maps()))) && TickSends(old(Maps()), ls, net, pieces)
      ensures outbox == old(outbox) + Flatten(pieces)
    {
      ghost var before := Maps();
      var groups := GroupByLevel();
      var todo := groups.Keys;
      TickStartsAndEnds(before);
      StartVisiting(todo);
      ls, pieces := [], [];
      while todo != {}
        invariant Visiting(ls, todo, NamedLevels(before)) && TickSends(before, ls, net, pieces)
        invariant Maps() == before.(clients := RepairedBut(before, todo))
        invariant outbox == old(outbox) + Flatten(pieces)
        decreases todo
      {
        var l :| l in todo;
        assert groups[l] == Recipients(before, l);
        ghost var piece := TickLevel(l, groups[l], net, before, todo);
        TickSendsOneMore(before, ls, net, pieces, l, piece, old(outbox));
        VisitOneMore(ls, todo, NamedLevels(before), l);
        todo, ls, pieces := todo - {l}, ls + [l], pieces + [piece];
      }
      VisitedAll(ls, NamedLevels(before));
      TickKeepsValid(before);
    }
  }
}
