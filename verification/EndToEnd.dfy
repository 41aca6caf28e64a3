// From one client's frame to another client's corrector, through the server.

module EndToEnd {
  import opened Collections
  import opened GameData
  import opened ServerState
  import opened Agreement
  import opened Handling
  import opened Sequential
  import opened Registers
  import opened Wire
  import opened PlayerCodec
  import opened AccountCodec
  import opened Packets
  import opened Replies
  import opened Corrector

  // ----- every message of the server -----

  predicate Readable(m: Message) {
    match m
    case Kick(reason) => |reason| < 0x1_0000_0000
    case AccountOf(_, account) => |account.name| < 0x1_0000_0000
    case LevelCounts(levels) =>
      AreReal(levels.Keys) && |levels| < 0x1_0000_0000 && forall l | l in levels :: |levels[l]| < 0x1_0000
    case Snapshot(level) => |level| < 0x1_0000
    case Joined(name) => |name| < 0x8000_0000
    case Left(name) => |name| < 0x8000_0000
    case _ => true
  }

  // What client `own` should make of a message.
  function Read(m: Message, own: Option<Int32>): Packets.Received
    requires Readable(m)
  {
    match m
    case Welcome(tps) => CheckedIn(tps % 0x1_0000)
    case Alive(clients) => KeepaliveReceived(clients % 0x1_0000_0000)
    case Kick(reason) => Disconnected(Text(reason))
    case Pong(id, clients) => PingReceived(id, clients % 0x1_0000_0000)
    case AccountOf(id, account) => AccountReceived(id, account)
    case LevelCounts(levels) => LevelListReceived(WireList(levels))
    case Snapshot(level) => LevelDataReceived(Without(level, own))
    case Chat(sender, text) => TextReceived(sender, Cut(text))
    case Joined(name) => BroadcastReceived(Cut(name + Text(" joined")), JOINED_COLOR)
    case Left(name) => BroadcastReceived(Cut(name + Text(" left")), LEFT_COLOR)
  }

  lemma NumbersAreRead(m: Message, data: seq<Byte>, own: Option<Int32>)
    requires Encodes(m, data) && (m.Welcome? || m.Alive? || m.Pong?)
    ensures ReadPacket(data, own) == Some(Read(m, own))
  {
    match m
    case Welcome(tps) =>
      assert data[1..3] == U16(tps % 0x1_0000);
      ShortRoundTrip(tps % 0x1_0000);
    case Alive(clients) =>
      assert data[1..5] == U32(clients % 0x1_0000_0000);
      WordRoundTrip(clients % 0x1_0000_0000);
    case Pong(id, clients) =>
      assert data[1..5] == I32(id) && data[5..9] == U32(clients % 0x1_0000_0000);
      SignedRoundTrip(id);
      WordRoundTrip(clients % 0x1_0000_0000);
  }

  lemma AccountIsRead(m: Message, data: seq<Byte>, own: Option<Int32>)
    requires Encodes(m, data) && m.AccountOf? && Readable(m)
    ensures ReadPacket(data, own) == Some(Read(m, own))
  {
    assert data[1..5] == I32(m.id) && data[5..] == EncodeAccount(m.account);
    SignedRoundTrip(m.id);
    AccountRoundTrip(data, 5, m.account);
  }

  lemma KickIsRead(m: Message, data: seq<Byte>, own: Option<Int32>)
    requires Encodes(m, data) && m.Kick? && Readable(m)
    ensures ReadPacket(data, own) == Some(Read(m, own))
  {
    assert data[1..] == Str(Text(m.reason));
    StringIsRead(data, 1, Text(m.reason));
  }

  lemma ChatIsRead(m: Message, data: seq<Byte>, own: Option<Int32>)
    requires Encodes(m, data) && m.Chat?
    ensures ReadPacket(data, own) == Some(Read(m, own))
  {
    assert data[1..5] == I32(m.sender) && data[5..] == Str(Cut(m.text));
    SignedRoundTrip(m.sender);
    StringIsRead(data, 5, Cut(m.text));
  }

  lemma NoticeIsRead(text: seq<Byte>, color: (Byte, Byte, Byte), own: Option<Int32>)
    requires |text| < 0x1_0000_0000
    ensures ReadPacket(NoticeBytes(text, color), own) == Some(BroadcastReceived(Cut(text), color))
  {
    var d := NoticeBytes(text, color);
    assert d[1..5] == U32(|text|);
    WordRoundTrip(|text|);
    assert d[5..5 + |text|] == text;
  }

  // Main result: whatever the server may send as a message, every client reads back that message.
  lemma MessageIsRead(m: Message, data: seq<Byte>, own: Option<Int32>)
    requires Encodes(m, data) && Readable(m)
    ensures ReadPacket(data, own) == Some(Read(m, own))
  {
    match m
    case AccountOf(_, _) => AccountIsRead(m, data, own);
    case Kick(_) => KickIsRead(m, data, own);
    case Chat(_, _) => ChatIsRead(m, data, own);
    case Joined(name) => NoticeIsRead(name + Text(" joined"), JOINED_COLOR, own);
    case Left(name) => NoticeIsRead(name + Text(" left"), LEFT_COLOR, own);
    case LevelCounts(levels) =>
      var order :| Enumerates(order, levels.Keys) && Known(order, levels.Keys) && data == LevelListBytes(order, levels);
      LevelListIsFaithful(order, levels, own);
    case Snapshot(level) =>
      var order :| Enumerates(order, level.Keys) && Known(order, level.Keys) && data == LevelDataBytes(order, level);
      SnapshotIsFaithful(order, level, own);
    case _ => NumbersAreRead(m, data, own);
  }

  // The counts that a packet can carry.
  predicate Countable(sh: Shared) {
    |sh.clients| < 0x8000_0000 && |sh.levels| < 0x1_0000_0000 && forall l | l in sh.levels :: |sh.levels[l]| < 0x1_0000
  }

  lemma {:induction false} DecimalIsShort(n: nat)
    ensures |IdLists.Decimal(n)| <= n + 1
  {
    if n >= 10 { DecimalIsShort(n / 10); }
  }

  lemma ReasonsAreShort(sh: Shared, c: Int32)
    requires |sh.clients| < 0x8000_0000
    ensures |ServerIsFull(|sh.clients|)| < 0x1_0000_0000 && |KeyIsRefused(sh, c)| < 0x1_0000_0000
  {
    DecimalIsShort(|sh.clients|);
    var m: nat := if c < 0 then -(c as int) else c;
    DecimalIsShort(m);
  }

  predicate PlanIsReadable(plan: Plan) {
    plan.Silence? || Readable(plan.message)
  }

  lemma LevelIsReadable(cfg: Settings, sh: Shared, c: Int32, spectating: bool, data: Option<ServerPlayer>)
    requires Countable(if spectating then sh else Updated(sh, c, data))
    ensures PlanIsReadable(AnswerData(cfg, sh, c, spectating, data))
  {
  }

  lemma AccountIsReadable(cfg: Settings, sh: Shared, c: Int32, target: Option<Int32>)
    requires Vetted(sh)
    ensures PlanIsReadable(AnswerPlan(cfg, sh, c, AccountDataRequest(target)))
  {
    if target.Some? && target.value in sh.clients { assert |sh.clients[target.value].account.name| < 16; }
  }

  lemma EntryIsReadable(cfg: Settings, sh: Shared, c: Int32, target: Option<Int32>)
    requires Vetted(sh)
    ensures PlanIsReadable(AnswerPlan(cfg, sh, c, UserLevelEntry(target)))
  {
    if c in sh.clients { assert |sh.clients[c].account.name| < 16; }
  }

  lemma ExitIsReadable(cfg: Settings, sh: Shared, c: Int32)
    requires Vetted(sh)
    ensures PlanIsReadable(AnswerPlan(cfg, sh, c, UserLevelExit))
  {
    if c in sh.clients { assert |sh.clients[c].account.name| < 16; }
  }

  lemma ListIsReadable(cfg: Settings, sh: Shared, c: Int32)
    requires Tidy(sh) && Countable(sh)
    ensures PlanIsReadable(AnswerPlan(cfg, sh, c, LevelListRequest))
  {
    assert AreReal(sh.levels.Keys);
    assert Readable(LevelCounts(sh.levels));
  }

  lemma TextIsReadable(cfg: Settings, sh: Shared, c: Int32, request: Request)
    requires request.Keepalive? || request.Disconnect? || request.SendTextMessage? || request.CheckIn?
    ensures PlanIsReadable(AnswerPlan(cfg, sh, c, request))
  {
  }

  lemma NoticesAreReadable(cfg: Settings, sh: Shared, c: Int32, request: Request)
    requires Vetted(sh) && (request.AccountDataRequest? || request.UserLevelEntry? || request.UserLevelExit?)
    ensures PlanIsReadable(AnswerPlan(cfg, sh, c, request))
  {
    match request
    case AccountDataRequest(target) => AccountIsReadable(cfg, sh, c, target);
    case UserLevelEntry(target) => EntryIsReadable(cfg, sh, c, target);
    case UserLevelExit => ExitIsReadable(cfg, sh, c);
  }

  lemma AnswersAreReadable(cfg: Settings, sh: Shared, c: Int32, request: Request)
    requires Tidy(sh) && Vetted(sh) && Countable(sh)
    requires request.UserLevelData? ==> Countable(Updated(sh, c, request.data))
    ensures PlanIsReadable(AnswerPlan(cfg, sh, c, request))
  {
    if request.AccountDataRequest? || request.UserLevelEntry? || request.UserLevelExit? {
      NoticesAreReadable(cfg, sh, c, request);
    } else if request.LevelListRequest? {
      ListIsReadable(cfg, sh, c);
    } else if request.UserLevelData? {
      LevelIsReadable(cfg, sh, c, false, request.data);
    } else if request.SpectateNoData? {
      LevelIsReadable(cfg, sh, c, true, None);
    } else {
      TextIsReadable(cfg, sh, c, request);
    }
  }

  lemma RequestsAreReadable(cfg: Settings, sh: Shared, c: Int32, key: Int32, request: Request, peer: int)
    requires Tidy(sh) && Vetted(sh) && Countable(sh)
    requires request.UserLevelData? ==> Countable(Updated(sh, c, request.data))
    ensures PlanIsReadable(RequestPlan(cfg, sh, c, key, request, peer))
  {
    if Accepted(sh, c, key) { AnswersAreReadable(cfg, sh, c, request); } else { ReasonsAreShort(sh, c); }
  }

  lemma CheckInsAreReadable(cfg: Settings, tps: nat, sh: Shared, c: Int32, peer: int, account: Option<Account>)
    requires |sh.clients| < 0x8000_0000
    ensures PlanIsReadable(CheckInPlan(cfg, tps, sh, c, peer, account))
  {
    ReasonsAreShort(sh, c);
  }

  // The counts still fit after the data of a packet was stored.
  predicate StaysCountable(sh: Shared, packet: Packet) {
    && Countable(sh)
    && (packet.FromClient? && packet.request.UserLevelData? ==>
        Countable(Updated(sh, packet.client, packet.request.data)))
  }

  lemma PlansAreReadable(cfg: Settings, tps: nat, sh: Shared, packet: Packet, peer: int)
    requires Tidy(sh) && Vetted(sh) && StaysCountable(sh, packet)
    ensures PlanIsReadable(ReplyPlan(cfg, tps, sh, packet, peer))
  {
    var plan := ReplyPlan(cfg, tps, sh, packet, peer);
    if packet.FromClient? && packet.client != 0 {
      if packet.request.CheckIn? {
        CheckInsAreReadable(cfg, tps, sh, packet.client, peer, packet.request.account);
        assert plan == CheckInPlan(cfg, tps, sh, packet.client, peer, packet.request.account);
      } else {
        RequestsAreReadable(cfg, sh, packet.client, packet.key, packet.request, peer);
        assert plan == RequestPlan(cfg, sh, packet.client, packet.key, packet.request, peer);
      }
    }
  }

  // Main result: whatever packet arrives, everyone who is sent something because of it reads the
  // same message, namely what the server set out to say.
  lemma RepliesAreRead(cfg: Settings, tps: nat, sh: Shared, packet: Packet, peer: int, net: Network,
                       sent: seq<Datagram>, own: Option<Int32>)
    requires Tidy(sh) && Vetted(sh) && StaysCountable(sh, packet)
    requires Carried(ReplyPlan(cfg, tps, sh, packet, peer), net, sent)
    ensures var plan := ReplyPlan(cfg, tps, sh, packet, peer);
            && (plan.Silence? ==> sent == [])
            && (!plan.Silence? ==>
                  && Readable(plan.message)
                  && forall i | 0 <= i < |sent| :: ReadPacket(sent[i].data, own) == Some(Read(plan.message, own)))
  {
    var plan := ReplyPlan(cfg, tps, sh, packet, peer);
    PlansAreReadable(cfg, tps, sh, packet, peer);
    if !plan.Silence? {
      forall i | 0 <= i < |sent| ensures ReadPacket(sent[i].data, own) == Some(Read(plan.message, own)) {
        MessageIsRead(plan.message, sent[i].data, own);
      }
    }
  }

  // ----- the corrector -----

  // `meaning` is the real number that the bits of a float stand for.
  function IconMeaning(i: Icon<Word>, meaning: Word -> real): Icon<real> {
    Icon(meaning(i.x), meaning(i.y), meaning(i.rot), i.mode, i.hidden, i.dashing, i.upsideDown, i.mini, i.grounded)
  }

  function Meaning(p: Player<Word>, meaning: Word -> real): Frame {
    Player(meaning(p.timestamp), IconMeaning(p.player1, meaning), IconMeaning(p.player2, meaning),
           meaning(p.camX), meaning(p.camY), p.practice, p.dead, p.paused)
  }

  function Meanings(players: map<Int32, Player<Word>>, meaning: Word -> real): map<Int32, Frame> {
    map id | id in players :: Meaning(players[id], meaning)
  }

  // The frames that client `own` takes from a level.
  function Seen(level: LevelData, own: Int32, meaning: Word -> real): map<Int32, Frame> {
    map id | id in level && id != own :: Meaning(level[id], meaning)
  }

  lemma ReceivedMeaning(level: LevelData, own: Int32, meaning: Word -> real)
    ensures Meanings(Without(level, Some(own)), meaning) == Seen(level, own, meaning)
  {
  }

  lemma FedTracks(d: real, tracks: map<Int32, Track>, data: map<Int32, Frame>, after: map<Int32, Track>, id: Int32)
    requires FeedsAll(d, tracks, data, after) && id in data && id !in tracks
    ensures id in after && after[id].newer == data[id]
  {
    assert id in after.Keys && FedTo(d, tracks, id, data[id], after[id]);
  }

  lemma SnapshotMeaning(data: seq<Byte>, level: LevelData, own: Int32, meaning: Word -> real)
    requires Encodes(Snapshot(level), data) && |level| < 0x1_0000
    ensures var received := ReadPacket(data, Some(own));
            && received.Some? && received.value.LevelDataReceived?
            && Meanings(received.value.players, meaning) == Seen(level, own, meaning)
  {
    MessageIsRead(Snapshot(level), data, Some(own));
    ReceivedMeaning(level, own, meaning);
  }

  lemma NewcomersAreShown(level: LevelData, own: Int32, meaning: Word -> real, d: real,
                          tracks: map<Int32, Track>, after: map<Int32, Track>, id: Int32)
    requires FeedsAll(d, tracks, Seen(level, own, meaning), after) && id in level && id != own && id !in tracks
    ensures id in after && after[id].newer == Meaning(level[id], meaning)
  {
    FedTracks(d, tracks, Seen(level, own, meaning), after, id);
  }

  lemma OthersAreSeen(level: LevelData, own: Int32, meaning: Word -> real)
    ensures Seen(level, own, meaning).Keys == level.Keys - {own}
  {
  }

  // The corrector of a client that receives a snapshot tracks exactly the other
  // members of the level, and shows a newcomer where the server has it.
  lemma SnapshotReachesCorrector(data: seq<Byte>, level: LevelData, own: Int32, meaning: Word -> real,
                                 d: real, tracks: map<Int32, Track>, after: map<Int32, Track>)
    requires Encodes(Snapshot(level), data) && |level| < 0x1_0000
    requires FeedsAll(d, tracks, Seen(level, own, meaning), after)
    ensures var received := ReadPacket(data, Some(own));
            && received.Some? && received.value.LevelDataReceived?
            && Meanings(received.value.players, meaning) == Seen(level, own, meaning)
    ensures after.Keys == level.Keys - {own}
    ensures forall id | id in level && id != own && id !in tracks ::
              id in after && after[id].newer == Meaning(level[id], meaning)
  {
    SnapshotMeaning(data, level, own, meaning);
    OthersAreSeen(level, own, meaning);
    forall id | id in level && id != own && id !in tracks
      ensures id in after && after[id].newer == Meaning(level[id], meaning)
    {
      NewcomersAreShown(level, own, meaning, d, tracks, after, id);
    }
  }

  lemma MembersAreRecipients(sh: Shared, l: Int32)
    requires AllAgree(true, sh) && l in sh.levels && l != -1
    ensures sh.levels[l].Keys == Recipients(sh, l)
  {
    forall c ensures c in sh.levels[l] <==> c in Recipients(sh, l) {
      assert Agrees(true, sh, c);
      assert Member(sh, c, l) <==> c in sh.levels[l];
    }
  }

  // ----- frames -----

  // What client b should see: everyone else whose record names b's level, each as its own packets left it.
  function View(cfg: Settings, inputs: seq<Input>, b: Int32): map<Int32, Player<Word>> {
    map a | a in Recipients(Play(cfg, inputs), Named(Play(cfg, inputs), b)) && a != b :: Register(cfg, inputs, a)
  }

  lemma ExactlyGoodIsGood(cfg: Settings, inputs: seq<Input>)
    requires WellBehaved(true, cfg, inputs)
    ensures WellBehaved(false, cfg, inputs)
  {
    forall i | 0 <= i < |inputs| ensures Harmless(false, Play(cfg, inputs[..i]), inputs[i]) {
      assert Harmless(true, Play(cfg, inputs[..i]), inputs[i]);
    }
  }

  lemma LevelHasRecipients(cfg: Settings, inputs: seq<Input>, b: Int32)
    requires WellBehaved(true, cfg, inputs) && Named(Play(cfg, inputs), b) != -1
    ensures var sh, l := Play(cfg, inputs), Named(Play(cfg, inputs), b);
            l in sh.levels && b in sh.levels[l] && sh.levels[l].Keys == Recipients(sh, l)
  {
    GoodRunsAgree(true, cfg, inputs);
    assert Agrees(true, Play(cfg, inputs), b) && Member(Play(cfg, inputs), b, Named(Play(cfg, inputs), b));
    MembersAreRecipients(Play(cfg, inputs), Named(Play(cfg, inputs), b));
  }

  lemma LevelStoresRegister(cfg: Settings, inputs: seq<Input>, l: Int32, a: Int32)
    requires WellBehaved(true, cfg, inputs) && Member(Play(cfg, inputs), a, l)
    ensures Play(cfg, inputs).levels[l][a] == Register(cfg, inputs, a)
  {
    ExactlyGoodIsGood(cfg, inputs);
    LastWriterWins(cfg, inputs, a);
  }

  lemma LevelShowsRegisters(cfg: Settings, inputs: seq<Input>, b: Int32)
    requires WellBehaved(true, cfg, inputs) && Named(Play(cfg, inputs), b) != -1
    ensures var sh, l := Play(cfg, inputs), Named(Play(cfg, inputs), b);
            && l in sh.levels && b in sh.levels[l] && sh.levels[l].Keys == Recipients(sh, l)
            && Without(sh.levels[l], Some(b)) == View(cfg, inputs, b)
  {
    var sh, l := Play(cfg, inputs), Named(Play(cfg, inputs), b);
    LevelHasRecipients(cfg, inputs, b);
    forall a | a in View(cfg, inputs, b) ensures a in sh.levels[l] && sh.levels[l][a] == View(cfg, inputs, b)[a] {
      assert a in sh.levels[l].Keys;
      LevelStoresRegister(cfg, inputs, l, a);
    }
    assert Without(sh.levels[l], Some(b)).Keys == View(cfg, inputs, b).Keys;
  }

  // Client b's own frame, or a spectator's request for the others'.
  predicate AsksForLevel(sh: Shared, input: Input, b: Int32) {
    && input.Received? && input.packet.FromClient? && input.packet.client == b && b != 0
    && Accepted(sh, b, input.packet.key)
    && (input.packet.request.SpectateNoData?
        || (input.packet.request.UserLevelData? && input.packet.request.data.Some?))
  }

  lemma LevelIsAnswered(cfg: Settings, tps: nat, inputs: seq<Input>, input: Input, b: Int32)
    requires !cfg.tickBased && AsksForLevel(Play(cfg, inputs), input, b)
    ensures var after := Play(cfg, inputs + [input]);
            && after.clients == Play(cfg, inputs).clients
            && ReplyPlan(cfg, tps, Play(cfg, inputs), input.packet, input.peer) == ShowLevel(after, b)
  {
    assert (inputs + [input])[..|inputs|] == inputs;
  }

  // Main result: in every well-behaved run, a client on a level that sends its frame is answered with
  // exactly one packet, in which it reads the latest frames of exactly the other clients whose records
  // name its level.
  lemma FramesTravel(cfg: Settings, tps: nat, inputs: seq<Input>, input: Input, b: Int32, sent: seq<Datagram>)
    requires WellBehaved(true, cfg, inputs) && !cfg.tickBased
    requires var sh := Play(cfg, inputs);
             && AsksForLevel(sh, input, b) && Named(sh, b) != -1 && input.net(sh.clients[b].address)
             && |Recipients(sh, Named(sh, b))| < 0x1_0000
             && Carried(ReplyPlan(cfg, tps, sh, input.packet, input.peer), input.net, sent)
    ensures |sent| == 1 && sent[0].to == Play(cfg, inputs).clients[b].address
    ensures ReadPacket(sent[0].data, Some(b)) == Some(LevelDataReceived(View(cfg, inputs + [input], b)))
  {
    LevelIsAnswered(cfg, tps, inputs, input, b);
    BehavesOnceMore(true, cfg, inputs, input);
    LevelShowsRegisters(cfg, inputs + [input], b);
    var after := Play(cfg, inputs + [input]);
    assert Recipients(after, Named(after, b)) == Recipients(Play(cfg, inputs), Named(after, b));
    MessageIsRead(Snapshot(after.levels[Named(after, b)]), sent[0].data, Some(b));
  }

  lemma LevelIsTicked(sh: Shared, ls: seq<Int32>, net: Network, pieces: seq<seq<Datagram>>, l: Int32) returns (i: nat)
    requires Enumerates(ls, NamedLevels(sh)) && TickSends(sh, ls, net, pieces) && l in NamedLevels(sh)
    ensures i < |pieces| && LevelTicked(sh, l, net, pieces[i])
  {
    assert l in ls;
    i :| 0 <= i < |ls| && ls[i] == l;
  }

  lemma MemberIsSentTo(sh: Shared, l: Int32, net: Network, sent: seq<Datagram>, b: Int32) returns (j: nat)
    requires l in sh.levels && LevelTicked(sh, l, net, sent)
    requires b in sh.levels[l] && b in sh.clients && net(sh.clients[b].address)
    ensures j < |sent| && sent[j].to == sh.clients[b].address && Encodes(Snapshot(sh.levels[l]), sent[j].data)
  {
    var reached :| LevelSent(reached, sh.clients, sh.levels[l], net, sent);
    assert b in Reachable(sh.clients, sh.levels[l], net) && b in reached;
    j :| 0 <= j < |reached| && reached[j] == b;
  }

  // Main result: a tick shows every client on a level the same, if it can be reached.
  lemma TicksTravel(cfg: Settings, inputs: seq<Input>, ls: seq<Int32>, net: Network, pieces: seq<seq<Datagram>>,
                    b: Int32)
    requires WellBehaved(true, cfg, inputs)
    requires var sh := Play(cfg, inputs);
             && Enumerates(ls, NamedLevels(sh)) && TickSends(sh, ls, net, pieces)
             && Named(sh, b) != -1 && net(sh.clients[b].address) && |Recipients(sh, Named(sh, b))| < 0x1_0000
    ensures exists i, j | 0 <= i < |pieces| && 0 <= j < |pieces[i]| ::
              && pieces[i][j].to == Play(cfg, inputs).clients[b].address
              && ReadPacket(pieces[i][j].data, Some(b)) == Some(LevelDataReceived(View(cfg, inputs, b)))
  {
    var sh, l := Play(cfg, inputs), Named(Play(cfg, inputs), b);
    LevelShowsRegisters(cfg, inputs, b);
    assert l in NamedLevels(sh);
    var i := LevelIsTicked(sh, ls, net, pieces, l);
    var j := MemberIsSentTo(sh, l, net, pieces[i], b);
    MessageIsRead(Snapshot(sh.levels[l]), pieces[i][j].data, Some(b));
  }

  lemma ServingKeepsModes(p: Player<Word>)
    ensures PlayerCodec.Served(p) == p <==> HasModes(p)
  {
  }

  lemma FrameIsWritten(sh: Shared, input: Input, a: Int32, key: Int32, p: Player<Word>, utf8: seq<Byte> -> bool)
    requires input.Received? && a != 0 && Accepted(sh, a, key)
    requires input.packet == ParsePacket(ClientMessage(USER_LEVEL_DATA, a, key, EncodePlayer(p)), utf8)
    ensures Write(sh, input, a) == Some(PlayerCodec.Served(p))
  {
    ServerParsesPlayerData(a, key, p, utf8);
  }

  lemma RegisterOnceMore(cfg: Settings, inputs: seq<Input>, input: Input, a: Int32)
    ensures var write := Write(Play(cfg, inputs), input, a);
            Register(cfg, inputs + [input], a) == if write.Some? then write.value else Register(cfg, inputs, a)
  {
    assert (inputs + [input])[..|inputs|] == inputs;
  }

  // None of the later inputs writes the record of client a.
  ghost predicate NeverWrites(cfg: Settings, inputs: seq<Input>, later: seq<Input>, a: Int32) {
    forall j | 0 <= j < |later| :: Write(Play(cfg, inputs + later[..j]), later[j], a).None?
  }

  lemma NeverWritesOneLess(cfg: Settings, inputs: seq<Input>, later: seq<Input>, last: Input, a: Int32)
    requires NeverWrites(cfg, inputs, later + [last], a)
    ensures NeverWrites(cfg, inputs, later, a) && Write(Play(cfg, inputs + later), last, a).None?
  {
    var all := later + [last];
    assert all[..|later|] == later && all[|later|] == last;
    forall j | 0 <= j < |later| ensures Write(Play(cfg, inputs + later[..j]), later[j], a).None? {
      assert all[..j] == later[..j] && all[j] == later[j];
    }
  }

  lemma RegisterStaysOnce(cfg: Settings, inputs: seq<Input>, later: seq<Input>, last: Input, a: Int32)
    requires Write(Play(cfg, inputs + later), last, a).None?
    ensures Register(cfg, inputs + (later + [last]), a) == Register(cfg, inputs + later, a)
  {
    RegisterOnceMore(cfg, inputs + later, last, a);
    assert inputs + (later + [last]) == inputs + later + [last];
  }

  lemma {:induction false} RegisterStays(cfg: Settings, inputs: seq<Input>, later: seq<Input>, a: Int32)
    requires NeverWrites(cfg, inputs, later, a)
    ensures Register(cfg, inputs + later, a) == Register(cfg, inputs, a)
  {
    if later == [] {
      assert inputs + later == inputs;
    } else {
      var init, last := later[..|later| - 1], later[|later| - 1];
      assert later == init + [last];
      NeverWritesOneLess(cfg, inputs, init, last, a);
      RegisterStays(cfg, inputs, init, a);
      RegisterStaysOnce(cfg, inputs, init, last, a);
    }
  }

  // What client a sent last is what others are shown, exactly if its modes are ones the server knows.
  lemma LatestFrame(cfg: Settings, inputs: seq<Input>, frame: Input, later: seq<Input>, a: Int32, key: Int32,
                    p: Player<Word>, utf8: seq<Byte> -> bool)
    requires a != 0 && Accepted(Play(cfg, inputs), a, key) && frame.Received?
    requires frame.packet == ParsePacket(ClientMessage(USER_LEVEL_DATA, a, key, EncodePlayer(p)), utf8)
    requires NeverWrites(cfg, inputs + [frame], later, a)
    ensures Register(cfg, inputs + [frame] + later, a) == PlayerCodec.Served(p)
    ensures Register(cfg, inputs + [frame] + later, a) == p <==> HasModes(p)
  {
    ServingKeepsModes(p);
    FrameIsWritten(Play(cfg, inputs), frame, a, key, p, utf8);
    RegisterOnceMore(cfg, inputs, frame, a);
    RegisterStays(cfg, inputs + [frame], later, a);
  }
}
