// Invariants and whole runs of the server when packets are handled one at a time.

module Sequential {
  import opened GameData
  import opened ServerState
  import opened EmptyLevels
  import opened Agreement
  import opened Handling

  // ----- what holds whatever arrives -----

  ghost predicate Tidy(sh: Shared) {
    forall l | l in sh.levels :: RealLevel(l) && sh.levels[l] != map[]
  }

  lemma LeaveIsTidy(sh: Shared, c: Int32, l: Int32)
    requires Tidy(sh)
    ensures Tidy(Leave(sh, c, l))
  {
  }

  lemma EnterIsTidy(sh: Shared, c: Int32, l: Int32)
    requires Tidy(sh) && RealLevel(l)
    ensures Tidy(Enter(sh, c, l))
  {
    PutIsNotEmpty();
  }

  lemma UpdateIsTidy(sh: Shared, c: Int32, data: Option<ServerPlayer>)
    requires Tidy(sh)
    ensures Tidy(Updated(sh, c, data))
  {
    PutIsNotEmpty();
  }

  lemma EntryIsTidy(sh: Shared, c: Int32, target: Option<Int32>, net: Network)
    requires Tidy(sh)
    ensures Tidy(Entered(sh, c, target, net))
  {
    LeaveIsTidy(sh, c, Named(sh, c));
    if target.Some? { EnterIsTidy(LeaveNamed(sh, c), c, ToServerLevel(target.value)); }
  }

  lemma ExitIsTidy(sh: Shared, c: Int32, net: Network)
    requires Tidy(sh)
    ensures Tidy(Exited(sh, c, net))
  {
    LeaveIsTidy(SetLevel(sh, c, -1), c, Named(sh, c));
  }

  lemma ForgetIsTidy(sh: Shared, c: Int32)
    requires Tidy(sh)
    ensures Tidy(Forgotten(sh, c))
  {
    LeaveIsTidy(sh.(clients := sh.clients - {c}), c, Named(sh, c));
  }

  lemma AnswerKeepsTidy(sh: Shared, c: Int32, request: Request, net: Network, now: int)
    requires Tidy(sh)
    ensures Tidy(Answered(sh, c, request, net, now))
  {
    match request
    case Disconnect => ForgetIsTidy(sh, c);
    case UserLevelEntry(target) => EntryIsTidy(sh, c, target, net);
    case UserLevelExit => ExitIsTidy(sh, c, net);
    case UserLevelData(data) => UpdateIsTidy(sh, c, data);
    case _ =>
  }

  lemma {:induction false} SweepKeepsTidy(sh: Shared, order: seq<Int32>)
    requires Tidy(sh)
    ensures Tidy(ForgottenAll(sh, order))
  {
    if order != [] {
      SweepKeepsTidy(sh, order[..|order| - 1]);
      ForgetIsTidy(ForgottenAll(sh, order[..|order| - 1]), order[|order| - 1]);
    }
  }

  lemma {:induction false} RunsAreTidy(cfg: Settings, inputs: seq<Input>)
    ensures Tidy(Play(cfg, inputs))
  {
    if inputs != [] {
      var last := |inputs| - 1;
      RunsAreTidy(cfg, inputs[..last]);
      match inputs[last]
      case Received(packet, _, net, now) =>
        if packet.FromClient? { AnswerKeepsTidy(Play(cfg, inputs[..last]), packet.client, packet.request, net, now); }
      case Sweep(_, order) => SweepKeepsTidy(Play(cfg, inputs[..last]), order);
      case Tick =>
    }
  }

  // Every stored account is one that passed the check, or still the empty one.
  ghost predicate Vetted(sh: Shared) {
    forall c | c in sh.clients :: sh.clients[c].account == EmptyAccount || ValidAccount(sh.clients[c].account)
  }

  lemma AnswerKeepsVetted(sh: Shared, c: Int32, request: Request, net: Network, now: int)
    requires Vetted(sh)
    ensures Vetted(Answered(sh, c, request, net, now))
  {
  }

  lemma SignInKeepsVetted(cfg: Settings, sh: Shared, c: Int32, peer: int, key: Int32, account: Option<Account>,
                          net: Network, now: int)
    requires Vetted(sh)
    ensures Vetted(SignedIn(cfg, sh, c, peer, key, account, net, now))
    ensures SignedIn(cfg, sh, c, peer, key, account, net, now).levels == sh.levels
  {
  }

  lemma {:induction false} SweepKeepsVetted(sh: Shared, order: seq<Int32>)
    requires Vetted(sh)
    ensures Vetted(ForgottenAll(sh, order))
  {
    if order != [] { SweepKeepsVetted(sh, order[..|order| - 1]); }
  }

  // No client is ever shown an account that was not checked.
  lemma {:induction false} RunsAreVetted(cfg: Settings, inputs: seq<Input>)
    ensures Vetted(Play(cfg, inputs))
  {
    if inputs != [] {
      var last := |inputs| - 1;
      RunsAreVetted(cfg, inputs[..last]);
      match inputs[last]
      case Received(packet, _, net, now) =>
        if packet.FromClient? { AnswerKeepsVetted(Play(cfg, inputs[..last]), packet.client, packet.request, net, now); }
      case Sweep(_, order) => SweepKeepsVetted(Play(cfg, inputs[..last]), order);
      case Tick =>
    }
  }

  // Each sweep of a run removes exactly the dead.
  ghost predicate AllPossible(cfg: Settings, inputs: seq<Input>) {
    forall i | 0 <= i < |inputs| :: Possible(cfg, Play(cfg, inputs[..i]), inputs[i])
  }

  lemma PossibleSoFar(cfg: Settings, inputs: seq<Input>)
    requires AllPossible(cfg, inputs) && inputs != []
    ensures AllPossible(cfg, inputs[..|inputs| - 1])
    ensures Possible(cfg, Play(cfg, inputs[..|inputs| - 1]), inputs[|inputs| - 1])
  {
    var init := inputs[..|inputs| - 1];
    assert forall i | 0 <= i < |init| :: init[..i] == inputs[..i];
  }

  // ----- agreement of the two maps -----

  // Exact: everyone is a member of exactly the level its record names. Otherwise:
  // everyone is a member of no other level.
  ghost predicate AllAgree(exact: bool, sh: Shared) {
    forall c :: Agrees(exact, sh, c)
  }

  lemma DropEmptyKeepsMembers(levels: map<Int32, LevelData>, d: Int32, m: Int32)
    ensures m in DropEmpty(levels) && d in DropEmpty(levels)[m] <==> m in levels && d in levels[m]
  {
    if m in levels && d in levels[m] { assert levels[m] != map[]; }
  }

  // Who is in level m after c left level l.
  lemma LeaveMembers(sh: Shared, c: Int32, l: Int32, d: Int32, m: Int32)
    ensures Member(Leave(sh, c, l), d, m) <==> Member(sh, d, m) && !(d == c && m == l)
  {
    if l in sh.levels { DropEmptyKeepsMembers(sh.levels[l := sh.levels[l] - {c}], d, m); }
  }

  lemma EnterMembers(sh: Shared, c: Int32, l: Int32, d: Int32, m: Int32)
    ensures Member(Enter(sh, c, l), d, m) <==> Member(sh, d, m) || (d == c && m == l)
  {
  }

  predicate ExitIsHarmless(sh: Shared, c: Int32, net: Network) {
    Member(sh, c, Named(sh, c)) ==> Reaches(net, SetLevel(sh, c, -1), Named(sh, c))
  }

  predicate EntryIsHarmless(sh: Shared, c: Int32, target: Option<Int32>, net: Network) {
    Named(sh, c) != -1 ==> CanEnter(net, LeaveNamed(sh, c), target)
  }

  // A change that concerns only client c.
  ghost predicate OnlyMoves(a: Shared, b: Shared, c: Int32) {
    forall d | d != c :: SameFor(a, b, d)
  }

  lemma OneMoved(exact: bool, a: Shared, b: Shared, c: Int32)
    requires AllAgree(exact, a) && OnlyMoves(a, b, c)
    ensures AllAgree(exact, b) <==> Agrees(exact, b, c)
  {
    forall d | d != c ensures Agrees(exact, b, d) {
      assert Agrees(exact, a, d) && SameFor(a, b, d);
    }
  }

  lemma LeaveOnlyMoves(sh: Shared, c: Int32, l: Int32)
    ensures OnlyMoves(sh, Leave(sh, c, l), c) && Leave(sh, c, l).clients == sh.clients
    ensures forall m :: Member(Leave(sh, c, l), c, m) <==> Member(sh, c, m) && m != l
  {
    forall d, m ensures Member(Leave(sh, c, l), d, m) <==> Member(sh, d, m) && !(d == c && m == l) {
      LeaveMembers(sh, c, l, d, m);
    }
  }

  lemma EnterOnlyMoves(sh: Shared, c: Int32, l: Int32)
    ensures OnlyMoves(sh, Enter(sh, c, l), c)
    ensures forall m :: Member(Enter(sh, c, l), c, m) <==> Member(sh, c, m) || m == l
  {
    forall d, m ensures Member(Enter(sh, c, l), d, m) <==> Member(sh, d, m) || (d == c && m == l) {
      EnterMembers(sh, c, l, d, m);
    }
  }

  lemma SetLevelOnlyMoves(sh: Shared, c: Int32, l: Int32)
    ensures OnlyMoves(sh, SetLevel(sh, c, l), c)
    ensures forall d, m :: Member(SetLevel(sh, c, l), d, m) == Member(sh, d, m)
  {
  }

  lemma SameMembers(a: Shared, b: Shared)
    requires a.levels == b.levels
    ensures forall d, m :: Member(b, d, m) == Member(a, d, m)
  {
  }

  lemma MovesChain(a: Shared, b: Shared, e: Shared, c: Int32)
    requires OnlyMoves(a, b, c) && OnlyMoves(b, e, c)
    ensures OnlyMoves(a, e, c)
  {
    forall d | d != c ensures SameFor(a, e, d) {
      assert SameFor(a, b, d) && SameFor(b, e, d);
    }
  }

  // An exit keeps the maps in agreement exactly if its announcement is delivered, or
  // there was nothing to leave.
  lemma ExitKeepsAgreement(exact: bool, sh: Shared, c: Int32, net: Network)
    requires AllAgree(exact, sh) && Tidy(sh) && c in sh.clients
    ensures AllAgree(exact, Exited(sh, c, net)) <==> ExitIsHarmless(sh, c, net)
  {
    var l, cleared, after := Named(sh, c), SetLevel(sh, c, -1), Exited(sh, c, net);
    SetLevelOnlyMoves(sh, c, -1);
    LeaveOnlyMoves(cleared, c, l);
    MovesChain(sh, cleared, Leave(cleared, c, l), c);
    OneMoved(exact, sh, after, c);
    assert Agrees(exact, sh, c) && Named(after, c) == -1;
    assert Agrees(exact, after, c) <==> !Member(after, c, l);
  }

  lemma LeaveNamedGoesNowhere(exact: bool, sh: Shared, c: Int32)
    requires AllAgree(exact, sh) && Tidy(sh)
    ensures var left := LeaveNamed(sh, c); OnlyMoves(sh, left, c) && Nowhere(left, c) && left.clients == sh.clients
  {
    assert Agrees(exact, sh, c);
    LeaveOnlyMoves(sh, c, Named(sh, c));
  }

  // An entry keeps exact agreement exactly if its packet can be decoded and its
  // announcement is delivered, or the client had no level to lose.
  lemma EntryKeepsAgreement(exact: bool, sh: Shared, c: Int32, target: Option<Int32>, net: Network)
    requires AllAgree(exact, sh) && Tidy(sh) && c in sh.clients
    ensures AllAgree(exact, Entered(sh, c, target, net)) <==> (exact ==> EntryIsHarmless(sh, c, target, net))
  {
    var left, after := LeaveNamed(sh, c), Entered(sh, c, target, net);
    LeaveNamedGoesNowhere(exact, sh, c);
    if CanEnter(net, left, target) {
      EnterOnlyMoves(left, c, ToServerLevel(target.value));
      MovesChain(sh, left, after, c);
    }
    OneMoved(exact, sh, after, c);
  }

  lemma UpdateKeepsAgreement(exact: bool, sh: Shared, c: Int32, data: Option<ServerPlayer>)
    requires AllAgree(exact, sh)
    ensures AllAgree(exact, Updated(sh, c, data))
  {
    var l, after := Named(sh, c), Updated(sh, c, data);
    assert Agrees(exact, sh, c);
    forall d, m ensures Member(after, d, m) <==> Member(sh, d, m) || (after != sh && d == c && m == l) {
      if after != sh { assert Member(after, d, m) <==> Member(sh, d, m) || (d == c && m == l); }
    }
    OneMoved(exact, sh, after, c);
  }

  lemma SignInKeepsAgreement(exact: bool, cfg: Settings, sh: Shared, c: Int32, peer: int, key: Int32,
                             account: Option<Account>, net: Network, now: int)
    requires AllAgree(exact, sh)
    ensures AllAgree(exact, SignedIn(cfg, sh, c, peer, key, account, net, now))
  {
    SameMembers(sh, SignedIn(cfg, sh, c, peer, key, account, net, now));
    assert Agrees(exact, sh, c);
    OneMoved(exact, sh, SignedIn(cfg, sh, c, peer, key, account, net, now), c);
  }

  lemma ForgetKeepsAgreement(exact: bool, sh: Shared, c: Int32)
    requires AllAgree(exact, sh) && Tidy(sh)
    ensures AllAgree(exact, Forgotten(sh, c)) && Nowhere(Forgotten(sh, c), c)
  {
    var gone := sh.(clients := sh.clients - {c});
    assert Agrees(exact, sh, c);
    assert OnlyMoves(sh, gone, c) && forall m :: Member(gone, c, m) == Member(sh, c, m);
    LeaveOnlyMoves(gone, c, Named(sh, c));
    MovesChain(sh, gone, Leave(gone, c, Named(sh, c)), c);
    OneMoved(exact, sh, Forgotten(sh, c), c);
  }

  lemma {:induction false} SweepKeepsAgreement(exact: bool, sh: Shared, order: seq<Int32>)
    requires AllAgree(exact, sh) && Tidy(sh)
    ensures AllAgree(exact, ForgottenAll(sh, order))
  {
    if order != [] {
      SweepKeepsAgreement(exact, sh, order[..|order| - 1]);
      SweepKeepsTidy(sh, order[..|order| - 1]);
      ForgetKeepsAgreement(exact, ForgottenAll(sh, order[..|order| - 1]), order[|order| - 1]);
    }
  }

  lemma TickKeepsAgreement(exact: bool, sh: Shared)
    requires AllAgree(exact, sh)
    ensures AllAgree(exact, Ticked(sh))
  {
    SameMembers(sh, Ticked(sh));
    forall c ensures Agrees(exact, Ticked(sh), c) { assert Agrees(exact, sh, c); }
  }

  // The guards of the two branches that can lose a client, seen from outside.
  predicate Harmless(exact: bool, sh: Shared, input: Input) {
    if !input.Received? || !input.packet.FromClient? || input.packet.client == 0
       || !Accepted(sh, input.packet.client, input.packet.key) then true
    else
      var c := input.packet.client;
      match input.packet.request
      case UserLevelExit => ExitIsHarmless(sh, c, input.net)
      case UserLevelEntry(target) => exact ==> EntryIsHarmless(sh, c, target, input.net)
      case _ => true
  }

  lemma TouchKeepsAgreement(exact: bool, sh: Shared, c: Int32, now: int)
    requires AllAgree(exact, sh)
    ensures AllAgree(exact, Touched(sh, c, now))
  {
    SameMembers(sh, Touched(sh, c, now));
    assert Agrees(exact, sh, c);
    OneMoved(exact, sh, Touched(sh, c, now), c);
  }

  lemma AnswerKeepsAgreement(exact: bool, sh: Shared, c: Int32, request: Request, net: Network, now: int)
    requires AllAgree(exact, sh) && Tidy(sh) && c in sh.clients
    ensures AllAgree(exact, Answered(sh, c, request, net, now)) <==>
              match request
              case UserLevelExit => ExitIsHarmless(sh, c, net)
              case UserLevelEntry(target) => exact ==> EntryIsHarmless(sh, c, target, net)
              case _ => true
  {
    match request
    case Keepalive => TouchKeepsAgreement(exact, sh, c, now);
    case Disconnect => ForgetKeepsAgreement(exact, sh, c);
    case UserLevelEntry(target) => EntryKeepsAgreement(exact, sh, c, target, net);
    case UserLevelExit => ExitKeepsAgreement(exact, sh, c, net);
    case UserLevelData(data) => UpdateKeepsAgreement(exact, sh, c, data);
    case _ =>
  }

  lemma InputKeepsAgreement(exact: bool, cfg: Settings, sh: Shared, input: Input)
    requires AllAgree(exact, sh) && Tidy(sh)
    ensures AllAgree(exact, Outcome(cfg, sh, input)) <==> Harmless(exact, sh, input)
  {
    match input
    case Received(packet, peer, net, now) =>
      if packet.FromClient? && packet.client != 0 {
        if packet.request.CheckIn? {
          SignInKeepsAgreement(exact, cfg, sh, packet.client, peer, packet.key, packet.request.account, net, now);
        } else if Accepted(sh, packet.client, packet.key) {
          AnswerKeepsAgreement(exact, sh, packet.client, packet.request, net, now);
        }
      }
    case Sweep(_, order) => SweepKeepsAgreement(exact, sh, order);
    case Tick => TickKeepsAgreement(exact, sh);
  }

  ghost predicate WellBehaved(exact: bool, cfg: Settings, inputs: seq<Input>) {
    forall i | 0 <= i < |inputs| :: Harmless(exact, Play(cfg, inputs[..i]), inputs[i])
  }

  ghost predicate AgreeThroughout(exact: bool, cfg: Settings, inputs: seq<Input>) {
    forall i | 0 <= i <= |inputs| :: AllAgree(exact, Play(cfg, inputs[..i]))
  }

  lemma BehavesOnceMore(exact: bool, cfg: Settings, init: seq<Input>, input: Input)
    ensures WellBehaved(exact, cfg, init + [input]) <==>
              WellBehaved(exact, cfg, init) && Harmless(exact, Play(cfg, init), input)
  {
    var inputs := init + [input];
    assert inputs[..|init|] == init && inputs[|init|] == input;
    assert forall i | 0 <= i < |init| :: inputs[..i] == init[..i] && inputs[i] == init[i];
  }

  lemma AgreeOnceMore(exact: bool, cfg: Settings, init: seq<Input>, input: Input)
    ensures AgreeThroughout(exact, cfg, init + [input]) <==>
              AgreeThroughout(exact, cfg, init) && AllAgree(exact, Play(cfg, init + [input]))
  {
    var inputs := init + [input];
    assert inputs[..|inputs|] == inputs;
    assert forall i | 0 <= i <= |init| :: inputs[..i] == init[..i];
  }

  lemma AgreesOnceMore(exact: bool, cfg: Settings, init: seq<Input>, input: Input)
    requires AgreeThroughout(exact, cfg, init)
    ensures AllAgree(exact, Play(cfg, init + [input])) <==> Harmless(exact, Play(cfg, init), input)
  {
    assert init[..|init|] == init && (init + [input])[..|init|] == init;
    RunsAreTidy(cfg, init);
    InputKeepsAgreement(exact, cfg, Play(cfg, init), input);
  }

  lemma NobodyDisagreesYet(exact: bool, cfg: Settings)
    ensures AgreeThroughout(exact, cfg, [])
  {
    assert Play(cfg, []) == Shared(map[], map[]);
  }

  // Main result: the two maps agree all through a run exactly if no input hits one of
  // those guards. Malformed packets never break the one-sided form.
  lemma {:induction false} RunsAgree(exact: bool, cfg: Settings, inputs: seq<Input>)
    ensures AgreeThroughout(exact, cfg, inputs) <==> WellBehaved(exact, cfg, inputs)
  {
    if inputs == [] {
      NobodyDisagreesYet(exact, cfg);
    } else {
      var init, input := inputs[..|inputs| - 1], inputs[|inputs| - 1];
      assert inputs == init + [input];
      RunsAgree(exact, cfg, init);
      AgreeOnceMore(exact, cfg, init, input);
      BehavesOnceMore(exact, cfg, init, input);
      if AgreeThroughout(exact, cfg, init) { AgreesOnceMore(exact, cfg, init, input); }
    }
  }

  lemma GoodRunsAgree(exact: bool, cfg: Settings, inputs: seq<Input>)
    requires WellBehaved(exact, cfg, inputs)
    ensures AllAgree(exact, Play(cfg, inputs)) && Tidy(Play(cfg, inputs))
  {
    RunsAgree(exact, cfg, inputs);
    RunsAreTidy(cfg, inputs);
    assert inputs[..|inputs|] == inputs;
  }

  // ----- both guards can be hit -----

  function Arrival(c: Int32, key: Int32, account: Account): Input {
    Received(FromClient(c, key, CheckIn(Some(account))), 0, (_: int) => true, 0)
  }

  function EntryPacket(c: Int32, key: Int32, wire: Int32): Packet {
    FromClient(c, key, UserLevelEntry(Some(wire)))
  }

  function Entrance(c: Int32, key: Int32, wire: Int32): Input {
    Received(EntryPacket(c, key, wire), 0, (_: int) => true, 0)
  }

  // Client c connects and enters a level.
  function Join(c: Int32, key: Int32, account: Account, wire: Int32): seq<Input> {
    [Arrival(c, key, account), Entrance(c, key, wire)]
  }

  lemma JoinPlays(cfg: Settings, init: seq<Input>, c: Int32, key: Int32, account: Account, wire: Int32)
    requires c != 0 && ValidAccount(account) && c !in Play(cfg, init).clients && !IsFull(cfg, Play(cfg, init))
    ensures var sh := Play(cfg, init);
            Play(cfg, init + Join(c, key, account, wire))
              == Enter(sh.(clients := sh.clients[c := Client(0, key, -1, 0, account)]), c, ToServerLevel(wire))
  {
    var sh, inputs := Play(cfg, init), init + Join(c, key, account, wire);
    var arrived := inputs[..|inputs| - 1];
    assert arrived == init + [Arrival(c, key, account)] && arrived[..|arrived| - 1] == init;
    assert Play(cfg, arrived) == sh.(clients := sh.clients[c := Client(0, key, -1, 0, account)]);
  }

  lemma PlayOn(cfg: Settings, init: seq<Input>, input: Input)
    ensures Play(cfg, init + [input]) == Outcome(cfg, Play(cfg, init), input)
  {
    assert (init + [input])[..|init|] == init;
  }

  // A client that sends an entry packet without a level id is left out of its level
  // while its record keeps naming it.
  lemma MalformedEntryLosesClient(cfg: Settings, c: Int32, key: Int32, account: Account, wire: Int32)
    requires cfg.maxClients >= 0 && c != 0 && ValidAccount(account)
    ensures var inputs := Join(c, key, account, wire)
                          + [Received(FromClient(c, key, UserLevelEntry(None)), 0, _ => true, 0)];
            var sh := Play(cfg, inputs);
            Named(sh, c) == ToServerLevel(wire) && !Member(sh, c, ToServerLevel(wire)) && !AllAgree(true, sh)
  {
    var l, input := ToServerLevel(wire), Received(FromClient(c, key, UserLevelEntry(None)), 0, _ => true, 0);
    assert [] + Join(c, key, account, wire) == Join(c, key, account, wire);
    JoinPlays(cfg, [], c, key, account, wire);
    PlayOn(cfg, Join(c, key, account, wire), input);
    var before := Play(cfg, Join(c, key, account, wire));
    LeaveMembers(before, c, l, c, l);
    assert !Agrees(true, Leave(before, c, l), c);
  }

  lemma TwoJoin(cfg: Settings, c: Int32, d: Int32, key: Int32, account: Account, wire: Int32)
    requires (cfg.maxClients == 0 || cfg.maxClients >= 2) && c != 0 && d != 0 && c != d && ValidAccount(account)
    ensures var sh := Play(cfg, Join(c, key, account, wire) + Join(d, key, account, wire));
            && Member(sh, c, ToServerLevel(wire)) && Accepted(sh, c, key)
            && Named(sh, c) == Named(sh, d) == ToServerLevel(wire)
  {
    var one := Join(c, key, account, wire);
    assert [] + one == one;
    JoinPlays(cfg, [], c, key, account, wire);
    assert |Play(cfg, one).clients| == 1;
    JoinPlays(cfg, one, d, key, account, wire);
  }

  lemma ExitPlays(cfg: Settings, init: seq<Input>, c: Int32, key: Int32, net: Network)
    requires c != 0 && Accepted(Play(cfg, init), c, key)
    ensures Play(cfg, init + [Received(FromClient(c, key, UserLevelExit), 0, net, 0)])
              == Exited(Play(cfg, init), c, net)
  {
    PlayOn(cfg, init, Received(FromClient(c, key, UserLevelExit), 0, net, 0));
  }

  lemma UnheardExit(sh: Shared, c: Int32, d: Int32, l: Int32, net: Network)
    requires Member(sh, c, l) && Named(sh, c) == Named(sh, d) == l && l != -1 && c != d && !net(sh.clients[d].address)
    ensures var after := Exited(sh, c, net); Named(after, c) == -1 && Member(after, c, l) && !AllAgree(false, after)
  {
    var cleared := SetLevel(sh, c, -1);
    assert d in Recipients(cleared, l) && cleared.clients[d] == sh.clients[d];
    assert Member(cleared, c, l) && !Agrees(false, cleared, c);
  }

  // A client whose exit cannot be announced to another one on its level stays in it,
  // with a record that names none.
  lemma UnannouncedExitKeepsClient(cfg: Settings, c: Int32, d: Int32, key: Int32, account: Account, wire: Int32)
    requires (cfg.maxClients == 0 || cfg.maxClients >= 2) && c != 0 && d != 0 && c != d && ValidAccount(account)
    ensures var inputs := Join(c, key, account, wire) + Join(d, key, account, wire)
                          + [Received(FromClient(c, key, UserLevelExit), 0, (_: int) => false, 0)];
            var sh := Play(cfg, inputs);
            Named(sh, c) == -1 && Member(sh, c, ToServerLevel(wire)) && !AllAgree(false, sh)
  {
    var both, net := Join(c, key, account, wire) + Join(d, key, account, wire), (_: int) => false;
    TwoJoin(cfg, c, d, key, account, wire);
    ExitPlays(cfg, both, c, key, net);
    UnheardExit(Play(cfg, both), c, d, ToServerLevel(wire), net);
  }
}
