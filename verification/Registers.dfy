// What a level stores for each of its members, and what a sweep leaves behind.

module Registers {
  import opened Collections
  import opened GameData
  import opened ServerState
  import opened Agreement
  import opened Handling
  import opened Sequential

  function Written(d: Int32, request: Request, c: Int32): Option<ServerPlayer> {
    if d == c && request.UserLevelEntry? then Some(EmptyPlayer)
    else if d == c && request.UserLevelData? then request.data
    else None
  }

  predicate Verified(sh: Shared, packet: Packet) {
    packet.FromClient? && packet.client != 0 && !packet.request.CheckIn? && Accepted(sh, packet.client, packet.key)
  }

  function Write(sh: Shared, input: Input, c: Int32): Option<ServerPlayer> {
    if input.Received? && Verified(sh, input.packet) then Written(input.packet.client, input.packet.request, c)
      else None
  }

  // What the packets of client c alone make of its record: empty when it enters a
  // level, then whatever it last sent.
  function Register(cfg: Settings, inputs: seq<Input>, c: Int32): ServerPlayer {
    if inputs == [] then EmptyPlayer
    else
      var last := |inputs| - 1;
      var write := Write(Play(cfg, inputs[..last]), inputs[last], c);
      if write.Some? then write.value else Register(cfg, inputs[..last], c)
  }

  // Wherever c is a member, p is stored for it.
  ghost predicate Stores(sh: Shared, c: Int32, p: ServerPlayer) {
    forall l :: Member(sh, c, l) ==> sh.levels[l][c] == p
  }

  lemma LeaveStores(sh: Shared, d: Int32, l: Int32, c: Int32, p: ServerPlayer)
    requires Stores(sh, c, p)
    ensures Stores(Leave(sh, d, l), c, p)
  {
    forall m | Member(Leave(sh, d, l), c, m) ensures Leave(sh, d, l).levels[m][c] == p {
      LeaveMembers(sh, d, l, c, m);
    }
  }

  lemma EnterStores(sh: Shared, d: Int32, l: Int32, c: Int32, p: ServerPlayer)
    requires if d == c then Nowhere(sh, c) && p == EmptyPlayer else Stores(sh, c, p)
    ensures Stores(Enter(sh, d, l), c, p)
  {
    forall m | Member(Enter(sh, d, l), c, m) ensures Enter(sh, d, l).levels[m][c] == p {
      EnterMembers(sh, d, l, c, m);
    }
  }

  lemma SameLevelsStore(a: Shared, b: Shared, c: Int32, p: ServerPlayer)
    requires a.levels == b.levels && Stores(a, c, p)
    ensures Stores(b, c, p)
  {
    SameMembers(a, b);
  }

  lemma EntryStores(sh: Shared, d: Int32, target: Option<Int32>, net: Network, c: Int32, p: ServerPlayer)
    requires AllAgree(false, sh) && Tidy(sh)
    requires if d == c then c in sh.clients && p == EmptyPlayer else Stores(sh, c, p)
    ensures Stores(Entered(sh, d, target, net), c, p)
  {
    LeaveNamedGoesNowhere(false, sh, d);
    if d != c { LeaveStores(sh, d, Named(sh, d), c, p); }
    if CanEnter(net, LeaveNamed(sh, d), target) {
      EnterStores(LeaveNamed(sh, d), d, ToServerLevel(target.value), c, p);
    }
  }

  lemma ExitStores(sh: Shared, d: Int32, net: Network, c: Int32, p: ServerPlayer)
    requires Stores(sh, c, p)
    ensures Stores(Exited(sh, d, net), c, p)
  {
    SameLevelsStore(sh, SetLevel(sh, d, -1), c, p);
    LeaveStores(SetLevel(sh, d, -1), d, Named(sh, d), c, p);
  }

  lemma StoredData(sh: Shared, d: Int32, data: ServerPlayer, c: Int32, m: Int32)
    requires m != -1 && Member(Updated(sh, d, Some(data)), c, m)
    ensures var stored := Updated(sh, d, Some(data)).levels[m][c];
            if c == d && m == Named(sh, d) then stored == data
            else Member(sh, c, m) && stored == sh.levels[m][c]
  {
  }

  lemma UpdateStores(sh: Shared, d: Int32, data: Option<ServerPlayer>, c: Int32, p: ServerPlayer)
    requires AllAgree(false, sh) && Tidy(sh)
    requires if d == c && data.Some? then p == data.value else Stores(sh, c, p)
    ensures Stores(Updated(sh, d, data), c, p)
  {
    assert Agrees(false, sh, c);
    UpdateIsTidy(sh, d, data);
    if data.Some? {
      forall m | Member(Updated(sh, d, data), c, m) ensures Updated(sh, d, data).levels[m][c] == p {
        StoredData(sh, d, data.value, c, m);
      }
    }
  }

  lemma ForgetStores(sh: Shared, d: Int32, c: Int32, p: ServerPlayer)
    requires Stores(sh, c, p)
    ensures Stores(Forgotten(sh, d), c, p)
  {
    SameLevelsStore(sh, sh.(clients := sh.clients - {d}), c, p);
    LeaveStores(sh.(clients := sh.clients - {d}), d, Named(sh, d), c, p);
  }

  lemma {:induction false} SweepStores(sh: Shared, order: seq<Int32>, c: Int32, p: ServerPlayer)
    requires Stores(sh, c, p)
    ensures Stores(ForgottenAll(sh, order), c, p)
  {
    if order != [] {
      SweepStores(sh, order[..|order| - 1], c, p);
      ForgetStores(ForgottenAll(sh, order[..|order| - 1]), order[|order| - 1], c, p);
    }
  }

  lemma AnswerStores(sh: Shared, d: Int32, request: Request, net: Network, now: int, c: Int32, p: ServerPlayer)
    requires AllAgree(false, sh) && Tidy(sh) && d in sh.clients
    requires var write := Written(d, request, c); if write.Some? then p == write.value else Stores(sh, c, p)
    ensures Stores(Answered(sh, d, request, net, now), c, p)
  {
    if request.Disconnect? {
      ForgetStores(sh, d, c, p);
    } else if request.UserLevelEntry? {
      EntryStores(sh, d, request.level, net, c, p);
    } else if request.UserLevelExit? {
      ExitStores(sh, d, net, c, p);
    } else if request.UserLevelData? {
      UpdateStores(sh, d, request.data, c, p);
    } else {
      SameLevelsStore(sh, Answered(sh, d, request, net, now), c, p);
    }
  }

  lemma InputStores(cfg: Settings, sh: Shared, input: Input, c: Int32, p: ServerPlayer)
    requires AllAgree(false, sh) && Tidy(sh)
    requires var write := Write(sh, input, c); if write.Some? then p == write.value else Stores(sh, c, p)
    ensures Stores(Outcome(cfg, sh, input), c, p)
  {
    if input.Sweep? {
      SweepStores(sh, input.order, c, p);
    } else if input.Tick? {
      SameLevelsStore(sh, Ticked(sh), c, p);
    } else if Verified(sh, input.packet) {
      AnswerStores(sh, input.packet.client, input.packet.request, input.net, input.now, c, p);
    } else {
      SameLevelsStore(sh, Outcome(cfg, sh, input), c, p);
    }
  }

  // Main result: a level stores for each member the data of that member's latest
  // UserLevelData since it entered, or the empty record, whatever other clients do.
  lemma {:induction false} LastWriterWins(cfg: Settings, inputs: seq<Input>, c: Int32)
    requires WellBehaved(false, cfg, inputs)
    ensures Stores(Play(cfg, inputs), c, Register(cfg, inputs, c))
  {
    if inputs != [] {
      var init := inputs[..|inputs| - 1];
      assert forall i | 0 <= i < |init| :: init[..i] == inputs[..i];
      LastWriterWins(cfg, init, c);
      GoodRunsAgree(false, cfg, init);
      InputStores(cfg, Play(cfg, init), inputs[|init|], c, Register(cfg, inputs, c));
    }
  }

  // ----- sweeps -----

  function PurgedLevels(levels: map<Int32, LevelData>, gone: set<Int32>): map<Int32, LevelData> {
    map l | l in levels && levels[l] - gone != map[] :: levels[l] - gone
  }

  // The server without the given clients.
  function Purged(sh: Shared, gone: set<Int32>): Shared {
    Shared(PurgedLevels(sh.levels, gone), sh.clients - gone)
  }

  ghost predicate SameMembership(a: Shared, b: Shared) {
    && (forall c, l :: Member(a, c, l) <==> Member(b, c, l))
    && (forall c, l | Member(a, c, l) && Member(b, c, l) :: a.levels[l][c] == b.levels[l][c])
  }

  lemma SameMembersSameLevel(a: Shared, b: Shared, l: Int32)
    requires SameMembership(a, b) && l in a.levels && l in b.levels
    ensures a.levels[l] == b.levels[l]
  {
    var p, q := a.levels[l], b.levels[l];
    forall c ensures c in p <==> c in q {
      assert Member(a, c, l) <==> Member(b, c, l);
    }
    forall c | c in p ensures p[c] == q[c] {
      assert Member(a, c, l) && Member(b, c, l);
    }
  }

  lemma HasMember(sh: Shared, l: Int32)
    requires Tidy(sh)
    ensures l in sh.levels ==> exists c :: Member(sh, c, l)
  {
    if l in sh.levels {
      assert sh.levels[l].Keys != {};
      var c :| c in sh.levels[l];
      assert Member(sh, c, l);
    }
  }

  lemma SameMembersSameKey(a: Shared, b: Shared, l: Int32)
    requires Tidy(a) && SameMembership(a, b) && l in a.levels
    ensures l in b.levels
  {
    HasMember(a, l);
    var c :| Member(a, c, l);
    assert Member(b, c, l);
  }

  lemma SameLevels(a: map<Int32, LevelData>, b: map<Int32, LevelData>)
    requires a.Keys <= b.Keys && b.Keys <= a.Keys && forall l | l in a && l in b :: a[l] == b[l]
    ensures a == b
  {
  }

  // Without empty levels, the level map is determined by its members.
  lemma MembersDetermineLevels(a: Shared, b: Shared)
    requires Tidy(a) && Tidy(b) && SameMembership(a, b)
    ensures a.levels == b.levels
  {
    forall l | l in a.levels ensures l in b.levels { SameMembersSameKey(a, b, l); }
    forall l | l in b.levels ensures l in a.levels { SameMembersSameKey(b, a, l); }
    forall l | l in a.levels && l in b.levels ensures a.levels[l] == b.levels[l] { SameMembersSameLevel(a, b, l); }
    SameLevels(a.levels, b.levels);
  }

  lemma PurgeMembers(sh: Shared, gone: set<Int32>, c: Int32, l: Int32)
    ensures Member(Purged(sh, gone), c, l) <==> Member(sh, c, l) && c !in gone
    ensures Member(Purged(sh, gone), c, l) ==> Purged(sh, gone).levels[l][c] == sh.levels[l][c]
  {
    if Member(sh, c, l) && c !in gone { assert c in sh.levels[l] - gone; }
  }

  lemma PurgeIsTidy(sh: Shared, gone: set<Int32>)
    requires Tidy(sh)
    ensures Tidy(Purged(sh, gone))
  {
  }

  lemma LeaveKeepsData(sh: Shared, c: Int32, l: Int32, d: Int32, m: Int32)
    requires Member(Leave(sh, c, l), d, m)
    ensures Member(sh, d, m) && Leave(sh, c, l).levels[m][d] == sh.levels[m][d]
  {
    LeaveMembers(sh, c, l, d, m);
  }

  lemma ForgetMembers(sh: Shared, c: Int32, d: Int32, m: Int32)
    requires AllAgree(false, sh) && Tidy(sh)
    ensures Member(Forgotten(sh, c), d, m) <==> Member(sh, d, m) && d != c
    ensures Member(Forgotten(sh, c), d, m) ==> Forgotten(sh, c).levels[m][d] == sh.levels[m][d]
  {
    var gone := sh.(clients := sh.clients - {c});
    assert Agrees(false, sh, c);
    LeaveMembers(gone, c, Named(sh, c), d, m);
    assert Member(gone, d, m) == Member(sh, d, m);
    if Member(Leave(gone, c, Named(sh, c)), d, m) { LeaveKeepsData(gone, c, Named(sh, c), d, m); }
  }

  lemma NoOneIsPurged(sh: Shared)
    requires Tidy(sh)
    ensures Purged(sh, Elements([])) == sh
  {
    PurgeIsTidy(sh, {});
    forall c, l ensures Member(Purged(sh, {}), c, l) <==> Member(sh, c, l) { PurgeMembers(sh, {}, c, l); }
    forall c, l | Member(Purged(sh, {}), c, l) && Member(sh, c, l)
      ensures Purged(sh, {}).levels[l][c] == sh.levels[l][c]
    {
      PurgeMembers(sh, {}, c, l);
    }
    MembersDetermineLevels(Purged(sh, {}), sh);
    assert Elements([]) == {} && sh.clients - {} == sh.clients;
  }

  lemma ForgetAfterPurgeMember(sh: Shared, gone: set<Int32>, c: Int32, d: Int32, m: Int32)
    requires Tidy(sh) && AllAgree(false, Purged(sh, gone))
    ensures var now, goal := Forgotten(Purged(sh, gone), c), Purged(sh, gone + {c});
            && (Member(now, d, m) <==> Member(goal, d, m))
            && (Member(now, d, m) && Member(goal, d, m) ==> now.levels[m][d] == goal.levels[m][d])
  {
    PurgeIsTidy(sh, gone);
    PurgeMembers(sh, gone, d, m);
    PurgeMembers(sh, gone + {c}, d, m);
    ForgetMembers(Purged(sh, gone), c, d, m);
  }

  lemma ForgetAfterPurgeLevels(sh: Shared, gone: set<Int32>, c: Int32)
    requires Tidy(sh) && AllAgree(false, Purged(sh, gone))
    ensures Forgotten(Purged(sh, gone), c).levels == Purged(sh, gone + {c}).levels
  {
    var was, now, goal := Purged(sh, gone), Forgotten(Purged(sh, gone), c), Purged(sh, gone + {c});
    PurgeIsTidy(sh, gone);
    PurgeIsTidy(sh, gone + {c});
    ForgetIsTidy(was, c);
    forall d, m
      ensures Member(now, d, m) <==> Member(goal, d, m)
      ensures Member(now, d, m) && Member(goal, d, m) ==> now.levels[m][d] == goal.levels[m][d]
    {
      ForgetAfterPurgeMember(sh, gone, c, d, m);
    }
    MembersDetermineLevels(now, goal);
  }

  lemma ForgetAfterPurge(sh: Shared, gone: set<Int32>, c: Int32)
    requires Tidy(sh) && AllAgree(false, Purged(sh, gone))
    ensures Forgotten(Purged(sh, gone), c) == Purged(sh, gone + {c})
  {
    ForgetAfterPurgeLevels(sh, gone, c);
    assert sh.clients - gone - {c} == sh.clients - (gone + {c});
  }

  lemma {:induction false} SweepIsPurge(sh: Shared, order: seq<Int32>)
    requires AllAgree(false, sh) && Tidy(sh)
    ensures ForgottenAll(sh, order) == Purged(sh, Elements(order))
  {
    if order == [] {
      NoOneIsPurged(sh);
    } else {
      var init, c := order[..|order| - 1], order[|order| - 1];
      SweepIsPurge(sh, init);
      SweepKeepsTidy(sh, init);
      SweepKeepsAgreement(false, sh, init);
      assert order == init + [c];
      ElementsOneMore(init, c);
      ForgetAfterPurge(sh, Elements(init), c);
    }
  }

  lemma ForgetTakesOut(sh: Shared, c: Int32, d: Int32, m: Int32)
    ensures Member(Forgotten(sh, c), d, m) <==> Member(sh, d, m) && !(d == c && m == Named(sh, c) && m != -1)
  {
    LeaveMembers(sh.(clients := sh.clients - {c}), c, Named(sh, c), d, m);
  }

  lemma {:induction false} SweepTakesOut(sh: Shared, order: seq<Int32>, d: Int32, m: Int32)
    ensures ForgottenAll(sh, order).clients == sh.clients - Elements(order)
    ensures Member(ForgottenAll(sh, order), d, m) <==> Member(sh, d, m) && !(d in order && m == Named(sh, d) && m != -1)
  {
    if order == [] {
      assert sh.clients - Elements(order) == sh.clients;
    } else {
      var init, c := order[..|order| - 1], order[|order| - 1];
      assert order == init + [c];
      SweepTakesOut(sh, init, d, m);
      ElementsOneMore(init, c);
      ForgetTakesOut(ForgottenAll(sh, init), c, d, m);
      assert sh.clients - Elements(init) - {c} == sh.clients - (Elements(init) + {c});
    }
  }

  // Main result: from every state, in whatever order a sweep meets its dead, it keeps exactly the clients
  // heard of within the timeout, and their records, and takes each of the others out of
  // the level its record names.
  lemma SweepKeepsTheLiving(cfg: Settings, sh: Shared, now: int, order: seq<Int32>, c: Int32)
    requires Enumerates(order, DeadClients(cfg, sh, now))
    ensures var after := ForgottenAll(sh, order);
            && (c in after.clients <==> c in sh.clients && 0 <= now - sh.clients[c].lastKeepalive <= cfg.kickTimeout)
            && (c in after.clients ==> after.clients[c] == sh.clients[c])
            && (forall l :: Member(after, c, l) <==>
                  Member(sh, c, l) && !(c in sh.clients && c !in after.clients && l == Named(sh, c) && l != -1))
  {
    SweepTakesOut(sh, order, c, 0);
    forall l ensures Member(ForgottenAll(sh, order), c, l) <==>
                       Member(sh, c, l) && !(c in order && l == Named(sh, c) && l != -1)
    {
      SweepTakesOut(sh, order, c, l);
    }
  }

  // Where the maps agree, nothing of the dead is left.
  lemma SweepPurges(cfg: Settings, sh: Shared, now: int, order: seq<Int32>)
    requires AllAgree(false, sh) && Tidy(sh) && Enumerates(order, DeadClients(cfg, sh, now))
    ensures ForgottenAll(sh, order) == Purged(sh, DeadClients(cfg, sh, now))
  {
    SweepIsPurge(sh, order);
    assert Elements(order) == DeadClients(cfg, sh, now);
  }
}
