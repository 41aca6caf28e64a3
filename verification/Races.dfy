// What interleaving does when two tasks move one client, or a tick is under way: the
// conditions of Agreement cannot be dropped.

module Races {
  import opened GameData
  import opened ServerState
  import opened Tasks
  import opened Scheduler
  import opened Quiescence
  import opened Embedding
  import opened Solo
  import opened Handling
  import opened Sequential

  // Only these packets arrive, and every send succeeds.
  ghost predicate Brings(more: seq<Event>, packets: set<Packet>) {
    AllSent(more) && forall i | 0 <= i < |more| && more[i].Arrive? :: more[i].packet in packets
  }

  // After a run `es`, the events `more` have led here.
  ghost predicate Reached(cfg: Settings, es: seq<Event>, more: seq<Event>, packets: set<Packet>,
                          sh: Shared, tasks: map<nat, Code>, n: nat)
  {
    Stands(cfg, es + more, sh, tasks, n) && Brings(more, packets)
  }

  lemma Reaches1(cfg: Settings, es: seq<Event>, more: seq<Event>, packets: set<Packet>, e: Event,
                 sh: Shared, tasks: map<nat, Code>, n: nat)
    requires Brings(more, packets) && Stands(cfg, es + more + [e], sh, tasks, n)
    requires !e.Step? && (e.Arrive? ==> e.packet in packets)
    ensures Reached(cfg, es, more + [e], packets, sh, tasks, n)
  {
    assert es + more + [e] == es + (more + [e]);
  }

  lemma ReachesOn(cfg: Settings, es: seq<Event>, more: seq<Event>, packets: set<Packet>, steps: seq<Event>,
                  sh: Shared, tasks: map<nat, Code>, n: nat)
    requires Brings(more, packets) && OnlyWork(steps) && AllSent(steps) && Stands(cfg, es + more + steps, sh, tasks, n)
    ensures Reached(cfg, es, more + steps, packets, sh, tasks, n)
  {
    assert es + more + steps == es + (more + steps);
  }

  // A step from one code point to another one, beside other tasks.
  ghost predicate Leads(cfg: Settings, sh: Shared, others: map<nat, Code>, code: Code, pick: Int32,
                        after: Shared, next: Option<Code>)
  {
    && Ready(sh, code, Choice(pick, true, 0)) && Clear(others, code) && !code.SpawnCleanup?
    && After(cfg, sh, code, Choice(pick, true, 0)) == after && Next(cfg, sh, code, Choice(pick, true, 0)) == next
  }

  lemma Follow(cfg: Settings, es: seq<Event>, more: seq<Event>, packets: set<Packet>, sh: Shared,
               others: map<nat, Code>, t: nat, code: Code, pick: Int32, after: Shared, next: Option<Code>, n: nat)
    returns (now: seq<Event>)
    requires t !in others && Reached(cfg, es, more, packets, sh, others[t := code], n)
    requires Leads(cfg, sh, others, code, pick, after, next)
    ensures Reached(cfg, es, now, packets, after, Moved(others, t, next), n)
  {
    var ch := Choice(pick, true, 0);
    Advance(cfg, es + more, sh, others, t, code, ch, n);
    ReachesOn(cfg, es, more, packets, [Ask(t), Step(t, ch)], after, Moved(others, t, next), n);
    now := more + [Ask(t), Step(t, ch)];
  }

  lemma Arrives(cfg: Settings, es: seq<Event>, more: seq<Event>, packets: set<Packet>, sh: Shared,
                tasks: map<nat, Code>, packet: Packet, code: Code, n: nat) returns (now: seq<Event>)
    requires Reached(cfg, es, more, packets, sh, tasks, n) && packet in packets && Begin(packet, 0) == Some(code)
    ensures Reached(cfg, es, now, packets, sh, tasks[n := code], n + 1)
  {
    LaunchStands(cfg, es + more, Arrive(packet, 0), sh, tasks, code, n);
    Reaches1(cfg, es, more, packets, Arrive(packet, 0), sh, tasks[n := code], n + 1);
    now := more + [Arrive(packet, 0)];
  }

  lemma SpawnerIsReady(sh: Shared, cont: Cont)
    ensures Ready(sh, SpawnCleanup(cont), Choice(0, true, 0))
  {
  }

  lemma CleansAfterwards(cfg: Settings, es: seq<Event>, more: seq<Event>, packets: set<Packet>, sh: Shared,
                         x: nat, cont: Cont, n: nat) returns (now: seq<Event>)
    requires x < n && Reached(cfg, es, more, packets, sh, map[x := SpawnCleanup(cont)], n)
    ensures Reached(cfg, es, now, packets, Clean(sh), Moved(map[], x, Resume(cont)), n + 1)
  {
    SpawnerIsReady(sh, cont);
    var steps := SpawnsAndCleans(cfg, es + more, sh, x, cont, Choice(0, true, 0), n);
    ReachesOn(cfg, es, more, packets, steps, Clean(sh), Moved(map[], x, Resume(cont)), n + 1);
    now := more + steps;
  }

  // ----- where single steps lead -----

  lemma VerifyLeads(cfg: Settings, sh: Shared, others: map<nat, Code>, c: Int32, key: Int32, request: Request)
    requires Accepted(sh, c, key) && Clear(others, Verify(c, key, request))
    ensures Leads(cfg, sh, others, Verify(c, key, request), 0, sh, Dispatch(c, request))
  {
  }

  lemma LookLeads(cfg: Settings, sh: Shared, others: map<nat, Code>, c: Int32, p: ServerPlayer)
    requires c in sh.clients && Named(sh, c) != -1 && Clear(others, UpdateLook(c, false, Some(p)))
    ensures Leads(cfg, sh, others, UpdateLook(c, false, Some(p)), 0, sh, Some(UpdateFind(c, Named(sh, c), p)))
  {
  }

  lemma ExitLeads(cfg: Settings, sh: Shared, others: map<nat, Code>, c: Int32)
    requires c in sh.clients && Clear(others, ExitClear(c))
    ensures Leads(cfg, sh, others, ExitClear(c), 0, SetLevel(sh, c, -1), Some(ExitAnnounce(c, Named(sh, c))))
  {
  }

  lemma AnnounceLeads(cfg: Settings, sh: Shared, others: map<nat, Code>, c: Int32, l: Int32)
    requires Clear(others, ExitAnnounce(c, l))
    ensures Leads(cfg, sh, others, ExitAnnounce(c, l), 0, sh, Some(LeaveFind(c, l, Finish)))
  {
  }

  lemma FindLeads(cfg: Settings, sh: Shared, others: map<nat, Code>, c: Int32, l: Int32, cont: Cont)
    requires l in sh.levels && Clear(others, LeaveFind(c, l, cont))
    ensures Leads(cfg, sh, others, LeaveFind(c, l, cont), 0, sh, Some(LeaveErase(c, l, cont)))
  {
  }

  lemma EraseLeads(cfg: Settings, sh: Shared, others: map<nat, Code>, c: Int32, l: Int32, cont: Cont)
    requires l in sh.levels && Clear(others, LeaveErase(c, l, cont))
    ensures Leads(cfg, sh, others, LeaveErase(c, l, cont), 0, Erase(sh, c, l), Some(SpawnCleanup(cont)))
  {
  }

  function Stored(sh: Shared, c: Int32, l: Int32, p: ServerPlayer): Shared
    requires l in sh.levels
  {
    sh.(levels := sh.levels[l := Put(sh.levels[l], c, p)])
  }

  lemma UpdateLeads(cfg: Settings, sh: Shared, others: map<nat, Code>, c: Int32, l: Int32, p: ServerPlayer)
    requires l in sh.levels && Clear(others, UpdateFind(c, l, p))
    ensures Leads(cfg, sh, others, UpdateFind(c, l, p), 0, sh, Some(UpdateStore(c, l, p)))
  {
  }

  lemma StoreAfter(cfg: Settings, sh: Shared, c: Int32, l: Int32, p: ServerPlayer, ch: Choice)
    requires l in sh.levels
    ensures Ready(sh, UpdateStore(c, l, p), ch) && After(cfg, sh, UpdateStore(c, l, p), ch) == Stored(sh, c, l, p)
    ensures Next(cfg, sh, UpdateStore(c, l, p), ch) == AfterUpdate(cfg, c, l)
  {
  }

  lemma StoreLeads(cfg: Settings, sh: Shared, others: map<nat, Code>, c: Int32, l: Int32, p: ServerPlayer)
    requires l in sh.levels && Clear(others, UpdateStore(c, l, p))
    ensures Leads(cfg, sh, others, UpdateStore(c, l, p), 0, Stored(sh, c, l, p), AfterUpdate(cfg, c, l))
  {
    StoreAfter(cfg, sh, c, l, p, Choice(0, true, 0));
  }

  lemma SnapLeads(cfg: Settings, sh: Shared, others: map<nat, Code>, c: Int32, l: Int32)
    requires l in sh.levels && Clear(others, SnapFind(c, l))
    ensures Leads(cfg, sh, others, SnapFind(c, l), 0, sh, Some(SnapRead(c, l)))
  {
  }

  lemma ReadLeads(cfg: Settings, sh: Shared, others: map<nat, Code>, c: Int32, l: Int32)
    requires l in sh.levels && Clear(others, SnapRead(c, l))
    ensures Leads(cfg, sh, others, SnapRead(c, l), 0, sh, Some(SnapSend(c, l, sh.levels[l])))
  {
  }

  lemma SendLeads(cfg: Settings, sh: Shared, others: map<nat, Code>, c: Int32, l: Int32, payload: LevelData)
    requires l in sh.levels && Clear(others, SnapSend(c, l, payload))
    ensures Leads(cfg, sh, others, SnapSend(c, l, payload), 0, sh, None)
  {
  }

  // ----- data that outlives an exit -----

  function DataPacket(c: Int32, key: Int32, p: ServerPlayer): Packet {
    FromClient(c, key, UserLevelData(Some(p)))
  }

  function ExitPacket(c: Int32, key: Int32): Packet {
    FromClient(c, key, UserLevelExit)
  }

  // The task of a UserLevelData packet has looked up where its client is.
  lemma DataLooks(cfg: Settings, es: seq<Event>, more: seq<Event>, packets: set<Packet>, sh: Shared,
                  c: Int32, key: Int32, p: ServerPlayer, n: nat) returns (now: seq<Event>)
    requires Reached(cfg, es, more, packets, sh, map[], n) && DataPacket(c, key, p) in packets
    requires c != 0 && Accepted(sh, c, key) && Named(sh, c) != -1
    ensures Reached(cfg, es, now, packets, sh, map[n := UpdateFind(c, Named(sh, c), p)], n + 1)
  {
    var none: map<nat, Code>, request := map[], UserLevelData(Some(p));
    now := Arrives(cfg, es, more, packets, sh, none, DataPacket(c, key, p), Verify(c, key, request), n);
    NothingHoldsAlone(Verify(c, key, request));
    VerifyLeads(cfg, sh, none, c, key, request);
    now := Follow(cfg, es, now, packets, sh, none, n, Verify(c, key, request), 0, sh,
                  Some(UpdateLook(c, false, Some(p))), n + 1);
    NothingHoldsAlone(UpdateLook(c, false, Some(p)));
    LookLeads(cfg, sh, none, c, p);
    now := Follow(cfg, es, now, packets, sh, none, n, UpdateLook(c, false, Some(p)), 0, sh,
                  Some(UpdateFind(c, Named(sh, c), p)), n + 1);
  }

  lemma ClearBesideData(c: Int32, l: Int32, p: ServerPlayer, d: nat, code: Code)
    ensures Clear(map[d := UpdateFind(c, l, p)], code)
  {
  }

  // Beside it, an exit clears the client's record,
  lemma ExitClears(cfg: Settings, es: seq<Event>, more: seq<Event>, packets: set<Packet>, sh: Shared,
                   c: Int32, key: Int32, l: Int32, d: nat, p: ServerPlayer, n: nat) returns (now: seq<Event>)
    requires Reached(cfg, es, more, packets, sh, map[d := UpdateFind(c, l, p)], n) && ExitPacket(c, key) in packets
    requires c != 0 && Accepted(sh, c, key) && Named(sh, c) == l && d < n
    ensures Reached(cfg, es, now, packets, SetLevel(sh, c, -1),
                    map[d := UpdateFind(c, l, p)][n := ExitAnnounce(c, l)], n + 1)
  {
    var others, verify := map[d := UpdateFind(c, l, p)], Verify(c, key, UserLevelExit);
    now := Arrives(cfg, es, more, packets, sh, others, ExitPacket(c, key), verify, n);
    ClearBesideData(c, l, p, d, verify);
    VerifyLeads(cfg, sh, others, c, key, UserLevelExit);
    now := Follow(cfg, es, now, packets, sh, others, n, verify, 0, sh, Some(ExitClear(c)), n + 1);
    ClearBesideData(c, l, p, d, ExitClear(c));
    ExitLeads(cfg, sh, others, c);
    now := Follow(cfg, es, now, packets, sh, others, n, ExitClear(c), 0, SetLevel(sh, c, -1), Some(ExitAnnounce(c, l)),
                  n + 1);
  }

  // and takes it out of its level.
  lemma ExitErases(cfg: Settings, es: seq<Event>, more: seq<Event>, packets: set<Packet>, sh: Shared,
                   c: Int32, l: Int32, d: nat, p: ServerPlayer, x: nat, n: nat) returns (now: seq<Event>)
    requires Reached(cfg, es, more, packets, sh, map[d := UpdateFind(c, l, p)][x := ExitAnnounce(c, l)], n)
    requires l in sh.levels && d != x
    ensures Reached(cfg, es, now, packets, Erase(sh, c, l),
                    map[d := UpdateFind(c, l, p)][x := SpawnCleanup(Finish)], n)
  {
    var others, find, erase := map[d := UpdateFind(c, l, p)], LeaveFind(c, l, Finish), LeaveErase(c, l, Finish);
    ClearBesideData(c, l, p, d, ExitAnnounce(c, l));
    AnnounceLeads(cfg, sh, others, c, l);
    now := Follow(cfg, es, more, packets, sh, others, x, ExitAnnounce(c, l), 0, sh, Some(find), n);
    ClearBesideData(c, l, p, d, find);
    FindLeads(cfg, sh, others, c, l, Finish);
    now := Follow(cfg, es, now, packets, sh, others, x, find, 0, sh, Some(erase), n);
    ClearBesideData(c, l, p, d, erase);
    EraseLeads(cfg, sh, others, c, l, Finish);
    now := Follow(cfg, es, now, packets, sh, others, x, erase, 0, Erase(sh, c, l), Some(SpawnCleanup(Finish)), n);
  }

  lemma ClearBesideSpawner(x: nat, cont: Cont, code: Code)
    ensures Clear(map[x := SpawnCleanup(cont)], code)
  {
  }

  // The data task then puts the client back into the level it has left,
  lemma DataStores(cfg: Settings, es: seq<Event>, more: seq<Event>, packets: set<Packet>, sh: Shared,
                   c: Int32, l: Int32, d: nat, p: ServerPlayer, x: nat, n: nat) returns (now: seq<Event>)
    requires Reached(cfg, es, more, packets, sh, map[x := SpawnCleanup(Finish)][d := UpdateFind(c, l, p)], n)
    requires l in sh.levels && d != x && !cfg.tickBased
    ensures Reached(cfg, es, now, packets, Stored(sh, c, l, p), map[x := SpawnCleanup(Finish)][d := SnapFind(c, l)], n)
  {
    var others := map[x := SpawnCleanup(Finish)];
    ClearBesideSpawner(x, Finish, UpdateFind(c, l, p));
    UpdateLeads(cfg, sh, others, c, l, p);
    now := Follow(cfg, es, more, packets, sh, others, d, UpdateFind(c, l, p), 0, sh, Some(UpdateStore(c, l, p)), n);
    ClearBesideSpawner(x, Finish, UpdateStore(c, l, p));
    StoreLeads(cfg, sh, others, c, l, p);
    now := Follow(cfg, es, now, packets, sh, others, d, UpdateStore(c, l, p), 0, Stored(sh, c, l, p),
                  Some(SnapFind(c, l)), n);
  }

  // answers, and the cleanup finds nothing to do.
  lemma DataAnswers(cfg: Settings, es: seq<Event>, more: seq<Event>, packets: set<Packet>, sh: Shared,
                    c: Int32, l: Int32, d: nat, x: nat, n: nat) returns (now: seq<Event>)
    requires Reached(cfg, es, more, packets, sh, map[x := SpawnCleanup(Finish)][d := SnapFind(c, l)], n)
    requires l in sh.levels && d != x
    ensures Reached(cfg, es, now, packets, sh, map[x := SpawnCleanup(Finish)], n)
  {
    var others, send := map[x := SpawnCleanup(Finish)], SnapSend(c, l, sh.levels[l]);
    ClearBesideSpawner(x, Finish, SnapFind(c, l));
    SnapLeads(cfg, sh, others, c, l);
    now := Follow(cfg, es, more, packets, sh, others, d, SnapFind(c, l), 0, sh, Some(SnapRead(c, l)), n);
    ClearBesideSpawner(x, Finish, SnapRead(c, l));
    ReadLeads(cfg, sh, others, c, l);
    now := Follow(cfg, es, now, packets, sh, others, d, SnapRead(c, l), 0, sh, Some(send), n);
    ClearBesideSpawner(x, Finish, send);
    SendLeads(cfg, sh, others, c, l, sh.levels[l]);
    now := Follow(cfg, es, now, packets, sh, others, d, send, 0, sh, None, n);
  }

  lemma StillMember(sh: Shared, c: Int32, l: Int32, p: ServerPlayer)
    requires l in sh.levels
    ensures Member(Clean(Stored(sh, c, l, p)), c, l)
  {
    assert c in Put(sh.levels[l], c, p);
  }

  // Up to where the exit is over but for its cleanup,
  lemma DataThenExit(cfg: Settings, es: seq<Event>, packets: set<Packet>, sh: Shared, c: Int32, key: Int32, l: Int32,
                     p: ServerPlayer, n: nat) returns (more: seq<Event>)
    requires Stands(cfg, es, sh, map[], n) && DataPacket(c, key, p) in packets && ExitPacket(c, key) in packets
    requires c != 0 && Accepted(sh, c, key) && l != -1 && Named(sh, c) == l && l in sh.levels
    ensures Reached(cfg, es, more, packets, Erase(SetLevel(sh, c, -1), c, l),
                    map[n := UpdateFind(c, l, p)][n + 1 := SpawnCleanup(Finish)], n + 2)
  {
    assert es + [] == es;
    more := DataLooks(cfg, es, [], packets, sh, c, key, p, n);
    more := ExitClears(cfg, es, more, packets, sh, c, key, l, n, p, n + 1);
    more := ExitErases(cfg, es, more, packets, SetLevel(sh, c, -1), c, l, n, p, n + 1, n + 2);
  }

  // and from there to rest.
  lemma DataThenRest(cfg: Settings, es: seq<Event>, more: seq<Event>, packets: set<Packet>, sh: Shared, c: Int32,
                     l: Int32, p: ServerPlayer, n: nat) returns (now: seq<Event>)
    requires Reached(cfg, es, more, packets, sh, map[n := UpdateFind(c, l, p)][n + 1 := SpawnCleanup(Finish)], n + 2)
    requires l in sh.levels && !cfg.tickBased
    ensures Reached(cfg, es, now, packets, Clean(Stored(sh, c, l, p)), map[], n + 3)
  {
    assert map[n := UpdateFind(c, l, p)][n + 1 := SpawnCleanup(Finish)]
        == map[n + 1 := SpawnCleanup(Finish)][n := UpdateFind(c, l, p)];
    now := DataStores(cfg, es, more, packets, sh, c, l, n, p, n + 1, n + 2);
    now := DataAnswers(cfg, es, now, packets, Stored(sh, c, l, p), c, l, n, n + 1, n + 2);
    now := CleansAfterwards(cfg, es, now, packets, Stored(sh, c, l, p), n + 1, Finish, n + 2);
  }

  lemma DataAndExit(cfg: Settings, es: seq<Event>, sh: Shared, c: Int32, key: Int32, l: Int32, p: ServerPlayer, n: nat)
    returns (more: seq<Event>)
    requires !cfg.tickBased && Stands(cfg, es, sh, map[], n)
    requires c != 0 && Accepted(sh, c, key) && l != -1 && Named(sh, c) == l && l in sh.levels
    ensures Reached(cfg, es, more, {DataPacket(c, key, p), ExitPacket(c, key)},
                    Clean(Stored(Erase(SetLevel(sh, c, -1), c, l), c, l, p)), map[], n + 3)
  {
    var packets := {DataPacket(c, key, p), ExitPacket(c, key)};
    more := DataThenExit(cfg, es, packets, sh, c, key, l, p, n);
    more := DataThenRest(cfg, es, more, packets, Erase(SetLevel(sh, c, -1), c, l), c, l, p, n);
  }

  // Main result: from any rest in which c is in its level, a UserLevelData packet and an exit
  // of c can interleave so that c, at rest again, is a member of a level that its
  // record does not name.
  lemma DataOutlivesExit(cfg: Settings, es: seq<Event>, c: Int32, key: Int32, p: ServerPlayer)
    requires !cfg.tickBased && Exec(cfg, es).Some? && Exec(cfg, es).value.tasks == map[]
    requires var sh := Exec(cfg, es).value.shared;
             c != 0 && Accepted(sh, c, key) && Named(sh, c) != -1 && Member(sh, c, Named(sh, c))
    ensures exists more ::
              && Brings(more, {DataPacket(c, key, p), ExitPacket(c, key)})
              && Exec(cfg, es + more).Some? && Exec(cfg, es + more).value.tasks == map[]
              && Member(Exec(cfg, es + more).value.shared, c, Named(Exec(cfg, es).value.shared, c))
              && Named(Exec(cfg, es + more).value.shared, c) == -1
  {
    var sh, n := Exec(cfg, es).value.shared, Exec(cfg, es).value.nextTask;
    RestStands(cfg, es);
    var more := DataAndExit(cfg, es, sh, c, key, Named(sh, c), p, n);
    StillMember(Erase(SetLevel(sh, c, -1), c, Named(sh, c)), c, Named(sh, c), p);
  }

  // ----- a tick that repairs what is right -----

  lemma EntryLooks(cfg: Settings, sh: Shared, others: map<nat, Code>, c: Int32, target: Option<Int32>)
    requires c in sh.clients && Named(sh, c) != -1 && Clear(others, EntryLook(c, target))
    ensures Leads(cfg, sh, others, EntryLook(c, target), 0, sh,
                  Some(LeaveFind(c, Named(sh, c), ThenDecode(c, target))))
  {
  }

  lemma EntryLeads(cfg: Settings, sh: Shared, others: map<nat, Code>, c: Int32, l: Int32)
    requires Clear(others, EntryAnnounce(c, l))
    ensures Leads(cfg, sh, others, EntryAnnounce(c, l), 0, sh, Some(EnterOpen(c, l)))
  {
  }

  function Opened(sh: Shared, l: Int32): Shared {
    if l in sh.levels then sh else sh.(levels := sh.levels[l := map[]])
  }

  lemma OpenLeads(cfg: Settings, sh: Shared, others: map<nat, Code>, c: Int32, l: Int32)
    requires Clear(others, EnterOpen(c, l))
    ensures Leads(cfg, sh, others, EnterOpen(c, l), 0, Opened(sh, l), Some(EnterInsert(c, l)))
  {
  }

  lemma InsertLeads(cfg: Settings, sh: Shared, others: map<nat, Code>, c: Int32, l: Int32)
    requires l in sh.levels && Clear(others, EnterInsert(c, l))
    ensures Leads(cfg, sh, others, EnterInsert(c, l), 0, Stored(sh, c, l, EmptyPlayer), Some(EnterRecord(c, l)))
  {
  }

  lemma RecordLeads(cfg: Settings, sh: Shared, others: map<nat, Code>, c: Int32, l: Int32)
    requires Clear(others, EnterRecord(c, l))
    ensures Leads(cfg, sh, others, EnterRecord(c, l), 0, SetLevel(sh, c, l), None)
  {
  }

  lemma TickLookLeads(cfg: Settings, sh: Shared, others: map<nat, Code>)
    requires Clear(others, TickLook)
    ensures Leads(cfg, sh, others, TickLook, 0, sh, Some(TickOpen(TickGroups(sh))))
  {
  }

  lemma TickOpenLeads(cfg: Settings, sh: Shared, others: map<nat, Code>, l: Int32, players: set<Int32>)
    requires l !in sh.levels && Clear(others, TickOpen(map[l := players]))
    ensures Leads(cfg, sh, others, TickOpen(map[l := players]), l, sh, Some(TickRepair(players, map[])))
  {
    assert map[l := players] - {l} == map[];
  }

  lemma RepairLeads(cfg: Settings, sh: Shared, others: map<nat, Code>, players: set<Int32>)
    requires Clear(others, TickRepair(players, map[]))
    ensures Leads(cfg, sh, others, TickRepair(players, map[]), 0, sh.(clients := Repaired(sh.clients, players)), None)
  {
  }

  // An entry has looked up what it has to leave,
  lemma EntryReads(cfg: Settings, es: seq<Event>, packets: set<Packet>, sh: Shared, c: Int32, key: Int32,
                   wire: Int32, l: Int32, n: nat) returns (now: seq<Event>)
    requires Stands(cfg, es, sh, map[], n) && EntryPacket(c, key, wire) in packets
    requires c != 0 && Accepted(sh, c, key) && l != -1 && Named(sh, c) == l
    ensures Reached(cfg, es, now, packets, sh, map[n := LeaveFind(c, l, ThenDecode(c, Some(wire)))], n + 1)
  {
    var none: map<nat, Code>, verify := map[], Verify(c, key, UserLevelEntry(Some(wire)));
    assert es + [] == es;
    now := Arrives(cfg, es, [], packets, sh, none, EntryPacket(c, key, wire), verify, n);
    NothingHoldsAlone(verify);
    VerifyLeads(cfg, sh, none, c, key, UserLevelEntry(Some(wire)));
    now := Follow(cfg, es, now, packets, sh, none, n, verify, 0, sh, Some(EntryLook(c, Some(wire))), n + 1);
    NothingHoldsAlone(EntryLook(c, Some(wire)));
    EntryLooks(cfg, sh, none, c, Some(wire));
    now := Follow(cfg, es, now, packets, sh, none, n, EntryLook(c, Some(wire)), 0, sh,
                  Some(LeaveFind(c, l, ThenDecode(c, Some(wire)))), n + 1);
  }

  // and has left it, and the cleanup is over.
  lemma EntryLeaves(cfg: Settings, es: seq<Event>, packets: set<Packet>, sh: Shared, c: Int32, key: Int32,
                    wire: Int32, l: Int32, n: nat) returns (now: seq<Event>)
    requires Stands(cfg, es, sh, map[], n) && EntryPacket(c, key, wire) in packets
    requires c != 0 && Accepted(sh, c, key) && l != -1 && Named(sh, c) == l && l in sh.levels
    ensures Reached(cfg, es, now, packets, Clean(Erase(sh, c, l)), map[n := EntryAnnounce(c, ToServerLevel(wire))],
                    n + 2)
  {
    var none: map<nat, Code>, cont := map[], ThenDecode(c, Some(wire));
    now := EntryReads(cfg, es, packets, sh, c, key, wire, l, n);
    NothingHoldsAlone(LeaveFind(c, l, cont));
    FindLeads(cfg, sh, none, c, l, cont);
    now := Follow(cfg, es, now, packets, sh, none, n, LeaveFind(c, l, cont), 0, sh, Some(LeaveErase(c, l, cont)),
                  n + 1);
    NothingHoldsAlone(LeaveErase(c, l, cont));
    EraseLeads(cfg, sh, none, c, l, cont);
    now := Follow(cfg, es, now, packets, sh, none, n, LeaveErase(c, l, cont), 0, Erase(sh, c, l),
                  Some(SpawnCleanup(cont)), n + 1);
    now := CleansAfterwards(cfg, es, now, packets, Erase(sh, c, l), n, cont, n + 1);
  }

  // It opens the new level,
  lemma EntryOpens(cfg: Settings, es: seq<Event>, more: seq<Event>, packets: set<Packet>, sh: Shared,
                   c: Int32, m: Int32, t: nat, n: nat) returns (now: seq<Event>)
    requires Reached(cfg, es, more, packets, sh, map[t := EntryAnnounce(c, m)], n)
    ensures Reached(cfg, es, now, packets, Opened(sh, m), map[t := EnterInsert(c, m)], n)
  {
    var none: map<nat, Code> := map[];
    NothingHoldsAlone(EntryAnnounce(c, m));
    EntryLeads(cfg, sh, none, c, m);
    now := Follow(cfg, es, more, packets, sh, none, t, EntryAnnounce(c, m), 0, sh, Some(EnterOpen(c, m)), n);
    NothingHoldsAlone(EnterOpen(c, m));
    OpenLeads(cfg, sh, none, c, m);
    now := Follow(cfg, es, now, packets, sh, none, t, EnterOpen(c, m), 0, Opened(sh, m), Some(EnterInsert(c, m)), n);
  }

  lemma ClearBesideEntry(t: nat, c: Int32, m: Int32)
    ensures Clear(map[t := EnterInsert(c, m)], TickLook)
  {
  }

  // and before it has recorded that, a tick reads the client's record.
  lemma TickLooks(cfg: Settings, es: seq<Event>, more: seq<Event>, packets: set<Packet>, sh: Shared,
                  c: Int32, m: Int32, t: nat, n: nat) returns (now: seq<Event>)
    requires cfg.tickBased && t < n && Reached(cfg, es, more, packets, sh, map[t := EnterInsert(c, m)], n)
    ensures Reached(cfg, es, now, packets, sh, map[t := EnterInsert(c, m)][n := TickOpen(TickGroups(sh))], n + 1)
  {
    var others := map[t := EnterInsert(c, m)];
    LaunchStands(cfg, es + more, StartTick, sh, others, TickLook, n);
    Reaches1(cfg, es, more, packets, StartTick, sh, others[n := TickLook], n + 1);
    ClearBesideEntry(t, c, m);
    TickLookLeads(cfg, sh, others);
    now := Follow(cfg, es, more + [StartTick], packets, sh, others, n, TickLook, 0, sh, Some(TickOpen(TickGroups(sh))),
                  n + 1);
  }

  lemma ClearBesideTick(k: nat, groups: map<Int32, set<Int32>>, code: Code)
    ensures Clear(map[k := TickOpen(groups)], code)
  {
  }

  // The entry finishes.
  lemma EntryEnds(cfg: Settings, es: seq<Event>, more: seq<Event>, packets: set<Packet>, sh: Shared, c: Int32, m: Int32,
                  t: nat, k: nat, groups: map<Int32, set<Int32>>, n: nat) returns (now: seq<Event>)
    requires t != k && m in sh.levels
    requires Reached(cfg, es, more, packets, sh, map[k := TickOpen(groups)][t := EnterInsert(c, m)], n)
    ensures Reached(cfg, es, now, packets, SetLevel(Stored(sh, c, m, EmptyPlayer), c, m), map[k := TickOpen(groups)], n)
  {
    var others, inserted := map[k := TickOpen(groups)], Stored(sh, c, m, EmptyPlayer);
    ClearBesideTick(k, groups, EnterInsert(c, m));
    InsertLeads(cfg, sh, others, c, m);
    now := Follow(cfg, es, more, packets, sh, others, t, EnterInsert(c, m), 0, inserted, Some(EnterRecord(c, m)), n);
    ClearBesideTick(k, groups, EnterRecord(c, m));
    RecordLeads(cfg, inserted, others, c, m);
    now := Follow(cfg, es, now, packets, inserted, others, t, EnterRecord(c, m), 0, SetLevel(inserted, c, m), None, n);
  }

  // The tick does not find the level it has read about.
  lemma TickRepairs(cfg: Settings, es: seq<Event>, more: seq<Event>, packets: set<Packet>, sh: Shared,
                    l: Int32, players: set<Int32>, k: nat, n: nat) returns (now: seq<Event>)
    requires Reached(cfg, es, more, packets, sh, map[k := TickOpen(map[l := players])], n) && l !in sh.levels
    ensures Reached(cfg, es, now, packets, sh.(clients := Repaired(sh.clients, players)), map[], n)
  {
    var none: map<nat, Code>, open, repair := map[], TickOpen(map[l := players]), TickRepair(players, map[]);
    NothingHoldsAlone(open);
    TickOpenLeads(cfg, sh, none, l, players);
    now := Follow(cfg, es, more, packets, sh, none, k, open, l, sh, Some(repair), n);
    NothingHoldsAlone(repair);
    RepairLeads(cfg, sh, none, players);
    now := Follow(cfg, es, now, packets, sh, none, k, repair, 0, sh.(clients := Repaired(sh.clients, players)), None,
                  n);
  }

  // A server with one client, alone in a level.
  function OnePlayer(c: Int32, client: Client, q: ServerPlayer): Shared {
    Shared(map[client.levelId := map[c := q]], map[c := client])
  }

  lemma OneGroup(sh: Shared, c: Int32, l: Int32)
    requires sh.clients.Keys == {c} && sh.clients[c].levelId == l && l != -1
    ensures TickGroups(sh) == map[l := {c}]
  {
    assert NamedLevels(sh) == {l};
    assert Recipients(sh, l) == {c};
  }

  lemma ErasedIsGone(sh: Shared, c: Int32, client: Client, q: ServerPlayer)
    requires sh == OnePlayer(c, client, q)
    ensures Clean(Erase(sh, c, client.levelId)) == Shared(map[], map[c := client])
  {
    assert map[c := q] - {c} == map[];
  }

  // Up to where the entry is about to insert the client and the tick has read the record that
  // still names the old level,
  lemma EntryMeetsTick(cfg: Settings, es: seq<Event>, packets: set<Packet>, c: Int32, key: Int32, client: Client,
                       q: ServerPlayer, wire: Int32, n: nat) returns (more: seq<Event>)
    requires cfg.tickBased && Stands(cfg, es, OnePlayer(c, client, q), map[], n) && EntryPacket(c, key, wire) in packets
    requires c != 0 && client.secretKey == key && client.levelId != -1
    ensures Reached(cfg, es, more, packets, Shared(map[ToServerLevel(wire) := map[]], map[c := client]),
                    map[n := EnterInsert(c, ToServerLevel(wire))][n + 2 := TickOpen(map[client.levelId := {c}])], n + 3)
  {
    var l, m, left := client.levelId, ToServerLevel(wire), Shared(map[], map[c := client]);
    more := EntryLeaves(cfg, es, packets, OnePlayer(c, client, q), c, key, wire, l, n);
    ErasedIsGone(OnePlayer(c, client, q), c, client, q);
    more := EntryOpens(cfg, es, more, packets, left, c, m, n, n + 2);
    assert Opened(left, m) == Shared(map[m := map[]], map[c := client]);
    more := TickLooks(cfg, es, more, packets, Opened(left, m), c, m, n, n + 2);
    OneGroup(Opened(left, m), c, l);
  }

  // and from there to rest.
  lemma EntryThenRepair(cfg: Settings, es: seq<Event>, more: seq<Event>, packets: set<Packet>, c: Int32, client: Client,
                        m: Int32, n: nat) returns (now: seq<Event>)
    requires m != client.levelId
    requires Reached(cfg, es, more, packets, Shared(map[m := map[]], map[c := client]),
                     map[n := EnterInsert(c, m)][n + 2 := TickOpen(map[client.levelId := {c}])], n + 3)
    ensures Reached(cfg, es, now, packets,
                    Shared(map[m := map[c := EmptyPlayer]], map[c := client.(levelId := -1)]), map[], n + 3)
  {
    var l, opening := client.levelId, Shared(map[m := map[]], map[c := client]);
    assert map[n := EnterInsert(c, m)][n + 2 := TickOpen(map[l := {c}])]
        == map[n + 2 := TickOpen(map[l := {c}])][n := EnterInsert(c, m)];
    now := EntryEnds(cfg, es, more, packets, opening, c, m, n, n + 2, map[l := {c}], n + 3);
    var entered := SetLevel(Stored(opening, c, m, EmptyPlayer), c, m);
    assert entered == Shared(map[m := map[c := EmptyPlayer]], map[c := client.(levelId := m)]);
    now := TickRepairs(cfg, es, now, packets, entered, l, {c}, n + 2, n + 3);
    assert Repaired(entered.clients, {c}) == map[c := client.(levelId := -1)];
  }

  lemma EntryAndTick(cfg: Settings, es: seq<Event>, c: Int32, key: Int32, client: Client, q: ServerPlayer, wire: Int32,
                     n: nat)
    returns (more: seq<Event>)
    requires cfg.tickBased && Stands(cfg, es, OnePlayer(c, client, q), map[], n)
    requires c != 0 && client.secretKey == key && client.levelId != -1 && ToServerLevel(wire) != client.levelId
    ensures Reached(cfg, es, more, {EntryPacket(c, key, wire)},
                    Shared(map[ToServerLevel(wire) := map[c := EmptyPlayer]], map[c := client.(levelId := -1)]), map[],
                      n + 3)
  {
    var packets := {EntryPacket(c, key, wire)};
    more := EntryMeetsTick(cfg, es, packets, c, key, client, q, wire, n);
    more := EntryThenRepair(cfg, es, more, packets, c, client, ToServerLevel(wire), n);
  }

  // Main result: with ticks, a client alone on the server and in a level can change to
  // another level and end there with a record that names none.
  lemma TickRepairsFromStaleData(cfg: Settings, es: seq<Event>, c: Int32, key: Int32, client: Client, q: ServerPlayer,
                                 wire: Int32)
    requires cfg.tickBased && Exec(cfg, es).Some? && Exec(cfg, es).value.tasks == map[]
    requires Exec(cfg, es).value.shared == OnePlayer(c, client, q)
    requires c != 0 && client.secretKey == key && client.levelId != -1 && ToServerLevel(wire) != client.levelId
    ensures exists more ::
              && Brings(more, {EntryPacket(c, key, wire)})
              && Exec(cfg, es + more).Some? && Exec(cfg, es + more).value.tasks == map[]
              && Member(Exec(cfg, es + more).value.shared, c, ToServerLevel(wire))
              && Named(Exec(cfg, es + more).value.shared, c) == -1
  {
    RestStands(cfg, es);
    var more := EntryAndTick(cfg, es, c, key, client, q, wire, Exec(cfg, es).value.nextTask);
  }

  // ----- both are reachable -----

  lemma OnePlayerPlays(cfg: Settings, c: Int32, key: Int32, account: Account, wire: Int32)
    requires cfg.maxClients >= 0 && c != 0 && ValidAccount(account)
    ensures Play(cfg, Join(c, key, account, wire))
              == OnePlayer(c, Client(0, key, ToServerLevel(wire), 0, account), EmptyPlayer)
  {
    assert [] + Join(c, key, account, wire) == Join(c, key, account, wire);
    JoinPlays(cfg, [], c, key, account, wire);
  }

  lemma OnePlayerRuns(cfg: Settings, c: Int32, key: Int32, account: Account, wire: Int32) returns (es: seq<Event>)
    requires cfg.maxClients >= 0 && c != 0 && ValidAccount(account)
    ensures Exec(cfg, es).Some? && Exec(cfg, es).value.tasks == map[]
    ensures Exec(cfg, es).value.shared == OnePlayer(c, Client(0, key, ToServerLevel(wire), 0, account), EmptyPlayer)
  {
    var inputs := Join(c, key, account, wire);
    OnePlayerPlays(cfg, c, key, account, wire);
    SequentialIsInterleaved(cfg, inputs);
    es :| Exec(cfg, es).Some? && Exec(cfg, es).value.shared == Play(cfg, inputs) && Exec(cfg, es).value.tasks == map[];
  }

  ghost predicate Disagree(cfg: Settings, es: seq<Event>, c: Int32, l: Int32) {
    && Exec(cfg, es).Some? && Exec(cfg, es).value.tasks == map[]
    && Member(Exec(cfg, es).value.shared, c, l) && Named(Exec(cfg, es).value.shared, c) == -1
  }

  // Main result: with overlapping packets of one client, and with ticks even without, the
  // maps can disagree at rest.
  lemma DisagreementIsReachable(cfg: Settings, c: Int32, key: Int32, account: Account, wire: Int32)
    requires cfg.maxClients >= 0 && c != 0 && ValidAccount(account)
    ensures exists es, l :: Disagree(cfg, es, c, l)
  {
    var es := OnePlayerRuns(cfg, c, key, account, wire);
    var client, l := Client(0, key, ToServerLevel(wire), 0, account), ToServerLevel(wire);
    if cfg.tickBased {
      var other := if wire == 5 then 6 else 5;
      RestStands(cfg, es);
      var more := EntryAndTick(cfg, es, c, key, client, EmptyPlayer, other, Exec(cfg, es).value.nextTask);
      assert Disagree(cfg, es + more, c, ToServerLevel(other));
    } else {
      DataOutlivesExit(cfg, es, c, key, EmptyPlayer);
      var more :| Exec(cfg, es + more).Some? && Exec(cfg, es + more).value.tasks == map[]
                  && Member(Exec(cfg, es + more).value.shared, c, l)
                    && Named(Exec(cfg, es + more).value.shared, c) == -1;
      assert Disagree(cfg, es + more, c, l);
    }
  }
}
