// Every schedule comes to rest: without new arrivals, the tasks at hand have only finitely
// much left to do, and some schedule does it all.

module Quiescence {
  import opened GameData
  import opened ServerState
  import opened Tasks
  import opened Scheduler
  import Sessions

  // ----- sums over the task table -----

  function At(tasks: map<nat, Code>, f: Code -> nat, t: nat): nat {
    if t in tasks then f(tasks[t]) else 0
  }

  function Sum(tasks: map<nat, Code>, f: Code -> nat, n: nat): nat {
    if n == 0 then 0 else Sum(tasks, f, n - 1) + At(tasks, f, n - 1)
  }

  lemma {:induction false} SumUnchanged(a: map<nat, Code>, b: map<nat, Code>, f: Code -> nat, n: nat)
    requires forall u: nat | u < n :: At(a, f, u) == At(b, f, u)
    ensures Sum(a, f, n) == Sum(b, f, n)
  {
    if n > 0 { SumUnchanged(a, b, f, n - 1); }
  }

  lemma {:induction false} SumChanged(a: map<nat, Code>, b: map<nat, Code>, f: Code -> nat, n: nat, t: nat)
    requires t < n && forall u: nat | u < n && u != t :: At(a, f, u) == At(b, f, u)
    ensures Sum(a, f, n) + At(b, f, t) == Sum(b, f, n) + At(a, f, t)
  {
    if t == n - 1 {
      SumUnchanged(a, b, f, n - 1);
    } else {
      SumChanged(a, b, f, n - 1, t);
    }
  }

  lemma {:induction false} SumIsMonotone(tasks: map<nat, Code>, f: Code -> nat, g: Code -> nat, n: nat)
    requires forall code :: f(code) <= g(code)
    ensures Sum(tasks, f, n) <= Sum(tasks, g, n)
  {
    if n > 0 { SumIsMonotone(tasks, f, g, n - 1); }
  }

  // ----- what can still grow -----

  // The task may still add a level to the level map.
  predicate MayOpen(code: Code) {
    match code
    case Verify(_, _, request) => request.UserLevelEntry?
    case EntryLook(_, _) => true
    case Forget(_, cont) => cont.ThenDecode?
    case LeaveFind(_, _, cont) => cont.ThenDecode?
    case LeaveErase(_, _, cont) => cont.ThenDecode?
    case SpawnCleanup(cont) => cont.ThenDecode?
    case EntryAnnounce(_, _) => true
    case EnterOpen(_, _) => true
    case _ => false
  }

  function Opens(code: Code): nat {
    if MayOpen(code) then 1 else 0
  }

  // The task may still add a client to a level.
  predicate MayInsert(code: Code) {
    MayOpen(code) ||
    match code
    case Verify(_, _, request) => request.UserLevelData?
    case EnterInsert(_, _) => true
    case UpdateLook(_, spectating, _) => !spectating
    case UpdateFind(_, _, _) => true
    case UpdateStore(_, _, _) => true
    case _ => false
  }

  function Inserts(code: Code): nat {
    if MayInsert(code) then 1 else 0
  }

  function Joins(code: Code): nat {
    if code.CheckInAdd? then 1 else 0
  }

  function ValueNext(f: Code -> nat, next: Option<Code>): nat {
    if next.Some? then f(next.value) else 0
  }

  lemma PutSize(levels: map<Int32, LevelData>, l: Int32, level: LevelData)
    ensures |levels[l := level]| == |levels| + if l in levels then 0 else 1
  {
    var after := levels[l := level];
    assert after.Keys == levels.Keys + {l};
    assert |after| == |after.Keys| && |levels| == |levels.Keys|;
  }

  lemma DropSize(levels: map<Int32, LevelData>, l: Int32)
    requires l in levels
    ensures |levels - {l}| < |levels|
  {
    assert (levels - {l}).Keys == levels.Keys - {l};
    assert |levels - {l}| == |(levels - {l}).Keys| && |levels| == |levels.Keys|;
  }

  lemma StoringKeepsLevels(sh: Shared, code: Code)
    requires Needs(code) <= sh.levels.Keys && !code.EnterOpen? && !code.CleanCheck?
    ensures LevelsAfter(sh, code).Keys == sh.levels.Keys
  {
  }

  lemma OnlyOpeningAddsLevels(sh: Shared, code: Code)
    requires Needs(code) <= sh.levels.Keys
    ensures |LevelsAfter(sh, code)| <= |sh.levels| + if code.EnterOpen? then 1 else 0
  {
    if code.EnterOpen? {
      PutSize(sh.levels, code.level, map[]);
    } else if code.CleanCheck? {
      DropSize(sh.levels, code.level);
    } else {
      StoringKeepsLevels(sh, code);
      assert |LevelsAfter(sh, code)| == |LevelsAfter(sh, code).Keys| && |sh.levels| == |sh.levels.Keys|;
    }
  }

  // A step adds at most one level and one member, and uses up the task's right to.
  ghost predicate UsesUp(code: Code, next: Option<Code>) {
    && ValueNext(Opens, next) + (if code.EnterOpen? then 1 else 0) <= Opens(code)
    && ValueNext(Inserts, next) + (if code.EnterInsert? || code.UpdateStore? then 1 else 0) <= Inserts(code)
    && ValueNext(Joins, next) == 0
  }

  lemma SweepsUseNothing(cfg: Settings, sh: Shared, code: Code, ch: Choice)
    requires Ready(sh, code, ch) && (code.SweepLook? || code.SweepNext?)
    ensures UsesUp(code, Next(cfg, sh, code, ch))
  {
  }

  lemma CountingNextUsesNothing(code: Code, c: Int32, todo: set<Int32>, counts: map<Int32, nat>, pick: Int32)
    requires code.ListOpen? || code.ListCount?
    ensures UsesUp(code, Some(ListNext(c, todo, counts, pick)))
  {
  }

  lemma CountingUsesNothing(cfg: Settings, sh: Shared, code: Code, ch: Choice)
    requires Ready(sh, code, ch) && (code.ListOpen? || code.ListCount?)
    ensures UsesUp(code, Next(cfg, sh, code, ch))
  {
    if code.ListOpen? {
      CountingNextUsesNothing(code, code.client, sh.levels.Keys, map[], ch.pick);
    } else {
      CountingNextUsesNothing(code, code.client, code.todo, code.counts[code.level := |sh.levels[code.level]|],
                              ch.pick);
    }
  }

  lemma CleaningUsesNothing(cfg: Settings, sh: Shared, code: Code, ch: Choice)
    requires Ready(sh, code, ch) && (code.CleanOpen? || code.CleanCheck?)
    ensures UsesUp(code, Next(cfg, sh, code, ch))
  {
  }

  lemma ReadingUsesNothing(cfg: Settings, sh: Shared, code: Code, ch: Choice)
    requires Ready(sh, code, ch) && code.TickRead?
    ensures UsesUp(code, Next(cfg, sh, code, ch))
  {
  }

  lemma SendingUsesNothing(cfg: Settings, sh: Shared, code: Code, ch: Choice)
    requires Ready(sh, code, ch) && code.TickSend?
    ensures UsesUp(code, Next(cfg, sh, code, ch))
  {
  }

  lemma TicksUseNothing(cfg: Settings, sh: Shared, code: Code, ch: Choice)
    requires Ready(sh, code, ch) && Ticks(code) && !code.TickRead? && !code.TickSend?
    ensures UsesUp(code, Next(cfg, sh, code, ch))
  {
  }

  lemma LeavingUsesNothing(cfg: Settings, sh: Shared, code: Code, ch: Choice)
    requires Ready(sh, code, ch) && Leaves(code)
    ensures UsesUp(code, Next(cfg, sh, code, ch))
  {
  }

  lemma SigningInUsesUp(cfg: Settings, sh: Shared, code: Code, ch: Choice)
    requires Ready(sh, code, ch) && SignsIn(code)
    ensures UsesUp(code, Next(cfg, sh, code, ch))
  {
  }

  lemma EnteringUsesUp(cfg: Settings, sh: Shared, code: Code, ch: Choice)
    requires Ready(sh, code, ch) && EntersOrExits(code)
    ensures UsesUp(code, Next(cfg, sh, code, ch))
  {
  }

  lemma HandlersUseOnce(cfg: Settings, sh: Shared, code: Code, ch: Choice)
    requires Ready(sh, code, ch) && !Scans(code) && !Ticks(code) && !Leaves(code) && !SignsIn(code)
             && !EntersOrExits(code)
    ensures UsesUp(code, Next(cfg, sh, code, ch))
  {
  }

  lemma StepUsesUp(cfg: Settings, sh: Shared, code: Code, ch: Choice)
    requires Ready(sh, code, ch)
    ensures UsesUp(code, Next(cfg, sh, code, ch))
  {
    if code.SweepLook? || code.SweepNext? {
      SweepsUseNothing(cfg, sh, code, ch);
    } else if code.ListOpen? || code.ListCount? {
      CountingUsesNothing(cfg, sh, code, ch);
    } else if Scans(code) {
      CleaningUsesNothing(cfg, sh, code, ch);
    } else if code.TickRead? {
      ReadingUsesNothing(cfg, sh, code, ch);
    } else if code.TickSend? {
      SendingUsesNothing(cfg, sh, code, ch);
    } else if Ticks(code) {
      TicksUseNothing(cfg, sh, code, ch);
    } else if Leaves(code) {
      LeavingUsesNothing(cfg, sh, code, ch);
    } else if SignsIn(code) {
      SigningInUsesUp(cfg, sh, code, ch);
    } else if EntersOrExits(code) {
      EnteringUsesUp(cfg, sh, code, ch);
    } else {
      HandlersUseOnce(cfg, sh, code, ch);
    }
  }

  lemma OnlyJoiningAddsClients(cfg: Settings, sh: Shared, code: Code, now: int)
    ensures |ClientsAfter(cfg, sh, code, now)| <= |sh.clients| + Joins(code)
  {
    var after := ClientsAfter(cfg, sh, code, now);
    assert |after| == |after.Keys| && |sh.clients| == |sh.clients.Keys|;
    if code.CheckInAdd? {
      Sessions.SubsetSize(after.Keys, sh.clients.Keys + {code.client});
    } else {
      Sessions.SubsetSize(after.Keys, sh.clients.Keys);
    }
  }

  // Everyone who is in some level.
  function MemberIds(levels: map<Int32, LevelData>): set<Int32> {
    set l, c | l in levels && c in levels[l] :: c
  }

  lemma LevelIsNoLarger(levels: map<Int32, LevelData>, l: Int32)
    requires l in levels
    ensures |levels[l].Keys| <= |MemberIds(levels)|
  {
    Sessions.SubsetSize(levels[l].Keys, MemberIds(levels));
  }

  lemma OthersAddNoMember(sh: Shared, code: Code)
    requires Needs(code) <= sh.levels.Keys && !code.EnterInsert? && !code.UpdateStore?
    ensures MemberIds(LevelsAfter(sh, code)) <= MemberIds(sh.levels)
  {
  }

  lemma PutAddsOneMember(levels: map<Int32, LevelData>, l: Int32, c: Int32, p: ServerPlayer)
    requires l in levels
    ensures MemberIds(levels[l := Put(levels[l], c, p)]) <= MemberIds(levels) + {c}
  {
  }

  lemma PutAddsOne(levels: map<Int32, LevelData>, l: Int32, c: Int32, p: ServerPlayer)
    requires l in levels
    ensures |MemberIds(levels[l := Put(levels[l], c, p)])| <= |MemberIds(levels)| + 1
  {
    PutAddsOneMember(levels, l, c, p);
    Sessions.SubsetSize(MemberIds(levels[l := Put(levels[l], c, p)]), MemberIds(levels) + {c});
  }

  lemma OnlyInsertingAddsMembers(sh: Shared, code: Code)
    requires Needs(code) <= sh.levels.Keys
    ensures |MemberIds(LevelsAfter(sh, code))| <= |MemberIds(sh.levels)| + if code.EnterInsert?
            || code.UpdateStore? then 1 else 0
  {
    if code.EnterInsert? {
      PutAddsOne(sh.levels, code.level, code.client, EmptyPlayer);
    } else if code.UpdateStore? {
      PutAddsOne(sh.levels, code.level, code.client, code.player);
    } else {
      OthersAddNoMember(sh, code);
      Sessions.SubsetSize(MemberIds(LevelsAfter(sh, code)), MemberIds(sh.levels));
    }
  }

  // ----- steps left -----

  // What may still become of the two maps: how many levels, clients, and ids in levels.
  datatype Room = Room(levels: nat, clients: nat, ids: nat) {
    function Cleanup(): nat {
      2 + levels
    }
  }

  function Times(a: nat, n: nat): nat {
    if n == 0 then 0 else Times(a, n - 1) + a
  }

  lemma {:induction false} TimesGrows(a: nat, b: nat, m: nat, n: nat)
    requires a <= b && m <= n
    ensures Times(a, m) <= Times(b, n)
  {
    if m > 0 {
      TimesGrows(a, b, m - 1, n - 1);
    } else if n > 0 {
      TimesGrows(a, b, 0, n - 1);
    }
  }

  function SweepSteps(room: Room, n: nat): nat {
    Times(room.Cleanup() + 5, n) + 1
  }

  function ContSteps(room: Room, cont: Cont): nat {
    match cont
    case Finish => 0
    case ThenDecode(_, _) => 5
    case ThenSweep(rest) => SweepSteps(room, |rest|)
  }

  // A tick reads a level and sends it to each of its members.
  function TickSteps(room: Room, n: nat): nat {
    Times(room.ids + 2, n)
  }

  // A bound on the steps of a task and of the cleanups it will spawn.
  function Steps(room: Room, code: Code): nat {
    match code
    case PingCount => 1
    case Verify(_, _, _) => room.Cleanup() + 11
    case CheckInAdd(_, _, _, _) => 3
    case CheckInReject(_) => 1
    case CheckInStore(_, _) => 2
    case Reply(_) => 1
    case KeepaliveTouch(_) => 2
    case Forget(_, cont) => room.Cleanup() + ContSteps(room, cont) + 4
    case LeaveFind(_, _, cont) => room.Cleanup() + ContSteps(room, cont) + 3
    case LeaveErase(_, _, cont) => room.Cleanup() + ContSteps(room, cont) + 2
    case SpawnCleanup(cont) => room.Cleanup() + ContSteps(room, cont) + 1
    case EntryLook(_, _) => room.Cleanup() + 9
    case EntryAnnounce(_, _) => 4
    case EnterOpen(_, _) => 3
    case EnterInsert(_, _) => 2
    case EnterRecord(_, _) => 1
    case ExitClear(_) => room.Cleanup() + 5
    case ExitAnnounce(_, _) => room.Cleanup() + 4
    case UpdateLook(_, _, _) => 6
    case UpdateFind(_, _, _) => 5
    case UpdateStore(_, _, _) => 4
    case SnapFind(_, _) => 3
    case SnapRead(_, _) => 2
    case SnapSend(_, _, _) => 1
    case ListOpen(_) => room.levels + 3
    case ListCount(_, _, todo, _) => |todo| + 2
    case ListSend(_, _) => 1
    case AccountLook(_, _) => 2
    case TextLook(_) => 2
    case TextBroadcast(_) => 1
    case SweepLook => SweepSteps(room, room.clients) + 1
    case SweepNext(todo) => SweepSteps(room, |todo|)
    case CleanOpen => room.Cleanup()
    case CleanCheck(_, todo) => |todo| + 1
    case TickLook => TickSteps(room, room.clients) + 2
    case TickOpen(groups) => TickSteps(room, |groups|) + 1
    case TickRead(_, groups) => TickSteps(room, |groups|) + room.ids + 1
    case TickSend(_, ids, groups) => TickSteps(room, |groups|) + |ids| + 1
    case TickRepair(_, groups) => TickSteps(room, |groups|) + 1
  }

  // The maps fit into the room.
  predicate Fits(sh: Shared, room: Room) {
    |sh.levels| <= room.levels && |sh.clients| <= room.clients && |MemberIds(sh.levels)| <= room.ids
  }

  function StepsNext(room: Room, next: Option<Code>): nat {
    if next.Some? then Steps(room, next.value) else 0
  }

  ghost predicate WorksOff(cfg: Settings, room: Room, sh: Shared, code: Code, ch: Choice)
    requires Ready(sh, code, ch)
  {
    StepsNext(room, Next(cfg, sh, code, ch)) + (if code.SpawnCleanup? then room.Cleanup() else 0) < Steps(room, code)
  }

  // The maps fit into the room with whatever the task may still add.
  predicate HasRoom(sh: Shared, code: Code, room: Room) {
    && |sh.levels| + Opens(code) <= room.levels
    && |sh.clients| + Joins(code) <= room.clients
    && |MemberIds(sh.levels)| + Inserts(code) <= room.ids
  }

  lemma OneSweptLess(room: Room, n: nat)
    requires n > 0
    ensures SweepSteps(room, n) == SweepSteps(room, n - 1) + room.Cleanup() + 5
  {
  }

  lemma SweepStepsLeft(room: Room, rest: set<Int32>)
    ensures StepsNext(room, Resume(ThenSweep(rest))) <= SweepSteps(room, |rest|)
  {
  }

  lemma SweepLookWorksOff(cfg: Settings, room: Room, sh: Shared, ch: Choice)
    requires Ready(sh, SweepLook, ch) && |sh.clients| <= room.clients
    ensures WorksOff(cfg, room, sh, SweepLook, ch)
  {
    var dead := DeadClients(cfg, sh, ch.now);
    Sessions.SubsetSize(dead, sh.clients.Keys);
    assert |sh.clients| == |sh.clients.Keys|;
    TimesGrows(room.Cleanup() + 5, room.Cleanup() + 5, |dead|, room.clients);
    SweepStepsLeft(room, dead);
  }

  lemma OneLess(todo: set<Int32>, pick: Int32)
    requires PickOk(todo, pick)
    ensures todo != {} ==> |todo - {pick}| == |todo| - 1
  {
  }

  lemma SweepNextWorksOff(cfg: Settings, room: Room, sh: Shared, code: Code, ch: Choice)
    requires Ready(sh, code, ch) && code.SweepNext?
    ensures WorksOff(cfg, room, sh, code, ch)
  {
    if code.todo != {} {
      OneLess(code.todo, ch.pick);
      OneSweptLess(room, |code.todo|);
    }
  }

  lemma CountStepsLeft(room: Room, c: Int32, todo: set<Int32>, counts: map<Int32, nat>, pick: Int32)
    requires PickOk(todo, pick)
    ensures Steps(room, ListNext(c, todo, counts, pick)) == |todo| + 1
  {
  }

  lemma CountWorksOff(cfg: Settings, room: Room, sh: Shared, code: Code, ch: Choice)
    requires Ready(sh, code, ch) && |sh.levels| <= room.levels && (code.ListOpen? || code.ListCount?)
    ensures WorksOff(cfg, room, sh, code, ch)
  {
    if code.ListOpen? {
      assert |sh.levels| == |sh.levels.Keys|;
      CountStepsLeft(room, code.client, sh.levels.Keys, map[], ch.pick);
    } else {
      CountStepsLeft(room, code.client, code.todo, code.counts[code.level := |sh.levels[code.level]|], ch.pick);
    }
  }

  lemma CleanStepsLeft(room: Room, todo: set<Int32>, pick: Int32)
    requires PickOk(todo, pick)
    ensures StepsNext(room, CleanNext(todo, pick)) <= |todo|
  {
  }

  lemma CleanWorksOff(cfg: Settings, room: Room, sh: Shared, code: Code, ch: Choice)
    requires Ready(sh, code, ch) && |sh.levels| <= room.levels && (code.CleanOpen? || code.CleanCheck?)
    ensures WorksOff(cfg, room, sh, code, ch)
  {
    if code.CleanOpen? {
      assert |sh.levels| == |sh.levels.Keys|;
      CleanStepsLeft(room, sh.levels.Keys, ch.pick);
    } else {
      CleanStepsLeft(room, code.todo, ch.pick);
    }
  }

  lemma LeaveWorksOff(cfg: Settings, room: Room, sh: Shared, code: Code, ch: Choice)
    requires Ready(sh, code, ch) && Leaves(code)
    ensures WorksOff(cfg, room, sh, code, ch)
  {
  }

  lemma SigningInWorksOff(cfg: Settings, room: Room, sh: Shared, code: Code, ch: Choice)
    requires Ready(sh, code, ch) && SignsIn(code)
    ensures WorksOff(cfg, room, sh, code, ch)
  {
  }

  lemma EnteringWorksOff(cfg: Settings, room: Room, sh: Shared, code: Code, ch: Choice)
    requires Ready(sh, code, ch) && EntersOrExits(code)
    ensures WorksOff(cfg, room, sh, code, ch)
  {
  }

  lemma HandlerWorksOff(cfg: Settings, room: Room, sh: Shared, code: Code, ch: Choice)
    requires Ready(sh, code, ch) && !Scans(code) && !Ticks(code) && !Leaves(code) && !SignsIn(code)
             && !EntersOrExits(code)
    ensures WorksOff(cfg, room, sh, code, ch)
  {
  }

  lemma OneGroupLess(room: Room, groups: map<Int32, set<Int32>>, pick: Int32)
    requires pick in groups
    ensures TickSteps(room, |groups|) == TickSteps(room, |groups - {pick}|) + room.ids + 2
  {
    assert (groups - {pick}).Keys == groups.Keys - {pick};
    assert |groups| == |groups.Keys| && |groups - {pick}| == |(groups - {pick}).Keys|;
  }

  lemma TickSendSteps(room: Room, l: Int32, ids: set<Int32>, groups: map<Int32, set<Int32>>)
    ensures Steps(room, TickSend(l, ids, groups)) == TickSteps(room, |groups|) + |ids| + 1
  {
  }

  lemma TickReadSteps(room: Room, l: Int32, groups: map<Int32, set<Int32>>)
    ensures Steps(room, TickRead(l, groups)) == TickSteps(room, |groups|) + room.ids + 1
  {
  }

  lemma TickRepairSteps(room: Room, players: set<Int32>, groups: map<Int32, set<Int32>>)
    ensures Steps(room, TickRepair(players, groups)) == TickSteps(room, |groups|) + 1
  {
  }

  lemma TickStepsLeft(room: Room, sh: Shared, groups: map<Int32, set<Int32>>, pick: Int32)
    requires PickOk(groups.Keys, pick)
    ensures StepsNext(room, TickNext(sh, groups, pick)) <= TickSteps(room, |groups|)
  {
    if groups.Keys != {} {
      OneGroupLess(room, groups, pick);
      if pick in sh.levels {
        TickReadSteps(room, pick, groups - {pick});
      } else {
        TickRepairSteps(room, groups[pick], groups - {pick});
      }
    }
  }

  lemma {:induction false} FewNamed(clients: map<Int32, Client>, ids: set<Int32>)
    requires ids <= clients.Keys
    ensures |set c | c in ids :: clients[c].levelId| <= |ids|
  {
    if ids != {} {
      var c :| c in ids;
      FewNamed(clients, ids - {c});
      var named, others := set d | d in ids :: clients[d].levelId, set d | d in ids - {c} :: clients[d].levelId;
      assert named == others + {clients[c].levelId};
    }
  }

  lemma FewGroups(sh: Shared)
    ensures |TickGroups(sh)| <= |sh.clients|
  {
    var named := set c | c in sh.clients.Keys :: sh.clients[c].levelId;
    FewNamed(sh.clients, sh.clients.Keys);
    Sessions.SubsetSize(NamedLevels(sh), named);
    assert TickGroups(sh).Keys == NamedLevels(sh);
    assert |TickGroups(sh)| == |TickGroups(sh).Keys| && |sh.clients| == |sh.clients.Keys|;
  }

  lemma TickOpenSteps(room: Room, groups: map<Int32, set<Int32>>)
    ensures Steps(room, TickOpen(groups)) == TickSteps(room, |groups|) + 1
  {
  }

  lemma MoreRoomMoreTicking(a: Room, b: Room, m: nat, n: nat)
    requires a.ids <= b.ids && m <= n
    ensures TickSteps(a, m) <= TickSteps(b, n)
  {
    TimesGrows(a.ids + 2, b.ids + 2, m, n);
  }

  lemma TickLookSteps(room: Room)
    ensures Steps(room, TickLook) == TickSteps(room, room.clients) + 2
  {
  }

  lemma FewerTickSteps(room: Room, sh: Shared)
    requires |sh.clients| <= room.clients
    ensures Steps(room, TickOpen(TickGroups(sh))) < Steps(room, TickLook)
  {
    FewGroups(sh);
    TickOpenSteps(room, TickGroups(sh));
    TickLookSteps(room);
    MoreRoomMoreTicking(room, room, |TickGroups(sh)|, room.clients);
  }

  lemma TickLookWorksOff(cfg: Settings, room: Room, sh: Shared, ch: Choice)
    requires Ready(sh, TickLook, ch) && |sh.clients| <= room.clients
    ensures WorksOff(cfg, room, sh, TickLook, ch)
  {
    FewerTickSteps(room, sh);
    assert Next(cfg, sh, TickLook, ch) == Some(TickOpen(TickGroups(sh)));
  }

  lemma TickTurnWorksOff(cfg: Settings, room: Room, sh: Shared, code: Code, ch: Choice)
    requires Ready(sh, code, ch) && (code.TickOpen? || code.TickRepair?)
    ensures WorksOff(cfg, room, sh, code, ch)
  {
    TickStepsLeft(room, sh, code.groups, ch.pick);
  }

  lemma TickReadThenSend(room: Room, l: Int32, ids: set<Int32>, pick: Int32, groups: map<Int32, set<Int32>>)
    requires pick in ids && |ids| <= room.ids
    ensures Steps(room, TickSend(l, ids - {pick}, groups)) < Steps(room, TickRead(l, groups))
  {
    TickSendSteps(room, l, ids - {pick}, groups);
    TickReadSteps(room, l, groups);
    OneLess(ids, pick);
  }

  lemma TickReadNext(cfg: Settings, sh: Shared, l: Int32, groups: map<Int32, set<Int32>>, ch: Choice)
    requires Ready(sh, TickRead(l, groups), ch)
    ensures sh.levels[l].Keys == {} ==> PickOk(groups.Keys, ch.pick)
    ensures Next(cfg, sh, TickRead(l, groups), ch)
            == if sh.levels[l].Keys != {} then Some(TickSend(l, sh.levels[l].Keys - {ch.pick}, groups))
               else TickNext(sh, groups, ch.pick)
  {
  }

  lemma TickReadWorksOff(cfg: Settings, room: Room, sh: Shared, l: Int32, groups: map<Int32, set<Int32>>, ch: Choice)
    requires Ready(sh, TickRead(l, groups), ch) && |MemberIds(sh.levels)| <= room.ids
    ensures WorksOff(cfg, room, sh, TickRead(l, groups), ch)
  {
    TickReadNext(cfg, sh, l, groups, ch);
    TickReadSteps(room, l, groups);
    if sh.levels[l].Keys != {} {
      LevelIsNoLarger(sh.levels, l);
      TickReadThenSend(room, l, sh.levels[l].Keys, ch.pick, groups);
    } else {
      TickStepsLeft(room, sh, groups, ch.pick);
    }
  }

  lemma TickSendWorksOff(cfg: Settings, room: Room, sh: Shared, code: Code, ch: Choice)
    requires Ready(sh, code, ch) && code.TickSend?
    ensures WorksOff(cfg, room, sh, code, ch)
  {
    if code.ids != {} {
      OneLess(code.ids, ch.pick);
    } else {
      TickStepsLeft(room, sh, code.groups, ch.pick);
    }
  }

  lemma TickWorksOff(cfg: Settings, room: Room, sh: Shared, code: Code, ch: Choice)
    requires Ready(sh, code, ch) && Ticks(code) && Fits(sh, room)
    ensures WorksOff(cfg, room, sh, code, ch)
  {
    if code.TickLook? {
      TickLookWorksOff(cfg, room, sh, ch);
    } else if code.TickRead? {
      TickReadWorksOff(cfg, room, sh, code.level, code.groups, ch);
    } else if code.TickSend? {
      TickSendWorksOff(cfg, room, sh, code, ch);
    } else {
      TickTurnWorksOff(cfg, room, sh, code, ch);
    }
  }

  // Each step of a task leaves it and the cleanups it will spawn fewer steps.
  lemma StepWorksOff(cfg: Settings, room: Room, sh: Shared, code: Code, ch: Choice)
    requires Ready(sh, code, ch) && Fits(sh, room)
    ensures WorksOff(cfg, room, sh, code, ch)
  {
    if Ticks(code) {
      TickWorksOff(cfg, room, sh, code, ch);
    } else if Leaves(code) {
      LeaveWorksOff(cfg, room, sh, code, ch);
    } else if code.SweepLook? {
      SweepLookWorksOff(cfg, room, sh, ch);
    } else if code.SweepNext? {
      SweepNextWorksOff(cfg, room, sh, code, ch);
    } else if code.ListOpen? || code.ListCount? {
      CountWorksOff(cfg, room, sh, code, ch);
    } else if code.CleanOpen? || code.CleanCheck? {
      CleanWorksOff(cfg, room, sh, code, ch);
    } else if SignsIn(code) {
      SigningInWorksOff(cfg, room, sh, code, ch);
    } else if EntersOrExits(code) {
      EnteringWorksOff(cfg, room, sh, code, ch);
    } else {
      HandlerWorksOff(cfg, room, sh, code, ch);
    }
  }

  // ----- more room, more steps -----

  ghost predicate RoomLeft(a: Room, b: Room) {
    a.levels <= b.levels && a.clients <= b.clients && a.ids <= b.ids
  }

  lemma MoreRoomMoreSweeping(a: Room, b: Room, m: nat, n: nat)
    requires a.levels <= b.levels && m <= n
    ensures SweepSteps(a, m) <= SweepSteps(b, n)
  {
    TimesGrows(a.Cleanup() + 5, b.Cleanup() + 5, m, n);
  }

  lemma MoreRoomMoreContSteps(a: Room, b: Room, cont: Cont)
    requires RoomLeft(a, b)
    ensures ContSteps(a, cont) <= ContSteps(b, cont)
  {
    if cont.ThenSweep? { MoreRoomMoreSweeping(a, b, |cont.rest|, |cont.rest|); }
  }

  lemma MoreRoomLongerTicks(a: Room, b: Room, code: Code)
    requires RoomLeft(a, b) && Ticks(code)
    ensures Steps(a, code) <= Steps(b, code)
  {
    if code.TickLook? {
      MoreRoomMoreTicking(a, b, a.clients, b.clients);
    } else {
      MoreRoomMoreTicking(a, b, |code.groups|, |code.groups|);
    }
  }

  lemma MoreRoomLongerLeaving(a: Room, b: Room, code: Code)
    requires RoomLeft(a, b) && Leaves(code)
    ensures Steps(a, code) <= Steps(b, code)
  {
    MoreRoomMoreContSteps(a, b, code.cont);
  }

  lemma MoreRoomMoreSteps(a: Room, b: Room, code: Code)
    requires RoomLeft(a, b)
    ensures Steps(a, code) <= Steps(b, code)
  {
    if Ticks(code) {
      MoreRoomLongerTicks(a, b, code);
    } else if Leaves(code) {
      MoreRoomLongerLeaving(a, b, code);
    } else if code.SweepLook? {
      MoreRoomMoreSweeping(a, b, a.clients, b.clients);
    } else if code.SweepNext? {
      MoreRoomMoreSweeping(a, b, |code.todo|, |code.todo|);
    }
  }

  // ----- the whole system -----

  lemma LaunchAdds(s: Sys, code: Code, f: Code -> nat)
    requires s.nextTask !in s.tasks
    ensures Sum(Launch(s, code).tasks, f, s.nextTask + 1) == Sum(s.tasks, f, s.nextTask) + f(code)
  {
    SumUnchanged(s.tasks, Launch(s, code).tasks, f, s.nextTask);
  }

  lemma ContinueReplaces(s: Sys, t: nat, sh: Shared, next: Option<Code>, f: Code -> nat)
    requires t in s.tasks && t < s.nextTask
    ensures var s' := Continue(s, t, sh, next);
            s'.nextTask == s.nextTask
            && Sum(s'.tasks, f, s.nextTask) + f(s.tasks[t]) == Sum(s.tasks, f, s.nextTask) + ValueNext(f, next)
  {
    SumChanged(s.tasks, Continue(s, t, sh, next).tasks, f, s.nextTask, t);
  }

  function Spawned(f: Code -> nat, code: Code): nat {
    if code.SpawnCleanup? then f(CleanOpen) else 0
  }

  // A task at `code` moved on to `next`, as far as a sum over the tasks can tell.
  ghost predicate Replaces(s: Sys, s': Sys, code: Code, next: Option<Code>, f: Code -> nat) {
    Sum(s'.tasks, f, s'.nextTask) + f(code) == Sum(s.tasks, f, s.nextTask) + ValueNext(f, next) + Spawned(f, code)
  }

  lemma SpawnReplaces(s: Sys, t: nat, after: Shared, next: Option<Code>, f: Code -> nat)
    requires t in s.tasks && t < s.nextTask && s.nextTask !in s.tasks && s.tasks[t].SpawnCleanup?
    ensures Replaces(s, Launch(Continue(s, t, after, next), CleanOpen), s.tasks[t], next, f)
  {
    ContinueReplaces(s, t, after, next, f);
    LaunchAdds(Continue(s, t, after, next), CleanOpen, f);
  }

  lemma MoveReplaces(s: Sys, t: nat, after: Shared, next: Option<Code>, f: Code -> nat)
    requires t in s.tasks && t < s.nextTask && !s.tasks[t].SpawnCleanup?
    ensures Replaces(s, Continue(s, t, after, next), s.tasks[t], next, f)
  {
    ContinueReplaces(s, t, after, next, f);
  }

  lemma StepReplaces(cfg: Settings, s: Sys, t: nat, ch: Choice, f: Code -> nat)
    requires LocksHold(s) && Enabled(cfg, s, Step(t, ch))
    ensures Replaces(s, Apply(cfg, s, Step(t, ch)), s.tasks[t], Next(cfg, s.shared, s.tasks[t], ch), f)
  {
    var after, next := After(cfg, s.shared, s.tasks[t], ch), Next(cfg, s.shared, s.tasks[t], ch);
    ApplyIsStepped(cfg, s, t, ch);
    if s.tasks[t].SpawnCleanup? {
      SpawnReplaces(s, t, after, next, f);
    } else {
      MoveReplaces(s, t, after, next, f);
    }
  }

  function RoomOf(s: Sys): Room {
    Room(|s.shared.levels| + Sum(s.tasks, Opens, s.nextTask),
         |s.shared.clients| + Sum(s.tasks, Joins, s.nextTask),
         |MemberIds(s.shared.levels)| + Sum(s.tasks, Inserts, s.nextTask))
  }

  function StepsIn(room: Room): Code -> nat {
    code => Steps(room, code)
  }

  // A bound on the steps that are left without new arrivals.
  function StepsLeft(s: Sys): nat {
    Sum(s.tasks, StepsIn(RoomOf(s)), s.nextTask)
  }

  // And on those together with the requests for locks; a step makes up to two tasks pause.
  function Remaining(s: Sys): nat {
    3 * StepsLeft(s) + |s.paused|
  }

  // What a step adds to the maps was the task's to add.
  ghost predicate Grows(a: Shared, b: Shared, code: Code, next: Option<Code>) {
    && |b.levels| + ValueNext(Opens, next) <= |a.levels| + Opens(code)
    && |b.clients| + ValueNext(Joins, next) <= |a.clients| + Joins(code)
    && |MemberIds(b.levels)| + ValueNext(Inserts, next) <= |MemberIds(a.levels)| + Inserts(code)
  }

  lemma MapsGrowByTasks(cfg: Settings, sh: Shared, code: Code, ch: Choice)
    requires Ready(sh, code, ch)
    ensures Grows(sh, After(cfg, sh, code, ch), code, Next(cfg, sh, code, ch))
  {
    OnlyOpeningAddsLevels(sh, code);
    OnlyJoiningAddsClients(cfg, sh, code, ch.now);
    OnlyInsertingAddsMembers(sh, code);
    StepUsesUp(cfg, sh, code, ch);
  }

  // If n shrinks by what a task gives up, n plus the sum over the tasks does not grow.
  lemma SumIsKept(s: Sys, s': Sys, code: Code, next: Option<Code>, f: Code -> nat, n: nat, n': nat)
    requires Replaces(s, s', code, next, f) && f(CleanOpen) == 0 && n' + ValueNext(f, next) <= n + f(code)
    ensures n' + Sum(s'.tasks, f, s'.nextTask) <= n + Sum(s.tasks, f, s.nextTask)
  {
  }

  lemma RoomIsKept(s: Sys, s': Sys, code: Code, next: Option<Code>)
    requires Replaces(s, s', code, next, Opens) && Replaces(s, s', code, next, Joins)
             && Replaces(s, s', code, next, Inserts)
    requires Grows(s.shared, s'.shared, code, next)
    ensures RoomLeft(RoomOf(s'), RoomOf(s))
  {
    SumIsKept(s, s', code, next, Opens, |s.shared.levels|, |s'.shared.levels|);
    SumIsKept(s, s', code, next, Joins, |s.shared.clients|, |s'.shared.clients|);
    SumIsKept(s, s', code, next, Inserts, |MemberIds(s.shared.levels)|, |MemberIds(s'.shared.levels)|);
  }

  // No step makes more room than there was.
  lemma RoomShrinks(cfg: Settings, s: Sys, t: nat, ch: Choice)
    requires LocksHold(s) && Enabled(cfg, s, Step(t, ch))
    ensures RoomLeft(RoomOf(Apply(cfg, s, Step(t, ch))), RoomOf(s))
  {
    StepShares(cfg, s, t, ch);
    StepReplaces(cfg, s, t, ch, Opens);
    StepReplaces(cfg, s, t, ch, Joins);
    StepReplaces(cfg, s, t, ch, Inserts);
    MapsGrowByTasks(cfg, s.shared, s.tasks[t], ch);
    RoomIsKept(s, Apply(cfg, s, Step(t, ch)), s.tasks[t], Next(cfg, s.shared, s.tasks[t], ch));
  }

  lemma WorkIsCounted(cfg: Settings, room: Room, sh: Shared, code: Code, ch: Choice)
    requires Ready(sh, code, ch) && WorksOff(cfg, room, sh, code, ch)
    ensures ValueNext(StepsIn(room), Next(cfg, sh, code, ch)) + Spawned(StepsIn(room), code) < StepsIn(room)(code)
  {
  }

  lemma FewerLeft(s: Sys, s': Sys, code: Code, next: Option<Code>, f: Code -> nat)
    requires Replaces(s, s', code, next, f) && ValueNext(f, next) + Spawned(f, code) < f(code)
    ensures Sum(s'.tasks, f, s'.nextTask) < Sum(s.tasks, f, s.nextTask)
  {
  }

  lemma StepCountsIn(cfg: Settings, s: Sys, t: nat, ch: Choice, room: Room)
    requires LocksHold(s) && Enabled(cfg, s, Step(t, ch)) && Fits(s.shared, room)
    ensures var s' := Apply(cfg, s, Step(t, ch));
            Sum(s'.tasks, StepsIn(room), s'.nextTask) < Sum(s.tasks, StepsIn(room), s.nextTask)
  {
    StepReplaces(cfg, s, t, ch, StepsIn(room));
    StepWorksOff(cfg, room, s.shared, s.tasks[t], ch);
    WorkIsCounted(cfg, room, s.shared, s.tasks[t], ch);
    FewerLeft(s, Apply(cfg, s, Step(t, ch)), s.tasks[t], Next(cfg, s.shared, s.tasks[t], ch), StepsIn(room));
  }

  lemma LessRoomFewerSteps(tasks: map<nat, Code>, n: nat, a: Room, b: Room)
    requires RoomLeft(a, b)
    ensures Sum(tasks, StepsIn(a), n) <= Sum(tasks, StepsIn(b), n)
  {
    forall code ensures StepsIn(a)(code) <= StepsIn(b)(code) { MoreRoomMoreSteps(a, b, code); }
    SumIsMonotone(tasks, StepsIn(a), StepsIn(b), n);
  }

  lemma StepLeavesFewer(cfg: Settings, s: Sys, t: nat, ch: Choice)
    requires LocksHold(s) && Enabled(cfg, s, Step(t, ch))
    ensures StepsLeft(Apply(cfg, s, Step(t, ch))) < StepsLeft(s)
  {
    var s' := Apply(cfg, s, Step(t, ch));
    RoomShrinks(cfg, s, t, ch);
    LessRoomFewerSteps(s'.tasks, s'.nextTask, RoomOf(s'), RoomOf(s));
    StepCountsIn(cfg, s, t, ch, RoomOf(s));
  }

  lemma SetGrowsByTwo(a: set<nat>, t: nat, u: nat)
    ensures |a + {t}| <= |a| + 1 && |a + {t} + {u}| <= |a| + 2 && |a + {u}| <= |a| + 1
  {
  }

  lemma StepPausesTwo(cfg: Settings, s: Sys, t: nat, ch: Choice)
    requires LocksHold(s) && Enabled(cfg, s, Step(t, ch))
    ensures |Apply(cfg, s, Step(t, ch)).paused| <= |s.paused| + 2
  {
    ApplyIsStepped(cfg, s, t, ch);
    SetGrowsByTwo(s.paused, t, s.nextTask);
  }

  lemma WorkCounts(cfg: Settings, s: Sys, e: Event)
    requires LocksHold(s) && Enabled(cfg, s, e) && IsWork(e)
    ensures Remaining(Apply(cfg, s, e)) < Remaining(s)
  {
    if e.Step? {
      StepLeavesFewer(cfg, s, e.task, e.choice);
      StepPausesTwo(cfg, s, e.task, e.choice);
    }
  }

  ghost predicate OnlyWork(es: seq<Event>) {
    forall i | 0 <= i < |es| :: IsWork(es[i])
  }

  lemma OneMoreEvent(cfg: Settings, es: seq<Event>, e: Event)
    ensures Exec(cfg, es + [e]) == if Exec(cfg, es).Some? && Enabled(cfg, Exec(cfg, es).value, e)
                                   then Some(Apply(cfg, Exec(cfg, es).value, e)) else None
  {
    assert (es + [e])[..|es|] == es;
  }

  lemma WorkLeavesLess(cfg: Settings, es: seq<Event>, e: Event)
    requires IsWork(e) && Exec(cfg, es).Some? && Enabled(cfg, Exec(cfg, es).value, e)
    ensures Exec(cfg, es + [e]).Some?
    ensures Remaining(Exec(cfg, es + [e]).value) < Remaining(Exec(cfg, es).value)
  {
    OneMoreEvent(cfg, es, e);
    RunsAreConsistent(cfg, es);
    WorkCounts(cfg, Exec(cfg, es).value, e);
  }

  lemma WasEnabled(cfg: Settings, es: seq<Event>, e: Event)
    requires Exec(cfg, es + [e]).Some?
    ensures Exec(cfg, es).Some? && Enabled(cfg, Exec(cfg, es).value, e)
  {
    OneMoreEvent(cfg, es, e);
  }

  lemma LastWork(es: seq<Event>, steps: seq<Event>)
    requires OnlyWork(steps) && steps != []
    ensures es + steps == es + steps[..|steps| - 1] + [steps[|steps| - 1]]
    ensures OnlyWork(steps[..|steps| - 1]) && IsWork(steps[|steps| - 1])
  {
  }

  // No schedule goes on for ever: after any run, only so many steps and requests for locks
  // are left.
  lemma {:induction false} SchedulesEnd(cfg: Settings, es: seq<Event>, steps: seq<Event>)
    requires OnlyWork(steps) && Exec(cfg, es).Some? && Exec(cfg, es + steps).Some?
    ensures |steps| + Remaining(Exec(cfg, es + steps).value) <= Remaining(Exec(cfg, es).value)
  {
    if steps == [] {
      assert es + steps == es;
    } else {
      var init, e := steps[..|steps| - 1], steps[|steps| - 1];
      LastWork(es, steps);
      WasEnabled(cfg, es + init, e);
      SchedulesEnd(cfg, es, init);
      WorkLeavesLess(cfg, es + init, e);
    }
  }

  lemma SomeWork(cfg: Settings, es: seq<Event>) returns (e: Event)
    requires Exec(cfg, es).Some? && Exec(cfg, es).value.tasks != map[]
    ensures IsWork(e) && Exec(cfg, es + [e]).Some?
    ensures Remaining(Exec(cfg, es + [e]).value) < Remaining(Exec(cfg, es).value)
  {
    NoDeadlock(cfg, es);
    e :| IsWork(e) && Enabled(cfg, Exec(cfg, es).value, e);
    WorkLeavesLess(cfg, es, e);
  }

  lemma WorkFirst(es: seq<Event>, e: Event, rest: seq<Event>)
    requires IsWork(e) && OnlyWork(rest)
    ensures es + [e] + rest == es + ([e] + rest) && OnlyWork([e] + rest)
  {
  }

  lemma {:induction false} RestsWithin(cfg: Settings, es: seq<Event>, n: nat) returns (steps: seq<Event>)
    requires Exec(cfg, es).Some? && Remaining(Exec(cfg, es).value) <= n
    ensures OnlyWork(steps) && Exec(cfg, es + steps).Some? && Exec(cfg, es + steps).value.tasks == map[]
    decreases n
  {
    if Exec(cfg, es).value.tasks == map[] {
      steps := [];
      assert es + steps == es;
    } else {
      var e := SomeWork(cfg, es);
      var rest := RestsWithin(cfg, es + [e], n - 1);
      steps := [e] + rest;
      WorkFirst(es, e, rest);
    }
  }

  // Main result: from wherever a run has got to, the tasks at hand can all be finished, and
  // by the bound above no schedule can avoid that.
  lemma ComesToRest(cfg: Settings, es: seq<Event>)
    requires Exec(cfg, es).Some?
    ensures exists steps ::
              OnlyWork(steps) && Exec(cfg, es + steps).Some? && Exec(cfg, es + steps).value.tasks == map[]
  {
    var steps := RestsWithin(cfg, es, Remaining(Exec(cfg, es).value));
  }
}
