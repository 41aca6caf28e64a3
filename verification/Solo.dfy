// The two views of the server agree: a task of the interleaved machine that runs from
// its first to its last step while nothing else runs, followed by the cleanup it
// spawned, does to the maps what the whole handler does.

module Solo {
  import opened Collections
  import opened GameData
  import opened ServerState
  import opened Tasks
  import opened EmptyLevels
  import opened Handling
  import opened Sequential
  import Quiescence
  import Sessions

  // With `eager`, a cleanup runs as soon as it is spawned; otherwise it is left for later.
  datatype World = World(cfg: Settings, peer: int, net: Network, now: int, eager: bool)

  // The choice follows the clock and the network.
  predicate Follows(w: World, sh: Shared, code: Code, ch: Choice) {
    && ch.now == w.now
    && match code
       case CheckInAdd(_, _, _, _) => ch.sent == w.net(w.peer)
       case EntryAnnounce(_, l) => ch.sent == Reaches(w.net, sh, l)
       case ExitAnnounce(_, l) => ch.sent == Reaches(w.net, sh, l)
       case _ => true
  }

  function Clean(sh: Shared): Shared {
    sh.(levels := DropEmpty(sh.levels))
  }

  // The maps after a step and the cleanup that it may spawn.
  function Cleaned(w: World, sh: Shared, code: Code, ch: Choice): Shared
    requires Ready(sh, code, ch)
  {
    var after := After(w.cfg, sh, code, ch);
    if w.eager && code.SpawnCleanup? then Clean(after) else after
  }

  // The maps when a task that runs alone has made its last step; None if the choices
  // are not those of such a run.
  function Alone(w: World, sh: Shared, code: Option<Code>, chs: seq<Choice>): Option<Shared>
    decreases |chs|
  {
    if code.None? then if chs == [] then Some(sh) else None
    else if chs == [] || !Ready(sh, code.value, chs[0]) || !Follows(w, sh, code.value, chs[0]) then None
    else Alone(w, Cleaned(w, sh, code.value, chs[0]), Next(w.cfg, sh, code.value, chs[0]), chs[1..])
  }

  function Erase(sh: Shared, c: Int32, l: Int32): Shared {
    if l in sh.levels then sh.(levels := sh.levels[l := sh.levels[l] - {c}]) else sh
  }

  lemma TidyIsClean(sh: Shared)
    requires Tidy(sh)
    ensures Clean(sh) == sh
  {
  }

  lemma SameLevelMaps(a: map<Int32, LevelData>, b: map<Int32, LevelData>)
    requires (forall m :: m in a <==> m in b) && forall m | m in b && m in a :: a[m] == b[m]
    ensures a == b
  {
  }

  lemma DropEmptyAt(levels: map<Int32, LevelData>, m: Int32)
    ensures m in DropEmpty(levels) <==> m in levels && levels[m] != map[]
    ensures m in DropEmpty(levels) ==> DropEmpty(levels)[m] == levels[m]
  {
  }

  lemma DropEmptyTwiceAt(levels: map<Int32, LevelData>, l: Int32, level: LevelData, m: Int32)
    ensures var a, b := DropEmpty(DropEmpty(levels)[l := level]), DropEmpty(levels[l := level]);
            (m in a <==> m in b) && (m in a && m in b ==> a[m] == b[m])
  {
    DropEmptyAt(DropEmpty(levels)[l := level], m);
    DropEmptyAt(levels[l := level], m);
    DropEmptyAt(levels, m);
  }

  lemma DropEmptyTwice(levels: map<Int32, LevelData>, l: Int32, level: LevelData)
    ensures DropEmpty(DropEmpty(levels)[l := level]) == DropEmpty(levels[l := level])
  {
    var a, b := DropEmpty(DropEmpty(levels)[l := level]), DropEmpty(levels[l := level]);
    forall m ensures m in a <==> m in b { DropEmptyTwiceAt(levels, l, level, m); }
    forall m | m in b && m in a ensures a[m] == b[m] { DropEmptyTwiceAt(levels, l, level, m); }
    SameLevelMaps(a, b);
  }

  lemma DropOneEmpty(levels: map<Int32, LevelData>, l: Int32)
    requires l in levels && levels[l] == map[]
    ensures DropEmpty(levels[l := map[]]) == DropEmpty(levels)
  {
    assert levels[l := map[]] == levels;
  }

  // Cleaning up once at the end is as good as cleaning up after every removal.
  lemma EraseAndClean(sh: Shared, c: Int32, l: Int32)
    ensures Clean(Erase(sh, c, l)) == Leave(Clean(sh), c, l)
  {
    if l in sh.levels {
      if sh.levels[l] == map[] {
        assert sh.levels[l] - {c} == map[];
        DropOneEmpty(sh.levels, l);
      } else {
        DropEmptyTwice(sh.levels, l, sh.levels[l] - {c});
      }
    }
  }

  lemma DropEmptyThenPut(levels: map<Int32, LevelData>, l: Int32, level: LevelData)
    requires level != map[]
    ensures DropEmpty(levels[l := level]) == DropEmpty(levels)[l := level]
  {
  }

  lemma CleanThenEnter(sh: Shared, c: Int32, l: Int32)
    ensures Clean(Enter(sh, c, l)) == Enter(Clean(sh), c, l)
  {
    var level := if l in sh.levels then sh.levels[l] else map[];
    assert level == if l in Clean(sh).levels then Clean(sh).levels[l] else map[];
    PutIsNotEmpty();
    DropEmptyThenPut(sh.levels, l, Put(level, c, EmptyPlayer));
  }

  lemma CleanTwice(sh: Shared)
    ensures Clean(Clean(sh)) == Clean(sh)
  {
  }

  // The maps after a client was taken out of a level.
  function Gone(w: World, sh: Shared, c: Int32, l: Int32): Shared {
    if w.eager && l in sh.levels then Clean(Erase(sh, c, l)) else Erase(sh, c, l)
  }

  lemma GoneAndClean(w: World, sh: Shared, c: Int32, l: Int32)
    ensures Clean(Gone(w, sh, c, l)) == Leave(Clean(sh), c, l) && Gone(w, sh, c, l).clients == sh.clients
  {
    EraseAndClean(sh, c, l);
    CleanTwice(Erase(sh, c, l));
  }

  // ----- single steps -----

  lemma FindStep(w: World, sh: Shared, c: Int32, l: Int32, cont: Cont, chs: seq<Choice>)
    requires Alone(w, sh, Some(LeaveFind(c, l, cont)), chs).Some?
    ensures chs != [] && Alone(w, sh, Some(LeaveFind(c, l, cont)), chs)
            == Alone(w, sh, if l in sh.levels then Some(LeaveErase(c, l, cont)) else Resume(cont), chs[1..])
  {
  }

  lemma EraseStep(w: World, sh: Shared, c: Int32, l: Int32, cont: Cont, chs: seq<Choice>)
    requires l in sh.levels && Alone(w, sh, Some(LeaveErase(c, l, cont)), chs).Some?
    ensures chs != [] && Alone(w, sh, Some(LeaveErase(c, l, cont)), chs)
            == Alone(w, Erase(sh, c, l), Some(SpawnCleanup(cont)), chs[1..])
  {
  }

  lemma SpawnStep(w: World, sh: Shared, cont: Cont, chs: seq<Choice>)
    requires Alone(w, sh, Some(SpawnCleanup(cont)), chs).Some?
    ensures chs != [] && Alone(w, sh, Some(SpawnCleanup(cont)), chs)
            == Alone(w, if w.eager then Clean(sh) else sh, Resume(cont), chs[1..])
  {
  }

  lemma OpenStep(w: World, sh: Shared, c: Int32, l: Int32, chs: seq<Choice>)
    requires Alone(w, sh, Some(EnterOpen(c, l)), chs).Some?
    ensures chs != [] && Alone(w, sh, Some(EnterOpen(c, l)), chs)
            == Alone(w, if l in sh.levels then sh else sh.(levels := sh.levels[l := map[]]), Some(EnterInsert(c, l)),
                     chs[1..])
  {
  }

  lemma InsertStep(w: World, sh: Shared, c: Int32, l: Int32, chs: seq<Choice>)
    requires l in sh.levels && Alone(w, sh, Some(EnterInsert(c, l)), chs).Some?
    ensures chs != [] && Alone(w, sh, Some(EnterInsert(c, l)), chs)
            == Alone(w, sh.(levels := sh.levels[l := Put(sh.levels[l], c, EmptyPlayer)]), Some(EnterRecord(c, l)),
                     chs[1..])
  {
  }

  lemma RecordStep(w: World, sh: Shared, c: Int32, l: Int32, chs: seq<Choice>)
    requires Alone(w, sh, Some(EnterRecord(c, l)), chs).Some?
    ensures Alone(w, sh, Some(EnterRecord(c, l)), chs) == Some(SetLevel(sh, c, l))
  {
    assert Alone(w, sh, Some(EnterRecord(c, l)), chs) == Alone(w, SetLevel(sh, c, l), None, chs[1..]);
  }

  lemma EntryStep(w: World, sh: Shared, c: Int32, target: Option<Int32>, chs: seq<Choice>)
    requires c in sh.clients && Alone(w, sh, Some(EntryLook(c, target)), chs).Some?
    ensures chs != [] && Alone(w, sh, Some(EntryLook(c, target)), chs)
            == Alone(w, sh, if Named(sh, c) != -1 then Some(LeaveFind(c, Named(sh, c), ThenDecode(c, target)))
                            else Resume(ThenDecode(c, target)), chs[1..])
  {
  }

  lemma ExitStep(w: World, sh: Shared, c: Int32, chs: seq<Choice>)
    requires c in sh.clients && Alone(w, sh, Some(ExitClear(c)), chs).Some?
    ensures chs != [] && Alone(w, sh, Some(ExitClear(c)), chs)
            == Alone(w, SetLevel(sh, c, -1), Some(ExitAnnounce(c, Named(sh, c))), chs[1..])
  {
  }

  lemma FarewellStep(w: World, sh: Shared, c: Int32, l: Int32, chs: seq<Choice>)
    requires Alone(w, sh, Some(ExitAnnounce(c, l)), chs).Some?
    ensures chs != [] && Alone(w, sh, Some(ExitAnnounce(c, l)), chs)
            == Alone(w, sh, if Reaches(w.net, sh, l) then Some(LeaveFind(c, l, Finish)) else None, chs[1..])
  {
  }

  lemma VerifyStep(w: World, sh: Shared, c: Int32, key: Int32, request: Request, chs: seq<Choice>)
    requires Alone(w, sh, Some(Verify(c, key, request)), chs).Some?
    ensures chs != [] && Alone(w, sh, Some(Verify(c, key, request)), chs)
            == Alone(w, sh, if Accepted(sh, c, key) then Dispatch(c, request) else None, chs[1..])
  {
  }

  lemma TickLookStep(w: World, sh: Shared, chs: seq<Choice>)
    requires Alone(w, sh, Some(TickLook), chs).Some?
    ensures chs != [] && Alone(w, sh, Some(TickLook), chs) == Alone(w, sh, Some(TickOpen(TickGroups(sh))), chs[1..])
  {
  }

  lemma TickOpenStep(w: World, sh: Shared, groups: map<Int32, set<Int32>>, chs: seq<Choice>)
    requires Alone(w, sh, Some(TickOpen(groups)), chs).Some?
    ensures chs != [] && PickOk(groups.Keys, chs[0].pick)
    ensures Alone(w, sh, Some(TickOpen(groups)), chs) == Alone(w, sh, TickNext(sh, groups, chs[0].pick), chs[1..])
  {
  }

  lemma RepairStep(w: World, sh: Shared, players: set<Int32>, groups: map<Int32, set<Int32>>, chs: seq<Choice>)
    requires Alone(w, sh, Some(TickRepair(players, groups)), chs).Some?
    ensures chs != [] && PickOk(groups.Keys, chs[0].pick)
    ensures var repaired := sh.(clients := Repaired(sh.clients, players));
            Alone(w, sh, Some(TickRepair(players, groups)), chs)
            == Alone(w, repaired, TickNext(repaired, groups, chs[0].pick), chs[1..])
  {
  }

  // ----- parts of handlers -----

  lemma AloneLeaves(w: World, sh: Shared, c: Int32, l: Int32, cont: Cont, chs: seq<Choice>) returns (rest: seq<Choice>)
    requires Alone(w, sh, Some(LeaveFind(c, l, cont)), chs).Some?
    ensures Alone(w, sh, Some(LeaveFind(c, l, cont)), chs) == Alone(w, Gone(w, sh, c, l), Resume(cont), rest)
  {
    FindStep(w, sh, c, l, cont, chs);
    rest := chs[1..];
    if l in sh.levels {
      EraseStep(w, sh, c, l, cont, rest);
      SpawnStep(w, Erase(sh, c, l), cont, rest[1..]);
      rest := rest[1..][1..];
    }
  }

  lemma EnterByParts(sh: Shared, c: Int32, l: Int32)
    ensures var opening := if l in sh.levels then sh else sh.(levels := sh.levels[l := map[]]);
            SetLevel(opening.(levels := opening.levels[l := Put(opening.levels[l], c, EmptyPlayer)]), c, l)
              == Enter(sh, c, l)
  {
    var opening := if l in sh.levels then sh else sh.(levels := sh.levels[l := map[]]);
    assert opening.levels[l := Put(opening.levels[l], c, EmptyPlayer)]
           == sh.levels[l := Put(opening.levels[l], c, EmptyPlayer)];
  }

  lemma AloneEnters(w: World, sh: Shared, c: Int32, l: Int32, chs: seq<Choice>)
    requires Alone(w, sh, Some(EnterOpen(c, l)), chs).Some?
    ensures Alone(w, sh, Some(EnterOpen(c, l)), chs) == Some(Enter(sh, c, l))
  {
    var opening := if l in sh.levels then sh else sh.(levels := sh.levels[l := map[]]);
    var inserted := opening.(levels := opening.levels[l := Put(opening.levels[l], c, EmptyPlayer)]);
    OpenStep(w, sh, c, l, chs);
    InsertStep(w, opening, c, l, chs[1..]);
    RecordStep(w, inserted, c, l, chs[1..][1..]);
    EnterByParts(sh, c, l);
  }

  lemma AloneAnnounces(w: World, sh: Shared, c: Int32, target: Option<Int32>, chs: seq<Choice>)
    requires Alone(w, sh, Resume(ThenDecode(c, target)), chs).Some?
    ensures Alone(w, sh, Resume(ThenDecode(c, target)), chs)
              == Some(if CanEnter(w.net, sh, target) then Enter(sh, c, ToServerLevel(target.value)) else sh)
  {
    if target.Some? {
      var l := ToServerLevel(target.value);
      if CanEnter(w.net, sh, target) {
        assert Alone(w, sh, Some(EntryAnnounce(c, l)), chs) == Alone(w, sh, Some(EnterOpen(c, l)), chs[1..]);
        AloneEnters(w, sh, c, l, chs[1..]);
      } else {
        assert Alone(w, sh, Some(EntryAnnounce(c, l)), chs) == Alone(w, sh, None, chs[1..]);
      }
    }
  }

  // ----- whole handlers -----

  // An entry after the old level was left.
  lemma AloneArrives(w: World, sh: Shared, c: Int32, target: Option<Int32>, chs: seq<Choice>)
    requires Alone(w, sh, Resume(ThenDecode(c, target)), chs).Some?
    ensures Clean(Alone(w, sh, Resume(ThenDecode(c, target)), chs).value)
              == if CanEnter(w.net, sh, target) then Enter(Clean(sh), c, ToServerLevel(target.value)) else Clean(sh)
  {
    AloneAnnounces(w, sh, c, target, chs);
    if CanEnter(w.net, sh, target) { CleanThenEnter(sh, c, ToServerLevel(target.value)); }
  }

  lemma AloneEntry(w: World, sh: Shared, c: Int32, target: Option<Int32>, chs: seq<Choice>)
    requires Tidy(sh) && c in sh.clients && Alone(w, sh, Some(EntryLook(c, target)), chs).Some?
    ensures Clean(Alone(w, sh, Some(EntryLook(c, target)), chs).value) == Entered(sh, c, target, w.net)
  {
    TidyIsClean(sh);
    EntryStep(w, sh, c, target, chs);
    var l := Named(sh, c);
    if l != -1 {
      var rest := AloneLeaves(w, sh, c, l, ThenDecode(c, target), chs[1..]);
      GoneAndClean(w, sh, c, l);
      AloneArrives(w, Gone(w, sh, c, l), c, target, rest);
    } else {
      AloneArrives(w, sh, c, target, chs[1..]);
    }
  }

  lemma AloneExit(w: World, sh: Shared, c: Int32, chs: seq<Choice>)
    requires Tidy(sh) && c in sh.clients && Alone(w, sh, Some(ExitClear(c)), chs).Some?
    ensures Clean(Alone(w, sh, Some(ExitClear(c)), chs).value) == Exited(sh, c, w.net)
  {
    var l, cleared := Named(sh, c), SetLevel(sh, c, -1);
    ExitStep(w, sh, c, chs);
    FarewellStep(w, cleared, c, l, chs[1..]);
    TidyIsClean(cleared);
    if Reaches(w.net, cleared, l) {
      var rest := AloneLeaves(w, cleared, c, l, Finish, chs[1..][1..]);
      GoneAndClean(w, cleared, c, l);
    }
  }

  predicate OnlyReads(code: Code) {
    code.Reply? || code.SnapFind? || code.SnapRead? || code.SnapSend? || code.ListOpen? || code.ListCount?
    || code.ListSend? || code.AccountLook? || code.TextLook? || code.TextBroadcast? || code.PingCount?
  }

  lemma SnapshotStep(w: World, sh: Shared, code: Code, ch: Choice)
    requires (code.SnapFind? || code.SnapRead? || code.SnapSend?) && Ready(sh, code, ch)
    ensures Cleaned(w, sh, code, ch) == sh
    ensures Next(w.cfg, sh, code, ch).Some? ==> OnlyReads(Next(w.cfg, sh, code, ch).value)
  {
  }

  lemma CountingStep(w: World, sh: Shared, code: Code, ch: Choice)
    requires (code.ListOpen? || code.ListCount? || code.ListSend?) && Ready(sh, code, ch)
    ensures Cleaned(w, sh, code, ch) == sh
    ensures Next(w.cfg, sh, code, ch).Some? ==> OnlyReads(Next(w.cfg, sh, code, ch).value)
  {
  }

  lemma ReadingStep(w: World, sh: Shared, code: Code, ch: Choice)
    requires OnlyReads(code) && Ready(sh, code, ch)
    ensures Cleaned(w, sh, code, ch) == sh
    ensures Next(w.cfg, sh, code, ch).Some? ==> OnlyReads(Next(w.cfg, sh, code, ch).value)
  {
    if code.SnapFind? || code.SnapRead? || code.SnapSend? {
      SnapshotStep(w, sh, code, ch);
    } else if code.ListOpen? || code.ListCount? || code.ListSend? {
      CountingStep(w, sh, code, ch);
    }
  }

  lemma AloneReads(w: World, sh: Shared, code: Code, chs: seq<Choice>)
    requires OnlyReads(code) && Alone(w, sh, Some(code), chs).Some?
    ensures Alone(w, sh, Some(code), chs) == Some(sh)
    decreases |chs|
  {
    ReadingStep(w, sh, code, chs[0]);
    var next := Next(w.cfg, sh, code, chs[0]);
    if next.Some? { AloneReads(w, sh, next.value, chs[1..]); }
  }

  lemma AloneAnswersUpdate(w: World, sh: Shared, c: Int32, l: Int32, chs: seq<Choice>)
    requires Alone(w, sh, AfterUpdate(w.cfg, c, l), chs).Some?
    ensures Alone(w, sh, AfterUpdate(w.cfg, c, l), chs) == Some(sh)
  {
    if !w.cfg.tickBased { AloneReads(w, sh, SnapFind(c, l), chs); }
  }

  lemma AloneStores(w: World, sh: Shared, c: Int32, l: Int32, data: ServerPlayer, chs: seq<Choice>)
    requires l in sh.levels && Alone(w, sh, Some(UpdateFind(c, l, data)), chs).Some?
    ensures Alone(w, sh, Some(UpdateFind(c, l, data)), chs)
              == Some(sh.(levels := sh.levels[l := Put(sh.levels[l], c, data)]))
  {
    var stored := sh.(levels := sh.levels[l := Put(sh.levels[l], c, data)]);
    assert Alone(w, sh, Some(UpdateFind(c, l, data)), chs) == Alone(w, sh, Some(UpdateStore(c, l, data)), chs[1..]);
    assert Alone(w, sh, Some(UpdateStore(c, l, data)), chs[1..])
        == Alone(w, stored, AfterUpdate(w.cfg, c, l), chs[1..][1..]);
    AloneAnswersUpdate(w, stored, c, l, chs[1..][1..]);
  }

  lemma AloneSpectates(w: World, sh: Shared, c: Int32, chs: seq<Choice>)
    requires c in sh.clients && Alone(w, sh, Some(UpdateLook(c, true, None)), chs).Some?
    ensures Alone(w, sh, Some(UpdateLook(c, true, None)), chs) == Some(sh)
  {
    assert Alone(w, sh, Some(UpdateLook(c, true, None)), chs)
           == Alone(w, sh, AfterUpdate(w.cfg, c, Named(sh, c)), chs[1..]);
    AloneAnswersUpdate(w, sh, c, Named(sh, c), chs[1..]);
  }

  lemma UpdateStep(w: World, sh: Shared, c: Int32, data: ServerPlayer, chs: seq<Choice>)
    requires c in sh.clients && Named(sh, c) != -1 && Alone(w, sh, Some(UpdateLook(c, false, Some(data))), chs).Some?
    ensures chs != []
    ensures Alone(w, sh, Some(UpdateLook(c, false, Some(data))), chs)
            == Alone(w, sh, Some(UpdateFind(c, Named(sh, c), data)), chs[1..])
  {
  }

  lemma OutsideStep(w: World, sh: Shared, c: Int32, data: ServerPlayer, chs: seq<Choice>)
    requires c in sh.clients && Named(sh, c) == -1 && Alone(w, sh, Some(UpdateLook(c, false, Some(data))), chs).Some?
    ensures Alone(w, sh, Some(UpdateLook(c, false, Some(data))), chs) == Some(sh)
  {
    assert Alone(w, sh, Some(UpdateLook(c, false, Some(data))), chs)
           == Alone(w, sh, AfterUpdate(w.cfg, c, -1), chs[1..]);
    AloneAnswersUpdate(w, sh, c, -1, chs[1..]);
  }

  lemma MissStep(w: World, sh: Shared, c: Int32, l: Int32, data: ServerPlayer, chs: seq<Choice>)
    requires l !in sh.levels && Alone(w, sh, Some(UpdateFind(c, l, data)), chs).Some?
    ensures Alone(w, sh, Some(UpdateFind(c, l, data)), chs) == Some(sh)
  {
    assert Alone(w, sh, Some(UpdateFind(c, l, data)), chs) == Alone(w, sh, None, chs[1..]);
  }

  lemma AloneUpdate(w: World, sh: Shared, c: Int32, data: ServerPlayer, chs: seq<Choice>)
    requires c in sh.clients && Alone(w, sh, Some(UpdateLook(c, false, Some(data))), chs).Some?
    ensures Alone(w, sh, Some(UpdateLook(c, false, Some(data))), chs) == Some(Updated(sh, c, Some(data)))
  {
    var l := Named(sh, c);
    if l == -1 {
      OutsideStep(w, sh, c, data, chs);
    } else {
      UpdateStep(w, sh, c, data, chs);
      if l in sh.levels {
        AloneStores(w, sh, c, l, data, chs[1..]);
      } else {
        MissStep(w, sh, c, l, data, chs[1..]);
      }
    }
  }

  lemma AloneKeepalive(w: World, sh: Shared, c: Int32, chs: seq<Choice>)
    requires Alone(w, sh, Some(KeepaliveTouch(c)), chs).Some?
    ensures Alone(w, sh, Some(KeepaliveTouch(c)), chs) == Some(Touched(sh, c, w.now))
  {
    assert Alone(w, sh, Some(KeepaliveTouch(c)), chs) == Alone(w, Touched(sh, c, w.now), Some(Reply(c)), chs[1..]);
    AloneReads(w, Touched(sh, c, w.now), Reply(c), chs[1..]);
  }

  lemma AloneSignsIn(w: World, sh: Shared, c: Int32, key: Int32, account: Option<Account>, chs: seq<Choice>)
    requires Alone(w, sh, Some(CheckInAdd(c, w.peer, key, account)), chs).Some?
    ensures Alone(w, sh, Some(CheckInAdd(c, w.peer, key, account)), chs)
              == Some(SignedIn(w.cfg, sh, c, w.peer, key, account, w.net, w.now))
  {
    var code := CheckInAdd(c, w.peer, key, account);
    if c !in sh.clients && !IsFull(w.cfg, sh) && account.Some? {
      var added := sh.(clients := sh.clients[c := Client(w.peer, key, -1, w.now, EmptyAccount)]);
      if ValidAccount(account.value) {
        var stored := added.(clients := added.clients[c := added.clients[c].(account := account.value)]);
        assert Alone(w, sh, Some(code), chs) == Alone(w, added, Some(CheckInStore(c, account.value)), chs[1..]);
        assert Alone(w, added, Some(CheckInStore(c, account.value)), chs[1..])
            == Alone(w, stored, Some(Reply(c)), chs[1..][1..]);
        AloneReads(w, stored, Reply(c), chs[1..][1..]);
        assert stored.clients == sh.clients[c := Client(w.peer, key, -1, w.now, account.value)];
      } else if w.net(w.peer) {
        assert Alone(w, sh, Some(code), chs) == Alone(w, added, Some(CheckInReject(c)), chs[1..]);
        assert added.clients - {c} == sh.clients;
        assert Alone(w, added, Some(CheckInReject(c)), chs[1..]) == Alone(w, sh, None, chs[1..][1..]);
      }
    }
  }

  lemma AloneForgetsOne(w: World, sh: Shared, c: Int32, cont: Cont, chs: seq<Choice>)
    returns (after: Shared, rest: seq<Choice>)
    requires Alone(w, sh, Some(Forget(c, cont)), chs).Some?
    ensures Alone(w, sh, Some(Forget(c, cont)), chs) == Alone(w, after, Resume(cont), rest)
    ensures Clean(after) == Forgotten(Clean(sh), c)
  {
    var l, gone := Named(sh, c), sh.(clients := sh.clients - {c});
    after, rest := gone, chs[1..];
    if l != -1 {
      assert Alone(w, sh, Some(Forget(c, cont)), chs) == Alone(w, gone, Some(LeaveFind(c, l, cont)), chs[1..]);
      rest := AloneLeaves(w, gone, c, l, cont, chs[1..]);
      after := Gone(w, gone, c, l);
      GoneAndClean(w, gone, c, l);
    }
  }

  predicate OnlyAsks(request: Request) {
    request.AccountDataRequest? || request.LevelListRequest? || request.SendTextMessage? || request.SpectateNoData?
  }

  lemma AloneAsks(w: World, sh: Shared, c: Int32, request: Request, chs: seq<Choice>)
    requires c in sh.clients && OnlyAsks(request) && Alone(w, sh, Dispatch(c, request), chs).Some?
    ensures Alone(w, sh, Dispatch(c, request), chs) == Some(sh)
  {
    match request
    case AccountDataRequest(target) => if target.Some? { AloneReads(w, sh, AccountLook(c, target.value), chs); }
    case LevelListRequest => AloneReads(w, sh, ListOpen(c), chs);
    case SendTextMessage(text) => if text.Some? { AloneReads(w, sh, TextLook(c), chs); }
    case SpectateNoData => AloneSpectates(w, sh, c, chs);
  }

  lemma UndecodableStep(w: World, sh: Shared, c: Int32, chs: seq<Choice>)
    requires Alone(w, sh, Some(UpdateLook(c, false, None)), chs).Some?
    ensures Alone(w, sh, Some(UpdateLook(c, false, None)), chs) == Some(sh)
  {
    assert Alone(w, sh, Some(UpdateLook(c, false, None)), chs) == Alone(w, sh, None, chs[1..]);
  }

  lemma AloneAnswersData(w: World, sh: Shared, c: Int32, data: Option<ServerPlayer>, chs: seq<Choice>)
    requires Tidy(sh) && c in sh.clients && Alone(w, sh, Some(UpdateLook(c, false, data)), chs).Some?
    ensures Clean(Alone(w, sh, Some(UpdateLook(c, false, data)), chs).value) == Updated(sh, c, data)
  {
    UpdateIsTidy(sh, c, data);
    TidyIsClean(Updated(sh, c, data));
    if data.Some? { AloneUpdate(w, sh, c, data.value, chs); } else { UndecodableStep(w, sh, c, chs); }
  }

  lemma AloneAnswersKeepalive(w: World, sh: Shared, c: Int32, chs: seq<Choice>)
    requires Tidy(sh) && c in sh.clients && Alone(w, sh, Some(KeepaliveTouch(c)), chs).Some?
    ensures Clean(Alone(w, sh, Some(KeepaliveTouch(c)), chs).value) == Touched(sh, c, w.now)
  {
    AloneKeepalive(w, sh, c, chs);
    TidyIsClean(Touched(sh, c, w.now));
  }

  lemma AloneAnswers(w: World, sh: Shared, c: Int32, request: Request, chs: seq<Choice>)
    requires Tidy(sh) && c in sh.clients && !request.CheckIn? && Alone(w, sh, Dispatch(c, request), chs).Some?
    ensures Clean(Alone(w, sh, Dispatch(c, request), chs).value) == Answered(sh, c, request, w.net, w.now)
  {
    TidyIsClean(sh);
    if OnlyAsks(request) {
      AloneAsks(w, sh, c, request, chs);
    } else {
      match request
      case Keepalive => AloneAnswersKeepalive(w, sh, c, chs);
      case Disconnect => var after, rest := AloneForgetsOne(w, sh, c, Finish, chs);
      case UserLevelEntry(target) => AloneEntry(w, sh, c, target, chs);
      case UserLevelExit => AloneExit(w, sh, c, chs);
      case UserLevelData(data) => AloneAnswersData(w, sh, c, data, chs);
    }
  }

  lemma {:induction false} ForgetFirst(sh: Shared, c: Int32, order: seq<Int32>)
    ensures ForgottenAll(sh, [c] + order) == ForgottenAll(Forgotten(sh, c), order)
  {
    var all := [c] + order;
    if order == [] {
      assert all[..0] == [] && all[0] == c;
    } else {
      assert all[..|all| - 1] == [c] + order[..|order| - 1];
      ForgetFirst(sh, c, order[..|order| - 1]);
    }
  }

  lemma FirstThenOthers(c: Int32, others: seq<Int32>, todo: set<Int32>)
    requires c in todo && Enumerates(others, todo - {c})
    ensures Enumerates([c] + others, todo)
  {
    forall x ensures x in [c] + others <==> x in todo {
      assert x in [c] + others <==> x == c || x in others;
    }
    forall i, j | 0 <= i < j < |others| + 1 ensures ([c] + others)[i] != ([c] + others)[j] {
      if i == 0 { assert others[j - 1] in others; }
    }
  }

  // A sweep task forgets its dead one after the other.
  lemma {:induction false} AloneForgetsAll(w: World, sh: Shared, todo: set<Int32>, chs: seq<Choice>)
    returns (order: seq<Int32>)
    requires Alone(w, sh, Resume(ThenSweep(todo)), chs).Some?
    ensures Enumerates(order, todo)
    ensures Clean(Alone(w, sh, Resume(ThenSweep(todo)), chs).value) == ForgottenAll(Clean(sh), order)
    decreases |todo|
  {
    if todo == {} {
      order := [];
    } else {
      var c := chs[0].pick;
      assert Alone(w, sh, Some(SweepNext(todo)), chs) == Alone(w, sh, Some(Forget(c, ThenSweep(todo - {c}))), chs[1..]);
      var after, rest := AloneForgetsOne(w, sh, c, ThenSweep(todo - {c}), chs[1..]);
      var others := AloneForgetsAll(w, after, todo - {c}, rest);
      order := [c] + others;
      ForgetFirst(Clean(sh), c, others);
      FirstThenOthers(c, others, todo);
    }
  }

  // Main result: a sweep that runs alone removes the dead in some order.
  lemma AloneIsSwept(w: World, sh: Shared, chs: seq<Choice>) returns (order: seq<Int32>)
    requires Tidy(sh) && Alone(w, sh, Some(SweepLook), chs).Some?
    ensures Possible(w.cfg, sh, Sweep(w.now, order))
    ensures Clean(Alone(w, sh, Some(SweepLook), chs).value) == Outcome(w.cfg, sh, Sweep(w.now, order))
  {
    var dead := DeadClients(w.cfg, sh, w.now);
    assert Alone(w, sh, Some(SweepLook), chs) == Alone(w, sh, Resume(ThenSweep(dead)), chs[1..]);
    TidyIsClean(sh);
    order := AloneForgetsAll(w, sh, dead, chs[1..]);
  }

  lemma SignedInIsClean(w: World, sh: Shared, c: Int32, key: Int32, account: Option<Account>)
    requires Tidy(sh)
    ensures var after := SignedIn(w.cfg, sh, c, w.peer, key, account, w.net, w.now); Clean(after) == after
  {
    TidyIsClean(SignedIn(w.cfg, sh, c, w.peer, key, account, w.net, w.now));
  }

  lemma AloneIsVerified(w: World, sh: Shared, c: Int32, key: Int32, request: Request, chs: seq<Choice>)
    requires Tidy(sh) && !request.CheckIn? && Alone(w, sh, Some(Verify(c, key, request)), chs).Some?
    ensures Clean(Alone(w, sh, Some(Verify(c, key, request)), chs).value)
              == if Accepted(sh, c, key) then Answered(sh, c, request, w.net, w.now) else sh
  {
    VerifyStep(w, sh, c, key, request, chs);
    if Accepted(sh, c, key) { AloneAnswers(w, sh, c, request, chs[1..]); } else { TidyIsClean(sh); }
  }

  // Main result: for every packet and every complete run of its task alone.
  lemma AloneIsHandled(w: World, sh: Shared, packet: Packet, chs: seq<Choice>)
    requires Tidy(sh) && Alone(w, sh, Begin(packet, w.peer), chs).Some?
    ensures Clean(Alone(w, sh, Begin(packet, w.peer), chs).value) == Handled(w.cfg, sh, packet, w.peer, w.net, w.now)
  {
    TidyIsClean(sh);
    match packet
    case Unreadable =>
    case Ping(id) => if id.Some? { AloneReads(w, sh, PingCount, chs); }
    case FromClient(c, key, request) =>
      if c != 0 && request.CheckIn? {
        AloneSignsIn(w, sh, c, key, request.account, chs);
        SignedInIsClean(w, sh, c, key, request.account);
      } else if c != 0 {
        AloneIsVerified(w, sh, c, key, request, chs);
      }
  }

  // ----- such runs exist -----

  lemma OneStep(w: World, sh: Shared, code: Code, ch: Choice, rest: seq<Choice>)
    requires Ready(sh, code, ch) && Follows(w, sh, code, ch)
    ensures Alone(w, sh, Some(code), [ch] + rest) == Alone(w, Cleaned(w, sh, code, ch), Next(w.cfg, sh, code, ch), rest)
  {
    assert ([ch] + rest)[1..] == rest;
  }

  function Told(w: World, sh: Shared, code: Code, pick: Int32): (ch: Choice)
    ensures Follows(w, sh, code, ch) && ch.pick == pick
  {
    match code
    case CheckInAdd(_, _, _, _) => Choice(pick, w.net(w.peer), w.now)
    case EntryAnnounce(_, l) => Choice(pick, Reaches(w.net, sh, l), w.now)
    case ExitAnnounce(_, l) => Choice(pick, Reaches(w.net, sh, l), w.now)
    case _ => Choice(pick, true, w.now)
  }

  lemma CleaningMakesRoom(sh: Shared, code: Code, room: Quiescence.Room)
    requires Quiescence.HasRoom(sh, code, room)
    ensures Quiescence.HasRoom(Clean(sh), code, room)
  {
    var clean := Clean(sh).levels;
    Sessions.SubsetSize(clean.Keys, sh.levels.Keys);
    assert |clean| == |clean.Keys| && |sh.levels| == |sh.levels.Keys|;
    Sessions.SubsetSize(Quiescence.MemberIds(clean), Quiescence.MemberIds(sh.levels));
  }

  lemma SpawnerNeedsNothing(cont: Cont)
    ensures Resume(cont).Some? ==>
              Needs(Resume(cont).value) == {} && !Resume(cont).value.CleanCheck? && !Resume(cont).value.SnapSend?
  {
  }

  // The next step finds what it relies on, and room for what it adds.
  lemma AloneGoesOn(w: World, room: Quiescence.Room, sh: Shared, code: Code, ch: Choice)
    requires Scheduler.Sound(sh, code) && Quiescence.HasRoom(sh, code, room) && Ready(sh, code, ch)
    ensures var next := Next(w.cfg, sh, code, ch);
            next.Some? ==> Scheduler.Sound(Cleaned(w, sh, code, ch), next.value)
                           && Quiescence.HasRoom(Cleaned(w, sh, code, ch), next.value, room)
  {
    Quiescence.MapsGrowByTasks(w.cfg, sh, code, ch);
    Scheduler.StepKeepsOwnLevels(w.cfg, sh, code, ch);
    var next := Next(w.cfg, sh, code, ch);
    if next.Some? && code.SpawnCleanup? {
      CleaningMakesRoom(After(w.cfg, sh, code, ch), next.value, room);
      SpawnerNeedsNothing(code.cont);
    }
  }

  lemma AChoice(w: World, sh: Shared, code: Code) returns (ch: Choice)
    requires Scheduler.Sound(sh, code)
    ensures Ready(sh, code, ch) && Follows(w, sh, code, ch)
  {
    var ready := Scheduler.SomeChoice(sh, code);
    ch := Told(w, sh, code, ready.pick);
  }

  lemma {:induction false} AloneFinishes(w: World, room: Quiescence.Room, sh: Shared, code: Code)
    returns (chs: seq<Choice>)
    requires Scheduler.Sound(sh, code) && Quiescence.HasRoom(sh, code, room)
    ensures Alone(w, sh, Some(code), chs).Some?
    decreases Quiescence.Steps(room, code)
  {
    var ch := AChoice(w, sh, code);
    var next, rest := Next(w.cfg, sh, code, ch), [];
    if next.Some? {
      AloneGoesOn(w, room, sh, code, ch);
      Quiescence.StepWorksOff(w.cfg, room, sh, code, ch);
      rest := AloneFinishes(w, room, Cleaned(w, sh, code, ch), next.value);
    }
    OneStep(w, sh, code, ch, rest);
    chs := [ch] + rest;
  }

  // Every packet's task has a complete run alone.
  lemma AloneHasRun(w: World, sh: Shared, packet: Packet)
    ensures exists chs :: Alone(w, sh, Begin(packet, w.peer), chs).Some?
  {
    var code := Begin(packet, w.peer);
    if code.Some? {
      var room := Quiescence.Room(|sh.levels| + 1, |sh.clients| + 1, |Quiescence.MemberIds(sh.levels)| + 1);
      var chs := AloneFinishes(w, room, sh, code.value);
    } else {
      assert Alone(w, sh, code, []).Some?;
    }
  }

  // ----- ticks -----

  // The groups a tick still has to do are those it started with.
  ghost predicate TickGoes(before: Shared, cur: Shared, groups: map<Int32, set<Int32>>) {
    && groups.Keys <= NamedLevels(before) && (forall l | l in groups :: groups[l] == Recipients(before, l))
    && cur == before.(clients := RepairedBut(before, groups.Keys))
  }

  // Sending a level changes nothing, and goes on with the next group.
  lemma AloneSends(w: World, sh: Shared, l: Int32, ids: set<Int32>, groups: map<Int32, set<Int32>>, chs: seq<Choice>)
    returns (pick: Int32, rest: seq<Choice>)
    requires Alone(w, sh, Some(TickSend(l, ids, groups)), chs).Some?
    ensures PickOk(groups.Keys, pick) && |rest| < |chs|
    ensures Alone(w, sh, Some(TickSend(l, ids, groups)), chs) == Alone(w, sh, TickNext(sh, groups, pick), rest)
    decreases |chs|
  {
    pick, rest := chs[0].pick, chs[1..];
    if ids != {} {
      assert Alone(w, sh, Some(TickSend(l, ids, groups)), chs)
             == Alone(w, sh, Some(TickSend(l, ids - {pick}, groups)), rest);
      pick, rest := AloneSends(w, sh, l, ids - {pick}, groups, rest);
    }
  }

  lemma AloneReadsLevel(w: World, sh: Shared, l: Int32, groups: map<Int32, set<Int32>>, chs: seq<Choice>)
    returns (pick: Int32, rest: seq<Choice>)
    requires Alone(w, sh, Some(TickRead(l, groups)), chs).Some?
    ensures PickOk(groups.Keys, pick) && |rest| < |chs|
    ensures Alone(w, sh, Some(TickRead(l, groups)), chs) == Alone(w, sh, TickNext(sh, groups, pick), rest)
  {
    pick, rest := chs[0].pick, chs[1..];
    var ids := sh.levels[l].Keys;
    if ids != {} {
      assert Alone(w, sh, Some(TickRead(l, groups)), chs)
             == Alone(w, sh, Some(TickSend(l, ids - {pick}, groups)), rest);
      pick, rest := AloneSends(w, sh, l, ids - {pick}, groups, rest);
    }
  }

  lemma TickGoesOn(before: Shared, cur: Shared, groups: map<Int32, set<Int32>>, l: Int32)
    requires TickGoes(before, cur, groups) && l in groups
    ensures TickGoes(before, if l in before.levels then cur else cur.(clients := Repaired(cur.clients, groups[l])),
                     groups - {l})
  {
    OneLevelTicked(before, groups.Keys, l);
    assert (groups - {l}).Keys == groups.Keys - {l};
  }

  lemma {:induction false} AloneTicks(w: World, before: Shared, cur: Shared, groups: map<Int32, set<Int32>>,
                                      pick: Int32,
                                      chs: seq<Choice>)
    requires TickGoes(before, cur, groups) && PickOk(groups.Keys, pick)
             && Alone(w, cur, TickNext(cur, groups, pick), chs).Some?
    ensures Alone(w, cur, TickNext(cur, groups, pick), chs) == Some(Ticked(before))
    decreases |chs|
  {
    if groups.Keys == {} {
      TickStartsAndEnds(before);
    } else {
      TickGoesOn(before, cur, groups, pick);
      var others := groups - {pick};
      if pick in cur.levels {
        var next, rest := AloneReadsLevel(w, cur, pick, others, chs);
        AloneTicks(w, before, cur, others, next, rest);
      } else {
        RepairStep(w, cur, groups[pick], others, chs);
        AloneTicks(w, before, cur.(clients := Repaired(cur.clients, groups[pick])), others, chs[0].pick, chs[1..]);
      }
    }
  }

  // Main result: a tick that runs alone repairs exactly the strays.
  lemma AloneIsTicked(w: World, sh: Shared, chs: seq<Choice>)
    requires Alone(w, sh, Some(TickLook), chs).Some?
    ensures Alone(w, sh, Some(TickLook), chs) == Some(Ticked(sh))
  {
    var groups := TickGroups(sh);
    TickLookStep(w, sh, chs);
    TickOpenStep(w, sh, groups, chs[1..]);
    TickStartsAndEnds(sh);
    assert groups.Keys == NamedLevels(sh);
    AloneTicks(w, sh, sh, groups, chs[1..][0].pick, chs[1..][1..]);
  }

  // ----- sweeps in a given order -----

  function Any(w: World, pick: Int32): Choice {
    Choice(pick, true, w.now)
  }

  // How many steps forgetting a client takes.
  function ForgetChoices(w: World, sh: Shared, c: Int32): seq<Choice> {
    if Named(sh, c) == -1 then [Any(w, 0)]
    else if Named(sh, c) !in sh.levels then [Any(w, 0), Any(w, 0)]
    else [Any(w, 0), Any(w, 0), Any(w, 0), Any(w, 0)]
  }

  function AfterForget(w: World, sh: Shared, c: Int32): Shared {
    var gone := sh.(clients := sh.clients - {c});
    if Named(sh, c) == -1 then gone else Gone(w, gone, c, Named(sh, c))
  }

  lemma LeaveRun(w: World, sh: Shared, c: Int32, l: Int32, cont: Cont, rest: seq<Choice>)
    requires l in sh.levels
    ensures var any := Any(w, 0);
            Alone(w, sh, Some(LeaveFind(c, l, cont)), [any] + ([any] + ([any] + rest)))
              == Alone(w, Gone(w, sh, c, l), Resume(cont), rest)
  {
    var any, erased := Any(w, 0), Erase(sh, c, l);
    OneStep(w, sh, LeaveFind(c, l, cont), any, [any] + ([any] + rest));
    OneStep(w, sh, LeaveErase(c, l, cont), any, [any] + rest);
    OneStep(w, erased, SpawnCleanup(cont), any, rest);
  }

  lemma ForgetRun(w: World, sh: Shared, c: Int32, cont: Cont, rest: seq<Choice>)
    ensures Alone(w, sh, Some(Forget(c, cont)), ForgetChoices(w, sh, c) + rest)
              == Alone(w, AfterForget(w, sh, c), Resume(cont), rest)
  {
    var any, l, gone := Any(w, 0), Named(sh, c), sh.(clients := sh.clients - {c});
    if l == -1 {
      OneStep(w, sh, Forget(c, cont), any, rest);
    } else if l !in sh.levels {
      assert ForgetChoices(w, sh, c) + rest == [any] + ([any] + rest);
      OneStep(w, sh, Forget(c, cont), any, [any] + rest);
      OneStep(w, gone, LeaveFind(c, l, cont), any, rest);
    } else {
      assert ForgetChoices(w, sh, c) + rest == [any] + ([any] + ([any] + ([any] + rest)));
      OneStep(w, sh, Forget(c, cont), any, [any] + ([any] + ([any] + rest)));
      LeaveRun(w, gone, c, l, cont, rest);
    }
  }

  lemma ForgetIsForgotten(w: World, sh: Shared, c: Int32)
    ensures Clean(AfterForget(w, sh, c)) == Forgotten(Clean(sh), c)
  {
    GoneAndClean(w, sh.(clients := sh.clients - {c}), c, Named(sh, c));
  }

  lemma OthersOf(order: seq<Int32>, todo: set<Int32>)
    requires Enumerates(order, todo) && order != []
    ensures order[0] in todo && Enumerates(order[1..], todo - {order[0]})
  {
    assert order[0] in order;
    forall x ensures x in order[1..] <==> x in todo - {order[0]} {
      if x in todo - {order[0]} {
        var i :| 0 <= i < |order| && order[i] == x;
        assert order[1..][i - 1] == x;
      }
      if x in order[1..] { assert x in order; }
    }
  }

  lemma SweepTurn(w: World, sh: Shared, todo: set<Int32>, c: Int32, rest: seq<Choice>)
    requires c in todo
    ensures Alone(w, sh, Resume(ThenSweep(todo)), [Any(w, c)] + (ForgetChoices(w, sh, c) + rest))
              == Alone(w, AfterForget(w, sh, c), Resume(ThenSweep(todo - {c})), rest)
  {
    OneStep(w, sh, SweepNext(todo), Any(w, c), ForgetChoices(w, sh, c) + rest);
    ForgetRun(w, sh, c, ThenSweep(todo - {c}), rest);
  }

  // A sweep can meet its dead in any order.
  lemma {:induction false} AloneInOrder(w: World, sh: Shared, order: seq<Int32>, todo: set<Int32>)
    returns (chs: seq<Choice>)
    requires Enumerates(order, todo)
    ensures Alone(w, sh, Resume(ThenSweep(todo)), chs).Some?
    ensures Clean(Alone(w, sh, Resume(ThenSweep(todo)), chs).value) == ForgottenAll(Clean(sh), order)
    decreases |order|
  {
    if order == [] {
      chs := [];
      assert todo == {};
    } else {
      OthersOf(order, todo);
      var rest := AloneInOrder(w, AfterForget(w, sh, order[0]), order[1..], todo - {order[0]});
      chs := [Any(w, order[0])] + (ForgetChoices(w, sh, order[0]) + rest);
      SweepTurn(w, sh, todo, order[0], rest);
      ForgetIsForgotten(w, sh, order[0]);
      ForgetFirst(Clean(sh), order[0], order[1..]);
      assert [order[0]] + order[1..] == order;
    }
  }
}
