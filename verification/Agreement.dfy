// The two maps agree about every client that no task is moving.
//
// `exact` selects between two strengths of the same invariant. With it, a client
// is a member of exactly the level its record names; without it, it is a member
// of no other level.

module Agreement {
  import opened GameData
  import opened ServerState
  import opened Tasks
  import opened Scheduler
  import opened EmptyLevels

  // The client whose level a task may still change. A packet's task moves its client only once
  // the key was accepted.
  function Subject(code: Code): Option<Int32> {
    match code
    case CheckInReject(c) => Some(c)
    case Forget(c, _) => Some(c)
    case LeaveFind(c, _, _) => Some(c)
    case LeaveErase(c, _, _) => Some(c)
    case SpawnCleanup(cont) => if cont.ThenDecode? then Some(cont.entrant) else None
    case EntryLook(c, _) => Some(c)
    case EntryAnnounce(c, _) => Some(c)
    case EnterOpen(c, _) => Some(c)
    case EnterInsert(c, _) => Some(c)
    case EnterRecord(c, _) => Some(c)
    case ExitClear(c) => Some(c)
    case ExitAnnounce(c, _) => Some(c)
    case UpdateLook(c, spectating, _) => if spectating then None else Some(c)
    case UpdateFind(c, _, _) => Some(c)
    case UpdateStore(c, _, _) => Some(c)
    case _ => None
  }

  function MovesClient(c: Int32): Code -> bool {
    code => Subject(code) == Some(c)
  }

  ghost predicate Quiet(s: Sys, c: Int32) {
    forall t | t in s.tasks :: !MovesClient(c)(s.tasks[t])
  }

  // Tasks of UserLevelData packets put a client back where its record says it is; they
  // may overlap with each other.
  predicate OnlyStores(code: Code) {
    match code
    case UpdateLook(_, spectating, _) => !spectating
    case UpdateFind(_, _, _) => true
    case UpdateStore(_, _, _) => true
    case _ => false
  }

  ghost predicate Exclusive(tasks: map<nat, Code>, moves: Code -> bool) {
    forall t, u | t in tasks && u in tasks && t != u && moves(tasks[t]) && moves(tasks[u]) ::
      OnlyStores(tasks[t]) && OnlyStores(tasks[u])
  }

  // While a task moves a client, no other task moves it, except that any number may store
  // its data; a sweep that has picked a client moves it.
  ghost predicate OneMoverEach(s: Sys) {
    forall c :: Exclusive(s.tasks, MovesClient(c))
  }

  predicate Delivered(sh: Shared, l: Int32, ch: Choice) {
    ch.sent || !HasRecipient(sh, l)
  }

  // Exit announcements are delivered if the client has a level to leave; for exact agreement,
  // entry packets with the right key can be decoded and entry announcements are delivered
  // too, if the client has a level to lose.
  predicate StepIsHarmless(exact: bool, sh: Shared, code: Code, ch: Choice) {
    && (code.ExitAnnounce? && Member(sh, code.client, code.level) ==> Delivered(sh, code.level, ch))
    && (exact && code.EntryAnnounce? && Named(sh, code.client) != -1 ==> Delivered(sh, code.level, ch))
    && (exact && code.EntryLook? && Named(sh, code.client) != -1 ==> code.target.Some?)
  }

  predicate Benign(exact: bool, s: Sys, e: Event) {
    e.Step? && e.task in s.tasks ==> StepIsHarmless(exact, s.shared, s.tasks[e.task], e.choice)
  }

  ghost predicate Disciplined(cfg: Settings, exact: bool, es: seq<Event>) {
    es == [] ||
    var last := |es| - 1;
    && Disciplined(cfg, exact, es[..last])
    && Exec(cfg, es).Some?
    && OneMoverEach(Exec(cfg, es).value)
    && Benign(exact, Exec(cfg, es[..last]).value, es[last])
  }

  // ----- where a client is, seen from the task that moves it -----

  ghost predicate OnlyIn(exact: bool, sh: Shared, c: Int32, l: Int32) {
    && (forall m :: Member(sh, c, m) ==> m == l)
    && (exact && l != -1 ==> Member(sh, c, l))
  }

  ghost predicate Nowhere(sh: Shared, c: Int32) {
    forall m :: !Member(sh, c, m)
  }

  ghost predicate Agrees(exact: bool, sh: Shared, c: Int32) {
    OnlyIn(exact, sh, c, Named(sh, c))
  }

  predicate Decodable(exact: bool, cont: Cont) {
    exact && cont.ThenDecode? ==> cont.level.Some?
  }

  ghost predicate Leaving(exact: bool, sh: Shared, c: Int32, l: Int32, cont: Cont) {
    && OnlyIn(exact, sh, c, l)
    && Decodable(exact, cont)
    && (if cont.ThenDecode? then c in sh.clients else Named(sh, c) == -1)
  }

  ghost predicate Where(exact: bool, sh: Shared, c: Int32, code: Code) {
    match code
    case CheckInReject(_) => Agrees(exact, sh, c) && Named(sh, c) == -1
    case LeaveFind(_, l, cont) => Leaving(exact, sh, c, l, cont)
    case LeaveErase(_, l, cont) => Leaving(exact, sh, c, l, cont)
    case SpawnCleanup(cont) => Nowhere(sh, c) && c in sh.clients && Decodable(exact, cont)
    case EntryAnnounce(_, _) => Nowhere(sh, c) && c in sh.clients
    case EnterOpen(_, _) => Nowhere(sh, c) && c in sh.clients
    case EnterInsert(_, _) => Nowhere(sh, c) && c in sh.clients
    case EnterRecord(_, l) => OnlyIn(true, sh, c, l) && c in sh.clients
    case ExitAnnounce(_, l) => OnlyIn(exact, sh, c, l) && Named(sh, c) == -1
    case UpdateFind(_, l, _) => Agrees(exact, sh, c) && Named(sh, c) == l
    case UpdateStore(_, l, _) => Agrees(exact, sh, c) && Named(sh, c) == l
    case _ => Agrees(exact, sh, c)
  }

  // No tick is running, and a subroutine returns to a handler of the same client.
  predicate Regular(code: Code) {
    && !Ticks(code)
    && (code.Forget? ==> !code.cont.ThenDecode?)
    && ((code.LeaveFind? || code.LeaveErase?) && code.cont.ThenDecode? ==> code.cont.entrant == code.client)
  }

  ghost predicate AllRegular(s: Sys) {
    forall t | t in s.tasks :: Regular(s.tasks[t])
  }

  lemma LeavingStaysRegular(cfg: Settings, sh: Shared, code: Code, ch: Choice)
    requires Ready(sh, code, ch) && Regular(code) && Leaves(code)
    ensures var next := Next(cfg, sh, code, ch); next.Some? ==> Regular(next.value)
  {
  }

  lemma SigningInStaysRegular(cfg: Settings, sh: Shared, code: Code, ch: Choice)
    requires Ready(sh, code, ch) && SignsIn(code)
    ensures var next := Next(cfg, sh, code, ch); next.Some? ==> Regular(next.value)
  {
  }

  lemma EnteringStaysRegular(cfg: Settings, sh: Shared, code: Code, ch: Choice)
    requires Ready(sh, code, ch) && EntersOrExits(code)
    ensures var next := Next(cfg, sh, code, ch); next.Some? ==> Regular(next.value)
  {
  }

  lemma ScanningStaysRegular(cfg: Settings, sh: Shared, code: Code, ch: Choice)
    requires Ready(sh, code, ch) && Scans(code)
    ensures var next := Next(cfg, sh, code, ch); next.Some? ==> Regular(next.value)
  {
  }

  lemma StepKeepsRegular(cfg: Settings, sh: Shared, code: Code, ch: Choice)
    requires Ready(sh, code, ch) && Regular(code)
    ensures var next := Next(cfg, sh, code, ch); next.Some? ==> Regular(next.value)
  {
    if Leaves(code) {
      LeavingStaysRegular(cfg, sh, code, ch);
    } else if SignsIn(code) {
      SigningInStaysRegular(cfg, sh, code, ch);
    } else if EntersOrExits(code) {
      EnteringStaysRegular(cfg, sh, code, ch);
    } else if Scans(code) {
      ScanningStaysRegular(cfg, sh, code, ch);
    }
  }

  // Client c is where it was; it may have connected.
  ghost predicate SameFor(a: Shared, b: Shared, c: Int32) {
    && (forall l :: Member(a, c, l) == Member(b, c, l))
    && Named(a, c) == Named(b, c)
    && (c in a.clients ==> c in b.clients)
  }

  // Which memberships of client c a step makes and ends.
  ghost predicate MemberAfter(sh: Shared, code: Code, c: Int32, l: Int32) {
    match code
    case LeaveErase(d, m, _) => Member(sh, c, l) && !(c == d && l == m)
    case EnterInsert(d, m) => Member(sh, c, l) || (c == d && l == m)
    case UpdateStore(d, m, _) => Member(sh, c, l) || (c == d && l == m)
    case _ => Member(sh, c, l)
  }

  lemma EmptyHasNoMembers(sh: Shared, code: Code, c: Int32, l: Int32)
    requires Needs(code) <= sh.levels.Keys && (code.EnterOpen? || code.CleanCheck?)
    ensures Member(sh.(levels := LevelsAfter(sh, code)), c, l) == Member(sh, c, l)
  {
  }

  lemma LevelMembersAfter(sh: Shared, code: Code, c: Int32, l: Int32)
    requires Needs(code) <= sh.levels.Keys
    ensures Member(sh.(levels := LevelsAfter(sh, code)), c, l) == MemberAfter(sh, code, c, l)
  {
    if code.EnterOpen? || code.CleanCheck? { EmptyHasNoMembers(sh, code, c, l); }
  }

  lemma MembersAfter(cfg: Settings, sh: Shared, code: Code, ch: Choice, c: Int32)
    requires Ready(sh, code, ch)
    ensures forall l :: Member(After(cfg, sh, code, ch), c, l) == MemberAfter(sh, code, c, l)
  {
    forall l ensures Member(After(cfg, sh, code, ch), c, l) == MemberAfter(sh, code, c, l) {
      LevelMembersAfter(sh, code, c, l);
    }
  }

  lemma OthersKeepMembers(sh: Shared, code: Code, c: Int32, l: Int32)
    requires Subject(code) != Some(c)
    ensures MemberAfter(sh, code, c, l) == Member(sh, c, l)
  {
  }

  lemma OthersKeepRecords(cfg: Settings, sh: Shared, code: Code, now: int, c: Int32)
    requires Subject(code) != Some(c) && Regular(code)
    ensures var after := sh.(clients := ClientsAfter(cfg, sh, code, now));
            Named(after, c) == Named(sh, c) && (c in sh.clients ==> c in after.clients)
  {
  }

  lemma OthersAreUntouched(cfg: Settings, sh: Shared, code: Code, ch: Choice, c: Int32)
    requires Ready(sh, code, ch) && Subject(code) != Some(c) && Regular(code)
    ensures SameFor(sh, After(cfg, sh, code, ch), c)
  {
    OthersKeepRecords(cfg, sh, code, ch.now, c);
    forall l ensures Member(sh, c, l) == Member(After(cfg, sh, code, ch), c, l) {
      LevelMembersAfter(sh, code, c, l);
      OthersKeepMembers(sh, code, c, l);
    }
  }

  lemma SameForKeepsWhere(exact: bool, a: Shared, b: Shared, c: Int32, code: Code)
    requires SameFor(a, b, c) && Where(exact, a, c, code)
    ensures Where(exact, b, c, code)
  {
  }

  // What the mover's next point may rely on, or plain agreement when it is done.
  ghost predicate Settled(exact: bool, sh: Shared, c: Int32, next: Option<Code>) {
    if next.Some? && Subject(next.value) == Some(c) then Where(exact, sh, c, next.value)
    else Agrees(exact, sh, c)
  }

  ghost predicate MoverOk(exact: bool, sh: Shared, code: Code, ch: Choice, c: Int32) {
    && Ready(sh, code, ch) && Regular(code) && Subject(code) == Some(c) && Where(exact, sh, c, code)
    && AreReal(sh.levels.Keys) && EntersRealLevel(code) && StepIsHarmless(exact, sh, code, ch)
  }

  lemma SameLevelsSameMembers(a: Shared, b: Shared, c: Int32)
    requires a.levels == b.levels
    ensures forall l :: Member(b, c, l) == Member(a, c, l)
  {
  }

  lemma StoreIs(cfg: Settings, sh: Shared, code: Code, ch: Choice, c: Int32)
    requires Ready(sh, code, ch) && code.UpdateStore? && code.client == c
    ensures After(cfg, sh, code, ch).clients == sh.clients
    ensures forall m :: Member(After(cfg, sh, code, ch), c, m) <==> Member(sh, c, m) || m == code.level
    ensures Next(cfg, sh, code, ch) == AfterUpdate(cfg, c, code.level)
  {
    MembersAfter(cfg, sh, code, ch, c);
  }

  lemma StillAgrees(exact: bool, a: Shared, b: Shared, c: Int32, l: Int32)
    requires Agrees(exact, a, c) && Named(a, c) == l && b.clients == a.clients
    requires forall m :: Member(b, c, m) <==> Member(a, c, m) || m == l
    ensures Agrees(exact, b, c)
  {
  }

  lemma FindSettles(cfg: Settings, exact: bool, sh: Shared, code: Code, ch: Choice, c: Int32)
    requires MoverOk(exact, sh, code, ch, c) && code.LeaveFind?
    ensures Settled(exact, After(cfg, sh, code, ch), c, Next(cfg, sh, code, ch))
  {
    assert After(cfg, sh, code, ch) == sh;
  }

  lemma EraseSettles(cfg: Settings, exact: bool, sh: Shared, code: Code, ch: Choice, c: Int32)
    requires MoverOk(exact, sh, code, ch, c) && code.LeaveErase?
    ensures Settled(exact, After(cfg, sh, code, ch), c, Next(cfg, sh, code, ch))
  {
    MembersAfter(cfg, sh, code, ch, c);
  }

  lemma SpawnSettles(cfg: Settings, exact: bool, sh: Shared, code: Code, ch: Choice, c: Int32)
    requires MoverOk(exact, sh, code, ch, c) && code.SpawnCleanup?
    ensures Settled(exact, After(cfg, sh, code, ch), c, Next(cfg, sh, code, ch))
  {
    assert After(cfg, sh, code, ch) == sh;
  }

  lemma ForgetSettles(cfg: Settings, exact: bool, sh: Shared, code: Code, ch: Choice, c: Int32)
    requires MoverOk(exact, sh, code, ch, c) && code.Forget?
    ensures Settled(exact, After(cfg, sh, code, ch), c, Next(cfg, sh, code, ch))
  {
    SameLevelsSameMembers(sh, After(cfg, sh, code, ch), c);
  }

  lemma ClearSettles(cfg: Settings, exact: bool, sh: Shared, code: Code, ch: Choice, c: Int32)
    requires MoverOk(exact, sh, code, ch, c) && code.ExitClear?
    ensures Settled(exact, After(cfg, sh, code, ch), c, Next(cfg, sh, code, ch))
  {
    SameLevelsSameMembers(sh, After(cfg, sh, code, ch), c);
  }

  lemma FarewellSettles(cfg: Settings, exact: bool, sh: Shared, code: Code, ch: Choice, c: Int32)
    requires MoverOk(exact, sh, code, ch, c) && code.ExitAnnounce?
    ensures Settled(exact, After(cfg, sh, code, ch), c, Next(cfg, sh, code, ch))
  {
    assert After(cfg, sh, code, ch) == sh;
  }

  lemma LookSettles(cfg: Settings, exact: bool, sh: Shared, code: Code, ch: Choice, c: Int32)
    requires MoverOk(exact, sh, code, ch, c) && code.EntryLook?
    ensures Settled(exact, After(cfg, sh, code, ch), c, Next(cfg, sh, code, ch))
  {
    assert After(cfg, sh, code, ch) == sh;
  }

  lemma GreetingSettles(cfg: Settings, exact: bool, sh: Shared, code: Code, ch: Choice, c: Int32)
    requires MoverOk(exact, sh, code, ch, c) && code.EntryAnnounce?
    ensures Settled(exact, After(cfg, sh, code, ch), c, Next(cfg, sh, code, ch))
  {
    assert After(cfg, sh, code, ch) == sh;
  }

  lemma OpenSettles(cfg: Settings, exact: bool, sh: Shared, code: Code, ch: Choice, c: Int32)
    requires MoverOk(exact, sh, code, ch, c) && code.EnterOpen?
    ensures Settled(exact, After(cfg, sh, code, ch), c, Next(cfg, sh, code, ch))
  {
    MembersAfter(cfg, sh, code, ch, c);
  }

  lemma InsertSettles(cfg: Settings, exact: bool, sh: Shared, code: Code, ch: Choice, c: Int32)
    requires MoverOk(exact, sh, code, ch, c) && code.EnterInsert?
    ensures Settled(exact, After(cfg, sh, code, ch), c, Next(cfg, sh, code, ch))
  {
    MembersAfter(cfg, sh, code, ch, c);
  }

  lemma RecordSettles(cfg: Settings, exact: bool, sh: Shared, code: Code, ch: Choice, c: Int32)
    requires MoverOk(exact, sh, code, ch, c) && code.EnterRecord?
    ensures Settled(exact, After(cfg, sh, code, ch), c, Next(cfg, sh, code, ch))
  {
    SameLevelsSameMembers(sh, After(cfg, sh, code, ch), c);
  }

  lemma RejectSettles(cfg: Settings, exact: bool, sh: Shared, code: Code, ch: Choice, c: Int32)
    requires MoverOk(exact, sh, code, ch, c) && code.CheckInReject?
    ensures Settled(exact, After(cfg, sh, code, ch), c, Next(cfg, sh, code, ch))
  {
    SameLevelsSameMembers(sh, After(cfg, sh, code, ch), c);
  }

  lemma UpdateLookSettles(cfg: Settings, exact: bool, sh: Shared, code: Code, ch: Choice, c: Int32)
    requires MoverOk(exact, sh, code, ch, c) && code.UpdateLook?
    ensures Settled(exact, After(cfg, sh, code, ch), c, Next(cfg, sh, code, ch))
  {
    assert After(cfg, sh, code, ch) == sh;
  }

  lemma UpdateFindSettles(cfg: Settings, exact: bool, sh: Shared, code: Code, ch: Choice, c: Int32)
    requires MoverOk(exact, sh, code, ch, c) && code.UpdateFind?
    ensures Settled(exact, After(cfg, sh, code, ch), c, Next(cfg, sh, code, ch))
  {
    assert After(cfg, sh, code, ch) == sh;
  }

  lemma StoreSettles(cfg: Settings, exact: bool, sh: Shared, code: Code, ch: Choice, c: Int32)
    requires MoverOk(exact, sh, code, ch, c) && code.UpdateStore?
    ensures Settled(exact, After(cfg, sh, code, ch), c, Next(cfg, sh, code, ch))
  {
    StoreIs(cfg, sh, code, ch, c);
    StillAgrees(exact, sh, After(cfg, sh, code, ch), c, code.level);
  }

  lemma LeavingSettles(cfg: Settings, exact: bool, sh: Shared, code: Code, ch: Choice, c: Int32)
    requires MoverOk(exact, sh, code, ch, c) && Leaves(code)
    ensures Settled(exact, After(cfg, sh, code, ch), c, Next(cfg, sh, code, ch))
  {
    if code.LeaveFind? {
      FindSettles(cfg, exact, sh, code, ch, c);
    } else if code.LeaveErase? {
      EraseSettles(cfg, exact, sh, code, ch, c);
    } else if code.SpawnCleanup? {
      SpawnSettles(cfg, exact, sh, code, ch, c);
    } else {
      ForgetSettles(cfg, exact, sh, code, ch, c);
    }
  }

  lemma EnteringSettles(cfg: Settings, exact: bool, sh: Shared, code: Code, ch: Choice, c: Int32)
    requires MoverOk(exact, sh, code, ch, c) && EntersOrExits(code) && !code.ExitClear? && !code.ExitAnnounce?
    ensures Settled(exact, After(cfg, sh, code, ch), c, Next(cfg, sh, code, ch))
  {
    if code.EntryLook? {
      LookSettles(cfg, exact, sh, code, ch, c);
    } else if code.EntryAnnounce? {
      GreetingSettles(cfg, exact, sh, code, ch, c);
    } else if code.EnterOpen? {
      OpenSettles(cfg, exact, sh, code, ch, c);
    } else if code.EnterInsert? {
      InsertSettles(cfg, exact, sh, code, ch, c);
    } else {
      RecordSettles(cfg, exact, sh, code, ch, c);
    }
  }

  lemma ExitingSettles(cfg: Settings, exact: bool, sh: Shared, code: Code, ch: Choice, c: Int32)
    requires MoverOk(exact, sh, code, ch, c) && (code.ExitClear? || code.ExitAnnounce?)
    ensures Settled(exact, After(cfg, sh, code, ch), c, Next(cfg, sh, code, ch))
  {
    if code.ExitClear? {
      ClearSettles(cfg, exact, sh, code, ch, c);
    } else {
      FarewellSettles(cfg, exact, sh, code, ch, c);
    }
  }

  lemma UpdatingSettles(cfg: Settings, exact: bool, sh: Shared, code: Code, ch: Choice, c: Int32)
    requires MoverOk(exact, sh, code, ch, c) && (code.UpdateLook? || code.UpdateFind? || code.UpdateStore?)
    ensures Settled(exact, After(cfg, sh, code, ch), c, Next(cfg, sh, code, ch))
  {
    if code.UpdateLook? {
      UpdateLookSettles(cfg, exact, sh, code, ch, c);
    } else if code.UpdateFind? {
      UpdateFindSettles(cfg, exact, sh, code, ch, c);
    } else {
      StoreSettles(cfg, exact, sh, code, ch, c);
    }
  }

  lemma MoverSettles(cfg: Settings, exact: bool, sh: Shared, code: Code, ch: Choice, c: Int32)
    requires MoverOk(exact, sh, code, ch, c)
    ensures Settled(exact, After(cfg, sh, code, ch), c, Next(cfg, sh, code, ch))
  {
    if Leaves(code) {
      LeavingSettles(cfg, exact, sh, code, ch, c);
    } else if code.ExitClear? || code.ExitAnnounce? {
      ExitingSettles(cfg, exact, sh, code, ch, c);
    } else if EntersOrExits(code) {
      EnteringSettles(cfg, exact, sh, code, ch, c);
    } else if code.CheckInReject? {
      RejectSettles(cfg, exact, sh, code, ch, c);
    } else {
      UpdatingSettles(cfg, exact, sh, code, ch, c);
    }
  }

  // Bookkeeping over the task table: `moves` says which tasks move one client, `here`
  // what they may rely on, and `rest` what holds of the client when there is none.
  ghost predicate TableOk(tasks: map<nat, Code>, moves: Code -> bool, here: Code -> bool, rest: bool) {
    && (forall t | t in tasks && moves(tasks[t]) :: here(tasks[t]))
    && ((forall t | t in tasks :: !moves(tasks[t])) ==> rest)
  }

  ghost function Expects(exact: bool, sh: Shared, c: Int32): Code -> bool {
    code => Where(exact, sh, c, code)
  }

  ghost predicate Located(exact: bool, s: Sys, c: Int32) {
    TableOk(s.tasks, MovesClient(c), Expects(exact, s.shared, c), Agrees(exact, s.shared, c))
  }

  // A task keeps its client until the end; only a sweep turns to another one, and accepting a
  // packet or refusing an account turns to the first.
  predicate Turns(code: Code, next: Code) {
    Subject(next).Some? && Subject(next) != Subject(code)
  }

  lemma SweepsTurnToForget(cfg: Settings, sh: Shared, code: Code, ch: Choice)
    requires Ready(sh, code, ch) && (code.SweepLook? || code.SweepNext?)
    ensures var next := Next(cfg, sh, code, ch); next.Some? && Turns(code, next.value) ==> next.value.Forget?
  {
  }

  lemma CountingMovesNobody(c: Int32, todo: set<Int32>, counts: map<Int32, nat>, pick: Int32)
    ensures Subject(ListNext(c, todo, counts, pick)) == None
  {
  }

  lemma CountingTurnsToNobody(cfg: Settings, sh: Shared, code: Code, ch: Choice)
    requires Ready(sh, code, ch) && (code.ListOpen? || code.ListCount?)
    ensures var next := Next(cfg, sh, code, ch); next.Some? ==> !Turns(code, next.value)
  {
    if code.ListOpen? {
      CountingMovesNobody(code.client, sh.levels.Keys, map[], ch.pick);
    } else {
      CountingMovesNobody(code.client, code.todo, code.counts[code.level := |sh.levels[code.level]|], ch.pick);
    }
  }

  lemma CleaningTurnsToNobody(cfg: Settings, sh: Shared, code: Code, ch: Choice)
    requires Ready(sh, code, ch) && (code.CleanOpen? || code.CleanCheck?)
    ensures var next := Next(cfg, sh, code, ch); next.Some? ==> !Turns(code, next.value)
  {
  }

  lemma LeavingKeepsTheClient(cfg: Settings, sh: Shared, code: Code, ch: Choice)
    requires Ready(sh, code, ch) && Regular(code) && Leaves(code)
    ensures var next := Next(cfg, sh, code, ch); next.Some? ==> !Turns(code, next.value)
  {
  }

  lemma HandlersKeepTheirClient(cfg: Settings, sh: Shared, code: Code, ch: Choice)
    requires Ready(sh, code, ch) && Regular(code) && !Scans(code) && !Leaves(code) && !code.Verify? && !code.CheckInAdd?
    ensures var next := Next(cfg, sh, code, ch); next.Some? ==> !Turns(code, next.value)
  {
  }

  lemma TurnsOnlyToForget(cfg: Settings, sh: Shared, code: Code, ch: Choice)
    requires Ready(sh, code, ch) && Regular(code) && !code.Verify? && !code.CheckInAdd?
    ensures var next := Next(cfg, sh, code, ch); next.Some? && Turns(code, next.value) ==> next.value.Forget?
  {
    if code.SweepLook? || code.SweepNext? {
      SweepsTurnToForget(cfg, sh, code, ch);
    } else if code.ListOpen? || code.ListCount? {
      CountingTurnsToNobody(cfg, sh, code, ch);
    } else if Scans(code) {
      CleaningTurnsToNobody(cfg, sh, code, ch);
    } else if Leaves(code) {
      LeavingKeepsTheClient(cfg, sh, code, ch);
    } else {
      HandlersKeepTheirClient(cfg, sh, code, ch);
    }
  }

  // An accepted packet's handler starts with what holds of a client at rest,
  lemma HandlerStartsAtRest(exact: bool, sh: Shared, d: Int32, request: Request, c: Int32)
    requires Agrees(exact, sh, c)
    ensures Settled(exact, sh, c, Dispatch(d, request))
  {
  }

  // and a refused newcomer has no level yet.
  lemma RejectStartsAtRest(cfg: Settings, exact: bool, sh: Shared, code: Code, ch: Choice, c: Int32)
    requires Ready(sh, code, ch) && code.CheckInAdd? && Agrees(exact, After(cfg, sh, code, ch), c)
    ensures Settled(exact, After(cfg, sh, code, ch), c, Next(cfg, sh, code, ch))
  {
  }

  lemma NewMoverStartsAtRest(cfg: Settings, exact: bool, sh: Shared, code: Code, ch: Choice, c: Int32)
    requires Ready(sh, code, ch) && Regular(code) && Subject(code) != Some(c)
             && Agrees(exact, After(cfg, sh, code, ch), c)
    ensures Settled(exact, After(cfg, sh, code, ch), c, Next(cfg, sh, code, ch))
  {
    if code.Verify? {
      HandlerStartsAtRest(exact, After(cfg, sh, code, ch), code.client, code.request, c);
    } else if code.CheckInAdd? {
      RejectStartsAtRest(cfg, exact, sh, code, ch, c);
    } else {
      TurnsOnlyToForget(cfg, sh, code, ch);
    }
  }

  // Storing data for a client suits every other task that does.
  lemma StoringKeepsWhere(cfg: Settings, exact: bool, sh: Shared, code: Code, ch: Choice, c: Int32, other: Code)
    requires Ready(sh, code, ch) && Subject(code) == Some(c) && OnlyStores(code) && OnlyStores(other)
    requires Where(exact, sh, c, code) && Where(exact, sh, c, other)
    ensures Where(exact, After(cfg, sh, code, ch), c, other)
  {
    MembersAfter(cfg, sh, code, ch, c);
  }

  lemma OthersStayLocated(cfg: Settings, exact: bool, s: Sys, t: nat, ch: Choice, c: Int32, u: nat)
    requires Enabled(cfg, s, Step(t, ch)) && Located(exact, s, c) && OneMoverEach(s)
    requires Regular(s.tasks[t])
    requires u in s.tasks && u != t && Subject(s.tasks[u]) == Some(c)
    ensures Where(exact, After(cfg, s.shared, s.tasks[t], ch), c, s.tasks[u])
  {
    var code, other := s.tasks[t], s.tasks[u];
    assert MovesClient(c)(other) && Expects(exact, s.shared, c)(other);
    if Subject(code) == Some(c) {
      assert Exclusive(s.tasks, MovesClient(c)) && MovesClient(c)(code) && Expects(exact, s.shared, c)(code);
      StoringKeepsWhere(cfg, exact, s.shared, code, ch, c, other);
    } else {
      OthersAreUntouched(cfg, s.shared, code, ch, c);
      SameForKeepsWhere(exact, s.shared, After(cfg, s.shared, code, ch), c, other);
    }
  }

  // The task table after a step of task t. Where t begins to move the client, it was at rest, or
  // others were only storing its data.
  lemma TableStep(before: map<nat, Code>, after: map<nat, Code>, t: nat, next: Option<Code>,
                  moves: Code -> bool, here: Code -> bool, rest: bool)
    requires TableMoves(before, after, t, next) && !moves(CleanOpen) && Exclusive(after, moves)
    requires forall u | u in before && u != t && moves(before[u]) ::
               here(before[u]) && (OnlyStores(before[u]) ==> rest)
    requires (forall u | u in before :: !moves(before[u])) ==> rest
    requires moves(before[t]) || rest ==> if next.Some? && moves(next.value) then here(next.value) else rest
    ensures TableOk(after, moves, here, rest)
  {
    if u :| u in before && u != t && moves(before[u]) {
      assert moves(after[u]);
    }
  }

  lemma AllOthersStayLocated(cfg: Settings, exact: bool, s: Sys, t: nat, ch: Choice, c: Int32)
    requires Enabled(cfg, s, Step(t, ch)) && Located(exact, s, c) && AllRegular(s) && OneMoverEach(s)
    ensures forall u | u in s.tasks && u != t && MovesClient(c)(s.tasks[u])
              :: Expects(exact, After(cfg, s.shared, s.tasks[t], ch), c)(s.tasks[u])
  {
    forall u | u in s.tasks && u != t && MovesClient(c)(s.tasks[u])
      ensures Expects(exact, After(cfg, s.shared, s.tasks[t], ch), c)(s.tasks[u])
    {
      OthersStayLocated(cfg, exact, s, t, ch, c, u);
    }
  }

  lemma CleanupMovesNobody(c: Int32)
    ensures !MovesClient(c)(CleanOpen)
  {
  }

  lemma StorersAgree(exact: bool, sh: Shared, c: Int32, code: Code)
    requires OnlyStores(code) && Expects(exact, sh, c)(code)
    ensures Agrees(exact, sh, c)
  {
  }

  // Locating client c again from what its mover settled and what the others kept.
  lemma Relocate(exact: bool, s: Sys, s': Sys, t: nat, next: Option<Code>, c: Int32)
    requires TableMoves(s.tasks, s'.tasks, t, next) && Exclusive(s'.tasks, MovesClient(c))
    requires forall u | u in s.tasks && u != t && MovesClient(c)(s.tasks[u]) :: Expects(exact, s'.shared, c)(s.tasks[u])
    requires Quiet(s, c) ==> Agrees(exact, s'.shared, c)
    requires MovesClient(c)(s.tasks[t]) || Agrees(exact, s'.shared, c) ==>
               if next.Some? && MovesClient(c)(next.value) then Expects(exact, s'.shared, c)(next.value)
               else Agrees(exact, s'.shared, c)
    ensures Located(exact, s', c)
  {
    CleanupMovesNobody(c);
    forall u | u in s.tasks && OnlyStores(s.tasks[u]) && Expects(exact, s'.shared, c)(s.tasks[u])
      ensures Agrees(exact, s'.shared, c)
    {
      StorersAgree(exact, s'.shared, c, s.tasks[u]);
    }
    TableStep(s.tasks, s'.tasks, t, next, MovesClient(c), Expects(exact, s'.shared, c), Agrees(exact, s'.shared, c));
  }

  lemma SettledMeans(exact: bool, sh: Shared, c: Int32, next: Option<Code>)
    requires Settled(exact, sh, c, next)
    ensures if next.Some? && MovesClient(c)(next.value) then Expects(exact, sh, c)(next.value) else Agrees(exact, sh, c)
  {
  }

  lemma StepSettles(cfg: Settings, exact: bool, s: Sys, t: nat, ch: Choice, c: Int32)
    requires Enabled(cfg, s, Step(t, ch)) && Located(exact, s, c) && AllRegular(s)
    requires RealLevels(s) && Benign(exact, s, Step(t, ch))
    requires MovesClient(c)(s.tasks[t]) || Agrees(exact, After(cfg, s.shared, s.tasks[t], ch), c)
    ensures var after, next := After(cfg, s.shared, s.tasks[t], ch), Next(cfg, s.shared, s.tasks[t], ch);
            if next.Some? && MovesClient(c)(next.value) then Expects(exact, after, c)(next.value)
            else Agrees(exact, after, c)
  {
    var code := s.tasks[t];
    if MovesClient(c)(code) {
      assert Expects(exact, s.shared, c)(code);
      MoverSettles(cfg, exact, s.shared, code, ch, c);
    } else {
      NewMoverStartsAtRest(cfg, exact, s.shared, code, ch, c);
    }
    SettledMeans(exact, After(cfg, s.shared, code, ch), c, Next(cfg, s.shared, code, ch));
  }

  lemma QuietStaysAgreed(cfg: Settings, exact: bool, s: Sys, t: nat, ch: Choice, c: Int32)
    requires Enabled(cfg, s, Step(t, ch)) && Located(exact, s, c) && AllRegular(s) && Quiet(s, c)
    ensures Agrees(exact, After(cfg, s.shared, s.tasks[t], ch), c)
  {
    assert !MovesClient(c)(s.tasks[t]);
    OthersAreUntouched(cfg, s.shared, s.tasks[t], ch, c);
  }

  lemma StepKeepsLocated(cfg: Settings, exact: bool, s: Sys, t: nat, ch: Choice, c: Int32)
    requires Enabled(cfg, s, Step(t, ch)) && Located(exact, s, c) && OneMoverEach(s) && AllRegular(s)
    requires LocksHold(s) && RealLevels(s) && Benign(exact, s, Step(t, ch))
    requires Exclusive(Apply(cfg, s, Step(t, ch)).tasks, MovesClient(c))
    ensures Located(exact, Apply(cfg, s, Step(t, ch)), c)
  {
    AllOthersStayLocated(cfg, exact, s, t, ch, c);
    if Quiet(s, c) { QuietStaysAgreed(cfg, exact, s, t, ch, c); }
    if MovesClient(c)(s.tasks[t]) || Agrees(exact, After(cfg, s.shared, s.tasks[t], ch), c) {
      StepSettles(cfg, exact, s, t, ch, c);
    }
    StepMovesTable(cfg, s, t, ch);
    StepShares(cfg, s, t, ch);
    Relocate(exact, s, Apply(cfg, s, Step(t, ch)), t, Next(cfg, s.shared, s.tasks[t], ch), c);
  }

  // Nobody is moved by a task that has just been launched.
  lemma LaunchKeepsLocated(exact: bool, s: Sys, code: Code, c: Int32)
    requires Located(exact, s, c) && s.nextTask !in s.tasks && Subject(code) == None
    ensures Located(exact, Launch(s, code), c)
  {
    var after := Launch(s, code).tasks;
    assert forall t | t in s.tasks :: after[t] == s.tasks[t];
  }

  lemma NewPacketMovesNobody(packet: Packet, peer: int)
    ensures Begin(packet, peer).Some? ==> Subject(Begin(packet, peer).value) == None
  {
  }

  lemma ArrivalKeepsLocated(cfg: Settings, exact: bool, s: Sys, e: Event, c: Int32)
    requires Enabled(cfg, s, e) && Located(exact, s, c) && LocksHold(s) && !cfg.tickBased && !IsWork(e)
    ensures Located(exact, Apply(cfg, s, e), c)
  {
    if e.Arrive? {
      NewPacketMovesNobody(e.packet, e.peer);
      if Begin(e.packet, e.peer).Some? { LaunchKeepsLocated(exact, s, Begin(e.packet, e.peer).value, c); }
    } else {
      LaunchKeepsLocated(exact, s, SweepLook, c);
    }
  }

  lemma AskMovesNobody(cfg: Settings, s: Sys, t: nat)
    requires Enabled(cfg, s, Ask(t))
    ensures Apply(cfg, s, Ask(t)).shared == s.shared && Apply(cfg, s, Ask(t)).tasks == s.tasks
  {
  }

  lemma EventKeepsLocated(cfg: Settings, exact: bool, s: Sys, e: Event, c: Int32)
    requires Enabled(cfg, s, e) && Located(exact, s, c) && OneMoverEach(s) && AllRegular(s)
    requires LocksHold(s) && RealLevels(s) && Benign(exact, s, e) && !cfg.tickBased
    requires Exclusive(Apply(cfg, s, e).tasks, MovesClient(c))
    ensures Located(exact, Apply(cfg, s, e), c)
  {
    if e.Step? {
      StepKeepsLocated(cfg, exact, s, e.task, e.choice, c);
    } else if e.Ask? {
      AskMovesNobody(cfg, s, e.task);
    } else {
      ArrivalKeepsLocated(cfg, exact, s, e, c);
    }
  }

  lemma EventKeepsRegular(cfg: Settings, s: Sys, e: Event)
    requires Enabled(cfg, s, e) && AllRegular(s) && !cfg.tickBased
    ensures AllRegular(Apply(cfg, s, e))
  {
    if e.Step? { StepKeepsRegular(cfg, s.shared, s.tasks[e.task], e.choice); }
  }

  lemma {:induction false} RunsAreRegular(cfg: Settings, es: seq<Event>)
    requires !cfg.tickBased
    ensures Exec(cfg, es).Some? ==> AllRegular(Exec(cfg, es).value)
  {
    if es != [] && Exec(cfg, es).Some? {
      var last := |es| - 1;
      RunsAreRegular(cfg, es[..last]);
      EventKeepsRegular(cfg, Exec(cfg, es[..last]).value, es[last]);
    }
  }

  lemma {:induction false} RunsAreLocated(cfg: Settings, exact: bool, es: seq<Event>, c: Int32)
    requires !cfg.tickBased && Disciplined(cfg, exact, es)
    ensures Exec(cfg, es).Some? && Located(exact, Exec(cfg, es).value, c) && OneMoverEach(Exec(cfg, es).value)
  {
    if es != [] {
      var last := |es| - 1;
      RunsAreLocated(cfg, exact, es[..last], c);
      RunsAreRegular(cfg, es[..last]);
      RunsAreConsistent(cfg, es[..last]);
      LevelIdsAreReal(cfg, es[..last]);
      EventKeepsLocated(cfg, exact, Exec(cfg, es[..last]).value, es[last], c);
    }
  }

  // Main result: under interleaving, a client that no task is moving is a member of
  // exactly the level its record names, if it names one.
  lemma AgreementAtRest(cfg: Settings, es: seq<Event>, c: Int32, l: Int32)
    requires !cfg.tickBased && Disciplined(cfg, true, es)
    ensures Exec(cfg, es).Some?
    ensures var s := Exec(cfg, es).value;
            Quiet(s, c) ==> (Member(s.shared, c, l) <==> l != -1 && Named(s.shared, c) == l)
  {
    RunsAreLocated(cfg, true, es, c);
    LevelIdsAreReal(cfg, es);
  }

  // With packets that cannot be decoded and entry announcements that fail, the weaker
  // half remains: whoever is found in a level is connected and its record names it.
  lemma OneSidedAtRest(cfg: Settings, es: seq<Event>, c: Int32, l: Int32)
    requires !cfg.tickBased && Disciplined(cfg, false, es)
    ensures Exec(cfg, es).Some?
    ensures var s := Exec(cfg, es).value;
            Quiet(s, c) && Member(s.shared, c, l) ==> c in s.shared.clients && s.shared.clients[c].levelId == l
  {
    RunsAreLocated(cfg, false, es, c);
    LevelIdsAreReal(cfg, es);
  }
}
