// Any number of interleaved tasks over FIFO-fair read/write locks. Between two steps a
// task pauses before it asks for its next lock.

module Scheduler {
  import opened GameData
  import opened Locks
  import opened ServerState
  import opened Tasks

  // A paused task has not asked for the lock it needs next.
  datatype Sys = Sys(shared: Shared, tasks: map<nat, Code>, paused: set<nat>, queue: Queue, stamp: nat, nextTask: nat)

  datatype Event =
    | Arrive(packet: Packet, peer: int)
    | StartSweep
    | StartTick
    | Ask(task: nat)
    | Step(task: nat, choice: Choice)

  const Init := Sys(Shared(map[], map[]), map[], {}, map[], 0, 0)

  function GuardsAt(s: Sys, t: nat): Guards
    requires t in s.tasks
  {
    Guards(Held(s.tasks[t]), if t in s.paused then None else Wanted(s.tasks[t]))
  }

  function GuardMap(s: Sys): map<nat, Guards> {
    map t | t in s.tasks :: GuardsAt(s, t)
  }

  // A task is not blocked: it waits for nothing or its lock was granted.
  ghost predicate Runnable(s: Sys, t: nat) {
    t !in s.paused && CanRun(s.queue, GuardMap(s), t)
  }

  function Launch(s: Sys, code: Code): Sys {
    s.(tasks := s.tasks[s.nextTask := code], paused := s.paused + {s.nextTask}, nextTask := s.nextTask + 1)
  }

  // A step drops guards and pauses.
  function Continue(s: Sys, t: nat, sh: Shared, next: Option<Code>): Sys {
    match next
    case None => s.(shared := sh, tasks := s.tasks - {t}, queue := Release(s.queue, t, []))
    case Some(code) =>
      s.(shared := sh, tasks := s.tasks[t := code], paused := s.paused + {t},
         queue := Release(s.queue, t, Held(code)))
  }

  function Asked(s: Sys, t: nat): Sys
    requires t in s.tasks
  {
    s.(paused := s.paused - {t}, queue := Enqueue(s.queue, s.stamp, t, Wanted(s.tasks[t])), stamp := s.stamp + 1)
  }

  ghost predicate Enabled(cfg: Settings, s: Sys, e: Event) {
    match e
    case Arrive(_, _) => true
    case StartSweep => true
    case StartTick => cfg.tickBased
    case Ask(t) => t in s.tasks && t in s.paused
    case Step(t, ch) => Runnable(s, t) && Ready(s.shared, s.tasks[t], ch)
  }

  ghost function Apply(cfg: Settings, s: Sys, e: Event): Sys
    requires Enabled(cfg, s, e)
  {
    match e
    case Arrive(packet, peer) =>
      var code := Begin(packet, peer);
      if code.Some? then Launch(s, code.value) else s
    case StartSweep => Launch(s, SweepLook)
    case StartTick => Launch(s, TickLook)
    case Ask(t) => Asked(s, t)
    case Step(t, ch) =>
      var code := s.tasks[t];
      var s1 := Continue(s, t, After(cfg, s.shared, code, ch), Next(cfg, s.shared, code, ch));
      if code.SpawnCleanup? then Launch(s1, CleanOpen) else s1
  }

  // The state after a run; None when some event of the run was not enabled.
  ghost function Exec(cfg: Settings, es: seq<Event>): Option<Sys> {
    if es == [] then Some(Init)
    else
      var last := |es| - 1;
      var before := Exec(cfg, es[..last]);
      if before.Some? && Enabled(cfg, before.value, es[last]) then Some(Apply(cfg, before.value, es[last])) else None
  }

  // ----- lock discipline -----

  lemma GuardsInOrder(code: Code, i: int, j: int)
    requires 0 <= i < j < |Held(code)|
    ensures Rank(Held(code)[i].lock) < Rank(Held(code)[j].lock)
  {
  }

  lemma WantedInOrder(code: Code, h: Claim)
    requires h in Held(code) && Wanted(code).Some?
    ensures Rank(h.lock) < Rank(Wanted(code).value.lock)
  {
  }

  lemma CodeInOrder(code: Code)
    ensures GuardsOf(code).InOrder()
  {
    forall i, j | 0 <= i < j < |Held(code)| ensures Rank(Held(code)[i].lock) < Rank(Held(code)[j].lock) {
      GuardsInOrder(code, i, j);
    }
    if Wanted(code).Some? {
      forall h | h in Held(code) ensures Rank(h.lock) < Rank(Wanted(code).value.lock) { WantedInOrder(code, h); }
    }
  }

  // A step drops guards and waits for at most one new lock; it never keeps a guard
  // that the previous point did not have.
  ghost predicate KeepsGuards(cfg: Settings, sh: Shared, code: Code, ch: Choice)
    requires Ready(sh, code, ch)
  {
    var next := Next(cfg, sh, code, ch);
    next.Some? ==> forall h | h in Held(next.value) :: GuardsOf(code).Needs(h)
  }

  lemma TickKeepsGuards(cfg: Settings, sh: Shared, code: Code, ch: Choice)
    requires Ready(sh, code, ch) && Ticks(code) && !code.TickLook?
    ensures KeepsGuards(cfg, sh, code, ch)
  {
  }

  lemma CountingHolds(c: Int32, todo: set<Int32>, counts: map<Int32, nat>, pick: Int32)
    ensures Held(ListNext(c, todo, counts, pick)) == [LEVELS_READ]
  {
  }

  lemma CountingKeepsGuards(cfg: Settings, sh: Shared, code: Code, ch: Choice)
    requires Ready(sh, code, ch) && (code.ListOpen? || code.ListCount?)
    ensures KeepsGuards(cfg, sh, code, ch)
  {
    if code.ListOpen? {
      CountingHolds(code.client, sh.levels.Keys, map[], ch.pick);
    } else {
      CountingHolds(code.client, code.todo, code.counts[code.level := |sh.levels[code.level]|], ch.pick);
    }
  }

  lemma CleaningKeepsGuards(cfg: Settings, sh: Shared, code: Code, ch: Choice)
    requires Ready(sh, code, ch) && (code.CleanOpen? || code.CleanCheck?)
    ensures KeepsGuards(cfg, sh, code, ch)
  {
  }

  // The steps of a handler that keep a guard while they wait for the next lock.
  predicate LooksUp(code: Code) {
    code.LeaveFind? || code.EnterOpen? || code.UpdateFind? || code.SnapFind? || code.SnapRead?
  }

  lemma LookupKeepsGuards(cfg: Settings, sh: Shared, code: Code, ch: Choice)
    requires Ready(sh, code, ch) && LooksUp(code)
    ensures KeepsGuards(cfg, sh, code, ch)
  {
  }

  lemma OthersKeepGuards(cfg: Settings, sh: Shared, code: Code, ch: Choice)
    requires Ready(sh, code, ch) && !LooksUp(code) && (code.TickLook? || !Ticks(code))
    requires !(code.ListOpen? || code.ListCount? || code.CleanOpen? || code.CleanCheck?)
    ensures var next := Next(cfg, sh, code, ch); next.Some? ==> Held(next.value) == []
  {
  }

  lemma GuardsAreKept(cfg: Settings, sh: Shared, code: Code, ch: Choice)
    requires Ready(sh, code, ch)
    ensures KeepsGuards(cfg, sh, code, ch)
  {
    if Ticks(code) && !code.TickLook? {
      TickKeepsGuards(cfg, sh, code, ch);
    } else if code.ListOpen? || code.ListCount? {
      CountingKeepsGuards(cfg, sh, code, ch);
    } else if code.CleanOpen? || code.CleanCheck? {
      CleaningKeepsGuards(cfg, sh, code, ch);
    } else if LooksUp(code) {
      LookupKeepsGuards(cfg, sh, code, ch);
    } else {
      OthersKeepGuards(cfg, sh, code, ch);
    }
  }

  ghost predicate LocksHold(s: Sys) {
    && LockInv(s.queue, s.stamp, GuardMap(s)) && s.paused <= s.tasks.Keys
    && forall t | t in s.tasks :: t < s.nextTask
  }

  lemma LaunchKeepsLocks(s: Sys, code: Code)
    requires LocksHold(s) && Held(code) == []
    ensures LocksHold(Launch(s, code))
  {
    StartKeepsLocks(s.queue, s.stamp, GuardMap(s), s.nextTask);
    assert GuardMap(Launch(s, code)) == GuardMap(s)[s.nextTask := Guards([], None)];
  }

  lemma ContinueKeepsLocks(s: Sys, t: nat, sh: Shared, next: Option<Code>)
    requires LocksHold(s) && Runnable(s, t)
    requires next.Some? ==> forall h | h in Held(next.value) :: GuardsOf(s.tasks[t]).Needs(h)
    ensures LocksHold(Continue(s, t, sh, next))
  {
    var s' := Continue(s, t, sh, next);
    if next.Some? {
      CodeInOrder(next.value);
      DropKeepsLocks(s.queue, s.stamp, GuardMap(s), t, Held(next.value));
      assert GuardMap(s') == GuardMap(s)[t := Guards(Held(next.value), None)];
    } else {
      FinishKeepsLocks(s.queue, s.stamp, GuardMap(s), t);
      assert GuardMap(s') == GuardMap(s) - {t};
    }
  }

  lemma AskedGuards(s: Sys, t: nat)
    requires t in s.tasks
    ensures GuardMap(Asked(s, t)) == GuardMap(s)[t := GuardsOf(s.tasks[t])]
  {
  }

  lemma AskKeepsLocks(s: Sys, t: nat)
    requires LocksHold(s) && t in s.tasks && t in s.paused
    ensures LocksHold(Asked(s, t))
  {
    CodeInOrder(s.tasks[t]);
    WaitKeepsLocks(s.queue, s.stamp, GuardMap(s), t, GuardsOf(s.tasks[t]));
    AskedGuards(s, t);
  }

  lemma StepKeepsLocks(cfg: Settings, s: Sys, e: Event)
    requires LocksHold(s) && Enabled(cfg, s, e)
    ensures LocksHold(Apply(cfg, s, e))
  {
    match e {
      case Arrive(packet, peer) =>
        var code := Begin(packet, peer);
        if code.Some? { LaunchKeepsLocks(s, code.value); }
      case StartSweep => LaunchKeepsLocks(s, SweepLook);
      case StartTick => LaunchKeepsLocks(s, TickLook);
      case Ask(t) => AskKeepsLocks(s, t);
      case Step(t, ch) =>
        GuardsAreKept(cfg, s.shared, s.tasks[t], ch);
        var after, next := After(cfg, s.shared, s.tasks[t], ch), Next(cfg, s.shared, s.tasks[t], ch);
        ContinueKeepsLocks(s, t, after, next);
        if s.tasks[t].SpawnCleanup? { LaunchKeepsLocks(Continue(s, t, after, next), CleanOpen); }
    }
  }

  // What a step leaves, before a cleanup is launched.
  ghost function Stepped(cfg: Settings, s: Sys, t: nat, ch: Choice): Sys
    requires Enabled(cfg, s, Step(t, ch))
  {
    Continue(s, t, After(cfg, s.shared, s.tasks[t], ch), Next(cfg, s.shared, s.tasks[t], ch))
  }

  lemma ApplyIsStepped(cfg: Settings, s: Sys, t: nat, ch: Choice)
    requires Enabled(cfg, s, Step(t, ch))
    ensures Apply(cfg, s, Step(t, ch))
            == if s.tasks[t].SpawnCleanup? then Launch(Stepped(cfg, s, t, ch), CleanOpen) else Stepped(cfg, s, t, ch)
  {
  }

  lemma StepShares(cfg: Settings, s: Sys, t: nat, ch: Choice)
    requires Enabled(cfg, s, Step(t, ch))
    ensures Apply(cfg, s, Step(t, ch)).shared == After(cfg, s.shared, s.tasks[t], ch)
  {
    ApplyIsStepped(cfg, s, t, ch);
  }

  // The task table after a step: t has moved on, and a cleanup may have been added.
  ghost predicate TableMoves(before: map<nat, Code>, after: map<nat, Code>, t: nat, next: Option<Code>) {
    && t in before
    && (forall u | u in before && u != t :: u in after && after[u] == before[u])
    && (if next.Some? then t in after && after[t] == next.value else t !in after)
    && (forall u | u in after && u !in before :: after[u] == CleanOpen)
  }

  ghost predicate HasCleanup(tasks: map<nat, Code>) {
    exists t | t in tasks :: tasks[t] == CleanOpen
  }

  lemma ContinueMovesTable(s: Sys, t: nat, sh: Shared, next: Option<Code>)
    requires t in s.tasks
    ensures TableMoves(s.tasks, Continue(s, t, sh, next).tasks, t, next)
  {
  }

  lemma LaunchMovesTable(before: map<nat, Code>, s: Sys, t: nat, next: Option<Code>)
    requires TableMoves(before, s.tasks, t, next) && s.nextTask !in s.tasks && s.nextTask !in before
    ensures TableMoves(before, Launch(s, CleanOpen).tasks, t, next) && HasCleanup(Launch(s, CleanOpen).tasks)
  {
    assert Launch(s, CleanOpen).tasks[s.nextTask] == CleanOpen;
  }

  lemma StepMovesTable(cfg: Settings, s: Sys, t: nat, ch: Choice)
    requires Enabled(cfg, s, Step(t, ch)) && LocksHold(s)
    ensures TableMoves(s.tasks, Apply(cfg, s, Step(t, ch)).tasks, t, Next(cfg, s.shared, s.tasks[t], ch))
    ensures s.tasks[t].SpawnCleanup? ==> HasCleanup(Apply(cfg, s, Step(t, ch)).tasks)
  {
    var after, next := After(cfg, s.shared, s.tasks[t], ch), Next(cfg, s.shared, s.tasks[t], ch);
    ContinueMovesTable(s, t, after, next);
    if s.tasks[t].SpawnCleanup? { LaunchMovesTable(s.tasks, Continue(s, t, after, next), t, next); }
  }

  // ----- looked-up levels stay in the map while they are relied on -----

  ghost predicate Sound(sh: Shared, code: Code) {
    && Needs(code) <= sh.levels.Keys
    && (code.CleanCheck? ==> code.level !in code.todo)
    && (code.SnapSend? ==> code.payload == sh.levels[code.level])
  }

  ghost predicate AllSound(s: Sys) {
    forall t | t in s.tasks :: Sound(s.shared, s.tasks[t])
  }

  // Who relies on a level holds the level map; who relies on a level's contents
  // holds that level.
  lemma NeedsAreGuarded(code: Code)
    ensures Needs(code) != {} ==> LEVELS_READ in Held(code) || LEVELS_WRITE in Held(code)
    ensures code.SnapSend? ==> Claim(OneLevel(code.level), Read) in Held(code)
  {
  }

  ghost predicate KeepsSound(cfg: Settings, sh: Shared, code: Code, ch: Choice)
    requires Ready(sh, code, ch)
  {
    var next := Next(cfg, sh, code, ch);
    next.Some? ==> Sound(After(cfg, sh, code, ch), next.value)
  }

  lemma HandlerKeepsSound(cfg: Settings, sh: Shared, code: Code, ch: Choice)
    requires Sound(sh, code) && Ready(sh, code, ch)
    requires LooksUp(code)
    ensures KeepsSound(cfg, sh, code, ch)
  {
  }

  // A counting scan relies on the levels it has not counted yet.
  lemma ScanNeeds(c: Int32, todo: set<Int32>, counts: map<Int32, nat>, pick: Int32)
    requires PickOk(todo, pick)
    ensures Needs(ListNext(c, todo, counts, pick)) == todo
  {
  }

  lemma ScanKeepsSound(cfg: Settings, sh: Shared, code: Code, ch: Choice)
    requires Sound(sh, code) && Ready(sh, code, ch)
    requires code.ListOpen? || code.ListCount?
    ensures KeepsSound(cfg, sh, code, ch)
  {
    if code.ListOpen? {
      ScanNeeds(code.client, sh.levels.Keys, map[], ch.pick);
    } else {
      ScanNeeds(code.client, code.todo, code.counts[code.level := |sh.levels[code.level]|], ch.pick);
    }
  }

  lemma CleanKeepsSound(cfg: Settings, sh: Shared, code: Code, ch: Choice)
    requires Sound(sh, code) && Ready(sh, code, ch)
    requires code.CleanOpen? || code.CleanCheck?
    ensures KeepsSound(cfg, sh, code, ch)
  {
  }

  lemma TickTurnKeepsSound(cfg: Settings, sh: Shared, code: Code, ch: Choice)
    requires Sound(sh, code) && Ready(sh, code, ch) && (code.TickOpen? || code.TickRepair?)
    ensures KeepsSound(cfg, sh, code, ch)
  {
  }

  lemma TickReadKeepsSound(cfg: Settings, sh: Shared, code: Code, ch: Choice)
    requires Sound(sh, code) && Ready(sh, code, ch) && code.TickRead?
    ensures KeepsSound(cfg, sh, code, ch)
  {
  }

  lemma TickSendKeepsSound(cfg: Settings, sh: Shared, code: Code, ch: Choice)
    requires Sound(sh, code) && Ready(sh, code, ch) && code.TickSend?
    ensures KeepsSound(cfg, sh, code, ch)
  {
  }

  // Who holds nothing relies on nothing.
  lemma NothingHeldIsSound(sh: Shared, code: Code)
    requires Held(code) == []
    ensures Sound(sh, code)
  {
  }

  lemma StepKeepsOwnLevels(cfg: Settings, sh: Shared, code: Code, ch: Choice)
    requires Sound(sh, code) && Ready(sh, code, ch)
    ensures KeepsSound(cfg, sh, code, ch)
  {
    if LooksUp(code) {
      HandlerKeepsSound(cfg, sh, code, ch);
    } else if code.ListOpen? || code.ListCount? {
      ScanKeepsSound(cfg, sh, code, ch);
    } else if code.CleanOpen? || code.CleanCheck? {
      CleanKeepsSound(cfg, sh, code, ch);
    } else if code.TickOpen? || code.TickRepair? {
      TickTurnKeepsSound(cfg, sh, code, ch);
    } else if code.TickRead? {
      TickReadKeepsSound(cfg, sh, code, ch);
    } else if code.TickSend? {
      TickSendKeepsSound(cfg, sh, code, ch);
    } else {
      OthersKeepGuards(cfg, sh, code, ch);
      var next := Next(cfg, sh, code, ch);
      if next.Some? { NothingHeldIsSound(After(cfg, sh, code, ch), next.value); }
    }
  }

  lemma RemovalIsGuarded(sh: Shared, code: Code, l: Int32)
    requires Needs(code) <= sh.levels.Keys && l in sh.levels && l !in LevelsAfter(sh, code)
    ensures LEVELS_WRITE in Held(code)
  {
  }

  lemma OthersChangeNoLevel(sh: Shared, code: Code, l: Int32)
    requires Needs(code) <= sh.levels.Keys && l in sh.levels && l in LevelsAfter(sh, code)
    requires !code.LeaveErase? && !code.EnterInsert? && !code.UpdateStore?
    ensures LevelsAfter(sh, code)[l] == sh.levels[l]
  {
  }

  lemma ChangeIsGuarded(sh: Shared, code: Code, l: Int32)
    requires Needs(code) <= sh.levels.Keys && l in sh.levels
    requires l in LevelsAfter(sh, code) && LevelsAfter(sh, code)[l] != sh.levels[l]
    ensures Wanted(code) == Some(Claim(OneLevel(l), Write))
  {
    if !code.LeaveErase? && !code.EnterInsert? && !code.UpdateStore? {
      OthersChangeNoLevel(sh, code, l);
      assert false;
    }
  }

  // Only the write guard of the level map removes a level, and only the write guard
  // of a level changes what is in it.
  lemma ChangesAreGuarded(sh: Shared, code: Code, l: Int32)
    requires Needs(code) <= sh.levels.Keys && l in sh.levels
    ensures l !in LevelsAfter(sh, code) ==> LEVELS_WRITE in Held(code)
    ensures l in LevelsAfter(sh, code) && LevelsAfter(sh, code)[l] != sh.levels[l] ==>
              Wanted(code) == Some(Claim(OneLevel(l), Write))
  {
    if l !in LevelsAfter(sh, code) {
      RemovalIsGuarded(sh, code, l);
    } else if LevelsAfter(sh, code)[l] != sh.levels[l] {
      ChangeIsGuarded(sh, code, l);
    }
  }

  lemma LookedUpLevelsStay(cfg: Settings, s: Sys, t: nat, ch: Choice, u: nat, l: Int32)
    requires LocksHold(s) && AllSound(s) && Enabled(cfg, s, Step(t, ch))
    requires u in s.tasks && u != t && l in Needs(s.tasks[u])
    ensures l in LevelsAfter(s.shared, s.tasks[t])
  {
    if l !in LevelsAfter(s.shared, s.tasks[t]) {
      RemovalIsGuarded(s.shared, s.tasks[t], l);
      HeldIsGranted(s.queue, s.stamp, GuardMap(s), t, LEVELS_WRITE);
      NeedsAreGuarded(s.tasks[u]);
      var mine := if LEVELS_READ in Held(s.tasks[u]) then LEVELS_READ else LEVELS_WRITE;
      HeldIsGranted(s.queue, s.stamp, GuardMap(s), u, mine);
      MutualExclusion(s.queue, t, LEVELS_WRITE, u, mine);
      assert false;
    }
  }

  lemma ReadersKeepWritersOut(s: Sys, t: nat, u: nat, l: Int32)
    requires LocksHold(s) && Runnable(s, t) && u in s.tasks && u != t
    requires Claim(OneLevel(l), Read) in Held(s.tasks[u])
    ensures Wanted(s.tasks[t]) != Some(Claim(OneLevel(l), Write))
  {
    if Wanted(s.tasks[t]) == Some(Claim(OneLevel(l), Write)) {
      HeldIsGranted(s.queue, s.stamp, GuardMap(s), u, Claim(OneLevel(l), Read));
      MutualExclusion(s.queue, t, Claim(OneLevel(l), Write), u, Claim(OneLevel(l), Read));
      assert false;
    }
  }

  lemma ReadLevelsStay(s: Sys, t: nat, u: nat, l: Int32)
    requires LocksHold(s) && Runnable(s, t) && u in s.tasks && u != t
    requires Claim(OneLevel(l), Read) in Held(s.tasks[u])
    requires Needs(s.tasks[t]) <= s.shared.levels.Keys && l in s.shared.levels && l in LevelsAfter(s.shared, s.tasks[t])
    ensures LevelsAfter(s.shared, s.tasks[t])[l] == s.shared.levels[l]
  {
    ReadersKeepWritersOut(s, t, u, l);
    if LevelsAfter(s.shared, s.tasks[t])[l] != s.shared.levels[l] {
      ChangeIsGuarded(s.shared, s.tasks[t], l);
      assert false;
    }
  }

  lemma OthersStaySound(cfg: Settings, s: Sys, t: nat, ch: Choice, u: nat)
    requires LocksHold(s) && AllSound(s) && Enabled(cfg, s, Step(t, ch))
    requires u in s.tasks && u != t
    ensures Sound(After(cfg, s.shared, s.tasks[t], ch), s.tasks[u])
  {
    forall l | l in Needs(s.tasks[u]) ensures l in LevelsAfter(s.shared, s.tasks[t]) {
      LookedUpLevelsStay(cfg, s, t, ch, u, l);
    }
    if s.tasks[u].SnapSend? {
      NeedsAreGuarded(s.tasks[u]);
      ReadLevelsStay(s, t, u, s.tasks[u].level);
    }
  }

  lemma ContinueKeepsSound(cfg: Settings, s: Sys, t: nat, ch: Choice)
    requires LocksHold(s) && AllSound(s) && Enabled(cfg, s, Step(t, ch))
    ensures AllSound(Continue(s, t, After(cfg, s.shared, s.tasks[t], ch), Next(cfg, s.shared, s.tasks[t], ch)))
  {
    var after, next := After(cfg, s.shared, s.tasks[t], ch), Next(cfg, s.shared, s.tasks[t], ch);
    ContinueMovesTable(s, t, after, next);
    StepKeepsOwnLevels(cfg, s.shared, s.tasks[t], ch);
    forall u | u in Continue(s, t, after, next).tasks ensures Sound(after, Continue(s, t, after, next).tasks[u]) {
      if u != t { OthersStaySound(cfg, s, t, ch, u); }
    }
  }

  lemma LaunchKeepsSound(s: Sys, code: Code)
    requires AllSound(s) && Held(code) == []
    ensures AllSound(Launch(s, code))
  {
    NothingHeldIsSound(s.shared, code);
  }

  lemma SpawnKeepsSound(s: Sys, spawns: bool)
    requires AllSound(s)
    ensures AllSound(if spawns then Launch(s, CleanOpen) else s)
  {
    if spawns { LaunchKeepsSound(s, CleanOpen); }
  }

  lemma TaskStepKeepsSound(cfg: Settings, s: Sys, t: nat, ch: Choice)
    requires LocksHold(s) && AllSound(s) && Enabled(cfg, s, Step(t, ch))
    ensures AllSound(Apply(cfg, s, Step(t, ch)))
  {
    ContinueKeepsSound(cfg, s, t, ch);
    SpawnKeepsSound(Stepped(cfg, s, t, ch), s.tasks[t].SpawnCleanup?);
    ApplyIsStepped(cfg, s, t, ch);
  }

  lemma StepKeepsSound(cfg: Settings, s: Sys, e: Event)
    requires LocksHold(s) && AllSound(s) && Enabled(cfg, s, e)
    ensures AllSound(Apply(cfg, s, e))
  {
    match e
    case Arrive(packet, peer) =>
      if Begin(packet, peer).Some? { LaunchKeepsSound(s, Begin(packet, peer).value); }
    case StartSweep => LaunchKeepsSound(s, SweepLook);
    case StartTick => LaunchKeepsSound(s, TickLook);
    case Ask(_) =>
    case Step(t, ch) => TaskStepKeepsSound(cfg, s, t, ch);
  }

  ghost predicate Consistent(s: Sys) {
    LocksHold(s) && AllSound(s)
  }

  // In every run, tickets match the tasks, guards are granted, and every level a
  // task looked up is still there. In particular a LevelData reply carries the
  // contents its level has at the moment the reply is sent.
  lemma {:induction false} RunsAreConsistent(cfg: Settings, es: seq<Event>)
    ensures Exec(cfg, es).Some? ==> Consistent(Exec(cfg, es).value)
  {
    if es != [] {
      var last := |es| - 1;
      RunsAreConsistent(cfg, es[..last]);
      if Exec(cfg, es).Some? {
        var s := Exec(cfg, es[..last]).value;
        StepKeepsLocks(cfg, s, es[last]);
        StepKeepsSound(cfg, s, es[last]);
      }
    }
  }

  // ----- no deadlock -----

  lemma AnElement(todo: set<Int32>) returns (x: Int32)
    requires todo != {}
    ensures x in todo
  {
    assert exists y: Int32 :: y in todo;
    x :| x in todo;
  }

  lemma SomeChoice(sh: Shared, code: Code) returns (ch: Choice)
    requires Sound(sh, code)
    ensures Ready(sh, code, ch) && ch.sent
  {
    var todo := Picks(sh, code);
    ch := Choice(0, true, 0);
    if todo != {} {
      var pick := AnElement(todo);
      ch := ch.(pick := pick);
    }
  }

  // What the tasks at hand do by themselves.
  predicate IsWork(e: Event) {
    e.Ask? || e.Step?
  }

  // Main result: whenever tasks remain, one of them can go on, by a step unless one has
  // yet to ask for its lock.
  lemma NoDeadlock(cfg: Settings, es: seq<Event>)
    requires Exec(cfg, es).Some? && Exec(cfg, es).value.tasks != map[]
    ensures exists e :: IsWork(e) && Enabled(cfg, Exec(cfg, es).value, e)
    ensures Exec(cfg, es).value.paused == {} ==> exists t, ch :: Enabled(cfg, Exec(cfg, es).value, Step(t, ch))
  {
    var s := Exec(cfg, es).value;
    RunsAreConsistent(cfg, es);
    assert s.tasks.Keys != {};
    var t :| t in s.tasks;
    var u := FindRunnable(s.queue, s.stamp, GuardMap(s), t);
    if u in s.paused {
      assert IsWork(Ask(u)) && Enabled(cfg, s, Ask(u));
    } else {
      var ch := SomeChoice(s.shared, s.tasks[u]);
      assert IsWork(Step(u, ch)) && Enabled(cfg, s, Step(u, ch));
    }
  }
}
