// What a step does depends only on what its task has locked, and it changes nothing else.

module Access {
  import opened GameData
  import opened Locks
  import opened ServerState
  import opened Tasks
  import opened Scheduler

  // The task has a guard of the lock when it takes its step.
  predicate Has(code: Code, lock: Lock) {
    (exists i | 0 <= i < |Held(code)| :: Held(code)[i].lock == lock)
    || (Wanted(code).Some? && Wanted(code).value.lock == lock)
  }

  // Two states of the maps look the same to a task with these guards.
  ghost predicate LooksLike(a: Shared, b: Shared, code: Code) {
    && (Has(code, Clients) ==> a.clients == b.clients)
    && (Has(code, Levels) ==> a.levels.Keys == b.levels.Keys)
    && (forall l | l in a.levels && l in b.levels && Has(code, OneLevel(l)) :: a.levels[l] == b.levels[l])
  }

  ghost predicate SameStep(cfg: Settings, a: Shared, b: Shared, code: Code, ch: Choice) {
    Ready(a, code, ch) && Ready(b, code, ch) ==> Next(cfg, a, code, ch) == Next(cfg, b, code, ch)
  }

  lemma SignInsSeeGuarded(cfg: Settings, a: Shared, b: Shared, code: Code, ch: Choice)
    requires LooksLike(a, b, code) && SignsIn(code)
    ensures SameStep(cfg, a, b, code, ch)
  {
    assert Has(code, Clients);
  }

  lemma LeavesSeeGuarded(cfg: Settings, a: Shared, b: Shared, code: Code, ch: Choice)
    requires LooksLike(a, b, code) && Leaves(code)
    ensures SameStep(cfg, a, b, code, ch)
  {
    if code.Forget? { assert Has(code, Clients); }
    if code.LeaveFind? { assert Has(code, Levels); }
  }

  lemma EntriesSeeGuarded(cfg: Settings, a: Shared, b: Shared, code: Code, ch: Choice)
    requires LooksLike(a, b, code) && EntersOrExits(code)
    ensures SameStep(cfg, a, b, code, ch)
  {
    if !code.EnterOpen? && !code.EnterInsert? { assert Has(code, Clients); }
  }

  lemma ScansSeeGuarded(cfg: Settings, a: Shared, b: Shared, code: Code, ch: Choice)
    requires LooksLike(a, b, code) && (code.SweepLook? || code.SweepNext? || code.CleanOpen? || code.CleanCheck?)
    ensures SameStep(cfg, a, b, code, ch)
  {
    if code.SweepLook? { assert Has(code, Clients); }
    if code.CleanOpen? { assert Has(code, Levels); }
  }

  lemma ListsSeeGuarded(cfg: Settings, a: Shared, b: Shared, code: Code, ch: Choice)
    requires LooksLike(a, b, code) && (code.ListOpen? || code.ListCount?)
    ensures SameStep(cfg, a, b, code, ch)
  {
    if code.ListOpen? { assert Has(code, Levels); } else { assert Has(code, OneLevel(code.level)); }
  }

  lemma TickTurnsSeeGuarded(a: Shared, b: Shared, groups: map<Int32, set<Int32>>, pick: Int32)
    requires a.levels.Keys == b.levels.Keys && PickOk(groups.Keys, pick)
    ensures TickNext(a, groups, pick) == TickNext(b, groups, pick)
  {
    assert pick in a.levels.Keys <==> pick in b.levels.Keys;
  }

  lemma TickLookSeesGuarded(cfg: Settings, a: Shared, b: Shared, ch: Choice)
    requires LooksLike(a, b, TickLook)
    ensures SameStep(cfg, a, b, TickLook, ch)
  {
    assert Has(TickLook, Clients);
    assert TickGroups(a) == TickGroups(b);
  }

  lemma TicksSeeGuarded(cfg: Settings, a: Shared, b: Shared, code: Code, ch: Choice)
    requires LooksLike(a, b, code) && Ticks(code) && !code.TickLook?
    ensures SameStep(cfg, a, b, code, ch)
  {
    if !code.TickOpen? { assert Held(code)[0].lock == Levels; }
    assert Has(code, Levels);
    if code.TickRead? { assert Has(code, OneLevel(code.level)); }
    if Ready(a, code, ch) && Ready(b, code, ch) && PickOk(code.groups.Keys, ch.pick) {
      TickTurnsSeeGuarded(a, b, code.groups, ch.pick);
    }
  }

  lemma HandlersSeeGuarded(cfg: Settings, a: Shared, b: Shared, code: Code, ch: Choice)
    requires LooksLike(a, b, code) && !SignsIn(code) && !Leaves(code) && !EntersOrExits(code) && !Scans(code)
             && !Ticks(code)
    ensures SameStep(cfg, a, b, code, ch)
  {
    if code.UpdateLook? || code.AccountLook? { assert Has(code, Clients); }
    if code.UpdateFind? || code.SnapFind? { assert Has(code, Levels); }
    if code.SnapRead? { assert Has(code, OneLevel(code.level)); }
  }

  // Main result: where a step leads is decided by what its task has locked.
  lemma ReadsAreGuarded(cfg: Settings, a: Shared, b: Shared, code: Code, ch: Choice)
    requires LooksLike(a, b, code)
    ensures SameStep(cfg, a, b, code, ch)
  {
    if SignsIn(code) {
      SignInsSeeGuarded(cfg, a, b, code, ch);
    } else if Leaves(code) {
      LeavesSeeGuarded(cfg, a, b, code, ch);
    } else if EntersOrExits(code) {
      EntriesSeeGuarded(cfg, a, b, code, ch);
    } else if code.ListOpen? || code.ListCount? {
      ListsSeeGuarded(cfg, a, b, code, ch);
    } else if Scans(code) {
      ScansSeeGuarded(cfg, a, b, code, ch);
    } else if code.TickLook? {
      TickLookSeesGuarded(cfg, a, b, ch);
    } else if Ticks(code) {
      TicksSeeGuarded(cfg, a, b, code, ch);
    } else {
      HandlersSeeGuarded(cfg, a, b, code, ch);
    }
  }

  // And a client's record is changed only under the write guard of the client map.
  lemma ClientsAreGuarded(cfg: Settings, sh: Shared, code: Code, now: int)
    ensures ClientsAfter(cfg, sh, code, now) != sh.clients ==> Wanted(code) == Some(CLIENTS_WRITE)
  {
  }

  // A level appears or disappears only under the write guard of the level map.
  lemma KeysAreGuarded(sh: Shared, code: Code)
    requires Needs(code) <= sh.levels.Keys && LevelsAfter(sh, code).Keys != sh.levels.Keys
    ensures LEVELS_WRITE in Held(code) || Wanted(code) == Some(LEVELS_WRITE)
  {
  }
}
