// Empty levels are always on their way out, and no level is ever called -1 or -2.

module EmptyLevels {
  import opened GameData
  import opened ServerState
  import opened Tasks
  import opened Scheduler

  // The task is bound to remove level l if it is still empty, or to fill it.
  predicate Covers(code: Code, l: Int32) {
    match code
    case CleanOpen => true
    case CleanCheck(m, todo) => l == m || l in todo
    case SpawnCleanup(_) => true
    case EnterInsert(_, m) => l == m
    case _ => false
  }

  predicate IsEmpty(sh: Shared, l: Int32) {
    l in sh.levels && sh.levels[l] == map[]
  }

  ghost predicate CoveredBy(tasks: map<nat, Code>, l: Int32) {
    exists t | t in tasks :: Covers(tasks[t], l)
  }

  ghost predicate Covered(s: Sys, l: Int32) {
    CoveredBy(s.tasks, l)
  }

  ghost predicate EmptiesCovered(s: Sys) {
    forall l | IsEmpty(s.shared, l) :: Covered(s, l)
  }

  lemma PutIsNotEmpty()
    ensures forall level: LevelData, c: Int32, p: ServerPlayer :: Put(level, c, p) != map[]
  {
    forall level: LevelData, c: Int32, p: ServerPlayer ensures Put(level, c, p) != map[] {
      assert c in Put(level, c, p);
    }
  }

  lemma CleaningPassesCoverOn(cfg: Settings, sh: Shared, code: Code, ch: Choice, l: Int32)
    requires Ready(sh, code, ch) && (code.CleanOpen? || code.CleanCheck?)
    requires Covers(code, l) && IsEmpty(After(cfg, sh, code, ch), l)
    ensures Next(cfg, sh, code, ch).Some? && Covers(Next(cfg, sh, code, ch).value, l)
  {
  }

  lemma InsertionFills(cfg: Settings, sh: Shared, code: Code, ch: Choice)
    requires Ready(sh, code, ch) && code.EnterInsert?
    ensures !IsEmpty(After(cfg, sh, code, ch), code.level)
  {
    PutIsNotEmpty();
  }

  lemma CoverIsPassedOn(cfg: Settings, sh: Shared, code: Code, ch: Choice, l: Int32)
    requires Ready(sh, code, ch) && Covers(code, l) && IsEmpty(After(cfg, sh, code, ch), l)
    ensures code.SpawnCleanup? || (Next(cfg, sh, code, ch).Some? && Covers(Next(cfg, sh, code, ch).value, l))
  {
    if code.CleanOpen? || code.CleanCheck? {
      CleaningPassesCoverOn(cfg, sh, code, ch, l);
    } else if code.EnterInsert? {
      InsertionFills(cfg, sh, code, ch);
      assert false;
    }
  }

  lemma OthersEmptyNoLevel(cfg: Settings, sh: Shared, code: Code, ch: Choice, l: Int32)
    requires Ready(sh, code, ch) && !code.LeaveErase? && !code.EnterOpen? && !IsEmpty(sh, l)
    ensures !IsEmpty(After(cfg, sh, code, ch), l)
  {
    PutIsNotEmpty();
  }

  lemma NewEmptyIsCovered(cfg: Settings, sh: Shared, code: Code, ch: Choice, l: Int32)
    requires Ready(sh, code, ch) && !IsEmpty(sh, l) && IsEmpty(After(cfg, sh, code, ch), l)
    ensures Next(cfg, sh, code, ch).Some? && Covers(Next(cfg, sh, code, ch).value, l)
  {
    if !code.LeaveErase? && !code.EnterOpen? {
      OthersEmptyNoLevel(cfg, sh, code, ch, l);
      assert false;
    }
  }

  lemma TableKeepsCover(before: map<nat, Code>, after: map<nat, Code>, t: nat, next: Option<Code>, l: Int32)
    requires TableMoves(before, after, t, next) && CoveredBy(before, l)
    requires Covers(before[t], l) ==> HasCleanup(after) || (next.Some? && Covers(next.value, l))
    ensures CoveredBy(after, l)
  {
    var u :| u in before && Covers(before[u], l);
    if HasCleanup(after) {
      var v :| v in after && after[v] == CleanOpen;
      assert Covers(after[v], l);
    } else {
      assert Covers(after[u], l);
    }
  }

  lemma StepKeepsCover(cfg: Settings, s: Sys, t: nat, ch: Choice, l: Int32)
    requires LocksHold(s) && EmptiesCovered(s) && Enabled(cfg, s, Step(t, ch))
    requires IsEmpty(After(cfg, s.shared, s.tasks[t], ch), l)
    ensures Covered(Apply(cfg, s, Step(t, ch)), l)
  {
    var code := s.tasks[t];
    StepMovesTable(cfg, s, t, ch);
    if IsEmpty(s.shared, l) {
      if Covers(code, l) { CoverIsPassedOn(cfg, s.shared, code, ch, l); }
      TableKeepsCover(s.tasks, Apply(cfg, s, Step(t, ch)).tasks, t, Next(cfg, s.shared, code, ch), l);
    } else {
      NewEmptyIsCovered(cfg, s.shared, code, ch, l);
    }
  }

  lemma ArrivalKeepsCover(cfg: Settings, s: Sys, e: Event)
    requires LocksHold(s) && EmptiesCovered(s) && Enabled(cfg, s, e) && !e.Step?
    ensures EmptiesCovered(Apply(cfg, s, e))
  {
    var s' := Apply(cfg, s, e);
    forall l | IsEmpty(s'.shared, l) ensures Covered(s', l) {
      assert Covered(s, l);
      var u :| u in s.tasks && Covers(s.tasks[u], l);
      assert Covers(s'.tasks[u], l);
    }
  }

  // In every interleaving, with no assumption on packets or sends.
  lemma {:induction false} EmptiesAreOnTheirWayOut(cfg: Settings, es: seq<Event>)
    ensures Exec(cfg, es).Some? ==> EmptiesCovered(Exec(cfg, es).value)
  {
    if es != [] && Exec(cfg, es).Some? {
      var last := |es| - 1;
      var s := Exec(cfg, es[..last]).value;
      EmptiesAreOnTheirWayOut(cfg, es[..last]);
      RunsAreConsistent(cfg, es[..last]);
      if es[last].Step? {
        forall l | IsEmpty(Apply(cfg, s, es[last]).shared, l) ensures Covered(Apply(cfg, s, es[last]), l) {
          StepKeepsCover(cfg, s, es[last].task, es[last].choice, l);
        }
      } else {
        ArrivalKeepsCover(cfg, s, es[last]);
      }
    }
  }

  // Once every task is done, no level is empty.
  lemma NoEmptyLevelAtRest(cfg: Settings, es: seq<Event>, l: Int32)
    requires Exec(cfg, es).Some? && Exec(cfg, es).value.tasks == map[]
    ensures !IsEmpty(Exec(cfg, es).value.shared, l)
  {
    EmptiesAreOnTheirWayOut(cfg, es);
    assert !Covered(Exec(cfg, es).value, l);
  }

  // ----- level ids -----

  predicate EntersRealLevel(code: Code) {
    (code.EntryAnnounce? || code.EnterOpen? || code.EnterInsert? || code.EnterRecord?) ==> RealLevel(code.level)
  }

  ghost predicate RealLevels(s: Sys) {
    && AreReal(s.shared.levels.Keys)
    && (forall t | t in s.tasks :: EntersRealLevel(s.tasks[t]))
  }

  lemma LevelsStayReal(sh: Shared, code: Code)
    requires Needs(code) <= sh.levels.Keys && EntersRealLevel(code) && AreReal(sh.levels.Keys)
    ensures AreReal(LevelsAfter(sh, code).Keys)
  {
  }

  lemma LeavingEntersRealLevel(cfg: Settings, sh: Shared, code: Code, ch: Choice)
    requires Ready(sh, code, ch) && Leaves(code)
    ensures var next := Next(cfg, sh, code, ch); next.Some? ==> EntersRealLevel(next.value)
  {
  }

  lemma EnteringEntersRealLevel(cfg: Settings, sh: Shared, code: Code, ch: Choice)
    requires Ready(sh, code, ch) && EntersRealLevel(code) && EntersOrExits(code)
    ensures var next := Next(cfg, sh, code, ch); next.Some? ==> EntersRealLevel(next.value)
  {
  }

  lemma ScansEnterNoLevel(cfg: Settings, sh: Shared, code: Code, ch: Choice)
    requires Ready(sh, code, ch) && Scans(code)
    ensures var next := Next(cfg, sh, code, ch); next.Some? ==> !EntersOrExits(next.value)
  {
  }

  lemma TicksEnterNoLevel(cfg: Settings, sh: Shared, code: Code, ch: Choice)
    requires Ready(sh, code, ch) && Ticks(code)
    ensures var next := Next(cfg, sh, code, ch); next.Some? ==> !EntersOrExits(next.value)
  {
  }

  lemma OthersOnlyBegin(cfg: Settings, sh: Shared, code: Code, ch: Choice)
    requires Ready(sh, code, ch) && !Leaves(code) && !EntersOrExits(code) && !Scans(code) && !Ticks(code)
    ensures var next := Next(cfg, sh, code, ch);
            next.Some? ==> !EntersOrExits(next.value) || next.value.EntryLook? || next.value.ExitClear?
  {
  }

  lemma StepEntersRealLevel(cfg: Settings, sh: Shared, code: Code, ch: Choice)
    requires Ready(sh, code, ch) && EntersRealLevel(code)
    ensures var next := Next(cfg, sh, code, ch); next.Some? ==> EntersRealLevel(next.value)
  {
    if Leaves(code) {
      LeavingEntersRealLevel(cfg, sh, code, ch);
    } else if EntersOrExits(code) {
      EnteringEntersRealLevel(cfg, sh, code, ch);
    } else if Scans(code) {
      ScansEnterNoLevel(cfg, sh, code, ch);
    } else if Ticks(code) {
      TicksEnterNoLevel(cfg, sh, code, ch);
    } else {
      OthersOnlyBegin(cfg, sh, code, ch);
    }
  }

  // -1 and -2 are never keys of the level map: they are what DAILY and WEEKLY are
  // called on the wire, so the translation back in LevelListResponse is faithful.
  lemma {:induction false} LevelIdsAreReal(cfg: Settings, es: seq<Event>)
    ensures Exec(cfg, es).Some? ==> RealLevels(Exec(cfg, es).value)
  {
    if es != [] && Exec(cfg, es).Some? {
      var last := |es| - 1;
      var s := Exec(cfg, es[..last]).value;
      LevelIdsAreReal(cfg, es[..last]);
      if es[last].Step? {
        LevelsStayReal(s.shared, s.tasks[es[last].task]);
        StepEntersRealLevel(cfg, s.shared, s.tasks[es[last].task], es[last].choice);
      }
    }
  }
}
