// Every run of the server that handles one packet, sweep or tick at a time is a run of
// the interleaved machine.

module Embedding {
  import opened Collections
  import opened GameData
  import opened Locks
  import opened ServerState
  import opened Tasks
  import opened Scheduler
  import opened EmptyLevels
  import opened Handling
  import opened Sequential
  import opened Solo
  import opened Quiescence

  // ----- stepping without looking at the queue -----

  // A run has got to these maps and tasks, with every task between two steps.
  ghost predicate Stands(cfg: Settings, es: seq<Event>, sh: Shared, tasks: map<nat, Code>, n: nat) {
    && Exec(cfg, es).Some? && Exec(cfg, es).value.shared == sh
    && Exec(cfg, es).value.tasks == tasks && Exec(cfg, es).value.paused == tasks.Keys
    && Exec(cfg, es).value.nextTask == n
  }

  // At rest there is nobody to pause.
  lemma RestStands(cfg: Settings, es: seq<Event>)
    requires Exec(cfg, es).Some? && Exec(cfg, es).value.tasks == map[]
    ensures Stands(cfg, es, Exec(cfg, es).value.shared, map[], Exec(cfg, es).value.nextTask)
  {
    RunsAreConsistent(cfg, es);
    assert Exec(cfg, es).value.paused <= Exec(cfg, es).value.tasks.Keys;
  }

  ghost predicate Spares(held: seq<Claim>, claim: Claim) {
    forall h | h in held :: !Excludes(h, claim)
  }

  // No other task has anything that excludes what the task needs.
  ghost predicate Clear(tasks: map<nat, Code>, code: Code) {
    Wanted(code).Some? ==> forall u | u in tasks :: Spares(Held(tasks[u]), Wanted(code).value)
  }

  lemma OwnGuardsSpare(g: Guards, claim: Claim)
    requires g.InOrder() && g.wanted == Some(claim)
    ensures Spares(g.held, claim)
  {
  }

  lemma ClearIsGranted(queue: Queue, stamp: nat, tasks: map<nat, Guards>, t: nat)
    requires LockInv(queue, stamp, tasks) && t in tasks
    requires tasks[t].wanted.Some? ==>
               forall u | u in tasks && u != t ::
                 tasks[u].wanted == None && Spares(tasks[u].held, tasks[t].wanted.value)
    ensures CanRun(queue, tasks, t)
  {
    if tasks[t].wanted.Some? {
      var claim := tasks[t].wanted.value;
      assert tasks[t].Needs(claim);
      assert Queued(queue, t, claim);
      var k :| k in queue && queue[k] == Ticket(t, claim);
      OwnGuardsSpare(tasks[t], claim);
      forall j | j in queue && j < k ensures !Excludes(queue[j].claim, claim) {
        assert tasks[queue[j].task].Needs(queue[j].claim);
        assert queue[j] != queue[k];
      }
      assert Granted(queue, k);
    }
  }

  // The tasks after a step of task t.
  function Moved(others: map<nat, Code>, t: nat, next: Option<Code>): map<nat, Code> {
    if next.Some? then others[t := next.value] else others
  }

  // Task t has asked for its lock, while the others pause.
  ghost predicate Turn(s: Sys, others: map<nat, Code>, t: nat, code: Code) {
    t !in others && s.tasks == others[t := code] && s.paused == others.Keys
  }

  lemma ClearCanRun(s: Sys, others: map<nat, Code>, t: nat, code: Code)
    requires LocksHold(s) && Turn(s, others, t, code) && Clear(others, code)
    ensures Runnable(s, t)
  {
    var guards := GuardMap(s);
    if guards[t].wanted.Some? {
      forall u | u in guards && u != t
        ensures guards[u].wanted == None && Spares(guards[u].held, guards[t].wanted.value)
      {
        assert u in others && guards[u] == Guards(Held(others[u]), None);
      }
    }
    ClearIsGranted(s.queue, s.stamp, guards, t);
  }

  lemma ContinueMoves(s: Sys, others: map<nat, Code>, t: nat, code: Code, after: Shared, next: Option<Code>)
    requires Turn(s, others, t, code)
    ensures var s' := Continue(s, t, after, next);
            && s'.shared == after && s'.nextTask == s.nextTask
            && s'.tasks == Moved(others, t, next) && s'.paused == Moved(others, t, next).Keys
  {
    assert others[t := code] - {t} == others;
  }

  lemma StepMoves(cfg: Settings, s: Sys, others: map<nat, Code>, t: nat, code: Code, ch: Choice)
    requires Turn(s, others, t, code) && !code.SpawnCleanup? && Enabled(cfg, s, Step(t, ch))
    ensures var s', moved := Apply(cfg, s, Step(t, ch)), Moved(others, t, Next(cfg, s.shared, code, ch));
            && s'.shared == After(cfg, s.shared, code, ch) && s'.nextTask == s.nextTask
            && s'.tasks == moved && s'.paused == moved.Keys
  {
    ApplyIsStepped(cfg, s, t, ch);
    ContinueMoves(s, others, t, code, After(cfg, s.shared, code, ch), Next(cfg, s.shared, code, ch));
  }

  lemma SpawnMoves(cfg: Settings, s: Sys, others: map<nat, Code>, t: nat, cont: Cont, ch: Choice)
    requires Turn(s, others, t, SpawnCleanup(cont)) && Enabled(cfg, s, Step(t, ch))
    ensures var s', moved := Apply(cfg, s, Step(t, ch)), Moved(others, t, Resume(cont))[s.nextTask := CleanOpen];
            && s'.shared == s.shared && s'.nextTask == s.nextTask + 1
            && s'.tasks == moved && s'.paused == moved.Keys
  {
    ApplyIsStepped(cfg, s, t, ch);
    ContinueMoves(s, others, t, SpawnCleanup(cont), s.shared, Resume(cont));
  }

  lemma AsksFirst(cfg: Settings, es: seq<Event>, sh: Shared, others: map<nat, Code>, t: nat, code: Code, n: nat)
    requires t !in others && Stands(cfg, es, sh, others[t := code], n)
    ensures Exec(cfg, es + [Ask(t)]).Some?
    ensures var s := Exec(cfg, es + [Ask(t)]).value;
            Turn(s, others, t, code) && s.shared == sh && s.nextTask == n && LocksHold(s)
  {
    OneMoreEvent(cfg, es, Ask(t));
    assert others[t := code].Keys - {t} == others.Keys;
    RunsAreConsistent(cfg, es + [Ask(t)]);
  }

  lemma AskThenStep(cfg: Settings, es: seq<Event>, t: nat, ch: Choice)
    requires Exec(cfg, es + [Ask(t)]).Some? && Enabled(cfg, Exec(cfg, es + [Ask(t)]).value, Step(t, ch))
    ensures Exec(cfg, es + [Ask(t), Step(t, ch)]) == Some(Apply(cfg, Exec(cfg, es + [Ask(t)]).value, Step(t, ch)))
  {
    OneMoreEvent(cfg, es + [Ask(t)], Step(t, ch));
    assert es + [Ask(t)] + [Step(t, ch)] == es + [Ask(t), Step(t, ch)];
  }

  lemma CanAdvance(cfg: Settings, es: seq<Event>, sh: Shared, others: map<nat, Code>, t: nat, code: Code, ch: Choice,
                   n: nat)
    requires t !in others && Stands(cfg, es, sh, others[t := code], n) && Clear(others, code) && Ready(sh, code, ch)
    ensures Exec(cfg, es + [Ask(t)]).Some?
    ensures var s := Exec(cfg, es + [Ask(t)]).value;
            && Turn(s, others, t, code) && s.shared == sh && s.nextTask == n && Enabled(cfg, s, Step(t, ch))
            && Exec(cfg, es + [Ask(t), Step(t, ch)]) == Some(Apply(cfg, s, Step(t, ch)))
  {
    AsksFirst(cfg, es, sh, others, t, code, n);
    ClearCanRun(Exec(cfg, es + [Ask(t)]).value, others, t, code);
    AskThenStep(cfg, es, t, ch);
  }

  // A task asks for its lock, gets it and takes its step.
  lemma Advance(cfg: Settings, es: seq<Event>, sh: Shared, others: map<nat, Code>, t: nat, code: Code, ch: Choice,
                n: nat)
    requires t !in others && Stands(cfg, es, sh, others[t := code], n)
    requires Clear(others, code) && Ready(sh, code, ch) && !code.SpawnCleanup?
    ensures Stands(cfg, es + [Ask(t), Step(t, ch)], After(cfg, sh, code, ch),
                   Moved(others, t, Next(cfg, sh, code, ch)), n)
  {
    CanAdvance(cfg, es, sh, others, t, code, ch, n);
    StepMoves(cfg, Exec(cfg, es + [Ask(t)]).value, others, t, code, ch);
  }

  // A step that spawns a cleanup.
  lemma AdvanceAndSpawn(cfg: Settings, es: seq<Event>, sh: Shared, others: map<nat, Code>, t: nat, cont: Cont,
                        ch: Choice, n: nat)
    requires t !in others && Stands(cfg, es, sh, others[t := SpawnCleanup(cont)], n)
    requires Ready(sh, SpawnCleanup(cont), ch)
    ensures Stands(cfg, es + [Ask(t), Step(t, ch)], sh, Moved(others, t, Resume(cont))[n := CleanOpen], n + 1)
  {
    CanAdvance(cfg, es, sh, others, t, SpawnCleanup(cont), ch, n);
    SpawnMoves(cfg, Exec(cfg, es + [Ask(t)]).value, others, t, cont, ch);
  }

  // ----- cleanups -----

  // The tasks that a cleanup may run beside without waiting.
  ghost predicate LetsClean(others: map<nat, Code>) {
    forall v | v in others :: Held(others[v]) == []
  }

  lemma CleaningIsClear(others: map<nat, Code>, code: Code)
    requires LetsClean(others) && (code.CleanOpen? || code.CleanCheck?)
    ensures Clear(others, code)
  {
  }

  lemma NothingToDrop(sh: Shared)
    requires forall m | m in sh.levels :: sh.levels[m] != map[]
    ensures Clean(sh) == sh
  {
  }

  function Checked(sh: Shared, l: Int32): Shared
    requires l in sh.levels
  {
    if sh.levels[l] == map[] then sh.(levels := sh.levels - {l}) else sh
  }

  lemma CheckedIsClean(sh: Shared, l: Int32)
    requires l in sh.levels
    ensures Clean(Checked(sh, l)) == Clean(sh)
  {
    var a, b := DropEmpty(Checked(sh, l).levels), DropEmpty(sh.levels);
    forall m ensures (m in a <==> m in b) && (m in a && m in b ==> a[m] == b[m]) {
      DropEmptyAt(Checked(sh, l).levels, m);
      DropEmptyAt(sh.levels, m);
    }
    SameLevelMaps(a, b);
  }

  lemma CheckIs(cfg: Settings, sh: Shared, l: Int32, todo: set<Int32>, ch: Choice)
    requires Ready(sh, CleanCheck(l, todo), ch)
    ensures After(cfg, sh, CleanCheck(l, todo), ch) == Checked(sh, l)
    ensures Next(cfg, sh, CleanCheck(l, todo), ch) == CleanNext(todo, ch.pick)
  {
  }

  // Every level that is not to be checked any more has members.
  ghost predicate ToCheck(sh: Shared, todo: set<Int32>) {
    todo <= sh.levels.Keys && forall m | m in sh.levels && m !in todo :: sh.levels[m] != map[]
  }

  lemma OneChecked(sh: Shared, l: Int32, todo: set<Int32>)
    requires l !in todo && ToCheck(sh, {l} + todo)
    ensures ToCheck(Checked(sh, l), todo)
  {
  }

  // Every send of these steps succeeds.
  ghost predicate AllSent(es: seq<Event>) {
    forall i | 0 <= i < |es| :: es[i].Step? ==> es[i].choice.sent
  }

  lemma StepsFirst(es: seq<Event>, first: seq<Event>, rest: seq<Event>)
    requires OnlyWork(first) && OnlyWork(rest)
    ensures es + first + rest == es + (first + rest) && OnlyWork(first + rest)
  {
  }

  lemma TurnThenRest(cfg: Settings, es: seq<Event>, t: nat, ch: Choice, rest: seq<Event>, sh: Shared,
                     tasks: map<nat, Code>, n: nat)
    requires ch.sent && OnlyWork(rest) && AllSent(rest) && Stands(cfg, es + [Ask(t), Step(t, ch)] + rest, sh, tasks, n)
    ensures var steps := [Ask(t), Step(t, ch)] + rest;
            OnlyWork(steps) && AllSent(steps) && Stands(cfg, es + steps, sh, tasks, n)
  {
    assert es + [Ask(t), Step(t, ch)] + rest == es + ([Ask(t), Step(t, ch)] + rest);
  }

  lemma CheckChoice(sh: Shared, l: Int32, todo: set<Int32>) returns (ch: Choice)
    requires l !in todo && ToCheck(sh, {l} + todo)
    ensures ch.sent && PickOk(todo, ch.pick) && Ready(sh, CleanCheck(l, todo), ch)
  {
    ch := SomeChoice(sh, CleanCheck(l, todo));
  }

  // A cleanup checks one level.
  lemma ChecksOne(cfg: Settings, es: seq<Event>, sh: Shared, others: map<nat, Code>, u: nat,
                  l: Int32, todo: set<Int32>, n: nat) returns (ch: Choice)
    requires u !in others && LetsClean(others) && Stands(cfg, es, sh, others[u := CleanCheck(l, todo)], n)
    requires l !in todo && ToCheck(sh, {l} + todo)
    ensures ch.sent && PickOk(todo, ch.pick)
    ensures Stands(cfg, es + [Ask(u), Step(u, ch)], Checked(sh, l), Moved(others, u, CleanNext(todo, ch.pick)), n)
  {
    ch := CheckChoice(sh, l, todo);
    CleaningIsClear(others, CleanCheck(l, todo));
    Advance(cfg, es, sh, others, u, CleanCheck(l, todo), ch, n);
    CheckIs(cfg, sh, l, todo, ch);
  }

  // It then has to check the other levels.
  lemma {:induction false} ChecksOthers(cfg: Settings, es: seq<Event>, sh: Shared, others: map<nat, Code>, u: nat,
                                        todo: set<Int32>, pick: Int32, n: nat) returns (steps: seq<Event>)
    requires u !in others && LetsClean(others) && ToCheck(sh, todo) && PickOk(todo, pick)
    requires Stands(cfg, es, sh, Moved(others, u, CleanNext(todo, pick)), n)
    ensures OnlyWork(steps) && AllSent(steps) && Stands(cfg, es + steps, Clean(sh), others, n)
    decreases |todo|
  {
    if todo == {} {
      NothingToDrop(sh);
      assert es + [] == es && Moved(others, u, CleanNext(todo, pick)) == others;
      steps := [];
    } else {
      var rest := todo - {pick};
      assert {pick} + rest == todo;
      assert Moved(others, u, CleanNext(todo, pick)) == others[u := CleanCheck(pick, rest)];
      var ch := ChecksOne(cfg, es, sh, others, u, pick, rest, n);
      OneChecked(sh, pick, rest);
      CheckedIsClean(sh, pick);
      steps := ChecksOthers(cfg, es + [Ask(u), Step(u, ch)], Checked(sh, pick), others, u, rest, ch.pick, n);
      TurnThenRest(cfg, es, u, ch, steps, Clean(sh), others, n);
      steps := [Ask(u), Step(u, ch)] + steps;
    }
  }

  lemma OpenIs(cfg: Settings, sh: Shared, ch: Choice)
    requires Ready(sh, CleanOpen, ch)
    ensures After(cfg, sh, CleanOpen, ch) == sh && Next(cfg, sh, CleanOpen, ch) == CleanNext(sh.levels.Keys, ch.pick)
    ensures PickOk(sh.levels.Keys, ch.pick)
  {
  }

  lemma CleansUp(cfg: Settings, es: seq<Event>, sh: Shared, others: map<nat, Code>, u: nat, n: nat)
    returns (steps: seq<Event>)
    requires u !in others && LetsClean(others) && Stands(cfg, es, sh, others[u := CleanOpen], n)
    ensures OnlyWork(steps) && AllSent(steps) && Stands(cfg, es + steps, Clean(sh), others, n)
  {
    var ch := SomeChoice(sh, CleanOpen);
    CleaningIsClear(others, CleanOpen);
    Advance(cfg, es, sh, others, u, CleanOpen, ch, n);
    OpenIs(cfg, sh, ch);
    steps := ChecksOthers(cfg, es + [Ask(u), Step(u, ch)], sh, others, u, sh.levels.Keys, ch.pick, n);
    TurnThenRest(cfg, es, u, ch, steps, Clean(sh), others, n);
    steps := [Ask(u), Step(u, ch)] + steps;
  }

  // ----- tasks -----

  lemma NothingHoldsAlone(code: Code)
    ensures Clear(map[], code)
  {
  }

  lemma SpawnerLetsClean(t: nat, cont: Cont)
    ensures LetsClean(Moved(map[], t, Resume(cont)))
  {
  }

  lemma SpawnsAlone(cfg: Settings, es: seq<Event>, sh: Shared, t: nat, cont: Cont, ch: Choice, n: nat)
    requires Stands(cfg, es, sh, map[t := SpawnCleanup(cont)], n) && Ready(sh, SpawnCleanup(cont), ch)
    ensures Stands(cfg, es + [Ask(t), Step(t, ch)], sh, Moved(map[], t, Resume(cont))[n := CleanOpen], n + 1)
  {
    var none: map<nat, Code> := map[];
    assert map[t := SpawnCleanup(cont)] == none[t := SpawnCleanup(cont)];
    NothingHoldsAlone(SpawnCleanup(cont));
    AdvanceAndSpawn(cfg, es, sh, none, t, cont, ch, n);
  }

  // A spawner spawns its cleanup, which runs at once.
  lemma SpawnsAndCleans(cfg: Settings, es: seq<Event>, sh: Shared, t: nat, cont: Cont, ch: Choice, n: nat)
    returns (steps: seq<Event>)
    requires t < n && ch.sent && Stands(cfg, es, sh, map[t := SpawnCleanup(cont)], n)
             && Ready(sh, SpawnCleanup(cont), ch)
    ensures OnlyWork(steps) && AllSent(steps)
    ensures Stands(cfg, es + steps, Clean(sh), Moved(map[], t, Resume(cont)), n + 1)
  {
    SpawnsAlone(cfg, es, sh, t, cont, ch, n);
    SpawnerLetsClean(t, cont);
    var rest := CleansUp(cfg, es + [Ask(t), Step(t, ch)], sh, Moved(map[], t, Resume(cont)), n, n + 1);
    StepsFirst(es, [Ask(t), Step(t, ch)], rest);
    steps := [Ask(t), Step(t, ch)] + rest;
  }

  // One step of a run alone, with the cleanup that it spawns.
  lemma StepsAlone(w: World, es: seq<Event>, sh: Shared, t: nat, code: Code, ch: Choice, n: nat)
    returns (steps: seq<Event>, m: nat)
    requires w.eager && t < n && Stands(w.cfg, es, sh, map[t := code], n) && Ready(sh, code, ch)
    ensures OnlyWork(steps) && t < m
    ensures Stands(w.cfg, es + steps, Cleaned(w, sh, code, ch), Moved(map[], t, Next(w.cfg, sh, code, ch)), m)
  {
    var none: map<nat, Code> := map[];
    assert map[t := code] == none[t := code];
    NothingHoldsAlone(code);
    steps, m := [Ask(t), Step(t, ch)], n;
    if code.SpawnCleanup? {
      SpawnsAlone(w.cfg, es, sh, t, code.cont, ch, n);
      SpawnerLetsClean(t, code.cont);
      var rest := CleansUp(w.cfg, es + steps, sh, Moved(none, t, Resume(code.cont)), n, n + 1);
      StepsFirst(es, steps, rest);
      steps, m := steps + rest, n + 1;
    } else {
      Advance(w.cfg, es, sh, none, t, code, ch, n);
    }
  }

  // The machine can run a task alone as Solo describes.
  lemma {:induction false} RunsAlone(w: World, es: seq<Event>, sh: Shared, t: nat, code: Code, chs: seq<Choice>, n: nat)
    returns (steps: seq<Event>, m: nat)
    requires w.eager && t < n && Stands(w.cfg, es, sh, map[t := code], n) && Alone(w, sh, Some(code), chs).Some?
    ensures OnlyWork(steps) && Stands(w.cfg, es + steps, Alone(w, sh, Some(code), chs).value, map[], m)
    decreases |chs|
  {
    var next := Next(w.cfg, sh, code, chs[0]);
    steps, m := StepsAlone(w, es, sh, t, code, chs[0], n);
    if next.Some? {
      var rest;
      rest, m := RunsAlone(w, es + steps, Cleaned(w, sh, code, chs[0]), t, next.value, chs[1..], m);
      StepsFirst(es, steps, rest);
      steps := steps + rest;
    }
  }

  // ----- runs alone end without empty levels -----

  lemma AloneKeepsCover(w: World, sh: Shared, code: Code, ch: Choice, l: Int32)
    requires w.eager && Ready(sh, code, ch) && (IsEmpty(sh, l) ==> Covers(code, l))
             && IsEmpty(Cleaned(w, sh, code, ch), l)
    ensures Next(w.cfg, sh, code, ch).Some? && Covers(Next(w.cfg, sh, code, ch).value, l)
  {
    if IsEmpty(sh, l) {
      CoverIsPassedOn(w.cfg, sh, code, ch, l);
    } else {
      NewEmptyIsCovered(w.cfg, sh, code, ch, l);
    }
  }

  lemma {:induction false} AloneEndsClean(w: World, sh: Shared, code: Option<Code>, chs: seq<Choice>)
    requires w.eager && Alone(w, sh, code, chs).Some?
    requires forall l | IsEmpty(sh, l) :: code.Some? && Covers(code.value, l)
    ensures Clean(Alone(w, sh, code, chs).value) == Alone(w, sh, code, chs).value
    decreases |chs|
  {
    if code.Some? {
      var after, next := Cleaned(w, sh, code.value, chs[0]), Next(w.cfg, sh, code.value, chs[0]);
      forall l | IsEmpty(after, l) ensures next.Some? && Covers(next.value, l) {
        AloneKeepsCover(w, sh, code.value, chs[0], l);
      }
      AloneEndsClean(w, after, next, chs[1..]);
    } else {
      assert forall m | m in sh.levels :: !IsEmpty(sh, m);
      NothingToDrop(sh);
    }
  }

  // ----- whole runs -----

  predicate Launches(cfg: Settings, e: Event, code: Code) {
    match e
    case Arrive(packet, peer) => Begin(packet, peer) == Some(code)
    case StartSweep => code == SweepLook
    case StartTick => code == TickLook && cfg.tickBased
    case Ask(_) => false
    case Step(_, _) => false
  }

  lemma LaunchStands(cfg: Settings, es: seq<Event>, e: Event, sh: Shared, tasks: map<nat, Code>, code: Code, n: nat)
    requires Stands(cfg, es, sh, tasks, n) && Launches(cfg, e, code)
    ensures Stands(cfg, es + [e], sh, tasks[n := code], n + 1)
  {
    OneMoreEvent(cfg, es, e);
  }

  // A task that has a run alone from here on can be run by the machine.
  lemma LaunchRuns(w: World, es: seq<Event>, sh: Shared, code: Code, chs: seq<Choice>, n: nat)
    returns (steps: seq<Event>, m: nat)
    requires w.eager && Tidy(sh) && Stands(w.cfg, es, sh, map[n := code], n + 1) && Alone(w, sh, Some(code), chs).Some?
    ensures OnlyWork(steps) && Stands(w.cfg, es + steps, Clean(Alone(w, sh, Some(code), chs).value), map[], m)
  {
    steps, m := RunsAlone(w, es, sh, n, code, chs, n + 1);
    AloneEndsClean(w, sh, Some(code), chs);
  }

  lemma PacketHasRun(w: World, sh: Shared, packet: Packet) returns (chs: seq<Choice>)
    requires Tidy(sh)
    ensures Alone(w, sh, Begin(packet, w.peer), chs).Some?
    ensures Clean(Alone(w, sh, Begin(packet, w.peer), chs).value) == Handled(w.cfg, sh, packet, w.peer, w.net, w.now)
  {
    AloneHasRun(w, sh, packet);
    chs :| Alone(w, sh, Begin(packet, w.peer), chs).Some?;
    AloneIsHandled(w, sh, packet, chs);
  }

  lemma LaunchAlone(cfg: Settings, es: seq<Event>, e: Event, sh: Shared, code: Code, n: nat)
    requires Stands(cfg, es, sh, map[], n) && Launches(cfg, e, code)
    ensures Stands(cfg, es + [e], sh, map[n := code], n + 1)
  {
    var none: map<nat, Code> := map[];
    LaunchStands(cfg, es, e, sh, none, code, n);
  }

  lemma EventFirst(es: seq<Event>, e: Event, steps: seq<Event>)
    ensures es + [e] + steps == es + ([e] + steps)
  {
  }

  // A task is launched and runs to its end.
  lemma TaskRuns(w: World, es: seq<Event>, e: Event, sh: Shared, code: Code, chs: seq<Choice>, n: nat)
    returns (more: seq<Event>, m: nat)
    requires w.eager && Tidy(sh) && Stands(w.cfg, es, sh, map[], n) && Alone(w, sh, Some(code), chs).Some?
    requires Launches(w.cfg, e, code)
    ensures Stands(w.cfg, es + more, Clean(Alone(w, sh, Some(code), chs).value), map[], m)
  {
    LaunchAlone(w.cfg, es, e, sh, code, n);
    var steps;
    steps, m := LaunchRuns(w, es + [e], sh, code, chs, n);
    EventFirst(es, e, steps);
    more := [e] + steps;
  }

  lemma PacketRuns(cfg: Settings, es: seq<Event>, sh: Shared, packet: Packet, peer: int, net: Network, now: int, n: nat)
    returns (more: seq<Event>, m: nat)
    requires Tidy(sh) && Stands(cfg, es, sh, map[], n)
    ensures Stands(cfg, es + more, Handled(cfg, sh, packet, peer, net, now), map[], m)
  {
    var w := World(cfg, peer, net, now, true);
    var chs := PacketHasRun(w, sh, packet);
    if Begin(packet, peer).Some? {
      more, m := TaskRuns(w, es, Arrive(packet, peer), sh, Begin(packet, peer).value, chs, n);
    } else {
      OneMoreEvent(cfg, es, Arrive(packet, peer));
      TidyIsClean(sh);
      more, m := [Arrive(packet, peer)], n;
    }
  }

  lemma SweepHasRun(w: World, sh: Shared, order: seq<Int32>) returns (chs: seq<Choice>)
    requires Tidy(sh) && Enumerates(order, DeadClients(w.cfg, sh, w.now))
    ensures Alone(w, sh, Some(SweepLook), chs).Some?
    ensures Clean(Alone(w, sh, Some(SweepLook), chs).value) == ForgottenAll(sh, order)
  {
    var rest := AloneInOrder(w, sh, order, DeadClients(w.cfg, sh, w.now));
    chs := [Any(w, 0)] + rest;
    OneStep(w, sh, SweepLook, Any(w, 0), rest);
    TidyIsClean(sh);
  }

  lemma TickFinishes(w: World, sh: Shared) returns (chs: seq<Choice>)
    ensures Alone(w, sh, Some(TickLook), chs).Some?
  {
    var room := Room(|sh.levels|, |sh.clients|, |MemberIds(sh.levels)|);
    assert HasRoom(sh, TickLook, room);
    chs := AloneFinishes(w, room, sh, TickLook);
  }

  lemma TickHasRun(w: World, sh: Shared) returns (chs: seq<Choice>)
    requires Tidy(sh)
    ensures Alone(w, sh, Some(TickLook), chs).Some?
    ensures Clean(Alone(w, sh, Some(TickLook), chs).value) == Ticked(sh)
  {
    chs := TickFinishes(w, sh);
    AloneIsTicked(w, sh, chs);
    assert Tidy(Ticked(sh));
    TidyIsClean(Ticked(sh));
  }

  lemma InputRuns(cfg: Settings, es: seq<Event>, sh: Shared, input: Input, n: nat) returns (more: seq<Event>, m: nat)
    requires Tidy(sh) && Stands(cfg, es, sh, map[], n) && Possible(cfg, sh, input)
    ensures Stands(cfg, es + more, Outcome(cfg, sh, input), map[], m)
  {
    match input
    case Received(packet, peer, net, now) => more, m := PacketRuns(cfg, es, sh, packet, peer, net, now, n);
    case Sweep(now, order) =>
      var w := World(cfg, 0, (_: int) => true, now, true);
      var chs := SweepHasRun(w, sh, order);
      more, m := TaskRuns(w, es, StartSweep, sh, SweepLook, chs, n);
    case Tick =>
      var w := World(cfg, 0, (_: int) => true, 0, true);
      var chs := TickHasRun(w, sh);
      more, m := TaskRuns(w, es, StartTick, sh, TickLook, chs, n);
  }

  lemma {:induction false} EmbeddedRun(cfg: Settings, inputs: seq<Input>) returns (es: seq<Event>, n: nat)
    requires AllPossible(cfg, inputs)
    ensures Stands(cfg, es, Play(cfg, inputs), map[], n)
  {
    if inputs == [] {
      es, n := [], 0;
    } else {
      var init := inputs[..|inputs| - 1];
      PossibleSoFar(cfg, inputs);
      es, n := EmbeddedRun(cfg, init);
      RunsAreTidy(cfg, init);
      var more;
      more, n := InputRuns(cfg, es, Play(cfg, init), inputs[|inputs| - 1], n);
      es := es + more;
    }
  }

  // Main result: whatever the server can get to by handling one packet, sweep or tick at a
  // time, with every cleanup at once, it can get to with interleaved tasks, all done.
  lemma SequentialIsInterleaved(cfg: Settings, inputs: seq<Input>)
    requires AllPossible(cfg, inputs)
    ensures exists es :: Exec(cfg, es).Some? && Exec(cfg, es).value.shared == Play(cfg, inputs)
                         && Exec(cfg, es).value.tasks == map[]
  {
    var es, n := EmbeddedRun(cfg, inputs);
  }
}
