// What a level stores for a client while tasks interleave.

module Writers {
  import opened GameData
  import opened ServerState
  import opened Tasks
  import opened Scheduler
  import opened Agreement
  import opened Registers

  // What leaving a code point writes as the record of client c.
  function Wrote(code: Code, c: Int32): Option<ServerPlayer> {
    match code
    case EnterInsert(d, _) => if d == c then Some(EmptyPlayer) else None
    case UpdateStore(d, _, data) => if d == c then Some(data) else None
    case _ => None
  }

  ghost function WroteLast(before: Option<Sys>, e: Event, c: Int32): Option<ServerPlayer> {
    if before.Some? && e.Step? && e.task in before.value.tasks then Wrote(before.value.tasks[e.task], c) else None
  }

  // The last of those writes in a run.
  ghost function Latest(cfg: Settings, es: seq<Event>, c: Int32): ServerPlayer {
    if es == [] then EmptyPlayer
    else
      var last := |es| - 1;
      var wrote := WroteLast(Exec(cfg, es[..last]), es[last], c);
      if wrote.Some? then wrote.value else Latest(cfg, es[..last], c)
  }

  lemma InsertStores(sh: Shared, l: Int32, d: Int32, data: ServerPlayer, c: Int32, p: ServerPlayer)
    requires l in sh.levels
    requires if d == c then p == data && forall m :: Member(sh, c, m) ==> m == l else Stores(sh, c, p)
    ensures Stores(sh.(levels := sh.levels[l := Put(sh.levels[l], d, data)]), c, p)
  {
    var after := sh.(levels := sh.levels[l := Put(sh.levels[l], d, data)]);
    forall m | Member(after, c, m) ensures after.levels[m][c] == p {
      if !(d == c && m == l) { assert Member(sh, c, m); }
    }
  }

  lemma OthersKeepData(sh: Shared, code: Code, c: Int32, m: Int32)
    requires Needs(code) <= sh.levels.Keys && !code.EnterInsert? && !code.UpdateStore?
    requires Member(sh, c, m) && Member(sh.(levels := LevelsAfter(sh, code)), c, m)
    ensures LevelsAfter(sh, code)[m][c] == sh.levels[m][c]
  {
  }

  // Only entering a level and storing data write a record.
  lemma OthersStore(sh: Shared, code: Code, c: Int32, p: ServerPlayer)
    requires Needs(code) <= sh.levels.Keys && !code.EnterInsert? && !code.UpdateStore? && Stores(sh, c, p)
    ensures Stores(sh.(levels := LevelsAfter(sh, code)), c, p)
  {
    forall m | Member(sh.(levels := LevelsAfter(sh, code)), c, m) ensures LevelsAfter(sh, code)[m][c] == p {
      LevelMembersAfter(sh, code, c, m);
      OthersKeepData(sh, code, c, m);
    }
  }

  lemma StepStores(sh: Shared, code: Code, c: Int32, p: ServerPlayer)
    requires Needs(code) <= sh.levels.Keys
    requires Subject(code) == Some(c) ==> Where(false, sh, c, code)
    requires if Wrote(code, c).Some? then p == Wrote(code, c).value else Stores(sh, c, p)
    ensures Stores(sh.(levels := LevelsAfter(sh, code)), c, p)
  {
    if code.EnterInsert? {
      InsertStores(sh, code.level, code.client, EmptyPlayer, c, p);
    } else if code.UpdateStore? {
      InsertStores(sh, code.level, code.client, code.player, c, p);
    } else {
      OthersStore(sh, code, c, p);
    }
  }

  lemma StepWrites(cfg: Settings, s: Sys, t: nat, ch: Choice, c: Int32, p: ServerPlayer)
    requires Enabled(cfg, s, Step(t, ch)) && Located(false, s, c)
    requires var wrote := Wrote(s.tasks[t], c); if wrote.Some? then p == wrote.value else Stores(s.shared, c, p)
    ensures Stores(Apply(cfg, s, Step(t, ch)).shared, c, p)
  {
    assert MovesClient(c)(s.tasks[t]) ==> Expects(false, s.shared, c)(s.tasks[t]);
    StepStores(s.shared, s.tasks[t], c, p);
    SameLevelsStore(s.shared.(levels := LevelsAfter(s.shared, s.tasks[t])), After(cfg, s.shared, s.tasks[t], ch), c, p);
    StepShares(cfg, s, t, ch);
  }

  lemma LaunchWritesNothing(cfg: Settings, s: Sys, e: Event)
    requires Enabled(cfg, s, e) && !e.Step?
    ensures Apply(cfg, s, e).shared == s.shared
  {
  }

  // Main result: in every interleaving with one mover for each client and delivered exits,
  // whatever level c is found in stores what c's tasks wrote last: the empty record when
  // it entered, or the data stored since.
  lemma {:induction false} LatestIsStored(cfg: Settings, es: seq<Event>, c: Int32)
    requires !cfg.tickBased && Disciplined(cfg, false, es)
    ensures Exec(cfg, es).Some? && Stores(Exec(cfg, es).value.shared, c, Latest(cfg, es, c))
  {
    if es != [] {
      var last := |es| - 1;
      LatestIsStored(cfg, es[..last], c);
      RunsAreLocated(cfg, false, es[..last], c);
      if es[last].Step? {
        StepWrites(cfg, Exec(cfg, es[..last]).value, es[last].task, es[last].choice, c, Latest(cfg, es, c));
      } else {
        LaunchWritesNothing(cfg, Exec(cfg, es[..last]).value, es[last]);
      }
    }
  }

  lemma PayloadIsLevel(s: Sys, t: nat, c: Int32)
    requires Consistent(s) && t in s.tasks && s.tasks[t].SnapSend?
    ensures Sound(s.shared, s.tasks[t]) && (c in s.tasks[t].payload <==> Member(s.shared, c, s.tasks[t].level))
  {
  }

  lemma PayloadIsStored(sh: Shared, code: Code, c: Int32, p: ServerPlayer)
    requires code.SnapSend? && Sound(sh, code) && c in code.payload && Stores(sh, c, p)
    ensures code.payload[c] == p
  {
    assert Member(sh, c, code.level);
  }

  // Main result: when a reply with a level's data is sent, it carries for each client on the
  // level what that client's tasks wrote last.
  lemma SnapshotShowsLatest(cfg: Settings, es: seq<Event>, t: nat, c: Int32)
    requires !cfg.tickBased && Disciplined(cfg, false, es)
    requires Exec(cfg, es).Some? && t in Exec(cfg, es).value.tasks && Exec(cfg, es).value.tasks[t].SnapSend?
    ensures var sh, code := Exec(cfg, es).value.shared, Exec(cfg, es).value.tasks[t];
            && (c in code.payload <==> Member(sh, c, code.level))
            && (c in code.payload ==> code.payload[c] == Latest(cfg, es, c))
  {
    var s := Exec(cfg, es).value;
    RunsAreConsistent(cfg, es);
    PayloadIsLevel(s, t, c);
    LatestIsStored(cfg, es, c);
    if c in s.tasks[t].payload { PayloadIsStored(s.shared, s.tasks[t], c, Latest(cfg, es, c)); }
  }
}
