// Levels partition the players, their sizes add up, and what follows for the level
// list and the tick.

module Counting {
  import opened Collections
  import opened GameData
  import opened ServerState
  import opened Scheduler
  import opened EmptyLevels
  import opened Agreement
  import opened Handling
  import opened Packets
  import opened Sequential

  // Players whose record names a level.
  function Placed(sh: Shared): set<Int32> {
    set c | c in sh.clients && sh.clients[c].levelId != -1
  }

  function TotalSize(order: seq<Int32>, levels: map<Int32, LevelData>): nat
    requires forall l | l in order :: l in levels
  {
    if order == [] then 0
    else TotalSize(order[..|order| - 1], levels) + |levels[order[|order| - 1]]|
  }

  function PlacedIn(sh: Shared, order: seq<Int32>): set<Int32> {
    set c | c in sh.clients && sh.clients[c].levelId in order
  }

  // No one is in two levels, and no one who is gone is in any: malformed packets
  // included.
  lemma LevelsAreDisjoint(cfg: Settings, inputs: seq<Input>, l: Int32, m: Int32)
    requires WellBehaved(false, cfg, inputs)
    requires l in Play(cfg, inputs).levels && m in Play(cfg, inputs).levels && l != m
    ensures var sh := Play(cfg, inputs); sh.levels[l].Keys !! sh.levels[m].Keys && sh.levels[l].Keys <= sh.clients.Keys
  {
    var sh := Play(cfg, inputs);
    GoodRunsAgree(false, cfg, inputs);
    forall c | c in sh.levels[l] ensures c in sh.clients {
      assert Agrees(false, sh, c) && Member(sh, c, l);
    }
    forall c | c in sh.levels[l] ensures c !in sh.levels[m] {
      assert Agrees(false, sh, c) && Member(sh, c, l);
      assert !Member(sh, c, m);
    }
  }

  lemma LevelHoldsItsPlayers(sh: Shared, l: Int32)
    requires AllAgree(true, sh) && Tidy(sh) && l in sh.levels
    ensures sh.levels[l].Keys == PlacedIn(sh, [l])
  {
    forall c ensures c in sh.levels[l] <==> c in PlacedIn(sh, [l]) {
      assert Agrees(true, sh, c);
      assert Member(sh, c, l) <==> c in sh.levels[l];
    }
  }

  lemma OneMoreLevel(order: seq<Int32>, l: Int32, levels: map<Int32, LevelData>)
    requires l in levels && forall m | m in order :: m in levels
    ensures forall m | m in order + [l] :: m in levels
    ensures TotalSize(order + [l], levels) == TotalSize(order, levels) + |levels[l]|
  {
    assert (order + [l])[..|order|] == order;
  }

  lemma OneMorePlaced(sh: Shared, order: seq<Int32>, l: Int32)
    requires l !in order
    ensures |PlacedIn(sh, order + [l])| == |PlacedIn(sh, order)| + |PlacedIn(sh, [l])|
  {
    var a, b := PlacedIn(sh, order), PlacedIn(sh, [l]);
    assert PlacedIn(sh, order + [l]) == a + b;
    assert a !! b;
  }

  lemma {:induction false} SizesAddUp(sh: Shared, order: seq<Int32>)
    requires AllAgree(true, sh) && Tidy(sh)
    requires forall l | l in order :: l in sh.levels
    requires forall i, j | 0 <= i < j < |order| :: order[i] != order[j]
    ensures TotalSize(order, sh.levels) == |PlacedIn(sh, order)|
  {
    if order == [] {
      assert PlacedIn(sh, order) == {};
    } else {
      var init, l := order[..|order| - 1], order[|order| - 1];
      assert order == init + [l];
      SizesAddUp(sh, init);
      OneMoreLevel(init, l, sh.levels);
      OneMorePlaced(sh, init, l);
      LevelHoldsItsPlayers(sh, l);
      assert |sh.levels[l]| == |sh.levels[l].Keys|;
    }
  }

  // The sizes of all levels add up to the number of players whose record names one.
  lemma Conservation(sh: Shared, order: seq<Int32>)
    requires AllAgree(true, sh) && Tidy(sh) && Enumerates(order, sh.levels.Keys)
    ensures forall l | l in order :: l in sh.levels
    ensures TotalSize(order, sh.levels) == |Placed(sh)|
  {
    SizesAddUp(sh, order);
    forall c ensures c in Placed(sh) <==> c in PlacedIn(sh, order) {
      assert Agrees(true, sh, c);
      if c in Placed(sh) { assert Member(sh, c, Named(sh, c)); }
    }
    assert Placed(sh) == PlacedIn(sh, order);
  }

  lemma RestAgrees(cfg: Settings, es: seq<Event>)
    requires !cfg.tickBased && Disciplined(cfg, true, es)
    ensures Exec(cfg, es).Some?
    ensures var s := Exec(cfg, es).value; s.tasks == map[] ==> AllAgree(true, s.shared) && Tidy(s.shared)
  {
    RunsAreLocated(cfg, true, es, 0);
    var s := Exec(cfg, es).value;
    if s.tasks == map[] {
      forall c ensures Agrees(true, s.shared, c) { RunsAreLocated(cfg, true, es, c); }
      LevelIdsAreReal(cfg, es);
      forall l | l in s.shared.levels ensures s.shared.levels[l] != map[] {
        NoEmptyLevelAtRest(cfg, es, l);
        assert !IsEmpty(s.shared, l);
      }
    }
  }

  // Main result: so they do whenever disciplined interleaved tasks have come to rest.
  lemma ConservationAtRest(cfg: Settings, es: seq<Event>, order: seq<Int32>)
    requires !cfg.tickBased && Disciplined(cfg, true, es)
    requires Exec(cfg, es).Some? && Exec(cfg, es).value.tasks == map[]
    requires Enumerates(order, Exec(cfg, es).value.shared.levels.Keys)
    ensures var sh := Exec(cfg, es).value.shared;
            (forall l | l in order :: l in sh.levels) && TotalSize(order, sh.levels) == |Placed(sh)|
  {
    RestAgrees(cfg, es);
    Conservation(Exec(cfg, es).value.shared, order);
  }

  // No tick finds a player on a level that does not exist.
  lemma TickRepairsNobody(cfg: Settings, inputs: seq<Input>)
    requires WellBehaved(true, cfg, inputs)
    ensures Strays(Play(cfg, inputs)) == {} && Ticked(Play(cfg, inputs)) == Play(cfg, inputs)
  {
    var sh := Play(cfg, inputs);
    GoodRunsAgree(true, cfg, inputs);
    forall c ensures c !in Strays(sh) {
      assert Agrees(true, sh, c);
      if c in sh.clients && sh.clients[c].levelId != -1 { assert Member(sh, c, sh.clients[c].levelId); }
    }
    assert Repaired(sh.clients, {}) == sh.clients;
  }

  // From any state, a tick clears exactly the records that name a level that does not exist.
  lemma TickClearsStrays(sh: Shared, c: Int32)
    ensures Ticked(sh).levels == sh.levels && Ticked(sh).clients.Keys == sh.clients.Keys
    ensures Named(Ticked(sh), c) == if Named(sh, c) in sh.levels then Named(sh, c) else -1
  {
  }

  // ----- the level list a client receives -----

  function TotalCount(wires: seq<Int32>, counts: map<Int32, int>): int
    requires forall w | w in wires :: w in counts
  {
    if wires == [] then 0 else TotalCount(wires[..|wires| - 1], counts) + counts[wires[|wires| - 1]]
  }

  function ServerOrder(wires: seq<Int32>): (r: seq<Int32>)
    ensures |r| == |wires| && forall i | 0 <= i < |r| :: r[i] == ToServerLevel(wires[i])
  {
    seq(|wires|, i requires 0 <= i < |wires| => ToServerLevel(wires[i]))
  }

  lemma ServerOrderOneMore(wires: seq<Int32>)
    requires wires != []
    ensures ServerOrder(wires) == ServerOrder(wires[..|wires| - 1]) + [ToServerLevel(wires[|wires| - 1])]
  {
  }

  lemma {:induction false} CountsAreSizes(wires: seq<Int32>, levels: map<Int32, LevelData>, counts: map<Int32, int>)
    requires forall w | w in wires ::
                w in counts && ToServerLevel(w) in levels && counts[w] == |levels[ToServerLevel(w)]|
    ensures forall l | l in ServerOrder(wires) :: l in levels
    ensures TotalCount(wires, counts) == TotalSize(ServerOrder(wires), levels)
  {
    if wires != [] {
      var init, w := wires[..|wires| - 1], wires[|wires| - 1];
      CountsAreSizes(init, levels, counts);
      ServerOrderOneMore(wires);
      assert w in wires;
      OneMoreLevel(ServerOrder(init), ToServerLevel(w), levels);
    }
  }

  lemma ServerOrderEnumerates(wires: seq<Int32>, levels: map<Int32, LevelData>)
    requires AreReal(levels.Keys) && Enumerates(wires, WireList(levels).Keys)
    ensures Enumerates(ServerOrder(wires), levels.Keys)
  {
    var order := ServerOrder(wires);
    WireListFacts(levels);
    forall i, j | 0 <= i < j < |order| ensures order[i] != order[j] {
      assert wires[i] in wires && wires[j] in wires;
    }
    forall l ensures l in order <==> l in levels.Keys {
      if l in order {
        var i :| 0 <= i < |order| && order[i] == l;
        assert wires[i] in wires;
      }
      if l in levels {
        WireLevelsAreDistinct(l, l);
        var i :| 0 <= i < |wires| && wires[i] == ToWireLevel(l);
        assert order[i] == l;
      }
    }
  }

  // In every run, malformed packets or not, the decoded list is the server's level map
  // under the ids the levels have on the wire.
  lemma LevelListInAnyRun(cfg: Settings, inputs: seq<Input>, order: seq<Int32>, own: Option<Int32>)
    requires var levels := Play(cfg, inputs).levels;
             && Enumerates(order, levels.Keys) && |levels| < 0x1_0000_0000
             && (forall l | l in levels :: |levels[l]| < 0x1_0000)
    ensures AreReal(Play(cfg, inputs).levels.Keys)
    ensures forall i | 0 <= i < |order| :: order[i] in Play(cfg, inputs).levels
    ensures var levels := Play(cfg, inputs).levels;
            ReadPacket(LevelListBytes(order, levels), own) == Some(LevelListReceived(WireList(levels)))
  {
    RunsAreTidy(cfg, inputs);
    LevelListIsFaithful(order, Play(cfg, inputs).levels, own);
  }

  // Main result: in every well-behaved run, the list that a client decodes has one
  // entry for every level, and its counts add up to the number of players in levels.
  lemma LevelListAddsUp(cfg: Settings, inputs: seq<Input>, order: seq<Int32>, own: Option<Int32>, wires: seq<Int32>)
    requires WellBehaved(true, cfg, inputs)
    requires var levels := Play(cfg, inputs).levels;
             && Enumerates(order, levels.Keys) && |levels| < 0x1_0000_0000
             && (forall l | l in levels :: |levels[l]| < 0x1_0000)
    ensures forall i | 0 <= i < |order| :: order[i] in Play(cfg, inputs).levels
    ensures var received := ReadPacket(LevelListBytes(order, Play(cfg, inputs).levels), own);
            && received.Some? && received.value.LevelListReceived?
            && |received.value.levels| == |Play(cfg, inputs).levels|
            && (Enumerates(wires, received.value.levels.Keys) ==>
                 (forall w | w in wires :: w in received.value.levels)
                 && TotalCount(wires, received.value.levels) == |Placed(Play(cfg, inputs))|)
  {
    var sh := Play(cfg, inputs);
    GoodRunsAgree(true, cfg, inputs);
    LevelListIsFaithful(order, sh.levels, own);
    WireListFacts(sh.levels);
    if Enumerates(wires, WireList(sh.levels).Keys) {
      CountsAreSizes(wires, sh.levels, WireList(sh.levels));
      ServerOrderEnumerates(wires, sh.levels);
      Conservation(sh, ServerOrder(wires));
    }
  }
}
