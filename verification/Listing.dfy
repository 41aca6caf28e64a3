// What a level list says when its task was interleaved with others.

module Listing {
  import opened GameData
  import opened Locks
  import opened ServerState
  import opened Tasks
  import opened Scheduler
  import opened Access

  function CountsOf(code: Code): map<Int32, nat> {
    if code.ListCount? || code.ListSend? then code.counts else map[]
  }

  // The levels that a list has counted or has still to count are those that exist.
  ghost predicate ListsAll(sh: Shared, code: Code) {
    && (code.ListCount? ==> code.counts.Keys + {code.level} + code.todo == sh.levels.Keys)
    && (code.ListSend? ==> code.counts.Keys == sh.levels.Keys)
  }

  lemma WriterIsGranted(s: Sys, t: nat)
    requires LocksHold(s) && Runnable(s, t)
    requires LEVELS_WRITE in Held(s.tasks[t]) || Wanted(s.tasks[t]) == Some(LEVELS_WRITE)
    ensures HasGrant(s.queue, t, LEVELS_WRITE)
  {
    if LEVELS_WRITE in Held(s.tasks[t]) {
      HeldIsGranted(s.queue, s.stamp, GuardMap(s), t, LEVELS_WRITE);
    }
  }

  // While a task has a guard of the level map, no other task adds or removes a level.
  lemma KeysStay(cfg: Settings, s: Sys, t: nat, ch: Choice, u: nat)
    requires LocksHold(s) && Enabled(cfg, s, Step(t, ch)) && u in s.tasks && u != t
    requires LEVELS_READ in Held(s.tasks[u])
    ensures LevelsAfter(s.shared, s.tasks[t]).Keys == s.shared.levels.Keys
  {
    if LevelsAfter(s.shared, s.tasks[t]).Keys != s.shared.levels.Keys {
      KeysAreGuarded(s.shared, s.tasks[t]);
      WriterIsGranted(s, t);
      HeldIsGranted(s.queue, s.stamp, GuardMap(s), u, LEVELS_READ);
      MutualExclusion(s.queue, t, LEVELS_WRITE, u, LEVELS_READ);
      assert false;
    }
  }

  lemma ListNextListsAll(sh: Shared, c: Int32, todo: set<Int32>, counts: map<Int32, nat>, pick: Int32)
    requires counts.Keys + todo == sh.levels.Keys && PickOk(todo, pick)
    ensures ListsAll(sh, ListNext(c, todo, counts, pick))
  {
    if todo == {} {
      assert counts.Keys + todo == counts.Keys;
    } else {
      assert counts.Keys + {pick} + (todo - {pick}) == counts.Keys + todo;
    }
  }

  lemma OnlyListsList(cfg: Settings, sh: Shared, code: Code, ch: Choice)
    requires Ready(sh, code, ch) && !code.ListOpen? && !code.ListCount?
    ensures var next := Next(cfg, sh, code, ch); next.Some? ==> !next.value.ListCount? && !next.value.ListSend?
  {
  }

  lemma CountingLeavesLevels(cfg: Settings, sh: Shared, code: Code, ch: Choice)
    requires Ready(sh, code, ch) && (code.ListOpen? || code.ListCount?)
    ensures After(cfg, sh, code, ch).levels == sh.levels
  {
  }

  lemma CountListsAll(cfg: Settings, sh: Shared, code: Code, ch: Choice)
    requires Ready(sh, code, ch) && ListsAll(sh, code) && code.ListCount?
    ensures var next := Next(cfg, sh, code, ch); next.Some? ==> ListsAll(sh, next.value)
  {
    var counts := code.counts[code.level := |sh.levels[code.level]|];
    assert counts.Keys + code.todo == code.counts.Keys + {code.level} + code.todo;
    ListNextListsAll(sh, code.client, code.todo, counts, ch.pick);
  }

  lemma SameLevelsListAll(a: Shared, b: Shared, code: Code)
    requires a.levels == b.levels && ListsAll(a, code)
    ensures ListsAll(b, code)
  {
  }

  lemma StepListsAll(cfg: Settings, sh: Shared, code: Code, ch: Choice)
    requires Ready(sh, code, ch) && ListsAll(sh, code)
    ensures var next := Next(cfg, sh, code, ch); next.Some? ==> ListsAll(After(cfg, sh, code, ch), next.value)
  {
    if code.ListOpen? || code.ListCount? {
      CountingLeavesLevels(cfg, sh, code, ch);
      if code.ListOpen? {
        ListNextListsAll(sh, code.client, sh.levels.Keys, map[], ch.pick);
      } else {
        CountListsAll(cfg, sh, code, ch);
      }
      var next := Next(cfg, sh, code, ch);
      if next.Some? { SameLevelsListAll(sh, After(cfg, sh, code, ch), next.value); }
    } else {
      OnlyListsList(cfg, sh, code, ch);
    }
  }

  lemma OthersListAll(cfg: Settings, s: Sys, t: nat, ch: Choice, u: nat)
    requires LocksHold(s) && Enabled(cfg, s, Step(t, ch)) && u in s.tasks && u != t
    requires ListsAll(s.shared, s.tasks[u])
    ensures ListsAll(After(cfg, s.shared, s.tasks[t], ch), s.tasks[u])
  {
    if s.tasks[u].ListCount? || s.tasks[u].ListSend? { KeysStay(cfg, s, t, ch, u); }
  }

  // Task t was at level l when the level had n members, and took its step.
  ghost predicate ReadAt(cfg: Settings, es: seq<Event>, i: nat, t: nat, l: Int32, n: nat)
    requires i < |es|
  {
    && es[i].Step? && es[i].task == t && Exec(cfg, es[..i]).Some?
    && var s := Exec(cfg, es[..i]).value;
       && t in s.tasks && s.tasks[t].ListCount? && s.tasks[t].level == l
       && l in s.shared.levels && |s.shared.levels[l]| == n
  }

  ghost predicate WasRead(cfg: Settings, es: seq<Event>, t: nat, l: Int32, n: nat) {
    exists i: nat | i < |es| :: ReadAt(cfg, es, i, t, l, n)
  }

  ghost predicate AllRead(cfg: Settings, es: seq<Event>, t: nat, counts: map<Int32, nat>) {
    forall l | l in counts :: WasRead(cfg, es, t, l, counts[l])
  }

  lemma ReadBefore(cfg: Settings, es: seq<Event>, e: Event, i: nat, t: nat, l: Int32, n: nat)
    requires i < |es| && ReadAt(cfg, es, i, t, l, n)
    ensures ReadAt(cfg, es + [e], i, t, l, n)
  {
    assert (es + [e])[..i] == es[..i];
  }

  lemma StillRead(cfg: Settings, es: seq<Event>, e: Event, t: nat, counts: map<Int32, nat>)
    requires AllRead(cfg, es, t, counts)
    ensures AllRead(cfg, es + [e], t, counts)
  {
    forall l | l in counts ensures WasRead(cfg, es + [e], t, l, counts[l]) {
      assert WasRead(cfg, es, t, l, counts[l]);
      var i: nat :| i < |es| && ReadAt(cfg, es, i, t, l, counts[l]);
      ReadBefore(cfg, es, e, i, t, l, counts[l]);
    }
  }

  lemma OneMoreRead(cfg: Settings, es: seq<Event>, t: nat, counts: map<Int32, nat>, l: Int32, n: nat)
    requires AllRead(cfg, es, t, counts) && WasRead(cfg, es, t, l, n)
    ensures AllRead(cfg, es, t, counts[l := n])
  {
  }

  lemma LastIsRead(cfg: Settings, es: seq<Event>, ch: Choice, t: nat, l: Int32, n: nat)
    requires Exec(cfg, es).Some?
    requires var s := Exec(cfg, es).value;
             && t in s.tasks && s.tasks[t].ListCount? && s.tasks[t].level == l
             && l in s.shared.levels && |s.shared.levels[l]| == n
    ensures WasRead(cfg, es + [Step(t, ch)], t, l, n)
  {
    assert (es + [Step(t, ch)])[..|es|] == es;
    assert ReadAt(cfg, es + [Step(t, ch)], |es|, t, l, n);
  }

  lemma CountsAfter(cfg: Settings, sh: Shared, code: Code, ch: Choice)
    requires Ready(sh, code, ch)
    ensures var next := Next(cfg, sh, code, ch);
            next.Some? ==>
              CountsOf(next.value) == if code.ListCount? then code.counts[code.level := |sh.levels[code.level]|]
                                      else map[]
  {
    if !code.ListOpen? && !code.ListCount? { OnlyListsList(cfg, sh, code, ch); }
  }

  // The task has read what it counted, and goes on to count what there is.
  ghost predicate Lists(cfg: Settings, es: seq<Event>, s: Sys, t: nat)
    requires t in s.tasks
  {
    ListsAll(s.shared, s.tasks[t]) && AllRead(cfg, es, t, CountsOf(s.tasks[t]))
  }

  lemma OwnStepLists(cfg: Settings, es: seq<Event>, t: nat, ch: Choice)
    requires Exec(cfg, es).Some? && Enabled(cfg, Exec(cfg, es).value, Step(t, ch))
    requires Lists(cfg, es, Exec(cfg, es).value, t)
    ensures var s := Exec(cfg, es).value;
            var next := Next(cfg, s.shared, s.tasks[t], ch);
            next.Some? ==> ListsAll(After(cfg, s.shared, s.tasks[t], ch), next.value)
                           && AllRead(cfg, es + [Step(t, ch)], t, CountsOf(next.value))
  {
    var s := Exec(cfg, es).value;
    var code := s.tasks[t];
    StepListsAll(cfg, s.shared, code, ch);
    CountsAfter(cfg, s.shared, code, ch);
    if code.ListCount? {
      StillRead(cfg, es, Step(t, ch), t, code.counts);
      LastIsRead(cfg, es, ch, t, code.level, |s.shared.levels[code.level]|);
      OneMoreRead(cfg, es + [Step(t, ch)], t, code.counts, code.level, |s.shared.levels[code.level]|);
    }
  }

  lemma OtherStepLists(cfg: Settings, es: seq<Event>, t: nat, ch: Choice, u: nat)
    requires Exec(cfg, es).Some? && Enabled(cfg, Exec(cfg, es).value, Step(t, ch))
    requires var s := Exec(cfg, es).value; LocksHold(s) && u in s.tasks && u != t && Lists(cfg, es, s, u)
    ensures var s := Exec(cfg, es).value;
            ListsAll(After(cfg, s.shared, s.tasks[t], ch), s.tasks[u])
            && AllRead(cfg, es + [Step(t, ch)], u, CountsOf(s.tasks[u]))
  {
    OthersListAll(cfg, Exec(cfg, es).value, t, ch, u);
    StillRead(cfg, es, Step(t, ch), u, CountsOf(Exec(cfg, es).value.tasks[u]));
  }

  lemma StepLists(cfg: Settings, es: seq<Event>, t: nat, ch: Choice, u: nat)
    requires Exec(cfg, es).Some? && Enabled(cfg, Exec(cfg, es).value, Step(t, ch))
    requires var s := Exec(cfg, es).value;
             LocksHold(s) && Lists(cfg, es, s, t) && (u in s.tasks ==> Lists(cfg, es, s, u))
    requires u in Apply(cfg, Exec(cfg, es).value, Step(t, ch)).tasks
    ensures Lists(cfg, es + [Step(t, ch)], Apply(cfg, Exec(cfg, es).value, Step(t, ch)), u)
  {
    var s := Exec(cfg, es).value;
    StepMovesTable(cfg, s, t, ch);
    StepShares(cfg, s, t, ch);
    if u == t {
      OwnStepLists(cfg, es, t, ch);
    } else if u in s.tasks {
      OtherStepLists(cfg, es, t, ch, u);
    }
  }

  lemma NewPacketListsNothing(packet: Packet, peer: int)
    ensures var code := Begin(packet, peer); code.Some? ==> !code.value.ListCount? && !code.value.ListSend?
  {
  }

  lemma LaunchLists(cfg: Settings, es: seq<Event>, e: Event, u: nat)
    requires Exec(cfg, es).Some? && Enabled(cfg, Exec(cfg, es).value, e) && !e.Step?
    requires var s := Exec(cfg, es).value; u in s.tasks ==> Lists(cfg, es, s, u)
    requires u in Apply(cfg, Exec(cfg, es).value, e).tasks
    ensures Lists(cfg, es + [e], Apply(cfg, Exec(cfg, es).value, e), u)
  {
    var s := Exec(cfg, es).value;
    if e.Arrive? { NewPacketListsNothing(e.packet, e.peer); }
    if u in s.tasks && Apply(cfg, s, e).tasks[u] == s.tasks[u] { StillRead(cfg, es, e, u, CountsOf(s.tasks[u])); }
  }

  // Main result: in every interleaving, the list that is about to be sent has an entry for exactly the
  // levels that exist, and each entry is the size its level had when the list's task read it.
  lemma {:induction false} ListIsTrue(cfg: Settings, es: seq<Event>, u: nat)
    requires Exec(cfg, es).Some? && u in Exec(cfg, es).value.tasks
    ensures Lists(cfg, es, Exec(cfg, es).value, u)
  {
    if es != [] {
      var init, e := es[..|es| - 1], es[|es| - 1];
      assert es == init + [e];
      RunsAreConsistent(cfg, init);
      if u in Exec(cfg, init).value.tasks { ListIsTrue(cfg, init, u); }
      if e.Step? {
        ListIsTrue(cfg, init, e.task);
        StepLists(cfg, init, e.task, e.choice, u);
      } else {
        LaunchLists(cfg, init, e, u);
      }
    }
  }

  lemma ListSent(cfg: Settings, es: seq<Event>, u: nat)
    requires Exec(cfg, es).Some? && u in Exec(cfg, es).value.tasks && Exec(cfg, es).value.tasks[u].ListSend?
    ensures var s := Exec(cfg, es).value;
            && s.tasks[u].counts.Keys == s.shared.levels.Keys
            && forall l | l in s.tasks[u].counts :: WasRead(cfg, es, u, l, s.tasks[u].counts[l])
  {
    ListIsTrue(cfg, es, u);
  }
}
