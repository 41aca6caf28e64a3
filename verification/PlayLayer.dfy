// The level the client shows: its own record of who is there, replayed from the
// corrector's event lists, and the chat lists that survive a restart.

module PlayLayer {
  import opened Collections
  import opened GameData
  import opened Corrector
  import opened IdLists

  // What isUserBlocked looks at.
  datatype ChatRules = ChatRules(ownId: Int32, blacklist: set<Int32>, whitelist: set<Int32>, friends: set<Int32>,
                                 whitelistOnly: bool)

  predicate IsBlocked(r: ChatRules, p: Int32) {
    if p == r.ownId then false
    else if p in r.blacklist then true
    else if p in r.whitelist then false
    else if p in r.friends then false
    else r.whitelistOnly
  }

  datatype ChatAction = Block(id: Int32) | Unblock(id: Int32)

  function Applied(r: ChatRules, a: ChatAction): ChatRules {
    match a
    case Block(p) => r.(whitelist := r.whitelist - {p}, blacklist := r.blacklist + {p})
    case Unblock(p) => r.(blacklist := r.blacklist - {p}, whitelist := r.whitelist + {p})
  }

  function Replayed(players: set<Int32>, gone: set<Int32>, joined: set<Int32>): set<Int32> {
    players - gone + joined
  }

  class PlayLayer {
    // Keys of m_players and of m_playerProgresses; the nodes they hold are not modelled.
    var players: set<Int32>
    var progresses: set<Int32>

    var chatBlacklist: set<Int32>
    var chatWhitelist: set<Int32>
    var savedBlacklist: string
    var savedWhitelist: string
    const ownId: Int32
    const friends: set<Int32>
    const whitelistOnly: bool

    ghost predicate Valid()
      reads this
    {
      players == progresses
    }

    // The saved strings read back as the lists.
    ghost predicate Saved()
      reads this
    {
      Parsed(savedBlacklist) == chatBlacklist && Parsed(savedWhitelist) == chatWhitelist
    }

    function Rules(): ChatRules
      reads this
    {
      ChatRules(ownId, chatBlacklist, chatWhitelist, friends, whitelistOnly)
    }

    constructor (savedBlacklist: string, savedWhitelist: string, ownId: Int32, friends: set<Int32>, whitelistOnly: bool)
      ensures Valid() && players == {}
      ensures Rules() == ChatRules(ownId, Parsed(savedBlacklist), Parsed(savedWhitelist), friends, whitelistOnly)
      ensures Saved() && this.savedBlacklist == savedBlacklist && this.savedWhitelist == savedWhitelist
    {
      players, progresses := {}, {};
      this.ownId, this.friends, this.whitelistOnly := ownId, friends, whitelistOnly;
      this.savedBlacklist, this.savedWhitelist := savedBlacklist, savedWhitelist;
      new;
      chatBlacklist := ParseIdList(savedBlacklist);
      chatWhitelist := ParseIdList(savedWhitelist);
    }

    // Both lookups throw when the id is missing.
    method RemovePlayer(playerId: Int32)
      requires playerId in players && playerId in progresses
      modifies this`players, this`progresses
      ensures players == old(players) - {playerId} && progresses == old(progresses) - {playerId}
    {
      players := players - {playerId};
      progresses := progresses - {playerId};
    }

    method AddPlayer(playerId: Int32)
      modifies this`players, this`progresses
      ensures players == old(players) + {playerId} && progresses == old(progresses) + {playerId}
    {
      players := players + {playerId};
      progresses := progresses + {playerId};
    }

    // Replays the corrector's events: first who left, then who joined.
    method UpdateStuff(corrector: PlayerCorrector)
      requires Valid()
      modifies this`players, this`progresses, corrector`playersGone, corrector`playersNew
      ensures Valid()
      ensures players == Replayed(old(players), Elements(old(corrector.playersGone)),
                                  Elements(old(corrector.playersNew)))
      ensures corrector.playersGone == [] && corrector.playersNew == []
    {
      var gone := corrector.GetGonePlayers();
      for i := 0 to |gone|
        modifies this`players, this`progresses
        invariant Valid() && players == old(players) - Elements(gone[..i])
      {
        assert gone[..i + 1] == gone[..i] + [gone[i]];
        ElementsOneMore(gone[..i], gone[i]);
        if gone[i] in players {
          RemovePlayer(gone[i]);
        }
      }
      assert gone[..|gone|] == gone;
      var joined := corrector.GetNewPlayers();
      for i := 0 to |joined|
        modifies this`players, this`progresses
        invariant Valid() && players == old(players) - Elements(gone) + Elements(joined[..i])
      {
        assert joined[..i + 1] == joined[..i] + [joined[i]];
        ElementsOneMore(joined[..i], joined[i]);
        if joined[i] !in players {
          AddPlayer(joined[i]);
        }
      }
      assert joined[..|joined|] == joined;
    }

    predicate IsUserBlocked(playerId: Int32)
      reads this
    {
      IsBlocked(Rules(), playerId)
    }

    method SaveChatUserLists()
      modifies this`savedBlacklist, this`savedWhitelist
      ensures Saved()
    {
      ghost var order: seq<Int32>;
      savedBlacklist, order := SerializeIdList(chatBlacklist);
      savedWhitelist, order := SerializeIdList(chatWhitelist);
    }

    method ChatBlockUser(playerId: Int32)
      modifies this`chatBlacklist, this`chatWhitelist, this`savedBlacklist, this`savedWhitelist
      ensures Rules() == Applied(old(Rules()), Block(playerId)) && Saved()
    {
      chatWhitelist := chatWhitelist - {playerId};
      chatBlacklist := chatBlacklist + {playerId};
      SaveChatUserLists();
    }

    method ChatUnblockUser(playerId: Int32)
      modifies this`chatBlacklist, this`chatWhitelist, this`savedBlacklist, this`savedWhitelist
      ensures Rules() == Applied(old(Rules()), Unblock(playerId)) && Saved()
    {
      chatBlacklist := chatBlacklist - {playerId};
      chatWhitelist := chatWhitelist + {playerId};
      SaveChatUserLists();
    }
  }

  // ----- blocking -----

  function AllApplied(r: ChatRules, actions: seq<ChatAction>): ChatRules {
    if actions == [] then r else Applied(AllApplied(r, actions[..|actions| - 1]), actions[|actions| - 1])
  }

  // The latest action on a player, if there is one.
  function LastOn(actions: seq<ChatAction>, p: Int32): Option<ChatAction> {
    if actions == [] then None
    else if actions[|actions| - 1].id == p then Some(actions[|actions| - 1])
    else LastOn(actions[..|actions| - 1], p)
  }

  // Main result: oneself is never blocked, and another player exactly if the last action on it was to
  // block it. Without one it is if it was blacklisted before, and with `whitelistOnly` also if it was
  // neither whitelisted nor a friend. The lists stay disjoint.
  lemma {:induction false} LastActionDecides(r: ChatRules, actions: seq<ChatAction>, p: Int32)
    requires r.blacklist !! r.whitelist
    ensures var r' := AllApplied(r, actions);
            && r'.blacklist !! r'.whitelist
            && r'.(blacklist := {}, whitelist := {}) == r.(blacklist := {}, whitelist := {})
            && (IsBlocked(r', p) <==>
                  p != r.ownId
                  && if LastOn(actions, p).Some? then LastOn(actions, p).value.Block?
                     else p in r.blacklist || (r.whitelistOnly && p !in r.whitelist && p !in r.friends))
            && (LastOn(actions, p).None? ==>
                 (p in r'.blacklist <==> p in r.blacklist) && (p in r'.whitelist <==> p in r.whitelist))
  {
    if actions != [] {
      LastActionDecides(r, actions[..|actions| - 1], p);
    }
  }

  // Whatever lists are saved, in whatever order their sets are walked, a restart loads
  // the rules that were in force.
  lemma BlockingSurvivesRestart(r: ChatRules, actions: seq<ChatAction>, black: seq<Int32>, white: seq<Int32>, p: Int32)
    requires r.blacklist !! r.whitelist
    requires var r' := AllApplied(r, actions);
             && Enumerates(black, r'.blacklist) && Enumerates(white, r'.whitelist)
    ensures var loaded := r.(blacklist := Parsed(Printed(black)), whitelist := Parsed(Printed(white)));
            && loaded == AllApplied(r, actions)
            && (LastOn(actions, p).Some? ==>
                  (IsBlocked(loaded, p) <==> p != r.ownId && LastOn(actions, p).value.Block?))
  {
    LastActionDecides(r, actions, p);
    ListRoundTrip(black, AllApplied(r, actions).blacklist);
    ListRoundTrip(white, AllApplied(r, actions).whitelist);
  }

  // ----- the event log -----

  // The corrector's tracked ids and pending events next to the level's own players.
  datatype Log = Log(tracked: set<Int32>, joined: set<Int32>, gone: set<Int32>, players: set<Int32>)

  datatype LogEvent = Fed(ids: set<Int32>) | Drained

  const Joined := Log({}, {}, {}, {})

  function LogStep(s: Log, e: LogEvent): Log {
    match e
    case Fed(ids) => Log(ids, s.joined + (ids - s.tracked), s.gone + (s.tracked - ids), s.players)
    case Drained => Log(s.tracked, {}, {}, Replayed(s.players, s.gone, s.joined))
  }

  function LogRun(es: seq<LogEvent>): Log {
    if es == [] then Joined else LogStep(LogRun(es[..|es| - 1]), es[|es| - 1])
  }

  // A feed and a drain of the real objects are the steps of the log.
  lemma FeedIsLogStep(d: real, tracks: map<Int32, Track>, data: map<Int32, Frame>, after: map<Int32, Track>,
                      wasNew: seq<Int32>, wasGone: seq<Int32>, joined: seq<Int32>, left: seq<Int32>,
                      players: set<Int32>)
    requires FeedsAll(d, tracks, data, after)
    requires Enumerates(joined, data.Keys - tracks.Keys) && Enumerates(left, tracks.Keys - data.Keys)
    ensures LogStep(Log(tracks.Keys, Elements(wasNew), Elements(wasGone), players), Fed(data.Keys))
            == Log(after.Keys, Elements(wasNew + joined), Elements(wasGone + left), players)
  {
    assert Elements(wasNew + joined) == Elements(wasNew) + Elements(joined);
    assert Elements(wasGone + left) == Elements(wasGone) + Elements(left);
    assert Elements(joined) == data.Keys - tracks.Keys;
    assert Elements(left) == tracks.Keys - data.Keys;
  }

  lemma {:induction false} TrackedWillBeShown(es: seq<LogEvent>)
    ensures var s := LogRun(es); s.tracked <= Replayed(s.players, s.gone, s.joined)
  {
    if es != [] {
      TrackedWillBeShown(es[..|es| - 1]);
    }
  }

  // Main result: right after a drain, every tracked player is shown.
  lemma DrainShowsTracked(es: seq<LogEvent>)
    requires es != [] && es[|es| - 1] == Drained
    ensures LogRun(es).tracked <= LogRun(es).players
  {
    TrackedWillBeShown(es[..|es| - 1]);
  }

  // At every drain of the run, whoever was reported as new is still tracked.
  predicate NoFlicker(es: seq<LogEvent>) {
    es == [] ||
    var before := LogRun(es[..|es| - 1]);
    NoFlicker(es[..|es| - 1]) && (es[|es| - 1] == Drained ==> before.joined <= before.tracked)
  }

  lemma {:induction false} ShownIsKnown(es: seq<LogEvent>)
    requires NoFlicker(es)
    ensures var s := LogRun(es); s.players <= s.tracked + s.gone
  {
    if es != [] {
      ShownIsKnown(es[..|es| - 1]);
    }
  }

  // If it was so until the last drain, that drain shows exactly the tracked players if
  // and only if nobody it reports as new has left again.
  lemma DrainIsExact(es: seq<LogEvent>)
    requires NoFlicker(es)
    ensures var before, after := LogRun(es), LogRun(es + [Drained]);
            after.players == after.tracked <==> before.joined <= before.tracked
  {
    assert (es + [Drained])[..|es|] == es;
    ShownIsKnown(es);
    TrackedWillBeShown(es);
  }

  // Every drain of the run leaves exactly the tracked players.
  predicate DrainsExactly(es: seq<LogEvent>) {
    es == [] ||
    (DrainsExactly(es[..|es| - 1]) && (es[|es| - 1] == Drained ==> LogRun(es).players == LogRun(es).tracked))
  }

  // Main result: every drain of a run is exact if and only if no drain reports as new a
  // player who has left again.
  lemma {:induction false} DrainsAreExact(es: seq<LogEvent>)
    ensures DrainsExactly(es) <==> NoFlicker(es)
  {
    if es != [] {
      var init := es[..|es| - 1];
      DrainsAreExact(init);
      if NoFlicker(init) && es[|es| - 1] == Drained {
        DrainIsExact(init);
        assert init + [Drained] == es;
      }
    }
  }

  // What was tracked and pending at the last drain that reported p as new or gone.
  function LastReport(es: seq<LogEvent>, p: Int32): Option<Log> {
    if es == [] then None
    else
      var before := LogRun(es[..|es| - 1]);
      if es[|es| - 1] == Drained && (p in before.joined || p in before.gone) then Some(before)
      else LastReport(es[..|es| - 1], p)
  }

  // Main result: which players are shown although nobody tracks them and nothing about
  // them is pending: exactly those that the last drain to report them found both new
  // and no longer tracked.
  lemma {:induction false} GhostsAreFlickers(es: seq<LogEvent>, p: Int32)
    requires p !in LogRun(es).tracked && p !in LogRun(es).gone
    ensures p in LogRun(es).players <==>
              LastReport(es, p).Some? && p in LastReport(es, p).value.joined && p !in LastReport(es, p).value.tracked
  {
    if es != [] {
      var before := LogRun(es[..|es| - 1]);
      if p !in before.tracked && p !in before.gone { GhostsAreFlickers(es[..|es| - 1], p); }
    }
  }

  // One player who joins and leaves between two drains stays on the screen.
  lemma FlickerLeavesAGhost(p: Int32)
    ensures LogRun([Fed({p}), Fed({}), Drained]) == Log({}, {}, {}, {p})
  {
    var es := [Fed({p}), Fed({}), Drained];
    assert es[..2] == [Fed({p}), Fed({})];
    assert es[..2][..1] == [Fed({p})];
    assert es[..2][..1][..0] == [];
    assert LogRun([Fed({p})]) == Log({p}, {p}, {}, {});
    assert LogRun([Fed({p}), Fed({})]) == Log({}, {p}, {p}, {});
  }
}
