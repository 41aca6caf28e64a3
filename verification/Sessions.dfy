// What holds of the client map in every interleaving.

module Sessions {
  import opened GameData
  import opened ServerState
  import opened Tasks
  import opened Scheduler

  // What the server knows of a connected client besides its level.
  datatype Session = Session(address: int, key: Int32, account: Account, heard: int)

  predicate Tracks(s: Option<Session>, sh: Shared, c: Int32) {
    && (c in sh.clients <==> s.Some?)
    && (c in sh.clients && s.Some? ==>
          && sh.clients[c].address == s.value.address && sh.clients[c].secretKey == s.value.key
          && sh.clients[c].account == s.value.account && sh.clients[c].lastKeepalive == s.value.heard)
  }

  predicate WithinLimit(cfg: Settings, sh: Shared) {
    cfg.maxClients != 0 ==> |sh.clients| <= (if cfg.maxClients > 0 then cfg.maxClients else 0)
  }

  lemma SubsetSize(a: set<Int32>, b: set<Int32>)
    requires a <= b
    ensures |a| <= |b|
  {
    if a != {} {
      var x :| x in a;
      SubsetSize(a - {x}, b - {x});
    }
  }

  lemma OneMoreClient(clients: map<Int32, Client>, c: Int32, client: Client)
    ensures |clients[c := client]| <= |clients| + 1
  {
    assert clients[c := client].Keys == clients.Keys + {c};
    assert |clients[c := client]| == |clients[c := client].Keys| && |clients| == |clients.Keys|;
  }

  lemma RoomForOne(n: nat, limit: Int32)
    requires n <= (if limit > 0 then limit else 0) && AsInt32(n) < limit
    ensures n < limit
  {
  }

  lemma AddingKeepsLimit(cfg: Settings, sh: Shared, c: Int32, client: Client)
    requires WithinLimit(cfg, sh) && !IsFull(cfg, sh)
    ensures WithinLimit(cfg, sh.(clients := sh.clients[c := client]))
  {
    if cfg.maxClients != 0 { RoomForOne(|sh.clients|, cfg.maxClients); }
    OneMoreClient(sh.clients, c, client);
  }

  lemma OthersAddNoClient(cfg: Settings, sh: Shared, code: Code, now: int)
    requires !code.CheckInAdd?
    ensures ClientsAfter(cfg, sh, code, now).Keys <= sh.clients.Keys
  {
  }

  lemma NoMoreKeepsLimit(cfg: Settings, sh: Shared, after: map<Int32, Client>)
    requires WithinLimit(cfg, sh) && after.Keys <= sh.clients.Keys
    ensures WithinLimit(cfg, sh.(clients := after))
  {
    SubsetSize(after.Keys, sh.clients.Keys);
    assert |after| == |after.Keys| && |sh.clients| == |sh.clients.Keys|;
  }

  lemma StepKeepsLimit(cfg: Settings, sh: Shared, code: Code, now: int)
    requires WithinLimit(cfg, sh)
    ensures WithinLimit(cfg, sh.(clients := ClientsAfter(cfg, sh, code, now)))
  {
    if code.CheckInAdd? {
      if code.client !in sh.clients && !IsFull(cfg, sh) {
        AddingKeepsLimit(cfg, sh, code.client, Client(code.peer, code.key, -1, now, EmptyAccount));
      }
    } else {
      OthersAddNoClient(cfg, sh, code, now);
      NoMoreKeepsLimit(cfg, sh, ClientsAfter(cfg, sh, code, now));
    }
  }

  // With a limit configured, the server never has more clients than that.
  lemma {:induction false} ClientLimit(cfg: Settings, es: seq<Event>)
    ensures Exec(cfg, es).Some? ==> WithinLimit(cfg, Exec(cfg, es).value.shared)
  {
    if es != [] && Exec(cfg, es).Some? {
      var last := |es| - 1;
      var s := Exec(cfg, es[..last]).value;
      ClientLimit(cfg, es[..last]);
      if es[last].Step? {
        StepKeepsLimit(cfg, s.shared, s.tasks[es[last].task], es[last].choice.now);
      }
    }
  }

  lemma StepKeepsIdentity(cfg: Settings, sh: Shared, code: Code, now: int, c: Int32)
    requires c in sh.clients && c in ClientsAfter(cfg, sh, code, now)
    ensures var after := ClientsAfter(cfg, sh, code, now)[c];
            after.address == sh.clients[c].address && after.secretKey == sh.clients[c].secretKey
  {
  }

  // Client c is connected after each of the events from number `from` on.
  ghost predicate StaysConnected(cfg: Settings, es: seq<Event>, from: nat, c: Int32) {
    forall i | from <= i <= |es| :: Exec(cfg, es[..i]).Some? && c in Exec(cfg, es[..i]).value.shared.clients
  }

  // A session keeps the address and the secret key it was opened with, whatever
  // packets arrive in the meantime.
  lemma {:induction false} IdentityIsStable(cfg: Settings, es: seq<Event>, from: nat, c: Int32)
    requires from <= |es| && StaysConnected(cfg, es, from, c)
    ensures Exec(cfg, es[..from]).Some? && c in Exec(cfg, es[..from]).value.shared.clients
    ensures Exec(cfg, es).Some? && c in Exec(cfg, es).value.shared.clients
    ensures var a, b := Exec(cfg, es[..from]).value.shared.clients[c], Exec(cfg, es).value.shared.clients[c];
            a.address == b.address && a.secretKey == b.secretKey
  {
    assert es[..|es|] == es;
    if from < |es| {
      var last := |es| - 1;
      var init := es[..last];
      assert forall i | from <= i <= last :: init[..i] == es[..i];
      IdentityIsStable(cfg, init, from, c);
      var s := Exec(cfg, init).value;
      if es[last].Step? {
        StepKeepsIdentity(cfg, s.shared, s.tasks[es[last].task], es[last].choice.now, c);
      }
    }
  }

  // What a step makes of the session of client c.
  function AfterStep(s: Option<Session>, c: Int32, full: bool, code: Code, now: int): Option<Session> {
    match code
    case CheckInAdd(d, peer, key, _) =>
      if d == c && s.None? && !full then Some(Session(peer, key, EmptyAccount, now)) else s
    case CheckInStore(d, a) => if d == c && s.Some? then Some(s.value.(account := a)) else s
    case CheckInReject(d) => if d == c then None else s
    case Forget(d, _) => if d == c then None else s
    case KeepaliveTouch(d) => if d == c && s.Some? then Some(s.value.(heard := now)) else s
    case _ => s
  }

  // The session of client c, as the tasks that sign it in, hear of it or remove it have left it.
  ghost function SessionIn(cfg: Settings, es: seq<Event>, c: Int32): Option<Session> {
    if es == [] then None
    else
      var init, e := es[..|es| - 1], es[|es| - 1];
      var before := Exec(cfg, init);
      if before.Some? && e.Step? && e.task in before.value.tasks then
        AfterStep(SessionIn(cfg, init, c), c, IsFull(cfg, before.value.shared), before.value.tasks[e.task],
                  e.choice.now)
      else SessionIn(cfg, init, c)
  }

  lemma StepTracks(cfg: Settings, sh: Shared, s: Option<Session>, code: Code, now: int, c: Int32)
    requires Tracks(s, sh, c)
    ensures Tracks(AfterStep(s, c, IsFull(cfg, sh), code, now), sh.(clients := ClientsAfter(cfg, sh, code, now)), c)
  {
  }

  // Main result: in every interleaving a client's record holds the address and key it signed in with,
  // the account its check-in stored, and the time of its last keepalive.
  lemma {:induction false} SessionsFollowTasks(cfg: Settings, es: seq<Event>, c: Int32)
    ensures Exec(cfg, es).Some? ==> Tracks(SessionIn(cfg, es, c), Exec(cfg, es).value.shared, c)
  {
    if es != [] && Exec(cfg, es).Some? {
      var init, e := es[..|es| - 1], es[|es| - 1];
      var s := Exec(cfg, init).value;
      SessionsFollowTasks(cfg, init, c);
      if e.Step? {
        StepTracks(cfg, s.shared, SessionIn(cfg, init, c), s.tasks[e.task], e.choice.now, c);
        StepShares(cfg, s, e.task, e.choice);
      }
    }
  }
}
