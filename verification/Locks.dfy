// Fair read/write locks with an acquisition order.
//
// `queue` holds one ticket per lock that a task holds or waits for, numbered by
// arrival. A ticket is granted when nothing that arrived earlier at the same
// lock excludes it, which is what a FIFO-fair read/write lock does.

module Locks {
  import opened GameData

  datatype Lock = Levels | OneLevel(id: Int32) | Clients
  datatype Mode = Read | Write
  datatype Claim = Claim(lock: Lock, mode: Mode)

  const LEVELS_READ := Claim(Levels, Read)
  const LEVELS_WRITE := Claim(Levels, Write)
  const CLIENTS_READ := Claim(Clients, Read)
  const CLIENTS_WRITE := Claim(Clients, Write)

  function Rank(lock: Lock): nat {
    match lock
    case Levels => 0
    case OneLevel(_) => 1
    case Clients => 2
  }

  // What one task has to do with the locks: its live guards, oldest first, and
  // the lock it waits for.
  datatype Guards = Guards(held: seq<Claim>, wanted: Option<Claim>) {
    predicate Needs(claim: Claim) {
      claim in held || wanted == Some(claim)
    }

    // Locks are taken in the order levels, one level, connected_clients; hence never
    // the same lock twice and never two level locks at once.
    ghost predicate InOrder() {
      && (forall i, j | 0 <= i < j < |held| :: Rank(held[i].lock) < Rank(held[j].lock))
      && (wanted.Some? ==> forall h | h in held :: Rank(h.lock) < Rank(wanted.value.lock))
    }
  }

  datatype Ticket = Ticket(task: nat, claim: Claim)

  type Queue = map<nat, Ticket>

  predicate Excludes(a: Claim, b: Claim) {
    a.lock == b.lock && (a.mode == Write || b.mode == Write)
  }

  ghost predicate Granted(queue: Queue, k: nat)
    requires k in queue
  {
    forall j | j in queue && j < k :: !Excludes(queue[j].claim, queue[k].claim)
  }

  ghost predicate Queued(queue: Queue, t: nat, claim: Claim) {
    exists k | k in queue :: queue[k] == Ticket(t, claim)
  }

  ghost predicate HasGrant(queue: Queue, t: nat, claim: Claim) {
    exists k | k in queue :: queue[k] == Ticket(t, claim) && Granted(queue, k)
  }

  ghost predicate CanRun(queue: Queue, tasks: map<nat, Guards>, t: nat) {
    t in tasks && (tasks[t].wanted.Some? ==> HasGrant(queue, t, tasks[t].wanted.value))
  }

  function Enqueue(queue: Queue, stamp: nat, t: nat, wanted: Option<Claim>): Queue {
    if wanted.Some? then queue[stamp := Ticket(t, wanted.value)] else queue
  }

  function Release(queue: Queue, t: nat, keep: seq<Claim>): Queue {
    map k | k in queue && (queue[k].task == t ==> queue[k].claim in keep) :: queue[k]
  }

  // Every ticket is held or wanted by a live task.
  ghost predicate Backed(queue: Queue, stamp: nat, tasks: map<nat, Guards>) {
    forall k | k in queue :: k < stamp && queue[k].task in tasks && tasks[queue[k].task].Needs(queue[k].claim)
  }

  ghost predicate AllQueued(queue: Queue, tasks: map<nat, Guards>) {
    forall t, claim | t in tasks && tasks[t].Needs(claim) :: Queued(queue, t, claim)
  }

  ghost predicate Unique(queue: Queue) {
    forall j, k | j in queue && k in queue && j < k :: queue[j] != queue[k]
  }

  ghost predicate GuardsGranted(queue: Queue, tasks: map<nat, Guards>) {
    forall k | k in queue && queue[k].task in tasks && queue[k].claim in tasks[queue[k].task].held :: Granted(queue, k)
  }

  // The queue says exactly what the tasks hold and wait for, and guards are granted.
  ghost predicate LockInv(queue: Queue, stamp: nat, tasks: map<nat, Guards>) {
    && Backed(queue, stamp, tasks)
    && AllQueued(queue, tasks)
    && Unique(queue)
    && GuardsGranted(queue, tasks)
    && (forall t | t in tasks :: tasks[t].InOrder())
  }

  // A ticket with a new stamp waits behind all others and changes none of them.
  lemma EnqueueFacts(queue: Queue, stamp: nat, t: nat, wanted: Option<Claim>)
    requires forall k | k in queue :: k < stamp
    requires wanted.Some? ==> !Queued(queue, t, wanted.value)
    ensures var queue' := Enqueue(queue, stamp, t, wanted);
            && (forall k | k in queue' :: k < stamp + 1)
            && (forall k | k in queue :: k in queue' && queue'[k] == queue[k])
            && (forall k | k in queue && Granted(queue, k) :: Granted(queue', k))
            && (Unique(queue) ==> Unique(queue'))
  {
  }

  lemma ReleaseFacts(queue: Queue, t: nat, keep: seq<Claim>)
    ensures var queue' := Release(queue, t, keep);
            && (forall k | k in queue' && Granted(queue, k) :: Granted(queue', k))
            && (Unique(queue) ==> Unique(queue'))
  {
  }

  // A new task holds nothing and waits for nothing.
  lemma StartKeepsLocks(queue: Queue, stamp: nat, tasks: map<nat, Guards>, t: nat)
    requires LockInv(queue, stamp, tasks) && t !in tasks
    ensures LockInv(queue, stamp, tasks[t := Guards([], None)])
  {
    var tasks' := tasks[t := Guards([], None)];
    forall u, claim | u in tasks' && tasks'[u].Needs(claim) ensures Queued(queue, u, claim) {
      assert u in tasks && tasks[u].Needs(claim);
    }
  }

  lemma FinishKeepsLocks(queue: Queue, stamp: nat, tasks: map<nat, Guards>, t: nat)
    requires LockInv(queue, stamp, tasks) && t in tasks
    ensures LockInv(Release(queue, t, []), stamp, tasks - {t})
  {
    var queue' := Release(queue, t, []);
    ReleaseFacts(queue, t, []);
    forall u, claim | u in tasks - {t} && tasks[u].Needs(claim) ensures Queued(queue', u, claim) {
      assert Queued(queue, u, claim);
      var k :| k in queue && queue[k] == Ticket(u, claim);
      assert k in queue';
    }
  }

  lemma KeptIsBacked(queue: Queue, stamp: nat, tasks: map<nat, Guards>, t: nat, keep: seq<Claim>)
    requires Backed(queue, stamp, tasks) && t in tasks
    ensures Backed(Release(queue, t, keep), stamp, tasks[t := Guards(keep, None)])
  {
  }

  lemma KeptIsQueued(queue: Queue, tasks: map<nat, Guards>, t: nat, keep: seq<Claim>)
    requires AllQueued(queue, tasks) && t in tasks && forall h | h in keep :: tasks[t].Needs(h)
    ensures AllQueued(Release(queue, t, keep), tasks[t := Guards(keep, None)])
  {
    var kept := Release(queue, t, keep);
    var tasks' := tasks[t := Guards(keep, None)];
    forall u, claim | u in tasks' && tasks'[u].Needs(claim) ensures Queued(kept, u, claim) {
      assert tasks[u].Needs(claim);
      assert Queued(queue, u, claim);
      var k :| k in queue && queue[k] == Ticket(u, claim);
      assert k in kept;
    }
  }

  lemma NeededIsGranted(queue: Queue, tasks: map<nat, Guards>, t: nat, k: nat)
    requires Unique(queue) && GuardsGranted(queue, tasks) && CanRun(queue, tasks, t)
    requires k in queue && queue[k].task == t && tasks[t].Needs(queue[k].claim)
    ensures Granted(queue, k)
  {
    if queue[k].claim !in tasks[t].held {
      assert HasGrant(queue, t, queue[k].claim);
      var j :| j in queue && queue[j] == queue[k] && Granted(queue, j);
      assert j == k;
    }
  }

  lemma KeptAreGranted(queue: Queue, tasks: map<nat, Guards>, t: nat, keep: seq<Claim>)
    requires Unique(queue) && GuardsGranted(queue, tasks) && CanRun(queue, tasks, t)
    requires forall h | h in keep :: tasks[t].Needs(h)
    ensures GuardsGranted(Release(queue, t, keep), tasks[t := Guards(keep, None)])
  {
    var kept := Release(queue, t, keep);
    var tasks' := tasks[t := Guards(keep, None)];
    ReleaseFacts(queue, t, keep);
    forall k | k in kept && kept[k].task in tasks' && kept[k].claim in tasks'[kept[k].task].held
      ensures Granted(kept, k)
    {
      if queue[k].task == t { NeededIsGranted(queue, tasks, t, k); }
      assert Granted(queue, k);
    }
  }

  // A task that has got its lock drops the guards it no longer keeps; what it keeps is granted.
  lemma DropKeepsLocks(queue: Queue, stamp: nat, tasks: map<nat, Guards>, t: nat, keep: seq<Claim>)
    requires LockInv(queue, stamp, tasks) && CanRun(queue, tasks, t)
    requires Guards(keep, None).InOrder() && forall h | h in keep :: tasks[t].Needs(h)
    ensures LockInv(Release(queue, t, keep), stamp, tasks[t := Guards(keep, None)])
  {
    ReleaseFacts(queue, t, keep);
    KeptIsBacked(queue, stamp, tasks, t, keep);
    KeptIsQueued(queue, tasks, t, keep);
    KeptAreGranted(queue, tasks, t, keep);
  }

  lemma QueuedIsNeeded(queue: Queue, stamp: nat, tasks: map<nat, Guards>, t: nat, claim: Claim)
    requires Backed(queue, stamp, tasks) && t in tasks
    ensures Queued(queue, t, claim) ==> tasks[t].Needs(claim)
  {
  }

  lemma WaitIsQueued(queue: Queue, stamp: nat, tasks: map<nat, Guards>, t: nat, g: Guards)
    requires LockInv(queue, stamp, tasks) && t in tasks && tasks[t] == Guards(g.held, None)
    ensures AllQueued(Enqueue(queue, stamp, t, g.wanted), tasks[t := g])
  {
    var queue' := Enqueue(queue, stamp, t, g.wanted);
    var tasks' := tasks[t := g];
    forall u, claim | u in tasks' && tasks'[u].Needs(claim) ensures Queued(queue', u, claim) {
      if u == t && g.wanted == Some(claim) {
        assert queue'[stamp] == Ticket(t, claim);
      } else {
        assert tasks[u].Needs(claim);
        assert Queued(queue, u, claim);
        var k :| k in queue && queue[k] == Ticket(u, claim);
        assert k < stamp && queue'[k] == queue[k];
      }
    }
  }

  lemma WaitIsBacked(queue: Queue, stamp: nat, tasks: map<nat, Guards>, t: nat, g: Guards)
    requires Backed(queue, stamp, tasks) && t in tasks && tasks[t] == Guards(g.held, None)
    ensures Backed(Enqueue(queue, stamp, t, g.wanted), stamp + 1, tasks[t := g])
  {
  }

  lemma WaitIsGranted(queue: Queue, stamp: nat, tasks: map<nat, Guards>, t: nat, g: Guards)
    requires Backed(queue, stamp, tasks) && Unique(queue) && GuardsGranted(queue, tasks)
    requires t in tasks && tasks[t] == Guards(g.held, None) && g.InOrder()
    ensures var queue' := Enqueue(queue, stamp, t, g.wanted); Unique(queue') && GuardsGranted(queue', tasks[t := g])
  {
    if g.wanted.Some? { QueuedIsNeeded(queue, stamp, tasks, t, g.wanted.value); }
    EnqueueFacts(queue, stamp, t, g.wanted);
  }

  // Waiting for one more lock behind everyone else.
  lemma WaitKeepsLocks(queue: Queue, stamp: nat, tasks: map<nat, Guards>, t: nat, g: Guards)
    requires LockInv(queue, stamp, tasks) && t in tasks && tasks[t] == Guards(g.held, None) && g.InOrder()
    ensures LockInv(Enqueue(queue, stamp, t, g.wanted), stamp + 1, tasks[t := g])
  {
    WaitIsQueued(queue, stamp, tasks, t, g);
    WaitIsBacked(queue, stamp, tasks, t, g);
    WaitIsGranted(queue, stamp, tasks, t, g);
  }

  // A write guard is exclusive: two tasks that both have the same lock only read.
  lemma MutualExclusion(queue: Queue, t: nat, a: Claim, u: nat, b: Claim)
    requires HasGrant(queue, t, a) && HasGrant(queue, u, b) && t != u
    ensures !Excludes(a, b)
  {
    var j :| j in queue && queue[j] == Ticket(t, a) && Granted(queue, j);
    var k :| k in queue && queue[k] == Ticket(u, b) && Granted(queue, k);
    assert j < k || k < j;
  }

  lemma HeldIsGranted(queue: Queue, stamp: nat, tasks: map<nat, Guards>, t: nat, claim: Claim)
    requires LockInv(queue, stamp, tasks) && t in tasks && claim in tasks[t].held
    ensures HasGrant(queue, t, claim)
  {
    assert tasks[t].Needs(claim);
    assert Queued(queue, t, claim);
  }

  // The oldest ticket that blocks another one is granted.
  lemma {:induction false} FindGrant(queue: Queue, k: nat) returns (g: nat)
    requires k in queue
    ensures g in queue && g <= k && queue[g].claim.lock == queue[k].claim.lock && Granted(queue, g)
    decreases k
  {
    if Granted(queue, k) {
      g := k;
    } else {
      var j :| j in queue && j < k && Excludes(queue[j].claim, queue[k].claim);
      g := FindGrant(queue, j);
    }
  }

  // A task that cannot run waits behind a granted ticket at the same lock.
  lemma FindHolder(queue: Queue, stamp: nat, tasks: map<nat, Guards>, t: nat) returns (g: nat)
    requires LockInv(queue, stamp, tasks) && t in tasks && !CanRun(queue, tasks, t)
    ensures tasks[t].wanted.Some? && g in queue && Granted(queue, g)
    ensures queue[g].claim.lock == tasks[t].wanted.value.lock
    ensures queue[g].task in tasks && tasks[queue[g].task].Needs(queue[g].claim)
  {
    var claim := tasks[t].wanted.value;
    assert tasks[t].Needs(claim);
    assert Queued(queue, t, claim);
    var k :| k in queue && queue[k] == Ticket(t, claim);
    g := FindGrant(queue, k);
  }

  // No deadlock: from any task, following who has the lock it waits for leads to
  // one that can run, because every such step goes up in the lock order.
  lemma {:induction false} FindRunnable(queue: Queue, stamp: nat, tasks: map<nat, Guards>, t: nat) returns (u: nat)
    requires LockInv(queue, stamp, tasks) && t in tasks
    ensures CanRun(queue, tasks, u)
    decreases if tasks[t].wanted.Some? then 3 - Rank(tasks[t].wanted.value.lock) else 0
  {
    if CanRun(queue, tasks, t) {
      u := t;
    } else {
      var g := FindHolder(queue, stamp, tasks, t);
      var v := queue[g].task;
      if tasks[v].wanted == Some(queue[g].claim) {
        u := v;
      } else {
        assert tasks[v].InOrder();
        u := FindRunnable(queue, stamp, tasks, v);
      }
    }
  }
}
