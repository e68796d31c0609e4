/** The durable retry queue of credential revocations (hysteria/revocation_queue.py). */
module RevocationQueue {
  import opened StateStore

  /** Usernames, request ids and random nonces matter only up to equality. */
  type User = nat

  /** The digest of a user and either the request id a browser chose or a nonce the
      server drew. Digests are injective, so the pair stands for the digest. */
  datatype TaskId = ForRequest(user: User, request: nat) | ForNonce(user: User, nonce: nat)

  /** Digests are ordered only to break ties; any total order serves. */
  predicate IdBefore(a: TaskId, b: TaskId) {
    match (a, b)
    case (ForRequest(u, r), ForRequest(v, s)) => u < v || (u == v && r < s)
    case (ForNonce(u, r), ForNonce(v, s)) => u < v || (u == v && r < s)
    case (ForRequest(_, _), ForNonce(_, _)) => true
    case (ForNonce(_, _), ForRequest(_, _)) => false
  }

  datatype Service = Xray | Tuic

  /** What a task says about a credential: the digest of a token (digests are injective,
      so the token itself stands for it; 0 is the empty generation), the digest of one
      complete account record, or the constant that marks a deletion. */
  datatype Generation = Token(id: nat) | Revision(number: nat) | Deleted

  /** `static_services` is kept sorted and duplicate-free, so it is a set here. */
  datatype Task = Task(
    user: User,
    previous: Generation,
    target: Generation,
    createdAt: int,
    expiresAt: int,
    nextAttemptAt: int,
    leaseUntil: int,
    kickSuccesses: int,
    attempts: int,
    services: set<Service>)

  type Queue = map<TaskId, Task>

  const TASK_TTL_SECONDS := 600
  const TASK_MAX_ENTRIES := 512
  const CLAIM_LEASE_SECONDS := 15
  const SECOND_KICK_DELAY_SECONDS := 2
  const RETRY_DELAY_SECONDS := 5

  datatype Error = BindingMismatch | CapacityFull | WriteFailed(outcome: Outcome)
  datatype Reply<+T> = Done(value: T) | Raised(error: Error)

  /** The bounds `_load` insists on. */
  ghost predicate Loadable(q: Queue) {
    forall id | id in q ::
      && 0 < q[id].createdAt < q[id].expiresAt
      && 0 <= q[id].kickSuccesses <= 2
      && 0 <= q[id].attempts
  }

  /* ---- What each operation writes; None when it leaves the file alone. ---- */

  predicate Binds(t: Task, user: User, previous: Generation, target: Generation) {
    t.user == user && t.previous == previous && t.target == target
  }

  function Fresh(user: User, previous: Generation, target: Generation,
                 services: set<Service>, now: int): Task
  {
    Task(user, previous, target, now, now + TASK_TTL_SECONDS, now, 0, 0, 0, services)
  }

  function Prepared(q: Queue, id: TaskId, user: User, previous: Generation,
                    target: Generation, services: set<Service>, now: int): Reply<Queue>
  {
    if id in q then
      if Binds(q[id], user, previous, target) then Done(q) else Raised(BindingMismatch)
    else if |q| >= TASK_MAX_ENTRIES then
      Raised(CapacityFull)
    else
      Done(q[id := Fresh(user, previous, target, services, now)])
  }

  function Min(a: int, b: int): int { if a <= b then a else b }

  function Max(a: int, b: int): int { if a <= b then b else a }

  function WithServices(q: Queue, id: TaskId, wanted: set<Service>, now: int): Option<Queue> {
    if wanted == {} || id !in q then None
    else
      Some(q[id := q[id].(services := q[id].services + wanted,
                          nextAttemptAt := Min(q[id].nextAttemptAt, now))])
  }

  predicate Due(t: Task, now: int) {
    t.nextAttemptAt <= now && t.leaseUntil <= now
  }

  /** The sort key of `claim_due`: next attempt, then creation, then task id. */
  predicate RanksBefore(q: Queue, a: TaskId, b: TaskId)
    requires a in q && b in q
  {
    || q[a].nextAttemptAt < q[b].nextAttemptAt
    || (q[a].nextAttemptAt == q[b].nextAttemptAt && q[a].createdAt < q[b].createdAt)
    || (q[a].nextAttemptAt == q[b].nextAttemptAt && q[a].createdAt == q[b].createdAt && IdBefore(a, b))
  }

  ghost predicate FirstDue(q: Queue, id: TaskId, now: int) {
    && id in q
    && Due(q[id], now)
    && forall other | other in q && other != id && Due(q[other], now) :: RanksBefore(q, id, other)
  }

  lemma FirstDueUnique(q: Queue, a: TaskId, b: TaskId, now: int)
    requires FirstDue(q, a, now) && FirstDue(q, b, now)
    ensures a == b
  {
  }

  function Leased(q: Queue, id: TaskId, now: int): Queue
    requires id in q
  {
    q[id := q[id].(leaseUntil := now + CLAIM_LEASE_SECONDS, attempts := q[id].attempts + 1)]
  }

  function Released(q: Queue, id: TaskId, delay: int, now: int): Option<Queue> {
    if id !in q then None
    else Some(q[id := q[id].(leaseUntil := 0, nextAttemptAt := now + Max(1, delay))])
  }

  function KicksAfter(t: Task, kickOk: bool): int {
    if kickOk then Min(2, t.kickSuccesses + 1) else 0
  }

  predicate Completes(t: Task, kickOk: bool, stopped: set<Service>) {
    KicksAfter(t, kickOk) >= 2 && t.services - stopped == {}
  }

  function Completed(q: Queue, id: TaskId, kickOk: bool, stopped: set<Service>, now: int): Option<Queue> {
    if id !in q then None
    else if Completes(q[id], kickOk, stopped) then Some(q - {id})
    else
      Some(q[id := q[id].(
             kickSuccesses := KicksAfter(q[id], kickOk),
             services := q[id].services - stopped,
             leaseUntil := 0,
             nextAttemptAt := now + (if kickOk then SECOND_KICK_DELAY_SECONDS else RETRY_DELAY_SECONDS))])
  }

  function Discarded(q: Queue, id: TaskId): Option<Queue> {
    if id in q then Some(q - {id}) else None
  }

  /* ---- When a task is due after each of them ---- */

  /** The rest of the queue is left alone, and of the task what is not named here. */
  ghost predicate OnlyTask(q: Queue, next: Queue, id: TaskId) {
    id in next && next == q[id := next[id]]
  }

  /** Arming adds a task that is due at once, or leaves the queue as it is; it is refused
      for another binding and for lack of room, and for nothing else. */
  lemma PreparedMeans(q: Queue, id: TaskId, user: User, previous: Generation, target: Generation,
                      services: set<Service>, now: int)
    ensures var p := Prepared(q, id, user, previous, target, services, now);
            && (p == Raised(BindingMismatch) <==>
                  id in q && !(q[id].user == user && q[id].previous == previous && q[id].target == target))
            && (p == Raised(CapacityFull) <==> id !in q && |q| >= 512)
            && (p.Done? && id in q ==> p.value == q)
            && (p.Done? && id !in q ==>
                  && OnlyTask(q, p.value, id)
                  && var t := p.value[id];
                     && t.user == user && t.previous == previous && t.target == target && t.services == services
                     && t.createdAt == now && t.expiresAt == now + 600 && t.kickSuccesses == 0 && t.attempts == 0
                     && forall at :: Due(t, at) <==> at >= now && at >= 0)
  {
  }

  /** A task asked for more services is due at once, unless it is leased. */
  lemma WithServicesMeans(q: Queue, id: TaskId, wanted: set<Service>, now: int)
    ensures var w := WithServices(q, id, wanted, now);
            && (w.Some? <==> wanted != {} && id in q)
            && (w.Some? ==>
                  && OnlyTask(q, w.value, id)
                  && var t, n := q[id], w.value[id];
                     && n == t.(services := n.services, nextAttemptAt := n.nextAttemptAt)
                     && (forall s :: s in n.services <==> s in t.services || s in wanted)
                     && forall at :: Due(n, at) <==> t.leaseUntil <= at && (now <= at || t.nextAttemptAt <= at))
  {
  }

  /** A claimed task is due again exactly 15 seconds later. */
  lemma LeasedMeans(q: Queue, id: TaskId, now: int)
    requires id in q && Due(q[id], now)
    ensures OnlyTask(q, Leased(q, id, now), id)
    ensures var t, n := q[id], Leased(q, id, now)[id];
            && n == t.(leaseUntil := n.leaseUntil, attempts := t.attempts + 1)
            && forall at :: Due(n, at) <==> at >= now + 15
  {
  }

  /** A released task is due again exactly after the delay, which is at least a second. */
  lemma ReleasedMeans(q: Queue, id: TaskId, delay: int, now: int)
    ensures var w := Released(q, id, delay, now);
            && (w.Some? <==> id in q)
            && (w.Some? ==>
                  && OnlyTask(q, w.value, id)
                  && var t, n := q[id], w.value[id];
                     && n == t.(leaseUntil := n.leaseUntil, nextAttemptAt := n.nextAttemptAt)
                     && forall at :: Due(n, at) <==> at >= now + (if delay < 1 then 1 else delay) && at >= 0)
  {
  }

  /** A recorded attempt removes the task, or leaves it due again exactly two seconds after
      a kick that succeeded and five after one that failed. */
  lemma CompletedMeans(q: Queue, id: TaskId, kickOk: bool, stopped: set<Service>, now: int)
    ensures var w := Completed(q, id, kickOk, stopped, now);
            && (w.Some? <==> id in q)
            && (w.Some? && id !in w.value ==> w.value == q - {id})
            && (w.Some? && id in w.value ==>
                  && OnlyTask(q, w.value, id)
                  && var t, n := q[id], w.value[id];
                     && n == t.(kickSuccesses := n.kickSuccesses, services := n.services, leaseUntil := n.leaseUntil,
                                nextAttemptAt := n.nextAttemptAt)
                     && forall at :: Due(n, at) <==> at >= now + (if kickOk then 2 else 5) && at >= 0)
  {
  }

  /** The stored queue; every operation reloads it, updates a local copy and saves. */
  class Store {
    const file: JsonFile<Queue>

    ghost function Contents(): Disk<Queue>
      reads this, file
    {
      file.Contents()
    }

    constructor (file: JsonFile<Queue>)
      ensures this.file == file
    {
      this.file := file;
    }

    /** Arm a task before the canonical credential changes. An existing task with the
        same binding is rewritten, so that a retry sets a new durability point. */
    method Prepare(id: TaskId, user: User, previous: Generation, target: Generation,
                   services: set<Service>, now: int, fault: Fault)
      returns (r: Reply<Task>)
      modifies file
      ensures var p := Prepared(old(Contents()).visible, id, user, previous, target, services, now);
              && (p.Raised? ==> r == Raised(p.error) && Contents() == old(Contents()))
              && (p.Done? ==>
                    && Contents() == old(Contents()).Write(p.value, Landing(fault))
                    && r == if fault == NoFault then Done(p.value[id]) else Raised(WriteFailed(Landing(fault))))
    {
      var data := file.visible;
      if id in data {
        var existing := data[id];
        if existing.user != user || existing.previous != previous || existing.target != target {
          return Raised(BindingMismatch);
        }
      } else {
        if |data| >= TASK_MAX_ENTRIES {
          return Raised(CapacityFull);
        }
        data := data[id := Task(user, previous, target, now, now + TASK_TTL_SECONDS,
                                now, 0, 0, 0, services)];
      }
      var o := file.WriteAtomic(data, fault);
      r := if o == Durable then Done(data[id]) else Raised(WriteFailed(o));
    }

    method AddStaticServices(id: TaskId, wanted: set<Service>, now: int, fault: Fault)
      returns (r: Reply<bool>)
      modifies file
      ensures var w := WithServices(old(Contents()).visible, id, wanted, now);
              && Contents() == old(Contents()).WriteIf(w, Landing(fault))
              && r == if w.None? then Done(false)
                      else if fault == NoFault then Done(true)
                      else Raised(WriteFailed(Landing(fault)))
    {
      if wanted == {} {
        return Done(false);
      }
      var data := file.visible;
      if id !in data {
        return Done(false);
      }
      var item := data[id];
      item := item.(services := item.services + wanted);
      item := item.(nextAttemptAt := if item.nextAttemptAt <= now then item.nextAttemptAt else now);
      var o := file.WriteAtomic(data[id := item], fault);
      r := if o == Durable then Done(true) else Raised(WriteFailed(o));
    }

    /** Lease the first due task in rank order. */
    method ClaimDue(now: int, fault: Fault) returns (r: Reply<Option<TaskId>>)
      modifies file
      ensures var q := old(Contents()).visible;
              if exists id: TaskId :: id in q && Due(q[id], now) then
                exists id: TaskId :: FirstDue(q, id, now) &&
                  Contents() == old(Contents()).Write(Leased(q, id, now), Landing(fault)) &&
                  r == if fault == NoFault then Done(Some(id)) else Raised(WriteFailed(Landing(fault)))
              else
                Contents() == old(Contents()) && r == Done(None)
    {
      var data := file.visible;
      var rest := data.Keys;
      var best: Option<TaskId> := None;
      while rest != {}
        invariant rest <= data.Keys
        invariant best.None? ==> forall id | id in data && id !in rest :: !Due(data[id], now)
        invariant best.Some? ==>
                    && best.value in data && Due(data[best.value], now)
                    && forall id | id in data && id !in rest && id != best.value && Due(data[id], now) ::
                         RanksBefore(data, best.value, id)
        invariant file.visible == data && Contents() == old(Contents())
        decreases rest
      {
        var id :| id in rest;
        rest := rest - {id};
        if Due(data[id], now) && (best.None? || RanksBefore(data, id, best.value)) {
          best := Some(id);
        }
      }
      if best.None? {
        return Done(None);
      }
      var item := data[best.value];
      item := item.(leaseUntil := now + CLAIM_LEASE_SECONDS);
      item := item.(attempts := item.attempts + 1);
      ghost var chosen := best.value;
      assert FirstDue(data, chosen, now);
      var o := file.WriteAtomic(data[best.value := item], fault);
      assert Contents() == old(Contents()).Write(Leased(data, chosen, now), o);
      r := if o == Durable then Done(best) else Raised(WriteFailed(o));
    }

    method ReleaseClaim(id: TaskId, delay: int, now: int, fault: Fault) returns (r: Reply<bool>)
      modifies file
      ensures var w := Released(old(Contents()).visible, id, delay, now);
              && Contents() == old(Contents()).WriteIf(w, Landing(fault))
              && r == if w.None? then Done(false)
                      else if fault == NoFault then Done(true)
                      else Raised(WriteFailed(Landing(fault)))
    {
      var data := file.visible;
      if id !in data {
        return Done(false);
      }
      var item := data[id];
      item := item.(leaseUntil := 0);
      item := item.(nextAttemptAt := now + (if delay < 1 then 1 else delay));
      var o := file.WriteAtomic(data[id := item], fault);
      r := if o == Durable then Done(true) else Raised(WriteFailed(o));
    }

    /** Record one attempt. Done(None) reports a task that is no longer there,
        Done(Some(b)) whether the task is now complete. */
    method CompleteAttempt(id: TaskId, kickOk: bool, stopped: set<Service>, now: int, fault: Fault)
      returns (r: Reply<Option<bool>>)
      modifies file
      ensures var q := old(Contents()).visible;
              var w := Completed(q, id, kickOk, stopped, now);
              && Contents() == old(Contents()).WriteIf(w, Landing(fault))
              && r == if id !in q then Done(None)
                      else if fault == NoFault then Done(Some(Completes(q[id], kickOk, stopped)))
                      else Raised(WriteFailed(Landing(fault)))
    {
      var data := file.visible;
      if id !in data {
        return Done(None);
      }
      var item := data[id];
      var successes := item.kickSuccesses;
      if kickOk {
        successes := if successes + 1 <= 2 then successes + 1 else 2;
      } else {
        successes := 0;
      }
      item := item.(kickSuccesses := successes);
      item := item.(services := item.services - stopped);
      var complete := successes >= 2 && item.services == {};
      if complete {
        data := data - {id};
      } else {
        item := item.(leaseUntil := 0);
        item := item.(nextAttemptAt := now + (if kickOk then SECOND_KICK_DELAY_SECONDS else RETRY_DELAY_SECONDS));
        data := data[id := item];
      }
      var o := file.WriteAtomic(data, fault);
      r := if o == Durable then Done(Some(complete)) else Raised(WriteFailed(o));
    }

    method Discard(id: TaskId, fault: Fault) returns (r: Reply<()>)
      modifies file
      ensures var w := Discarded(old(Contents()).visible, id);
              && Contents() == old(Contents()).WriteIf(w, Landing(fault))
              && r == if w.None? || fault == NoFault then Done(()) else Raised(WriteFailed(Landing(fault)))
    {
      var data := file.visible;
      if id !in data {
        return Done(());
      }
      var o := file.WriteAtomic(data - {id}, fault);
      r := if o == Durable then Done(()) else Raised(WriteFailed(o));
    }
  }
}
