/** Taking a deletion for superseded is safe exactly if no older, still recoverable
    users.json holds the revision it names. */
module DeletionExact {
  import opened StateStore
  import opened RevocationQueue
  import opened RotationRecovery
  import RevocationRuns
  import opened CredentialProtocol
  import opened CredentialDeletion

  const BOTH: set<Service> := {Xray, Tuic}

  /** The retry thread is about to take this deletion for superseded. */
  predicate WillSkip(s: State, id: TaskId, revision: nat) {
    && s.worker.Claimed? && s.worker.id == id && s.section.Free?
    && s.worker.task.target == Deleted && s.worker.task.previous == Revision(revision)
    && s.worker.task.user == id.user && DeleteSuperseded(s.users.visible, s.worker.task)
  }

  /** The deletion left the queue, and users.json shows the revision it names again. */
  predicate Undone(s: State, id: TaskId, revision: nat) {
    id !in s.queue.visible && ShowsRevision(s.users.visible, id.user, revision)
  }

  lemma Next(base: State, events: seq<Event>, s: State, e: Event, patience: Patience)
    returns (more: seq<Event>, n: State)
    requires Runs(base, events, patience) && After(base, events, patience) == s && Enabled(s, e, patience)
    ensures Runs(base, more, patience) && After(base, more, patience) == n && n == Step(s, e, patience)
    ensures events <= more
  {
    hide Step, Enabled;
    OneMore(base, events, e, patience);
    more, n := events + [e], Step(s, e, patience);
  }

  /** The queue differs, and nothing else that matters to a deletion. */
  predicate SameUsers(s: State, n: State) {
    n.users == s.users && n.section == s.section && n.issued == s.issued && n.now == s.now
  }

  lemma ClaimStep(s: State, id: TaskId, patience: Patience)
    requires s.worker.Resting? && FirstDue(s.queue.visible, id, s.now)
    ensures Enabled(s, WorkerClaims(id, Durable), patience)
    ensures var q := Leased(s.queue.visible, id, s.now);
            Step(s, WorkerClaims(id, Durable), patience) == s.(queue := Disk(q, {}), worker := Claimed(id, q[id]))
  {
  }

  lemma RestStep(s: State, patience: Patience)
    ensures Enabled(s, WorkerAborts, patience) && Step(s, WorkerAborts, patience) == s.(worker := Resting)
  {
  }

  function DueOthers(q: Queue, id: TaskId, now: int): set<TaskId> {
    set other | other in q && other != id && Due(q[other], now)
  }

  lemma LeasedFewerDue(q: Queue, id: TaskId, other: TaskId, now: int)
    requires id in q && other in DueOthers(q, id, now)
    ensures var n := Leased(q, other, now);
            n[id] == q[id] && DueOthers(n, id, now) == DueOthers(q, id, now) - {other}
  {
  }

  /** The retry thread may claim and abandon every other due task first, and then this one. */
  lemma {:induction false} ClaimInTime(base: State, events: seq<Event>, s: State, id: TaskId, patience: Patience)
    returns (more: seq<Event>, n: State)
    requires Runs(base, events, patience) && After(base, events, patience) == s
    requires s.worker.Resting? && id in s.queue.visible && Due(s.queue.visible[id], s.now)
    ensures Runs(base, more, patience) && After(base, more, patience) == n
    ensures events <= more
    ensures SameUsers(s, n) && id in n.queue.visible && n.worker == Claimed(id, n.queue.visible[id])
    ensures var t, u := s.queue.visible[id], n.queue.visible[id];
            u.target == t.target && u.previous == t.previous && u.user == t.user
            && u.kickSuccesses == t.kickSuccesses && u.services == t.services
    decreases DueOthers(s.queue.visible, id, s.now)
  {
    hide Step, Enabled, Runs, After, Due;
    RevocationRuns.FirstDueExists(s.queue.visible, s.queue.visible.Keys, s.now);
    var first: TaskId :| FirstDue(s.queue.visible, first, s.now);
    ClaimStep(s, first, patience);
    more, n := Next(base, events, s, WorkerClaims(first, Durable), patience);
    if first != id {
      assert first in DueOthers(s.queue.visible, id, s.now);
      LeasedFewerDue(s.queue.visible, id, first, s.now);
      var m := n;
      RestStep(m, patience);
      more, n := Next(base, more, m, WorkerAborts, patience);
      more, n := ClaimInTime(base, more, n, id, patience);
    }
  }

  lemma SkipStep(s: State, id: TaskId, revision: nat, patience: Patience)
    requires WillSkip(s, id, revision)
    ensures Enabled(s, WorkerDecides(Durable, true), patience)
    ensures var n := Step(s, WorkerDecides(Durable, true), patience);
            n == s.(worker := Decided(id, s.worker.task, Deleted, s.now), redone := n.redone)
  {
  }

  lemma KickStep(s: State, id: TaskId, patience: Patience)
    requires 0 <= patience && 0 <= s.now && s.worker.Decided? && s.worker.id == id && s.worker.at == s.now
    requires s.worker.task.target == Deleted == s.worker.seen && id in s.queue.visible
             && s.queue.visible[id].target == Deleted
    ensures Enabled(s, WorkerSettles(true, BOTH, Durable), patience)
    ensures var n, t := Step(s, WorkerSettles(true, BOTH, Durable), patience), s.queue.visible[id];
            && SameUsers(s, n) && n.worker.Resting?
            && (t.kickSuccesses >= 1 ==> id !in n.queue.visible)
            && (t.kickSuccesses == 0 ==>
                  id in n.queue.visible && Due(n.queue.visible[id], s.now + SECOND_KICK_DELAY_SECONDS)
                  && n.queue.visible[id].kickSuccesses == 1 && n.queue.visible[id].target == Deleted
                  && n.queue.visible[id].previous == t.previous && n.queue.visible[id].user == t.user)
  {
    forall x | x in s.queue.visible[id].services
      ensures x in BOTH
    {
      assert x.Xray? || x.Tuic?;
    }
  }

  lemma LossStep(s: State, shown: Accounts, patience: Patience)
    requires shown in s.users.Versions()
    ensures var e := PowerLoss(shown, s.receipts.visible, s.queue.visible);
            Enabled(s, e, patience)
            && Step(s, e, patience).users.visible == shown && Step(s, e, patience).queue.visible == s.queue.visible
  {
  }

  /** From the decision on: a first kick, 2 seconds later the same decision and a second
      kick, and then the power loss. */
  lemma SkipUndone(base: State, events: seq<Event>, s: State, id: TaskId, revision: nat, shown: Accounts,
                   patience: Patience)
    returns (more: seq<Event>, n: State)
    requires 0 <= patience && 0 <= s.now
    requires Runs(base, events, patience) && After(base, events, patience) == s
    requires s.worker.Decided? && s.worker.id == id && s.worker.at == s.now && s.section.Free?
    requires s.worker.task.target == Deleted == s.worker.seen
    requires id in s.queue.visible
    requires var t := s.queue.visible[id];
             t.target == Deleted && t.previous == Revision(revision) && t.user == id.user && 0 <= t.kickSuccesses
    requires DeleteSuperseded(s.users.visible, s.queue.visible[id])
    requires shown in s.users.Versions() && ShowsRevision(shown, id.user, revision)
    ensures Runs(base, more, patience) && After(base, more, patience) == n
    ensures events <= more && Undone(n, id, revision)
  {
    hide Step, Enabled, Runs, After;
    KickStep(s, id, patience);
    more, n := Next(base, events, s, WorkerSettles(true, BOTH, Durable), patience);
    if s.queue.visible[id].kickSuccesses == 0 {
      var later := n.now + SECOND_KICK_DELAY_SECONDS;
      more, n := Waits(base, more, n, later, patience);
      more, n := ClaimInTime(base, more, n, id, patience);
      SkipStep(n, id, revision, patience);
      more, n := Next(base, more, n, WorkerDecides(Durable, true), patience);
      KickStep(n, id, patience);
      more, n := Next(base, more, n, WorkerSettles(true, BOTH, Durable), patience);
    }
    LossStep(n, shown, patience);
    more, n := Next(base, more, n, PowerLoss(shown, n.receipts.visible, n.queue.visible), patience);
  }

  lemma Waits(base: State, events: seq<Event>, s: State, now: int, patience: Patience)
    returns (more: seq<Event>, n: State)
    requires Runs(base, events, patience) && After(base, events, patience) == s && s.now <= now
    ensures Runs(base, more, patience) && After(base, more, patience) == n && n == s.(now := now)
    ensures events <= more
  {
    more, n := Next(base, events, s, Tick(now), patience);
  }

  lemma SkipLoses(s: State, id: TaskId, revision: nat, shown: Accounts, patience: Patience)
    requires 0 <= patience && 0 <= s.now && WillSkip(s, id, revision) && id in s.queue.visible
    requires var t := s.queue.visible[id];
             t.target == Deleted && t.previous == Revision(revision) && t.user == id.user && 0 <= t.kickSuccesses
    requires shown in s.users.Versions() && ShowsRevision(shown, id.user, revision)
    ensures exists more: seq<Event> ::
              0 < |more| && more[0] == WorkerDecides(Durable, true)
              && Runs(s, more, patience) && Undone(After(s, more, patience), id, revision)
  {
    hide Step, Enabled;
    SkipStep(s, id, revision, patience);
    OneMore(s, [], WorkerDecides(Durable, true), patience);
    var first := [WorkerDecides(Durable, true)];
    assert [] + first == first;
    hide Runs, After;
    var more, n := SkipUndone(s, first, Step(s, WorkerDecides(Durable, true), patience), id, revision, shown, patience);
  }

  /** A deletion taken for superseded can come undone, by some continuation or other,
      exactly if an older, recoverable users.json holds the revision it names. */
  lemma SkipExact(s: State, id: TaskId, patience: Patience)
    requires 0 <= patience && 0 <= s.now && Sound(s) && id in s.named && id in s.queue.visible
    requires WillSkip(s, id, s.named[id]) && 0 <= s.queue.visible[id].kickSuccesses
    ensures HeldByOlder(s, id.user, s.named[id]) <==>
            exists more: seq<Event> ::
              0 < |more| && more[0] == WorkerDecides(Durable, true)
              && Runs(s, more, patience) && Undone(After(s, more, patience), id, s.named[id])
  {
    var revision := s.named[id];
    if HeldByOlder(s, id.user, revision) {
      var shown: Accounts :| shown in s.users.stale && ShowsRevision(shown, id.user, revision);
      assert s.queue.visible in s.queue.Versions();
      SkipLoses(s, id, revision, shown, patience);
    } else {
      hide Runs, After;
      forall more: seq<Event> | Runs(s, more, patience)
        ensures !Undone(After(s, more, patience), id, revision)
      {
        GoneStays(s, more, id.user, revision, patience);
      }
    }
  }
}
