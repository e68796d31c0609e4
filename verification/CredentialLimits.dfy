/** Where the no-lost-revocation theorem stops: each of its guards is needed. */
module CredentialLimits {
  import opened StateStore
  import opened RevocationQueue
  import opened RotationRecovery
  import opened CredentialProtocol
  import opened CredentialInvariant
  import opened CredentialSteps

  /** The run so far, with its last state. */
  lemma Then(events: seq<Event>, s: State, e: Event, patience: Patience) returns (more: seq<Event>, n: State)
    requires Runs(Start, events, patience) && After(Start, events, patience) == s
    requires Enabled(s, e, patience)
    ensures more == events + [e] && Runs(Start, more, patience)
    ensures n == Step(s, e, patience) == After(Start, more, patience)
    ensures CalmRun(Start, events, patience) && Calm(s, e, patience) ==> CalmRun(Start, more, patience)
  {
    assert (events + [e])[..|events|] == events;
    more, n := events + [e], Step(s, e, patience);
  }

  /** One event of the locked section, by its handler. */
  lemma ThenLocked(events: seq<Event>, s: State, e: Event, patience: Patience) returns (more: seq<Event>, n: State)
    requires Runs(Start, events, patience) && After(Start, events, patience) == s
    requires Enabled(s, e, patience) && (e.AdminRotate? || e.Rotate? || e.WriteReceipt? || e.ArmTask?
             || e.Commit? || e.DropTask?)
    ensures Runs(Start, more, patience) && After(Start, more, patience) == n
    ensures CalmRun(Start, events, patience) && Calm(s, e, patience) ==> CalmRun(Start, more, patience)
    ensures n == if e.AdminRotate? then DoAdminRotate(s, e.user)
                 else if e.Rotate? then DoRotate(s, e.user, e.request, e.session, e.posted)
                 else if e.WriteReceipt? then DoWriteReceipt(s, e.o)
                 else if e.DropTask? then DoDropTask(s, e.o)
                 else if e.ArmTask? then DoArmTask(s, e.services, e.o)
                 else DoCommit(s, e.o)
  {
    more, n := Then(events, s, e, patience);
  }

  lemma ThenClaims(events: seq<Event>, s: State, id: TaskId, patience: Patience) returns (more: seq<Event>, n: State)
    requires Runs(Start, events, patience) && After(Start, events, patience) == s
    requires s.worker.Resting? && FirstDue(s.queue.visible, id, s.now)
    ensures Runs(Start, more, patience) && After(Start, more, patience) == n
    ensures CalmRun(Start, events, patience) ==> CalmRun(Start, more, patience)
    ensures var q := Leased(s.queue.visible, id, s.now);
            n == s.(queue := Disk(q, {}), worker := Claimed(id, q[id]))
  {
    hide RanksBefore, Due;
    more, n := Then(events, s, WorkerClaims(id, Durable), patience);
  }

  lemma ThenDecides(events: seq<Event>, s: State, patience: Patience) returns (more: seq<Event>, n: State)
    requires Runs(Start, events, patience) && After(Start, events, patience) == s
    requires s.worker.Claimed? && s.section.Free?
    ensures Runs(Start, more, patience) && After(Start, more, patience) == n
    ensures CalmRun(Start, events, patience) && Calm(s, WorkerDecides(Durable, true), patience) ==>
              CalmRun(Start, more, patience)
    ensures n == DoWorkerDecides(s, Durable, true)
  {
    hide DoWorkerDecides;
    more, n := Then(events, s, WorkerDecides(Durable, true), patience);
  }

  lemma ThenSettles(events: seq<Event>, s: State, patience: Patience) returns (more: seq<Event>, n: State)
    requires Runs(Start, events, patience) && After(Start, events, patience) == s
    requires s.worker.Decided? && s.now <= s.worker.at + patience
    ensures Runs(Start, more, patience) && After(Start, more, patience) == n
    ensures CalmRun(Start, events, patience) ==> CalmRun(Start, more, patience)
    ensures n == DoWorkerSettles(s, true, {}, Durable)
  {
    hide DoWorkerSettles;
    more, n := Then(events, s, WorkerSettles(true, {}, Durable), patience);
  }

  /** An administrator rotates a token: draw, arm, commit. */
  lemma AdminRotates(events: seq<Event>, s: State, user: User, o: Outcome, patience: Patience)
    returns (more: seq<Event>, n: State)
    requires Runs(Start, events, patience) && After(Start, events, patience) == s
    requires s.section.Free? && user in s.users.visible && |s.queue.visible| < TASK_MAX_ENTRIES && !o.NotReplaced?
    requires ForNonce(user, s.issued + 1) !in s.queue.visible && s.users.visible[user].token <= s.issued
    ensures Runs(Start, more, patience) && After(Start, more, patience) == n
    ensures var drawn, id := s.issued + 1, ForNonce(user, s.issued + 1);
            && n.section.Free? && n.worker == s.worker && n.now == s.now && n.issued == s.issued + 2
            && n.users == s.users.Write(s.users.visible[user := Account(drawn, s.issued + 2)], o)
            && n.queue == Disk(s.queue.visible[id := Fresh(user, Token(s.users.visible[user].token), Token(drawn),
               {}, s.now)], {})
            && n.receipts == s.receipts && n.retired == s.retired - {drawn}
               && n.intents == s.intents[drawn := Intent(id, s.users.visible[user].token)]
            && n.handoffs == s.handoffs + multiset{(id, Token(drawn))}
  {
    hide Step, Runs, After;
    more, n := ThenLocked(events, s, AdminRotate(user), patience);
    more, n := ThenLocked(more, n, ArmTask({}, Durable), patience);
    more, n := ThenLocked(more, n, Commit(o), patience);
  }

  /** An account and one committed administrator rotation, whose task is still queued. */
  lemma OneRotation(patience: Patience) returns (events: seq<Event>, s: State)
    ensures Runs(Start, events, patience) && After(Start, events, patience) == s
    ensures s.now == 0 && s.section.Free? && s.worker.Resting? && s.issued == 3
    ensures s.users == Disk(map[7 := Account(2, 3)], {})
    ensures s.queue == Disk(map[ForNonce(7, 2) := Fresh(7, Token(1), Token(2), {}, 0)], {})
    ensures s.receipts == Disk(map[], {}) && s.retired == {} && s.intents == map[2 := Intent(ForNonce(7, 2), 1)]
    ensures s.handoffs == multiset{(ForNonce(7, 2), Token(2))}
  {
    events, s := [], Start;
    events, s := Then(events, s, Create(7, Durable), patience);
    events, s := AdminRotates(events, s, 7, Durable, patience);
    assert s.users.visible == map[7 := Account(2, 3)];
  }

  /** The next rotation was written without certain durability; the retry thread drops the
      first one's task as superseded; the power loss brings the first one's token back. */
  lemma UncertainCommitLosesRevocation(patience: Patience) returns (events: seq<Event>)
    requires 0 <= patience
    ensures Runs(Start, events, patience) && !NoLostRevocation(After(Start, events, patience))
  {
    hide Enabled, Step, Runs, After;
    var s;
    var first, task := map[7 := Account(2, 3)], ForNonce(7, 2);
    events, s := TwoRotations(patience);
    events, s := WorkerDrops(events, s, task, patience);
    events, s := PowerFails(events, s, first, patience);
    Lost(s, 7, task);
  }

  /** Two administrator rotations, the second of uncertain durability. */
  lemma TwoRotations(patience: Patience) returns (events: seq<Event>, s: State)
    ensures Runs(Start, events, patience) && After(Start, events, patience) == s
    ensures s.now == 0 && s.section.Free? && s.worker.Resting? && s.retired == {}
    ensures s.users.visible == map[7 := Account(4, 5)] && map[7 := Account(2, 3)] in s.users.Versions()
    ensures s.queue.visible == map[ForNonce(7, 2) := Fresh(7, Token(1), Token(2), {}, 0),
                                   ForNonce(7, 4) := Fresh(7, Token(2), Token(4), {}, 0)]
    ensures s.intents == map[2 := Intent(ForNonce(7, 2), 1), 4 := Intent(ForNonce(7, 4), 2)]
  {
    hide Enabled, Step, Runs, After, Fresh;
    events, s := OneRotation(patience);
    assert s.queue.visible.Keys == {ForNonce(7, 2)};
    assert |s.queue.visible| == |s.queue.visible.Keys| == 1;
    events, s := AdminRotates(events, s, 7, Uncertain, patience);
  }

  lemma PowerFails(events: seq<Event>, s: State, shown: Accounts, patience: Patience)
    returns (more: seq<Event>, n: State)
    requires Runs(Start, events, patience) && After(Start, events, patience) == s
    requires shown in s.users.Versions()
    ensures Runs(Start, more, patience) && After(Start, more, patience) == n
    ensures n.users == Disk(shown, {}) && n.queue == Disk(s.queue.visible, {})
            && n.receipts == Disk(s.receipts.visible, {})
    ensures n.intents == s.intents && n.retired == s.retired && n.issued == s.issued && n.now == s.now
    ensures n.section.Free? && n.worker.Resting? && n.handoffs == multiset{}
  {
    more, n := Then(events, s, PowerLoss(shown, s.receipts.visible, s.queue.visible), patience);
  }

  /** A browser asks for a fresh rotation with the current token. */
  lemma UserRotates(events: seq<Event>, s: State, user: User, request: nat, o: Outcome, patience: Patience)
    returns (more: seq<Event>, n: State)
    requires Runs(Start, events, patience) && After(Start, events, patience) == s
    requires s.section.Free? && user in s.users.visible && s.users.visible[user].token <= s.issued
    requires ForRequest(user, request) !in s.queue.visible && |s.queue.visible| < TASK_MAX_ENTRIES
    requires ForRequest(user, request) !in s.receipts.visible && |s.receipts.visible| < RECEIPT_MAX_ENTRIES
    requires Pruned(s.receipts.visible, s.now) == s.receipts.visible
    ensures Runs(Start, more, patience) && After(Start, more, patience) == n
    ensures CalmRun(Start, events, patience) && s.worker.Resting? && s.handoffs == multiset{} ==>
              CalmRun(Start, more, patience)
    ensures var id, current, drawn := ForRequest(user, request), s.users.visible[user].token, s.issued + 1;
            && n.section.Free? && n.worker == s.worker && n.now == s.now
            && n.issued == (if o.NotReplaced? then drawn else drawn + 1)
            && n.users == s.users.Write(s.users.visible[user := Account(drawn, drawn + 1)], o)
            && n.queue == Disk(s.queue.visible[id := Fresh(user, Token(current), Token(drawn), {}, s.now)], {})
            && n.receipts == Disk(s.receipts.visible[id := Receipt(current, drawn, [0], s.now,
               s.now + RECEIPT_TTL_SECONDS)], {})
            && n.retired == (if o.NotReplaced? then s.retired else s.retired - {drawn})
            && n.intents == s.intents[drawn := Intent(id, s.users.visible[user].token)]
  {
    hide Step, Runs, After;
    more, n := UserArms(events, s, user, request, patience);
    more, n := ThenLocked(more, n, Commit(o), patience);
  }

  /** The same request up to its commit. */
  lemma UserArms(events: seq<Event>, s: State, user: User, request: nat, patience: Patience)
    returns (more: seq<Event>, n: State)
    requires Runs(Start, events, patience) && After(Start, events, patience) == s
    requires s.section.Free? && user in s.users.visible && s.users.visible[user].token <= s.issued
    requires ForRequest(user, request) !in s.queue.visible && |s.queue.visible| < TASK_MAX_ENTRIES
    requires ForRequest(user, request) !in s.receipts.visible && |s.receipts.visible| < RECEIPT_MAX_ENTRIES
    requires Pruned(s.receipts.visible, s.now) == s.receipts.visible
    ensures Runs(Start, more, patience) && After(Start, more, patience) == n
    ensures CalmRun(Start, events, patience) && s.worker.Resting? && s.handoffs == multiset{} ==>
              CalmRun(Start, more, patience)
    ensures var id, current, drawn := ForRequest(user, request), s.users.visible[user].token, s.issued + 1;
            var receipt := Receipt(current, drawn, [0], s.now, s.now + RECEIPT_TTL_SECONDS);
            n == s.(issued := drawn, intents := s.intents[drawn := Intent(id, current)],
                    receipts := Disk(s.receipts.visible[id := receipt], {}),
                    queue := Disk(s.queue.visible[id := Fresh(user, Token(current), Token(drawn), {}, s.now)], {}),
                    stray := s.stray - {id}, section := Installing(id, current, receipt, s.now))
  {
    hide Step, Runs, After, Fresh;
    more, n := ThenLocked(events, s, Rotate(user, request, 0, s.users.visible[user].token), patience);
    more, n := ThenLocked(more, n, WriteReceipt(Durable), patience);
    more, n := ThenLocked(more, n, ArmTask({}, Durable), patience);
  }

  /** A browser repeats a request whose receipt is live; the task is still armed for it. */
  lemma UserReplays(events: seq<Event>, s: State, user: User, request: nat, patience: Patience)
    returns (more: seq<Event>, n: State)
    requires Runs(Start, events, patience) && After(Start, events, patience) == s
    requires s.section.Free? && user in s.users.visible
    requires Pruned(s.receipts.visible, s.now) == s.receipts.visible
    requires var id := ForRequest(user, request);
             && id in s.receipts.visible && 0 in s.receipts.visible[id].sessions && id in s.queue.visible
             && Binds(s.queue.visible[id], user, Token(s.receipts.visible[id].oldToken),
                Token(s.receipts.visible[id].newToken))
             && s.users.visible[user].token == s.receipts.visible[id].oldToken != s.receipts.visible[id].newToken
    ensures Runs(Start, more, patience) && After(Start, more, patience) == n
    ensures CalmRun(Start, events, patience) ==> CalmRun(Start, more, patience)
    ensures var token := s.receipts.visible[ForRequest(user, request)].newToken;
            && n.section.Free? && n.worker == s.worker && n.now == s.now && n.issued == s.issued + 1
            && n.users == Disk(s.users.visible[user := Account(token, s.issued + 1)], {})
            && n.queue == Disk(s.queue.visible, {}) && n.receipts == Disk(s.receipts.visible, {})
            && n.retired == s.retired - {token} && n.intents == s.intents
  {
    hide Step, Runs, After;
    more, n := ThenLocked(events, s, Rotate(user, request, 0, s.users.visible[user].token), patience);
    more, n := ThenLocked(more, n, WriteReceipt(Durable), patience);
    more, n := ThenLocked(more, n, ArmTask({}, Durable), patience);
    more, n := ThenLocked(more, n, Commit(Durable), patience);
  }

  /** A browser repeats a request whose token has been superseded. */
  lemma UserConflicts(events: seq<Event>, s: State, user: User, request: nat, patience: Patience)
    returns (more: seq<Event>, n: State)
    requires Runs(Start, events, patience) && After(Start, events, patience) == s
    requires s.section.Free? && user in s.users.visible
    requires Pruned(s.receipts.visible, s.now) == s.receipts.visible
    requires var id := ForRequest(user, request);
             && id in s.receipts.visible && 0 in s.receipts.visible[id].sessions && id in s.queue.visible
             && Binds(s.queue.visible[id], user, Token(s.receipts.visible[id].oldToken),
                Token(s.receipts.visible[id].newToken))
             && s.users.visible[user].token != s.receipts.visible[id].oldToken
             && s.users.visible[user].token != s.receipts.visible[id].newToken
    ensures Runs(Start, more, patience) && After(Start, more, patience) == n
    ensures var id := ForRequest(user, request);
            && n.section.Free? && n.worker == s.worker && n.now == s.now && n.issued == s.issued
            && n.users == s.users && n.intents == s.intents && n.retired == s.retired
            && n.queue == Disk(s.queue.visible - {id}, {}) && n.receipts == Disk(s.receipts.visible - {id}, {})
  {
    hide Step, Runs, After;
    more, n := ThenLocked(events, s, Rotate(user, request, 0, s.users.visible[user].token), patience);
    more, n := ThenLocked(more, n, WriteReceipt(Durable), patience);
    more, n := ThenLocked(more, n, ArmTask({}, Durable), patience);
    more, n := ThenLocked(more, n, Commit(Durable), patience);
    more, n := ThenLocked(more, n, DropTask(Durable), patience);
  }

  lemma WorkerReads(events: seq<Event>, s: State, id: TaskId, patience: Patience)
    returns (more: seq<Event>, n: State)
    requires Runs(Start, events, patience) && After(Start, events, patience) == s
    requires s.worker.Resting? && s.section.Free? && FirstDue(s.queue.visible, id, s.now)
    requires s.queue.visible[id].target.Token?
    ensures Runs(Start, more, patience) && After(Start, more, patience) == n
    ensures CalmRun(Start, events, patience)
            && CurrentOf(s.users.visible, s.queue.visible[id].user) == s.queue.visible[id].previous ==>
              CalmRun(Start, more, patience)
    ensures var q := Leased(s.queue.visible, id, s.now);
            n == s.(queue := Disk(q, {}),
                    worker := Decided(id, q[id], CurrentOf(s.users.visible, q[id].user), s.now))
  {
    hide Step, Runs, After;
    more, n := ThenClaims(events, s, id, patience);
    more, n := ThenDecides(more, n, patience);
  }

  lemma OneAccount(patience: Patience) returns (events: seq<Event>, s: State)
    ensures Runs(Start, events, patience) && After(Start, events, patience) == s && CalmRun(Start, events, patience)
    ensures s == Start.(users := Disk(map[7 := Account(1, 1)], {}), issued := 1)
  {
    events, s := Then([], Start, Create(7, Durable), patience);
  }

  lemma TimePasses(events: seq<Event>, s: State, now: int, patience: Patience) returns (more: seq<Event>, n: State)
    requires Runs(Start, events, patience) && After(Start, events, patience) == s && s.now <= now
    ensures Runs(Start, more, patience) && After(Start, more, patience) == n && n == s.(now := now)
    ensures CalmRun(Start, events, patience) ==> CalmRun(Start, more, patience)
  {
    more, n := Then(events, s, Tick(now), patience);
  }

  /** The retry thread acts on what it read: it gives up, drops, or waits. */
  lemma WorkerActs(events: seq<Event>, s: State, patience: Patience) returns (more: seq<Event>, n: State)
    requires Runs(Start, events, patience) && After(Start, events, patience) == s
    requires s.worker.Decided? && s.now <= s.worker.at + patience && s.worker.id in s.queue.visible
    requires !VerdictOn(s.worker.task, s.worker.seen, s.now).Kick?
    ensures Runs(Start, more, patience) && After(Start, more, patience) == n
    ensures CalmRun(Start, events, patience) ==> CalmRun(Start, more, patience)
    ensures var id, q := s.worker.id, s.queue.visible;
            n == s.(worker := Resting,
                    queue := Disk(if VerdictOn(s.worker.task, s.worker.seen, s.now).Retry?
                                  then Released(q, id, RETRY_DELAY_SECONDS, s.now).value else q - {id}, {}))
  {
    hide Step, Runs, After;
    more, n := ThenSettles(events, s, patience);
  }

  /** The retry thread claims a task, reads the account and drops the task. */
  lemma WorkerDrops(events: seq<Event>, s: State, id: TaskId, patience: Patience)
    returns (more: seq<Event>, n: State)
    requires Runs(Start, events, patience) && After(Start, events, patience) == s
    requires 0 <= patience && s.worker.Resting? && s.section.Free? && FirstDue(s.queue.visible, id, s.now)
    requires var t := s.queue.visible[id];
             t.target.Token? && VerdictOn(t, CurrentOf(s.users.visible, t.user), s.now).Superseded?
    ensures Runs(Start, more, patience) && After(Start, more, patience) == n
    ensures n == s.(queue := n.queue) && n.queue == Disk(s.queue.visible - {id}, {})
  {
    hide Step, Enabled, Runs, After;
    more, n := WorkerReads(events, s, id, patience);
    more, n := WorkerActs(more, n, patience);
    assert s.queue.visible - {id} == Leased(s.queue.visible, id, s.now) - {id};
  }

  /** With one more second than the theorem allows, the retry thread can read the account
      just before the last possible replay and give the task up after it. */
  lemma SlowWorkerLosesRevocation(patience: Patience) returns (events: seq<Event>)
    requires patience > TASK_TTL_SECONDS - RECEIPT_TTL_SECONDS
    ensures Runs(Start, events, patience) && CalmRun(Start, events, patience)
    ensures !NoLostRevocation(After(Start, events, patience))
  {
    hide Step, Enabled, Runs, After, Calm, CalmRun;
    var id := ForRequest(7, 0);
    var s;
    events, s := OneAccount(patience);
    events, s := UserRotates(events, s, 7, 0, NotReplaced, patience);
    events, s := TimePasses(events, s, 299, patience);
    events, s := WorkerReads(events, s, id, patience);
    events, s := UserReplays(events, s, 7, 0, patience);
    events, s := TimePasses(events, s, 600, patience);
    events, s := WorkerActs(events, s, patience);
    Lost(s, 7, id);
  }

  /** No calm run loses a revocation exactly if the retry thread takes no longer than the
      300 seconds between the windows of receipt and task. */
  lemma PatienceExact(patience: Patience)
    ensures patience <= TASK_TTL_SECONDS - RECEIPT_TTL_SECONDS <==>
            forall events: seq<Event> | Runs(Start, events, patience) && CalmRun(Start, events, patience) ::
              NoLostRevocation(After(Start, events, patience))
  {
    if patience <= TASK_TTL_SECONDS - RECEIPT_TTL_SECONDS {
      forall events: seq<Event> | Runs(Start, events, patience) && CalmRun(Start, events, patience)
        ensures NoLostRevocation(After(Start, events, patience))
      {
        NoRevocationIsLost(events, patience);
      }
    } else {
      var events := SlowWorkerLosesRevocation(patience);
    }
  }

  /** A shown token whose task is neither queued nor completed is a lost revocation. */
  lemma Lost(s: State, user: User, id: TaskId)
    requires user in s.users.visible && s.users.visible[user].token in s.intents
    requires s.intents[s.users.visible[user].token].id == id && id !in s.queue.visible
    requires s.users.visible[user].token !in s.retired
    ensures !NoLostRevocation(s)
  {
  }

  /** An account whose token was rotated once by request 0. */
  lemma OneUserRotation(o: Outcome, patience: Patience) returns (events: seq<Event>, s: State)
    requires !o.NotReplaced?
    ensures Runs(Start, events, patience) && After(Start, events, patience) == s
    ensures s.now == 0 && s.section.Free? && s.worker.Resting? && s.issued == 3 && s.retired == {}
    ensures s.users == Disk(map[7 := Account(2, 3)], if o.Durable? then {} else {map[7 := Account(1, 1)]})
    ensures s.receipts == Disk(map[ForRequest(7, 0) := Receipt(1, 2, [0], 0, 300)], {})
    ensures s.queue == Disk(map[ForRequest(7, 0) := Fresh(7, Token(1), Token(2), {}, 0)], {})
    ensures s.intents == map[2 := Intent(ForRequest(7, 0), 1)]
  {
    hide Step, Enabled, Runs, After;
    events, s := OneAccount(patience);
    events, s := UserRotates(events, s, 7, 0, o, patience);
    assert s.users.visible == map[7 := Account(2, 3)];
  }

  /** A rotation by request 0, superseded by an administrator; the retry thread has just
      read the account for the first task. */
  lemma SupersededInHand(patience: Patience) returns (events: seq<Event>, s: State)
    requires 0 <= patience
    ensures Runs(Start, events, patience) && After(Start, events, patience) == s
    ensures var id := ForRequest(7, 0);
            && s.now == 0 && s.section.Free? && s.issued == 5 && s.retired == {}
            && s.users.visible.Keys == {7} && s.users.visible[7].token == 4
            && s.receipts.visible == map[id := Receipt(1, 2, [0], 0, 300)]
            && s.queue.visible.Keys == {id, ForNonce(7, 4)}
            && Binds(s.queue.visible[id], 7, Token(1), Token(2))
            && s.worker.Decided? && s.worker.id == id && s.worker.at == 0
            && s.worker.task.target == Token(2) && s.worker.task.previous == Token(1) && s.worker.seen == Token(4)
  {
    hide Step, Enabled, Runs, After;
    events, s := OneUserRotation(Durable, patience);
    events, s := AdminRotates(events, s, 7, Durable, patience);
    assert s.queue.visible.Keys == {ForRequest(7, 0), ForNonce(7, 4)};
    assert FirstDue(s.queue.visible, ForRequest(7, 0), s.now);
    events, s := WorkerReads(events, s, ForRequest(7, 0), patience);
  }

  /** A request id armed again for a new token while the retry thread still holds its
      previous task: the thread drops the new task by id. */
  lemma ReusedRequestLosesRevocation(patience: Patience) returns (events: seq<Event>)
    requires 0 <= patience
    ensures Runs(Start, events, patience) && !NoLostRevocation(After(Start, events, patience))
  {
    hide Step, Enabled, Runs, After;
    var s;
    events, s := SupersededInHand(patience);
    events, s := UserConflicts(events, s, 7, 0, patience);
    assert s.queue.visible.Keys == {ForNonce(7, 4)};
    assert s.receipts.visible == map[];
    events, s := UserRotates(events, s, 7, 0, Durable, patience);
    events, s := WorkerActs(events, s, patience);
    Lost(s, 7, ForRequest(7, 0));
  }

  /** One rotation, written without certain durability, leaves room for a second. */
  lemma RoomForAnother(patience: Patience) returns (events: seq<Event>, s: State)
    ensures Runs(Start, events, patience) && After(Start, events, patience) == s
    ensures s.now == 0 && s.section.Free? && s.worker.Resting? && s.issued == 3 && s.retired == {}
    ensures s.users == Disk(map[7 := Account(2, 3)], {map[7 := Account(1, 1)]})
    ensures s.receipts == Disk(map[ForRequest(7, 0) := Receipt(1, 2, [0], 0, 300)], {})
    ensures s.queue == Disk(map[ForRequest(7, 0) := Fresh(7, Token(1), Token(2), {}, 0)], {})
    ensures s.intents == map[2 := Intent(ForRequest(7, 0), 1)]
    ensures |s.queue.visible| == |s.receipts.visible| == 1 && Pruned(s.receipts.visible, s.now) == s.receipts.visible
  {
    hide Step, Enabled, Runs, After, Fresh;
    events, s := OneUserRotation(Uncertain, patience);
    assert |s.queue.visible.Keys| == |s.receipts.visible.Keys| == 1;
  }

  /** The second rotation is armed, but its write of users.json fails. */
  lemma TwoArmed(patience: Patience) returns (events: seq<Event>, s: State)
    ensures Runs(Start, events, patience) && After(Start, events, patience) == s
    ensures s.now == 0 && s.issued == 4 && s.retired == {}
    ensures s.users == Disk(map[7 := Account(2, 3)], {map[7 := Account(1, 1)]})
    ensures s.receipts.visible == map[ForRequest(7, 0) := Receipt(1, 2, [0], 0, 300)]
                                     [ForRequest(7, 1) := Receipt(2, 4, [0], 0, 300)]
    ensures s.queue.visible == map[ForRequest(7, 0) := Fresh(7, Token(1), Token(2), {}, 0)]
                                  [ForRequest(7, 1) := Fresh(7, Token(2), Token(4), {}, 0)]
    ensures s.intents == map[2 := Intent(ForRequest(7, 0), 1)][4 := Intent(ForRequest(7, 1), 2)]
  {
    hide Step, Enabled, Runs, After, Fresh, Pruned;
    events, s := RoomForAnother(patience);
    events, s := UserRotates(events, s, 7, 1, NotReplaced, patience);
  }

  /** Two rotations of one account: the first was written without certain durability, the
      second was armed but not written, and a power loss undid the first. */
  lemma TwoUndone(patience: Patience) returns (events: seq<Event>, s: State)
    ensures Runs(Start, events, patience) && After(Start, events, patience) == s
    ensures var p, a := ForRequest(7, 0), ForRequest(7, 1);
            && s.now == 0 && s.section.Free? && s.worker.Resting? && s.issued == 4 && s.retired == {}
            && s.users == Disk(map[7 := Account(1, 1)], {})
            && s.receipts.visible == map[p := Receipt(1, 2, [0], 0, 300)][a := Receipt(2, 4, [0], 0, 300)]
            && s.queue.visible == map[p := Fresh(7, Token(1), Token(2), {}, 0)]
                                     [a := Fresh(7, Token(2), Token(4), {}, 0)]
            && s.intents == map[2 := Intent(p, 1)][4 := Intent(a, 2)]
  {
    hide Step, Enabled, Runs, After;
    events, s := TwoArmed(patience);
    events, s := PowerFails(events, s, map[7 := Account(1, 1)], patience);
  }

  /** The retry thread waits on the first task and has just misread the second. */
  lemma Misread(patience: Patience) returns (events: seq<Event>, s: State)
    requires 0 <= patience
    ensures Runs(Start, events, patience) && After(Start, events, patience) == s
    ensures var p, a := ForRequest(7, 0), ForRequest(7, 1);
            && s.now == 0 && s.section.Free? && s.issued == 4 && s.retired == {}
            && s.users == Disk(map[7 := Account(1, 1)], {})
            && s.receipts.visible == map[p := Receipt(1, 2, [0], 0, 300), a := Receipt(2, 4, [0], 0, 300)]
            && s.queue.visible.Keys == {p, a} && s.intents == map[2 := Intent(p, 1), 4 := Intent(a, 2)]
            && Binds(s.queue.visible[p], 7, Token(1), Token(2)) && Binds(s.queue.visible[a], 7, Token(2), Token(4))
            && s.worker.Decided? && s.worker.id == a && s.worker.at == 0
            && s.worker.task.target == Token(4) && s.worker.task.previous == Token(2) && s.worker.seen == Token(1)
  {
    hide Step, Enabled, Runs, After;
    var p, a := ForRequest(7, 0), ForRequest(7, 1);
    events, s := TwoUndone(patience);
    assert FirstDue(s.queue.visible, p, s.now);
    events, s := WorkerReads(events, s, p, patience);
    events, s := WorkerActs(events, s, patience);
    assert s.queue.visible.Keys == {p, a};
    assert FirstDue(s.queue.visible, a, s.now);
    events, s := WorkerReads(events, s, a, patience);
    assert s.queue.visible.Keys == {p, a};
  }

  /** After a power loss brought an older token back, the retry thread can take a task for
      superseded although its rotation is still to be replayed. */
  lemma RevertedReadingLosesRevocation(patience: Patience) returns (events: seq<Event>)
    requires 0 <= patience
    ensures Runs(Start, events, patience) && !NoLostRevocation(After(Start, events, patience))
  {
    hide Step, Enabled, Runs, After;
    var s;
    events, s := Misread(patience);
    events, s := UserReplays(events, s, 7, 0, patience);
    events, s := UserReplays(events, s, 7, 1, patience);
    events, s := WorkerActs(events, s, patience);
  }

  /** An account deleted without certain durability and created anew under its name. */
  lemma DeletedAndReplaced(patience: Patience) returns (events: seq<Event>, s: State)
    ensures Runs(Start, events, patience) && After(Start, events, patience) == s
    ensures s.now == 0 && s.section.Free? && s.worker.Resting? && s.named == map[ForNonce(7, 2) := 1]
    ensures s.users.visible == map[7 := Account(3, 3)] && map[7 := Account(1, 1)] in s.users.Versions()
    ensures s.queue.visible == map[ForNonce(7, 2) := Fresh(7, Revision(1), Deleted, {}, 0)]
    ensures s.handoffs == multiset{(ForNonce(7, 2), Deleted)}
  {
    events, s := DeletedOnce(patience);
    events, s := Then(events, s, Create(7, Uncertain), patience);
    assert s.users.visible == map[7 := Account(3, 3)];
  }

  lemma DeletedOnce(patience: Patience) returns (events: seq<Event>, s: State)
    ensures Runs(Start, events, patience) && After(Start, events, patience) == s
    ensures s.now == 0 && s.section.Free? && s.worker.Resting? && s.issued == 2
    ensures s.named == map[ForNonce(7, 2) := 1]
    ensures s.users == Disk(map[], {map[7 := Account(1, 1)]})
    ensures s.queue.visible == map[ForNonce(7, 2) := Fresh(7, Revision(1), Deleted, {}, 0)]
    ensures s.handoffs == multiset{(ForNonce(7, 2), Deleted)}
  {
    events, s := OneAccount(patience);
    events, s := DeleteArmed(events, s, patience);
    events, s := ThenLocked(events, s, Commit(Uncertain), patience);
  }

  lemma DeleteArmed(events: seq<Event>, s: State, patience: Patience) returns (more: seq<Event>, n: State)
    requires Runs(Start, events, patience) && After(Start, events, patience) == s
    requires s == Start.(users := Disk(map[7 := Account(1, 1)], {}), issued := 1)
    ensures Runs(Start, more, patience) && After(Start, more, patience) == n
    ensures n == s.(issued := 2, named := map[ForNonce(7, 2) := 1], section := Removing(ForNonce(7, 2)),
                    queue := Disk(map[ForNonce(7, 2) := Fresh(7, Revision(1), Deleted, {}, 0)], {}))
  {
    more, n := Then(events, s, Delete(7), patience);
    more, n := ThenLocked(more, n, ArmTask({}, Durable), patience);
  }

  /** The retry thread takes the replacement for proof that the deletion is done, without
      rewriting users.json; both kicks succeed; the power loss restores the deleted account
      and no task is left to delete it again. */
  lemma UncertainDeletionComesBack(patience: Patience) returns (events: seq<Event>)
    requires 0 <= patience
    ensures Runs(Start, events, patience)
    ensures var s := After(Start, events, patience);
            s.named == map[ForNonce(7, 2) := 1] && s.queue.visible == map[]
              && s.users == Disk(map[7 := Account(1, 1)], {})
  {
    hide Step, Runs, After, Enabled;
    var s;
    events, s := KickedOnce(patience);
    events, s := RequestKicks(events, s, ForNonce(7, 2), patience);
    events, s := PowerFailsKeepingNames(events, s, map[7 := Account(1, 1)], patience);
  }

  /** The retry thread has taken the deletion for superseded. */
  lemma SkippedOnce(patience: Patience) returns (events: seq<Event>, s: State)
    requires 0 <= patience
    ensures Runs(Start, events, patience) && After(Start, events, patience) == s
    ensures var id, task := ForNonce(7, 2), Fresh(7, Revision(1), Deleted, {}, 0);
            && s.named == map[id := 1] && map[7 := Account(1, 1)] in s.users.Versions() && (id, Deleted) in s.handoffs
            && s.queue.visible == Leased(map[id := task], id, s.now)
            && s.worker == Decided(id, s.queue.visible[id], Deleted, s.now)
  {
    hide Step, Runs, After;
    var id := ForNonce(7, 2);
    events, s := DeletedAndReplaced(patience);
    assert FirstDue(s.queue.visible, id, s.now);
    events, s := ThenClaims(events, s, id, patience);
    events, s := ThenDecides(events, s, patience);
  }

  /** It has recorded its kick. */
  lemma KickedOnce(patience: Patience) returns (events: seq<Event>, s: State)
    requires 0 <= patience
    ensures Runs(Start, events, patience) && After(Start, events, patience) == s
    ensures var id := ForNonce(7, 2);
            && s.named == map[id := 1] && map[7 := Account(1, 1)] in s.users.Versions() && (id, Deleted) in s.handoffs
            && s.queue.visible.Keys == {id} && s.queue.visible[id].kickSuccesses == 1
            && s.queue.visible[id].services == {} && s.queue.visible[id].target == Deleted
  {
    hide Step, Runs, After, Enabled;
    events, s := SkippedOnce(patience);
    events, s := ThenSettles(events, s, patience);
  }

  lemma RequestKicks(events: seq<Event>, s: State, id: TaskId, patience: Patience) returns (more: seq<Event>, n: State)
    requires Runs(Start, events, patience) && After(Start, events, patience) == s
    requires (id, Deleted) in s.handoffs && s.queue.visible.Keys == {id}
    requires s.queue.visible[id].kickSuccesses == 1 && s.queue.visible[id].services == {}
             && s.queue.visible[id].target == Deleted
    ensures Runs(Start, more, patience) && After(Start, more, patience) == n
    ensures n == s.(handoffs := n.handoffs, queue := Disk(map[], {}), stray := n.stray)
  {
    more, n := Then(events, s, RequestSettles(id, Deleted, true, {}, Durable), patience);
    assert s.queue.visible - {id} == map[];
  }

  lemma PowerFailsKeepingNames(events: seq<Event>, s: State, shown: Accounts, patience: Patience)
    returns (more: seq<Event>, n: State)
    requires Runs(Start, events, patience) && After(Start, events, patience) == s
    requires shown in s.users.Versions()
    ensures Runs(Start, more, patience) && After(Start, more, patience) == n
    ensures n.users == Disk(shown, {}) && n.queue.visible == s.queue.visible && n.named == s.named
  {
    more, n := Then(events, s, PowerLoss(shown, s.receipts.visible, s.queue.visible), patience);
  }
}
