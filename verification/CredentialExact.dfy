/** The guards of the no-lost-revocation theorem are exact: a decision that misses its guard
    can be continued, by steps that all meet theirs, to a lost revocation. */
module CredentialExact {
  import opened StateStore
  import opened RevocationQueue
  import opened RotationRecovery
  import opened CredentialProtocol
  import opened CredentialInvariant
  import opened CredentialSteps

  const BOTH: set<Service> := {Xray, Tuic}

  /** Whatever follows the step, as long as it is calm, no revocation is lost. */
  ghost predicate Safe(s: State, e: Event, patience: Patience)
    requires Enabled(s, e, patience)
  {
    var n := Step(s, e, patience);
    forall more: seq<Event> | Runs(n, more, patience) && CalmRun(n, more, patience) ::
      NoLostRevocation(After(n, more, patience))
  }

  lemma CalmIsSafe(s: State, e: Event, patience: Patience)
    requires patience <= TASK_TTL_SECONDS - RECEIPT_TTL_SECONDS
    requires Inv(s, patience) && Enabled(s, e, patience) && Calm(s, e, patience)
    ensures Safe(s, e, patience)
  {
    var n := Step(s, e, patience);
    StepKeeps(s, e, patience);
    hide Step, Enabled;
    forall more: seq<Event> | Runs(n, more, patience) && CalmRun(n, more, patience)
      ensures NoLostRevocation(After(n, more, patience))
    {
      EveryRunKeeps(n, more, patience);
    }
  }

  /** One more calm event of a continuation from `base`. */
  lemma Next(base: State, events: seq<Event>, s: State, e: Event, patience: Patience)
    returns (more: seq<Event>, n: State)
    requires Runs(base, events, patience) && CalmRun(base, events, patience) && After(base, events, patience) == s
    requires Enabled(s, e, patience) && Calm(s, e, patience)
    ensures Runs(base, more, patience) && CalmRun(base, more, patience) && After(base, more, patience) == n
    ensures n == Step(s, e, patience)
  {
    hide Step, Enabled, Calm;
    OneMore(base, events, e, patience);
    more, n := events + [e], Step(s, e, patience);
    assert more[..|more| - 1] == events;
  }

  lemma LostToken(s: State, user: User, token: nat)
    requires HasToken(s.users.visible, user, token) && token in s.intents && token !in s.retired
    requires s.intents[token].id !in s.queue.visible
    ensures !NoLostRevocation(s)
  {
    assert s.users.visible in s.users.Versions() && s.queue.visible in s.queue.Versions();
    assert !Tracked(s, token);
  }

  /* ---- Dropping after a conflict. ---- */

  lemma ConflictStep(s: State, patience: Patience)
    requires s.section.Installing? && !MayInstall(s)
    ensures Enabled(s, Commit(Durable), patience)
    ensures var n := Step(s, Commit(Durable), patience);
            n == s.(receipts := n.receipts, answers := n.answers,
                    section := DroppingTask(s.section.id, s.section.receipt.newToken))
  {
  }

  lemma DropStep(s: State, patience: Patience)
    requires s.section.DroppingTask?
    ensures Enabled(s, DropTask(Durable), patience) && Calm(s, DropTask(Durable), patience)
    ensures var n := Step(s, DropTask(Durable), patience);
            n == s.(queue := n.queue, section := Free) && s.section.id !in n.queue.visible
  {
  }

  lemma PowerLossStep(s: State, shown: Accounts, patience: Patience)
    requires shown in s.users.Versions()
    ensures var e := PowerLoss(shown, s.receipts.visible, s.queue.visible);
            Enabled(s, e, patience) && Calm(s, e, patience)
            && var n := Step(s, e, patience);
               n.users.visible == shown && n.queue.visible == s.queue.visible
               && n.retired == s.retired && n.intents == s.intents
  {
  }

  lemma ConflictLoses(s: State, shown: Accounts, patience: Patience)
    requires s.section.Installing? && !MayInstall(s)
    requires OfIntent(s, s.section.id, s.section.receipt.oldToken, s.section.receipt.newToken)
    requires shown in s.users.Versions() && HasToken(shown, s.section.id.user, s.section.receipt.newToken)
    requires s.section.receipt.newToken !in s.retired
    ensures Enabled(s, Commit(Durable), patience) && !Safe(s, Commit(Durable), patience)
  {
    hide Step, Enabled, Calm;
    ConflictStep(s, patience);
    var n := Step(s, Commit(Durable), patience);
    DropStep(n, patience);
    var more, m := Next(n, [], n, DropTask(Durable), patience);
    PowerLossStep(m, shown, patience);
    more, m := Next(n, more, m, PowerLoss(shown, m.receipts.visible, m.queue.visible), patience);
    LostToken(m, s.section.id.user, s.section.receipt.newToken);
  }

  /** A request that ends in a conflict may drop its task exactly if its token was revoked
      or no recoverable users.json shows it. */
  lemma ConflictExact(s: State, patience: Patience)
    requires patience <= TASK_TTL_SECONDS - RECEIPT_TTL_SECONDS
    requires Inv(s, patience) && s.section.Installing? && !MayInstall(s)
    ensures Calm(s, Commit(Durable), patience) <==> Safe(s, Commit(Durable), patience)
  {
    if Calm(s, Commit(Durable), patience) {
      CalmIsSafe(s, Commit(Durable), patience);
    } else {
      var shown: Accounts :| shown in s.users.Versions()
        && HasToken(shown, s.section.id.user, s.section.receipt.newToken);
      ConflictLoses(s, shown, patience);
    }
  }

  /* ---- Arming a request id again. ---- */

  /** The request holds the token it replaces, or its new token is in force already. */
  predicate WillInstall(s: State)
    requires s.section.ArmingRotation?
  {
    var r := s.section.receipt;
    || CurrentOf(s.users.visible, s.section.id.user) == Token(r.newToken)
    || (CurrentOf(s.users.visible, s.section.id.user) == Token(r.oldToken) && s.section.posted == r.oldToken)
  }

  /** `m` follows `s` by arming and committing the section's rotation, both durably. */
  ghost predicate Rearmed(s: State, m: State, services: set<Service>)
    requires s.section.ArmingRotation?
  {
    var id, r := s.section.id, s.section.receipt;
    && m.users.stale == {} && HasToken(m.users.visible, id.user, r.newToken)
    && id in m.queue.visible
    && m.queue.visible[id] == Fresh(id.user, Token(r.oldToken), Token(r.newToken), services, s.now)
    && m.handoffs == s.handoffs + multiset{(id, Token(r.newToken))}
    && r.newToken !in m.retired && m.intents == s.intents && m.stray == {} && m.section.Free?
    && m.worker == s.worker && m.receipts == s.receipts && m.now == s.now
  }

  lemma ArmStep(s: State, services: set<Service>, patience: Patience)
    requires s.section.ArmingRotation? && s.section.id !in s.queue.visible && |s.queue.visible| < TASK_MAX_ENTRIES
    requires s.stray == {}
    ensures var e := ArmTask(services, Durable);
            Enabled(s, e, patience)
            && var id, r := s.section.id, s.section.receipt;
               Step(s, e, patience) ==
                 s.(section := Installing(id, s.section.posted, r, s.section.checkedAt),
                    queue := Disk(s.queue.visible[id := Fresh(id.user, Token(r.oldToken), Token(r.newToken),
                      services, s.now)], {}))
  {
  }

  lemma CommitStep(n: State, patience: Patience)
    requires n.section.Installing? && MayInstall(n) && n.section.id in n.queue.visible
             && 1 <= n.section.receipt.oldToken
    requires n.section.receipt.oldToken < n.section.receipt.newToken
    ensures Enabled(n, Commit(Durable), patience) && Calm(n, Commit(Durable), patience)
    ensures var m, id, g := Step(n, Commit(Durable), patience), n.section.id, n.section.receipt.newToken;
            && m.users.stale == {} && HasToken(m.users.visible, id.user, g) && m.section.Free?
            && m.handoffs == n.handoffs + multiset{(id, Token(g))} && g !in m.retired
            && m == n.(users := m.users, issued := m.issued, section := m.section, handoffs := m.handoffs,
                       retired := m.retired, answers := m.answers)
  {
  }

  lemma Rearm(s: State, services: set<Service>, patience: Patience) returns (more: seq<Event>, m: State)
    requires s.section.ArmingRotation? && s.section.id !in s.queue.visible && |s.queue.visible| < TASK_MAX_ENTRIES
    requires s.stray == {} && WillInstall(s)
    requires 1 <= s.section.receipt.oldToken < s.section.receipt.newToken
    ensures Enabled(s, ArmTask(services, Durable), patience)
    ensures var n := Step(s, ArmTask(services, Durable), patience);
            Runs(n, more, patience) && CalmRun(n, more, patience) && After(n, more, patience) == m
    ensures Rearmed(s, m, services)
  {
    hide Step, Enabled, Calm;
    ArmStep(s, services, patience);
    var n := Step(s, ArmTask(services, Durable), patience);
    CommitStep(n, patience);
    more, m := Next(n, [], n, Commit(Durable), patience);
  }

  lemma AllServices(services: set<Service>)
    ensures services - BOTH == {}
  {
    forall x | x in services
      ensures x in BOTH
    {
      assert x.Xray? || x.Tuic?;
    }
  }

  /** A first kick made for another token, by a request or by the retry thread. */
  lemma StrayKick(s: State, id: TaskId, target: Generation)
    requires id in s.queue.visible && s.queue.visible[id].kickSuccesses == 0 && s.queue.visible[id].target != target
    ensures var n := Record(s, id, target, true, BOTH, Durable);
            && id in n.queue.visible && n.queue.visible[id].kickSuccesses == 1 && n.queue.visible[id].services == {}
            && n.queue.visible[id].target == s.queue.visible[id].target && id in n.stray
            && n == s.(queue := n.queue, stray := n.stray)
  {
    AllServices(s.queue.visible[id].services);
  }

  /** The rotation's own kick then ends the task with only one kick made for it. */
  lemma SecondKick(s: State, id: TaskId, target: Generation)
    requires id in s.queue.visible && s.queue.visible[id].kickSuccesses == 1 && s.queue.visible[id].services == {}
    requires id in s.stray
    ensures var n := Record(s, id, target, true, BOTH, Durable);
            id !in n.queue.visible && n.retired == s.retired && n == s.(queue := n.queue, stray := n.stray)
  {
  }

  lemma SettlesStep(s: State, id: TaskId, target: Generation, patience: Patience)
    requires (id, target) in s.handoffs
    ensures var e := RequestSettles(id, target, true, BOTH, Durable);
            Enabled(s, e, patience) && Calm(s, e, patience)
            && Step(s, e, patience) ==
                 Record(s.(handoffs := s.handoffs - multiset{(id, target)}), id, target, true, BOTH, Durable)
  {
  }

  /** After a stray kick the rotation's own request completes the task. */
  lemma OwnKickLoses(base: State, events: seq<Event>, s: State, id: TaskId, token: nat, patience: Patience)
    requires Runs(base, events, patience) && CalmRun(base, events, patience) && After(base, events, patience) == s
    requires (id, Token(token)) in s.handoffs && id in s.stray && id in s.queue.visible
    requires s.queue.visible[id].kickSuccesses == 1 && s.queue.visible[id].services == {}
    requires HasToken(s.users.visible, id.user, token) && token in s.intents && s.intents[token].id == id
             && token !in s.retired
    ensures exists more: seq<Event> ::
              Runs(base, more, patience) && CalmRun(base, more, patience)
                && !NoLostRevocation(After(base, more, patience))
  {
    hide Step, Enabled, Calm, Record;
    SettlesStep(s, id, Token(token), patience);
    var m := s.(handoffs := s.handoffs - multiset{(id, Token(token))});
    SecondKick(m, id, Token(token));
    var more, n := Next(base, events, s, RequestSettles(id, Token(token), true, BOTH, Durable), patience);
    LostToken(n, id.user, token);
  }

  /** A request that still reports its kick for an earlier token of the id. */
  lemma StrayRequestLoses(base: State, events: seq<Event>, s: State, id: TaskId, token: nat, stranger: Generation,
                          patience: Patience)
    requires Runs(base, events, patience) && CalmRun(base, events, patience) && After(base, events, patience) == s
    requires (id, stranger) in s.handoffs && (id, Token(token)) in s.handoffs && stranger != Token(token)
    requires id in s.queue.visible && s.queue.visible[id].kickSuccesses == 0
             && s.queue.visible[id].target == Token(token)
    requires HasToken(s.users.visible, id.user, token) && token in s.intents && s.intents[token].id == id
             && token !in s.retired
    ensures exists more: seq<Event> ::
              Runs(base, more, patience) && CalmRun(base, more, patience)
                && !NoLostRevocation(After(base, more, patience))
  {
    hide Step, Enabled, Calm, Record;
    SettlesStep(s, id, stranger, patience);
    var m := s.(handoffs := s.handoffs - multiset{(id, stranger)});
    StrayKick(m, id, stranger);
    var more, n := Next(base, events, s, RequestSettles(id, stranger, true, BOTH, Durable), patience);
    OwnKickLoses(base, more, n, id, token, patience);
  }

  lemma WorkerSettlesStep(s: State, patience: Patience)
    requires s.worker.Decided? && s.now <= s.worker.at + patience && s.worker.id in s.queue.visible
    ensures var e := WorkerSettles(true, BOTH, Durable);
            Enabled(s, e, patience) && Calm(s, e, patience)
            && var n, v := Step(s, e, patience), VerdictOn(s.worker.task, s.worker.seen, s.now);
               && (v.Kick? ==> n == Record(s.(worker := Resting), s.worker.id, s.worker.task.target, true, BOTH,
                   Durable))
               && (v.GiveUp? || v.Superseded? ==>
                     n == s.(worker := Resting, queue := Disk(s.queue.visible - {s.worker.id}, {})))
  {
  }

  lemma TickStep(s: State, now: int, patience: Patience)
    requires s.now <= now
    ensures Enabled(s, Tick(now), patience) && Calm(s, Tick(now), patience)
    ensures Step(s, Tick(now), patience) == s.(now := now)
  {
  }

  /** The retry thread settles an earlier task of the id by dropping the new one. */
  lemma DropLoses(base: State, events: seq<Event>, s: State, token: nat, patience: Patience)
    requires Runs(base, events, patience) && CalmRun(base, events, patience) && After(base, events, patience) == s
    requires s.worker.Decided? && s.now <= s.worker.at + patience && s.worker.id in s.queue.visible
    requires var v := VerdictOn(s.worker.task, s.worker.seen, s.now); v.GiveUp? || v.Superseded?
    requires HasToken(s.users.visible, s.worker.id.user, token) && token in s.intents
    requires s.intents[token].id == s.worker.id && token !in s.retired
    ensures exists more: seq<Event> ::
              Runs(base, more, patience) && CalmRun(base, more, patience)
                && !NoLostRevocation(After(base, more, patience))
  {
    hide Step, Enabled, Calm;
    WorkerSettlesStep(s, patience);
    var more, n := Next(base, events, s, WorkerSettles(true, BOTH, Durable), patience);
    LostToken(n, s.worker.id.user, token);
  }

  /** The retry thread has read the account for an earlier token of the id. */
  lemma StrayReadingLoses(base: State, events: seq<Event>, s: State, token: nat, patience: Patience)
    requires Runs(base, events, patience) && CalmRun(base, events, patience) && After(base, events, patience) == s
    requires s.worker.Decided? && !Waits(s, patience) && s.worker.task.target != Token(token)
    requires var id := s.worker.id;
             && (id, Token(token)) in s.handoffs
             && id in s.queue.visible && s.queue.visible[id].kickSuccesses == 0
                && s.queue.visible[id].target == Token(token)
             && HasToken(s.users.visible, id.user, token) && token in s.intents && s.intents[token].id == id
                && token !in s.retired
    ensures exists more: seq<Event> ::
              Runs(base, more, patience) && CalmRun(base, more, patience)
                && !NoLostRevocation(After(base, more, patience))
  {
    hide Step, Enabled, Calm, Record;
    var t := s.worker.task;
    if s.worker.seen == t.target {
      WorkerSettlesStep(s, patience);
      StrayKick(s.(worker := Resting), s.worker.id, t.target);
      var more, n := Next(base, events, s, WorkerSettles(true, BOTH, Durable), patience);
      OwnKickLoses(base, more, n, s.worker.id, token, patience);
    } else {
      var later := if s.now < t.expiresAt && s.worker.seen == t.previous then t.expiresAt else s.now;
      TickStep(s, later, patience);
      var more, n := Next(base, events, s, Tick(later), patience);
      DropLoses(base, more, n, token, patience);
    }
  }

  lemma ReadStep(s: State, token: nat, patience: Patience)
    requires s.worker.Claimed? && s.section.Free? && s.worker.task.target.Token? && s.worker.task.target != Token(token)
    requires s.users.stale == {} && HasToken(s.users.visible, s.worker.task.user, token)
    requires forall id | id in s.receipts.visible :: s.receipts.visible[id].expiresAt <= s.now
    ensures Enabled(s, WorkerDecides(Durable, true), patience) && Calm(s, WorkerDecides(Durable, true), patience)
    ensures Step(s, WorkerDecides(Durable, true), patience) ==
              s.(worker := Decided(s.worker.id, s.worker.task, Token(token), s.now))
  {
  }

  /** The retry thread holds an earlier task of the id: 600 seconds later it reads the
      account, gives the task up or takes it for superseded, and drops the new one. */
  lemma StrayClaimLoses(base: State, events: seq<Event>, s: State, token: nat, patience: Patience)
    requires 0 <= patience
    requires Runs(base, events, patience) && CalmRun(base, events, patience) && After(base, events, patience) == s
    requires s.worker.Claimed? && s.section.Free? && s.worker.task.target.Token? && s.worker.task.target != Token(token)
    requires s.worker.task.user == s.worker.id.user && s.users.stale == {} && s.worker.id in s.queue.visible
    requires s.worker.task.expiresAt <= s.now + TASK_TTL_SECONDS
    requires forall id | id in s.receipts.visible :: s.receipts.visible[id].expiresAt <= s.now + TASK_TTL_SECONDS
    requires HasToken(s.users.visible, s.worker.id.user, token) && token in s.intents
    requires s.intents[token].id == s.worker.id && token !in s.retired
    ensures exists more: seq<Event> ::
              Runs(base, more, patience) && CalmRun(base, more, patience)
                && !NoLostRevocation(After(base, more, patience))
  {
    hide Step, Enabled, Calm;
    var later := s.now + TASK_TTL_SECONDS;
    TickStep(s, later, patience);
    var more, n := Next(base, events, s, Tick(later), patience);
    ReadStep(n, token, patience);
    more, n := Next(base, more, n, WorkerDecides(Durable, true), patience);
    DropLoses(base, more, n, token, patience);
  }

  lemma RearmLoses(s: State, services: set<Service>, patience: Patience)
    requires 0 <= patience && Inv(s, patience)
    requires s.section.ArmingRotation? && WillInstall(s)
    requires s.section.id !in s.queue.visible && |s.queue.visible| < TASK_MAX_ENTRIES
    requires !NoStranger(s, s.section.id, Token(s.section.receipt.newToken), patience)
    ensures !Safe(s, ArmTask(services, Durable), patience)
  {
    hide Step, Enabled, Calm, AccountsGood, WindowsNested, WorkerGood, HandoffsGood, NoLostRevocation;
    var id, r := s.section.id, s.section.receipt;
    var more, m := Rearm(s, services, patience);
    var n := Step(s, ArmTask(services, Durable), patience);
    if HoldsTask(s.worker) && !Waits(s, patience) && s.worker.id == id && s.worker.task.target != Token(r.newToken) {
      assert TaskGood(s, id, s.worker.task);
      if s.worker.Claimed? {
        StrayClaimLoses(n, more, m, r.newToken, patience);
      } else {
        StrayReadingLoses(n, more, m, r.newToken, patience);
      }
    } else {
      var stranger :| (id, stranger) in s.handoffs && stranger != Token(r.newToken);
      StrayRequestLoses(n, more, m, id, r.newToken, stranger, patience);
    }
  }

  /** A request that goes on to install its token may arm its id exactly if neither the
      retry thread nor another request still works on that id for another token. */
  lemma RearmExact(s: State, services: set<Service>, patience: Patience)
    requires 0 <= patience <= TASK_TTL_SECONDS - RECEIPT_TTL_SECONDS
    requires Inv(s, patience) && s.section.ArmingRotation? && WillInstall(s)
    ensures Calm(s, ArmTask(services, Durable), patience) <==> Safe(s, ArmTask(services, Durable), patience)
  {
    if Calm(s, ArmTask(services, Durable), patience) {
      CalmIsSafe(s, ArmTask(services, Durable), patience);
    } else {
      RearmLoses(s, services, patience);
    }
  }

  /* ---- Taking a rotation for superseded. ---- */

  /** A browser can replay this receipt, and its task is queued as armed. */
  ghost predicate Ready(s: State, id: TaskId)
    requires id in s.receipts.visible
  {
    var r := s.receipts.visible[id];
    && r.sessions != [] && id in s.queue.visible
    && Binds(s.queue.visible[id], id.user, Token(r.oldToken), Token(r.newToken))
  }

  ghost predicate AllReady(s: State) {
    forall id | id in s.receipts.visible && s.now < s.receipts.visible[id].expiresAt :: Ready(s, id)
  }

  lemma LookupStep(s: State, id: TaskId, patience: Patience)
    requires s.section.Free? && id.ForRequest? && id in s.receipts.visible && s.now < s.receipts.visible[id].expiresAt
    requires s.receipts.visible[id].sessions != [] && id.user in s.users.visible
    ensures var r := s.receipts.visible[id];
            var e := Rotate(id.user, id.request, r.sessions[0], r.oldToken);
            Enabled(s, e, patience) && Calm(s, e, patience)
            && Step(s, e, patience) == s.(section := WritingReceipt(id, r.oldToken, r.sessions[0], r.oldToken,
               r.newToken, true))
  {
  }

  lemma RefileStep(s: State, patience: Patience)
    requires s.section.WritingReceipt? && s.section.id in s.receipts.visible && s.section.replay
    requires s.now < s.receipts.visible[s.section.id].expiresAt
    requires s.section.session in s.receipts.visible[s.section.id].sessions
    requires s.section.oldToken == s.receipts.visible[s.section.id].oldToken
    ensures Enabled(s, WriteReceipt(Durable), patience) && Calm(s, WriteReceipt(Durable), patience)
    ensures Step(s, WriteReceipt(Durable), patience) ==
              s.(receipts := Disk(Pruned(s.receipts.visible, s.now), {}),
                 section := ArmingRotation(s.section.id, s.section.posted, s.receipts.visible[s.section.id], s.now))
  {
  }

  lemma FindTaskStep(s: State, patience: Patience)
    requires s.section.ArmingRotation? && s.section.id in s.queue.visible
    requires var r := s.section.receipt;
             Binds(s.queue.visible[s.section.id], s.section.id.user, Token(r.oldToken), Token(r.newToken))
    ensures Enabled(s, ArmTask({}, Durable), patience) && Calm(s, ArmTask({}, Durable), patience)
    ensures Step(s, ArmTask({}, Durable), patience) ==
              s.(queue := Disk(s.queue.visible, {}),
                 section := Installing(s.section.id, s.section.posted, s.section.receipt, s.section.checkedAt))
  {
  }

  /** The same live receipts, tasks and drawn tokens, and the retry thread where it was. */
  ghost predicate Alongside(s: State, n: State) {
    && n.section.Free? && n.worker == s.worker && n.now == s.now && n.intents == s.intents
    && n.queue.visible == s.queue.visible
    && (n.receipts.visible == s.receipts.visible || n.receipts.visible == Pruned(s.receipts.visible, s.now))
  }

  lemma StillReady(s: State, n: State, id: TaskId)
    requires Alongside(s, n) && id in s.receipts.visible && s.now < s.receipts.visible[id].expiresAt && AllReady(s)
    ensures id in n.receipts.visible && n.receipts.visible[id] == s.receipts.visible[id] && Ready(n, id)
    ensures n.section.Free? && n.now == s.now
  {
  }

  lemma AlongsideTwice(s: State, m: State, n: State)
    requires Alongside(s, m) && Alongside(m, n)
    ensures Alongside(s, n)
  {
    assert Pruned(Pruned(s.receipts.visible, s.now), s.now) == Pruned(s.receipts.visible, s.now);
  }

  /** One live receipt replayed: the account moves from its old token to its new one. */
  lemma ReplayLink(base: State, events: seq<Event>, s: State, id: TaskId, patience: Patience)
    returns (more: seq<Event>, n: State)
    requires Runs(base, events, patience) && CalmRun(base, events, patience) && After(base, events, patience) == s
    requires s.section.Free? && id.ForRequest? && id in s.receipts.visible && s.now < s.receipts.visible[id].expiresAt
    requires Ready(s, id) && 1 <= s.receipts.visible[id].oldToken < s.receipts.visible[id].newToken
    requires HasToken(s.users.visible, id.user, s.receipts.visible[id].oldToken)
    ensures Runs(base, more, patience) && CalmRun(base, more, patience) && After(base, more, patience) == n
    ensures Alongside(s, n) && n.receipts.visible == Pruned(s.receipts.visible, s.now)
    ensures var g := s.receipts.visible[id].newToken; HasToken(n.users.visible, id.user, g) && g !in n.retired
  {
    hide Step, Enabled, Calm;
    var r := s.receipts.visible[id];
    LookupStep(s, id, patience);
    more, n := Next(base, events, s, Rotate(id.user, id.request, r.sessions[0], r.oldToken), patience);
    RefileStep(n, patience);
    more, n := Next(base, more, n, WriteReceipt(Durable), patience);
    FindTaskStep(n, patience);
    more, n := Next(base, more, n, ArmTask({}, Durable), patience);
    CommitStep(n, patience);
    more, n := Next(base, more, n, Commit(Durable), patience);
  }

  /** Live receipts replayed one after the other, up to `token`. */
  lemma {:induction false} ReplayTo(base: State, s: State, user: User, token: nat, patience: Patience)
    returns (more: seq<Event>, n: State)
    requires base == s && ReceiptsGood(s) && IntentsGood(s) && s.section.Free? && AllReady(s)
    requires token in s.intents ==> s.intents[token].id.user == user
    requires Replayable(s.users.visible, s.receipts.visible, s.now, user, token)
    ensures Runs(base, more, patience) && CalmRun(base, more, patience) && After(base, more, patience) == n
    ensures Alongside(s, n) && HasToken(n.users.visible, user, token)
    ensures !HasToken(s.users.visible, user, token) ==> token !in n.retired
    decreases token
  {
    if HasToken(s.users.visible, user, token) {
      more, n := [], s;
    } else {
      var id :| LinkedBy(s.receipts.visible, id, s.now, token)
        && Replayable(s.users.visible, s.receipts.visible, s.now, user, s.receipts.visible[id].oldToken);
      assert ReceiptGood(s, id, s.receipts.visible[id]);
      more, n := ReplayTo(base, s, user, s.receipts.visible[id].oldToken, patience);
      hide IntentsGood, ReceiptsGood, Replayable, Runs, CalmRun, After, Alongside, Ready;
      var m := n;
      StillReady(s, m, id);
      more, n := ReplayLink(base, more, m, id, patience);
      AlongsideTwice(s, m, n);
    }
  }

  /** The retry thread is about to take a rotation for superseded. */
  predicate WillSupersede(s: State) {
    s.worker.Claimed? && s.section.Free? && s.worker.task.target.Token? &&
    var seen := CurrentOf(s.users.visible, s.worker.task.user);
    seen != s.worker.task.target && seen != s.worker.task.previous
  }

  lemma StaleReadingLoses(s: State, shown: Accounts, patience: Patience)
    requires 0 <= patience && WillSupersede(s) && NoLostRevocation(s) && TaskGood(s, s.worker.id, s.worker.task)
    requires var g := s.worker.task.target.id;
             shown in s.users.Versions() && HasToken(shown, s.worker.task.user, g) && g !in s.retired
    ensures Enabled(s, WorkerDecides(Durable, true), patience) && !Safe(s, WorkerDecides(Durable, true), patience)
  {
    var id, g := s.worker.id, s.worker.task.target.id;
    assert Tracked(s, g) && s.queue.visible in s.queue.Versions();
    hide Step, Enabled, Calm, NoLostRevocation;
    var n := Step(s, WorkerDecides(Durable, true), patience);
    WorkerSettlesStep(n, patience);
    var more, m := Next(n, [], n, WorkerSettles(true, BOTH, Durable), patience);
    PowerLossStep(m, shown, patience);
    more, m := Next(n, more, m, PowerLoss(shown, m.receipts.visible, m.queue.visible), patience);
    LostToken(m, id.user, g);
  }

  lemma SameReceipts(s: State, n: State)
    requires ReceiptsGood(s) && IntentsGood(s) && AllReady(s) && n == s.(worker := n.worker)
    ensures ReceiptsGood(n) && IntentsGood(n) && AllReady(n)
  {
  }

  lemma ReplayedReadingLoses(s: State, patience: Patience)
    requires 0 <= patience && WillSupersede(s) && Inv(s, patience) && AllReady(s)
    requires Replayable(s.users.visible, s.receipts.visible, s.now, s.worker.task.user, s.worker.task.target.id)
    ensures Enabled(s, WorkerDecides(Durable, true), patience) && !Safe(s, WorkerDecides(Durable, true), patience)
  {
    var id, user, g := s.worker.id, s.worker.task.user, s.worker.task.target.id;
    assert TaskGood(s, id, s.worker.task);
    var link :| LinkedBy(s.receipts.visible, link, s.now, g);
    assert ReceiptGood(s, link, s.receipts.visible[link]) && Ready(s, link);
    hide Step, Enabled, Calm, AccountsGood, WindowsNested, WorkerGood, HandoffsGood, NoLostRevocation, TasksGood;
    var n := Step(s, WorkerDecides(Durable, true), patience);
    SameReceipts(s, n);
    hide ReceiptsGood, IntentsGood, SectionGood, Inv, Replayable;
    var more, m := ReplayTo(n, n, user, g, patience);
    DropLoses(n, more, m, g, patience);
  }

  /** The retry thread may take a rotation for superseded exactly if its token was revoked
      or no recoverable users.json shows it, and live receipts do not lead to it, provided
      every live receipt can be replayed at once. */
  lemma ReadingExact(s: State, patience: Patience)
    requires 0 <= patience <= TASK_TTL_SECONDS - RECEIPT_TTL_SECONDS
    requires Inv(s, patience) && WillSupersede(s) && AllReady(s)
    ensures Calm(s, WorkerDecides(Durable, true), patience) <==> Safe(s, WorkerDecides(Durable, true), patience)
  {
    if Calm(s, WorkerDecides(Durable, true), patience) {
      CalmIsSafe(s, WorkerDecides(Durable, true), patience);
    } else {
      var user, g := s.worker.task.user, s.worker.task.target.id;
      assert TaskGood(s, s.worker.id, s.worker.task);
      if !Harmless(s, user, g) {
        var shown: Accounts :| shown in s.users.Versions() && HasToken(shown, user, g);
        StaleReadingLoses(s, shown, patience);
      } else {
        ReplayedReadingLoses(s, patience);
      }
    }
  }
}
