/** Redoing a deletion: it removes only the account revision it names, never touches a
    same-name replacement, and is complete only once users.json does not show that revision;
    nor can it come back, if the last save before the decision was durable. */
module CredentialDeletion {
  import opened StateStore
  import opened RevocationQueue
  import opened RotationRecovery
  import opened CredentialProtocol

  /** No recoverable users.json holds the named revision. */
  ghost predicate Gone(users: Disk<Accounts>, user: User, revision: nat) {
    forall v: Accounts | v in users.Versions() && user in v :: v[user].revision != revision
  }

  ghost predicate TaskOfDeletion(s: State, id: TaskId, t: Task) {
    && (t.target.Deleted? ==> id in s.named && t.user == id.user && t.previous == Revision(s.named[id]))
    && (!t.target.Deleted? ==> id !in s.named)
  }

  predicate HoldsTask(w: Worker) { w.Claimed? || w.Decided? }

  ghost predicate RevisionsDrawn(s: State) {
    && (forall v: Accounts, u | v in s.users.Versions() && u in v :: v[u].revision <= s.issued)
    && (forall id | id in s.named :: s.named[id] <= s.issued && id.ForNonce? && id.nonce <= s.issued)
    && (forall id | id in s.redone :: id in s.named && !ShowsRevision(s.users.visible, id.user, s.named[id]))
  }

  ghost predicate TasksOfDeletions(s: State) {
    && (forall q: Queue, id | q in s.queue.Versions() && id in q ::
          TaskOfDeletion(s, id, q[id]) && (id.ForNonce? ==> id.nonce <= s.issued))
    && (HoldsTask(s.worker) ==>
          && TaskOfDeletion(s, s.worker.id, s.worker.task)
          && (s.worker.id.ForNonce? ==> s.worker.id.nonce <= s.issued))
    && (s.worker.Decided? && s.worker.task.target.Deleted? ==> s.worker.seen == Deleted && s.worker.id in s.redone)
    && (forall id, t | (id, t) in s.handoffs ::
          (t.Deleted? <==> id in s.named) && (id.ForNonce? ==> id.nonce <= s.issued))
  }

  /** Until the retry thread decides, a request that still reports its kick reports the first. */
  ghost predicate KicksOfDeletions(s: State) {
    && (forall q: Queue, id | q in s.queue.Versions() && id in q && (id, Deleted) in s.handoffs && id !in s.redone ::
          q[id].kickSuccesses == 0)
    && (forall id :: s.handoffs[(id, Deleted)] <= 1)
  }

  ghost predicate SectionOfDeletion(s: State) {
    match s.section
    case WritingReceipt(id, _, _, _, _, _) => id.ForRequest?
    case ArmingRotation(id, _, _, _) => id.ForRequest?
    case Installing(id, _, _, _) => id.ForRequest?
    case DroppingTask(id, _) => id.ForRequest?
    case ArmingAdmin(id, _, _) => id !in s.named && id.ForNonce? && id.nonce <= s.issued
    case InstallingAdmin(id, _, _) => id !in s.named && id.ForNonce? && id.nonce <= s.issued
    case ArmingDelete(id, revision) =>
      && id in s.named && s.named[id] == revision && id !in s.redone
      && (id, Deleted) !in s.handoffs && (forall q: Queue | q in s.queue.Versions() :: id !in q)
    case Removing(id) =>
      && id in s.named && (id, Deleted) !in s.handoffs
      && (id !in s.redone ==> forall q: Queue | q in s.queue.Versions() && id in q :: q[id].kickSuccesses == 0)
    // History is purged only while no recoverable version has an account of that name.
    case Purging(user) => forall v: Accounts | v in s.users.Versions() :: user !in v
    case Free => true
  }

  ghost predicate Sound(s: State) {
    RevisionsDrawn(s) && TasksOfDeletions(s) && KicksOfDeletions(s) && SectionOfDeletion(s)
  }

  /* ---- Steps on the queue alone. ---- */

  /** The same tasks, perhaps without one, with kick counters that may change for `own`. */
  ghost predicate Requeued(q: Queue, next: Queue, own: set<TaskId>) {
    forall id | id in next ::
      && id in q
      && next[id].user == q[id].user && next[id].previous == q[id].previous && next[id].target == q[id].target
      && (id !in own ==> next[id].kickSuccesses == q[id].kickSuccesses)
  }

  lemma RequeuedTasks(s: State, n: State, next: Queue, own: set<TaskId>, o: Outcome)
    requires TasksOfDeletions(s) && Requeued(s.queue.visible, next, own)
    requires n == s.(queue := s.queue.Write(next, o), worker := n.worker, handoffs := n.handoffs,
                     retired := n.retired, stray := n.stray, section := n.section)
    requires n.handoffs <= s.handoffs
    requires HoldsTask(n.worker) ==>
               n.worker == s.worker
               || (n.worker.Claimed? && n.worker.id in next && n.worker.task == next[n.worker.id])
    ensures TasksOfDeletions(n)
  {
  }

  lemma RequeuedKicks(s: State, n: State, next: Queue, own: set<TaskId>, o: Outcome)
    requires KicksOfDeletions(s) && Requeued(s.queue.visible, next, own)
    requires n == s.(queue := s.queue.Write(next, o), worker := n.worker, handoffs := n.handoffs,
                     retired := n.retired, stray := n.stray, section := n.section)
    requires n.handoffs <= s.handoffs
    requires forall id | id in own && id in next && id !in s.redone :: (id, Deleted) !in n.handoffs
    ensures KicksOfDeletions(n)
  {
  }

  lemma RequeuedSection(s: State, n: State, next: Queue, own: set<TaskId>, o: Outcome)
    requires SectionOfDeletion(s) && RevisionsDrawn(s) && Requeued(s.queue.visible, next, own)
    requires n == s.(queue := s.queue.Write(next, o), worker := n.worker, handoffs := n.handoffs,
                     retired := n.retired, stray := n.stray, section := n.section)
    requires n.handoffs <= s.handoffs && (n.section == s.section || n.section.Free?)
    requires s.section.Removing? && n.section == s.section && s.section.id !in s.redone ==> s.section.id !in own
    ensures SectionOfDeletion(n) && RevisionsDrawn(n)
  {
  }

  lemma RequeuedSound(s: State, n: State, next: Queue, own: set<TaskId>, o: Outcome)
    requires Sound(s) && Requeued(s.queue.visible, next, own)
    requires n == s.(queue := s.queue.Write(next, o), worker := n.worker, handoffs := n.handoffs,
                     retired := n.retired, stray := n.stray, section := n.section)
    requires n.handoffs <= s.handoffs && (n.section == s.section || n.section.Free?)
    requires s.section.Removing? && n.section == s.section && s.section.id !in s.redone ==> s.section.id !in own
    requires forall id | id in own && id in next && id !in s.redone :: (id, Deleted) !in n.handoffs
    requires HoldsTask(n.worker) ==>
               n.worker == s.worker
               || (n.worker.Claimed? && n.worker.id in next && n.worker.task == next[n.worker.id])
    ensures Sound(n)
  {
    hide RevisionsDrawn, TasksOfDeletions, KicksOfDeletions, SectionOfDeletion, Requeued;
    RequeuedTasks(s, n, next, own, o);
    RequeuedKicks(s, n, next, own, o);
    RequeuedSection(s, n, next, own, o);
  }

  lemma CompletedRequeues(q: Queue, id: TaskId, kickOk: bool, stopped: set<Service>, now: int)
    requires id in q
    ensures Requeued(q, Completed(q, id, kickOk, stopped, now).value, {id})
  {
  }

  /** One attempt recorded for `id`, by a request that hands back or by the retry thread. */
  lemma RecordSound(s: State, m: State, id: TaskId, target: Generation, kickOk: bool, stopped: set<Service>, o: Outcome)
    requires Sound(s) && m == s.(handoffs := m.handoffs, worker := m.worker) && m.handoffs <= s.handoffs
    requires m.worker == s.worker || m.worker.Resting?
    requires id !in s.redone ==>
               && (id, Deleted) !in m.handoffs
               && !(s.section.Removing? && s.section.id == id)
    ensures Sound(Record(m, id, target, kickOk, stopped, o))
  {
    hide RevisionsDrawn, TasksOfDeletions, KicksOfDeletions, SectionOfDeletion, Requeued;
    var n, q := Record(m, id, target, kickOk, stopped, o), s.queue.visible;
    if id in q && !o.NotReplaced? {
      CompletedRequeues(q, id, kickOk, stopped, s.now);
      var w := Completed(q, id, kickOk, stopped, s.now).value;
      RequeuedSound(s, n, w, {id}, o);
    } else {
      Requeues(q);
      RequeuedSound(s, n, q, {}, NotReplaced);
    }
  }

  lemma Requeues(q: Queue)
    ensures Requeued(q, q, {})
  {
  }

  lemma RequestSettlesSound(s: State, e: Event, patience: Patience)
    requires e.RequestSettles? && Sound(s) && Enabled(s, e, patience)
    ensures Sound(Step(s, e, patience))
  {
    var m := s.(handoffs := s.handoffs - multiset{(e.id, e.target)});
    assert s.queue.visible in s.queue.Versions();
    if e.id in s.named {
      assert e.target == Deleted && s.handoffs[(e.id, Deleted)] <= 1;
    }
    RecordSound(s, m, e.id, e.target, e.kickOk, e.stopped, e.o);
  }

  lemma ReleasedRequeues(q: Queue, id: TaskId, delay: int, now: int)
    requires id in q
    ensures Requeued(q, Released(q, id, delay, now).value, {})
  {
  }

  lemma DiscardedRequeues(q: Queue, id: TaskId)
    requires id in q
    ensures Requeued(q, Discarded(q, id).value, {})
  {
  }

  lemma LeasedRequeues(q: Queue, id: TaskId, now: int)
    requires id in q
    ensures Requeued(q, Leased(q, id, now), {})
  {
  }

  /** A write of the queue, or none, that leaves every kick counter alone. */
  lemma QuietSound(s: State, n: State, w: Option<Queue>, o: Outcome)
    requires Sound(s) && (w.Some? ==> Requeued(s.queue.visible, w.value, {}))
    requires n == s.(queue := s.queue.WriteIf(w, o), worker := n.worker, section := n.section)
    requires n.section == s.section || n.section.Free?
    requires HoldsTask(n.worker) ==>
               n.worker == s.worker
               || (w.Some? && n.worker.Claimed? && n.worker.id in w.value && n.worker.task == w.value[n.worker.id])
    ensures Sound(n)
  {
    hide Sound, Requeued;
    if w.Some? {
      RequeuedSound(s, n, w.value, {}, o);
    } else {
      Requeues(s.queue.visible);
      RequeuedSound(s, n, s.queue.visible, {}, NotReplaced);
    }
  }

  /** A deletion the retry thread is about to settle was redone. */
  lemma DecidedRedone(s: State)
    requires TasksOfDeletions(s) && SectionOfDeletion(s) && s.worker.Decided?
    ensures s.worker.id in s.named ==> s.worker.id in s.redone
    ensures s.worker.id !in s.redone ==>
              (s.worker.id, Deleted) !in s.handoffs && !(s.section.Removing? && s.section.id == s.worker.id)
  {
  }

  lemma WorkerSettlesSound(s: State, e: Event, patience: Patience)
    requires e.WorkerSettles? && Sound(s) && Enabled(s, e, patience)
    ensures Sound(Step(s, e, patience))
  {
    hide RevisionsDrawn, TasksOfDeletions, KicksOfDeletions, SectionOfDeletion, Requeued, Released, Discarded,
         Completed;
    var id, q, n := s.worker.id, s.queue.visible, Step(s, e, patience);
    if s.worker.Decided? && VerdictOn(s.worker.task, s.worker.seen, s.now).Kick? {
      DecidedRedone(s);
      RecordSound(s, s.(worker := Resting), id, s.worker.task.target, e.kickOk, e.stopped, e.o);
    } else {
      if id in q {
        ReleasedRequeues(q, id, RETRY_DELAY_SECONDS, s.now);
        DiscardedRequeues(q, id);
      }
      SettledQuietly(q, id, s.now);
      var w := if s.worker.BackingOff? || VerdictOn(s.worker.task, s.worker.seen, s.now).Retry?
               then Released(q, id, RETRY_DELAY_SECONDS, s.now) else Discarded(q, id);
      hide Sound, Record, VerdictOn;
      QuietSound(s, n, w, e.o);
    }
  }

  lemma SettledQuietly(q: Queue, id: TaskId, now: int)
    ensures Released(q, id, RETRY_DELAY_SECONDS, now).Some? <==> id in q
    ensures Discarded(q, id).Some? <==> id in q
  {
  }

  lemma WorkerClaimsSound(s: State, id: TaskId, o: Outcome)
    requires Sound(s) && id in s.queue.visible
    ensures Sound(DoWorkerClaims(s, id, o))
  {
    LeasedRequeues(s.queue.visible, id, s.now);
    hide Sound, Requeued;
    QuietSound(s, DoWorkerClaims(s, id, o), Some(Leased(s.queue.visible, id, s.now)), o);
  }

  lemma AddServicesSound(s: State, e: Event, patience: Patience)
    requires e.AddServices? && Sound(s)
    ensures Sound(Step(s, e, patience))
  {
    var w := WithServices(s.queue.visible, e.id, e.services, s.now);
    assert w.Some? ==> Requeued(s.queue.visible, w.value, {});
    hide Sound, Requeued, WithServices;
    QuietSound(s, Step(s, e, patience), w, e.o);
  }

  lemma DropTaskSound(s: State, o: Outcome)
    requires Sound(s) && s.section.DroppingTask?
    ensures Sound(DoDropTask(s, o))
  {
  }

  /* ---- Arming, and the begin of a section. ---- */

  lemma AddedTask(s: State, n: State, id: TaskId, t: Task, o: Outcome)
    requires TasksOfDeletions(s) && TaskOfDeletion(s, id, t) && (id.ForNonce? ==> id.nonce <= s.issued)
    requires n == s.(queue := s.queue.Write(s.queue.visible[id := t], o), section := n.section, stray := n.stray)
    ensures TasksOfDeletions(n)
  {
  }

  lemma ArmTaskTasks(s: State, services: set<Service>, o: Outcome)
    requires s.section.ArmingRotation? || s.section.ArmingAdmin? || s.section.ArmingDelete?
    requires TasksOfDeletions(s) && SectionOfDeletion(s) && RevisionsDrawn(s)
    ensures TasksOfDeletions(DoArmTask(s, services, o)) && RevisionsDrawn(DoArmTask(s, services, o))
  {
    var c, n := s.section, DoArmTask(s, services, o);
    var p := Prepared(s.queue.visible, c.id, c.id.user, Binding(c).0, Binding(c).1, services, s.now);
    ArmedTask(s, services);
    hide Prepared, TasksOfDeletions;
    if p.Done? {
      hide SectionOfDeletion;
      AddedTask(s, n, c.id, p.value[c.id], o);
    } else {
      SectionAside(s, n);
    }
  }

  lemma SectionAside(s: State, n: State)
    requires TasksOfDeletions(s) && n == s.(section := n.section)
    ensures TasksOfDeletions(n)
  {
  }

  lemma AddedKicks(s: State, n: State, id: TaskId, t: Task, o: Outcome)
    requires KicksOfDeletions(s) && n == s.(queue := s.queue.Write(s.queue.visible[id := t], o),
             section := n.section, stray := n.stray)
    requires if id in s.queue.visible then t == s.queue.visible[id] else t.kickSuccesses == 0
    ensures KicksOfDeletions(n)
  {
  }

  lemma ArmTaskKicks(s: State, services: set<Service>, o: Outcome)
    requires s.section.ArmingRotation? || s.section.ArmingAdmin? || s.section.ArmingDelete?
    requires KicksOfDeletions(s) && SectionOfDeletion(s)
    ensures KicksOfDeletions(DoArmTask(s, services, o)) && SectionOfDeletion(DoArmTask(s, services, o))
  {
    var c, n := s.section, DoArmTask(s, services, o);
    var p := Prepared(s.queue.visible, c.id, c.id.user, Binding(c).0, Binding(c).1, services, s.now);
    ArmedTask(s, services);
    if !p.Raised? {
      hide Prepared, KicksOfDeletions, SectionOfDeletion, Binds;
      AddedKicks(s, n, c.id, p.value[c.id], o);
    }
  }

  lemma RotateSound(s: State, user: User, request: nat, session: Session, posted: nat)
    requires Sound(s) && user in s.users.visible
    ensures Sound(DoRotate(s, user, request, session, posted))
  {
    var n := DoRotate(s, user, request, session, posted);
    hide DoRotate, LookedUp;
    DrawnSound(s, n);
  }

  lemma DrawnSound(s: State, n: State)
    requires Sound(s) && n == s.(section := n.section, issued := n.issued, intents := n.intents) && s.issued <= n.issued
    requires n.section == s.section || (n.section.WritingReceipt? && n.section.id.ForRequest?)
    ensures Sound(n)
  {
  }

  lemma AdminRotateSound(s: State, user: User)
    requires Sound(s) && user in s.users.visible
    ensures Sound(DoAdminRotate(s, user))
  {
  }

  lemma DeleteSound(s: State, user: User)
    requires Sound(s) && user in s.users.visible
    ensures Sound(DoDelete(s, user))
  {
    assert s.users.visible in s.users.Versions();
  }

  /* ---- Writes of users.json. ---- */

  /** Every record written is one already there or carries a new revision. */
  lemma WroteUsers(s: State, n: State, next: Accounts, o: Outcome)
    requires RevisionsDrawn(s) && n.users == s.users.Write(next, o) && s.issued <= n.issued
    requires n.named == s.named && n.redone == s.redone
    requires forall u | u in next :: (u in s.users.visible && next[u].revision == s.users.visible[u].revision)
                                     || s.issued < next[u].revision <= n.issued
    ensures RevisionsDrawn(n)
  {
  }

  lemma CommittedSound(s: State, id: TaskId, token: nat, o: Outcome)
    requires Sound(s) && id !in s.named && (id.ForNonce? ==> id.nonce <= s.issued)
    ensures Sound(Committed(s, id, token, o))
  {
    var n := Committed(s, id, token, o);
    assert s.users.visible in s.users.Versions();
    if !o.NotReplaced? {
      WroteUsers(s, n, WithToken(s, id.user, token), o);
    }
  }

  lemma CommitSound(s: State, o: Outcome)
    requires s.section.Installing? || s.section.InstallingAdmin? || s.section.Removing?
    requires Sound(s)
    ensures Sound(DoCommit(s, o))
  {
    if s.section.InstallingAdmin? {
      CommittedSound(s, s.section.id, s.section.newToken, o);
    } else if s.section.Installing? {
      InstallSound(s, o);
    }
    hide Sound;
  }

  lemma InstallSound(s: State, o: Outcome)
    requires s.section.Installing? && Sound(s)
    ensures Sound(DoInstall(s, o))
  {
    var n := DoInstall(s, o);
    if MayInstall(s) {
      CommittedSound(s, s.section.id, s.section.receipt.newToken, o);
      hide Sound, Committed;
      AnswersAside(Committed(s, s.section.id, s.section.receipt.newToken, o), n);
    } else {
      hide Sound;
      AnswersAside(s.(section := n.section), n);
    }
  }

  lemma AnswersAside(m: State, n: State)
    requires Sound(m) && n == m.(receipts := n.receipts, answers := n.answers)
    ensures Sound(n)
  {
  }

  /** A decision on a deletion leaves the named revision out of users.json. */
  lemma DecidesSound(s: State, o: Outcome, purged: bool)
    requires Sound(s) && s.worker.Claimed? && s.section.Free?
    ensures Sound(DoWorkerDecides(s, o, purged))
  {
    var task, n := s.worker.task, DoWorkerDecides(s, o, purged);
    if !task.target.Deleted? {
      ReadSound(s, n);
    } else if DeleteSuperseded(s.users.visible, task) {
      SupersededSound(s, n);
    } else {
      RedoSound(s, o, purged);
    }
    hide Sound;
  }

  lemma ReadSound(s: State, n: State)
    requires Sound(s) && s.worker.Claimed? && !s.worker.task.target.Deleted?
    requires n == s.(worker := n.worker) && n.worker.Decided? && n.worker.id == s.worker.id
             && n.worker.task == s.worker.task
    ensures Sound(n)
  {
  }

  lemma SupersededSound(s: State, n: State)
    requires Sound(s) && s.section.Free? && s.worker.Claimed? && s.worker.task.target.Deleted?
    requires DeleteSuperseded(s.users.visible, s.worker.task)
    requires n == s.(worker := Decided(s.worker.id, s.worker.task, Deleted, s.now), redone := s.redone + {s.worker.id})
    ensures Sound(n)
  {
  }

  lemma RedoSound(s: State, o: Outcome, purged: bool)
    requires Sound(s) && s.worker.Claimed? && s.section.Free? && s.worker.task.target.Deleted?
    requires !DeleteSuperseded(s.users.visible, s.worker.task)
    ensures Sound(DoWorkerDecides(s, o, purged))
  {
  }

  /* ---- Every step, and what the redo guarantees. ---- */

  lemma UserWriteSound(s: State, e: Event, patience: Patience)
    requires (e.Touch? || e.Create?) && Sound(s) && Enabled(s, e, patience)
    ensures Sound(Step(s, e, patience))
  {
    var n := Step(s, e, patience);
    assert s.users.visible in s.users.Versions();
    var a := Account(if e.Touch? then s.users.visible[e.user].token else s.issued + 1, s.issued + 1);
    WroteUsers(s, n, s.users.visible[e.user := a], e.o);
    assert n == s.(users := n.users, issued := s.issued + 1) && s.section.Free?;
    hide RevisionsDrawn, Step, Enabled;
    OnlyUsersMoved(s, n);
  }

  lemma OnlyUsersMoved(s: State, n: State)
    requires Sound(s) && RevisionsDrawn(n) && s.section.Free?
    requires n == s.(users := n.users, issued := s.issued + 1)
    ensures Sound(n)
  {
  }

  lemma PowerLossSound(s: State, e: Event, patience: Patience)
    requires e.PowerLoss? && Sound(s) && Enabled(s, e, patience)
    ensures Sound(Step(s, e, patience))
  {
  }

  lemma ReceiptSound(s: State, n: State)
    requires Sound(s) && n == s.(receipts := n.receipts, section := n.section)
    requires n.section == s.section || n.section.Free?
             || (s.section.WritingReceipt? && n.section.ArmingRotation? && n.section.id == s.section.id)
    ensures Sound(n)
  {
  }

  lemma StepSound(s: State, e: Event, patience: Patience)
    requires Sound(s) && Enabled(s, e, patience)
    ensures Sound(Step(s, e, patience))
  {
    hide Sound;
    var n := Step(s, e, patience);
    match e
    case Rotate(user, request, session, posted) => RotateSound(s, user, request, session, posted);
    case AdminRotate(user) => AdminRotateSound(s, user);
    case Delete(user) => DeleteSound(s, user);
    case WriteReceipt(o) => ReceiptSound(s, n);
    case ArmTask(services, o) => ArmSound(s, services, o);
    case Commit(o) => CommitSound(s, o);
    case DropTask(o) => DropTaskSound(s, o);
    case Touch(_, _) => UserWriteSound(s, e, patience);
    case Create(_, _) => UserWriteSound(s, e, patience);
    case BindSession(_, _, _, _) => ReceiptSound(s, n);
    case PruneReceipts(_) => ReceiptSound(s, n);
    case AddServices(_, _, _) => AddServicesSound(s, e, patience);
    case RequestSettles(_, _, _, _, _) => RequestSettlesSound(s, e, patience);
    case WorkerClaims(id, o) => WorkerClaimsSound(s, id, o);
    case WorkerDecides(o, purged) => DecidesSound(s, o, purged);
    case WorkerSettles(_, _, _) => WorkerSettlesSound(s, e, patience);
    case PowerLoss(_, _, _) => PowerLossSound(s, e, patience);
    case Tick(_) => IdleSound(s, n);
    case Abort => ReceiptSound(s, n);
    case Purge => ReceiptSound(s, n);
    case WorkerAborts => IdleSound(s, n);
  }

  lemma ArmSound(s: State, services: set<Service>, o: Outcome)
    requires s.section.ArmingRotation? || s.section.ArmingAdmin? || s.section.ArmingDelete?
    requires Sound(s)
    ensures Sound(DoArmTask(s, services, o))
  {
    hide RevisionsDrawn, TasksOfDeletions, KicksOfDeletions, SectionOfDeletion;
    ArmTaskTasks(s, services, o);
    ArmTaskKicks(s, services, o);
  }

  lemma IdleSound(s: State, n: State)
    requires Sound(s) && (n == s.(now := n.now) || n == s.(worker := Resting))
    ensures Sound(n)
  {
  }

  /** A redo changes at most the entry of the account it names, and removes it only if it
      still is the named revision. */
  lemma RedoTouchesOnlyNamed(s: State, o: Outcome, purged: bool)
    requires s.worker.Claimed? && s.worker.task.target.Deleted?
    ensures var n, user := DoWorkerDecides(s, o, purged), s.worker.task.user;
            && (forall u | u != user :: u in n.users.visible <==> u in s.users.visible)
            && (forall u | u != user && u in s.users.visible :: n.users.visible[u] == s.users.visible[u])
            && (user in s.users.visible && Revision(s.users.visible[user].revision) != s.worker.task.previous ==>
                  n.users == s.users && n.section == s.section)
            && (n.section != s.section ==> n.section == Purging(user) && user !in n.users.visible)
  {
  }

  lemma SettledWasRedone(s: State, e: Event, id: TaskId, patience: Patience)
    requires Sound(s) && Enabled(s, e, patience)
    requires (e.RequestSettles? && e.id == id) || (e.WorkerSettles? && s.worker.Decided? && s.worker.id == id)
    requires id in s.named && id in s.queue.visible && id !in Step(s, e, patience).queue.visible
    ensures id in s.redone && !ShowsRevision(s.users.visible, id.user, s.named[id])
  {
    assert s.queue.visible in s.queue.Versions();
    if e.RequestSettles? && id !in s.redone {
      assert (id, Deleted) in s.handoffs && s.queue.visible[id].kickSuccesses == 0;
      FirstKickKeeps(s.(handoffs := s.handoffs - multiset{(e.id, e.target)}), id, e.target, e.kickOk, e.stopped, e.o);
    }
    hide Record, SectionOfDeletion, DoWorkerSettles;
  }

  lemma FirstKickKeeps(s: State, id: TaskId, target: Generation, kickOk: bool, stopped: set<Service>, o: Outcome)
    requires id in s.queue.visible && s.queue.visible[id].kickSuccesses == 0
    ensures id in Record(s, id, target, kickOk, stopped, o).queue.visible
  {
  }

  /** The steps that can take a task off the queue. */
  predicate MayDrop(s: State, e: Event, id: TaskId) {
    || (e.RequestSettles? && e.id == id)
    || (e.WorkerSettles? && s.worker.Decided? && s.worker.id == id)
    || (e.DropTask? && s.section.DroppingTask? && s.section.id == id)
    || e.PowerLoss?
  }

  lemma ArmingKeepsTasks(s: State, e: Event, id: TaskId, patience: Patience)
    requires e.ArmTask? && Enabled(s, e, patience) && id in s.queue.visible
    ensures id in Step(s, e, patience).queue.visible
  {
  }

  lemma LockedKeepsTasks(s: State, e: Event, id: TaskId, patience: Patience)
    requires e.Commit? || e.Rotate? || e.WriteReceipt? || e.AdminRotate? || e.Delete?
    requires Enabled(s, e, patience)
    ensures Step(s, e, patience).queue == s.queue
  {
    hide LookedUp, Offered, WithToken, MayInstall, Dropped;
  }

  lemma RecordKeepsOthers(s: State, own: TaskId, target: Generation, kickOk: bool, stopped: set<Service>, o: Outcome,
                          id: TaskId)
    requires id in s.queue.visible && id != own
    ensures id in Record(s, own, target, kickOk, stopped, o).queue.visible
  {
  }

  lemma SettlingKeepsTasks(s: State, kickOk: bool, stopped: set<Service>, o: Outcome, id: TaskId)
    requires s.worker.Decided? || s.worker.BackingOff?
    requires id in s.queue.visible && (s.worker.Decided? ==> s.worker.id != id)
    ensures id in DoWorkerSettles(s, kickOk, stopped, o).queue.visible
  {
    if s.worker.Decided? {
      RecordKeepsOthers(s.(worker := Resting), s.worker.id, s.worker.task.target, kickOk, stopped, o, id);
    }
    hide Record, VerdictOn;
  }

  lemma WorkerKeepsTasks(s: State, e: Event, id: TaskId, patience: Patience)
    requires e.WorkerClaims? || e.WorkerDecides? || e.WorkerAborts?
    requires Enabled(s, e, patience) && id in s.queue.visible
    ensures id in Step(s, e, patience).queue.visible
  {
    hide DeleteSuperseded, FirstDue;
  }

  lemma OthersKeepTasks(s: State, e: Event, id: TaskId, patience: Patience)
    requires e.AddServices? || e.RequestSettles? || e.DropTask?
    requires Enabled(s, e, patience) && id in s.queue.visible && !MayDrop(s, e, id)
    ensures id in Step(s, e, patience).queue.visible
  {
    if e.RequestSettles? {
      RecordKeepsOthers(s.(handoffs := s.handoffs - multiset{(e.id, e.target)}), e.id, e.target, e.kickOk,
                        e.stopped, e.o, id);
    }
    hide Record;
  }

  lemma OnlyDropsRemove(s: State, e: Event, id: TaskId, patience: Patience)
    requires Enabled(s, e, patience) && id in s.queue.visible && !MayDrop(s, e, id)
    ensures id in Step(s, e, patience).queue.visible
  {
    match e
    case ArmTask(_, _) => ArmingKeepsTasks(s, e, id, patience);
    case Commit(_) => LockedKeepsTasks(s, e, id, patience);
    case Rotate(_, _, _, _) => LockedKeepsTasks(s, e, id, patience);
    case WriteReceipt(_) => LockedKeepsTasks(s, e, id, patience);
    case AdminRotate(_) => LockedKeepsTasks(s, e, id, patience);
    case Delete(_) => LockedKeepsTasks(s, e, id, patience);
    case WorkerClaims(_, _) => WorkerKeepsTasks(s, e, id, patience);
    case WorkerDecides(_, _) => WorkerKeepsTasks(s, e, id, patience);
    case WorkerSettles(kickOk, stopped, o) => SettlingKeepsTasks(s, kickOk, stopped, o, id);
    case WorkerAborts => WorkerKeepsTasks(s, e, id, patience);
    case AddServices(_, _, _) => OthersKeepTasks(s, e, id, patience);
    case RequestSettles(_, _, _, _, _) => OthersKeepTasks(s, e, id, patience);
    case DropTask(_) => OthersKeepTasks(s, e, id, patience);
    case PowerLoss(_, _, _) => PowerLossMayDrop(s, e, id);
    case _ =>
  }

  lemma PowerLossMayDrop(s: State, e: Event, id: TaskId)
    requires e.PowerLoss?
    ensures MayDrop(s, e, id)
  {
  }

  lemma RemovedBySettling(s: State, e: Event, id: TaskId, patience: Patience)
    requires SectionOfDeletion(s) && RevisionsDrawn(s) && Enabled(s, e, patience) && !e.PowerLoss?
    requires id in s.named && id in s.queue.visible && id !in Step(s, e, patience).queue.visible
    ensures (e.RequestSettles? && e.id == id) || (e.WorkerSettles? && s.worker.Decided? && s.worker.id == id)
  {
    hide Step, Enabled;
    if !MayDrop(s, e, id) {
      OnlyDropsRemove(s, e, id, patience);
    }
  }

  lemma {:induction false} EveryRunSound(events: seq<Event>, patience: Patience)
    requires Runs(Start, events, patience)
    ensures Sound(After(Start, events, patience))
  {
    if events == [] {
    } else {
      EveryRunSound(events[..|events| - 1], patience);
      StepSound(After(Start, events[..|events| - 1], patience), events[|events| - 1], patience);
    }
  }

  /* ---- Revisions never return by themselves. ---- */

  /** What users.json may hold after the step: what it may hold now, less some accounts,
      and records with revisions drawn by the step. */
  ghost predicate FreshRecords(s: State, n: State) {
    && s.issued <= n.issued
    && forall v: Accounts, u | v in n.users.Versions() && u in v ::
         || s.issued < v[u].revision
         || exists w: Accounts :: w in s.users.Versions() && ShowsRevision(w, u, v[u].revision)
  }

  /** The same for what users.json shows. */
  ghost predicate FreshShown(s: State, n: State) {
    forall u | u in n.users.visible ::
      s.issued < n.users.visible[u].revision || ShowsRevision(s.users.visible, u, n.users.visible[u].revision)
  }

  lemma WrittenFresh(s: State, n: State, next: Accounts, o: Outcome)
    requires n.users == s.users.Write(next, o) && s.issued <= n.issued
    requires forall u | u in next :: s.issued < next[u].revision || ShowsRevision(s.users.visible, u, next[u].revision)
    ensures FreshRecords(s, n) && FreshShown(s, n)
  {
    assert s.users.visible in s.users.Versions();
    forall v: Accounts, u | v in n.users.Versions() && u in v && v[u].revision <= s.issued
      ensures exists w: Accounts :: w in s.users.Versions() && ShowsRevision(w, u, v[u].revision)
    {
      if v == next && o != NotReplaced {
        assert ShowsRevision(s.users.visible, u, v[u].revision);
      } else {
        assert ShowsRevision(v, u, v[u].revision);
      }
    }
  }

  lemma CommitFresh(s: State, o: Outcome)
    requires s.section.Installing? || s.section.InstallingAdmin? || s.section.Removing?
    ensures FreshRecords(s, DoCommit(s, o)) && FreshShown(s, DoCommit(s, o))
  {
    var n, id := DoCommit(s, o), s.section.id;
    hide FreshRecords, FreshShown;
    if n.users != s.users && s.section.Removing? {
      WrittenFresh(s, n, s.users.visible - {id.user}, o);
    } else if n.users != s.users {
      var token := if s.section.Installing? then s.section.receipt.newToken else s.section.newToken;
      WrittenFresh(s, n, WithToken(s, id.user, token), o);
    }
  }

  lemma DecidesFresh(s: State, o: Outcome, purged: bool)
    requires s.worker.Claimed?
    ensures FreshRecords(s, DoWorkerDecides(s, o, purged)) && FreshShown(s, DoWorkerDecides(s, o, purged))
  {
    var n := DoWorkerDecides(s, o, purged);
    hide FreshRecords, FreshShown;
    if n.users != s.users {
      WrittenFresh(s, n, s.users.visible - {s.worker.task.user}, o);
    }
  }

  predicate SameRecord(s: State, n: State) {
    n.redone == s.redone && n.named == s.named
  }

  /** Accounts and deletions as they were. */
  predicate Aside(s: State, n: State) {
    n.users == s.users && s.issued <= n.issued && SameRecord(s, n)
  }

  lemma RecordAside(s: State, id: TaskId, target: Generation, kickOk: bool, stopped: set<Service>, o: Outcome)
    ensures Aside(s, Record(s, id, target, kickOk, stopped, o))
  {
  }

  lemma SettleAside(s: State, kickOk: bool, stopped: set<Service>, o: Outcome)
    requires s.worker.Decided? || s.worker.BackingOff?
    ensures Aside(s, DoWorkerSettles(s, kickOk, stopped, o))
  {
    if s.worker.Decided? {
      RecordAside(s.(worker := Resting), s.worker.id, s.worker.task.target, kickOk, stopped, o);
    }
    hide Record, Released, Discarded;
  }

  lemma ArmAside(s: State, services: set<Service>, o: Outcome)
    requires s.section.ArmingRotation? || s.section.ArmingAdmin? || s.section.ArmingDelete?
    ensures Aside(s, DoArmTask(s, services, o))
  {
    hide Prepared;
  }

  lemma LockedAside(s: State, e: Event, patience: Patience)
    requires Enabled(s, e, patience) && (e.Rotate? || e.AdminRotate? || e.WriteReceipt? || e.DropTask?)
    ensures Aside(s, Step(s, e, patience))
  {
    hide LookedUp, Offered, Discarded;
  }

  lemma ClaimAside(s: State, id: TaskId, o: Outcome)
    requires id in s.queue.visible
    ensures Aside(s, DoWorkerClaims(s, id, o))
  {
  }

  predicate LeavesUsers(e: Event) {
    !e.Touch? && !e.Create? && !e.Commit? && !e.WorkerDecides? && !e.PowerLoss?
  }

  lemma StepAside(s: State, e: Event, patience: Patience)
    requires Enabled(s, e, patience) && LeavesUsers(e) && !e.Delete?
    ensures Aside(s, Step(s, e, patience))
  {
    hide DoArmTask, Record, DoWorkerSettles, DoWorkerClaims, DoRotate, DoAdminRotate, DoWriteReceipt, DoDropTask,
         Bound, Pruned, WithServices;
    match e
    case ArmTask(services, o) => ArmAside(s, services, o);
    case RequestSettles(id, target, kickOk, stopped, o) =>
      RecordAside(s.(handoffs := s.handoffs - multiset{(id, target)}), id, target, kickOk, stopped, o);
    case WorkerSettles(kickOk, stopped, o) => SettleAside(s, kickOk, stopped, o);
    case WorkerClaims(id, o) => ClaimAside(s, id, o);
    case Rotate(_, _, _, _) => LockedAside(s, e, patience);
    case AdminRotate(_) => LockedAside(s, e, patience);
    case WriteReceipt(_) => LockedAside(s, e, patience);
    case DropTask(_) => LockedAside(s, e, patience);
    case _ =>
  }

  lemma StepLeavesUsers(s: State, e: Event, patience: Patience)
    requires Enabled(s, e, patience) && LeavesUsers(e)
    ensures Step(s, e, patience).users == s.users && s.issued <= Step(s, e, patience).issued
  {
    if !e.Delete? {
      StepAside(s, e, patience);
      hide Step;
    }
  }

  lemma StepFresh(s: State, e: Event, patience: Patience)
    requires Enabled(s, e, patience)
    ensures FreshRecords(s, Step(s, e, patience))
    ensures !e.PowerLoss? ==> FreshShown(s, Step(s, e, patience))
  {
    var n := Step(s, e, patience);
    hide FreshRecords, FreshShown;
    if LeavesUsers(e) {
      StepLeavesUsers(s, e, patience);
      hide Step;
    } else if e.Commit? {
      CommitFresh(s, e.o);
    } else if e.WorkerDecides? {
      DecidesFresh(s, e.o, e.purged);
    } else if e.PowerLoss? {
    } else {
      var a := Account(if e.Touch? then s.users.visible[e.user].token else s.issued + 1, s.issued + 1);
      WrittenFresh(s, n, s.users.visible[e.user := a], e.o);
    }
  }

  /** What no recoverable users.json holds never returns, whatever follows. */
  lemma {:induction false} GoneStays(s: State, more: seq<Event>, user: User, revision: nat, patience: Patience)
    requires Runs(s, more, patience) && revision <= s.issued && Gone(s.users, user, revision)
    ensures revision <= After(s, more, patience).issued && Gone(After(s, more, patience).users, user, revision)
  {
    if more == [] {
    } else {
      GoneStays(s, more[..|more| - 1], user, revision, patience);
      var m := After(s, more[..|more| - 1], patience);
      StepFresh(m, more[|more| - 1], patience);
      hide Step, Enabled;
    }
  }

  /** What users.json does not show it does not show again until a power loss. */
  lemma {:induction false} HiddenStays(s: State, more: seq<Event>, user: User, revision: nat, patience: Patience)
    requires Runs(s, more, patience) && revision <= s.issued && !ShowsRevision(s.users.visible, user, revision)
    requires forall i | 0 <= i < |more| :: !more[i].PowerLoss?
    ensures revision <= After(s, more, patience).issued
    ensures !ShowsRevision(After(s, more, patience).users.visible, user, revision)
  {
    if more == [] {
    } else {
      HiddenStays(s, more[..|more| - 1], user, revision, patience);
      var m := After(s, more[..|more| - 1], patience);
      StepFresh(m, more[|more| - 1], patience);
      hide Step, Enabled;
    }
  }

  /* ---- A completed deletion is final. ---- */

  /** A superseded deletion does not rewrite users.json, so an older version may still hold
      the revision it names. */
  ghost predicate HeldByOlder(s: State, user: User, revision: nat) {
    exists v: Accounts :: v in s.users.stale && ShowsRevision(v, user, revision)
  }

  /** Every deletion taken for superseded is named by no older, recoverable users.json. */
  ghost predicate Settled(s: State, e: Event) {
    e.WorkerDecides? && s.worker.Claimed? && s.worker.task.target.Deleted? && s.worker.task.previous.Revision?
    && DeleteSuperseded(s.users.visible, s.worker.task) ==>
      !HeldByOlder(s, s.worker.task.user, s.worker.task.previous.number)
  }

  /** A caller who knows that the last save of users.json was durable may rely on it. */
  lemma DurableSettles(s: State, e: Event)
    requires s.users.stale == {}
    ensures Settled(s, e)
  {
  }

  ghost predicate SettledRun(events: seq<Event>, patience: Patience)
    requires Runs(Start, events, patience)
    decreases |events|
  {
    events != [] ==>
      var before := events[..|events| - 1];
      SettledRun(before, patience) && Settled(After(Start, before, patience), events[|events| - 1])
  }

  /** No recoverable users.json holds the revision of a deletion that was decided on. */
  ghost predicate Final(s: State) {
    forall id | id in s.redone && id in s.named :: Gone(s.users, id.user, s.named[id])
  }

  /** What a step can add to the deletions decided on. */
  lemma StepDecides(s: State, e: Event, patience: Patience)
    requires RevisionsDrawn(s) && Enabled(s, e, patience)
    ensures var n := Step(s, e, patience);
            && (forall id | id in n.redone ::
                  id in s.redone || (e.WorkerDecides? && id == s.worker.id && s.worker.task.target.Deleted?))
            && (forall id | id in s.named && id in n.redone :: id in n.named && n.named[id] == s.named[id])
            && (forall id | id in s.redone :: id in s.named)
  {
    if LeavesUsers(e) && !e.Delete? {
      StepAside(s, e, patience);
      hide Step;
    } else if e.Commit? {
      hide DoCommit;
    }
  }

  lemma DecidesFinal(s: State, o: Outcome, purged: bool)
    requires Sound(s) && s.worker.Claimed? && s.worker.task.target.Deleted? && s.section.Free?
    requires Settled(s, WorkerDecides(o, purged))
    ensures var n := DoWorkerDecides(s, o, purged);
            s.worker.id in n.redone && s.worker.id !in s.redone ==>
              Gone(n.users, s.worker.id.user, s.named[s.worker.id])
  {
    assert TaskOfDeletion(s, s.worker.id, s.worker.task);
  }

  lemma StepFinal(s: State, e: Event, patience: Patience)
    requires Sound(s) && Final(s) && Enabled(s, e, patience) && Settled(s, e)
    ensures Final(Step(s, e, patience))
  {
    var n := Step(s, e, patience);
    StepDecides(s, e, patience);
    StepFresh(s, e, patience);
    if e.WorkerDecides? && s.worker.task.target.Deleted? {
      DecidesFinal(s, e.o, e.purged);
    }
    hide Step, Enabled, Settled, TasksOfDeletions, KicksOfDeletions, SectionOfDeletion;
    forall id | id in n.redone && id in n.named && id in s.redone
      ensures Gone(n.users, id.user, n.named[id])
    {
      assert Gone(s.users, id.user, s.named[id]);
    }
  }

  lemma {:induction false} EveryRunFinal(events: seq<Event>, patience: Patience)
    requires Runs(Start, events, patience) && SettledRun(events, patience)
    ensures Final(After(Start, events, patience))
  {
    if events == [] {
    } else {
      var before := events[..|events| - 1];
      EveryRunFinal(before, patience);
      EveryRunSound(before, patience);
      StepFinal(After(Start, before, patience), events[|events| - 1], patience);
    }
  }

  /** In every run a deletion leaves the queue only after the retry thread decided on it,
      while users.json does not show its revision: a request alone never completes it. */
  lemma CompletedWasRedone(events: seq<Event>, patience: Patience)
    requires Runs(Start, events, patience)
    ensures var s := After(Start, events, patience);
            forall e: Event, id | Enabled(s, e, patience) && !e.PowerLoss? && id in s.named ::
              id in s.queue.visible && id !in Step(s, e, patience).queue.visible ==>
                id in s.redone && !ShowsRevision(s.users.visible, id.user, s.named[id])
  {
    var s := After(Start, events, patience);
    EveryRunSound(events, patience);
    hide Step, Enabled;
    forall e: Event, id | Enabled(s, e, patience) && !e.PowerLoss? && id in s.named
                          && id in s.queue.visible && id !in Step(s, e, patience).queue.visible
      ensures id in s.redone && !ShowsRevision(s.users.visible, id.user, s.named[id])
    {
      RemovedBySettling(s, e, id, patience);
      SettledWasRedone(s, e, id, patience);
    }
  }

  /** In any run at all, from the step that takes a deletion off the queue on, users.json
      does not show the revision it names, until a power loss. */
  lemma {:induction false} CompletedStaysHidden(events: seq<Event>, e: Event, more: seq<Event>, id: TaskId,
                                                patience: Patience)
    requires Runs(Start, events, patience)
    requires var s := After(Start, events, patience);
             && Enabled(s, e, patience) && !e.PowerLoss?
             && id in s.named && id in s.queue.visible && id !in Step(s, e, patience).queue.visible
             && Runs(Step(s, e, patience), more, patience)
    requires forall i | 0 <= i < |more| :: !more[i].PowerLoss?
    ensures var s := After(Start, events, patience);
            !ShowsRevision(After(Step(s, e, patience), more, patience).users.visible, id.user, s.named[id])
  {
    var s := After(Start, events, patience);
    EveryRunSound(events, patience);
    CompletedWasRedone(events, patience);
    StepFresh(s, e, patience);
    hide Step, Enabled;
    HiddenStays(Step(s, e, patience), more, id.user, s.named[id], patience);
  }

  /** A completed deletion is final: if the deletions taken for superseded were settled,
      then from the step that takes a task off the queue on, through every later write,
      failure and power loss, no recoverable users.json holds the revision it names. */
  lemma {:induction false} CompletedMeansGone(events: seq<Event>, e: Event, more: seq<Event>, id: TaskId,
                                              patience: Patience)
    requires Runs(Start, events, patience) && SettledRun(events, patience)
    requires var s := After(Start, events, patience);
             && Enabled(s, e, patience) && !e.PowerLoss?
             && id in s.named && id in s.queue.visible && id !in Step(s, e, patience).queue.visible
             && Runs(Step(s, e, patience), more, patience)
    ensures var s := After(Start, events, patience);
            Gone(After(Step(s, e, patience), more, patience).users, id.user, s.named[id])
  {
    var s := After(Start, events, patience);
    EveryRunSound(events, patience);
    EveryRunFinal(events, patience);
    CompletedWasRedone(events, patience);
    StepFresh(s, e, patience);
    hide Step, Enabled;
    GoneStays(Step(s, e, patience), more, id.user, s.named[id], patience);
  }
}
