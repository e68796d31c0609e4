/** Rotation, deletion and revocation of credentials as one step machine
    (hysteria/subscription_service.py).

    Every write of a state file is one step, so a failure, a power loss or the steps of
    another thread can fall between any two of them. The holder of `usage_lock` is a
    `Section`; the retry thread is a `Worker`; a request that has left the lock and still
    has to report its kick is a hand-off. */
module CredentialProtocol {
  import opened StateStore
  import opened RevocationQueue
  import opened RotationRecovery

  /** `revision` stands for the digest of the whole record. */
  datatype Account = Account(token: nat, revision: nat)

  type Accounts = map<User, Account>

  function CurrentOf(users: Accounts, user: User): Generation {
    Token(if user in users then users[user].token else 0)
  }

  /** Who holds `usage_lock`, and which write comes next. */
  datatype Section =
    | Free
    | WritingReceipt(id: TaskId, posted: nat, session: Session, oldToken: nat, newToken: nat, replay: bool)
    | ArmingRotation(id: TaskId, posted: nat, receipt: Receipt, checkedAt: int)
    | Installing(id: TaskId, posted: nat, receipt: Receipt, checkedAt: int)
    | DroppingTask(id: TaskId, token: nat)
    | ArmingAdmin(id: TaskId, oldToken: nat, newToken: nat)
    | InstallingAdmin(id: TaskId, oldToken: nat, newToken: nat)
    | ArmingDelete(id: TaskId, revision: nat)
    | Removing(id: TaskId)
    | Purging(user: User)

  datatype Worker =
    | Resting
    | Claimed(id: TaskId, task: Task)
    | Decided(id: TaskId, task: Task, seen: Generation, at: int)
    | BackingOff(id: TaskId)

  /** The token a request was told is in force, and when its receipt expires. */
  datatype Answer = Answer(token: nat, until: int)

  /** The task that a drawn token belongs to, and the token it replaces. */
  datatype Intent = Intent(id: TaskId, older: nat)

  /** The fields from `issued` on are bookkeeping; no handler decides by them. */
  datatype State = State(
    now: int,
    users: Disk<Accounts>,
    receipts: Disk<Receipts>,
    queue: Disk<Queue>,
    section: Section,
    worker: Worker,
    handoffs: multiset<(TaskId, Generation)>,
    issued: nat,                    // every token and revision drawn so far is at most this
    intents: map<nat, Intent>,      // what each token drawn by a rotation is for
    retired: set<nat>,              // rotations whose task was removed after two kicks made for them
    stray: set<TaskId>,             // tasks whose present kicks include one made for another token
    named: map<TaskId, nat>,        // the account revision that a deletion names
    redone: set<TaskId>,            // deletions the retry thread decided on and no power loss undid
    answers: map<TaskId, Answer>)   // what replayable requests have been told

  const Start := State(0, Disk(map[], {}), Disk(map[], {}), Disk(map[], {}), Free, Resting,
                       multiset{}, 0, map[], {}, {}, map[], {}, map[])

  datatype Event =
    | Tick(now: int)
    | Abort                                   // an exception leaves the locked section
    | Rotate(user: User, request: nat, session: Session, posted: nat)
    | WriteReceipt(o: Outcome)
    | ArmTask(services: set<Service>, o: Outcome)
    | Commit(o: Outcome)
    | DropTask(o: Outcome)
    | AdminRotate(user: User)
    | Delete(user: User)
    | Purge
    | Touch(user: User, o: Outcome)           // any other edit of an account
    | Create(user: User, o: Outcome)
    | BindSession(id: TaskId, original: Session, replacement: Session, o: Outcome)
    | PruneReceipts(o: Outcome)
    | AddServices(id: TaskId, services: set<Service>, o: Outcome)
    | RequestSettles(id: TaskId, target: Generation, kickOk: bool, stopped: set<Service>, o: Outcome)
    | WorkerClaims(id: TaskId, o: Outcome)
    | WorkerDecides(o: Outcome, purged: bool)
    | WorkerSettles(kickOk: bool, stopped: set<Service>, o: Outcome)
    | WorkerAborts
    | PowerLoss(users: Accounts, receipts: Receipts, queue: Queue)

  /** The longest time the retry thread takes from reading a generation to acting on it. */
  type Patience = int

  ghost predicate Enabled(s: State, e: Event, patience: Patience) {
    match e
    case Tick(now) => s.now <= now
    case Abort => true
    case Rotate(user, request, session, posted) => s.section.Free? && user in s.users.visible
    case WriteReceipt(_) =>
      && s.section.WritingReceipt?
      // A receipt does not expire between its lookup and its rewrite.
      && (s.section.replay ==> s.section.id in Pruned(s.receipts.visible, s.now))
    case ArmTask(_, _) => s.section.ArmingRotation? || s.section.ArmingAdmin? || s.section.ArmingDelete?
    case Commit(_) => s.section.Installing? || s.section.InstallingAdmin? || s.section.Removing?
    case DropTask(_) => s.section.DroppingTask?
    case AdminRotate(user) => s.section.Free? && user in s.users.visible
    case Delete(user) => s.section.Free? && user in s.users.visible
    case Purge => s.section.Purging?
    case Touch(user, _) => s.section.Free? && user in s.users.visible
    case Create(user, _) => s.section.Free? && user !in s.users.visible
    case BindSession(_, _, _, _) => true
    case PruneReceipts(_) => true
    case AddServices(_, _, _) => true
    case RequestSettles(id, target, _, _, _) => (id, target) in s.handoffs
    case WorkerClaims(id, _) => s.worker.Resting? && FirstDue(s.queue.visible, id, s.now)
    case WorkerDecides(_, _) => s.worker.Claimed? && s.section.Free?
    case WorkerSettles(_, _, _) =>
      s.worker.BackingOff? || (s.worker.Decided? && s.now <= s.worker.at + patience)
    case WorkerAborts => true
    case PowerLoss(users, receipts, queue) =>
      users in s.users.Versions() && receipts in s.receipts.Versions() && queue in s.queue.Versions()
  }

  /* ---- Which token can follow which. ---- */

  /** Replacing tokens one by one can lead from `a` to `g`. */
  predicate Leads(intents: map<nat, Intent>, a: nat, g: nat) {
    a == g || (g in intents && intents[g].older < g && Leads(intents, a, intents[g].older))
  }

  /** Live receipts lead from the token that the account shows to `token`. */
  ghost predicate Replayable(users: Accounts, receipts: Receipts, now: int, user: User, token: nat) {
    || HasToken(users, user, token)
    || exists id :: LinkedBy(receipts, id, now, token) && Replayable(users, receipts, now, user, receipts[id].oldToken)
  }

  predicate LinkedBy(receipts: Receipts, id: TaskId, now: int, token: nat) {
    && id in receipts && now < receipts[id].expiresAt
    && receipts[id].oldToken < receipts[id].newToken == token
  }

  /* ---- Self-service rotation. ---- */

  /** Take the lock, read the account and look the receipt up. A fresh rotation needs the
      current token; session and lifecycle checks only turn requests away. */
  function DoRotate(s: State, user: User, request: nat, session: Session, posted: nat): State
    requires user in s.users.visible
  {
    var id := ForRequest(user, request);
    var found := LookedUp(s.receipts.visible, id, session, s.now);
    var current := s.users.visible[user].token;
    if found.Some? then
      s.(section := WritingReceipt(id, posted, session, found.value.oldToken, found.value.newToken, true))
    else if posted != current then s
    else
      var drawn := s.issued + 1;
      s.(section := WritingReceipt(id, posted, session, current, drawn, false),
         issued := drawn, intents := s.intents[drawn := Intent(id, current)])
  }

  function DoWriteReceipt(s: State, o: Outcome): State
    requires s.section.WritingReceipt?
  {
    var c := s.section;
    var p := Offered(s.receipts.visible, c.id, c.session, c.oldToken, c.newToken, s.now);
    if p.Raised? then s.(section := Free)
    else
      s.(receipts := s.receipts.Write(p.value, o),
         section := if o.Durable? then ArmingRotation(c.id, c.posted, p.value[c.id], s.now) else Free)
  }

  /** The task that the section's request wants in the queue. */
  function Binding(c: Section): (Generation, Generation)
    requires c.ArmingRotation? || c.ArmingAdmin? || c.ArmingDelete?
  {
    match c
    case ArmingRotation(_, _, receipt, _) => (Token(receipt.oldToken), Token(receipt.newToken))
    case ArmingAdmin(_, oldToken, newToken) => (Token(oldToken), Token(newToken))
    case ArmingDelete(_, revision) => (Revision(revision), Deleted)
  }

  function AfterArming(c: Section): Section
    requires c.ArmingRotation? || c.ArmingAdmin? || c.ArmingDelete?
  {
    match c
    case ArmingRotation(id, posted, receipt, checkedAt) => Installing(id, posted, receipt, checkedAt)
    case ArmingAdmin(id, oldToken, newToken) => InstallingAdmin(id, oldToken, newToken)
    case ArmingDelete(id, _) => Removing(id)
  }

  function DoArmTask(s: State, services: set<Service>, o: Outcome): State
    requires s.section.ArmingRotation? || s.section.ArmingAdmin? || s.section.ArmingDelete?
  {
    var c := s.section;
    var p := Prepared(s.queue.visible, c.id, c.id.user, Binding(c).0, Binding(c).1, services, s.now);
    if p.Raised? then s.(section := Free)
    else
      s.(queue := s.queue.Write(p.value, o),
         stray := if c.id in s.queue.visible then s.stray else s.stray - {c.id},
         section := if o.Durable? then AfterArming(c) else Free)
  }

  /** What arming writes: the section's own task, new or as it was. */
  lemma ArmedTask(s: State, services: set<Service>)
    requires s.section.ArmingRotation? || s.section.ArmingAdmin? || s.section.ArmingDelete?
    ensures var c, q := s.section, s.queue.visible;
            var p := Prepared(q, c.id, c.id.user, Binding(c).0, Binding(c).1, services, s.now);
            p.Done? ==>
              && c.id in p.value && p.value == q[c.id := p.value[c.id]]
              && Binds(p.value[c.id], c.id.user, Binding(c).0, Binding(c).1)
              && (if c.id in q then p.value == q
                  else p.value[c.id] == Fresh(c.id.user, Binding(c).0, Binding(c).1, services, s.now))
  {
  }

  /** Nothing but a token that is already in force, or a replacement of the old one asked
      for by its holder, may be committed. */
  predicate MayInstall(s: State)
    requires s.section.Installing?
  {
    var current := CurrentOf(s.users.visible, s.section.id.user);
    || current == Token(s.section.receipt.newToken)
    || (current == Token(s.section.receipt.oldToken) && s.section.posted == s.section.receipt.oldToken)
  }

  /** The accounts with `user` given `token`; the record changes, so does its revision. */
  function WithToken(s: State, user: User, token: nat): Accounts {
    if user in s.users.visible && s.users.visible[user].token == token then s.users.visible
    else s.users.visible[user := Account(token, s.issued + 1)]
  }

  predicate HasToken(users: Accounts, user: User, token: nat) {
    user in users && users[user].token == token
  }

  /** A rotation's commit: the request hands its first kick over unless the write failed.
      A commit that changes the account, or whose task is queued, needs a fresh retirement. */
  function Committed(s: State, id: TaskId, token: nat, o: Outcome): State {
    if o.NotReplaced? then s.(section := Free)
    else
      s.(users := s.users.Write(WithToken(s, id.user, token), o),
         issued := s.issued + 1,
         section := Free,
         handoffs := s.handoffs + multiset{(id, Token(token))},
         retired := if id in s.queue.visible || !HasToken(s.users.visible, id.user, token)
                    then s.retired - {token} else s.retired)
  }

  function DoInstall(s: State, o: Outcome): State
    requires s.section.Installing?
  {
    var c := s.section;
    if MayInstall(s) then
      var next := Committed(s, c.id, c.receipt.newToken, o);
      if o.NotReplaced? then next
      else next.(answers := next.answers[c.id := Answer(c.receipt.newToken, c.receipt.expiresAt)])
    else
      var w := Dropped(s.receipts.visible, c.id);
      s.(receipts := s.receipts.WriteIf(w, o),
         answers := if w.Some? && !o.NotReplaced? then s.answers - {c.id} else s.answers,
         section := if w.None? || o.Durable? then DroppingTask(c.id, c.receipt.newToken) else Free)
  }

  function DoDropTask(s: State, o: Outcome): State
    requires s.section.DroppingTask?
  {
    s.(queue := s.queue.WriteIf(Discarded(s.queue.visible, s.section.id), o), section := Free)
  }

  /* ---- Administrator actions. ---- */

  function DoAdminRotate(s: State, user: User): State
    requires user in s.users.visible
  {
    var drawn := s.issued + 1;
    var id := ForNonce(user, drawn);
    s.(section := ArmingAdmin(id, s.users.visible[user].token, drawn),
       issued := drawn, intents := s.intents[drawn := Intent(id, s.users.visible[user].token)])
  }

  function DoDelete(s: State, user: User): State
    requires user in s.users.visible
  {
    var drawn := s.issued + 1;
    var id, revision := ForNonce(user, drawn), s.users.visible[user].revision;
    s.(section := ArmingDelete(id, revision), issued := drawn, named := s.named[id := revision])
  }

  /** The deletion handler goes on to its kick even when the save failed. */
  function DoRemove(s: State, o: Outcome): State
    requires s.section.Removing?
  {
    var id := s.section.id;
    s.(users := s.users.Write(s.users.visible - {id.user}, o),
       section := if o.Durable? then Purging(id.user) else Free,
       handoffs := s.handoffs + multiset{(id, Deleted)})
  }

  function DoCommit(s: State, o: Outcome): State
    requires s.section.Installing? || s.section.InstallingAdmin? || s.section.Removing?
  {
    match s.section
    case Installing(_, _, _, _) => DoInstall(s, o)
    case InstallingAdmin(id, _, newToken) => Committed(s, id, newToken, o)
    case Removing(_) => DoRemove(s, o)
  }

  /* ---- The retry thread. ---- */

  /** After this attempt, do the task's kicks include one made for another token? */
  predicate StrayAfter(s: State, id: TaskId, target: Generation, kickOk: bool)
    requires id in s.queue.visible
  {
    kickOk && (id in s.stray || s.queue.visible[id].target != target)
  }

  /** `complete_attempt` goes by the id alone; `target` is what the attempt was made for. */
  function Record(s: State, id: TaskId, target: Generation, kickOk: bool, stopped: set<Service>, o: Outcome): State {
    var q := s.queue.visible;
    var w := Completed(q, id, kickOk, stopped, s.now);
    if w.None? || o.NotReplaced? then s.(queue := s.queue.WriteIf(w, o))
    else
      var strays := StrayAfter(s, id, target, kickOk);
      s.(queue := s.queue.Write(w.value, o),
         stray := if strays && id in w.value then s.stray + {id} else s.stray - {id},
         retired := if id !in w.value && q[id].target.Token? && !strays
                    then s.retired + {q[id].target.id} else s.retired)
  }

  function DoWorkerClaims(s: State, id: TaskId, o: Outcome): State
    requires id in s.queue.visible
  {
    var q := Leased(s.queue.visible, id, s.now);
    s.(queue := s.queue.Write(q, o), worker := if o.Durable? then Claimed(id, q[id]) else Resting)
  }

  predicate ShowsRevision(users: Accounts, user: User, revision: nat) {
    user in users && users[user].revision == revision
  }

  /** A same-name account that is not the named revision supersedes a deletion. */
  predicate DeleteSuperseded(users: Accounts, task: Task) {
    task.user in users && Revision(users[task.user].revision) != task.previous
  }

  /** A deletion is redone and the history purged; when either fails, the task is released. */
  function DoWorkerDecides(s: State, o: Outcome, purged: bool): State
    requires s.worker.Claimed?
  {
    var id, task := s.worker.id, s.worker.task;
    if !task.target.Deleted? then
      s.(worker := Decided(id, task, CurrentOf(s.users.visible, task.user), s.now))
    else if DeleteSuperseded(s.users.visible, task) then
      s.(worker := Decided(id, task, Deleted, s.now),
         redone := s.redone + {id})
    else
      var users := s.users.Write(s.users.visible - {task.user}, o);
      if o.Durable? && purged then
        s.(users := users, section := Purging(task.user),
           worker := Decided(id, task, Deleted, s.now), redone := s.redone + {id})
      else
        s.(users := users, worker := BackingOff(id), redone := if o.Durable? then s.redone + {id} else s.redone)
  }

  datatype Verdict = Retry | GiveUp | Superseded | Kick

  /** What the retry thread does with a claimed task whose account shows `seen`. */
  function VerdictOn(task: Task, seen: Generation, now: int): Verdict {
    if seen == task.target then Kick
    else if seen == task.previous then
      if task.expiresAt <= now then GiveUp else Retry
    else Superseded
  }

  function DoWorkerSettles(s: State, kickOk: bool, stopped: set<Service>, o: Outcome): State
    requires s.worker.Decided? || s.worker.BackingOff?
  {
    var id := s.worker.id;
    var rested := s.(worker := Resting);
    if s.worker.BackingOff? then
      rested.(queue := s.queue.WriteIf(Released(s.queue.visible, id, RETRY_DELAY_SECONDS, s.now), o))
    else match VerdictOn(s.worker.task, s.worker.seen, s.now)
    case Kick => Record(rested, id, s.worker.task.target, kickOk, stopped, o)
    case Retry =>
      rested.(queue := s.queue.WriteIf(Released(s.queue.visible, id, RETRY_DELAY_SECONDS, s.now), o))
    case GiveUp => rested.(queue := s.queue.WriteIf(Discarded(s.queue.visible, id), o))
    case Superseded => rested.(queue := s.queue.WriteIf(Discarded(s.queue.visible, id), o))
  }

  /* ---- One step. ---- */

  ghost function Step(s: State, e: Event, patience: Patience): State
    requires Enabled(s, e, patience)
  {
    match e
    case Tick(now) => s.(now := now)
    case Abort => s.(section := Free)
    case Rotate(user, request, session, posted) => DoRotate(s, user, request, session, posted)
    case WriteReceipt(o) => DoWriteReceipt(s, o)
    case ArmTask(services, o) => DoArmTask(s, services, o)
    case Commit(o) => DoCommit(s, o)
    case DropTask(o) => DoDropTask(s, o)
    case AdminRotate(user) => DoAdminRotate(s, user)
    case Delete(user) => DoDelete(s, user)
    case Purge => s.(section := Free)
    case Touch(user, o) =>
      s.(users := s.users.Write(s.users.visible[user := Account(s.users.visible[user].token, s.issued + 1)], o),
         issued := s.issued + 1)
    case Create(user, o) =>
      s.(users := s.users.Write(s.users.visible[user := Account(s.issued + 1, s.issued + 1)], o),
         issued := s.issued + 1)
    case BindSession(id, original, replacement, o) =>
      s.(receipts := s.receipts.WriteIf(Bound(s.receipts.visible, id, original, replacement, s.now), o))
    case PruneReceipts(o) =>
      var live := Pruned(s.receipts.visible, s.now);
      s.(receipts := s.receipts.WriteIf(if live == s.receipts.visible then None else Some(live), o))
    case AddServices(id, services, o) =>
      s.(queue := s.queue.WriteIf(WithServices(s.queue.visible, id, services, s.now), o))
    case RequestSettles(id, target, kickOk, stopped, o) =>
      Record(s.(handoffs := s.handoffs - multiset{(id, target)}), id, target, kickOk, stopped, o)
    case WorkerClaims(id, o) => DoWorkerClaims(s, id, o)
    case WorkerDecides(o, purged) => DoWorkerDecides(s, o, purged)
    case WorkerSettles(kickOk, stopped, o) => DoWorkerSettles(s, kickOk, stopped, o)
    case WorkerAborts => s.(worker := Resting)
    case PowerLoss(users, receipts, queue) =>
      s.(users := s.users.PowerLoss(users), receipts := s.receipts.PowerLoss(receipts),
         queue := s.queue.PowerLoss(queue), section := Free, worker := Resting, handoffs := multiset{},
         redone := set id | id in s.redone && !(id in s.named && ShowsRevision(users, id.user, s.named[id])))
  }

  ghost predicate Runs(s: State, events: seq<Event>, patience: Patience)
    decreases |events|, 0
  {
    events != [] ==>
      var before := events[..|events| - 1];
      && Runs(s, before, patience)
      && Enabled(After(s, before, patience), events[|events| - 1], patience)
  }

  ghost function After(s: State, events: seq<Event>, patience: Patience): State
    requires Runs(s, events, patience)
    decreases |events|, 1
  {
    if events == [] then s
    else Step(After(s, events[..|events| - 1], patience), events[|events| - 1], patience)
  }

  lemma OneMore(s: State, events: seq<Event>, e: Event, patience: Patience)
    requires Runs(s, events, patience) && Enabled(After(s, events, patience), e, patience)
    ensures Runs(s, events + [e], patience)
    ensures After(s, events + [e], patience) == Step(After(s, events, patience), e, patience)
  {
  }
}
