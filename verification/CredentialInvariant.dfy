/** What every reachable state of the credential protocol keeps, and the theorem that no
    committed rotation loses its revocation. */
module CredentialInvariant {
  import opened StateStore
  import opened RevocationQueue
  import opened RotationRecovery
  import opened CredentialProtocol

  /* ---- Vocabulary. ---- */

  /** No version of users.json, present or recoverable, gives `user` this token. */
  ghost predicate Unshown(users: Disk<Accounts>, user: User, token: nat) {
    forall v: Accounts | v in users.Versions() && user in v :: v[user].token != token
  }

  /** The visible account is gone or has moved to `token` or beyond. */
  predicate Reached(users: Accounts, user: User, token: nat) {
    user in users ==> token <= users[user].token
  }

  /** Dropping the task that revokes this token loses nothing at present. */
  ghost predicate Harmless(s: State, user: User, token: nat) {
    Unshown(s.users, user, token) || token in s.retired
  }

  ghost predicate Armed(queue: Disk<Queue>, id: TaskId, token: nat) {
    forall q: Queue | q in queue.Versions() :: id in q && q[id].target == Token(token)
  }

  /** The revocation of a rotation is queued in every recoverable version, or was completed. */
  ghost predicate Tracked(s: State, token: nat) {
    token in s.intents ==> token in s.retired || Armed(s.queue, s.intents[token].id, token)
  }

  /** If any recoverable users.json holds a rotation's new token, its revocation is tracked. */
  ghost predicate NoLostRevocation(s: State) {
    forall v: Accounts, u | v in s.users.Versions() && u in v :: Tracked(s, v[u].token)
  }

  /* ---- The parts of the invariant. ---- */

  ghost predicate OfIntent(s: State, id: TaskId, oldToken: nat, newToken: nat) {
    1 <= oldToken < newToken <= s.issued && newToken in s.intents && s.intents[newToken] == Intent(id, oldToken)
  }

  ghost predicate AccountsGood(s: State) {
    && (forall v: Accounts, u | v in s.users.Versions() && u in v ::
          && 1 <= v[u].token <= s.issued && v[u].revision <= s.issued
          && (v[u].token in s.intents ==> s.intents[v[u].token].id.user == u))
    // An older version never shows a newer token.
    && (forall v: Accounts, u | v in s.users.Versions() && u in v && u in s.users.visible ::
          v[u].token <= s.users.visible[u].token)
  }

  /** A drawn token replaces one fixed older token of the same user. */
  ghost predicate IntentsGood(s: State) {
    && s.stray == {}
    && forall g | g in s.intents ::
         && 1 <= s.intents[g].older < g <= s.issued
         && (s.intents[g].older in s.intents ==> s.intents[s.intents[g].older].id.user == s.intents[g].id.user)
  }

  ghost predicate ReceiptGood(s: State, id: TaskId, r: Receipt) {
    && id.ForRequest? && OfIntent(s, id, r.oldToken, r.newToken)
    && r.createdAt <= s.now && r.expiresAt == r.createdAt + RECEIPT_TTL_SECONDS
  }

  ghost predicate ReceiptsGood(s: State) {
    forall r: Receipts, id | r in s.receipts.Versions() && id in r :: ReceiptGood(s, id, r[id])
  }

  ghost predicate TaskGood(s: State, id: TaskId, t: Task) {
    && t.user == id.user
    && t.createdAt <= s.now && t.expiresAt == t.createdAt + TASK_TTL_SECONDS
    && (id.ForNonce? ==> id.nonce <= s.issued)
    && match t.target
       case Token(g) => t.previous.Token? && OfIntent(s, id, t.previous.id, g)
       case Deleted => t.previous.Revision? && t.previous.number <= s.issued && id.ForNonce?
       case Revision(_) => false
  }

  ghost predicate TasksGood(s: State) {
    && (forall q: Queue, id | q in s.queue.Versions() && id in q :: TaskGood(s, id, q[id]))
    && ((s.worker.Claimed? || s.worker.Decided?) ==> TaskGood(s, s.worker.id, s.worker.task))
  }

  /** A task is never older than the receipt whose token it targets, so it outlives the
      receipt by at least 300 seconds. */
  ghost predicate TaskNotOlder(s: State, id: TaskId, t: Task) {
    forall r: Receipts | r in s.receipts.Versions() && id in r && t.target == Token(r[id].newToken) ::
      r[id].createdAt <= t.createdAt
  }

  ghost predicate WindowsNested(s: State) {
    && (forall q: Queue, id | q in s.queue.Versions() && id in q :: TaskNotOlder(s, id, q[id]))
    && ((s.worker.Claimed? || s.worker.Decided?) ==> TaskNotOlder(s, s.worker.id, s.worker.task))
  }

  /** No queue version, thread or hand-off knows this id. */
  ghost predicate Unused(s: State, id: TaskId) {
    && (forall q: Queue | q in s.queue.Versions() :: id !in q)
    && ((s.worker.Claimed? || s.worker.Decided?) ==> s.worker.id != id)
    && (forall t :: (id, t) !in s.handoffs)
  }

  /** A token that was drawn but is written nowhere yet. */
  ghost predicate Undisclosed(s: State, id: TaskId, token: nat) {
    && (forall r: Receipts | r in s.receipts.Versions() && id in r :: r[id].newToken != token)
    && (forall q: Queue | q in s.queue.Versions() && id in q :: q[id].target != Token(token))
    && ((s.worker.Claimed? || s.worker.Decided?) && s.worker.id == id ==> s.worker.task.target != Token(token))
  }

  /** The rotation the section is about to commit. */
  datatype Pending = NoPending | Pending(id: TaskId, oldToken: nat, newToken: nat)

  function PendingOf(s: State): Pending {
    match s.section
    case Installing(id, _, r, _) =>
      if CurrentOf(s.users.visible, id.user) != Token(r.oldToken) then NoPending
      else Pending(id, r.oldToken, r.newToken)
    case InstallingAdmin(id, oldToken, newToken) => Pending(id, oldToken, newToken)
    case _ => NoPending
  }

  ghost predicate SectionFine(s: State) {
    match s.section
    case Free => true
    case WritingReceipt(id, _, _, oldToken, newToken, replay) =>
      && id.ForRequest? && OfIntent(s, id, oldToken, newToken)
      && (!replay ==> Undisclosed(s, id, newToken))
    case ArmingRotation(id, _, r, checkedAt) =>
      ReceiptGood(s, id, r) && checkedAt <= s.now && checkedAt < r.expiresAt
    case Installing(id, _, r, checkedAt) =>
      && ReceiptGood(s, id, r) && checkedAt <= s.now && checkedAt < r.expiresAt
      && (id in s.queue.visible ==> Armed(s.queue, id, r.newToken))
    case DroppingTask(id, token) =>
      && Harmless(s, id.user, token)
      && (id in s.queue.visible ==> s.queue.visible[id].target == Token(token))
    case ArmingAdmin(id, oldToken, newToken) =>
      && OfIntent(s, id, oldToken, newToken) && id.ForNonce? && id.nonce <= s.issued && Unused(s, id)
      && Undisclosed(s, id, newToken)
      && CurrentOf(s.users.visible, id.user) == Token(oldToken)
    case InstallingAdmin(id, oldToken, newToken) =>
      && OfIntent(s, id, oldToken, newToken) && id.ForNonce? && id.nonce <= s.issued
         && CurrentOf(s.users.visible, id.user) == Token(oldToken)
    case ArmingDelete(id, revision) =>
      && id.ForNonce? && id.nonce <= s.issued && Unused(s, id) && revision <= s.issued
    case Removing(id) =>
      && id.ForNonce? && id.nonce <= s.issued
      && (id in s.queue.visible ==> s.queue.visible[id].target == Deleted)
    case Purging(user) => forall v: Accounts | v in s.users.Versions() :: user !in v
  }

  ghost predicate PendingArmed(s: State) {
    PendingOf(s).Pending? ==> Armed(s.queue, PendingOf(s).id, PendingOf(s).newToken)
  }

  ghost predicate SectionGood(s: State) {
    SectionFine(s) && PendingArmed(s)
  }

  /** The section can no longer, or does not, put `token` into users.json. */
  predicate SectionWithout(c: Section, token: nat) {
    match c
    case WritingReceipt(_, _, _, _, newToken, replay) => replay || newToken != token
    case ArmingRotation(_, _, r, _) => r.newToken != token
    case Installing(_, _, r, _) => r.newToken != token
    case ArmingAdmin(_, _, newToken) => newToken != token
    case InstallingAdmin(_, _, newToken) => newToken != token
    case _ => true
  }

  /** A request can still put `token` into users.json without a power loss: a live receipt
      carries it, or the section does. */
  ghost predicate Obtainable(s: State, token: nat) {
    || (exists id :: id in s.receipts.visible && LinkedBy(s.receipts.visible, id, s.now, token))
    || !SectionWithout(s.section, token)
  }

  /** Obtainable tokens lead from the one the account shows to `token`. */
  ghost predicate Reach(s: State, user: User, token: nat)
    decreases token
  {
    || HasToken(s.users.visible, user, token)
    || (token in s.intents && s.intents[token].older < token
        && Obtainable(s, token) && Reach(s, user, s.intents[token].older))
  }

  predicate HoldsTask(w: Worker) { w.Claimed? || w.Decided? }

  /** The retry thread will at most release its task: it found the old token in force
      and the task outlives its patience, or it has lost its patience already. */
  predicate Waits(s: State, patience: Patience) {
    s.worker.Decided? &&
      (s.worker.at + patience < s.now
       || (s.worker.seen == s.worker.task.previous && s.worker.seen != s.worker.task.target
           && s.worker.at + patience < s.worker.task.expiresAt))
  }

  /** The retry thread may drop its task without a kick. */
  predicate MayDrop(w: Worker, patience: Patience) {
    && w.Decided? && w.task.target.Token? && w.seen != w.task.target
    && (w.seen == w.task.previous ==> w.task.expiresAt <= w.at + patience)
  }

  ghost predicate HeldShown(s: State, patience: Patience) {
    HoldsTask(s.worker) && !Waits(s, patience) && s.worker.id in s.queue.visible ==>
      s.queue.visible[s.worker.id].target == s.worker.task.target
  }

  /** What the retry thread's last reading of the account still implies. */
  ghost predicate ReadingGood(s: State, patience: Patience) {
    s.worker.Decided? ==>
      var t := s.worker.task;
      && s.worker.at <= s.now
      && (t.target.Deleted? ==> s.worker.seen == Deleted)
      && (t.target.Token? && s.worker.seen == t.target ==> Reached(s.users.visible, t.user, t.target.id))
      && (MayDrop(s.worker, patience) ==>
            && t.target.id <= s.issued
            && Harmless(s, t.user, t.target.id) && !Reach(s, t.user, t.target.id))
  }

  ghost predicate WorkerGood(s: State, patience: Patience) {
    HeldShown(s, patience) && ReadingGood(s, patience)
  }

  ghost predicate HandoffsGood(s: State) {
    forall id, t | (id, t) in s.handoffs ::
      && (id in s.queue.visible ==> s.queue.visible[id].target == t)
      && (t.Token? ==> t.id <= s.issued && Reached(s.users.visible, id.user, t.id))
      && (id.ForNonce? ==> id.nonce <= s.issued)
  }

  ghost predicate Inv(s: State, patience: Patience) {
    && AccountsGood(s) && IntentsGood(s) && ReceiptsGood(s) && TasksGood(s) && WindowsNested(s)
    && SectionGood(s) && WorkerGood(s, patience) && HandoffsGood(s) && NoLostRevocation(s)
  }

  /* ---- The guards under which the theorem holds. ---- */

  /** No thread, except one that will only release it, and no request works on task `id`
      for another token. */
  ghost predicate NoStranger(s: State, id: TaskId, target: Generation, patience: Patience) {
    && (HoldsTask(s.worker) && !Waits(s, patience) && s.worker.id == id ==> s.worker.task.target == target)
    && forall t | (id, t) in s.handoffs :: t == target
  }

  /** Three decisions of the code are safe only in these circumstances. The retry thread
      may take a rotation for superseded only if its token was revoked or no recoverable
      users.json shows it, and if live receipts do not lead from the token in force to it.
      A request may drop its task after a conflict only under the first of the two. A task
      may be armed for a request id only if nobody still works on an earlier one. */
  ghost predicate Calm(s: State, e: Event, patience: Patience) {
    match e
    case WorkerDecides(_, _) =>
      s.worker.Claimed? && s.worker.task.target.Token? ==>
        var t := s.worker.task;
        var seen := CurrentOf(s.users.visible, t.user);
        seen != t.target && seen != t.previous ==>
          && Harmless(s, t.user, t.target.id)
          && !Replayable(s.users.visible, s.receipts.visible, s.now, t.user, t.target.id)
    case Commit(o) =>
      s.section.Installing? && !MayInstall(s) && DoInstall(s, o).section.DroppingTask? ==>
        Harmless(s, s.section.id.user, s.section.receipt.newToken)
    case ArmTask(_, o) =>
      s.section.ArmingRotation? && s.section.id !in s.queue.visible && |s.queue.visible| < TASK_MAX_ENTRIES
      && !o.NotReplaced? ==>
        NoStranger(s, s.section.id, Token(s.section.receipt.newToken), patience)
    case _ => true
  }

  /* ---- Preservation. ---- */

  /** The same tasks with the same bindings and dates; counters may differ. */
  ghost predicate SameTasks(q: Queue, next: Queue) {
    && next.Keys == q.Keys
    && forall id | id in q ::
         && next[id].user == q[id].user && next[id].previous == q[id].previous
         && next[id].target == q[id].target && next[id].createdAt == q[id].createdAt
         && next[id].expiresAt == q[id].expiresAt
  }

  /** Later states know more tokens, all of them newer. */
  ghost predicate Extends(s: State, n: State) {
    && s.now <= n.now && s.issued <= n.issued && n.stray == s.stray
    && (forall g | g in s.intents :: g in n.intents && n.intents[g] == s.intents[g])
    && (forall g | g in n.intents && g !in s.intents :: s.issued < g <= n.issued)
    && (forall g | g in n.intents && g !in s.intents ::
          && 1 <= n.intents[g].older <= s.issued
          && (n.intents[g].older in s.intents ==> s.intents[n.intents[g].older].id.user == n.intents[g].id.user))
  }

  /* ---- The retry thread. ---- */

  /** Without a power loss an account only moves from a token to one obtained for it. */
  ghost predicate MovesTo(s: State, user: User, token: nat) {
    && user in s.users.visible
    && (s.users.visible[user].token == token
        || (!SectionWithout(s.section, token) && token in s.intents
            && s.intents[token].older == s.users.visible[user].token))
  }

  ghost predicate Follows(s: State, n: State) {
    && (forall g: nat | g <= s.issued && Obtainable(n, g) :: Obtainable(s, g))
    && (forall u | u in n.users.visible && n.users.visible[u].token <= s.issued ::
          MovesTo(s, u, n.users.visible[u].token))
  }

  /** Nothing becomes reachable but tokens drawn later. */
  lemma {:induction false} ReachBack(s: State, n: State, user: User, token: nat)
    requires IntentsGood(s) && Extends(s, n) && Follows(s, n) && token <= s.issued
    ensures Reach(n, user, token) ==> Reach(s, user, token)
    decreases token
  {
    if Reach(n, user, token) && !HasToken(n.users.visible, user, token) {
      ReachBack(s, n, user, n.intents[token].older);
    }
  }

  /** What shields a token from being lost survives every step that is no power loss. */
  lemma HarmlessKept(s: State, n: State, user: User, token: nat)
    requires Harmless(s, user, token) && !Reach(s, user, token) && token <= s.issued
    requires IntentsGood(s) && Extends(s, n) && Follows(s, n)
    requires n.users.Versions() <= s.users.Versions() + {n.users.visible}
    requires token in s.retired && token !in n.retired ==> HasToken(n.users.visible, user, token)
    ensures Harmless(n, user, token) && !Reach(n, user, token)
  {
    ReachBack(s, n, user, token);
  }

  /** Accounts move forward, and only a commit starts a retirement afresh. */
  ghost predicate Forward(s: State, n: State) {
    && n.users.Versions() <= s.users.Versions() + {n.users.visible}
    && (forall u | u in n.users.visible && u in s.users.visible ::
          s.users.visible[u].token <= n.users.visible[u].token)
    && (forall u | u in n.users.visible && u !in s.users.visible :: s.issued < n.users.visible[u].token)
    && (forall g | g in s.retired && g !in n.retired ::
          g in s.intents && HasToken(n.users.visible, s.intents[g].id.user, g))
  }

  /** The reading of an account survives every step that is no power loss. */
  lemma ReadingKept(s: State, n: State, patience: Patience)
    requires ReadingGood(s, patience) && TasksGood(s) && n.worker == s.worker && IntentsGood(s)
    requires Extends(s, n) && Follows(s, n) && Forward(s, n)
    ensures ReadingGood(n, patience)
  {
    if s.worker.Decided? && s.worker.task.target.Token? {
      var user, g := s.worker.task.user, s.worker.task.target.id;
      assert OfIntent(s, s.worker.id, s.worker.task.previous.id, g);
      if MayDrop(s.worker, patience) {
        HarmlessKept(s, n, user, g);
      }
      hide Harmless, Reach, Follows, TasksGood, IntentsGood;
    }
  }

  /** The same receipts, perhaps fewer and perhaps bound to other sessions. */
  ghost predicate FromReceipts(r: Receipts, next: Receipts) {
    forall id | id in next ::
      && id in r
      && next[id].oldToken == r[id].oldToken && next[id].newToken == r[id].newToken
      && next[id].createdAt == r[id].createdAt && next[id].expiresAt == r[id].expiresAt
  }

  /** Steps that leave users.json alone and bring no receipt. */
  lemma QuietFollows(s: State, n: State)
    requires Extends(s, n) && n.users == s.users && s.retired <= n.retired
    requires FromReceipts(s.receipts.visible, n.receipts.visible)
    requires forall g :: SectionWithout(s.section, g) ==> SectionWithout(n.section, g)
    ensures Follows(s, n) && Forward(s, n)
  {
    forall g: nat | Obtainable(n, g)
      ensures Obtainable(s, g)
    {
      if id :| id in n.receipts.visible && LinkedBy(n.receipts.visible, id, n.now, g) {
        assert LinkedBy(s.receipts.visible, id, s.now, g);
      }
    }
  }

  lemma AccountsKept(s: State, n: State)
    requires AccountsGood(s) && IntentsGood(s) && Extends(s, n) && n.users == s.users
    ensures AccountsGood(n) && IntentsGood(n)
  {
  }

  lemma ReceiptsKept(s: State, n: State, next: Receipts)
    requires ReceiptsGood(s) && Extends(s, n)
    requires n.receipts.Versions() <= s.receipts.Versions() + {next}
    requires forall id | id in next :: ReceiptGood(n, id, next[id])
    ensures ReceiptsGood(n)
  {
  }

  lemma TasksKept(s: State, n: State, next: Queue)
    requires TasksGood(s) && Extends(s, n)
    requires n.queue.Versions() <= s.queue.Versions() + {next}
    requires forall id | id in next :: TaskGood(n, id, next[id])
    requires HoldsTask(n.worker) ==> HoldsTask(s.worker) && n.worker.id == s.worker.id && n.worker.task == s.worker.task
    ensures TasksGood(n)
  {
  }

  /** Every task of `n` has the target and creation time of one that `s` had, and every
      receipt the token and creation time. */
  lemma WindowsKept(s: State, n: State, nextQueue: Queue, nextReceipts: Receipts)
    requires WindowsNested(s)
    requires n.queue.Versions() <= s.queue.Versions() + {nextQueue}
    requires n.receipts.Versions() <= s.receipts.Versions() + {nextReceipts}
    requires forall id | id in nextQueue ::
               exists q: Queue :: q in s.queue.Versions() && id in q
                 && nextQueue[id].target == q[id].target && nextQueue[id].createdAt == q[id].createdAt
    requires forall id | id in nextReceipts ::
               exists r: Receipts :: r in s.receipts.Versions() && id in r
                 && nextReceipts[id].newToken == r[id].newToken && nextReceipts[id].createdAt == r[id].createdAt
    requires HoldsTask(n.worker) ==> HoldsTask(s.worker) && n.worker.id == s.worker.id && n.worker.task == s.worker.task
    ensures WindowsNested(n)
  {
  }

  /* ---- Queue rewrites that keep every task. ---- */

  lemma RewriteSection(s: State, n: State, next: Queue, o: Outcome)
    requires SectionGood(s) && SameTasks(s.queue.visible, next)
    requires n == s.(queue := s.queue.Write(next, o))
    ensures SectionGood(n)
  {
    RewriteFine(s, n, next, o);
    hide SectionFine, Armed, SameTasks;
  }

  lemma RewriteFine(s: State, n: State, next: Queue, o: Outcome)
    requires SectionFine(s) && SameTasks(s.queue.visible, next)
    requires n == s.(queue := s.queue.Write(next, o))
    ensures SectionFine(n)
  {
  }

  lemma RewriteNoLost(s: State, n: State, next: Queue, o: Outcome)
    requires NoLostRevocation(s) && SameTasks(s.queue.visible, next)
    requires n == s.(queue := s.queue.Write(next, o))
    ensures NoLostRevocation(n)
  {
  }

  lemma RewriteTasks(s: State, n: State, next: Queue, o: Outcome)
    requires TasksGood(s) && WindowsNested(s) && SameTasks(s.queue.visible, next)
    requires n == s.(queue := s.queue.Write(next, o))
    ensures TasksGood(n) && WindowsNested(n)
  {
  }

  lemma RewriteThreads(s: State, n: State, next: Queue, o: Outcome, patience: Patience)
    requires WorkerGood(s, patience) && HandoffsGood(s) && TasksGood(s) && IntentsGood(s)
    requires SameTasks(s.queue.visible, next) && n == s.(queue := s.queue.Write(next, o))
    ensures WorkerGood(n, patience) && HandoffsGood(n)
  {
    QuietFollows(s, n);
    ReadingKept(s, n, patience);
    hide ReadingGood, TasksGood, IntentsGood;
  }

  lemma QueueRewriteKeeps(s: State, next: Queue, o: Outcome, patience: Patience)
    requires Inv(s, patience) && SameTasks(s.queue.visible, next)
    ensures Inv(s.(queue := s.queue.Write(next, o)), patience)
  {
    hide AccountsGood, IntentsGood, ReceiptsGood, TasksGood, WindowsNested, SectionGood, WorkerGood, HandoffsGood,
         NoLostRevocation;
    var n := s.(queue := s.queue.Write(next, o));
    AccountsKept(s, n);
    ReceiptsKept(s, n, map[]);
    RewriteTasks(s, n, next, o);
    RewriteSection(s, n, next, o);
    RewriteThreads(s, n, next, o, patience);
    RewriteNoLost(s, n, next, o);
  }

  /* ---- Removing a task. ---- */

  lemma RemovalTasks(s: State, n: State, id: TaskId, o: Outcome)
    requires TasksGood(s) && WindowsNested(s)
    requires n.queue == s.queue.Write(s.queue.visible - {id}, o) && n == s.(queue := n.queue, retired := n.retired)
    ensures TasksGood(n) && WindowsNested(n)
  {
  }

  lemma RemovalSection(s: State, n: State, id: TaskId, o: Outcome)
    requires SectionGood(s) && (PendingOf(s).Pending? ==> PendingOf(s).id != id)
    requires n.queue == s.queue.Write(s.queue.visible - {id}, o) && n == s.(queue := n.queue, retired := n.retired)
    requires !o.NotReplaced? && s.retired <= n.retired
    ensures SectionGood(n)
  {
    RemovalFine(s, n, id, o);
    hide SectionFine, Armed;
  }

  lemma RemovalFine(s: State, n: State, id: TaskId, o: Outcome)
    requires SectionFine(s) && !o.NotReplaced? && s.retired <= n.retired
    requires n.queue == s.queue.Write(s.queue.visible - {id}, o) && n == s.(queue := n.queue, retired := n.retired)
    ensures SectionFine(n)
  {
  }

  lemma RemovalThreads(s: State, n: State, id: TaskId, o: Outcome, patience: Patience)
    requires WorkerGood(s, patience) && HandoffsGood(s) && TasksGood(s) && IntentsGood(s) && s.retired <= n.retired
    requires n.queue == s.queue.Write(s.queue.visible - {id}, o) && n == s.(queue := n.queue, retired := n.retired)
    ensures WorkerGood(n, patience) && HandoffsGood(n)
  {
    QuietFollows(s, n);
    ReadingKept(s, n, patience);
    hide ReadingGood, TasksGood, IntentsGood;
  }

  /** Only the task's own target depends on the task. */
  lemma RemovalNoLost(s: State, n: State, id: TaskId, o: Outcome)
    requires NoLostRevocation(s) && AccountsGood(s) && id in s.queue.visible && s.retired <= n.retired
    requires n.queue == s.queue.Write(s.queue.visible - {id}, o) && n == s.(queue := n.queue, retired := n.retired)
    requires s.queue.visible[id].target.Token? ==> Harmless(n, id.user, s.queue.visible[id].target.id)
    ensures NoLostRevocation(n)
  {
  }

  lemma QueueRemovalKeeps(s: State, n: State, id: TaskId, o: Outcome, patience: Patience)
    requires Inv(s, patience) && id in s.queue.visible && !o.NotReplaced? && s.retired <= n.retired
    requires n.queue == s.queue.Write(s.queue.visible - {id}, o) && n == s.(queue := n.queue, retired := n.retired)
    requires PendingOf(s).Pending? ==> PendingOf(s).id != id
    requires s.queue.visible[id].target.Token? ==> Harmless(n, id.user, s.queue.visible[id].target.id)
    ensures Inv(n, patience)
  {
    hide AccountsGood, IntentsGood, ReceiptsGood, TasksGood, WindowsNested, SectionGood, WorkerGood, HandoffsGood,
         NoLostRevocation;
    AccountsKept(s, n);
    ReceiptsKept(s, n, map[]);
    RemovalTasks(s, n, id, o);
    RemovalSection(s, n, id, o);
    RemovalThreads(s, n, id, o, patience);
    RemovalNoLost(s, n, id, o);
  }

  /* ---- Receipts. ---- */

  lemma ReceiptWriteParts(s: State, n: State, next: Receipts, o: Outcome)
    requires ReceiptsGood(s) && WindowsNested(s) && FromReceipts(s.receipts.visible, next)
    requires n.receipts == s.receipts.Write(next, o) && n == s.(receipts := n.receipts, section := n.section)
    ensures ReceiptsGood(n) && WindowsNested(n)
  {
  }

  lemma ReceiptWriteSection(s: State, n: State, next: Receipts, o: Outcome)
    requires SectionGood(s) && FromReceipts(s.receipts.visible, next)
    requires n == s.(receipts := s.receipts.Write(next, o))
    ensures SectionGood(n)
  {
    hide Armed;
    match s.section
    case WritingReceipt(id, _, _, _, newToken, _) => UndisclosedKept(s, n, next, o, id, newToken);
    case ArmingAdmin(id, _, newToken) => UndisclosedKept(s, n, next, o, id, newToken);
    case _ =>
  }

  lemma UndisclosedKept(s: State, n: State, next: Receipts, o: Outcome, id: TaskId, token: nat)
    requires FromReceipts(s.receipts.visible, next) && n == s.(receipts := s.receipts.Write(next, o))
    ensures Undisclosed(s, id, token) ==> Undisclosed(n, id, token)
  {
  }

  lemma Unrelated(s: State, n: State, patience: Patience)
    requires TasksGood(s) && WorkerGood(s, patience) && HandoffsGood(s) && NoLostRevocation(s) && IntentsGood(s)
    requires n == s.(receipts := n.receipts) && FromReceipts(s.receipts.visible, n.receipts.visible)
    ensures TasksGood(n) && WorkerGood(n, patience) && HandoffsGood(n) && NoLostRevocation(n)
  {
    QuietFollows(s, n);
    ReadingKept(s, n, patience);
    hide ReadingGood, IntentsGood, FromReceipts;
  }

  lemma ReceiptWriteKeeps(s: State, next: Receipts, o: Outcome, patience: Patience)
    requires Inv(s, patience) && FromReceipts(s.receipts.visible, next)
    ensures Inv(s.(receipts := s.receipts.Write(next, o)), patience)
  {
    hide AccountsGood, IntentsGood, ReceiptsGood, TasksGood, WindowsNested, SectionGood, WorkerGood, HandoffsGood,
         NoLostRevocation;
    var n := s.(receipts := s.receipts.Write(next, o));
    AccountsKept(s, n);
    ReceiptWriteParts(s, n, next, o);
    ReceiptWriteSection(s, n, next, o);
    Unrelated(s, n, patience);
  }
}
