/** Replays of a self-service rotation: the same request is told the same token for as long
    as its receipt lives, and a superseded token is never handed out again. */
module CredentialReplay {
  import opened StateStore
  import opened RevocationQueue
  import opened RotationRecovery
  import opened CredentialProtocol

  /* ---- One answer per live receipt. ---- */

  /** Every recoverable receipt store files this token and expiry under `id`. */
  ghost predicate Filed(receipts: Disk<Receipts>, id: TaskId, token: nat, until: int) {
    forall r: Receipts | r in receipts.Versions() :: id in r && r[id].newToken == token && r[id].expiresAt == until
  }

  predicate HoldsReceipt(c: Section) { c.ArmingRotation? || c.Installing? }

  ghost predicate AnswersFiled(s: State) {
    && (forall id | id in s.answers && s.now < s.answers[id].until ::
          Filed(s.receipts, id, s.answers[id].token, s.answers[id].until))
    && (HoldsReceipt(s.section) ==>
          var id, r := s.section.id, s.section.receipt;
          && s.section.checkedAt <= s.now
          && (s.now < r.expiresAt ==> Filed(s.receipts, id, r.newToken, r.expiresAt))
          && (id in s.answers && s.section.checkedAt < s.answers[id].until ==>
                Answer(r.newToken, r.expiresAt) == s.answers[id]))
  }

  /** Pruning, binding and replacing keep every live receipt's token and expiry. */
  ghost predicate KeepsLive(r: Receipts, next: Receipts, now: int) {
    forall id | id in r && now < r[id].expiresAt ::
      id in next && next[id].newToken == r[id].newToken && next[id].expiresAt == r[id].expiresAt
  }

  lemma ReceiptsRewritten(s: State, n: State, next: Receipts, o: Outcome)
    requires AnswersFiled(s) && KeepsLive(s.receipts.visible, next, s.now)
    requires n.receipts == s.receipts.Write(next, o) && n.answers == s.answers && n.now == s.now
    requires n.section == s.section || !HoldsReceipt(n.section)
    ensures AnswersFiled(n)
  {
  }

  lemma WriteReceiptFiles(s: State, o: Outcome)
    requires AnswersFiled(s) && s.section.WritingReceipt?
    ensures AnswersFiled(DoWriteReceipt(s, o))
  {
    var c, n := s.section, DoWriteReceipt(s, o);
    var p := Offered(s.receipts.visible, c.id, c.session, c.oldToken, c.newToken, s.now);
    hide Offered, KeepsLive;
    if p.Done? {
      ReceiptsRewritten(s, n.(section := Free), p.value, o);
      if o.Durable? {
        NowHolding(n, p.value, c.id, c.posted);
      }
    }
  }

  /** A durable receipt store answers for the receipt just taken from it. */
  lemma NowHolding(n: State, r: Receipts, id: TaskId, posted: nat)
    requires AnswersFiled(n.(section := Free)) && n.receipts == Disk(r, {}) && id in r
    requires n.section == ArmingRotation(id, posted, r[id], n.now)
    ensures AnswersFiled(n)
  {
  }

  lemma InstallFiles(s: State, o: Outcome)
    requires AnswersFiled(s) && s.section.Installing?
    ensures AnswersFiled(DoInstall(s, o))
  {
  }

  predicate TouchesReceipts(s: State, e: Event) {
    e.WriteReceipt? || (e.Commit? && s.section.Installing?) || e.BindSession? || e.PruneReceipts? || e.PowerLoss?
  }

  predicate QueueOnly(e: Event) {
    || e.Tick? || e.Abort? || e.ArmTask? || e.DropTask? || e.Purge? || e.AddServices?
    || e.RequestSettles? || e.WorkerClaims? || e.WorkerSettles? || e.WorkerAborts?
  }

  /** Accounts, receipts and answers as before, and the section as it was or left. */
  predicate Leaves(s: State, n: State) {
    && n.users == s.users && n.receipts == s.receipts && n.issued == s.issued && n.intents == s.intents
    && n.answers == s.answers && s.now <= n.now
    && (n.section == s.section || n.section.Free?)
  }

  lemma RecordLeaves(s: State, id: TaskId, target: Generation, kickOk: bool, stopped: set<Service>, o: Outcome)
    ensures Leaves(s, Record(s, id, target, kickOk, stopped, o))
  {
  }

  lemma SettleLeaves(s: State, kickOk: bool, stopped: set<Service>, o: Outcome)
    requires s.worker.Decided? || s.worker.BackingOff?
    ensures Leaves(s, DoWorkerSettles(s, kickOk, stopped, o))
  {
    if s.worker.Decided? {
      RecordLeaves(s.(worker := Resting), s.worker.id, s.worker.task.target, kickOk, stopped, o);
    }
    hide Record, Released, Discarded, VerdictOn;
  }

  lemma ClaimLeaves(s: State, id: TaskId, o: Outcome)
    requires id in s.queue.visible
    ensures Leaves(s, DoWorkerClaims(s, id, o))
  {
  }

  lemma DropLeaves(s: State, o: Outcome)
    requires s.section.DroppingTask?
    ensures Leaves(s, DoDropTask(s, o))
  {
  }

  lemma ArmLeaves(s: State, services: set<Service>, o: Outcome)
    requires s.section.ArmingRotation? || s.section.ArmingAdmin? || s.section.ArmingDelete?
    ensures var n := DoArmTask(s, services, o);
            Leaves(s, n.(section := s.section)) && (n.section.Free? || n.section == AfterArming(s.section))
  {
  }

  /** Most steps leave accounts, receipts and answers alone. */
  lemma QueueStepLeaves(s: State, e: Event, patience: Patience)
    requires Enabled(s, e, patience) && QueueOnly(e)
    ensures var n := Step(s, e, patience);
            && n.users == s.users && n.receipts == s.receipts && n.issued == s.issued && n.intents == s.intents
            && n.answers == s.answers && s.now <= n.now
            && (n.section == s.section || n.section.Free? || (e.ArmTask? && n.section == AfterArming(s.section)))
  {
    hide DoArmTask, DoDropTask, Record, DoWorkerSettles, DoWorkerClaims, WithServices, AfterArming;
    match e
    case ArmTask(services, o) => ArmLeaves(s, services, o);
    case DropTask(o) => DropLeaves(s, o);
    case RequestSettles(id, target, kickOk, stopped, o) =>
      RecordLeaves(s.(handoffs := s.handoffs - multiset{(id, target)}), id, target, kickOk, stopped, o);
    case WorkerClaims(id, o) => ClaimLeaves(s, id, o);
    case WorkerSettles(kickOk, stopped, o) => SettleLeaves(s, kickOk, stopped, o);
    case _ =>
  }

  lemma CommitLeaves(s: State, o: Outcome)
    requires s.section.InstallingAdmin? || s.section.Removing?
    ensures var n := DoCommit(s, o);
            n.receipts == s.receipts && n.answers == s.answers && n.now == s.now && !HoldsReceipt(n.section)
  {
  }

  lemma DecidesLeaves(s: State, o: Outcome, purged: bool)
    requires s.worker.Claimed? && s.section.Free?
    ensures var n := DoWorkerDecides(s, o, purged);
            n.receipts == s.receipts && n.answers == s.answers && n.now == s.now && !HoldsReceipt(n.section)
  {
  }

  lemma OtherStepLeaves(s: State, e: Event, patience: Patience)
    requires Enabled(s, e, patience) && !TouchesReceipts(s, e) && !QueueOnly(e)
    ensures var n := Step(s, e, patience);
            n.receipts == s.receipts && n.answers == s.answers && s.now <= n.now && !HoldsReceipt(n.section)
  {
    hide DoCommit, DoWorkerDecides;
    if e.Commit? {
      CommitLeaves(s, e.o);
    } else if e.WorkerDecides? {
      DecidesLeaves(s, e.o, e.purged);
    }
  }

  lemma StepFiles(s: State, e: Event, patience: Patience)
    requires AnswersFiled(s) && Enabled(s, e, patience)
    ensures AnswersFiled(Step(s, e, patience))
  {
    if QueueOnly(e) {
      hide Step;
      QueueStepLeaves(s, e, patience);
    } else if !TouchesReceipts(s, e) {
      hide Step;
      OtherStepLeaves(s, e, patience);
    } else {
      ReceiptStepFiles(s, e, patience);
    }
  }

  lemma ReceiptStepFiles(s: State, e: Event, patience: Patience)
    requires AnswersFiled(s) && Enabled(s, e, patience) && TouchesReceipts(s, e)
    ensures AnswersFiled(Step(s, e, patience))
  {
    var n := Step(s, e, patience);
    match e
    case WriteReceipt(o) => WriteReceiptFiles(s, o);
    case Commit(o) => InstallFiles(s, o);
    case BindSession(id, original, replacement, o) =>
      var w := Bound(s.receipts.visible, id, original, replacement, s.now);
      if w.Some? {
        ReceiptsRewritten(s, n, w.value, o);
      }
    case PruneReceipts(o) =>
      if Pruned(s.receipts.visible, s.now) != s.receipts.visible {
        ReceiptsRewritten(s, n, Pruned(s.receipts.visible, s.now), o);
      }
    case PowerLoss(_, _, _) =>
      forall id | id in n.answers && n.now < n.answers[id].until
        ensures Filed(n.receipts, id, n.answers[id].token, n.answers[id].until)
      {
        assert Filed(s.receipts, id, n.answers[id].token, n.answers[id].until);
      }
  }

  /** The request `id` ends in a conflict at this step, and its receipt is dropped. */
  predicate ConflictAt(s: State, e: Event, id: TaskId) {
    e.Commit? && !e.o.NotReplaced? && s.section.Installing? && s.section.id == id && !MayInstall(s)
  }

  /** A later `ok` for the same request repeats the token it was told. */
  lemma StepRepeats(s: State, e: Event, id: TaskId, patience: Patience)
    requires AnswersFiled(s) && Enabled(s, e, patience) && id in s.answers && !ConflictAt(s, e, id)
    requires s.now < s.answers[id].until
    ensures var n := Step(s, e, patience); id in n.answers && n.answers[id] == s.answers[id]
  {
    if QueueOnly(e) {
      QueueStepLeaves(s, e, patience);
      hide Step, AnswersFiled;
    } else if !TouchesReceipts(s, e) {
      OtherStepLeaves(s, e, patience);
      hide Step, AnswersFiled;
    } else if e.Commit? {
      hide DoInstall, AnswersFiled;
    } else {
      hide Step, AnswersFiled;
    }
  }

  lemma {:induction false} EveryRunFiles(events: seq<Event>, patience: Patience)
    requires Runs(Start, events, patience)
    ensures AnswersFiled(After(Start, events, patience))
  {
    if events == [] {
    } else {
      EveryRunFiles(events[..|events| - 1], patience);
      StepFiles(After(Start, events[..|events| - 1], patience), events[|events| - 1], patience);
    }
  }

  lemma {:induction false} PrefixRuns(s: State, events: seq<Event>, k: nat, patience: Patience)
    requires k <= |events| && Runs(s, events, patience)
    ensures Runs(s, events[..k], patience)
  {
    if k == |events| {
      assert events[..k] == events;
    } else {
      PrefixRuns(s, events[..|events| - 1], k, patience);
      assert events[..|events| - 1][..k] == events[..k];
    }
  }

  lemma ClockForward(s: State, e: Event, patience: Patience)
    requires Enabled(s, e, patience)
    ensures s.now <= Step(s, e, patience).now
  {
    if QueueOnly(e) {
      QueueStepLeaves(s, e, patience);
      hide Step;
    } else if !TouchesReceipts(s, e) {
      OtherStepLeaves(s, e, patience);
      hide Step;
    } else if e.Commit? {
      hide DoInstall;
    } else {
      hide Step;
    }
  }

  /** Replay idempotence: once a request was answered, then through any writes, failures
      and power losses, until its receipt expires or a conflict ends it, every answer to
      it is the same token. */
  lemma {:induction false} ReplaysAgree(events: seq<Event>, k: nat, id: TaskId, patience: Patience)
    requires k <= |events| && Runs(Start, events, patience) && Runs(Start, events[..k], patience)
    requires forall j | k <= j < |events| && Runs(Start, events[..j], patience) ::
               !ConflictAt(After(Start, events[..j], patience), events[j], id)
    requires id in After(Start, events[..k], patience).answers
    requires After(Start, events, patience).now < After(Start, events[..k], patience).answers[id].until
    ensures id in After(Start, events, patience).answers
    ensures After(Start, events, patience).answers[id] == After(Start, events[..k], patience).answers[id]
  {
    if k == |events| {
      assert events[..k] == events;
    } else {
      var before := events[..|events| - 1];
      assert before[..k] == events[..k];
      forall j | k <= j < |before| && Runs(Start, before[..j], patience)
        ensures !ConflictAt(After(Start, before[..j], patience), before[j], id)
      {
        assert before[..j] == events[..j];
      }
      ClockForward(After(Start, before, patience), events[|events| - 1], patience);
      ReplaysAgree(before, k, id, patience);
      EveryRunFiles(before, patience);
      StepRepeats(After(Start, before, patience), events[|events| - 1], id, patience);
    }
  }

  /* ---- Superseded tokens stay superseded. ---- */

  /** The rotation that draws `newToken` replaces `oldToken`. */
  predicate Replaces(s: State, oldToken: nat, newToken: nat) {
    1 <= oldToken < newToken <= s.issued && newToken in s.intents && s.intents[newToken].older == oldToken
  }

  ghost predicate AccountsDrawn(s: State) {
    && (forall v: Accounts, u | v in s.users.Versions() && u in v :: 1 <= v[u].token <= s.issued)
    && (forall g | g in s.intents :: g <= s.issued)
  }

  ghost predicate ReceiptsReplace(s: State) {
    forall r: Receipts, id | r in s.receipts.Versions() && id in r :: Replaces(s, r[id].oldToken, r[id].newToken)
  }

  ghost predicate SectionReplaces(s: State) {
    match s.section
    case WritingReceipt(_, _, _, oldToken, newToken, _) => Replaces(s, oldToken, newToken)
    case ArmingRotation(_, _, r, _) => Replaces(s, r.oldToken, r.newToken)
    case Installing(_, _, r, _) => Replaces(s, r.oldToken, r.newToken)
    case ArmingAdmin(id, oldToken, newToken) =>
      Replaces(s, oldToken, newToken) && CurrentOf(s.users.visible, id.user) == Token(oldToken)
    case InstallingAdmin(id, oldToken, newToken) =>
      Replaces(s, oldToken, newToken) && CurrentOf(s.users.visible, id.user) == Token(oldToken)
    case _ => true
  }

  ghost predicate Chained(s: State) {
    AccountsDrawn(s) && ReceiptsReplace(s) && SectionReplaces(s)
  }

  /** Drawn tokens are never forgotten, and new ones are newer. */
  ghost predicate Draws(s: State, n: State) {
    && s.issued <= n.issued
    && (forall g | g in s.intents :: g in n.intents && n.intents[g] == s.intents[g])
    && (forall g | g in n.intents && g !in s.intents :: s.issued < g <= n.issued)
  }

  lemma ReceiptsStill(s: State, n: State, next: Receipts, o: Outcome)
    requires ReceiptsReplace(s) && n.receipts == s.receipts.Write(next, o) && Draws(s, n)
    requires forall x | x in next ::
               || (x in s.receipts.visible && next[x].oldToken == s.receipts.visible[x].oldToken
                   && next[x].newToken == s.receipts.visible[x].newToken)
               || Replaces(s, next[x].oldToken, next[x].newToken)
    ensures ReceiptsReplace(n)
  {
  }

  lemma WriteReceiptChained(s: State, o: Outcome)
    requires Chained(s) && s.section.WritingReceipt?
    ensures Chained(DoWriteReceipt(s, o))
  {
    var c, n := s.section, DoWriteReceipt(s, o);
    var p := Offered(s.receipts.visible, c.id, c.session, c.oldToken, c.newToken, s.now);
    hide Offered, ReceiptsReplace, AccountsDrawn;
    if p.Done? {
      ReceiptsStill(s, n, p.value, o);
      SameAccounts(s, n);
      assert c.id in p.value && s.receipts.visible in s.receipts.Versions() by { OfferedHas(s); }
    } else {
      SameAccounts(s, n);
      SameReceipts(s, n);
    }
  }

  lemma OfferedHas(s: State)
    requires s.section.WritingReceipt?
    ensures var c := s.section;
            var p := Offered(s.receipts.visible, c.id, c.session, c.oldToken, c.newToken, s.now);
            p.Done? ==> c.id in p.value
  {
  }

  lemma SameAccounts(s: State, n: State)
    requires AccountsDrawn(s) && n.users == s.users && Draws(s, n)
    ensures AccountsDrawn(n)
  {
  }

  lemma SameReceipts(s: State, n: State)
    requires ReceiptsReplace(s) && n.receipts == s.receipts && Draws(s, n)
    ensures ReceiptsReplace(n)
  {
  }

  lemma InstallChained(s: State, o: Outcome)
    requires Chained(s) && s.section.Installing?
    ensures Chained(DoInstall(s, o))
  {
    if MayInstall(s) {
    } else {
      assert s.receipts.visible in s.receipts.Versions();
    }
  }

  lemma CommitChained(s: State, o: Outcome)
    requires Chained(s) && (s.section.Installing? || s.section.InstallingAdmin? || s.section.Removing?)
    ensures Chained(DoCommit(s, o))
  {
    if s.section.Installing? {
      InstallChained(s, o);
    }
  }

  predicate WritesUsers(e: Event) { e.Touch? || e.Create? || e.PowerLoss? }

  lemma UserStepChained(s: State, e: Event, patience: Patience)
    requires Chained(s) && Enabled(s, e, patience) && WritesUsers(e)
    ensures Chained(Step(s, e, patience))
  {
    assert s.users.visible in s.users.Versions();
  }

  lemma DecidesChained(s: State, o: Outcome, purged: bool)
    requires Chained(s) && s.worker.Claimed? && s.section.Free?
    ensures Chained(DoWorkerDecides(s, o, purged))
  {
  }

  lemma BeginChained(s: State, e: Event, patience: Patience)
    requires Chained(s) && Enabled(s, e, patience) && (e.Rotate? || e.AdminRotate? || e.Delete?)
    ensures Chained(Step(s, e, patience))
  {
    var n := Step(s, e, patience);
    hide ReceiptsReplace, SectionReplaces, LookedUp;
    assert Draws(s, n);
    hide AccountsDrawn;
    SameAccounts(s, n);
    SameReceipts(s, n);
  }

  lemma QuietChained(s: State, n: State)
    requires Chained(s) && n.users == s.users && n.receipts == s.receipts && n.issued == s.issued
             && n.intents == s.intents
    requires n.section == s.section || n.section.Free?
             || ((s.section.ArmingRotation? || s.section.ArmingAdmin? || s.section.ArmingDelete?)
                 && n.section == AfterArming(s.section))
    ensures Chained(n)
  {
  }

  /** Every step keeps receipts and requests tied to the one token each drawn token replaces. */
  lemma StepChained(s: State, e: Event, patience: Patience)
    requires Chained(s) && Enabled(s, e, patience)
    ensures Chained(Step(s, e, patience))
  {
    var n := Step(s, e, patience);
    hide Chained;
    if QueueOnly(e) {
      hide Step;
      QueueStepLeaves(s, e, patience);
      QuietChained(s, n);
    } else if WritesUsers(e) {
      UserStepChained(s, e, patience);
    } else if e.WorkerDecides? {
      DecidesChained(s, e.o, e.purged);
    } else if e.WriteReceipt? {
      WriteReceiptChained(s, e.o);
    } else if e.Commit? {
      CommitChained(s, e.o);
    } else if !e.PruneReceipts? && !e.BindSession? {
      BeginChained(s, e, patience);
    }
  }

  lemma {:induction false} EveryRunChained(s: State, events: seq<Event>, patience: Patience)
    requires Chained(s) && Runs(s, events, patience)
    ensures Chained(After(s, events, patience))
  {
    if events == [] {
    } else {
      EveryRunChained(s, events[..|events| - 1], patience);
      StepChained(After(s, events[..|events| - 1], patience), events[|events| - 1], patience);
    }
  }

  /** No recoverable users.json shows `token` or any token that replacing tokens leads on
      from to it. */
  ghost predicate Superseded(s: State, user: User, token: nat) {
    && token <= s.issued
    && forall v: Accounts | v in s.users.Versions() && user in v :: !Leads(s.intents, v[user].token, token)
  }

  lemma {:induction false} LeadsBelow(intents: map<nat, Intent>, a: nat, g: nat)
    requires Leads(intents, a, g)
    ensures a <= g
    decreases g
  {
    if a != g {
      LeadsBelow(intents, a, intents[g].older);
    }
  }

  /** A token drawn later leads to nothing drawn before, and changes no way between those. */
  lemma {:induction false} LeadsStays(s: State, n: State, a: nat, g: nat)
    requires Draws(s, n) && g <= s.issued && Leads(n.intents, a, g)
    ensures Leads(s.intents, a, g)
    decreases g
  {
    if a != g {
      LeadsStays(s, n, a, n.intents[g].older);
    }
  }

  lemma {:induction false} LeadsFurther(intents: map<nat, Intent>, oldToken: nat, newToken: nat, g: nat)
    requires newToken in intents && intents[newToken].older == oldToken < newToken && Leads(intents, newToken, g)
    ensures Leads(intents, oldToken, g)
    decreases g
  {
    if newToken != g {
      LeadsFurther(intents, oldToken, newToken, intents[g].older);
    } else {
      assert Leads(intents, oldToken, intents[g].older);
    }
  }

  /** A user's versions after the step: those before, and one with a token that replaces
      the visible one, is the visible one, or was just drawn. */
  ghost predicate Replaced(s: State, n: State, user: User) {
    && Draws(s, n)
    && forall v: Accounts | v in n.users.Versions() && user in v ::
         || v[user].token > s.issued
         || exists w: Accounts :: w in s.users.Versions() && user in w
              && (w[user].token == v[user].token || Replaces(s, w[user].token, v[user].token))
  }

  lemma ReplacedStaysSuperseded(s: State, n: State, user: User, token: nat)
    requires Superseded(s, user, token) && Replaced(s, n, user)
    ensures Superseded(n, user, token)
  {
    forall v: Accounts | v in n.users.Versions() && user in v
      ensures !Leads(n.intents, v[user].token, token)
    {
      if Leads(n.intents, v[user].token, token) {
        LeadsBelow(n.intents, v[user].token, token);
        LeadsStays(s, n, v[user].token, token);
        var w: Accounts :| w in s.users.Versions() && user in w
          && (w[user].token == v[user].token || Replaces(s, w[user].token, v[user].token));
        if w[user].token != v[user].token {
          LeadsFurther(s.intents, w[user].token, v[user].token, token);
        }
      }
    }
  }

  lemma SameUsersReplaced(s: State, n: State, user: User)
    requires Draws(s, n) && n.users.Versions() <= s.users.Versions()
    ensures Replaced(s, n, user)
  {
  }

  lemma WrittenReplaced(s: State, n: State, user: User, writer: User, a: Account, o: Outcome)
    requires Draws(s, n) && n.users == s.users.Write(s.users.visible[writer := a], o)
    requires || a.token > s.issued
             || HasToken(s.users.visible, writer, a.token)
             || (writer in s.users.visible && Replaces(s, s.users.visible[writer].token, a.token))
    ensures Replaced(s, n, user)
  {
    assert s.users.visible in s.users.Versions();
  }

  lemma RemovedReplaced(s: State, n: State, user: User, writer: User, o: Outcome)
    requires Draws(s, n) && n.users == s.users.Write(s.users.visible - {writer}, o)
    ensures Replaced(s, n, user)
  {
    assert s.users.visible in s.users.Versions();
  }

  lemma InstalledReplaced(s: State, n: State, user: User, id: TaskId, token: nat, o: Outcome)
    requires Draws(s, n) && n.users == s.users.Write(WithToken(s, id.user, token), o) && id.user in s.users.visible
    requires HasToken(s.users.visible, id.user, token) || Replaces(s, s.users.visible[id.user].token, token)
    ensures Replaced(s, n, user)
  {
    hide Replaced, Draws;
    var a := if HasToken(s.users.visible, id.user, token) then s.users.visible[id.user]
             else Account(token, s.issued + 1);
    assert WithToken(s, id.user, token) == s.users.visible[id.user := a];
    WrittenReplaced(s, n, user, id.user, a, o);
  }

  lemma CommitReplaced(s: State, o: Outcome, user: User)
    requires Chained(s) && (s.section.Installing? || s.section.InstallingAdmin? || s.section.Removing?)
    ensures Replaced(s, DoCommit(s, o), user)
  {
    hide Replaced, AccountsDrawn, ReceiptsReplace, WithToken;
    var n, id := DoCommit(s, o), s.section.id;
    if s.section.Removing? {
      RemovedReplaced(s, n, user, id.user, o);
    } else if n.users == s.users {
      SameUsersReplaced(s, n, user);
    } else {
      var token := if s.section.Installing? then s.section.receipt.newToken else s.section.newToken;
      InstalledReplaced(s, n, user, id, token, o);
    }
  }

  lemma OtherReplaced(s: State, e: Event, user: User, patience: Patience)
    requires Enabled(s, e, patience) && AccountsDrawn(s) && !QueueOnly(e) && !e.Commit? && !e.WorkerDecides?
    ensures Replaced(s, Step(s, e, patience), user)
  {
    hide Replaced;
    var n := Step(s, e, patience);
    if e.Touch? || e.Create? {
      var a := Account(if e.Touch? then s.users.visible[e.user].token else s.issued + 1, s.issued + 1);
      WrittenReplaced(s, n, user, e.user, a, e.o);
    } else {
      OtherDraws(s, e, patience);
      hide Step, Draws;
      SameUsersReplaced(s, n, user);
    }
  }

  lemma OtherDraws(s: State, e: Event, patience: Patience)
    requires Enabled(s, e, patience) && AccountsDrawn(s)
    requires !QueueOnly(e) && !e.Commit? && !e.WorkerDecides? && !e.Touch? && !e.Create?
    ensures Draws(s, Step(s, e, patience)) && Step(s, e, patience).users.Versions() <= s.users.Versions()
  {
    hide LookedUp, Offered, Bound, Pruned;
  }

  /** An account only ever moves from a token to one that replaces it, and power losses
      only bring earlier versions back. */
  lemma StepReplaces(s: State, e: Event, user: User, patience: Patience)
    requires Chained(s) && Enabled(s, e, patience)
    ensures Replaced(s, Step(s, e, patience), user)
  {
    if QueueOnly(e) {
      QueueStepLeaves(s, e, patience);
      hide Step, Replaced, Chained;
      SameUsersReplaced(s, Step(s, e, patience), user);
    } else if e.Commit? {
      CommitReplaced(s, e.o, user);
    } else if e.WorkerDecides? {
    } else {
      OtherReplaced(s, e, user, patience);
    }
  }

  /** A superseded token stays superseded through every write, failure and power loss, and
      no request for it may install it: each ends in a conflict. */
  lemma {:induction false} SupersededConflicts(s: State, events: seq<Event>, user: User, token: nat, patience: Patience)
    requires Chained(s) && Runs(s, events, patience) && Superseded(s, user, token)
    ensures var n := After(s, events, patience);
            && Superseded(n, user, token)
            && (n.section.Installing? && n.section.id.user == user && n.section.receipt.newToken == token ==>
                  !MayInstall(n))
  {
    if events == [] {
    } else {
      var before := events[..|events| - 1];
      SupersededConflicts(s, before, user, token, patience);
      EveryRunChained(s, before, patience);
      StepReplaces(After(s, before, patience), events[|events| - 1], user, patience);
      ReplacedStaysSuperseded(After(s, before, patience), After(s, events, patience), user, token);
    }
    EveryRunChained(s, events, patience);
    SupersededNotInstalled(After(s, events, patience), user, token);
  }

  lemma SupersededNotInstalled(n: State, user: User, token: nat)
    requires Chained(n) && Superseded(n, user, token)
    ensures n.section.Installing? && n.section.id.user == user && n.section.receipt.newToken == token ==> !MayInstall(n)
  {
    assert n.users.visible in n.users.Versions();
    assert Leads(n.intents, token, token);
    if n.section.Installing? && n.section.receipt.newToken == token {
      assert Leads(n.intents, n.section.receipt.oldToken, n.section.receipt.oldToken);
      LeadsFurther(n.intents, n.section.receipt.oldToken, token, token);
    }
  }

  /** Of the tokens that replace one and the same token, only the first to be installed
      durably is ever in force. */
  lemma SiblingsSuperseded(s: State, user: User, token: nat)
    requires AccountsDrawn(s) && s.users.stale == {} && user in s.users.visible
    requires var shown := s.users.visible[user].token;
             && shown in s.intents && token in s.intents && token != shown
             && s.intents[token].older == s.intents[shown].older < shown
    ensures Superseded(s, user, token)
  {
    var shown := s.users.visible[user].token;
    if Leads(s.intents, shown, token) {
      LeadsBelow(s.intents, shown, s.intents[token].older);
    }
  }
}
