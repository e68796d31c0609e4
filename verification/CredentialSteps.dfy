/** Every step of the credential protocol keeps the invariant. */
module CredentialSteps {
  import opened StateStore
  import opened RevocationQueue
  import opened RotationRecovery
  import opened CredentialProtocol
  import opened CredentialInvariant

  /* ---- Leaving the lock. ---- */

  lemma FreeKeeps(s: State, patience: Patience)
    requires Inv(s, patience)
    ensures Inv(s.(section := Free), patience)
  {
    hide AccountsGood, IntentsGood, ReceiptsGood, TasksGood, WindowsNested, WorkerGood, HandoffsGood, NoLostRevocation;
    var n := s.(section := Free);
    AccountsKept(s, n);
    ReceiptsKept(s, n, map[]);
    OutsideLock(s, n, patience);
  }

  lemma OutsideLock(s: State, n: State, patience: Patience)
    requires TasksGood(s) && WindowsNested(s) && WorkerGood(s, patience) && HandoffsGood(s) && NoLostRevocation(s)
    requires IntentsGood(s) && n == s.(section := n.section)
    requires forall g :: SectionWithout(s.section, g) ==> SectionWithout(n.section, g)
    ensures TasksGood(n) && WindowsNested(n) && WorkerGood(n, patience) && HandoffsGood(n) && NoLostRevocation(n)
  {
    QuietFollows(s, n);
    ReadingKept(s, n, patience);
    hide ReadingGood, IntentsGood;
  }

  /* ---- Receipts. ---- */

  lemma PrunedFrom(r: Receipts, now: int)
    ensures FromReceipts(r, Pruned(r, now))
  {
  }

  lemma BoundFrom(r: Receipts, id: TaskId, original: Session, replacement: Session, now: int)
    ensures Bound(r, id, original, replacement, now).Some? ==>
              FromReceipts(r, Bound(r, id, original, replacement, now).value)
  {
  }

  lemma WriteReceiptGood(s: State, o: Outcome, patience: Patience)
    requires s.section.WritingReceipt? && Enabled(s, WriteReceipt(o), patience)
    requires ReceiptsGood(s) && SectionGood(s)
    ensures ReceiptsGood(DoWriteReceipt(s, o))
  {
  }

  lemma WriteReceiptWindows(s: State, o: Outcome, patience: Patience)
    requires s.section.WritingReceipt? && Enabled(s, WriteReceipt(o), patience)
    requires WindowsNested(s) && SectionGood(s)
    ensures WindowsNested(DoWriteReceipt(s, o))
  {
  }

  /** Writing the receipt makes nothing obtainable that was not so before. */
  lemma WriteReceiptFollows(s: State, o: Outcome, patience: Patience)
    requires s.section.WritingReceipt? && Enabled(s, WriteReceipt(o), patience)
    requires ReceiptsGood(s) && SectionGood(s)
    ensures Follows(s, DoWriteReceipt(s, o)) && Forward(s, DoWriteReceipt(s, o))
  {
    var c := s.section;
    var p := Offered(s.receipts.visible, c.id, c.session, c.oldToken, c.newToken, s.now);
    if p.Done? {
      forall id, g: nat | id in p.value && LinkedBy(p.value, id, s.now, g)
        ensures Obtainable(s, g)
      {
        assert id in s.receipts.visible && s.now < s.receipts.visible[id].expiresAt ==>
            LinkedBy(s.receipts.visible, id, s.now, g);
      }
      assert LinkedBy(p.value, c.id, s.now, p.value[c.id].newToken);
    }
  }

  lemma WriteReceiptThreads(s: State, o: Outcome, patience: Patience)
    requires s.section.WritingReceipt? && Enabled(s, WriteReceipt(o), patience)
    requires ReceiptsGood(s) && SectionGood(s) && TasksGood(s) && IntentsGood(s) && WorkerGood(s, patience)
    ensures WorkerGood(DoWriteReceipt(s, o), patience)
  {
    hide ReadingGood, Follows, Forward, ReceiptsGood, SectionGood, TasksGood, IntentsGood, Offered;
    WriteReceiptFollows(s, o, patience);
    ReadingKept(s, DoWriteReceipt(s, o), patience);
  }

  lemma WriteReceiptSection(s: State, o: Outcome, patience: Patience)
    requires s.section.WritingReceipt? && Enabled(s, WriteReceipt(o), patience)
    requires ReceiptsGood(s) && SectionGood(s)
    ensures SectionGood(DoWriteReceipt(s, o))
  {
  }

  lemma WriteReceiptKeeps(s: State, o: Outcome, patience: Patience)
    requires Inv(s, patience) && Enabled(s, WriteReceipt(o), patience)
    ensures Inv(DoWriteReceipt(s, o), patience)
  {
    hide AccountsGood, IntentsGood, ReceiptsGood, TasksGood, WindowsNested, SectionGood, WorkerGood, HandoffsGood,
         NoLostRevocation;
    var n := DoWriteReceipt(s, o);
    AccountsKept(s, n);
    WriteReceiptGood(s, o, patience);
    WriteReceiptWindows(s, o, patience);
    WriteReceiptThreads(s, o, patience);
    WriteReceiptSection(s, o, patience);
    SameElsewhere(s, n);
  }

  lemma SameElsewhere(s: State, n: State)
    requires TasksGood(s) && HandoffsGood(s) && NoLostRevocation(s)
    requires n == s.(receipts := n.receipts, section := n.section)
    ensures TasksGood(n) && HandoffsGood(n) && NoLostRevocation(n)
  {
  }

  /* ---- Drawing a token. ---- */

  lemma DrawKeeps(s: State, n: State, id: TaskId, older: nat, patience: Patience)
    requires Inv(s, patience) && s.section.Free?
    requires n == s.(issued := s.issued + 1, intents := n.intents, named := n.named, section := n.section)
    requires n.intents == s.intents || n.intents == s.intents[s.issued + 1 := Intent(id, older)]
    requires n.intents != s.intents ==> HasToken(s.users.visible, id.user, older)
    requires match n.section
             case WritingReceipt(i, _, _, oldToken, newToken, replay) =>
               && i == id && id.ForRequest? && !replay && newToken == s.issued + 1
                  && OfIntent(n, id, oldToken, newToken)
               && HasToken(s.users.visible, id.user, oldToken)
             case ArmingAdmin(i, oldToken, newToken) =>
               && i == id == ForNonce(id.user, s.issued + 1) && newToken == s.issued + 1
               && OfIntent(n, id, oldToken, newToken) && HasToken(s.users.visible, id.user, oldToken)
             case ArmingDelete(i, revision) =>
               i == id == ForNonce(id.user, s.issued + 1) && revision <= s.issued
             case _ => false
    ensures Inv(n, patience)
  {
    hide AccountsGood, IntentsGood, ReceiptsGood, TasksGood, WindowsNested, SectionGood, WorkerGood, HandoffsGood,
         NoLostRevocation;
    DrawExtends(s, n, id, older);
    AccountsKept(s, n);
    ReceiptsKept(s, n, map[]);
    DrawTasks(s, n);
    DrawThreads(s, n, id, patience);
    DrawSection(s, n, id);
    DrawNoLost(s, n, id);
  }

  lemma DrawExtends(s: State, n: State, id: TaskId, older: nat)
    requires IntentsGood(s) && AccountsGood(s)
    requires n.intents != s.intents ==> HasToken(s.users.visible, id.user, older)
    requires n == s.(issued := s.issued + 1, intents := n.intents, named := n.named, section := n.section)
    requires n.intents == s.intents || n.intents == s.intents[s.issued + 1 := Intent(id, older)]
    ensures Extends(s, n)
  {
  }

  lemma DrawTasks(s: State, n: State)
    requires TasksGood(s) && WindowsNested(s) && Extends(s, n)
    requires n == s.(issued := s.issued + 1, intents := n.intents, named := n.named, section := n.section)
    ensures TasksGood(n) && WindowsNested(n)
  {
  }

  lemma DrawThreads(s: State, n: State, id: TaskId, patience: Patience)
    requires WorkerGood(s, patience) && HandoffsGood(s) && TasksGood(s) && IntentsGood(s) && Extends(s, n)
    requires n == s.(issued := s.issued + 1, intents := n.intents, named := n.named, section := n.section)
    requires n.section.WritingReceipt? ==> n.section.newToken == s.issued + 1
    requires n.section.ArmingAdmin? ==> n.section.newToken == s.issued + 1
    requires n.section.WritingReceipt? || n.section.ArmingAdmin? || n.section.ArmingDelete?
    ensures WorkerGood(n, patience) && HandoffsGood(n)
  {
    assert Follows(s, n);
    ReadingKept(s, n, patience);
    hide ReadingGood, Follows;
  }

  /** Nothing written so far mentions a number that has just been drawn. */
  lemma DrawSection(s: State, n: State, id: TaskId)
    requires ReceiptsGood(s) && TasksGood(s) && HandoffsGood(s)
    requires n == s.(issued := s.issued + 1, intents := n.intents, named := n.named, section := n.section)
    requires match n.section
             case WritingReceipt(i, _, _, oldToken, newToken, replay) =>
               i == id && id.ForRequest? && !replay && newToken == s.issued + 1 && OfIntent(n, id, oldToken, newToken)
             case ArmingAdmin(i, oldToken, newToken) =>
               && i == id == ForNonce(id.user, s.issued + 1) && newToken == s.issued + 1
               && OfIntent(n, id, oldToken, newToken) && CurrentOf(s.users.visible, id.user) == Token(oldToken)
             case ArmingDelete(i, revision) =>
               i == id == ForNonce(id.user, s.issued + 1) && revision <= s.issued
             case _ => false
    ensures SectionGood(n)
  {
  }

  lemma DrawNoLost(s: State, n: State, id: TaskId)
    requires NoLostRevocation(s) && AccountsGood(s) && Extends(s, n)
    requires n == s.(issued := s.issued + 1, intents := n.intents, named := n.named, section := n.section)
    ensures NoLostRevocation(n)
  {
  }

  /* ---- Arming a task. ---- */

  lemma AddedTaskGood(s: State, n: State, id: TaskId, t: Task, o: Outcome)
    requires TasksGood(s) && TaskGood(s, id, t)
    requires n == s.(queue := s.queue.Write(s.queue.visible[id := t], o), section := n.section)
    ensures TasksGood(n)
  {
  }

  lemma AddedTaskNested(s: State, n: State, id: TaskId, t: Task, o: Outcome)
    requires WindowsNested(s) && TaskNotOlder(s, id, t)
    requires n == s.(queue := s.queue.Write(s.queue.visible[id := t], o), section := n.section)
    ensures WindowsNested(n)
  {
  }

  lemma NothingStray(s: State, services: set<Service>, o: Outcome)
    requires s.section.ArmingRotation? || s.section.ArmingAdmin? || s.section.ArmingDelete?
    requires IntentsGood(s)
    ensures var n := DoArmTask(s, services, o); n == s.(queue := n.queue, section := n.section)
  {
  }

  lemma ArmTasks(s: State, services: set<Service>, o: Outcome)
    requires s.section.ArmingRotation? || s.section.ArmingAdmin? || s.section.ArmingDelete?
    requires TasksGood(s) && WindowsNested(s) && SectionGood(s) && ReceiptsGood(s) && IntentsGood(s)
    ensures TasksGood(DoArmTask(s, services, o)) && WindowsNested(DoArmTask(s, services, o))
  {
    var c, n := s.section, DoArmTask(s, services, o);
    var p := Prepared(s.queue.visible, c.id, c.id.user, Binding(c).0, Binding(c).1, services, s.now);
    ArmedTask(s, services);
    NothingStray(s, services, o);
    if p.Done? {
      var t := p.value[c.id];
      hide Prepared, TasksGood, WindowsNested, SectionGood, ReceiptsGood, IntentsGood, TaskGood, TaskNotOlder, Binds;
      AddedTaskGood(s, n, c.id, t, o);
      AddedTaskNested(s, n, c.id, t, o);
    } else {
      TasksAside(s, n);
    }
  }

  lemma TasksAside(s: State, n: State)
    requires TasksGood(s) && WindowsNested(s) && n == s.(section := n.section)
    ensures TasksGood(n) && WindowsNested(n)
  {
  }

  lemma ArmSection(s: State, services: set<Service>, o: Outcome)
    requires s.section.ArmingRotation? || s.section.ArmingAdmin? || s.section.ArmingDelete?
    requires SectionGood(s)
    ensures SectionGood(DoArmTask(s, services, o))
  {
  }

  lemma ArmThreads(s: State, services: set<Service>, o: Outcome, patience: Patience)
    requires s.section.ArmingRotation? || s.section.ArmingAdmin? || s.section.ArmingDelete?
    requires SectionGood(s) && WorkerGood(s, patience) && HandoffsGood(s) && TasksGood(s) && IntentsGood(s)
    requires Calm(s, ArmTask(services, o), patience)
    ensures WorkerGood(DoArmTask(s, services, o), patience) && HandoffsGood(DoArmTask(s, services, o))
  {
    var n := DoArmTask(s, services, o);
    hide DoArmTask, Prepared, SectionGood, Armed, Unshown, Calm, ReadingGood, IntentsGood, TasksGood, HeldShown,
         HandoffsGood;
    NothingStray(s, services, o);
    ArmedVisible(s, services, o, patience);
    hide NoStranger, Extends, FromReceipts;
    ArmFollows(s, n);
    ReadingKept(s, n, patience);
    ArmedShown(s, n, patience);
  }

  lemma ArmFollows(s: State, n: State)
    requires s.section.ArmingRotation? || s.section.ArmingAdmin? || s.section.ArmingDelete?
    requires n == s.(queue := n.queue, section := n.section) && (n.section.Free? || n.section == AfterArming(s.section))
    ensures Extends(s, n) && Follows(s, n) && Forward(s, n)
  {
    QuietFollows(s, n);
  }

  /** The visible queue gains at most the section's task, and then no stranger holds its id. */
  lemma ArmedVisible(s: State, services: set<Service>, o: Outcome, patience: Patience)
    requires s.section.ArmingRotation? || s.section.ArmingAdmin? || s.section.ArmingDelete?
    requires SectionGood(s) && Calm(s, ArmTask(services, o), patience)
    ensures var n, id := DoArmTask(s, services, o), s.section.id;
            && (n.section.Free? || n.section == AfterArming(s.section))
            && (forall x | x in n.queue.visible && (x != id || x in s.queue.visible) ::
                  x in s.queue.visible && n.queue.visible[x].target == s.queue.visible[x].target)
            && (id in n.queue.visible && id !in s.queue.visible ==>
                  && n.queue.visible[id].target == Binding(s.section).1
                  && NoStranger(s, id, Binding(s.section).1, patience))
  {
  }

  lemma ArmedShown(s: State, n: State, patience: Patience)
    requires s.section.ArmingRotation? || s.section.ArmingAdmin? || s.section.ArmingDelete?
    requires HeldShown(s, patience) && HandoffsGood(s) && n == s.(queue := n.queue, section := n.section)
    requires forall x | x in n.queue.visible && (x != s.section.id || x in s.queue.visible) ::
               x in s.queue.visible && n.queue.visible[x].target == s.queue.visible[x].target
    requires s.section.id in n.queue.visible && s.section.id !in s.queue.visible ==>
               && n.queue.visible[s.section.id].target == Binding(s.section).1
               && NoStranger(s, s.section.id, Binding(s.section).1, patience)
    ensures HeldShown(n, patience) && HandoffsGood(n)
  {
  }

  lemma ArmNoLost(s: State, services: set<Service>, o: Outcome)
    requires s.section.ArmingRotation? || s.section.ArmingAdmin? || s.section.ArmingDelete?
    requires NoLostRevocation(s)
    ensures NoLostRevocation(DoArmTask(s, services, o))
  {
  }

  lemma ArmTaskKeeps(s: State, services: set<Service>, o: Outcome, patience: Patience)
    requires s.section.ArmingRotation? || s.section.ArmingAdmin? || s.section.ArmingDelete?
    requires Inv(s, patience) && Calm(s, ArmTask(services, o), patience)
    ensures Inv(DoArmTask(s, services, o), patience)
  {
    hide AccountsGood, IntentsGood, ReceiptsGood, TasksGood, WindowsNested, SectionGood, WorkerGood, HandoffsGood,
         NoLostRevocation;
    var n := DoArmTask(s, services, o);
    NothingStray(s, services, o);
    AccountsKept(s, n);
    ReceiptsKept(s, n, map[]);
    ArmTasks(s, services, o);
    ArmSection(s, services, o);
    ArmThreads(s, services, o, patience);
    ArmNoLost(s, services, o);
  }

  /* ---- Writing users.json. ---- */

  /** `user` gets a record whose token is the one shown now or a newer one. */
  ghost predicate Advances(s: State, user: User, a: Account) {
    && 1 <= a.token
    && (user in s.users.visible ==> s.users.visible[user].token <= a.token)
    && (user !in s.users.visible ==> s.issued < a.token)
    && (a.token in s.intents ==> s.intents[a.token].id.user == user && Tracked(s, a.token))
    // The token is the one shown, one never drawn before, or the section's own.
    && (MovesTo(s, user, a.token) || s.issued < a.token)
  }

  predicate WroteUser(s: State, n: State, user: User, a: Account, o: Outcome) {
    && n == s.(users := s.users.Write(s.users.visible[user := a], o), issued := n.issued, section := Free)
    && s.issued <= n.issued && a.token <= n.issued && a.revision <= n.issued && !o.NotReplaced?
  }

  lemma WroteUserAccounts(s: State, n: State, user: User, a: Account, o: Outcome)
    requires AccountsGood(s) && IntentsGood(s) && Advances(s, user, a) && WroteUser(s, n, user, a, o)
    ensures AccountsGood(n) && IntentsGood(n)
  {
  }

  lemma WroteUserNoLost(s: State, n: State, user: User, a: Account, o: Outcome)
    requires NoLostRevocation(s) && Advances(s, user, a) && WroteUser(s, n, user, a, o)
    ensures NoLostRevocation(n)
  {
  }

  lemma WroteUserThreads(s: State, n: State, user: User, a: Account, o: Outcome, patience: Patience)
    requires WorkerGood(s, patience) && HandoffsGood(s) && TasksGood(s) && IntentsGood(s)
    requires Advances(s, user, a) && WroteUser(s, n, user, a, o)
    ensures WorkerGood(n, patience) && HandoffsGood(n)
  {
    ReadingKept(s, n, patience);
    hide ReadingGood, IntentsGood, TasksGood, Follows, Forward;
  }

  lemma WroteUserTasks(s: State, n: State, user: User, a: Account, o: Outcome)
    requires TasksGood(s) && WindowsNested(s) && WroteUser(s, n, user, a, o) && Extends(s, n)
    ensures TasksGood(n) && WindowsNested(n)
  {
  }

  lemma WroteUserKeeps(s: State, n: State, user: User, a: Account, o: Outcome, patience: Patience)
    requires Inv(s, patience) && Advances(s, user, a) && WroteUser(s, n, user, a, o)
    ensures Inv(n, patience)
  {
    hide AccountsGood, IntentsGood, ReceiptsGood, TasksGood, WindowsNested, WorkerGood, HandoffsGood,
         NoLostRevocation, Advances;
    WroteUserAccounts(s, n, user, a, o);
    ReceiptsKept(s, n, map[]);
    WroteUserTasks(s, n, user, a, o);
    WroteUserThreads(s, n, user, a, o, patience);
    WroteUserNoLost(s, n, user, a, o);
  }

  lemma TouchKeeps(s: State, user: User, o: Outcome, patience: Patience)
    requires Inv(s, patience) && Enabled(s, Touch(user, o), patience)
    ensures Inv(Step(s, Touch(user, o), patience), patience)
  {
    hide ReceiptsGood, TasksGood, WindowsNested, SectionGood, WorkerGood, HandoffsGood;
    var a := Account(s.users.visible[user].token, s.issued + 1);
    var n := Step(s, Touch(user, o), patience);
    assert s.users.visible in s.users.Versions();
    if o.NotReplaced? {
      CountKeeps(s, patience);
    } else {
      assert Tracked(s, a.token);
      WroteUserKeeps(s, n, user, a, o, patience);
    }
  }

  lemma CountKeeps(s: State, patience: Patience)
    requires Inv(s, patience) && s.section.Free?
    ensures Inv(s.(issued := s.issued + 1), patience)
  {
    hide AccountsGood, IntentsGood, ReceiptsGood, TasksGood, WindowsNested, WorkerGood, HandoffsGood, NoLostRevocation;
    var n := s.(issued := s.issued + 1);
    AccountsKept(s, n);
    ReceiptsKept(s, n, map[]);
    CountThreads(s, n, patience);
  }

  lemma CountThreads(s: State, n: State, patience: Patience)
    requires TasksGood(s) && WindowsNested(s) && WorkerGood(s, patience) && HandoffsGood(s)
             && NoLostRevocation(s) && IntentsGood(s)
    requires n == s.(issued := s.issued + 1)
    ensures TasksGood(n) && WindowsNested(n) && WorkerGood(n, patience) && HandoffsGood(n) && NoLostRevocation(n)
  {
    QuietFollows(s, n);
    ReadingKept(s, n, patience);
    hide ReadingGood, IntentsGood;
  }

  lemma CreateKeeps(s: State, user: User, o: Outcome, patience: Patience)
    requires Inv(s, patience) && Enabled(s, Create(user, o), patience)
    ensures Inv(Step(s, Create(user, o), patience), patience)
  {
    hide ReceiptsGood, TasksGood, WindowsNested, SectionGood, WorkerGood, HandoffsGood;
    var a := Account(s.issued + 1, s.issued + 1);
    if o.NotReplaced? {
      CountKeeps(s, patience);
    } else {
      WroteUserKeeps(s, Step(s, Create(user, o), patience), user, a, o, patience);
    }
  }

  /* ---- Committing a rotation. ---- */

  /** After the write: hand the kick over and start the retirement afresh. */
  lemma HandOverKeeps(s: State, n: State, id: TaskId, token: nat, patience: Patience)
    requires Inv(s, patience) && s.section.Free? && id.user in s.users.visible
    requires s.users.visible[id.user].token == token && token in s.intents && s.intents[token].id == id
    requires id in s.queue.visible ==> Armed(s.queue, id, token)
    requires n.retired == s.retired || (n.retired == s.retired - {token} && Armed(s.queue, id, token))
    requires (id.ForNonce? ==> id.nonce <= s.issued) && token <= s.issued
    requires n == s.(handoffs := s.handoffs + multiset{(id, Token(token))}, retired := n.retired)
    ensures Inv(n, patience)
  {
    hide IntentsGood, ReceiptsGood, TasksGood, WindowsNested, SectionGood, WorkerGood, NoLostRevocation;
    AccountsKept(s, n);
    ReceiptsKept(s, n, map[]);
    HandOverThreads(s, n, token, patience);
    HandOverNoLost(s, n, id, token);
    assert s.queue.visible in s.queue.Versions();
  }

  lemma HandOverThreads(s: State, n: State, token: nat, patience: Patience)
    requires TasksGood(s) && WindowsNested(s) && WorkerGood(s, patience) && SectionGood(s) && s.section.Free?
             && IntentsGood(s)
    requires token in s.intents && HasToken(s.users.visible, s.intents[token].id.user, token)
    requires n == s.(handoffs := n.handoffs, retired := n.retired) && s.retired - {token} <= n.retired
    ensures TasksGood(n) && WindowsNested(n) && WorkerGood(n, patience) && SectionGood(n)
  {
    ReadingKept(s, n, patience);
    hide ReadingGood, IntentsGood, Follows, Forward;
  }

  lemma HandOverNoLost(s: State, n: State, id: TaskId, token: nat)
    requires NoLostRevocation(s) && token in s.intents && s.intents[token].id == id
    requires n.retired == s.retired || (n.retired == s.retired - {token} && Armed(s.queue, id, token))
    requires n == s.(handoffs := n.handoffs, retired := n.retired)
    ensures NoLostRevocation(n)
  {
  }

  /** What a section that is about to commit `token` for `id` knows. */
  ghost predicate Committing(s: State, id: TaskId, token: nat) {
    && token in s.intents && s.intents[token].id == id && token <= s.issued
    && id.user in s.users.visible
    && 1 <= s.users.visible[id.user].token <= token
    && (id in s.queue.visible || !HasToken(s.users.visible, id.user, token) ==> Armed(s.queue, id, token))
    && Tracked(s, token)
    && MovesTo(s, id.user, token)
    && (id.ForNonce? ==> id.nonce <= s.issued)
  }

  lemma SectionCommits(s: State)
    requires SectionGood(s) && NoLostRevocation(s) && AccountsGood(s)
    requires s.section.InstallingAdmin? || (s.section.Installing? && MayInstall(s))
    ensures var token := if s.section.Installing? then s.section.receipt.newToken else s.section.newToken;
            Committing(s, s.section.id, token)
  {
  }

  function Installed(s: State, user: User, token: nat): Account
    requires user in s.users.visible
  {
    if s.users.visible[user].token == token then s.users.visible[user] else Account(token, s.issued + 1)
  }

  lemma CommitAdvances(s: State, m: State, id: TaskId, token: nat, o: Outcome)
    requires Committing(s, id, token) && AccountsGood(s) && !o.NotReplaced?
    requires m == s.(users := s.users.Write(WithToken(s, id.user, token), o), issued := s.issued + 1, section := Free)
    ensures Advances(s, id.user, Installed(s, id.user, token))
    ensures WroteUser(s, m, id.user, Installed(s, id.user, token), o)
    ensures m.users.visible[id.user].token == token
  {
    hide Tracked;
    var a := Installed(s, id.user, token);
    assert WithToken(s, id.user, token) == s.users.visible[id.user := a];
  }

  lemma CommittedKeeps(s: State, id: TaskId, token: nat, o: Outcome, patience: Patience)
    requires Inv(s, patience) && Committing(s, id, token)
    ensures Inv(Committed(s, id, token, o), patience)
  {
    hide AccountsGood, IntentsGood, ReceiptsGood, TasksGood, WindowsNested, WorkerGood, HandoffsGood,
         NoLostRevocation, Advances, WroteUser;
    if o.NotReplaced? {
      FreeKeeps(s, patience);
    } else {
      var m := s.(users := s.users.Write(WithToken(s, id.user, token), o), issued := s.issued + 1, section := Free);
      CommitAdvances(s, m, id, token, o);
      WroteUserKeeps(s, m, id.user, Installed(s, id.user, token), o, patience);
      HandOverKeeps(m, Committed(s, id, token, o), id, token, patience);
    }
  }

  /** A conflict removes the receipt first and its task next. */
  lemma ConflictKeeps(s: State, o: Outcome, patience: Patience)
    requires s.section.Installing? && Inv(s, patience) && !MayInstall(s)
    requires DoInstall(s, o).section.DroppingTask? ==> Harmless(s, s.section.id.user, s.section.receipt.newToken)
    ensures Inv(DoInstall(s, o), patience)
  {
    hide AccountsGood, IntentsGood, ReceiptsGood, TasksGood, WindowsNested, WorkerGood, HandoffsGood, NoLostRevocation;
    var n := DoInstall(s, o);
    var w := Dropped(s.receipts.visible, s.section.id);
    var m := s.(receipts := s.receipts.WriteIf(w, o));
    if w.Some? {
      ReceiptWriteKeeps(s, w.value, o, patience);
    }
    SectionToDrop(m, n, patience);
  }

  lemma SectionToDrop(m: State, n: State, patience: Patience)
    requires Inv(m, patience) && m.section.Installing?
    requires n == m.(section := n.section, answers := n.answers)
    requires n.section.Free? || n.section == DroppingTask(m.section.id, m.section.receipt.newToken)
    requires n.section.DroppingTask? ==> Harmless(m, m.section.id.user, m.section.receipt.newToken)
    ensures Inv(n, patience)
  {
    hide AccountsGood, IntentsGood, ReceiptsGood, TasksGood, WindowsNested, WorkerGood, HandoffsGood, NoLostRevocation;
    assert m.queue.visible in m.queue.Versions();
    AccountsKept(m, n);
    AccountsKept(m, m.(section := n.section));
    ReceiptsKept(m, n, map[]);
    OutsideLock(m, m.(section := n.section), patience);
    AnswersAside(m.(section := n.section), n, patience);
  }

  lemma AnswersAside(m: State, n: State, patience: Patience)
    requires IntentsGood(m) && TasksGood(m) && WindowsNested(m) && WorkerGood(m, patience) && HandoffsGood(m)
             && NoLostRevocation(m)
    requires n == m.(answers := n.answers, redone := n.redone)
    ensures TasksGood(n) && WindowsNested(n) && WorkerGood(n, patience) && HandoffsGood(n) && NoLostRevocation(n)
  {
    QuietFollows(m, n);
    ReadingKept(m, n, patience);
    hide ReadingGood, IntentsGood;
  }

  lemma BookkeepingKeeps(s: State, n: State, patience: Patience)
    requires Inv(s, patience) && n == s.(answers := n.answers, redone := n.redone)
    ensures Inv(n, patience)
  {
    hide AccountsGood, IntentsGood, ReceiptsGood, TasksGood, WindowsNested, WorkerGood, HandoffsGood, NoLostRevocation;
    AccountsKept(s, n);
    ReceiptsKept(s, n, map[]);
    AnswersAside(s, n, patience);
  }

  lemma InstallKeeps(s: State, o: Outcome, patience: Patience)
    requires s.section.Installing? && Inv(s, patience) && Calm(s, Commit(o), patience)
    ensures Inv(DoInstall(s, o), patience)
  {
    hide AccountsGood, IntentsGood, ReceiptsGood, TasksGood, WindowsNested, SectionGood, WorkerGood, HandoffsGood,
         NoLostRevocation, Committing;
    if MayInstall(s) {
      SectionCommits(s);
      CommittedKeeps(s, s.section.id, s.section.receipt.newToken, o, patience);
      BookkeepingKeeps(Committed(s, s.section.id, s.section.receipt.newToken, o), DoInstall(s, o), patience);
    } else {
      ConflictKeeps(s, o, patience);
    }
  }

  lemma DropTaskKeeps(s: State, o: Outcome, patience: Patience)
    requires s.section.DroppingTask? && Inv(s, patience)
    ensures Inv(DoDropTask(s, o), patience)
  {
    hide AccountsGood, IntentsGood, ReceiptsGood, TasksGood, WindowsNested, WorkerGood, HandoffsGood, NoLostRevocation;
    var id := s.section.id;
    if id in s.queue.visible && !o.NotReplaced? {
      QueueRemovalKeeps(s, s.(queue := s.queue.Write(s.queue.visible - {id}, o)), id, o, patience);
      FreeKeeps(s.(queue := s.queue.Write(s.queue.visible - {id}, o)), patience);
    } else {
      FreeKeeps(s, patience);
    }
  }

  /* ---- Removing an account. ---- */

  predicate RemovedUser(s: State, n: State, user: User, o: Outcome) {
    && n == s.(users := s.users.Write(s.users.visible - {user}, o), section := n.section)
    && (n.section.Free? || (o.Durable? && n.section == Purging(user)))
  }

  lemma RemovedAccounts(s: State, n: State, user: User, o: Outcome)
    requires AccountsGood(s) && IntentsGood(s) && NoLostRevocation(s) && RemovedUser(s, n, user, o)
    ensures AccountsGood(n) && IntentsGood(n) && NoLostRevocation(n)
  {
  }

  lemma RemovedThreads(s: State, n: State, user: User, o: Outcome, patience: Patience)
    requires TasksGood(s) && WindowsNested(s) && WorkerGood(s, patience) && HandoffsGood(s) && IntentsGood(s)
    requires RemovedUser(s, n, user, o)
    ensures TasksGood(n) && WindowsNested(n) && WorkerGood(n, patience) && HandoffsGood(n)
  {
    ReadingKept(s, n, patience);
    hide ReadingGood, IntentsGood, Follows, Forward;
  }

  lemma RemovedUserKeeps(s: State, n: State, user: User, o: Outcome, patience: Patience)
    requires Inv(s, patience) && RemovedUser(s, n, user, o)
    ensures Inv(n, patience)
  {
    hide AccountsGood, IntentsGood, ReceiptsGood, TasksGood, WindowsNested, WorkerGood, HandoffsGood, NoLostRevocation;
    ReceiptsKept(s, n, map[]);
    RemovedAccounts(s, n, user, o);
    RemovedThreads(s, n, user, o, patience);
  }

  lemma RemoveKeeps(s: State, o: Outcome, patience: Patience)
    requires s.section.Removing? && Inv(s, patience)
    ensures Inv(DoRemove(s, o), patience)
  {
    hide AccountsGood, IntentsGood, ReceiptsGood, TasksGood, WindowsNested, WorkerGood, NoLostRevocation;
    var id := s.section.id;
    var m := s.(users := s.users.Write(s.users.visible - {id.user}, o),
                section := if o.Durable? then Purging(id.user) else Free);
    var n := DoRemove(s, o);
    RemovedUserKeeps(s, m, id.user, o, patience);
    AccountsKept(m, n);
    ReceiptsKept(m, n, map[]);
    DeleteHandedOver(m, n, patience);
  }

  lemma DeleteHandedOver(m: State, n: State, patience: Patience)
    requires IntentsGood(m) && TasksGood(m) && WindowsNested(m) && WorkerGood(m, patience) && NoLostRevocation(m)
    requires n == m.(handoffs := n.handoffs)
    ensures TasksGood(n) && WindowsNested(n) && WorkerGood(n, patience) && NoLostRevocation(n)
  {
    QuietFollows(m, n);
    ReadingKept(m, n, patience);
    hide ReadingGood, IntentsGood;
  }

  /* ---- Attempts and the retry thread. ---- */

  lemma HandedBack(s: State, id: TaskId, target: Generation, patience: Patience)
    requires Inv(s, patience)
    ensures Inv(s.(handoffs := s.handoffs - multiset{(id, target)}), patience)
  {
    hide AccountsGood, IntentsGood, ReceiptsGood, TasksGood, WindowsNested, WorkerGood, NoLostRevocation;
    var n := s.(handoffs := s.handoffs - multiset{(id, target)});
    AccountsKept(s, n);
    ReceiptsKept(s, n, map[]);
    DeleteHandedOver(s, n, patience);
  }

  /** A recorded attempt either rewrites the task or retires it. */
  lemma RecordKeeps(s: State, id: TaskId, target: Generation, kickOk: bool, stopped: set<Service>, o: Outcome,
                    patience: Patience)
    requires Inv(s, patience)
    requires id in s.queue.visible ==> s.queue.visible[id].target == target
    requires id in s.queue.visible && PendingOf(s).Pending? ==> PendingOf(s).id != id
    ensures Inv(Record(s, id, target, kickOk, stopped, o), patience)
  {
    hide AccountsGood, ReceiptsGood, TasksGood, WindowsNested, SectionGood, WorkerGood, HandoffsGood,
         NoLostRevocation, PendingOf;
    var q, n := s.queue.visible, Record(s, id, target, kickOk, stopped, o);
    if id in q && !o.NotReplaced? {
      var w := Completed(q, id, kickOk, stopped, s.now).value;
      assert n.stray == s.stray;
      hide IntentsGood;
      if id in w {
        QueueRewriteKeeps(s, w, o, patience);
      } else {
        QueueRemovalKeeps(s, n, id, o, patience);
      }
    }
  }

  /** A hand-off exists only once its token was shown, so never for a pending commit. */
  lemma HandoffNotPending(s: State, id: TaskId, target: Generation)
    requires SectionGood(s) && HandoffsGood(s) && (id, target) in s.handoffs
    ensures id in s.queue.visible && PendingOf(s).Pending? ==> PendingOf(s).id != id
  {
  }

  lemma RequestSettlesKeeps(s: State, e: Event, patience: Patience)
    requires e.RequestSettles? && Inv(s, patience) && Enabled(s, e, patience)
    ensures Inv(Step(s, e, patience), patience)
  {
    hide AccountsGood, IntentsGood, ReceiptsGood, TasksGood, WindowsNested, SectionGood, WorkerGood, HandoffsGood,
         NoLostRevocation, PendingOf;
    var m := s.(handoffs := s.handoffs - multiset{(e.id, e.target)});
    HandoffNotPending(s, e.id, e.target);
    SamePending(s, m);
    HandedBack(s, e.id, e.target, patience);
    if e.id in s.queue.visible {
      HandoffShown(s, e.id, e.target);
    }
    RecordKeeps(m, e.id, e.target, e.kickOk, e.stopped, e.o, patience);
  }

  lemma HandoffShown(s: State, id: TaskId, target: Generation)
    requires HandoffsGood(s) && (id, target) in s.handoffs && id in s.queue.visible
    ensures s.queue.visible[id].target == target
  {
  }

  lemma SamePending(s: State, m: State)
    requires m.section == s.section && m.users == s.users
    ensures PendingOf(m) == PendingOf(s)
  {
  }

  lemma RestKeeps(s: State, w: Worker, patience: Patience)
    requires Inv(s, patience) && !HoldsTask(w)
    ensures Inv(s.(worker := w), patience)
  {
    hide AccountsGood, IntentsGood, ReceiptsGood, HandoffsGood, NoLostRevocation;
    var n := s.(worker := w);
    AccountsKept(s, n);
    ReceiptsKept(s, n, map[]);
    RestElsewhere(s, n);
  }

  lemma RestElsewhere(s: State, n: State)
    requires HandoffsGood(s) && NoLostRevocation(s) && n == s.(worker := n.worker)
    ensures HandoffsGood(n) && NoLostRevocation(n)
  {
  }

  lemma WithServicesSame(q: Queue, id: TaskId, services: set<Service>, now: int)
    ensures WithServices(q, id, services, now).Some? ==> SameTasks(q, WithServices(q, id, services, now).value)
  {
  }

  lemma HoldKeeps(s: State, n: State, id: TaskId, patience: Patience)
    requires Inv(s, patience) && id in s.queue.visible
    requires n == s.(worker := Claimed(id, s.queue.visible[id]))
    ensures Inv(n, patience)
  {
    AccountsKept(s, n);
    ReceiptsKept(s, n, map[]);
    RestElsewhere(s, n);
    HeldTasks(s, n, id);
    HeldSection(s, n, id);
    hide AccountsGood, IntentsGood, ReceiptsGood, HandoffsGood, NoLostRevocation, TasksGood, SectionGood, WindowsNested;
  }

  lemma HeldTasks(s: State, n: State, id: TaskId)
    requires TasksGood(s) && id in s.queue.visible && n == s.(worker := Claimed(id, s.queue.visible[id]))
    ensures TasksGood(n)
  {
  }

  lemma HeldSection(s: State, n: State, id: TaskId)
    requires SectionGood(s) && id in s.queue.visible && n == s.(worker := Claimed(id, s.queue.visible[id]))
    ensures SectionGood(n)
  {
  }

  lemma WorkerClaimsKeeps(s: State, id: TaskId, o: Outcome, patience: Patience)
    requires Inv(s, patience) && id in s.queue.visible
    ensures Inv(DoWorkerClaims(s, id, o), patience)
  {
    hide AccountsGood, IntentsGood, ReceiptsGood, TasksGood, WindowsNested, SectionGood, WorkerGood, HandoffsGood,
         NoLostRevocation;
    var q := Leased(s.queue.visible, id, s.now);
    QueueRewriteKeeps(s, q, o, patience);
    var m := s.(queue := s.queue.Write(q, o));
    if o.Durable? {
      HoldKeeps(m, DoWorkerClaims(s, id, o), id, patience);
    } else {
      RestKeeps(m, Resting, patience);
    }
  }

  /** Reading the account of a rotation task fixes what later steps may rely on. */
  lemma ReadingKeeps(s: State, n: State, patience: Patience)
    requires Inv(s, patience) && s.worker.Claimed? && s.section.Free? && s.worker.task.target.Token?
    requires patience <= TASK_TTL_SECONDS - RECEIPT_TTL_SECONDS && Calm(s, WorkerDecides(Durable, true), patience)
    requires n == s.(worker := Decided(s.worker.id, s.worker.task, CurrentOf(s.users.visible, s.worker.task.user),
             s.now))
    ensures Inv(n, patience)
  {
    hide AccountsGood, IntentsGood, ReceiptsGood, TasksGood, WindowsNested, SectionGood, WorkerGood, HandoffsGood,
         NoLostRevocation, Calm, TaskGood;
    AccountsKept(s, n);
    ReceiptsKept(s, n, map[]);
    RestElsewhere(s, n);
    ReadingElsewhere(s, n);
    HeldTaskGood(s);
    ReadingImplies(s, n, patience);
  }

  lemma HeldTaskGood(s: State)
    requires TasksGood(s) && HoldsTask(s.worker)
    ensures TaskGood(s, s.worker.id, s.worker.task)
  {
  }

  /** A claimed task becoming a decided one changes nothing else. */
  lemma ReadingElsewhere(s: State, n: State)
    requires WindowsNested(s) && TasksGood(s) && SectionGood(s) && s.worker.Claimed? && n == s.(worker := n.worker)
    requires n.worker.Decided? && n.worker.id == s.worker.id && n.worker.task == s.worker.task
    ensures WindowsNested(n) && TasksGood(n) && SectionGood(n)
  {
  }

  /** Outside the lock only live receipts lead on. */
  lemma {:induction false} ReachReplayable(s: State, user: User, token: nat)
    requires IntentsGood(s) && ReceiptsGood(s) && s.section.Free?
    ensures Reach(s, user, token) ==> Replayable(s.users.visible, s.receipts.visible, s.now, user, token)
    decreases token
  {
    if Reach(s, user, token) && !HasToken(s.users.visible, user, token) {
      ReachReplayable(s, user, s.intents[token].older);
      var id :| id in s.receipts.visible && LinkedBy(s.receipts.visible, id, s.now, token);
      assert ReceiptGood(s, id, s.receipts.visible[id]);
    }
  }

  /** A task that runs out within 300 seconds has outlived the receipt for its token. */
  lemma ReceiptExpired(s: State, patience: Patience)
    requires WindowsNested(s) && ReceiptsGood(s) && s.worker.Claimed? && s.section.Free?
    requires s.worker.task.target.Token? && TaskGood(s, s.worker.id, s.worker.task)
    requires patience <= TASK_TTL_SECONDS - RECEIPT_TTL_SECONDS && s.worker.task.expiresAt <= s.now + patience
    ensures !Obtainable(s, s.worker.task.target.id)
  {
    forall id | id in s.receipts.visible && s.receipts.visible[id].newToken == s.worker.task.target.id
      ensures s.receipts.visible[id].expiresAt <= s.now
    {
      assert ReceiptGood(s, id, s.receipts.visible[id]);
    }
  }

  lemma ReadingImplies(s: State, n: State, patience: Patience)
    requires AccountsGood(s) && IntentsGood(s) && ReceiptsGood(s) && WindowsNested(s) && WorkerGood(s, patience)
    requires s.worker.Claimed? && s.section.Free?
    requires s.worker.task.target.Token? && TaskGood(s, s.worker.id, s.worker.task)
    requires patience <= TASK_TTL_SECONDS - RECEIPT_TTL_SECONDS && Calm(s, WorkerDecides(Durable, true), patience)
    requires n == s.(worker := Decided(s.worker.id, s.worker.task, CurrentOf(s.users.visible, s.worker.task.user),
             s.now))
    ensures WorkerGood(n, patience)
  {
    var user, g := s.worker.task.user, s.worker.task.target.id;
    assert s.users.visible in s.users.Versions();
    if MayDrop(n.worker, patience) {
      QuietFollows(s, n);
      ReachBack(s, n, user, g);
      if n.worker.seen == n.worker.task.previous {
        ReceiptExpired(s, patience);
      } else {
        ReachReplayable(s, user, g);
      }
      assert Harmless(s, user, g) && !Reach(s, user, g);
    }
    hide Replayable, Obtainable, WindowsNested, ReceiptsGood, IntentsGood, Reach;
  }

  lemma DecidesDeleteKeeps(s: State, o: Outcome, purged: bool, patience: Patience)
    requires Inv(s, patience) && s.worker.Claimed? && s.section.Free? && s.worker.task.target.Deleted?
    ensures Inv(DoWorkerDecides(s, o, purged), patience)
  {
    hide AccountsGood, IntentsGood, ReceiptsGood, TasksGood, WindowsNested, SectionGood, WorkerGood, HandoffsGood,
         NoLostRevocation;
    var id, task, n := s.worker.id, s.worker.task, DoWorkerDecides(s, o, purged);
    if DeleteSuperseded(s.users.visible, task) {
      var m := s.(worker := Decided(id, task, Deleted, s.now));
      DeleteReadKeeps(s, m, patience);
      BookkeepingKeeps(m, n, patience);
    } else {
      var m := s.(users := s.users.Write(s.users.visible - {task.user}, o),
                  section := if o.Durable? && purged then Purging(task.user) else Free);
      RemovedUserKeeps(s, m, task.user, o, patience);
      if o.Durable? && purged {
        var k := m.(worker := Decided(id, task, Deleted, s.now));
        DeleteReadKeeps(m, k, patience);
        BookkeepingKeeps(k, n, patience);
      } else {
        RestKeeps(m, BackingOff(id), patience);
        BookkeepingKeeps(m.(worker := BackingOff(id)), n, patience);
      }
    }
  }

  lemma DeleteReadKeeps(s: State, n: State, patience: Patience)
    requires Inv(s, patience) && s.worker.Claimed? && s.worker.task.target.Deleted?
    requires n == s.(worker := Decided(s.worker.id, s.worker.task, Deleted, s.now))
    ensures Inv(n, patience)
  {
    hide AccountsGood, IntentsGood, ReceiptsGood, TasksGood, WindowsNested, SectionGood, HandoffsGood, NoLostRevocation;
    AccountsKept(s, n);
    ReceiptsKept(s, n, map[]);
    RestElsewhere(s, n);
    ReadingElsewhere(s, n);
  }

  lemma WorkerDecidesKeeps(s: State, o: Outcome, purged: bool, patience: Patience)
    requires patience <= TASK_TTL_SECONDS - RECEIPT_TTL_SECONDS && Inv(s, patience)
    requires Enabled(s, WorkerDecides(o, purged), patience) && Calm(s, WorkerDecides(o, purged), patience)
    ensures Inv(DoWorkerDecides(s, o, purged), patience)
  {
    hide AccountsGood, IntentsGood, ReceiptsGood, WindowsNested, SectionGood, WorkerGood, HandoffsGood,
         NoLostRevocation;
    if s.worker.task.target.Token? {
      ReadingKeeps(s, DoWorkerDecides(s, o, purged), patience);
    } else {
      DecidesDeleteKeeps(s, o, purged, patience);
    }
  }

  /** Only a task the thread does not just release is settled, and that one is its own. */
  lemma HeldTaskShown(s: State, patience: Patience)
    requires WorkerGood(s, patience) && s.worker.Decided? && s.worker.id in s.queue.visible
    requires s.now <= s.worker.at + patience && !VerdictOn(s.worker.task, s.worker.seen, s.now).Retry?
    ensures s.queue.visible[s.worker.id].target == s.worker.task.target
  {
  }

  /** A commit about to happen could reach its token. */
  lemma PendingReaches(s: State)
    requires SectionGood(s) && PendingOf(s).Pending?
    ensures var p := PendingOf(s); p.oldToken < p.newToken && Reach(s, p.id.user, p.newToken)
    ensures var p := PendingOf(s); p.id in s.queue.visible && s.queue.visible[p.id].target == Token(p.newToken)
    ensures HasToken(s.users.visible, PendingOf(s).id.user, PendingOf(s).oldToken)
  {
    var p := PendingOf(s);
    assert s.queue.visible in s.queue.Versions();
    assert Obtainable(s, p.newToken) && Reach(s, p.id.user, p.oldToken);
  }

  /** Giving a task up, or dropping it as superseded, hits no commit and no shown token. */
  lemma VerdictHarmless(s: State, patience: Patience)
    requires SectionGood(s) && WorkerGood(s, patience) && TasksGood(s)
    requires s.worker.Decided? && s.now <= s.worker.at + patience
    requires s.worker.id in s.queue.visible && !VerdictOn(s.worker.task, s.worker.seen, s.now).Retry?
    ensures PendingOf(s).Pending? ==> PendingOf(s).id != s.worker.id
    ensures var v := VerdictOn(s.worker.task, s.worker.seen, s.now);
            (v.GiveUp? || v.Superseded?) && s.worker.task.target.Token? ==>
              Harmless(s, s.worker.id.user, s.worker.task.target.id)
  {
    assert TaskGood(s, s.worker.id, s.worker.task);
    if PendingOf(s).Pending? && PendingOf(s).id == s.worker.id {
      PendingReaches(s);
      HeldTaskShown(s, patience);
    }
    hide SectionGood, TasksGood, Reach, Harmless, PendingOf;
  }

  lemma WorkerSettlesKeeps(s: State, e: Event, patience: Patience)
    requires e.WorkerSettles? && Inv(s, patience) && Enabled(s, e, patience)
    ensures Inv(Step(s, e, patience), patience)
  {
    hide AccountsGood, IntentsGood, ReceiptsGood, TasksGood, WindowsNested, SectionGood, WorkerGood, HandoffsGood,
         NoLostRevocation, PendingOf, Unshown;
    var id, m, q := s.worker.id, s.(worker := Resting), s.queue.visible;
    RestKeeps(s, Resting, patience);
    SamePending(s, m);
    if s.worker.BackingOff? || VerdictOn(s.worker.task, s.worker.seen, s.now).Retry? {
      if id in q {
        QueueRewriteKeeps(m, Released(q, id, RETRY_DELAY_SECONDS, s.now).value, e.o, patience);
      }
    } else if id in q {
      VerdictHarmless(s, patience);
      HeldTaskShown(s, patience);
      if VerdictOn(s.worker.task, s.worker.seen, s.now).Kick? {
        RecordKeeps(m, id, s.worker.task.target, e.kickOk, e.stopped, e.o, patience);
      } else if !e.o.NotReplaced? {
        QueueRemovalKeeps(m, m.(queue := s.queue.Write(q - {id}, e.o)), id, e.o, patience);
      }
    }
  }

  /* ---- Power loss. ---- */

  lemma PowerLossNoLost(s: State, n: State)
    requires NoLostRevocation(s)
    requires n.users.Versions() <= s.users.Versions() && n.queue.Versions() <= s.queue.Versions()
    requires n.intents == s.intents && n.retired == s.retired
    ensures NoLostRevocation(n)
  {
  }

  lemma PowerLossKeeps(s: State, e: Event, patience: Patience)
    requires e.PowerLoss? && Inv(s, patience) && Enabled(s, e, patience)
    ensures Inv(Step(s, e, patience), patience)
  {
    hide ReceiptsGood, TasksGood, WindowsNested, SectionGood, WorkerGood, NoLostRevocation;
    var n := Step(s, e, patience);
    ReceiptsKept(s, n, map[]);
    TasksKept(s, n, map[]);
    WindowsKept(s, n, map[], map[]);
    PowerLossNoLost(s, n);
    AloneGood(n, patience);
  }

  lemma AloneGood(n: State, patience: Patience)
    requires n.section.Free? && n.worker.Resting?
    ensures SectionGood(n) && WorkerGood(n, patience)
  {
  }

  /* ---- Every step, and every run. ---- */

  lemma ReceiptEventKeeps(s: State, e: Event, patience: Patience)
    requires (e.BindSession? || e.PruneReceipts?) && Inv(s, patience)
    ensures Inv(Step(s, e, patience), patience)
  {
    hide AccountsGood, IntentsGood, ReceiptsGood, TasksGood, WindowsNested, SectionGood, WorkerGood, HandoffsGood,
         NoLostRevocation, FromReceipts;
    var r := s.receipts.visible;
    if e.PruneReceipts? {
      PrunedFrom(r, s.now);
      if Pruned(r, s.now) != r {
        ReceiptWriteKeeps(s, Pruned(r, s.now), e.o, patience);
      }
    } else {
      BoundFrom(r, e.id, e.original, e.replacement, s.now);
      var w := Bound(r, e.id, e.original, e.replacement, s.now);
      if w.Some? {
        ReceiptWriteKeeps(s, w.value, e.o, patience);
      }
    }
  }

  lemma TickKeeps(s: State, now: int, patience: Patience)
    requires Inv(s, patience) && s.now <= now
    ensures Inv(s.(now := now), patience)
  {
    hide AccountsGood, IntentsGood, ReceiptsGood, TasksGood, WindowsNested, WorkerGood, HandoffsGood, NoLostRevocation;
    var n := s.(now := now);
    AccountsKept(s, n);
    ReceiptsKept(s, n, map[]);
    TickElsewhere(s, n, patience);
  }

  lemma TickElsewhere(s: State, n: State, patience: Patience)
    requires TasksGood(s) && WindowsNested(s) && HandoffsGood(s) && NoLostRevocation(s)
             && WorkerGood(s, patience) && IntentsGood(s)
    requires n == s.(now := n.now) && s.now <= n.now
    ensures TasksGood(n) && WindowsNested(n) && HandoffsGood(n) && NoLostRevocation(n) && WorkerGood(n, patience)
  {
    QuietFollows(s, n);
    ReadingKept(s, n, patience);
    hide ReadingGood, IntentsGood;
  }

  lemma BeginKeeps(s: State, e: Event, patience: Patience)
    requires (e.Rotate? || e.AdminRotate? || e.Delete?) && Inv(s, patience) && Enabled(s, e, patience)
    ensures Inv(Step(s, e, patience), patience)
  {
    hide TasksGood, WindowsNested, WorkerGood, HandoffsGood, NoLostRevocation, IntentsGood;
    var n := Step(s, e, patience);
    assert s.users.visible in s.users.Versions();
    if e.Rotate? && n != s {
      var id := ForRequest(e.user, e.request);
      if n.section.replay {
        assert ReceiptGood(s, id, s.receipts.visible[id]);
        ReplayKeeps(s, n, patience);
      } else {
        DrawKeeps(s, n, id, s.users.visible[e.user].token, patience);
      }
    } else if !e.Rotate? {
      DrawKeeps(s, n, ForNonce(e.user, s.issued + 1), s.users.visible[e.user].token, patience);
    }
  }

  lemma ReplayKeeps(s: State, n: State, patience: Patience)
    requires Inv(s, patience) && s.section.Free? && n == s.(section := n.section)
    requires n.section.WritingReceipt? && n.section.replay && n.section.id.ForRequest?
    requires OfIntent(s, n.section.id, n.section.oldToken, n.section.newToken)
    ensures Inv(n, patience)
  {
    hide AccountsGood, IntentsGood, ReceiptsGood, TasksGood, WindowsNested, WorkerGood, HandoffsGood, NoLostRevocation;
    AccountsKept(s, n);
    ReceiptsKept(s, n, map[]);
    OutsideLock(s, n, patience);
  }

  lemma CommitKeeps(s: State, o: Outcome, patience: Patience)
    requires Inv(s, patience) && Enabled(s, Commit(o), patience) && Calm(s, Commit(o), patience)
    ensures Inv(DoCommit(s, o), patience)
  {
    hide AccountsGood, IntentsGood, ReceiptsGood, TasksGood, WindowsNested, SectionGood, WorkerGood, HandoffsGood,
         NoLostRevocation, Committing;
    if s.section.Installing? {
      InstallKeeps(s, o, patience);
    } else if s.section.InstallingAdmin? {
      SectionCommits(s);
      CommittedKeeps(s, s.section.id, s.section.newToken, o, patience);
    } else {
      RemoveKeeps(s, o, patience);
    }
  }

  lemma StepKeeps(s: State, e: Event, patience: Patience)
    requires patience <= TASK_TTL_SECONDS - RECEIPT_TTL_SECONDS
    requires Inv(s, patience) && Enabled(s, e, patience) && Calm(s, e, patience)
    ensures Inv(Step(s, e, patience), patience)
  {
    hide Inv, Calm, SameTasks;
    match e
    case Tick(now) => TickKeeps(s, now, patience);
    case Abort => FreeKeeps(s, patience);
    case Purge => FreeKeeps(s, patience);
    case Rotate(_, _, _, _) => BeginKeeps(s, e, patience);
    case AdminRotate(_) => BeginKeeps(s, e, patience);
    case Delete(_) => BeginKeeps(s, e, patience);
    case WriteReceipt(o) => WriteReceiptKeeps(s, o, patience);
    case ArmTask(services, o) => ArmTaskKeeps(s, services, o, patience);
    case Commit(o) => CommitKeeps(s, o, patience);
    case DropTask(o) => DropTaskKeeps(s, o, patience);
    case Touch(user, o) => TouchKeeps(s, user, o, patience);
    case Create(user, o) => CreateKeeps(s, user, o, patience);
    case BindSession(_, _, _, _) => ReceiptEventKeeps(s, e, patience);
    case PruneReceipts(_) => ReceiptEventKeeps(s, e, patience);
    case AddServices(id, services, o) =>
      WithServicesSame(s.queue.visible, id, services, s.now);
      var w := WithServices(s.queue.visible, id, services, s.now);
      if w.Some? {
        QueueRewriteKeeps(s, w.value, o, patience);
      }
    case RequestSettles(_, _, _, _, _) => RequestSettlesKeeps(s, e, patience);
    case WorkerClaims(id, o) => WorkerClaimsKeeps(s, id, o, patience);
    case WorkerDecides(o, purged) => WorkerDecidesKeeps(s, o, purged, patience);
    case WorkerSettles(_, _, _) => WorkerSettlesKeeps(s, e, patience);
    case WorkerAborts => RestKeeps(s, Resting, patience);
    case PowerLoss(_, _, _) => PowerLossKeeps(s, e, patience);
  }

  /** A run in which every risky decision meets its guard. */
  ghost predicate CalmRun(s: State, events: seq<Event>, patience: Patience)
    requires Runs(s, events, patience)
    decreases |events|
  {
    events != [] ==>
      var before := events[..|events| - 1];
      CalmRun(s, before, patience) && Calm(After(s, before, patience), events[|events| - 1], patience)
  }

  lemma {:induction false} EveryRunKeeps(s: State, events: seq<Event>, patience: Patience)
    requires patience <= TASK_TTL_SECONDS - RECEIPT_TTL_SECONDS && Inv(s, patience)
    requires Runs(s, events, patience) && CalmRun(s, events, patience)
    ensures Inv(After(s, events, patience), patience)
  {
    if events == [] {
    } else {
      EveryRunKeeps(s, events[..|events| - 1], patience);
      StepKeeps(After(s, events[..|events| - 1], patience), events[|events| - 1], patience);
    }
  }

  /** No lost revocation: across requests, replays, worker steps, failed and uncertain
      writes and power losses, whenever a recoverable users.json holds the token of a
      rotation, its task is queued in every recoverable queue or was completed. */
  lemma {:induction false} NoRevocationIsLost(events: seq<Event>, patience: Patience)
    requires patience <= TASK_TTL_SECONDS - RECEIPT_TTL_SECONDS
    requires Runs(Start, events, patience) && CalmRun(Start, events, patience)
    ensures NoLostRevocation(After(Start, events, patience))
  {
    EveryRunKeeps(Start, events, patience);
  }

  /** The guards in terms of what a caller knows before the call: how its last write of
      users.json landed, what the receipts say, and who still works on the request id. */
  ghost predicate Prudent(s: State, e: Event, patience: Patience) {
    match e
    case WorkerDecides(_, _) =>
      s.worker.Claimed? && s.worker.task.target.Token? ==>
        var t := s.worker.task;
        var seen := CurrentOf(s.users.visible, t.user);
        seen != t.target && seen != t.previous ==>
          && s.users.stale == {}
          && !Replayable(s.users.visible, s.receipts.visible, s.now, t.user, t.target.id)
    case Commit(_) => s.section.Installing? && !MayInstall(s) ==> s.users.stale == {}
    case ArmTask(_, _) =>
      s.section.ArmingRotation? && s.section.id !in s.queue.visible ==>
        NoStranger(s, s.section.id, Token(s.section.receipt.newToken), patience)
    case _ => true
  }

  ghost predicate PrudentRun(events: seq<Event>, patience: Patience)
    requires Runs(Start, events, patience)
    decreases |events|
  {
    events != [] ==>
      var before := events[..|events| - 1];
      PrudentRun(before, patience) && Prudent(After(Start, before, patience), events[|events| - 1], patience)
  }

  lemma {:induction false} PrudentRunsAreCalm(events: seq<Event>, patience: Patience)
    requires Runs(Start, events, patience) && PrudentRun(events, patience)
    ensures CalmRun(Start, events, patience)
    decreases |events|
  {
    if events == [] {
    } else {
      var before := events[..|events| - 1];
      PrudentRunsAreCalm(before, patience);
    }
  }

  /** No lost revocation in every run that decides only on durable files. */
  lemma {:induction false} PrudentRunsLoseNothing(events: seq<Event>, patience: Patience)
    requires patience <= TASK_TTL_SECONDS - RECEIPT_TTL_SECONDS
    requires Runs(Start, events, patience) && PrudentRun(events, patience)
    ensures NoLostRevocation(After(Start, events, patience))
  {
    PrudentRunsAreCalm(events, patience);
    NoRevocationIsLost(events, patience);
  }
}
