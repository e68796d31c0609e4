/** The handlers themselves: the self-service rotation and one turn of the retry thread,
    each shown to perform exactly the steps of the protocol machine. */
module CredentialService {
  import opened StateStore
  import opened RevocationQueue
  import opened RotationRecovery
  import opened CredentialProtocol

  /** What `_recoverable_user_rotation` answers; Failed stands for a raised exception. */
  datatype Status =
    | Forbidden | Disabled | Expired | Conflict
    | Rotated(token: nat, durabilityUncertain: bool, replayed: bool)
    | Failed(error: Error)

  const ALL_SERVICES: set<Service> := {Xray, Tuic}

  /** The faults that hit the writes of one rotation request. */
  datatype Faults = Faults(prune: Fault, receipt: Fault, task: Fault, commit: Fault, drop: Fault)

  /** The lookups erase expired receipts before anything else is written. */
  function PrunedFirst(s: State, fault: Fault): State {
    var live := Pruned(s.receipts.visible, s.now);
    s.(receipts := s.receipts.WriteIf(if live == s.receipts.visible then None else Some(live), Landing(fault)))
  }

  /** A request's steps once it holds the lock and knows which tokens it is about. */
  function StepsFromReceipt(s: State, f: Faults): State
    requires s.section.WritingReceipt?
  {
    var s2 := DoWriteReceipt(s, Landing(f.receipt));
    if s2.section.ArmingRotation? then StepsFromTask(s2, f) else s2
  }

  function StepsFromTask(s: State, f: Faults): State
    requires s.section.ArmingRotation?
  {
    var s3 := DoArmTask(s, ALL_SERVICES, Landing(f.task));
    if s3.section.Installing? then StepsFromInstall(s3, f) else s3
  }

  function StepsFromInstall(s: State, f: Faults): State
    requires s.section.Installing?
  {
    var s4 := DoInstall(s, Landing(f.commit));
    if !s4.section.DroppingTask? then s4 else DoDropTask(s4, Landing(f.drop))
  }

  /** A fresh request is turned away before it draws a token. */
  predicate TurnedAway(s: State, id: TaskId, session: Session, posted: nat, sessionAllows: bool,
                       disabled: bool, expired: bool)
    requires id.user in s.users.visible
  {
    && LookedUp(s.receipts.visible, id, session, s.now).None?
    && (!sessionAllows || posted != s.users.visible[id.user].token || disabled || expired)
  }

  /** The faults that hit the writes of one turn of the retry thread, and whether the
      history of a deleted account is purged. */
  datatype TurnFaults = TurnFaults(claim: Fault, save: Fault, purged: bool, settle: Fault)

  /** One turn of the retry thread on the task it claimed: claim, decide under the lock,
      settle after the outside work is done. `working` are the services whose reload or
      stop succeeds. */
  ghost function TurnSteps(s: State, id: TaskId, settleAt: int, kickOk: bool, working: set<Service>,
                           f: TurnFaults): State
    requires id in s.queue.visible
  {
    var s1 := DoWorkerClaims(s, id, Landing(f.claim));
    if s1.worker.Claimed? then TurnActs(s1, settleAt, kickOk, working, f) else s1
  }

  ghost function TurnActs(s: State, settleAt: int, kickOk: bool, working: set<Service>, f: TurnFaults): State
    requires s.worker.Claimed?
  {
    var next := DoWorkerDecides(s, Landing(f.save), f.purged).(now := settleAt);
    DoWorkerSettles(next, kickOk, s.worker.task.services * working, Landing(f.settle))
  }

  /** The claim is saved, the account shows the task's own target, and the attempt is saved. */
  ghost predicate TurnRecords(s: State, id: TaskId, f: TurnFaults)
    requires id in s.queue.visible
  {
    && f.claim == NoFault && f.settle == NoFault
    && var t := DoWorkerDecides(DoWorkerClaims(s, id, Durable), Landing(f.save), f.purged);
       t.worker.Decided? && t.worker.seen == t.worker.task.target
  }

  /** What settling a claimed task writes. */
  lemma SettlingWrites(t: State, kickOk: bool, stopped: set<Service>, o: Outcome)
    requires t.worker.Decided? || t.worker.BackingOff?
    ensures var n, q, id := DoWorkerSettles(t, kickOk, stopped, o), t.queue.visible, t.worker.id;
            && n.users == t.users && n.receipts == t.receipts
            && n.queue == t.queue.WriteIf(
                 if t.worker.BackingOff? then Released(q, id, RETRY_DELAY_SECONDS, t.now)
                 else match VerdictOn(t.worker.task, t.worker.seen, t.now)
                   case Kick => Completed(q, id, kickOk, stopped, t.now)
                   case Retry => Released(q, id, RETRY_DELAY_SECONDS, t.now)
                   case GiveUp => Discarded(q, id)
                   case Superseded => Discarded(q, id), o)
  {
    hide Released, Completed, Discarded;
  }

  /** A recorded turn leaves exactly the services waiting that did not stop. */
  lemma TurnStops(s: State, id: TaskId, settleAt: int, kickOk: bool, working: set<Service>, f: TurnFaults)
    requires FirstDue(s.queue.visible, id, s.now) && TurnRecords(s, id, f)
    ensures var next := TurnSteps(s, id, settleAt, kickOk, working, f).queue.visible;
            && (id in next ==> next[id].services == s.queue.visible[id].services - working)
            && (id !in next ==> s.queue.visible[id].services - working == {})
  {
    var t := DoWorkerDecides(DoWorkerClaims(s, id, Durable), Landing(f.save), f.purged).(now := settleAt);
    var services := s.queue.visible[id].services;
    assert t.queue.visible == Leased(s.queue.visible, id, s.now) && t.worker.id == id;
    SettlingWrites(t, kickOk, services * working, Durable);
    assert services - services * working == services - working;
    hide FirstDue, DoWorkerSettles, DoWorkerDecides;
  }

  /** What the retry thread leaves of the task it claimed: after a failed decision, and while
      an uncommitted rotation may still be replayed, it is due again exactly five seconds
      later; a rotation that was superseded or never committed in time is dropped; an
      attempt is recorded only when the account shows the task's target. */
  lemma SettledMeans(t: State, kickOk: bool, stopped: set<Service>, o: Outcome)
    requires (t.worker.Decided? || t.worker.BackingOff?) && t.worker.id in t.queue.visible && !o.NotReplaced?
    ensures var q, next, id := t.queue.visible, DoWorkerSettles(t, kickOk, stopped, o).queue.visible, t.worker.id;
            if t.worker.Decided? && t.worker.seen == t.worker.task.target then
              next == Completed(q, id, kickOk, stopped, t.now).value
            else if t.worker.BackingOff? || (t.worker.seen == t.worker.task.previous && t.now < t.worker.task.expiresAt)
            then OnlyTask(q, next, id) && forall at :: Due(next[id], at) <==> at >= t.now + 5 && at >= 0
            else next == q - {id}
  {
    ReleasedMeans(t.queue.visible, t.worker.id, RETRY_DELAY_SECONDS, t.now);
    hide Released, Completed;
  }

  lemma PruneTwice(r: Receipts, now: int)
    ensures Pruned(Pruned(r, now), now) == Pruned(r, now)
  {
  }

  class Panel {
    const users: JsonFile<Accounts>
    const receipts: ReceiptStore
    const queue: Store

    ghost predicate Separate()
      reads this, receipts, queue
    {
      && users as object != receipts.file as object
      && users as object != queue.file as object
      && receipts.file as object != queue.file as object
    }

    /** The stored files as a state of the machine. */
    ghost function Snapshot(now: int, issued: nat): State
      reads this, users, receipts, receipts.file, queue, queue.file
    {
      Start.(now := now, issued := issued, users := users.Contents(),
             receipts := receipts.Contents(), queue := queue.Contents())
    }

    constructor (users: JsonFile<Accounts>, receipts: ReceiptStore, queue: Store)
      ensures this.users == users && this.receipts == receipts && this.queue == queue
    {
      this.users, this.receipts, this.queue := users, receipts, queue;
    }

    ghost predicate Shows(s: State)
      reads this, users, receipts, receipts.file, queue, queue.file
    {
      users.Contents() == s.users && receipts.Contents() == s.receipts && queue.Contents() == s.queue
    }

    /** The account shows the token, and no other account changed. */
    ghost predicate Installed(before: Accounts, user: User, token: nat)
      reads users
    {
      && user in before && user in users.visible && users.visible[user].token == token
      && users.visible == before[user := users.visible[user]]
    }

    /** The request's task is queued; a new one waits for both services and two kicks. */
    ghost predicate Armed(before: Queue, id: TaskId)
      reads queue, queue.file
    {
      && id in queue.file.visible
      && queue.file.visible == before[id := queue.file.visible[id]]
      && if id in before then queue.file.visible[id] == before[id]
         else queue.file.visible[id].services == {Xray, Tuic} && queue.file.visible[id].kickSuccesses == 0
    }

    /** A request is told a token exactly when the machine's steps tell it that one. */
    ghost predicate Answers(r: Status, t: State, id: TaskId) {
      (r.Rotated? <==> id in t.answers) && (r.Rotated? ==> r.token == t.answers[id].token)
    }

    /** End the request in a conflict and drop what it left. */
    method EndInConflict(ghost s: State, id: TaskId, f: Faults) returns (r: Status)
      requires Separate() && Shows(s) && s.section.Installing? && s.section.id == id && !MayInstall(s)
      modifies receipts.file, queue.file
      ensures Shows(StepsFromInstall(s, f)) && users.Contents() == old(users.Contents())
      ensures id !in StepsFromInstall(s, f).answers || id in s.answers
      ensures r.Conflict? ==> id !in receipts.file.visible && id !in queue.file.visible
      ensures r == if id in old(receipts.file.visible) && f.commit != NoFault then
                     Failed(WriteFailed(Landing(f.commit)))
                   else if id in old(queue.file.visible) && f.drop != NoFault then Failed(WriteFailed(Landing(f.drop)))
                   else Conflict
    {
      var dropped := receipts.Discard(id, f.commit);
      if dropped.Raised? {
        return Failed(dropped.error);
      }
      var discarded := queue.Discard(id, f.drop);
      r := if discarded.Raised? then Failed(discarded.error) else Conflict;
    }

    /** Save the accounts with the new token; a user who shows it already is saved again, for
        a fresh point of durability. */
    method SaveRotated(ghost s: State, id: TaskId, posted: nat, receipt: Receipt, revision: nat,
                       replayed: bool, now: int, f: Faults)
      returns (r: Status)
      requires Separate() && Shows(s) && s.section == Installing(id, posted, receipt, now) && s.answers == map[]
      requires id.user in users.visible && revision == s.issued + 1 && MayInstall(s)
      modifies users
      ensures Shows(StepsFromInstall(s, f)) && Answers(r, StepsFromInstall(s, f), id)
      ensures r.Rotated? ==> Installed(old(users.visible), id.user, r.token)
      ensures !r.Rotated? ==> users.Contents() == old(users.Contents())
      ensures r == if f.commit == NoFault || f.commit == DirectorySync then
                     Rotated(receipt.newToken, f.commit == DirectorySync, replayed)
                   else Failed(WriteFailed(NotReplaced))
    {
      var accounts := users.visible;
      if accounts[id.user].token != receipt.newToken {
        accounts := accounts[id.user := Account(receipt.newToken, revision)];
      }
      assert accounts == WithToken(s, id.user, receipt.newToken);
      var o := users.WriteAtomic(accounts, f.commit);
      r := if o == NotReplaced then Failed(WriteFailed(o)) else Rotated(receipt.newToken, o == Uncertain, replayed);
    }

    /** Install the new token, or end the request in a conflict. */
    method InstallOrConflict(ghost s: State, id: TaskId, posted: nat, receipt: Receipt, revision: nat,
                             replayed: bool, now: int, f: Faults)
      returns (r: Status)
      requires Separate() && Shows(s) && s.section == Installing(id, posted, receipt, now) && s.answers == map[]
      requires id.user in users.visible && revision == s.issued + 1
      modifies users, receipts.file, queue.file
      ensures Shows(StepsFromInstall(s, f)) && Answers(r, StepsFromInstall(s, f), id)
      ensures r.Rotated? ==> Installed(old(users.visible), id.user, r.token)
      ensures !r.Rotated? ==> users.Contents() == old(users.Contents())
      ensures r.Conflict? ==> id !in receipts.file.visible && id !in queue.file.visible
      ensures r.Rotated? ==> queue.Contents() == old(queue.Contents())
      ensures var current := old(users.visible)[id.user].token;
              r == if current == receipt.newToken || (current == receipt.oldToken && posted == current) then
                     if f.commit == NoFault || f.commit == DirectorySync then
                       Rotated(receipt.newToken, f.commit == DirectorySync, replayed)
                     else Failed(WriteFailed(NotReplaced))
                   else if id in old(receipts.file.visible) && f.commit != NoFault then
                     Failed(WriteFailed(Landing(f.commit)))
                   else if id in old(queue.file.visible) && f.drop != NoFault then Failed(WriteFailed(Landing(f.drop)))
                   else Conflict
    {
      hide StepsFromInstall;
      var current := users.visible[id.user].token;
      if current == receipt.newToken || (current == receipt.oldToken && posted == current) {
        r := SaveRotated(s, id, posted, receipt, revision, replayed, now, f);
      } else {
        r := EndInConflict(s, id, f);
      }
    }

    /** Write the receipt, then the revocation task, and only then users.json. */
    method PrepareAndInstall(ghost s: State, id: TaskId, session: Session, posted: nat, oldToken: nat, newToken: nat,
                             revision: nat, replayed: bool, now: int, f: Faults)
      returns (r: Status)
      requires Separate() && Shows(s) && s.now == now && s.answers == map[]
      requires s.section == WritingReceipt(id, posted, session, oldToken, newToken, replayed)
      requires id.user in users.visible && revision == s.issued + 1
      modifies users, receipts.file, queue.file
      ensures Shows(StepsFromReceipt(s, f)) && Answers(r, StepsFromReceipt(s, f), id)
      ensures r.Rotated? ==> Installed(old(users.visible), id.user, r.token) && Armed(old(queue.file.visible), id)
      ensures !r.Rotated? ==> users.Contents() == old(users.Contents())
      ensures var (filed, q) := (old(receipts.file.visible), old(queue.file.visible));
              var live := id in filed && now < filed[id].expiresAt;
              var (previous, target) := (oldToken, if live then filed[id].newToken else newToken);
              var current := old(users.visible)[id.user].token;
              r == if live && !(session in filed[id].sessions && filed[id].oldToken == oldToken) then Forbidden
                   else if !live && |Pruned(filed, now)| >= 256 then Failed(CapacityFull)
                   else if f.receipt != NoFault then Failed(WriteFailed(Landing(f.receipt)))
                   else if id in q && !(q[id].user == id.user && q[id].previous == Token(previous)
                                        && q[id].target == Token(target)) then Conflict
                   else if id !in q && |q| >= 512 then Failed(CapacityFull)
                   else if f.task != NoFault then Failed(WriteFailed(Landing(f.task)))
                   else if current == target || (current == previous && posted == current) then
                     if f.commit == NoFault || f.commit == DirectorySync then
                       Rotated(target, f.commit == DirectorySync, replayed)
                     else Failed(WriteFailed(NotReplaced))
                   else if f.commit != NoFault then Failed(WriteFailed(Landing(f.commit)))
                   else if f.drop != NoFault then Failed(WriteFailed(Landing(f.drop)))
                   else Conflict
    {
      var prepared := receipts.Prepare(id, session, oldToken, newToken, now, f.receipt);
      if prepared.Raised? {
        return if prepared.error == BindingMismatch then Forbidden else Failed(prepared.error);
      }
      ghost var s2 := DoWriteReceipt(s, Landing(f.receipt));
      hide StepsFromTask, Offered;
      r := ArmAndInstall(s2, id, posted, prepared.value, revision, replayed, now, f);
    }

    method ArmAndInstall(ghost s: State, id: TaskId, posted: nat, receipt: Receipt, revision: nat,
                         replayed: bool, now: int, f: Faults)
      returns (r: Status)
      requires Separate() && Shows(s) && s.section == ArmingRotation(id, posted, receipt, now)
      requires s.now == now && s.answers == map[]
      requires id.user in users.visible && revision == s.issued + 1 && id in receipts.file.visible
      modifies users, receipts.file, queue.file
      ensures Shows(StepsFromTask(s, f)) && Answers(r, StepsFromTask(s, f), id)
      ensures r.Rotated? ==> Installed(old(users.visible), id.user, r.token) && Armed(old(queue.file.visible), id)
      ensures !r.Rotated? ==> users.Contents() == old(users.Contents())
      ensures var q, current := old(queue.file.visible), old(users.visible)[id.user].token;
              r == if id in q && !(q[id].user == id.user && q[id].previous == Token(receipt.oldToken)
                                   && q[id].target == Token(receipt.newToken)) then Conflict
                   else if id !in q && |q| >= 512 then Failed(CapacityFull)
                   else if f.task != NoFault then Failed(WriteFailed(Landing(f.task)))
                   else if current == receipt.newToken || (current == receipt.oldToken && posted == current) then
                     if f.commit == NoFault || f.commit == DirectorySync then
                       Rotated(receipt.newToken, f.commit == DirectorySync, replayed)
                     else Failed(WriteFailed(NotReplaced))
                   else if f.commit != NoFault then Failed(WriteFailed(Landing(f.commit)))
                   else if f.drop != NoFault then Failed(WriteFailed(Landing(f.drop)))
                   else Conflict
    {
      var armed := queue.Prepare(id, id.user, Token(receipt.oldToken), Token(receipt.newToken), ALL_SERVICES, now,
                                 f.task);
      if armed.Raised? {
        return if armed.error == BindingMismatch then Conflict else Failed(armed.error);
      }
      assert Armed(old(queue.file.visible), id) && id in queue.file.visible;
      ghost var s3 := DoArmTask(s, ALL_SERVICES, Landing(f.task));
      hide StepsFromInstall, Prepared, MayInstall;
      r := InstallOrConflict(s3, id, posted, receipt, revision, replayed, now, f);
    }

    /** Commit or replay one browser-bound rotation; `drawn` is the number a fresh token
        would get. */
    method RecoverableUserRotation(user: User, request: nat, session: Session, posted: nat,
                                   sessionAllows: bool, disabled: bool, expired: bool,
                                   drawn: nat, now: int, f: Faults)
      returns (r: Status)
      requires Separate() && 1 <= drawn
      modifies users, receipts.file, queue.file
      ensures var id := ForRequest(user, request);
              var s := PrunedFirst(old(Snapshot(now, drawn - 1)), f.prune);
              if Pruned(old(receipts.file.visible), now) != old(receipts.file.visible) && f.prune != NoFault then
                Shows(s)      // the lookup's own write failed
              else if user !in s.users.visible || TurnedAway(s, id, session, posted, sessionAllows, disabled,
                expired) then
                Shows(s)
              else
                var begun := DoRotate(s, user, request, session, posted);
                begun.section.WritingReceipt? && Shows(StepsFromReceipt(begun, f))
                  && Answers(r, StepsFromReceipt(begun, f), id)
      ensures r.Rotated? ==>
                && Installed(old(users.visible), user, r.token)
                && Armed(old(queue.file.visible), ForRequest(user, request))
      ensures !r.Rotated? ==> users.Contents() == old(users.Contents())
      ensures var id := ForRequest(user, request);
              var (filed, q, accounts) := (old(receipts.file.visible), old(queue.file.visible), old(users.visible));
              var live := id in filed && now < filed[id].expiresAt;
              var found := live && session in filed[id].sessions;
              r == if (exists x :: x in filed && filed[x].expiresAt <= now) && f.prune != NoFault then
                     Failed(WriteFailed(Landing(f.prune)))
                   else if user !in accounts then Forbidden
                   else if !found && (!sessionAllows || posted != accounts[user].token) then Forbidden
                   else if !found && disabled then Disabled
                   else if !found && expired then Expired
                   else if !found && live then Forbidden
                   else if !live && |Pruned(filed, now)| >= 256 then Failed(CapacityFull)
                   else if f.receipt != NoFault then Failed(WriteFailed(Landing(f.receipt)))
                   else
                     var current := accounts[user].token;
                     var previous := if found then filed[id].oldToken else current;
                     var target := if found then filed[id].newToken else drawn;
                     if id in q && !(q[id].user == user && q[id].previous == Token(previous)
                                     && q[id].target == Token(target)) then Conflict
                     else if id !in q && |q| >= 512 then Failed(CapacityFull)
                     else if f.task != NoFault then Failed(WriteFailed(Landing(f.task)))
                     else if current == target || (current == previous && posted == current) then
                       if f.commit == NoFault || f.commit == DirectorySync then
                         Rotated(target, f.commit == DirectorySync, found)
                       else Failed(WriteFailed(NotReplaced))
                     else if f.commit != NoFault then Failed(WriteFailed(Landing(f.commit)))
                     else if f.drop != NoFault then Failed(WriteFailed(Landing(f.drop)))
                     else Conflict
    {
      hide StepsFromReceipt;
      ghost var s := PrunedFirst(Snapshot(now, drawn - 1), f.prune);
      var id := ForRequest(user, request);
      PruneTwice(receipts.file.visible, now);
      var found := receipts.LookupBound(id, session, now, f.prune);
      if found.Raised? {
        return Failed(found.error);
      }
      if user !in users.visible {
        return Forbidden;
      }
      var cfg := users.visible[user];
      if found.value.None? {
        // A concurrent copy of the request may have prepared the receipt meanwhile.
        found := receipts.LookupBound(id, session, now, NoFault);
      }
      if found.value.None? {
        if !sessionAllows || posted != cfg.token {
          return Forbidden;
        }
        if disabled {
          return Disabled;
        }
        if expired {
          return Expired;
        }
        r := PrepareAndInstall(DoRotate(s, user, request, session, posted), id, session, posted,
                               cfg.token, drawn, drawn + 1, false, now, f);
      } else {
        r := PrepareAndInstall(DoRotate(s, user, request, session, posted), id, session, posted,
                               found.value.value.oldToken, found.value.value.newToken, drawn, true, now, f);
      }
    }

    /** The locked part of the turn: the generation in force, or None when the redone
        deletion could not be saved or its history not purged. */
    method DecideClaim(ghost s: State, id: TaskId, task: Task, save: Fault, purged: bool)
      returns (seen: Option<Generation>)
      requires Separate() && Shows(s) && s.worker == Claimed(id, task)
      modifies users
      ensures var t := DoWorkerDecides(s, Landing(save), purged);
              && Shows(t)
              && t.worker == if seen.Some? then Decided(id, task, seen.value, s.now) else BackingOff(id)
    {
      if !task.target.Deleted? {
        return Some(Token(if task.user in users.visible then users.visible[task.user].token else 0));
      }
      var superseded := task.user in users.visible && Revision(users.visible[task.user].revision) != task.previous;
      if !superseded {
        var o := users.WriteAtomic(users.visible - {task.user}, save);
        if o != Durable || !purged {
          return None;
        }
      }
      seen := Some(Deleted);
    }

    /** The rest of the turn, outside the lock. */
    method SettleClaim(ghost t: State, id: TaskId, task: Task, seen: Option<Generation>, kickOk: bool,
                       stopped: set<Service>, now: int, fault: Fault)
      returns (recorded: bool)
      requires Separate() && Shows(t) && t.now == now
      requires seen.None? ==> t.worker == BackingOff(id)
      requires seen.Some? ==>
                 t.worker.Decided? && t.worker.id == id && t.worker.task == task && t.worker.seen == seen.value
      modifies queue.file
      ensures Shows(DoWorkerSettles(t, kickOk, stopped, Landing(fault)))
      ensures recorded <==>
                seen == Some(task.target) && (id in t.queue.visible ==> fault == NoFault)
    {
      SettlingWrites(t, kickOk, stopped, Landing(fault));
      hide Released, Completed, Discarded, DoWorkerSettles;
      if seen.None? {
        var _ := queue.ReleaseClaim(id, RETRY_DELAY_SECONDS, now, fault);
        return false;
      }
      if seen.value != task.target {
        if seen.value == task.previous && now < task.expiresAt {
          var _ := queue.ReleaseClaim(id, RETRY_DELAY_SECONDS, now, fault);
        } else {
          var _ := queue.Discard(id, fault);
        }
        return false;
      }
      var done := queue.CompleteAttempt(id, kickOk, stopped, now, fault);
      recorded := !done.Raised?;
    }

    /** `_process_one_revocation_task`: true once an attempt was recorded. */
    method ProcessOneRevocationTask(claimAt: int, settleAt: int, kickOk: bool, working: set<Service>, f: TurnFaults)
      returns (recorded: bool)
      requires Separate()
      modifies users, queue.file
      ensures var s := old(Snapshot(claimAt, 0));
              if exists id: TaskId :: id in s.queue.visible && Due(s.queue.visible[id], claimAt) then
                exists id: TaskId :: FirstDue(s.queue.visible, id, claimAt)
                  && Shows(TurnSteps(s, id, settleAt, kickOk, working, f))
                  && (recorded <==> TurnRecords(s, id, f))
              else
                !recorded && Shows(s)
    {
      ghost var s := Snapshot(claimAt, 0);
      var claimed := queue.ClaimDue(claimAt, f.claim);
      if claimed.Raised? || claimed.value.None? {
        return false;
      }
      ghost var s1 := DoWorkerClaims(s, claimed.value.value, Landing(f.claim));
      var id, task := claimed.value.value, queue.file.visible[claimed.value.value];
      var seen := DecideClaim(s1, id, task, f.save, f.purged);
      recorded := SettleClaim(DoWorkerDecides(s1, Landing(f.save), f.purged).(now := settleAt), id, task, seen, kickOk,
                              task.services * working, settleAt, f.settle);
    }
  }
}
