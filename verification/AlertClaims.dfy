/** Deduplicated alert delivery (hysteria/alerts.py): claim under the lock, deliver outside
    it, and complete the claim by compare-and-swap. */
module AlertClaims {
  import opened StateStore

  datatype Kind = Quota80 | Quota100 | Anomaly | ExpirySoon | ExpiryExpired

  /** User names and dedup keys are non-empty texts compared for equality only. */
  datatype Slot = Slot(kind: Kind, user: nat)

  type Key = nat

  datatype Entry = Delivered(key: Key) | Claim(key: Key, token: nat, claimedAt: real)

  type Alerts = map<Slot, Entry>

  const CLAIM_TTL_SECONDS := 60.0

  /** A delivered key, or an unexpired claim for the same key, suppresses the send. */
  predicate Suppressed(a: Alerts, slot: Slot, key: Key, now: real, ttl: real) {
    && slot in a
    && a[slot].key == key
    && (a[slot].Delivered? || 0.0 <= now - a[slot].claimedAt < (if ttl > 0.0 then ttl else 0.0))
  }

  function Claimed(a: Alerts, slot: Slot, key: Key, token: nat, now: real, ttl: real): Option<Alerts> {
    if Suppressed(a, slot, key, now, ttl) || now < 0.0 then None
    else Some(a[slot := Claim(key, token, now)])
  }

  predicate Owns(a: Alerts, slot: Slot, key: Key, token: nat) {
    slot in a && a[slot].Claim? && a[slot].key == key && a[slot].token == token
  }

  function Finished(a: Alerts, slot: Slot, key: Key, token: nat, delivered: bool): Option<Alerts> {
    if !Owns(a, slot, key, token) then None
    else Some(if delivered then a[slot := Delivered(key)] else a - {slot})
  }

  function Cleared(a: Alerts, kinds: set<Kind>, users: set<nat>): Option<Alerts> {
    var rest := map s | s in a && !(s.kind in kinds && s.user in users) :: a[s];
    if rest == a then None else Some(rest)
  }

  /** A claim is granted unless the key was delivered or is being delivered by a claim whose
      age lies within its time to live; it takes the slot, and no other. */
  lemma ClaimedExactly(a: Alerts, slot: Slot, key: Key, token: nat, now: real, ttl: real)
    ensures var c := Claimed(a, slot, key, token, now, ttl);
            && (c.Some? <==>
                  && now >= 0.0
                  && !(slot in a && a[slot] == Delivered(key))
                  && !(slot in a && a[slot].Claim? && a[slot].key == key && 0.0 <= now - a[slot].claimedAt < ttl))
            && (c.Some? ==> c.value == a[slot := Claim(key, token, now)])
  {
  }

  /** A clear takes out exactly the entries of these users and kinds, each of which can then
      be claimed again for any key. */
  lemma ClearedExactly(a: Alerts, kinds: set<Kind>, users: set<nat>)
    ensures var c := Cleared(a, kinds, users);
            && (c.None? <==> forall s | s in a :: !(s.kind in kinds && s.user in users))
            && var rest := if c.Some? then c.value else a;
               && (forall s | s in a && !(s.kind in kinds && s.user in users) :: s in rest && rest[s] == a[s])
               && forall s: Slot, key, token, now, ttl | now >= 0.0 && s.kind in kinds && s.user in users ::
                    Claimed(rest, s, key, token, now, ttl).Some?
  {
    var rest := map s | s in a && !(s.kind in kinds && s.user in users) :: a[s];
    if forall s | s in a :: !(s.kind in kinds && s.user in users) {
      assert rest == a;
    } else {
      var s :| s in a && s.kind in kinds && s.user in users;
      assert s !in rest;
    }
  }

  /** What the transaction returned, or that saving it raised. */
  datatype Reply<+T> = Done(value: T) | Raised

  class AlertState {
    const file: JsonFile<Alerts>

    constructor (file: JsonFile<Alerts>)
      ensures this.file == file
    {
      this.file := file;
    }

    /** The save at the end of `mutate_state`. */
    method Save(next: Option<Alerts>, fault: Fault) returns (ok: bool)
      modifies file
      ensures file.Contents() == old(file.Contents()).WriteIf(next, Landing(fault))
      ensures ok <==> next.None? || fault == NoFault
    {
      ok := true;
      if next.Some? {
        var o := file.WriteAtomic(next.value, fault);
        ok := o == Durable;
      }
    }

    /** `claim_alert` with a token never used before. */
    method ClaimAlert(slot: Slot, key: Key, token: nat, now: real, ttl: real, fault: Fault)
      returns (r: Reply<Option<nat>>)
      modifies file
      ensures file.Contents() ==
              old(file.Contents()).WriteIf(Claimed(old(file.visible), slot, key, token, now, ttl), Landing(fault))
      ensures Suppressed(old(file.visible), slot, key, now, ttl) ==> r == Done(None)
      ensures !Suppressed(old(file.visible), slot, key, now, ttl) ==>
                r == if now < 0.0 || fault != NoFault then Raised else Done(Some(token))
    {
      var state := file.visible;
      if slot in state {
        var current := state[slot];
        if current == Delivered(key) {
          return Done(None);
        }
        var limit := if ttl > 0.0 then ttl else 0.0;
        if current.Claim? && current.key == key && 0.0 <= now - current.claimedAt < limit {
          return Done(None);
        }
      }
      if now < 0.0 {
        return Raised;  // the state would not validate
      }
      var ok := Save(Some(state[slot := Claim(key, token, now)]), fault);
      r := if ok then Done(Some(token)) else Raised;
    }

    /** `finish_alert_claim`. */
    method FinishAlertClaim(slot: Slot, key: Key, token: nat, delivered: bool, fault: Fault) returns (r: Reply<bool>)
      modifies file
      ensures file.Contents() ==
              old(file.Contents()).WriteIf(Finished(old(file.visible), slot, key, token, delivered), Landing(fault))
      ensures !Owns(old(file.visible), slot, key, token) ==> r == Done(false)
      ensures Owns(old(file.visible), slot, key, token) ==> r == if fault == NoFault then Done(true) else Raised
    {
      var state := file.visible;
      if slot !in state || !state[slot].Claim? || state[slot].key != key || state[slot].token != token {
        return Done(false);
      }
      state := if delivered then state[slot := Delivered(key)] else state - {slot};
      var ok := Save(Some(state), fault);
      r := if ok then Done(true) else Raised;
    }

    /** `clear_quota_dedup_transaction` and `clear_user_dedup_transaction`: pop every entry
        of these users, kind by kind. */
    method Clear(kinds: set<Kind>, users: set<nat>, fault: Fault) returns (ok: bool)
      modifies file
      ensures file.Contents() == old(file.Contents()).WriteIf(Cleared(old(file.visible), kinds, users), Landing(fault))
      ensures ok <==> Cleared(old(file.visible), kinds, users).None? || fault == NoFault
    {
      var before := file.visible;
      var state := before;
      var todo := kinds;
      while todo != {}
        invariant todo <= kinds
        invariant state == map s | s in before && !(s.kind in kinds - todo && s.user in users) :: before[s]
      {
        var kind :| kind in todo;
        var rest := users;
        ghost var start := state;
        while rest != {}
          invariant rest <= users
          invariant state == map s | s in start && !(s.kind == kind && s.user in users - rest) :: start[s]
        {
          var user :| user in rest;
          state := state - {Slot(kind, user)};
          rest := rest - {user};
        }
        todo := todo - {kind};
      }
      assert state == map s | s in before && !(s.kind in kinds && s.user in users) :: before[s];
      ok := Save(if state == before then None else Some(state), fault);
    }

    /** `dispatch_once` when nothing else happens meanwhile: at most one send per key. */
    method DispatchOnce(slot: Slot, key: Key, token: nat, now: real, attempted: set<string>, undelivered: set<string>,
                        claimed: Fault, finished: Fault) returns (sent: bool)
      modifies file
      ensures sent <==> Claimed(old(file.visible), slot, key, token, now, CLAIM_TTL_SECONDS).Some? && claimed == NoFault
      ensures sent && attempted != {} && undelivered == {} && finished == NoFault ==>
                slot in file.visible && file.visible[slot] == Delivered(key)
      ensures sent && (attempted == {} || undelivered != {}) && finished == NoFault ==> slot !in file.visible
      ensures forall s | s != slot && s in old(file.visible) ::
                s in file.visible && file.visible[s] == old(file.visible)[s]
    {
      var r := ClaimAlert(slot, key, token, now, CLAIM_TTL_SECONDS, claimed);
      if r.Raised? || r.value.None? {
        return false;
      }
      var delivered := attempted != {} && undelivered == {};
      var _ := FinishAlertClaim(slot, key, token, delivered, finished);
      sent := true;
    }
  }
}
