/** Short-lived recovery receipts of self-service rotations (hysteria/rotation_recovery.py). */
module RotationRecovery {
  import opened StateStore
  import opened RevocationQueue

  /** The digest of a browser session id. */
  type Session = nat

  /** The new UUID is drawn and installed together with the token, which stands for both. */
  datatype Receipt = Receipt(
    oldToken: nat,
    newToken: nat,
    sessions: seq<Session>,
    createdAt: int,
    expiresAt: int)

  /** Receipts are filed under the digest of user and request id. */
  type Receipts = map<TaskId, Receipt>

  const RECEIPT_TTL_SECONDS := 300
  const RECEIPT_MAX_ENTRIES := 256
  const MAX_SESSIONS := 4

  function Pruned(r: Receipts, now: int): (live: Receipts)
    ensures live.Keys <= r.Keys
    ensures forall id | id in r :: id in live <==> now < r[id].expiresAt
    ensures forall id | id in live :: live[id] == r[id]
  {
    map id | id in r && now < r[id].expiresAt :: r[id]
  }

  function LookedUp(r: Receipts, id: TaskId, session: Session, now: int): Option<Receipt> {
    var live := Pruned(r, now);
    if id in live && session in live[id].sessions then Some(live[id]) else None
  }

  /** The store to write and the receipt to use, or the error that is raised. */
  function Offered(r: Receipts, id: TaskId, session: Session, oldToken: nat, newToken: nat, now: int)
    : Reply<Receipts>
  {
    var live := Pruned(r, now);
    if id in live then
      if session in live[id].sessions && live[id].oldToken == oldToken then Done(live)
      else Raised(BindingMismatch)
    else if |live| >= RECEIPT_MAX_ENTRIES then
      Raised(CapacityFull)
    else
      Done(live[id := Receipt(oldToken, newToken, [session], now, now + RECEIPT_TTL_SECONDS)])
  }

  function LastSessions(sessions: seq<Session>): seq<Session> {
    if |sessions| <= MAX_SESSIONS then sessions else sessions[|sessions| - MAX_SESSIONS..]
  }

  function Bound(r: Receipts, id: TaskId, original: Session, replacement: Session, now: int): Option<Receipts> {
    var live := Pruned(r, now);
    if id !in live || original !in live[id].sessions then None
    else if replacement in live[id].sessions then Some(live)
    else Some(live[id := live[id].(sessions := LastSessions(live[id].sessions + [replacement]))])
  }

  function Dropped(r: Receipts, id: TaskId): Option<Receipts> {
    if id in r then Some(r - {id}) else None
  }

  /* ---- What a browser gets from them ---- */

  /** A receipt is found until it expires, by the sessions it is bound to and no other. */
  lemma LookedUpMeans(r: Receipts, id: TaskId, session: Session, now: int)
    ensures LookedUp(r, id, session, now) ==
            if id in r && now < r[id].expiresAt && session in r[id].sessions then Some(r[id]) else None
  {
  }

  /** A receipt is filed anew, bound to the session for 300 seconds, or found again by that
      session for the same old token, whose new token then stands. */
  lemma OfferedMeans(r: Receipts, id: TaskId, session: Session, oldToken: nat, newToken: nat, now: int)
    ensures var p, live := Offered(r, id, session, oldToken, newToken, now), id in r && now < r[id].expiresAt;
            && (p == Raised(BindingMismatch) <==>
                  live && !(session in r[id].sessions && r[id].oldToken == oldToken))
            && (p == Raised(CapacityFull) <==> !live && |Pruned(r, now)| >= 256)
            && (p.Done? ==>
                  && (forall at, s | at >= now :: LookedUp(p.value, id, s, at) ==
                        if live then LookedUp(r, id, s, at)
                        else if s == session && at < now + 300 then
                          Some(Receipt(oldToken, newToken, [s], now, now + 300))
                        else None)
                  && forall at, x, s | at >= now && x != id :: LookedUp(p.value, x, s, at) == LookedUp(r, x, s, at))
  {
  }

  /** A session that finds the receipt lets another find it too, with the same tokens; it
      keeps finding it itself unless four others came after it. */
  lemma BoundMeans(r: Receipts, id: TaskId, original: Session, replacement: Session, now: int)
    ensures var b := Bound(r, id, original, replacement, now);
            && (b.Some? <==> LookedUp(r, id, original, now).Some?)
            && (b.Some? ==>
                  && (var found := LookedUp(b.value, id, replacement, now);
                      found.Some? && found.value == r[id].(sessions := found.value.sessions)
                      && |found.value.sessions| <= if |r[id].sessions| < 4 then 4 else |r[id].sessions|)
                  && (forall s | |r[id].sessions| < 4 && LookedUp(r, id, s, now).Some? ::
                        LookedUp(b.value, id, s, now).Some?)
                  && (forall s | LookedUp(b.value, id, s, now).Some? ::
                        s == replacement || LookedUp(r, id, s, now).Some?)
                  && forall x, s | x != id :: LookedUp(b.value, x, s, now) == LookedUp(r, x, s, now))
    {
    if LookedUp(r, id, original, now).Some? {
      var sessions := r[id].sessions + [replacement];
      var last := LastSessions(sessions);
      assert last[|last| - 1] == replacement;
      assert forall s | s in last :: s in sessions;
      assert |sessions| <= 4 ==> last == sessions;
    }
  }

  /** A dropped receipt is found by nobody. */
  lemma DroppedMeans(r: Receipts, id: TaskId, session: Session, now: int)
    ensures Dropped(r, id).Some? <==> id in r
    ensures id in r ==> id !in Dropped(r, id).value && r == Dropped(r, id).value[id := r[id]]
  {
  }

  class ReceiptStore {
    const file: JsonFile<Receipts>

    ghost function Contents(): Disk<Receipts>
      reads this, file
    {
      file.Contents()
    }

    constructor (file: JsonFile<Receipts>)
      ensures this.file == file
    {
      this.file := file;
    }

    /** `prune_expired`: rewrite the store only when something expired. */
    method PruneExpired(now: int, fault: Fault) returns (removed: Reply<nat>)
      modifies file
      ensures var r := old(Contents()).visible;
              if Pruned(r, now) == r then Contents() == old(Contents()) && removed == Done(0)
              else Contents() == old(Contents()).Write(Pruned(r, now), Landing(fault))
    {
      var original := file.visible;
      var data := Pruned(original, now);
      if data == original {
        return Done(0);
      }
      FewerReceipts(data, original);
      var o := file.WriteAtomic(data, fault);
      removed := if o == Durable then Done(|original| - |data|) else Raised(WriteFailed(o));
    }

    /** A live receipt, but only for a browser session it is bound to. Expired receipts
        are erased on the way. */
    method LookupBound(id: TaskId, session: Session, now: int, fault: Fault)
      returns (r: Reply<Option<Receipt>>)
      modifies file
      ensures var before := old(Contents()).visible;
              if Pruned(before, now) != before && fault != NoFault then
                && Contents() == old(Contents()).Write(Pruned(before, now), Landing(fault))
                && r == Raised(WriteFailed(Landing(fault)))
              else
                && Contents() == (if Pruned(before, now) == before then old(Contents())
                                  else old(Contents()).Write(Pruned(before, now), Durable))
                && r == Done(LookedUp(before, id, session, now))
    {
      var original := file.visible;
      var data := Pruned(original, now);
      if data != original {
        var o := file.WriteAtomic(data, fault);
        if o != Durable {
          return Raised(WriteFailed(o));
        }
      }
      if id !in data {
        return Done(None);
      }
      var i := 0;
      while i < |data[id].sessions|
        invariant 0 <= i <= |data[id].sessions|
        invariant session !in data[id].sessions[..i]
      {
        if data[id].sessions[i] == session {
          return Done(Some(data[id]));
        }
        i := i + 1;
      }
      assert data[id].sessions[..i] == data[id].sessions;
      r := Done(None);
    }

    /** Create the receipt, or rewrite a live one that has the same binding. */
    method Prepare(id: TaskId, session: Session, oldToken: nat, newToken: nat, now: int, fault: Fault)
      returns (r: Reply<Receipt>)
      modifies file
      ensures var p := Offered(old(Contents()).visible, id, session, oldToken, newToken, now);
              && (p.Raised? ==> r == Raised(p.error) && Contents() == old(Contents()))
              && (p.Done? ==>
                    && Contents() == old(Contents()).Write(p.value, Landing(fault))
                    && r == if fault == NoFault then Done(p.value[id]) else Raised(WriteFailed(Landing(fault))))
    {
      var data := Pruned(file.visible, now);
      if id in data {
        if session !in data[id].sessions || data[id].oldToken != oldToken {
          return Raised(BindingMismatch);
        }
      } else {
        if |data| >= RECEIPT_MAX_ENTRIES {
          return Raised(CapacityFull);
        }
        data := data[id := Receipt(oldToken, newToken, [session], now, now + RECEIPT_TTL_SECONDS)];
      }
      var o := file.WriteAtomic(data, fault);
      r := if o == Durable then Done(data[id]) else Raised(WriteFailed(o));
    }

    method BindReplacementSession(id: TaskId, original: Session, replacement: Session, now: int, fault: Fault)
      returns (r: Reply<bool>)
      modifies file
      ensures var b := Bound(old(Contents()).visible, id, original, replacement, now);
              && Contents() == old(Contents()).WriteIf(b, Landing(fault))
              && r == if b.None? then Done(false)
                      else if fault == NoFault then Done(true)
                      else Raised(WriteFailed(Landing(fault)))
    {
      var data := Pruned(file.visible, now);
      if id !in data || original !in data[id].sessions {
        return Done(false);
      }
      if replacement !in data[id].sessions {
        var sessions := data[id].sessions + [replacement];
        if |sessions| > MAX_SESSIONS {
          sessions := sessions[|sessions| - MAX_SESSIONS..];
        }
        data := data[id := data[id].(sessions := sessions)];
      }
      var o := file.WriteAtomic(data, fault);
      r := if o == Durable then Done(true) else Raised(WriteFailed(o));
    }

    method Discard(id: TaskId, fault: Fault) returns (r: Reply<()>)
      modifies file
      ensures var w := Dropped(old(Contents()).visible, id);
              && Contents() == old(Contents()).WriteIf(w, Landing(fault))
              && r == if w.None? || fault == NoFault then Done(()) else Raised(WriteFailed(Landing(fault)))
    {
      var data := file.visible;
      if id !in data {
        return Done(());
      }
      var o := file.WriteAtomic(data - {id}, fault);
      r := if o == Durable then Done(()) else Raised(WriteFailed(o));
    }
  }

  lemma FewerReceipts(small: Receipts, large: Receipts)
    requires small.Keys <= large.Keys
    ensures |small| <= |large|
  {
    SubsetSize(small.Keys, large.Keys);
  }
}
