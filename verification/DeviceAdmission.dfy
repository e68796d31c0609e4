/** The device-admission ledger (hysteria/auth_backend.py): short-lived reservations
    that bridge the time until the online count shows a client just let in. */
module DeviceAdmission {
  import opened StateStore

  type User = nat

  /** `observed` is None for the list-only records of the first format. */
  datatype Record = Record(observed: Option<nat>, pending: seq<real>)

  type Ledger = map<User, Record>

  const TTL_SECONDS := 20.0

  datatype Verdict = Admitted | Refused | Unavailable

  /** The stamps that have not expired, in their order. */
  function Live(pending: seq<real>, cutoff: real): (r: seq<real>)
    ensures |r| <= |pending| && (|r| == |pending| ==> r == pending)
  {
    if pending == [] then []
    else (if pending[0] > cutoff then [pending[0]] else []) + Live(pending[1..], cutoff)
  }

  function PrunedLedger(l: Ledger, cutoff: real): Ledger {
    map user | user in l && Live(l[user].pending, cutoff) != []
      :: Record(l[user].observed, Live(l[user].pending, cutoff))
  }

  /** What the call works on: the pruned record, or a new one based on this count. */
  function Entry(l: Ledger, user: User, count: nat, reading: real): Record {
    var pruned := PrunedLedger(l, reading - TTL_SECONDS);
    if user in pruned then pruned[user] else Record(Some(count), [])
  }

  /** How far the online count rose since it was last recorded. */
  function Reflected(r: Record, count: nat): nat {
    if r.observed.Some? && count > r.observed.value then count - r.observed.value else 0
  }

  /** The reservations still waiting: the oldest ones are taken to be those now online. */
  function Waiting(l: Ledger, user: User, count: nat, reading: real): seq<real> {
    var r := Entry(l, user, count, reading);
    var k := Reflected(r, count);
    if k <= |r.pending| then r.pending[k..] else []
  }

  predicate Admits(l: Ledger, user: User, limit: int, count: nat, reading: real) {
    count + |Waiting(l, user, count, reading)| < limit
  }

  function PendingAfter(l: Ledger, user: User, limit: int, count: nat, reading: real): seq<real> {
    Waiting(l, user, count, reading) + (if Admits(l, user, limit, count, reading) then [reading] else [])
  }

  /** The ledger one admission request leaves behind. */
  function Reserved(l: Ledger, user: User, limit: int, count: nat, reading: real): Ledger {
    var pruned := PrunedLedger(l, reading - TTL_SECONDS);
    var pending := PendingAfter(l, user, limit, count, reading);
    if pending != [] then pruned[user := Record(Some(count), pending)] else pruned - {user}
  }

  /** A refusal rewrites the ledger exactly when something in it changed. */
  lemma RefusalChanges(l: Ledger, user: User, limit: int, count: nat, reading: real)
    requires !Admits(l, user, limit, count, reading)
    ensures Reserved(l, user, limit, count, reading) == l <==>
            && PrunedLedger(l, reading - TTL_SECONDS) == l
            && Reflected(Entry(l, user, count, reading), count) == 0
            && Entry(l, user, count, reading).observed == Some(count)
  {
    var cutoff := reading - TTL_SECONDS;
    var pruned := PrunedLedger(l, cutoff);
    var next := Reserved(l, user, limit, count, reading);
    if pruned != l {
      var other :| other in l && (other !in pruned || pruned[other] != l[other]);
    } else if user in pruned {
      assert user in next ==> next[user] == Record(Some(count), Waiting(l, user, count, reading));
    } else {
      assert pruned - {user} == pruned;
    }
  }

  /** The first loop of the call: every user's expired stamps go, and emptied records with them. */
  method WithoutExpired(admissions: Ledger, cutoff: real) returns (pruned: Ledger)
    ensures pruned == PrunedLedger(admissions, cutoff)
  {
    pruned := map[];
    var rest := admissions.Keys;
    while rest != {}
      invariant rest <= admissions.Keys
      invariant pruned == map u | u in PrunedLedger(admissions, cutoff)
        && u !in rest :: PrunedLedger(admissions, cutoff)[u]
    {
      var other :| other in rest;
      var pending := Live(admissions[other].pending, cutoff);
      if pending != [] {
        pruned := pruned[other := Record(admissions[other].observed, pending)];
      }
      rest := rest - {other};
    }
  }

  /** The waiting reservations once those the count now reflects are used up. */
  method StillWaiting(record: Record, count: nat) returns (pending: seq<real>, reflected: nat)
    ensures reflected == Reflected(record, count)
    ensures pending == if reflected <= |record.pending| then record.pending[reflected..] else []
  {
    var previous := if record.observed.None? then count else record.observed.value;
    pending := record.pending;
    reflected := if count > previous then count - previous else 0;
    if reflected > 0 {
      pending := pending[(if reflected < |pending| then reflected else |pending|)..];
    }
  }

  /** The decision on the loaded ledger: what it becomes, whether the client may come in,
      and whether there is anything to save. */
  method Decide(admissions: Ledger, user: User, limit: int, count: nat, reading: real)
    returns (next: Ledger, allowed: bool, changed: bool)
    ensures next == Reserved(admissions, user, limit, count, reading)
    ensures allowed == Admits(admissions, user, limit, count, reading)
    ensures changed <==> allowed || next != admissions
  {
    hide PrunedLedger, Live, Reflected;
    var pruned := WithoutExpired(admissions, reading - TTL_SECONDS);
    changed := pruned != admissions;
    var record := if user in pruned then pruned[user] else Record(Some(count), []);
    var pending, reflected := StillWaiting(record, count);
    allowed := count + |pending| < limit;
    if allowed {
      pending := pending + [reading];
    } else {
      RefusalChanges(admissions, user, limit, count, reading);
    }
    assert pending == PendingAfter(admissions, user, limit, count, reading);
    next := if pending != [] then pruned[user := Record(Some(count), pending)] else pruned - {user};
    if allowed || reflected > 0 || record.observed != Some(count) {
      changed := true;
    }
  }

  class AdmissionLedger {
    const file: JsonFile<Ledger>

    constructor (file: JsonFile<Ledger>)
      ensures this.file == file
    {
      this.file := file;
    }

    /** `reserve_device_admission`, under the ledger's lock. */
    method Reserve(user: User, limit: int, count: nat, reading: real, fault: Fault) returns (v: Verdict)
      modifies file
      ensures limit <= 0 ==> v == Unavailable && file.Contents() == old(file.Contents())
      ensures limit > 0 ==>
                var l := old(file.visible);
                var next := Reserved(l, user, limit, count, reading);
                var admits := Admits(l, user, limit, count, reading);
                var writes := admits || next != l;
                && file.Contents() == old(file.Contents()).WriteIf(if writes then Some(next) else None, Landing(fault))
                && v == (if writes && fault != NoFault then Unavailable else if admits then Admitted else Refused)
    {
      if limit <= 0 {
        return Unavailable;
      }
      var next, allowed, changed := Decide(file.visible, user, limit, count, reading);
      if changed {
        var o := file.WriteAtomic(next, fault);
        if o != Durable {
          return Unavailable;
        }
      }
      return if allowed then Admitted else Refused;
    }
  }
}
