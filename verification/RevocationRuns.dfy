/** What the retry queue guarantees over whole runs of its operations. */
module RevocationRuns {
  import opened StateStore
  import opened RevocationQueue

  datatype Op =
    | Prepare(id: TaskId, user: User, previous: Generation, target: Generation,
              services: set<Service>, now: int)
    | Add(id: TaskId, services: set<Service>, now: int)
    | Claim(now: int)
    | Release(id: TaskId, delay: int, now: int)
    | Complete(id: TaskId, kickOk: bool, stopped: set<Service>, now: int)
    | Discard(id: TaskId)

  /** The task `claim_due` leases, if one is due. */
  ghost function Picked(q: Queue, now: int): (r: Option<TaskId>)
    ensures r.Some? ==> FirstDue(q, r.value, now)
    ensures r.None? <==> forall id | id in q :: !Due(q[id], now)
  {
    if exists id: TaskId :: id in q && Due(q[id], now) then
      FirstDueExists(q, q.Keys, now);
      var id: TaskId :| FirstDue(q, id, now);
      Some(id)
    else None
  }

  lemma {:induction false} FirstDueAmong(q: Queue, ids: set<TaskId>, now: int) returns (best: TaskId)
    requires ids <= q.Keys && exists id :: id in ids && Due(q[id], now)
    ensures best in ids && Due(q[best], now)
    ensures forall id | id in ids && id != best && Due(q[id], now) :: RanksBefore(q, best, id)
    decreases ids
  {
    var id :| id in ids && Due(q[id], now);
    var rest := ids - {id};
    if exists other :: other in rest && Due(q[other], now) {
      best := FirstDueAmong(q, rest, now);
      if RanksBefore(q, id, best) {
        best := id;
      }
    } else {
      best := id;
    }
  }

  lemma FirstDueExists(q: Queue, ids: set<TaskId>, now: int)
    requires ids == q.Keys && exists id :: id in q && Due(q[id], now)
    ensures exists id: TaskId :: FirstDue(q, id, now)
  {
    var best := FirstDueAmong(q, ids, now);
    assert FirstDue(q, best, now);
  }

  /** What an operation saves; None when it leaves the file alone. */
  ghost function Written(q: Queue, op: Op): Option<Queue> {
    match op
    case Prepare(id, user, previous, target, services, now) =>
      var p := Prepared(q, id, user, previous, target, services, now);
      if p.Done? then Some(p.value) else None
    case Add(id, services, now) => WithServices(q, id, services, now)
    case Claim(now) => if Picked(q, now).Some? then Some(Leased(q, Picked(q, now).value, now)) else None
    case Release(id, delay, now) => Released(q, id, delay, now)
    case Complete(id, kickOk, stopped, now) => Completed(q, id, kickOk, stopped, now)
    case Discard(id) => Discarded(q, id)
  }

  /** The visible queue after an operation whose save took effect. */
  ghost function Step(q: Queue, op: Op): Queue { OrSame(Written(q, op), q) }

  function OrSame(w: Option<Queue>, q: Queue): Queue {
    if w.Some? then w.value else q
  }

  ghost function Run(ops: seq<Op>): Queue {
    if ops == [] then map[] else Step(Run(ops[..|ops| - 1]), ops[|ops| - 1])
  }

  ghost predicate ClocksPositive(ops: seq<Op>) {
    forall i | 0 <= i < |ops| && ops[i].Prepare? :: 0 < ops[i].now
  }

  /* ---- Every written state can be loaded again and is bounded. ---- */

  lemma StepLoadable(q: Queue, op: Op)
    requires Loadable(q) && (op.Prepare? ==> 0 < op.now)
    ensures Loadable(Step(q, op))
  {
  }

  lemma {:induction false} EveryRunLoadable(ops: seq<Op>)
    requires ClocksPositive(ops)
    ensures Loadable(Run(ops)) && |Run(ops)| <= TASK_MAX_ENTRIES
  {
    if ops == [] {
    } else {
      EveryRunLoadable(ops[..|ops| - 1]);
      StepLoadable(Run(ops[..|ops| - 1]), ops[|ops| - 1]);
      SizeOfStep(Run(ops[..|ops| - 1]), ops[|ops| - 1]);
    }
  }

  lemma SizeOfStep(q: Queue, op: Op)
    ensures |Step(q, op)| <= |q| || (op.Prepare? && |q| < TASK_MAX_ENTRIES && |Step(q, op)| == |q| + 1)
  {
  }

  /* ---- Failing saves and power losses. ---- */

  /** An operation with the outcome of its save, or a power loss that brings a version back. */
  datatype Event = Does(op: Op, o: Outcome) | PowerFails(shown: Queue)

  ghost predicate Possible(d: Disk<Queue>, e: Event) { e.PowerFails? ==> e.shown in d.Versions() }

  ghost function Stored(d: Disk<Queue>, e: Event): Disk<Queue>
    requires Possible(d, e)
  {
    match e
    case Does(op, o) => d.WriteIf(Written(d.visible, op), o)
    case PowerFails(shown) => d.PowerLoss(shown)
  }

  ghost predicate Happens(d: Disk<Queue>, events: seq<Event>)
    decreases |events|, 0
  {
    events != [] ==>
      var before := events[..|events| - 1];
      Happens(d, before) && Possible(After(d, before), events[|events| - 1])
  }

  ghost function After(d: Disk<Queue>, events: seq<Event>): Disk<Queue>
    requires Happens(d, events)
    decreases |events|, 1
  {
    if events == [] then d else Stored(After(d, events[..|events| - 1]), events[|events| - 1])
  }

  const Empty: Disk<Queue> := Disk(map[], {})

  /** These operations happened in this order, and their saves replaced the file. */
  ghost predicate Within(ops: seq<Op>, events: seq<Event>)
    decreases |events|
  {
    || ops == []
    || (events != [] &&
        var before, e := events[..|events| - 1], events[|events| - 1];
        || Within(ops, before)
        || (e.Does? && !e.o.NotReplaced? && ops[|ops| - 1] == e.op && Within(ops[..|ops| - 1], before)))
  }

  lemma {:induction false} WithinHappened(ops: seq<Op>, events: seq<Event>, op: Op)
    requires Within(ops, events) && op in ops
    ensures exists o :: Does(op, o) in events
    decreases |events|
  {
    var before := events[..|events| - 1];
    if Within(ops, before) {
      WithinHappened(ops, before, op);
    } else if op != ops[|ops| - 1] {
      WithinHappened(ops[..|ops| - 1], before, op);
    } else {
      assert Does(op, events[|events| - 1].o) in events;
    }
  }

  /** Behind every version a reader may meet, now or after a power loss, stands an
      undisturbed run of operations of this run. */
  lemma {:induction false} HistoryBehind(events: seq<Event>, q: Queue) returns (ops: seq<Op>)
    requires Happens(Empty, events) && q in After(Empty, events).Versions()
    ensures Within(ops, events) && Run(ops) == q
    decreases |events|
  {
    if events == [] {
      ops := [];
    } else {
      var before, e := events[..|events| - 1], events[|events| - 1];
      var d := After(Empty, before);
      if q in d.Versions() {
        ops := HistoryBehind(before, q);
      } else {
        var earlier := HistoryBehind(before, d.visible);
        ops := earlier + [e.op];
        assert ops[..|earlier|] == earlier;
        hide Written;
      }
    }
  }

  /** Every version of the file loads again and is bounded. */
  lemma EveryVersionLoadable(events: seq<Event>, q: Queue)
    requires Happens(Empty, events) && q in After(Empty, events).Versions()
    requires forall e | e in events && e.Does? && e.op.Prepare? :: 0 < e.op.now
    ensures Loadable(q) && |q| <= TASK_MAX_ENTRIES
  {
    var ops := HistoryBehind(events, q);
    forall i | 0 <= i < |ops| && ops[i].Prepare?
      ensures 0 < ops[i].now
    {
      WithinHappened(ops, events, ops[i]);
    }
    EveryRunLoadable(ops);
  }

  /* ---- Exact retirement. ---- */

  /** What was asked of one task since it was armed. */
  datatype Entry = Wanted(services: set<Service>) | Attempt(kickOk: bool, stopped: set<Service>)

  /** How one operation extends the record kept for task `id`. */
  function Logged(q: Queue, log: seq<Entry>, op: Op, id: TaskId): seq<Entry> {
    match op
    case Prepare(other, _, _, _, services, _) =>
      if other == id && id !in q then [Wanted(services)] else log
    case Add(other, services, _) =>
      if other == id && id in q then log + [Wanted(services)] else log
    case Complete(other, kickOk, stopped, _) =>
      if other == id && id in q then log + [Attempt(kickOk, stopped)] else log
    case _ => log
  }

  ghost function Log(ops: seq<Op>, id: TaskId): seq<Entry> {
    if ops == [] then []
    else
      var before := ops[..|ops| - 1];
      Logged(Run(before), Log(before, id), ops[|ops| - 1], id)
  }

  function Attempts(log: seq<Entry>): (a: seq<Entry>)
    ensures forall e | e in a :: e.Attempt?
  {
    if log == [] then []
    else
      var last, before := log[|log| - 1], log[..|log| - 1];
      if last.Attempt? then Attempts(before) + [last] else Attempts(before)
  }

  /** The last two recorded attempts both kicked successfully. */
  predicate LastTwoKicked(log: seq<Entry>) {
    var a := Attempts(log);
    |a| >= 2 && a[|a| - 1].kickOk && a[|a| - 2].kickOk
  }

  /** After the last request to handle `s`, some attempt recorded its stop. */
  ghost predicate StoppedSinceWanted(log: seq<Entry>, s: Service) {
    forall i | 0 <= i < |log| && log[i].Wanted? && s in log[i].services ::
      exists j :: i < j < |log| && log[j].Attempt? && s in log[j].stopped
  }

  /** Successful kicks since the last failed one, counted up to two. */
  function Streak(log: seq<Entry>): (n: int)
    ensures 0 <= n <= 2
  {
    if log == [] then 0
    else
      var last, before := log[|log| - 1], log[..|log| - 1];
      if last.Wanted? then Streak(before)
      else if last.kickOk then Min(2, Streak(before) + 1)
      else 0
  }

  function Pending(log: seq<Entry>): set<Service> {
    if log == [] then {}
    else
      var last, before := log[|log| - 1], log[..|log| - 1];
      if last.Wanted? then Pending(before) + last.services else Pending(before) - last.stopped
  }

  lemma {:induction false} StreakMeans(log: seq<Entry>)
    ensures Streak(log) == 2 <==> LastTwoKicked(log)
    ensures Streak(log) == 0 <==> Attempts(log) == [] || !Attempts(log)[|Attempts(log)| - 1].kickOk
  {
    if log == [] {
    } else {
      StreakMeans(log[..|log| - 1]);
    }
  }

  lemma {:induction false} PendingMeans(log: seq<Entry>, s: Service)
    ensures s in Pending(log) <==> !StoppedSinceWanted(log, s)
  {
    if log == [] {
    } else {
      var n := |log| - 1;
      var last, before := log[n], log[..n];
      PendingMeans(before, s);
      if !StoppedSinceWanted(before, s) {
        var i :| 0 <= i < n && before[i].Wanted? && s in before[i].services
          && forall j | i < j < n && before[j].Attempt? :: s !in before[j].stopped;
        if last.Attempt? && s in last.stopped {
          forall i | 0 <= i < |log| && log[i].Wanted? && s in log[i].services
            ensures exists j :: i < j < |log| && log[j].Attempt? && s in log[j].stopped
          {
          }
        }
      } else if !(last.Wanted? && s in last.services) {
        forall i | 0 <= i < |log| && log[i].Wanted? && s in log[i].services
          ensures exists j :: i < j < |log| && log[j].Attempt? && s in log[j].stopped
        {
          assert i < n && before[i] == log[i];
          var j :| i < j < n && before[j].Attempt? && s in before[j].stopped;
        }
      }
    }
  }

  ghost predicate Matches(q: Queue, log: seq<Entry>, id: TaskId) {
    id in q ==> q[id].kickSuccesses == Streak(log) && q[id].services == Pending(log)
  }

  lemma StepMatches(q: Queue, log: seq<Entry>, op: Op, id: TaskId)
    requires Matches(q, log, id)
    ensures Matches(Step(q, op), Logged(q, log, op, id), id)
  {
  }

  /** A task carries exactly the streak and the pending services its record implies. */
  lemma {:induction false} TaskMatchesLog(ops: seq<Op>, id: TaskId)
    ensures Matches(Run(ops), Log(ops, id), id)
  {
    if ops == [] {
    } else {
      var before := ops[..|ops| - 1];
      TaskMatchesLog(before, id);
      StepMatches(Run(before), Log(before, id), ops[|ops| - 1], id);
    }
  }

  /** `complete_attempt` removes a task exactly when its last two recorded attempts
      kicked successfully and every service was stopped after it was last asked for. */
  lemma ExactRetirement(ops: seq<Op>, id: TaskId, kickOk: bool, stopped: set<Service>, now: int)
    requires id in Run(ops)
    ensures var op := Complete(id, kickOk, stopped, now);
            var log := Log(ops + [op], id);
            id !in Run(ops + [op]) <==> LastTwoKicked(log) && forall s :: StoppedSinceWanted(log, s)
  {
    var op := Complete(id, kickOk, stopped, now);
    var before := Log(ops, id);
    assert (ops + [op])[..|ops|] == ops;
    var log := Log(ops + [op], id);
    assert log == before + [Attempt(kickOk, stopped)] && log[..|log| - 1] == before;
    TaskMatchesLog(ops, id);
    StreakMeans(log);
    var t := Run(ops)[id];
    forall s ensures s in t.services - stopped <==> !StoppedSinceWanted(log, s) {
      PendingMeans(log, s);
    }
    assert (t.services - stopped == {}) <==> forall s :: s !in t.services - stopped;
  }

  /** The same on storage that fails: the history is that of the version in force. */
  lemma RetirementStored(events: seq<Event>, id: TaskId, kickOk: bool, stopped: set<Service>, now: int)
    returns (ops: seq<Op>)
    requires Happens(Empty, events) && id in After(Empty, events).visible
    ensures Within(ops, events) && Run(ops) == After(Empty, events).visible
    ensures var op := Complete(id, kickOk, stopped, now);
            var log := Log(ops + [op], id);
            id !in Step(After(Empty, events).visible, op)
            <==> LastTwoKicked(log) && forall s :: StoppedSinceWanted(log, s)
  {
    ops := HistoryBehind(events, After(Empty, events).visible);
    ExactRetirement(ops, id, kickOk, stopped, now);
    assert (ops + [Complete(id, kickOk, stopped, now)])[..|ops|] == ops;
  }

  /* ---- Leases. ---- */

  predicate Settles(op: Op, id: TaskId) {
    (op.Release? || op.Complete? || op.Discard?) && op.id == id
  }

  ghost predicate HoldsLease(q: Queue, id: TaskId, since: int) {
    id in q && since + CLAIM_LEASE_SECONDS <= q[id].leaseUntil
  }

  lemma LeaseHeld(q: Queue, op: Op, id: TaskId, since: int)
    requires HoldsLease(q, id, since) && !Settles(op, id) && (op.Claim? ==> since <= op.now)
    ensures HoldsLease(Step(q, op), id, since)
  {
  }

  lemma {:induction false} LeaseStored(d: Disk<Queue>, events: seq<Event>, id: TaskId, since: int)
    requires Happens(d, events) && forall q: Queue | q in d.Versions() :: HoldsLease(q, id, since)
    requires forall e | e in events && e.Does? :: Settles(e.op, id) ==> e.o.NotReplaced?
    requires forall e | e in events && e.Does? && e.op.Claim? :: since <= e.op.now
    ensures forall q: Queue | q in After(d, events).Versions() :: HoldsLease(q, id, since)
  {
    if events == [] {
    } else {
      var before, e := events[..|events| - 1], events[|events| - 1];
      LeaseStored(d, before, id, since);
      var m := After(d, before);
      if e.Does? && !e.o.NotReplaced? {
        LeaseHeld(m.visible, e.op, id, since);
      }
      hide Written, HoldsLease;
    }
  }

  /** Two claims of one task are at least a lease apart, whatever saves fail and power is
      lost in between, unless an operation settled the task and replaced the file. */
  lemma ClaimsSpaced(d: Disk<Queue>, first: int, events: seq<Event>, second: int, id: TaskId)
    requires Picked(d.visible, first) == Some(id)
    requires var claimed := d.Write(Step(d.visible, Claim(first)), Durable);
             Happens(claimed, events) && Picked(After(claimed, events).visible, second) == Some(id)
    requires forall e | e in events && e.Does? :: Settles(e.op, id) ==> e.o.NotReplaced?
    requires forall e | e in events && e.Does? && e.op.Claim? :: first <= e.op.now
    ensures first + CLAIM_LEASE_SECONDS <= second
  {
    var claimed := d.Write(Step(d.visible, Claim(first)), Durable);
    LeaseStored(claimed, events, id, first);
    assert After(claimed, events).visible in After(claimed, events).Versions();
  }

  /* ---- Progress. ---- */

  /** One worker turn: a claim and, if it was saved, the settling of what was claimed, with
      the outcomes of both saves. */
  datatype Turn = Turn(claimAt: int, claim: Outcome, settleAt: int, settlement: Settlement, settle: Outcome)
  datatype Settlement = GaveUp(delay: int) | Tried(kickOk: bool, stopped: set<Service>) | Dropped

  ghost function SettleOf(turn: Turn, id: TaskId): Op {
    match turn.settlement
    case GaveUp(delay) => Op.Release(id, delay, turn.settleAt)
    case Tried(kickOk, stopped) => Op.Complete(id, kickOk, stopped, turn.settleAt)
    case Dropped => Op.Discard(id)
  }

  ghost function AfterTurn(q: Queue, turn: Turn): Queue {
    var picked := Picked(q, turn.claimAt);
    if picked.None? || turn.claim.NotReplaced? then q
    else
      var claimed := Step(q, Claim(turn.claimAt));
      if Works(turn) then Step(claimed, SettleOf(turn, picked.value)) else claimed
  }

  /** The claim was saved, and the settling replaced the file. */
  predicate Works(turn: Turn) { turn.claim.Durable? && !turn.settle.NotReplaced? }

  function Ahead(q: Queue, id: TaskId): set<TaskId>
    requires id in q
  {
    set other | other in q && other != id && RanksBefore(q, other, id)
  }

  /** Settling another task puts it behind every task that was already due; a turn whose
      saves fail brings no task forward. */
  lemma TurnLowersAhead(q: Queue, turn: Turn, id: TaskId)
    requires id in q && Due(q[id], turn.claimAt) && turn.claimAt <= turn.settleAt
    requires Picked(q, turn.claimAt) != Some(id)
    ensures var next := AfterTurn(q, turn);
            && id in next && next[id] == q[id]
            && Ahead(next, id) <= Ahead(q, id)
            && (Works(turn) ==> Ahead(next, id) < Ahead(q, id))
  {
    var other := Picked(q, turn.claimAt).value;
    var next := AfterTurn(q, turn);
    if Works(turn) {
      assert other in next ==> turn.claimAt < next[other].nextAttemptAt;
      assert other in Ahead(q, id) && other !in Ahead(next, id);
    }
  }

  ghost function AfterTurns(q: Queue, turns: seq<Turn>): Queue {
    if turns == [] then q else AfterTurns(AfterTurn(q, turns[0]), turns[1..])
  }

  ghost predicate NeverPicks(q: Queue, turns: seq<Turn>, id: TaskId)
    decreases |turns|
  {
    turns != [] ==>
      && Picked(q, turns[0].claimAt) != Some(id)
      && NeverPicks(AfterTurn(q, turns[0]), turns[1..], id)
  }

  function Working(turns: seq<Turn>): nat {
    if turns == [] then 0 else (if Works(turns[0]) then 1 else 0) + Working(turns[1..])
  }

  /** A due task waits for at most the tasks ranked ahead of it, so for at most
      queue size - 1 turns, not counting those whose own saves failed. */
  lemma {:induction false} DueTaskServed(q: Queue, turns: seq<Turn>, id: TaskId, now: int)
    requires id in q && Due(q[id], now)
    requires forall i | 0 <= i < |turns| :: now <= turns[i].claimAt <= turns[i].settleAt
    requires NeverPicks(q, turns, id)
    ensures Working(turns) <= |Ahead(q, id)| <= |q| - 1
  {
    SubsetSize(Ahead(q, id), q.Keys - {id});
    if turns == [] {
    } else {
      var next := AfterTurn(q, turns[0]);
      TurnLowersAhead(q, turns[0], id);
      DueTaskServed(next, turns[1..], id, now);
      if Works(turns[0]) {
        var gone :| gone in Ahead(q, id) && gone !in Ahead(next, id);
        SubsetSize(Ahead(next, id), Ahead(q, id) - {gone});
      } else {
        SubsetSize(Ahead(next, id), Ahead(q, id));
      }
    }
  }
}
