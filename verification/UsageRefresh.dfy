/** Refreshing and resetting one user's counters (hysteria/subscription_service.py) against
    the server's raw total of the cycle (hysteria/usage_dashboard.py). */
module UsageRefresh {
  import opened StateStore
  import opened BillingCycle
  import opened UsageLedger

  /** Bytes banked for a user by refreshes; a plain stored count has no directions. */
  datatype Banked = Banked(tx: nat, rx: nat, total: nat)

  /** Banked bytes per cycle, keyed by the cycle's first day. */
  type Preserved = map<int, map<User, Banked>>

  /* ---- Sums over maps ---- */

  ghost function Sum(m: map<User, nat>): nat {
    if m == map[] then 0
    else
      var u :| u in m;
      m[u] + Sum(m - {u})
  }

  lemma {:induction false} SumRemove(m: map<User, nat>, u: User)
    requires u in m
    ensures Sum(m) == m[u] + Sum(m - {u})
    decreases |m|
  {
    var x :| x in m && Sum(m) == m[x] + Sum(m - {x});
    if x != u {
      SumRemove(m - {x}, u);
      SumRemove(m - {u}, x);
      assert m - {x} - {u} == m - {u} - {x};
    }
  }

  lemma SumUpdate(m: map<User, nat>, u: User, n: nat)
    ensures Sum(m[u := n]) == Sum(m - {u}) + n
    ensures u !in m ==> m - {u} == m
  {
    SumRemove(m[u := n], u);
    assert m[u := n] - {u} == m - {u};
  }

  ghost function DayTotals(day: map<User, Entry>): map<User, nat>
    requires forall u | u in day :: ValidEntry(day[u])
  {
    map u | u in day :: EntryTotal(day[u])
  }

  ghost function DayTotal(l: Ledger, d: int): nat
    requires ValidLedger(l)
  {
    if d in l then Sum(DayTotals(l[d])) else 0
  }

  ghost function DaysTotal(l: Ledger, days: seq<int>): nat
    requires ValidLedger(l)
  {
    if days == [] then 0 else DaysTotal(l, days[..|days| - 1]) + DayTotal(l, days[|days| - 1])
  }

  ghost function BankedTotal(p: Preserved, start: int): nat {
    if start in p then Sum(map u | u in p[start] :: p[start][u].total) else 0
  }

  /** The server's raw total of the cycle: every user's cycle bytes and the banked ones. */
  ghost function ServerTotal(l: Ledger, p: Preserved, start: int, days: seq<int>): nat
    requires ValidLedger(l)
  {
    DaysTotal(l, days) + BankedTotal(p, start)
  }

  /* ---- What the calls write ---- */

  function ZeroedDay(day: map<User, Entry>, u: User): map<User, Entry> {
    if u in day then day[u := Normalized(0, 0)] else day
  }

  function Zeroed(l: Ledger, u: User, days: seq<int>): Ledger {
    map d | d in l :: if d in days then ZeroedDay(l[d], u) else l[d]
  }

  function WithBanked(p: Preserved, start: int, u: User, tx: nat, rx: nat, total: nat): Option<Preserved> {
    if total == 0 then None else
    var bucket: map<User, Banked> := if start in p then p[start] else map[];
    var cur := if u in bucket then bucket[u] else Banked(0, 0, 0);
    var q: Preserved := p[start := bucket[u := Banked(cur.tx + tx, cur.rx + rx, cur.total + total)]];
    Some(map k | k in q && k >= start :: q[k])
  }

  lemma NothingToZero(l: Ledger, u: User, days: seq<int>)
    requires forall d | d in l && d in days :: u !in l[d]
    ensures Zeroed(l, u, days) == l
  {
    assert forall d | d in l :: Zeroed(l, u, days)[d] == l[d];
  }

  lemma DayTotalZeroed(day: map<User, Entry>, u: User)
    requires forall x | x in day :: ValidEntry(day[x])
    ensures Sum(DayTotals(ZeroedDay(day, u))) + (if u in day then EntryTotal(day[u]) else 0) == Sum(DayTotals(day))
  {
    if u in day {
      var totals := DayTotals(day);
      SumRemove(totals, u);
      SumUpdate(totals, u, 0);
      assert DayTotals(ZeroedDay(day, u)) == totals[u := 0];
    }
  }

  lemma DayZeroed(l: Ledger, u: User, days: seq<int>, d: int)
    requires ValidLedger(l) && ValidLedger(Zeroed(l, u, days)) && d in days
    ensures DayTotal(Zeroed(l, u, days), d) + Amount(l, d, u) == DayTotal(l, d)
    ensures Amount(Zeroed(l, u, days), d, u) == 0
  {
    if d in l {
      DayTotalZeroed(l[d], u);
    }
    hide Sum, DayTotals;
  }

  /** Zeroing a user takes exactly that user's bytes off the days, and leaves the user none. */
  lemma {:induction false} DaysZeroed(l: Ledger, u: User, days: seq<int>, part: seq<int>)
    requires ValidLedger(l) && forall d | d in part :: d in days
    ensures ValidLedger(Zeroed(l, u, days))
    ensures DaysTotal(Zeroed(l, u, days), part) + Used(l, u, part) == DaysTotal(l, part)
    ensures Used(Zeroed(l, u, days), u, part) == 0
  {
    if part == [] {
    } else {
      DaysZeroed(l, u, days, part[..|part| - 1]);
      DayZeroed(l, u, days, part[|part| - 1]);
    }
  }

  lemma BankedGrows(p: Preserved, start: int, u: User, tx: nat, rx: nat, total: nat)
    requires total > 0
    ensures BankedTotal(WithBanked(p, start, u, tx, rx, total).value, start) == BankedTotal(p, start) + total
  {
    var bucket: map<User, Banked> := if start in p then p[start] else map[];
    var cur := if u in bucket then bucket[u] else Banked(0, 0, 0);
    var totals := map x: User | x in bucket :: bucket[x].total;
    var q: Preserved := WithBanked(p, start, u, tx, rx, total).value;
    assert BankedTotal(p, start) == Sum(totals) by { assert start !in p ==> totals == map[]; }
    assert q[start] == bucket[u := Banked(cur.tx + tx, cur.rx + rx, cur.total + total)];
    assert (map x: User | x in q[start] :: q[start][x].total) == totals[u := cur.total + total];
    SumUpdate(totals, u, cur.total + total);
    if u in bucket {
      SumRemove(totals, u);
    }
  }

  /** Banking adds to this user's bytes of this cycle, each direction to its own; other users
      keep theirs, later cycles stay, and earlier ones go. */
  lemma BankedExactly(p: Preserved, start: int, u: User, tx: nat, rx: nat, total: nat)
    ensures var w := WithBanked(p, start, u, tx, rx, total);
            && (w.Some? <==> total > 0)
            && (w.Some? ==>
                  && (forall k :: k in w.value <==> k == start || (k in p && k > start))
                  && (forall k | k in p && k > start :: w.value[k] == p[k])
                  && (forall x :: x in w.value[start] <==> x == u || (start in p && x in p[start]))
                  && (forall x | start in p && x in p[start] && x != u :: w.value[start][x] == p[start][x])
                  && w.value[start][u] ==
                     if start in p && u in p[start] then
                       Banked(p[start][u].tx + tx, p[start][u].rx + rx, p[start][u].total + total)
                     else Banked(tx, rx, total))
  {
  }

  /** Nobody else's entry and no day outside the cycle changes. */
  lemma OthersUntouched(l: Ledger, u: User, days: seq<int>, d: int, x: User)
    requires ValidLedger(l) && ValidLedger(Zeroed(l, u, days)) && (x != u || d !in days)
    ensures Amount(Zeroed(l, u, days), d, x) == Amount(l, d, x)
  {
  }

  /** A completed refresh keeps the server's total and a completed reset lowers it by exactly
      the user's bytes; afterwards the user has none left. */
  lemma RefreshConserves(l: Ledger, p: Preserved, u: User, tx: nat, rx: nat, start: int, days: seq<int>)
    requires ValidLedger(l)
    ensures ValidLedger(Zeroed(l, u, days)) && Used(Zeroed(l, u, days), u, days) == 0
    ensures ServerTotal(Zeroed(l, u, days), p, start, days) == ServerTotal(l, p, start, days) - Used(l, u, days)
    ensures var q := WithBanked(p, start, u, tx, rx, Used(l, u, days));
            ServerTotal(Zeroed(l, u, days), if q.Some? then q.value else p, start, days) == ServerTotal(l, p, start,
              days)
  {
    DaysZeroed(l, u, days, days);
    if Used(l, u, days) > 0 {
      BankedGrows(p, start, u, tx, rx, Used(l, u, days));
    }
    hide DaysTotal, BankedTotal, WithBanked, Used, Zeroed, ValidLedger;
  }

  /* ---- The loops ---- */

  /** The bytes in one direction over these days. A plain count has no direction. */
  function Sent(l: Ledger, u: User, days: seq<int>): nat
    requires ValidLedger(l)
  {
    if days == [] then 0 else Sent(l, u, days[..|days| - 1]) + Upload(l, days[|days| - 1], u)
  }

  function Received(l: Ledger, u: User, days: seq<int>): nat
    requires ValidLedger(l)
  {
    if days == [] then 0
    else
      var d := days[|days| - 1];
      Received(l, u, days[..|days| - 1]) + (if d in l && u in l[d] && l[d][u].Split? then Download(l, d, u) else 0)
  }

  /** Where no plain counts are stored, the two directions make up the total. */
  lemma {:induction false} DirectionsMakeTotal(l: Ledger, u: User, days: seq<int>)
    requires ValidLedger(l) && forall d | d in days && d in l && u in l[d] :: l[d][u].Split?
    ensures Sent(l, u, days) + Received(l, u, days) == Used(l, u, days)
  {
    if days == [] {
    } else {
      DirectionsMakeTotal(l, u, days[..|days| - 1]);
    }
  }

  /** `_cycle_raw_for_user`: both directions and the total over the cycle's days. A plain
      count adds to the total only. */
  method CycleRawForUser(l: Ledger, u: User, days: seq<int>) returns (tx: nat, rx: nat, total: nat)
    requires ValidLedger(l)
    ensures total == Used(l, u, days) && tx == Sent(l, u, days) && rx == Received(l, u, days)
    ensures tx + rx <= total
  {
    tx, rx, total := 0, 0, 0;
    for i := 0 to |days|
      invariant total == Used(l, u, days[..i]) && tx + rx <= total
      invariant tx == Sent(l, u, days[..i]) && rx == Received(l, u, days[..i])
    {
      assert days[..i + 1][..i] == days[..i];
      var d := days[i];
      if d in l && u in l[d] {
        if l[d][u].Split? {
          tx := tx + Field(l[d][u].tx, 0).value;
          rx := rx + Field(l[d][u].rx, 0).value;
        }
        total := total + EntryTotal(l[d][u]);
      }
    }
    assert days[..|days|] == days;
  }

  /** The daily half of `_zero_cycle_daily_hourly_for`, and whether there was anything to zero. */
  method ZeroCycleDaily(l: Ledger, u: User, days: seq<int>) returns (next: Ledger, changed: bool)
    ensures next == Zeroed(l, u, days)
    ensures changed <==> exists d | d in l :: d in days && u in l[d]
  {
    next, changed := l, false;
    var rest: set<int> := l.Keys;
    while rest != {}
      invariant rest <= l.Keys
      invariant next == map d | d in l :: if d in days && d !in rest then ZeroedDay(l[d], u) else l[d]
      invariant changed ==> exists d | d in l :: d in days && u in l[d]
      invariant !changed ==> forall d | d in l && d !in rest :: d in days ==> u !in l[d]
    {
      assert (forall d: int :: d !in rest) ==> rest == {};
      var d: int :| d in rest;
      if d in days && u in next[d] {
        next := next[d := ZeroedDay(next[d], u)];
        changed := true;
      }
      rest := rest - {d};
    }
  }

  class UsageStore {
    const daily: JsonFile<Ledger>
    const preserved: JsonFile<Preserved>
    const summary: JsonFile<Ledger>   // usage.json, the older cycle summary

    constructor (daily: JsonFile<Ledger>, preserved: JsonFile<Preserved>, summary: JsonFile<Ledger>)
      ensures this.daily == daily && this.preserved == preserved && this.summary == summary
    {
      this.daily, this.preserved, this.summary := daily, preserved, summary;
    }

    ghost predicate Separate()
      reads this
    {
      daily as object != preserved as object && daily as object != summary as object
      && preserved as object != summary as object
    }

    /** The sweep of `add_preserved_for_user`: earlier cycles go. */
    static method SweepEarlier(whole: Preserved, start: int) returns (data: Preserved)
      ensures data == map k | k in whole && k >= start :: whole[k]
    {
      data := whole;
      var rest: set<int> := whole.Keys;
      while rest != {}
        invariant rest <= whole.Keys
        invariant data == map k | k in whole && (k in rest || k >= start) :: whole[k]
      {
        assert (forall k: int :: k !in rest) ==> rest == {};
        var k: int :| k in rest;
        if k < start {
          data := data - {k};
        }
        rest := rest - {k};
      }
    }

    /** `add_preserved_for_user`. */
    method AddPreserved(u: User, tx: nat, rx: nat, total: nat, start: int, fault: Fault) returns (ok: bool)
      modifies preserved
      ensures preserved.Contents() ==
              old(preserved.Contents()).WriteIf(WithBanked(old(preserved.visible), start, u, tx, rx, total),
                Landing(fault))
      ensures ok <==> total == 0 || fault == NoFault
    {
      if total == 0 {
        return true;
      }
      var data := preserved.visible;
      var bucket: map<User, Banked> := if start in data then data[start] else map[];
      var cur := if u in bucket then bucket[u] else Banked(0, 0, 0);
      data := SweepEarlier(data[start := bucket[u := Banked(cur.tx + tx, cur.rx + rx, cur.total + total)]], start);
      assert Some(data) == WithBanked(preserved.visible, start, u, tx, rx, total);
      var o := preserved.WriteAtomic(data, fault);
      ok := o == Durable;
    }

    /** The part both handlers share: clear the old summary, then zero the days. */
    method ClearAndZero(u: User, days: seq<int>, cleared: Ledger, clear: Fault, zero: Fault) returns (ok: bool)
      requires Separate()
      modifies daily, summary
      ensures daily.visible == if clear == NoFault && Landing(zero) != NotReplaced then Zeroed(old(daily.visible),
              u, days)
                               else old(daily.visible)
      ensures ok ==> daily.visible == Zeroed(old(daily.visible), u, days)
      ensures clear == NoFault && zero == NoFault ==> ok
    {
      var o := summary.WriteAtomic(cleared, clear);
      if o != Durable {
        return false;
      }
      var next, changed := ZeroCycleDaily(daily.visible, u, days);
      ok := true;
      if changed {
        o := daily.WriteAtomic(next, zero);
        ok := o == Durable;
      } else {
        NothingToZero(daily.visible, u, days);
      }
    }

    /** The saves of `/admin/refresh-usage` in their order: bank, clear the old summary,
        zero the days. The server's total is off, by the user's bytes too many, exactly when
        the bytes were banked and the days were not zeroed. */
    method RefreshUsage(u: User, start: int, days: seq<int>, cleared: Ledger, bank: Fault, clear: Fault, zero: Fault)
      returns (ok: bool)
      requires Separate() && ValidLedger(daily.visible)
      modifies daily, preserved, summary
      ensures var l := old(daily.visible);
              var used := Used(l, u, days);
              var banked := used > 0 && Landing(bank) != NotReplaced;
              var zeroed := (used == 0 || bank == NoFault) && clear == NoFault && Landing(zero) != NotReplaced;
              && daily.visible == (if zeroed then Zeroed(l, u, days) else l)
              && ValidLedger(daily.visible)
              && ServerTotal(daily.visible, preserved.visible, start, days) ==
                 ServerTotal(l, old(preserved.visible), start, days) + (if banked && !zeroed then used else 0)
      ensures preserved.Contents() ==
              old(preserved.Contents()).WriteIf(
                WithBanked(old(preserved.visible), start, u, Sent(old(daily.visible), u, days),
                           Received(old(daily.visible), u, days), Used(old(daily.visible), u, days)), Landing(bank))
      ensures ok ==> Used(daily.visible, u, days) == 0
      ensures bank == NoFault && clear == NoFault && zero == NoFault ==> ok
    {
      hide DaysTotal, BankedTotal, WithBanked, Used, Zeroed, ValidLedger, Sent, Received;
      ghost var l, p := daily.visible, preserved.visible;
      var tx, rx, total := CycleRawForUser(daily.visible, u, days);
      RefreshConserves(l, p, u, tx, rx, start, days);
      if total > 0 {
        BankedGrows(p, start, u, tx, rx, total);
      }
      ok := AddPreserved(u, tx, rx, total, start, bank);
      if ok {
        ok := ClearAndZero(u, days, cleared, clear, zero);
      }
    }

    /** The saves of `/admin/reset-usage`. */
    method ResetUsage(u: User, start: int, days: seq<int>, cleared: Ledger, clear: Fault, zero: Fault)
      returns (ok: bool)
      requires Separate() && ValidLedger(daily.visible)
      modifies daily, summary
      ensures var l := old(daily.visible);
              var zeroed := clear == NoFault && Landing(zero) != NotReplaced;
              && daily.visible == (if zeroed then Zeroed(l, u, days) else l)
              && ValidLedger(daily.visible)
              && ServerTotal(daily.visible, preserved.visible, start, days) ==
                 ServerTotal(l, preserved.visible, start, days) - (if zeroed then Used(l, u, days) else 0)
      ensures ok ==> Used(daily.visible, u, days) == 0
      ensures clear == NoFault && zero == NoFault ==> ok
    {
      hide DaysTotal, BankedTotal, WithBanked, Used, Zeroed, ValidLedger;
      RefreshConserves(daily.visible, preserved.visible, u, 0, 0, start, days);
      ok := ClearAndZero(u, days, cleared, clear, zero);
    }
  }
}
