/** The daily usage ledger and the limiter's tick over it (hysteria/traffic_limiter.py). */
module UsageLedger {
  import opened StateStore
  import opened BillingCycle

  type User = nat

  /** A persisted count: a JSON integer, a text (surrounding blanks dropped), or anything else. */
  datatype Counter = Number(n: int) | Text(digits: string) | Other

  predicate AllDigits(s: string) {
    s != "" && forall i | 0 <= i < |s| :: '0' <= s[i] <= '9'
  }

  function Value(s: string): nat
    requires s == "" || AllDigits(s)
  {
    if s == "" then 0 else 10 * Value(s[..|s| - 1]) + ((s[|s| - 1] as int) - ('0' as int))
  }

  /** `_non_negative_integer` of the limiter and of the authentication backend. */
  function Reads(c: Counter): Option<nat> {
    match c
    case Number(n) => if n >= 0 then Some(n) else None
    case Text(s) => if AllDigits(s) then Some(Value(s)) else None
    case Other => None
  }

  /** A user's bytes of one day: the older plain count, or both directions and their sum.
      `extra` marks fields that do not belong there. */
  datatype Entry =
    | Plain(count: Counter)
    | Split(tx: Option<Counter>, rx: Option<Counter>, total: Option<Counter>, extra: bool)

  function Field(c: Option<Counter>, default: nat): Option<nat> {
    if c.None? then Some(default) else Reads(c.value)
  }

  /** `_validate_usage_entry`. */
  predicate ValidEntry(e: Entry) {
    match e
    case Plain(c) => Reads(c).Some?
    case Split(tx, rx, total, extra) =>
      && !extra && Field(tx, 0).Some? && Field(rx, 0).Some? && Field(total, 0).Some?
      && Field(total, 0).value == Field(tx, 0).value + Field(rx, 0).value
  }

  /** The bytes a valid entry counts. */
  function EntryTotal(e: Entry): nat
    requires ValidEntry(e)
  {
    match e
    case Plain(c) => Reads(c).value
    case Split(_, _, total, _) => Field(total, 0).value
  }

  type Ledger = map<int, map<User, Entry>>

  ghost predicate ValidLedger(l: Ledger) {
    forall d, u | d in l && u in l[d] :: ValidEntry(l[d][u])
  }

  function Amount(l: Ledger, d: int, u: User): nat
    requires ValidLedger(l)
  {
    if d in l && u in l[d] then EntryTotal(l[d][u]) else 0
  }

  /** `cycle_used_raw_for`. */
  function Used(l: Ledger, u: User, days: seq<int>): nat
    requires ValidLedger(l)
  {
    if days == [] then 0 else Used(l, u, days[..|days| - 1]) + Amount(l, days[|days| - 1], u)
  }

  /* ---- One tick ---- */

  /** Bytes in both directions, as collected from one source. */
  datatype Bytes = Bytes(tx: nat, rx: nat)

  type Traffic = map<User, Bytes>

  function Of(t: Traffic, u: User): Bytes { if u in t then t[u] else Bytes(0, 0) }

  /** What `accumulate_daily` leaves of one entry: always both directions and their sum. */
  function Normalized(tx: nat, rx: nat): Entry {
    Split(Some(Number(tx)), Some(Number(rx)), Some(Number(tx + rx)), false)
  }

  function SplitOf(e: Entry): Bytes
    requires ValidEntry(e)
  {
    match e
    case Plain(c) => Bytes(0, Reads(c).value)
    case Split(tx, rx, _, _) => Bytes(Field(tx, 0).value, Field(rx, 0).value)
  }

  const DAILY_RETENTION_DAYS := CYCLE_LENGTH_MAX + 2

  /** One day's entries with this traffic added. */
  function Added(day: map<User, Entry>, t: Traffic): map<User, Entry>
    requires forall u | u in day :: ValidEntry(day[u])
  {
    map u | u in day.Keys + t.Keys ::
      if u !in t then day[u]
      else if u in day then Normalized(SplitOf(day[u]).tx + t[u].tx, SplitOf(day[u]).rx + t[u].rx)
      else Normalized(t[u].tx, t[u].rx)
  }

  /** The ledger after a tick that collected this traffic today. */
  function Ticked(l: Ledger, today: int, t: Traffic): Ledger
    requires ValidLedger(l)
  {
    var more := Added(if today in l then l[today] else map[], t);
    map d | d in l.Keys + {today} && d >= today - (DAILY_RETENTION_DAYS - 1) ::
      if d == today then more else l[d]
  }

  lemma TickAmounts(l: Ledger, today: int, t: Traffic)
    requires ValidLedger(l)
    ensures ValidLedger(Ticked(l, today, t))
    ensures forall d, u | d >= today - (DAILY_RETENTION_DAYS - 1) ::
              Amount(Ticked(l, today, t), d, u) == Amount(l, d, u) + if d == today then Of(t, u).tx + Of(t, u).rx else 0
  {
  }

  /** The bytes of one direction on one day; a plain count belongs to the download. */
  function Upload(l: Ledger, d: int, u: User): nat
    requires ValidLedger(l)
  {
    if d in l && u in l[d] then SplitOf(l[d][u]).tx else 0
  }

  function Download(l: Ledger, d: int, u: User): nat
    requires ValidLedger(l)
  {
    if d in l && u in l[d] then SplitOf(l[d][u]).rx else 0
  }

  /** A tick adds each direction to its own. */
  lemma TickDirections(l: Ledger, today: int, t: Traffic)
    requires ValidLedger(l)
    ensures ValidLedger(Ticked(l, today, t))
    ensures forall d, u | d >= today - (DAILY_RETENTION_DAYS - 1) ::
              && Upload(Ticked(l, today, t), d, u) == Upload(l, d, u) + (if d == today then Of(t, u).tx else 0)
              && Download(Ticked(l, today, t), d, u) == Download(l, d, u) + (if d == today then Of(t, u).rx else 0)
  {
  }

  /** Every entry a tick touched holds both directions and their sum. */
  lemma TickKeepsSums(l: Ledger, today: int, t: Traffic, u: User)
    requires ValidLedger(l) && u in t
    ensures var next := Ticked(l, today, t);
            && today in next && u in next[today]
            && exists tx, rx: nat :: next[today][u] == Normalized(tx, rx)
  {
  }

  /* ---- The loops ---- */

  /** `merge_traffic`: add one source's counts to another's. */
  method MergeTraffic(dst: Traffic, src: Traffic) returns (merged: Traffic)
    ensures merged.Keys == dst.Keys + src.Keys
    ensures forall u | u in merged :: merged[u] == Bytes(Of(dst, u).tx + Of(src, u).tx, Of(dst, u).rx + Of(src, u).rx)
  {
    merged := dst;
    var rest := src.Keys;
    while rest != {}
      invariant rest <= src.Keys && merged.Keys == dst.Keys + (src.Keys - rest)
      invariant forall u | u in merged ::
                  merged[u] == if u in rest || u !in src then Of(dst, u)
                               else Bytes(Of(dst, u).tx + src[u].tx, Of(dst, u).rx + src[u].rx)
    {
      var u :| u in rest;
      var cur := if u in merged then merged[u] else Bytes(0, 0);
      merged := merged[u := Bytes(cur.tx + src[u].tx, cur.rx + src[u].rx)];
      rest := rest - {u};
    }
  }

  /** The traffic of the users not in `rest`. */
  function Part(t: Traffic, rest: set<User>): Traffic { map u | u in t && u !in rest :: t[u] }

  lemma AddedOneMore(day: map<User, Entry>, t: Traffic, rest: set<User>, u: User)
    requires (forall x | x in day :: ValidEntry(day[x])) && u in rest && u in t
    ensures var more := Added(day, Part(t, rest));
            && (u in more ==> ValidEntry(more[u]))
            && var had := if u in more then SplitOf(more[u]) else Bytes(0, 0);
               Added(day, Part(t, rest - {u})) == more[u := Normalized(had.tx + t[u].tx, had.rx + t[u].rx)]
  {
  }

  /** The loop of `accumulate_daily` over today's traffic. */
  method AddTraffic(day: map<User, Entry>, t: Traffic) returns (more: map<User, Entry>)
    requires forall u | u in day :: ValidEntry(day[u])
    ensures more == Added(day, t)
  {
    more := day;
    var rest := t.Keys;
    assert Part(t, rest) == map[] && Part(t, {}) == t && Added(day, map[]) == day;
    hide Added, Part, ValidEntry, SplitOf, Normalized;
    assert forall x | x in day :: ValidEntry(day[x]);
    while rest != {}
      invariant rest <= t.Keys && more == Added(day, Part(t, rest))
    {
      var u :| u in rest;
      AddedOneMore(day, t, rest, u);
      var cur := if u in more then SplitOf(more[u]) else Bytes(0, 0);
      more := more[u := Normalized(cur.tx + t[u].tx, cur.rx + t[u].rx)];
      rest := rest - {u};
    }
  }

  /** `accumulate_daily` without the save: add today's traffic, then prune. */
  method AccumulateDaily(l: Ledger, today: int, t: Traffic) returns (next: Ledger)
    requires ValidLedger(l)
    ensures next == Ticked(l, today, t)
  {
    hide ValidEntry, Added;
    var more := AddTraffic(if today in l then l[today] else map[], t);
    next := PruneDaily(l[today := more], today);
  }

  method PruneDaily(l: Ledger, today: int) returns (kept: Ledger)
    ensures kept == map d | d in l && d >= today - (DAILY_RETENTION_DAYS - 1) :: l[d]
  {
    var cutoff := today - (DAILY_RETENTION_DAYS - 1);
    kept := l;
    var rest := l.Keys;
    while rest != {}
      invariant rest <= l.Keys
      invariant kept == map d | d in l && (d in rest || d >= cutoff) :: l[d]
    {
      var d :| d in rest;
      if d < cutoff {
        kept := kept - {d};
      }
      rest := rest - {d};
    }
  }

  /** `cycle_used_raw_for`, summing the days in order. */
  method CycleUsedRawFor(l: Ledger, u: User, days: seq<int>) returns (total: nat)
    requires ValidLedger(l)
    ensures total == Used(l, u, days)
  {
    total := 0;
    for i := 0 to |days|
      invariant total == Used(l, u, days[..i])
    {
      assert days[..i + 1][..i] == days[..i];
      var d := days[i];
      if d in l && u in l[d] {
        total := total + EntryTotal(l[d][u]);
      }
    }
    assert days[..|days|] == days;
  }

  /* ---- Used bytes never fall within a cycle ---- */

  lemma {:induction false} UsedPointwise(l: Ledger, next: Ledger, u: User, days: seq<int>)
    requires ValidLedger(l) && ValidLedger(next)
    requires forall d | d in days :: Amount(l, d, u) <= Amount(next, d, u)
    ensures Used(l, u, days) <= Used(next, u, days)
  {
    if days == [] {
    } else {
      UsedPointwise(l, next, u, days[..|days| - 1]);
    }
  }

  lemma {:induction false} UsedPrefix(l: Ledger, u: User, days: seq<int>, more: seq<int>)
    requires ValidLedger(l) && days <= more
    ensures Used(l, u, days) <= Used(l, u, more)
  {
    if days != more {
      UsedPrefix(l, u, days, more[..|more| - 1]);
    }
  }

  /** One tick, at or after today and before the cycle ends, lowers nobody's used bytes:
      the prune spares every day of every legal cycle. */
  lemma TickNeverLowers(l: Ledger, today: int, later: int, t: Traffic, u: User, start: int, length: int)
    requires ValidLedger(l) && today <= later < start + length
    requires CYCLE_LENGTH_MIN <= length <= CYCLE_LENGTH_MAX
    ensures ValidLedger(Ticked(l, later, t))
    ensures Used(l, u, DaysFrom(start, today, length)) <= Used(Ticked(l, later, t), u, DaysFrom(start, later, length))
  {
    var days, more := DaysFrom(start, today, length), DaysFrom(start, later, length);
    UsedPrefix(l, u, days, more);
    TickAmounts(l, later, t);
    forall d | d in more
      ensures Amount(l, d, u) <= Amount(Ticked(l, later, t), d, u)
    {
    }
    UsedPointwise(l, Ticked(l, later, t), u, more);
  }

  datatype Tick = Tick(today: int, traffic: Traffic)

  function AfterTicks(l: Ledger, ticks: seq<Tick>): (next: Ledger)
    requires ValidLedger(l)
    ensures ValidLedger(next)
  {
    if ticks == [] then l
    else
      var last := ticks[|ticks| - 1];
      TickAmounts(AfterTicks(l, ticks[..|ticks| - 1]), last.today, last.traffic);
      Ticked(AfterTicks(l, ticks[..|ticks| - 1]), last.today, last.traffic)
  }

  /** Ticks whose days never go back, none of them past the cycle's end. */
  ghost predicate WithinCycle(ticks: seq<Tick>, from: int, start: int, length: int) {
    && (forall i | 0 <= i < |ticks| :: from <= ticks[i].today < start + length)
    && forall i, j | 0 <= i < j < |ticks| :: ticks[i].today <= ticks[j].today
  }

  function LastDay(ticks: seq<Tick>, from: int): int { if ticks == [] then from else ticks[|ticks| - 1].today }

  /** Over any run of ticks within one cycle nobody's used bytes fall. */
  lemma {:induction false} UsedNeverFalls(l: Ledger, ticks: seq<Tick>, from: int, u: User, start: int, length: int)
    requires ValidLedger(l) && CYCLE_LENGTH_MIN <= length <= CYCLE_LENGTH_MAX
    requires WithinCycle(ticks, from, start, length)
    ensures Used(l, u, DaysFrom(start, from, length))
            <= Used(AfterTicks(l, ticks), u, DaysFrom(start, LastDay(ticks, from), length))
  {
    if ticks == [] {
    } else {
      var before, last := ticks[..|ticks| - 1], ticks[|ticks| - 1];
      UsedNeverFalls(l, before, from, u, start, length);
      TickNeverLowers(AfterTicks(l, before), LastDay(before, from), last.today, last.traffic, u, start, length);
    }
  }

  function Collected(ticks: seq<Tick>, u: User): nat {
    if ticks == [] then 0
    else
      var last := ticks[|ticks| - 1];
      Collected(ticks[..|ticks| - 1], u) + Of(last.traffic, u).tx + Of(last.traffic, u).rx
  }

  ghost predicate NothingAfter(l: Ledger, day: int, u: User)
    requires ValidLedger(l)
  {
    forall d | d > day :: Amount(l, d, u) == 0
  }

  lemma {:induction false} UsedSame(l: Ledger, next: Ledger, u: User, days: seq<int>)
    requires ValidLedger(l) && ValidLedger(next)
    requires forall d | d in days :: Amount(l, d, u) == Amount(next, d, u)
    ensures Used(l, u, days) == Used(next, u, days)
  {
    UsedPointwise(l, next, u, days);
    UsedPointwise(next, l, u, days);
  }

  lemma {:induction false} UsedPrefixSame(l: Ledger, u: User, days: seq<int>, more: seq<int>)
    requires ValidLedger(l) && days <= more
    requires forall i | |days| <= i < |more| :: Amount(l, more[i], u) == 0
    ensures Used(l, u, days) == Used(l, u, more)
  {
    if days != more {
      UsedPrefixSame(l, u, days, more[..|more| - 1]);
    }
  }

  lemma TickChargesExactly(l: Ledger, today: int, later: int, t: Traffic, u: User, start: int, length: int)
    requires ValidLedger(l) && start <= today <= later < start + length && NothingAfter(l, today, u)
    requires CYCLE_LENGTH_MIN <= length <= CYCLE_LENGTH_MAX
    ensures ValidLedger(Ticked(l, later, t)) && NothingAfter(Ticked(l, later, t), later, u)
    ensures Used(Ticked(l, later, t), u, DaysFrom(start, later, length))
            == Used(l, u, DaysFrom(start, today, length)) + Of(t, u).tx + Of(t, u).rx
  {
    var days, more := DaysFrom(start, today, length), DaysFrom(start, later, length);
    var next := Ticked(l, later, t);
    var init := more[..|more| - 1];
    TickAmounts(l, later, t);
    assert more == init + [later];
    forall d | d in init
      ensures Amount(l, d, u) == Amount(next, d, u)
    {
    }
    UsedSame(l, next, u, init);
    UsedPrefixSame(l, u, days, more);
    hide Ticked;
  }

  /** Over a run within one cycle a user is charged exactly what was collected, split over
      days and cleared of nothing by the prune. */
  lemma {:induction false} ChargedExactly(l: Ledger, ticks: seq<Tick>, from: int, u: User, start: int, length: int)
    requires ValidLedger(l) && CYCLE_LENGTH_MIN <= length <= CYCLE_LENGTH_MAX
    requires start <= from && NothingAfter(l, from, u) && WithinCycle(ticks, from, start, length)
    ensures NothingAfter(AfterTicks(l, ticks), LastDay(ticks, from), u)
    ensures Used(AfterTicks(l, ticks), u, DaysFrom(start, LastDay(ticks, from), length))
            == Used(l, u, DaysFrom(start, from, length)) + Collected(ticks, u)
  {
    if ticks == [] {
    } else {
      var before, last := ticks[..|ticks| - 1], ticks[|ticks| - 1];
      ChargedExactly(l, before, from, u, start, length);
      TickChargesExactly(AfterTicks(l, before), LastDay(before, from), last.today, last.traffic, u, start, length);
    }
  }
}
