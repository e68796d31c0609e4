/** The three quota evaluators: the limiter's plan (hysteria/traffic_limiter.py), the
    panel's plan (hysteria/subscription_service.py) and the verdict at authentication
    (hysteria/auth_backend.py), on state the limiter's validators accept. */
module AuthorizationPlans {
  import opened StateStore
  import opened BillingCycle
  import opened UsageLedger

  /** A device limit as stored: a count, or a JSON number with a decimal point. */
  datatype DeviceLimit = Counted(count: Counter) | Fraction(x: real)

  /** The fields of a user that decide lifecycle and quota (hysteria/user_compat.py), and
      the device limit, which authentication reads together with them. */
  datatype Config = Config(
    disabled: bool, expires: Option<int>, metered: Option<bool>, guest: bool,
    quota: Option<Counter>, extra: Option<Counter>, devices: Option<DeviceLimit>, uuid: Option<nat>)

  predicate Metered(c: Config) { if c.metered.Some? then c.metered.value else c.guest }

  predicate Inactive(c: Config, today: int) { c.disabled || (c.expires.Some? && c.expires.value < today) }

  /** The anchor's day number, and whether its text has two-digit month and day. */
  datatype Anchor = Anchor(day: int, padded: bool)

  datatype Meta = Meta(settlement: Option<Counter>, length: Option<Counter>, anchor: Option<Anchor>)

  /* ---- Reading counts ---- */

  /** The decimal text of a number. */
  function Decimal(n: nat): string {
    if n < 10 then [(('0' as int) + n) as char] else Decimal(n / 10) + [(('0' as int) + n % 10) as char]
  }

  /** The panel also insists that a text is exactly the decimal text of its value. */
  function PanelReads(c: Counter): Option<nat> {
    match c
    case Number(n) => if n >= 0 then Some(n) else None
    case Text(s) => if AllDigits(s) && Decimal(Value(s)) == s then Some(Value(s)) else None
    case Other => None
  }

  predicate LeadingZero(c: Counter) {
    c.Text? && |c.digits| > 1 && c.digits[0] == '0'
  }

  lemma {:induction false} DecimalNoLeadingZero(n: nat)
    ensures AllDigits(Decimal(n)) && Value(Decimal(n)) == n
    ensures |Decimal(n)| == 1 || Decimal(n)[0] != '0'
    ensures n > 0 ==> Decimal(n)[0] != '0'
  {
    if n >= 10 {
      DecimalNoLeadingZero(n / 10);
    }
  }

  lemma DecimalMore(v: nat, d: nat)
    requires v > 0 && d < 10
    ensures Decimal(10 * v + d) == Decimal(v) + [(('0' as int) + d) as char]
  {
  }

  lemma {:induction false} ValueOfCanonical(s: string)
    requires AllDigits(s) && (|s| == 1 || s[0] != '0')
    ensures Decimal(Value(s)) == s && (s[0] != '0' ==> Value(s) > 0)
  {
    var init, last := s[..|s| - 1], s[|s| - 1];
    var d := (last as int) - ('0' as int);
    if init == "" {
    } else {
      ValueOfCanonical(init);
      DecimalMore(Value(init), d);
      hide Decimal;
      assert Value(s) == 10 * Value(init) + d;
    }
  }

  /** On a count the limiter accepts, the panel objects exactly to a leading zero. */
  lemma PanelReadsExactly(c: Counter)
    requires Reads(c).Some?
    ensures PanelReads(c) == if LeadingZero(c) then None else Reads(c)
  {
    if c.Text? {
      if LeadingZero(c) {
        DecimalNoLeadingZero(Value(c.digits));
      } else {
        ValueOfCanonical(c.digits);
      }
    }
  }

  function PanelField(c: Option<Counter>): Option<nat> {
    if c.None? then Some(0) else PanelReads(c.value)
  }

  /** `_strict_usage_entry_total`. */
  function PanelTotal(e: Entry): Option<nat> {
    match e
    case Plain(c) => PanelReads(c)
    case Split(tx, rx, total, extra) =>
      if extra || PanelField(tx).None? || PanelField(rx).None? || PanelField(total).None? then None
      else if PanelField(total).value != PanelField(tx).value + PanelField(rx).value then None
      else PanelField(total)
  }

  /** `usage_total`: a missing total defaults to the sum. */
  function AuthTotal(e: Entry): Option<nat> {
    match e
    case Plain(c) => Reads(c)
    case Split(tx, rx, total, extra) =>
      if extra || Field(tx, 0).None? || Field(rx, 0).None? then None
      else
        var sum := Field(tx, 0).value + Field(rx, 0).value;
        if Field(total, sum) == Some(sum) then Some(sum) else None
  }

  predicate ZeroPadded(e: Entry) {
    match e
    case Plain(c) => LeadingZero(c)
    case Split(tx, rx, total, _) =>
      || (tx.Some? && LeadingZero(tx.value))
      || (rx.Some? && LeadingZero(rx.value))
      || (total.Some? && LeadingZero(total.value))
  }

  /** The three ways of reading one day agree, except that the panel objects to leading zeros. */
  lemma EntryReadersAgree(e: Entry)
    requires ValidEntry(e)
    ensures AuthTotal(e) == Some(EntryTotal(e))
    ensures PanelTotal(e) == if ZeroPadded(e) then None else Some(EntryTotal(e))
  {
    match e
    case Plain(c) => PanelReadsExactly(c);
    case Split(tx, rx, total, _) =>
      if tx.Some? { PanelReadsExactly(tx.value); }
      if rx.Some? { PanelReadsExactly(rx.value); }
      if total.Some? { PanelReadsExactly(total.value); }
  }

  /* ---- The state all three read ---- */

  /** Python's `int` of a JSON number cuts toward zero. */
  function Truncated(x: real): int { if x >= 0.0 then x.Floor else -((-x).Floor) }

  /** `authorization_config_error` has nothing to say about the counts, and the limiter's
      own check nothing about the quota; that check leaves the device limit out. */
  predicate ValidConfig(c: Config) {
    && (c.quota.Some? ==> PanelReads(c.quota.value).Some?)
    && (c.extra.Some? ==> PanelReads(c.extra.value).Some?)
    && (c.devices.Some? ==>
          match c.devices.value
          case Counted(count) => PanelReads(count).Some?
          case Fraction(x) => Truncated(x) >= 0)
  }

  /** The backend's `_non_negative_integer` of the device limit. */
  function AuthDevices(c: Config): Option<nat> {
    if c.devices.None? then Some(0)
    else match c.devices.value
      case Counted(count) => Reads(count)
      case Fraction(_) => None
  }

  /** Of the device limits the limiter accepts, authentication refuses exactly the fractions. */
  lemma AuthDevicesExactly(c: Config)
    requires ValidConfig(c)
    ensures AuthDevices(c).None? <==> c.devices.Some? && c.devices.value.Fraction?
  {
  }

  /** `total_quota_bytes`. */
  function Quota(c: Config): nat
    requires ValidConfig(c)
  {
    (if c.quota.Some? then PanelReads(c.quota.value).value else 0)
    + (if c.extra.Some? then PanelReads(c.extra.value).value else 0)
  }

  function Count(c: Option<Counter>): Option<int> {
    if c.None? || Reads(c.value).None? then None else Some(Reads(c.value).value)
  }

  /** The limiter's `_validate_meta`. */
  predicate ValidMeta(m: Meta) {
    && (m.settlement.Some? ==> Count(m.settlement).Some? && 1 <= Count(m.settlement).value <= 28)
    && (m.length.Some? ==> Count(m.length).Some? && CYCLE_LENGTH_MIN <= Count(m.length).value <= CYCLE_LENGTH_MAX)
  }

  /** The panel's `_validate_authorization_meta`. */
  predicate PanelValidMeta(m: Meta) {
    && (m.settlement.Some? ==> PanelReads(m.settlement.value).Some? && 1 <= PanelReads(m.settlement.value).value <= 28)
    && (m.length.Some? ==>
          PanelReads(m.length.value).Some? && CYCLE_LENGTH_MIN <= PanelReads(m.length.value).value <= CYCLE_LENGTH_MAX)
  }

  /** The backend's `validate_meta`: it also wants the anchor written with padding. */
  predicate AuthValidMeta(m: Meta) {
    ValidMeta(m) && (m.anchor.Some? ==> m.anchor.value.padded)
  }

  /** `cycle_anchor_date`. */
  function AnchorOn(m: Meta, today: int): int {
    if m.anchor.Some? then m.anchor.value.day else SettledOn(today, ClampSettlementDay(Count(m.settlement)))
  }

  function StartOn(m: Meta, today: int): int {
    CycleStart(today, AnchorOn(m, today), ClampCycleLength(Count(m.length)))
  }

  function Days(m: Meta, today: int): seq<int> {
    CycleDays(today, AnchorOn(m, today), ClampCycleLength(Count(m.length)))
  }

  /** The stored length, or 30 days. */
  function StoredLength(m: Meta): int { if m.length.Some? && Count(m.length).Some? then Count(m.length).value else 30 }

  /** With a stored anchor the cycles are counted from it, the first one also before it. */
  lemma StartsFromAnchor(m: Meta, today: int)
    requires ValidMeta(m) && m.anchor.Some?
    ensures StoredLength(m) > 0
    ensures m.anchor.value.day <= today ==> Starts(StartOn(m, today), today, m.anchor.value.day, StoredLength(m))
    ensures today < m.anchor.value.day ==> StartOn(m, today) == m.anchor.value.day
  {
    if m.anchor.value.day <= today {
      CycleContainsToday(today, m.anchor.value.day, StoredLength(m));
    }
    hide CycleStart;
  }

  /** Without one they are counted from the latest day up to today that has the stored day
      of the month, or the twelfth. */
  lemma StartsFromSettlement(m: Meta, today: int) returns (settled: int)
    requires ValidMeta(m) && m.anchor.None? && 28 <= today
    ensures StoredLength(m) > 0
    ensures settled <= today && forall d | settled < d <= today :: DateOf(d).day != DateOf(settled).day
    ensures DateOf(settled).day == if m.settlement.Some? then Count(m.settlement).value else 12
    ensures Starts(StartOn(m, today), today, settled, StoredLength(m))
  {
    var day := if m.settlement.Some? then Count(m.settlement).value else 12;
    settled := SettledOn(today, day);
    SettledOnAnchor(today, day);
    SettledOnLatest(today, day);
    CycleContainsToday(today, settled, StoredLength(m));
    hide CycleStart, SettledOn, DateOf;
  }

  /** The days held against a quota are those from the cycle's start up to today. */
  lemma DaysMeans(m: Meta, today: int, d: int)
    requires ValidMeta(m)
    ensures d in Days(m, today) <==> StartOn(m, today) <= d <= today && d < StartOn(m, today) + StoredLength(m)
  {
    var days := Days(m, today);
    assert StartOn(m, today) <= d < StartOn(m, today) + |days| ==> days[d - StartOn(m, today)] == d;
    hide CycleStart;
  }

  type Users = map<User, Config>
  type Plan = map<User, Option<nat>>

  predicate ValidUsers(users: Users) { forall u | u in users :: ValidConfig(users[u]) }

  /** Used bytes as they are shown and held against the quota. */
  function Billed(used: nat, multiplier: real): real {
    used as real * multiplier
  }

  predicate OverQuota(c: Config, used: nat, multiplier: real)
    requires ValidConfig(c)
  {
    Metered(c) && Quota(c) > 0 && Billed(used, multiplier) >= Quota(c) as real
  }

  /** Out of the plan for its lifecycle or its quota. */
  predicate Blocked(c: Config, l: Ledger, u: User, days: seq<int>, multiplier: real, today: int)
    requires ValidConfig(c) && ValidLedger(l)
  {
    Inactive(c, today) || OverQuota(c, Used(l, u, days), multiplier)
  }

  /** A user's line in the plan: Some(None) takes the user out, None says nothing. */
  function Line(c: Config, blocked: bool): Option<Option<nat>> {
    if blocked then Some(None) else if c.uuid.Some? then Some(c.uuid) else None
  }

  function PlanFor(users: Users, l: Ledger, days: seq<int>, multiplier: real, today: int): Plan
    requires ValidUsers(users) && ValidLedger(l)
  {
    map u | u in users && Line(users[u], Blocked(users[u], l, u, days, multiplier, today)).Some?
      :: Line(users[u], Blocked(users[u], l, u, days, multiplier, today)).value
  }

  /** The plan takes out exactly the disabled, the expired, and the metered users whose billed
      bytes reach a quota that is set. */
  lemma BlockedExactly(c: Config, l: Ledger, u: User, days: seq<int>, multiplier: real, today: int, quota: nat)
    requires ValidConfig(c) && ValidLedger(l) && quota == Quota(c)
    ensures Billed(Used(l, u, days), multiplier) == Used(l, u, days) as real * multiplier
    ensures Blocked(c, l, u, days, multiplier, today) <==>
              || c.disabled
              || (c.expires.Some? && c.expires.value < today)
              || ((if c.metered.Some? then c.metered.value else c.guest) && quota > 0
                  && Billed(Used(l, u, days), multiplier) >= quota as real)
  {
    assert Billed(Used(l, u, days), multiplier) == Used(l, u, days) as real * multiplier;
    hide PanelReads, Reads, Used, ValidLedger, ValidConfig, Quota, Billed;
  }

  /** The quota is what is stored as quota and as extra; what is not stored counts nothing. */
  lemma QuotaExactly(c: Config)
    requires ValidConfig(c)
    ensures c.quota.Some? ==> Reads(c.quota.value).Some?
    ensures c.extra.Some? ==> Reads(c.extra.value).Some?
    ensures Quota(c) == (if c.quota.Some? then Reads(c.quota.value).value else 0)
                        + (if c.extra.Some? then Reads(c.extra.value).value else 0)
  {
    if c.quota.Some? { PanelReadsSame(c.quota.value); }
    if c.extra.Some? { PanelReadsSame(c.extra.value); }
    hide PanelReads, Reads;
  }

  lemma PanelReadsSame(c: Counter)
    requires PanelReads(c).Some?
    ensures Reads(c) == PanelReads(c)
  {
  }

  /** Who is taken out, who is let in with which UUID, and of whom the plan says nothing. */
  lemma PlanExactly(users: Users, l: Ledger, days: seq<int>, multiplier: real, today: int, u: User)
    requires ValidUsers(users) && ValidLedger(l)
    ensures var plan := PlanFor(users, l, days, multiplier, today);
            var out := u in users && Blocked(users[u], l, u, days, multiplier, today);
            && (u in plan && plan[u].None? <==> out)
            && (u in plan && plan[u].Some? <==> u in users && !out && users[u].uuid.Some?)
            && (u in plan && plan[u].Some? ==> plan[u] == users[u].uuid)
  {
    hide Blocked;
  }

  /** The plan for the users not in `rest`. */
  function PlanSoFar(users: Users, rest: set<User>, l: Ledger, days: seq<int>, multiplier: real, today: int): Plan
    requires ValidUsers(users) && ValidLedger(l)
  {
    var plan := PlanFor(users, l, days, multiplier, today);
    map u | u in plan && u !in rest :: plan[u]
  }

  lemma PlanOneMore(users: Users, rest: set<User>, u: User, l: Ledger, days: seq<int>, multiplier: real, today: int)
    requires ValidUsers(users) && ValidLedger(l) && u in rest && rest <= users.Keys
    ensures var line := Line(users[u], Blocked(users[u], l, u, days, multiplier, today));
            PlanSoFar(users, rest - {u}, l, days, multiplier, today) ==
            if line.Some? then PlanSoFar(users, rest, l, days, multiplier, today)[u := line.value]
            else PlanSoFar(users, rest, l, days, multiplier, today)
  {
  }

  lemma PlanEnds(users: Users, l: Ledger, days: seq<int>, multiplier: real, today: int)
    requires ValidUsers(users) && ValidLedger(l)
    ensures PlanSoFar(users, users.Keys, l, days, multiplier, today) == map[]
    ensures PlanSoFar(users, {}, l, days, multiplier, today) == PlanFor(users, l, days, multiplier, today)
  {
  }

  /** A count the panel has to read is written with a leading zero. */
  predicate PaddedCount(l: Ledger, u: User, days: seq<int>) {
    exists d | d in days :: d in l && u in l[d] && ZeroPadded(l[d][u])
  }

  predicate PaddedMeta(m: Meta) {
    (m.settlement.Some? && LeadingZero(m.settlement.value)) || (m.length.Some? && LeadingZero(m.length.value))
  }

  predicate Consults(c: Config, today: int)
    requires ValidConfig(c)
  {
    !Inactive(c, today) && Metered(c) && Quota(c) > 0
  }

  /* ---- The evaluators ---- */

  method LimiterBlocks(c: Config, l: Ledger, u: User, days: seq<int>, multiplier: real, today: int) returns (out: bool)
    requires ValidConfig(c) && ValidLedger(l)
    ensures out == Blocked(c, l, u, days, multiplier, today)
  {
    hide Billed;
    if Inactive(c, today) {
      return true;
    }
    if Metered(c) && Quota(c) > 0 {
      var used := CycleUsedRawFor(l, u, days);
      return Billed(used, multiplier) >= Quota(c) as real;
    }
    out := false;
  }

  /** The limiter's `build_static_access_plan`. */
  method LimiterPlan(users: Users, l: Ledger, m: Meta, today: int, multiplier: real)
    returns (plan: Plan, kicked: set<User>)
    requires ValidUsers(users) && ValidLedger(l) && ValidMeta(m)
    ensures plan == PlanFor(users, l, Days(m, today), multiplier, today)
    ensures kicked == set u | u in users && Blocked(users[u], l, u, Days(m, today), multiplier, today)
  {
    hide Blocked, PlanFor, PlanSoFar, Days;
    var days := Days(m, today);
    PlanEnds(users, l, days, multiplier, today);
    plan, kicked := map[], {};
    var rest := users.Keys;
    while rest != {}
      invariant rest <= users.Keys
      invariant plan == PlanSoFar(users, rest, l, days, multiplier, today)
      invariant kicked == set u | u in users && u !in rest && Blocked(users[u], l, u, days, multiplier, today)
    {
      var u :| u in rest;
      PlanOneMore(users, rest, u, l, days, multiplier, today);
      var out := LimiterBlocks(users[u], l, u, days, multiplier, today);
      if out {
        plan, kicked := plan[u := None], kicked + {u};
      } else if users[u].uuid.Some? {
        plan := plan[u := users[u].uuid];
      }
      rest := rest - {u};
    }
  }

  /** The panel's loop over one user's days; None where it raises. */
  method PanelUsed(l: Ledger, u: User, days: seq<int>) returns (used: Option<nat>)
    requires ValidLedger(l)
    ensures used == if PaddedCount(l, u, days) then None else Some(Used(l, u, days))
  {
    var sum := 0;
    for i := 0 to |days|
      invariant sum == Used(l, u, days[..i]) && !PaddedCount(l, u, days[..i])
    {
      assert days[..i + 1][..i] == days[..i] && days[..i + 1] == days[..i] + [days[i]];
      var d := days[i];
      if d in l && u in l[d] {
        EntryReadersAgree(l[d][u]);
        var total := PanelTotal(l[d][u]);
        if total.None? {
          assert d in days;
          return None;
        }
        sum := sum + total.value;
      }
    }
    assert days[..|days|] == days;
    used := Some(sum);
  }

  lemma PanelMetaExactly(m: Meta)
    requires ValidMeta(m)
    ensures PanelValidMeta(m) <==> !PaddedMeta(m)
  {
    if m.settlement.Some? { PanelReadsExactly(m.settlement.value); }
    if m.length.Some? { PanelReadsExactly(m.length.value); }
  }

  /** One user's verdict in the panel; None where it raises. */
  method PanelBlocks(c: Config, l: Ledger, u: User, days: seq<int>, multiplier: real, today: int)
    returns (out: Option<bool>)
    requires ValidConfig(c) && ValidLedger(l)
    ensures out == if Consults(c, today) && PaddedCount(l, u, days) then None
                   else Some(Blocked(c, l, u, days, multiplier, today))
  {
    hide Billed;
    if Inactive(c, today) {
      return Some(true);
    }
    if Quota(c) > 0 && Metered(c) {
      var used := PanelUsed(l, u, days);
      if used.None? {
        return None;
      }
      return Some(Billed(used.value, multiplier) >= Quota(c) as real);
    }
    out := Some(false);
  }

  /** Some user's count makes the panel give up. */
  predicate PaddedUser(users: Users, l: Ledger, days: seq<int>, today: int)
    requires ValidUsers(users)
  {
    exists u | u in users :: Consults(users[u], today) && PaddedCount(l, u, days)
  }

  /** The panel's `_build_static_access_plan`; None where it raises. It agrees with the
      limiter's plan, and raises exactly on a leading zero in the cycle settings or in a
      day's count of a user whose quota it has to check. */
  method PanelPlan(users: Users, l: Ledger, m: Meta, today: int, multiplier: real)
    returns (r: Option<Plan>)
    requires ValidUsers(users) && ValidLedger(l) && ValidMeta(m)
    ensures r.None? <==> PaddedMeta(m) || PaddedUser(users, l, Days(m, today), today)
    ensures r.Some? ==> r.value == PlanFor(users, l, Days(m, today), multiplier, today)
  {
    PanelMetaExactly(m);
    if !PanelValidMeta(m) {
      return None;
    }
    hide Blocked, PlanFor, PlanSoFar, Days, PaddedCount, Consults;
    var days := Days(m, today);
    PlanEnds(users, l, days, multiplier, today);
    var plan: Plan := map[];
    var rest := users.Keys;
    while rest != {}
      invariant rest <= users.Keys
      invariant plan == PlanSoFar(users, rest, l, days, multiplier, today)
      invariant forall u | u in users && u !in rest :: !(Consults(users[u], today) && PaddedCount(l, u, days))
    {
      var u :| u in rest;
      PlanOneMore(users, rest, u, l, days, multiplier, today);
      var out := PanelBlocks(users[u], l, u, days, multiplier, today);
      if out.None? {
        return None;
      }
      if out.value {
        plan := plan[u := None];
      } else if users[u].uuid.Some? {
        plan := plan[u := users[u].uuid];
      }
      rest := rest - {u};
    }
    r := Some(plan);
  }

  /** The backend's sum over one user's days; on this state it never raises. */
  method AuthUsed(l: Ledger, u: User, days: seq<int>) returns (used: nat)
    requires ValidLedger(l)
    ensures used == Used(l, u, days)
  {
    used := 0;
    for i := 0 to |days|
      invariant used == Used(l, u, days[..i])
    {
      assert days[..i + 1][..i] == days[..i];
      var d := days[i];
      if d in l && u in l[d] {
        EntryReadersAgree(l[d][u]);
        used := used + AuthTotal(l[d][u]).value;
      }
    }
    assert days[..|days|] == days;
  }

  /** The backend's `validate_daily_usage` on this state: it wants each day's key as it would
      write it itself, without zeros before the year. */
  predicate AuthValidDays(l: Ledger) { forall d | d in l :: DateOf(d).year >= 1000 }

  /** The lifecycle and quota part of `authenticate`: whether it turns the user away. It
      agrees with the limiter's plan unless it objects to a device limit written as a
      fraction, to an anchor written without padding or to a day before the year 1000. */
  method AuthTurnsAway(c: Config, l: Ledger, u: User, m: Meta, today: int, multiplier: real)
    returns (out: bool)
    requires ValidConfig(c) && ValidLedger(l) && ValidMeta(m)
    ensures out <==>
            || Blocked(c, l, u, Days(m, today), multiplier, today)
            || (c.devices.Some? && c.devices.value.Fraction?)
            || (Metered(c) && m.anchor.Some? && !m.anchor.value.padded)
            || (Metered(c) && exists d :: d in l && DateOf(d).year < 1000)
  {
    hide Billed;
    AuthDevicesExactly(c);
    if AuthDevices(c).None? {
      return true;
    }
    if Inactive(c, today) {
      return true;
    }
    if !Metered(c) {
      return false;
    }
    if !AuthValidMeta(m) || !AuthValidDays(l) {
      return true;
    }
    var days := Days(m, today);
    var used := AuthUsed(l, u, days);
    out := Quota(c) > 0 && Billed(used, multiplier) >= Quota(c) as real;
  }

  /** A device limit of 2.0: both plans admit the user, authentication does not. */
  lemma FractionDisagrees(l: Ledger, u: User, days: seq<int>, multiplier: real, today: int)
    requires ValidLedger(l)
    ensures var c := Config(false, None, None, false, None, None, Some(Fraction(2.0)), Some(1));
            && ValidConfig(c) && !Blocked(c, l, u, days, multiplier, today) && AuthDevices(c).None?
            && PlanFor(map[u := c], l, days, multiplier, today) == map[u := Some(1)]
  {
    assert Truncated(2.0) == 2;
  }

  /* ---- Out stays out ---- */

  lemma BilledGrows(a: nat, b: nat, multiplier: real)
    requires a <= b && multiplier >= 0.0
    ensures Billed(a, multiplier) <= Billed(b, multiplier)
  {
  }

  /** A user whom the plan leaves out stays out over every run of ticks, as long as the
      cycle's start stays the same and nobody edits the user, the cycle or the multiplier. */
  lemma OutStaysOut(c: Config, l: Ledger, ticks: seq<Tick>, u: User, m: Meta, today: int,
                    multiplier: real)
    requires ValidConfig(c) && ValidLedger(l) && ValidMeta(m) && multiplier >= 0.0
    requires forall i | 0 <= i < |ticks| ::
               today <= ticks[i].today && StartOn(m, ticks[i].today) == StartOn(m, today)
    requires forall i, j | 0 <= i < j < |ticks| :: ticks[i].today <= ticks[j].today
    requires Blocked(c, l, u, Days(m, today), multiplier, today)
    ensures var later := LastDay(ticks, today);
            Blocked(c, AfterTicks(l, ticks), u, Days(m, later), multiplier, later)
  {
    var later, start, length := LastDay(ticks, today), StartOn(m, today), ClampCycleLength(Count(m.length));
    forall i | 0 <= i < |ticks|
      ensures ticks[i].today < start + length
    {
      CycleNotOver(ticks[i].today, AnchorOn(m, ticks[i].today), length);
    }
    UsedNeverFalls(l, ticks, today, u, start, length);
    BilledGrows(Used(l, u, Days(m, today)), Used(AfterTicks(l, ticks), u, Days(m, later)),
                multiplier);
    hide Billed, Used, AfterTicks, CycleStart, DaysFrom, ValidLedger;
  }
}
