/** Runs of the device ledger against the clients that are really connected.

    The proxy's online count lags behind admissions. A run interleaves admission
    requests of every user, saves that fail or land unsynced, clients of one watched
    user becoming visible to the online count, and clients leaving. */
module DeviceRuns {
  import opened StateStore
  import opened DeviceAdmission

  /** `at` is the latest clock reading when the client was let in; `shown` and `gone`
      are the ticks at which the online count gained it and at which it left. */
  datatype Client = Client(at: real, shown: Option<nat>, gone: Option<nat>)

  predicate By(tick: Option<nat>, n: nat) { tick.Some? && tick.value <= n }

  predicate OnlineThen(c: Client, n: nat) { By(c.shown, n) && !By(c.gone, n) }

  /** Let in, but neither shown nor gone at tick n (or let in only later). */
  predicate AbsentThen(c: Client, n: nat) { !By(c.shown, n) && !By(c.gone, n) }

  /** What the online API answered at tick n. */
  function Online(cs: seq<Client>, n: nat): nat {
    if cs == [] then 0
    else Online(cs[..|cs| - 1], n) + (if OnlineThen(cs[|cs| - 1], n) then 1 else 0)
  }

  /** When the clients missing from that answer were let in. */
  function Absent(cs: seq<Client>, n: nat): seq<real> {
    if cs == [] then []
    else Absent(cs[..|cs| - 1], n) + (if AbsentThen(cs[|cs| - 1], n) then [cs[|cs| - 1].at] else [])
  }

  function Connected(cs: seq<Client>): nat {
    if cs == [] then 0
    else Connected(cs[..|cs| - 1]) + (if cs[|cs| - 1].gone.None? then 1 else 0)
  }

  /** `lag`: how long an admission may stay out of the counts that requests apply.
      `skew`: how far a request's clock reading may trail the latest one, since the
      clock is read before the lock is taken. */
  datatype World = World(subject: User, lag: real, skew: real, ledger: Ledger)

  /** `applied` is the tick at which the last recorded count of the subject was read. */
  datatype State = State(ledger: Ledger, clients: seq<Client>, clock: real, tick: nat, applied: nat)

  datatype Event =
    | Ask(user: User, limit: int, reading: real, count: nat, readAt: nat, outcome: Outcome, joins: bool)
    | Shows(client: nat)
    | Leaves(client: nat)

  function Later(a: real, b: real): real { if a <= b then b else a }

  /** Every admission shows up within `lag`, and counts are applied in the order read. */
  ghost predicate Timely(w: World, s: State, e: Event)
    requires e.Ask?
  {
    && s.clock - w.skew <= e.reading
    && (e.user == w.subject ==>
          && s.applied <= e.readAt <= s.tick
          && e.count == Online(s.clients, e.readAt)
          && forall c | c in s.clients && c.at <= Later(s.clock, e.reading) - w.lag :: !AbsentThen(c, e.readAt))
  }

  ghost predicate Enabled(w: World, s: State, e: Event) {
    match e
    case Ask(_, _, _, _, _, _, _) => Timely(w, s, e)
    case Shows(i) => i < |s.clients| && s.clients[i].shown.None? && s.clients[i].gone.None?
    case Leaves(i) => i < |s.clients| && s.clients[i].gone.None?
  }

  /** The request is answered with yes, and the client then connects. */
  predicate LetIn(w: World, s: State, e: Event) {
    && e.Ask? && e.user == w.subject && e.limit > 0 && e.outcome == Durable && e.joins
    && Admits(s.ledger, e.user, e.limit, e.count, e.reading)
  }

  function Step(w: World, s: State, e: Event): State {
    match e
    case Ask(user, limit, reading, count, readAt, outcome, _) =>
      var clock := Later(s.clock, reading);
      if limit <= 0 || outcome == NotReplaced then s.(clock := clock) else
      State(Reserved(s.ledger, user, limit, count, reading),
            if LetIn(w, s, e) then s.clients + [Client(clock, None, None)] else s.clients,
            clock, s.tick, if user == w.subject then readAt else s.applied)
    case Shows(i) =>
      if i < |s.clients| then
        s.(clients := s.clients[i := s.clients[i].(shown := Some(s.tick + 1))], tick := s.tick + 1)
      else s
    case Leaves(i) =>
      if i < |s.clients| then
        s.(clients := s.clients[i := s.clients[i].(gone := Some(s.tick + 1))], tick := s.tick + 1)
      else s
  }

  function After(w: World, events: seq<Event>): State {
    if events == [] then State(w.ledger, [], 0.0, 0, 0)
    else Step(w, After(w, events[..|events| - 1]), events[|events| - 1])
  }

  ghost predicate Runs(w: World, events: seq<Event>) {
    events == [] ||
    (Runs(w, events[..|events| - 1]) && Enabled(w, After(w, events[..|events| - 1]), events[|events| - 1]))
  }

  /** The last event, if it let a client in, kept the subject within that request's limit. */
  ghost predicate WithinLimit(w: World, events: seq<Event>)
    requires events != []
  {
    var e := events[|events| - 1];
    LetIn(w, After(w, events[..|events| - 1]), e) ==> Connected(After(w, events).clients) <= e.limit
  }

  /* ---- Counting ---- */

  ghost predicate Ordered(cs: seq<Client>) {
    forall i, j | 0 <= i < j < |cs| :: cs[i].at <= cs[j].at
  }

  ghost predicate Sorted(a: seq<real>) {
    forall i, j | 0 <= i < j < |a| :: a[i] <= a[j]
  }

  /** The i-th newest. */
  function Newest(a: seq<real>, i: nat): real
    requires i < |a|
  {
    a[|a| - 1 - i]
  }

  ghost predicate NoYounger(a: seq<real>, b: seq<real>) {
    |a| <= |b| && forall i | 0 <= i < |a| :: Newest(a, i) <= Newest(b, i)
  }

  lemma NoYoungerBoth(a: seq<real>, b: seq<real>, x: real)
    requires NoYounger(a, b)
    ensures NoYounger(a + [x], b + [x])
  {
    forall i | 0 <= i < |a| + 1
      ensures Newest(a + [x], i) <= Newest(b + [x], i)
    {
      if i > 0 {
        assert Newest(a + [x], i) == Newest(a, i - 1) && Newest(b + [x], i) == Newest(b, i - 1);
      }
    }
  }

  lemma NoYoungerMore(a: seq<real>, b: seq<real>, x: real)
    requires NoYounger(a, b) && Sorted(b + [x])
    ensures NoYounger(a, b + [x])
  {
    forall i | 0 <= i < |a|
      ensures Newest(a, i) <= Newest(b + [x], i)
    {
      assert Newest(b, i) == (b + [x])[|b| - 1 - i] <= (b + [x])[|b| - i];
    }
  }

  /** Between two readings the count rises by no more than the clients it newly shows,
      and those still absent are no younger, rank by rank, than before. */
  lemma {:induction false} AbsentShrinks(cs: seq<Client>, n: nat, m: nat)
    requires n <= m && Ordered(cs)
    ensures |Absent(cs, m)| + Online(cs, m) <= |Absent(cs, n)| + Online(cs, n)
    ensures NoYounger(Absent(cs, m), Absent(cs, n))
  {
    if cs == [] {
    } else {
      var init, last := cs[..|cs| - 1], cs[|cs| - 1];
      AbsentShrinks(init, n, m);
      if AbsentThen(last, m) {
        NoYoungerBoth(Absent(init, m), Absent(init, n), last.at);
      } else if AbsentThen(last, n) {
        AbsentOrdered(cs, n);
        NoYoungerMore(Absent(init, m), Absent(init, n), last.at);
      } else {
        assert Absent(cs, m) == Absent(init, m) && Absent(cs, n) == Absent(init, n);
      }
    }
  }

  lemma {:induction false} AbsentAmong(cs: seq<Client>, n: nat)
    ensures forall t | t in Absent(cs, n) :: exists c :: c in cs && c.at == t && AbsentThen(c, n)
    ensures forall c | c in cs && AbsentThen(c, n) :: c.at in Absent(cs, n)
  {
    if cs == [] {
    } else {
      var init := cs[..|cs| - 1];
      AbsentAmong(init, n);
      forall t | t in Absent(cs, n)
        ensures exists c :: c in cs && c.at == t && AbsentThen(c, n)
      {
        if t in Absent(init, n) {
          var c :| c in init && c.at == t && AbsentThen(c, n);
        }
      }
    }
  }

  lemma {:induction false} AbsentOrdered(cs: seq<Client>, n: nat)
    requires Ordered(cs)
    ensures Sorted(Absent(cs, n))
  {
    if cs == [] {
    } else {
      var init, last := cs[..|cs| - 1], cs[|cs| - 1];
      AbsentOrdered(init, n);
      AbsentAmong(init, n);
      forall t | t in Absent(init, n)
        ensures t <= last.at
      {
        var c :| c in init && c.at == t;
      }
      var a := Absent(cs, n);
      forall i, j | 0 <= i < j < |a|
        ensures a[i] <= a[j]
      {
        if j >= |Absent(init, n)| {
          assert Absent(init, n)[i] in Absent(init, n);
        }
      }
    }
  }

  lemma {:induction false} ConnectedAreKnown(cs: seq<Client>, n: nat)
    ensures Connected(cs) <= Online(cs, n) + |Absent(cs, n)|
  {
    if cs == [] {
    } else {
      ConnectedAreKnown(cs[..|cs| - 1], n);
    }
  }

  /** What happens after tick n does not change what was read at n. */
  lemma {:induction false} PastStays(cs: seq<Client>, i: nat, c: Client, n: nat)
    requires i < |cs| && c.at == cs[i].at
    requires AbsentThen(c, n) == AbsentThen(cs[i], n) && OnlineThen(c, n) == OnlineThen(cs[i], n)
    ensures Absent(cs[i := c], n) == Absent(cs, n) && Online(cs[i := c], n) == Online(cs, n)
  {
    var init := cs[..|cs| - 1];
    if i < |cs| - 1 {
      PastStays(init, i, c, n);
    }
  }

  /* ---- The invariant ---- */

  function Pending(l: Ledger, u: User): seq<real> { if u in l then l[u].pending else [] }

  /** The newest reservations stand for the absent clients, rank by rank. */
  ghost predicate Covers(p: seq<real>, absent: seq<real>, skew: real) {
    && |absent| <= |p|
    && forall i | 0 <= i < |absent| :: absent[i] <= p[|p| - |absent| + i] + skew
  }

  /** Every absent client has to be in the next count. */
  ghost predicate AllDue(w: World, s: State) {
    forall t | t in Absent(s.clients, s.applied) :: t <= s.clock - w.lag
  }

  /** Clients absent at the last applied count were let in within one lag of any other. */
  ghost predicate Close(w: World, s: State) {
    forall t, c | t in Absent(s.clients, s.applied) && c in s.clients :: c.at <= t + w.lag
  }

  ghost predicate Based(w: World, s: State) {
    w.subject in s.ledger && s.ledger[w.subject].observed.Some? ==>
      || s.ledger[w.subject].observed.value == Online(s.clients, s.applied)
      || Absent(s.clients, s.applied) == []
  }

  ghost predicate Past(s: State) {
    && s.applied <= s.tick
    && Ordered(s.clients)
    && forall c | c in s.clients ::
         c.at <= s.clock && (c.shown.Some? ==> By(c.shown, s.tick)) && (c.gone.Some? ==> By(c.gone, s.tick))
  }

  ghost predicate Guarded(w: World, s: State) {
    || Covers(Pending(s.ledger, w.subject), Absent(s.clients, s.applied), w.skew)
    || AllDue(w, s)
  }

  ghost predicate Inv(w: World, s: State) {
    Past(s) && Close(w, s) && Based(w, s) && Guarded(w, s)
  }

  /** A lag of at most half the reservation's life, less the skew of the readings. */
  ghost predicate HalfLife(w: World) {
    0.0 <= w.lag && 0.0 <= w.skew && 2.0 * w.lag + w.skew <= TTL_SECONDS
  }

  lemma {:induction false} LiveSuffix(p: seq<real>, from: nat, cutoff: real)
    requires from <= |p|
    requires forall i | from <= i < |p| :: p[i] > cutoff
    ensures |Live(p, cutoff)| >= |p| - from
    ensures Live(p, cutoff)[|Live(p, cutoff)| - (|p| - from)..] == p[from..]
  {
    if p == [] {
    } else {
      LiveSuffix(p[1..], if from == 0 then 0 else from - 1, cutoff);
    }
  }

  lemma PendingPruned(l: Ledger, u: User, cutoff: real)
    ensures Pending(PrunedLedger(l, cutoff), u) == Live(Pending(l, u), cutoff)
  {
  }

  lemma PruneSpares(p: seq<real>, absent: seq<real>, cutoff: real, skew: real)
    requires Covers(p, absent, skew) && forall j | |p| - |absent| <= j < |p| :: p[j] > cutoff
    ensures Covers(Live(p, cutoff), absent, skew)
  {
    var from, q := |p| - |absent|, Live(p, cutoff);
    LiveSuffix(p, from, cutoff);
    forall i | 0 <= i < |absent|
      ensures absent[i] <= q[|q| - |absent| + i] + skew
    {
    }
  }

  /** Pruning either spares every reservation an absent client relies on, or comes so
      late that all absent clients are due. */
  lemma PruneGuards(w: World, s: State, reading: real)
    requires Inv(w, s) && HalfLife(w) && s.clock - w.skew <= reading
    ensures var absent := Absent(s.clients, s.applied);
            || Covers(Live(Pending(s.ledger, w.subject), reading - TTL_SECONDS), absent, w.skew)
            || forall t | t in absent :: t <= Later(s.clock, reading) - w.lag
  {
    var absent := Absent(s.clients, s.applied);
    var p := Pending(s.ledger, w.subject);
    var cutoff := reading - TTL_SECONDS;
    AbsentAmong(s.clients, s.applied);
    hide Live, Absent, Online;
    if Covers(p, absent, w.skew) {
      var from := |p| - |absent|;
      if j :| from <= j < |p| && p[j] <= cutoff {
        assert absent[j - from] in absent;
      } else {
        PruneSpares(p, absent, cutoff, w.skew);
      }
    }
  }

  lemma CoversDropped(p: seq<real>, before: seq<real>, now: seq<real>, k: nat, skew: real)
    requires Covers(p, before, skew) && NoYounger(now, before) && k + |now| <= |before|
    ensures Covers(p[k..], now, skew)
  {
    forall i | 0 <= i < |now|
      ensures now[i] <= p[k..][|p| - k - |now| + i] + skew
    {
      var back := |now| - 1 - i;
      assert Newest(now, back) <= Newest(before, back);
    }
  }

  lemma CoversReserved(p: seq<real>, absent: seq<real>, reading: real, clock: real, skew: real)
    requires Covers(p, absent, skew) && Sorted(absent + [clock]) && clock <= reading + skew
    ensures Covers(p + [reading], absent + [clock], skew) && Covers(p + [reading], absent, skew)
  {
    forall i | 0 <= i < |absent|
      ensures absent[i] <= (p + [reading])[|p| + 1 - |absent| + i] + skew
    {
      assert absent[i] == (absent + [clock])[i] <= (absent + [clock])[i + 1];
    }
  }

  lemma DueAreShown(w: World, s: State, e: Event)
    requires Past(s)
    requires e.Ask? && e.user == w.subject && Timely(w, s, e)
    requires forall t | t in Absent(s.clients, s.applied) :: t <= Later(s.clock, e.reading) - w.lag
    ensures Absent(s.clients, e.readAt) == []
  {
    AbsentAmong(s.clients, s.applied);
    forall c | c in s.clients
      ensures !AbsentThen(c, e.readAt)
    {
    }
    NoneAbsent(s.clients, e.readAt);
  }

  lemma {:induction false} NoneAbsent(cs: seq<Client>, n: nat)
    requires forall c | c in cs :: !AbsentThen(c, n)
    ensures Absent(cs, n) == []
  {
    if cs == [] {
    } else {
      NoneAbsent(cs[..|cs| - 1], n);
    }
  }

  /** What the request leaves waiting covers the clients its count does not show. */
  lemma WaitingCovers(w: World, s: State, e: Event)
    requires Inv(w, s) && HalfLife(w)
    requires e.Ask? && e.user == w.subject && Timely(w, s, e)
    ensures Covers(Waiting(s.ledger, e.user, e.count, e.reading), Absent(s.clients, e.readAt), w.skew)
  {
    var cutoff := e.reading - TTL_SECONDS;
    var before, now := Absent(s.clients, s.applied), Absent(s.clients, e.readAt);
    var p := Live(Pending(s.ledger, w.subject), cutoff);
    AbsentShrinks(s.clients, s.applied, e.readAt);
    PruneGuards(w, s, e.reading);
    if !Covers(p, before, w.skew) {
      DueAreShown(w, s, e);
    } else if before != [] {
      var r := Entry(s.ledger, e.user, e.count, e.reading);
      assert r.pending == p;
      CoversDropped(p, before, now, Reflected(r, e.count), w.skew);
    }
  }

  lemma AskGuards(w: World, s: State, e: Event)
    requires Inv(w, s) && HalfLife(w)
    requires e.Ask? && e.user == w.subject && Timely(w, s, e) && e.limit > 0 && e.outcome != NotReplaced
    ensures Guarded(w, Step(w, s, e)) && Based(w, Step(w, s, e))
  {
    var clock := Later(s.clock, e.reading);
    var rest := Waiting(s.ledger, e.user, e.count, e.reading);
    var absent := Absent(s.clients, e.readAt);
    var added := Client(clock, None, None);
    assert Covers(rest, absent, w.skew) by { WaitingCovers(w, s, e); }
    assert Sorted(absent + [clock]) by {
      assert Ordered(s.clients + [added]);
      AbsentOrdered(s.clients + [added], e.readAt);
    }
    CoversReserved(rest, absent, e.reading, clock, w.skew);
    AskLeaves(w, s, e);
    hide Inv, HalfLife, Timely, Waiting, Absent, Online, Entry, Reflected, PrunedLedger, Covers, Reserved, Step,
         Admits, LetIn, AllDue;
  }

  /** The subject's record and clients after a request of the subject's. */
  lemma AskLeaves(w: World, s: State, e: Event)
    requires e.Ask? && e.user == w.subject && Timely(w, s, e) && e.limit > 0 && e.outcome != NotReplaced
    ensures var t := Step(w, s, e);
            var rest := Waiting(s.ledger, e.user, e.count, e.reading);
            var admits := Admits(s.ledger, e.user, e.limit, e.count, e.reading);
            && t.applied == e.readAt && t.clock == Later(s.clock, e.reading)
            && Pending(t.ledger, w.subject) == (if admits then rest + [e.reading] else rest)
            && (w.subject in t.ledger ==> t.ledger[w.subject].observed == Some(Online(s.clients, e.readAt)))
            && (t.clients == s.clients || (admits && t.clients == s.clients + [Client(t.clock, None, None)]))
  {
  }

  /** What a request does to the clients and the clock. */
  lemma AskSays(w: World, s: State, e: Event)
    requires e.Ask? && e.user == w.subject && e.limit > 0 && e.outcome != NotReplaced
    ensures var t := Step(w, s, e);
            && t.applied == e.readAt && t.tick == s.tick && t.clock == Later(s.clock, e.reading)
            && (t.clients == s.clients || t.clients == s.clients + [Client(t.clock, None, None)])
  {
    hide Reserved, Admits;
  }

  lemma AskKeepsClose(w: World, s: State, e: Event)
    requires Past(s) && 0.0 <= w.lag
    requires e.Ask? && e.user == w.subject && Timely(w, s, e) && e.limit > 0 && e.outcome != NotReplaced
    ensures Close(w, Step(w, s, e)) && Past(Step(w, s, e))
  {
    var t := Step(w, s, e);
    AskSays(w, s, e);
    AbsentAmong(t.clients, t.applied);
    hide Step, LetIn, Reserved, Admits, Absent, Online;
    assert forall c | c in t.clients :: c in s.clients || c == Client(t.clock, None, None);
    forall x, c | x in Absent(t.clients, t.applied) && c in t.clients
      ensures c.at <= x + w.lag
    {
      var d :| d in t.clients && d.at == x && AbsentThen(d, t.applied);
      assert c.at <= t.clock;
    }
  }

  lemma OthersPrune(w: World, s: State, e: Event)
    requires Inv(w, s) && HalfLife(w)
    requires e.Ask? && Timely(w, s, e) && e.user != w.subject && e.limit > 0 && e.outcome != NotReplaced
    ensures Guarded(w, Step(w, s, e)) && Based(w, Step(w, s, e))
  {
    PendingPruned(s.ledger, w.subject, e.reading - TTL_SECONDS);
    PruneGuards(w, s, e.reading);
    hide Close, Past, Timely, Waiting, Absent, Online, Entry, Reflected, PrunedLedger, Covers, Live;
  }

  lemma OthersKeep(w: World, s: State, e: Event)
    requires Inv(w, s) && HalfLife(w)
    requires e.Ask? && Timely(w, s, e) && (e.user != w.subject || e.limit <= 0 || e.outcome == NotReplaced)
    ensures Inv(w, Step(w, s, e))
  {
    hide Reserved, Timely, Absent, Online, Covers, HalfLife;
    if e.limit > 0 && e.outcome != NotReplaced {
      OthersPrune(w, s, e);
      hide Guarded, Based;
    }
  }

  lemma ClientKeeps(w: World, s: State, e: Event)
    requires Inv(w, s) && Enabled(w, s, e) && !e.Ask?
    ensures Inv(w, Step(w, s, e))
  {
    var t := Step(w, s, e);
    PastStays(s.clients, e.client, t.clients[e.client], s.applied);
    assert forall c | c in t.clients :: c in s.clients || c == t.clients[e.client];
    forall x, c | x in Absent(t.clients, t.applied) && c in t.clients
      ensures c.at <= x + w.lag
    {
      var d := if c in s.clients then c else s.clients[e.client];
      assert d in s.clients && d.at == c.at;
    }
  }

  lemma StepKeeps(w: World, s: State, e: Event)
    requires Inv(w, s) && HalfLife(w) && Enabled(w, s, e)
    ensures Inv(w, Step(w, s, e))
  {
    if !e.Ask? {
      ClientKeeps(w, s, e);
    } else if e.user != w.subject || e.limit <= 0 || e.outcome == NotReplaced {
      OthersKeep(w, s, e);
    } else {
      AskKeepsClose(w, s, e);
      AskGuards(w, s, e);
    }
  }

  lemma {:induction false} EveryRunGuarded(w: World, events: seq<Event>)
    requires Runs(w, events) && HalfLife(w)
    ensures Inv(w, After(w, events))
  {
    if events == [] {
    } else {
      EveryRunGuarded(w, events[..|events| - 1]);
      StepKeeps(w, After(w, events[..|events| - 1]), events[|events| - 1]);
    }
  }

  /** In every run each admission leaves the user within the limit it was checked against. */
  lemma NeverTooManyDevices(w: World, events: seq<Event>)
    requires Runs(w, events) && HalfLife(w) && events != []
    ensures WithinLimit(w, events)
  {
    var s, e := After(w, events[..|events| - 1]), events[|events| - 1];
    EveryRunGuarded(w, events[..|events| - 1]);
    if LetIn(w, s, e) {
      WaitingCovers(w, s, e);
      ConnectedAreKnown(s.clients, e.readAt);
    }
  }

  /* ---- Half the life is exactly the bound ---- */

  /** Two clients come in; the first one's reservation expires just as it is shown, so
      showing it uses up the reservation of the second, still absent one. */
  function Overrun(w: World): seq<Event> {
    var second := if w.skew < TTL_SECONDS then (TTL_SECONDS + w.skew) / 2.0 else w.skew;
    [Ask(w.subject + 1, 1, w.skew, 0, 0, Durable, true),
     Ask(w.subject, 2, 0.0, 0, 0, Durable, true),
     Ask(w.subject, 2, second, 0, 0, Durable, true),
     Shows(0),
     Ask(w.subject, 2, Later(TTL_SECONDS, second), 1, 1, Durable, true)]
  }

  lemma RunsOneMore(w: World, before: seq<Event>, e: Event)
    requires Runs(w, before) && Enabled(w, After(w, before), e)
    ensures Runs(w, before + [e]) && After(w, before + [e]) == Step(w, After(w, before), e)
  {
  }

  /** The three admissions of that run, up to the moment the first client is shown. */
  lemma OverrunBegins(w: World)
    requires 0.0 < w.lag && 0.0 <= w.skew && TTL_SECONDS < 2.0 * w.lag + w.skew && w.ledger == map[]
    ensures var es := Overrun(w);
            && Runs(w, es[..2])
            && After(w, es[..2]).clients == [Client(w.skew, None, None)]
            && w.subject in After(w, es[..2]).ledger
            && After(w, es[..2]).ledger[w.subject] == Record(Some(0), [0.0])
            && After(w, es[..2]).clock == w.skew
            && After(w, es[..2]).tick == 0 && After(w, es[..2]).applied == 0
  {
    var es := Overrun(w);
    RunsOneMore(w, es[..0], es[0]);
    hide Step, Timely;
  }

  lemma OverrunSecond(w: World, s: State)
    requires 0.0 < w.lag && 0.0 <= w.skew && TTL_SECONDS < 2.0 * w.lag + w.skew
    requires w.subject in s.ledger && s.ledger[w.subject] == Record(Some(0), [0.0])
    requires s.clients == [Client(w.skew, None, None)] && s.clock == w.skew && s.tick == 0 && s.applied == 0
    ensures var e := Overrun(w)[2]; var t := Step(w, s, e);
            && Enabled(w, s, e)
            && t.clients == [Client(w.skew, None, None), Client(e.reading, None, None)]
            && w.subject in t.ledger && t.ledger[w.subject].observed == Some(0)
            && (t.ledger[w.subject].pending == [e.reading] || t.ledger[w.subject].pending == [0.0, e.reading])
            && t.clock == e.reading && t.tick == 0 && t.applied == 0
  {
  }

  lemma OverrunLast(w: World, s: State, first: real)
    requires 0.0 < w.lag && 0.0 <= w.skew && TTL_SECONDS < 2.0 * w.lag + w.skew
    requires var second := Overrun(w)[2].reading;
             && w.subject in s.ledger && s.ledger[w.subject].observed == Some(0)
             && (s.ledger[w.subject].pending == [second] || s.ledger[w.subject].pending == [0.0, second])
             && s.clients == [Client(first, Some(1), None), Client(second, None, None)]
             && s.clock == second && s.tick == 1 && s.applied == 0
    ensures var e := Overrun(w)[4];
            Enabled(w, s, e) && LetIn(w, s, e) && Connected(Step(w, s, e).clients) == 3
  {
    var second, e := Overrun(w)[2].reading, Overrun(w)[4];
    var a := s.clients[0];
    assert s.clients[..1] == [a] && [a][..0] == [];
    assert Online([a], 1) == 1 && Online(s.clients, 1) == 1;
    assert Connected([a]) == 1 && Connected(s.clients) == 2;
    var cutoff := e.reading - TTL_SECONDS;
    assert [0.0, second][1..] == [second] && [second][1..] == [];
    assert Live([second], cutoff) == [second] && Live([0.0, second], cutoff) == [second];
    assert Waiting(s.ledger, w.subject, 1, e.reading) == [];
  }

  lemma LateCountsOverrun(w: World)
    requires 0.0 < w.lag && 0.0 <= w.skew && TTL_SECONDS < 2.0 * w.lag + w.skew && w.ledger == map[]
    ensures Runs(w, Overrun(w)) && !WithinLimit(w, Overrun(w))
  {
    var es := Overrun(w);
    assert es[..3] == es[..2] + [es[2]] && es[..4] == es[..3] + [es[3]] && es == es[..4] + [es[4]];
    OverrunBegins(w);
    OverrunSecond(w, After(w, es[..2]));
    RunsOneMore(w, es[..2], es[2]);
    OverrunShows(w, After(w, es[..3]));
    OverrunLast(w, After(w, es[..4]), w.skew);
    hide Waiting, Reserved, Connected, Online, Timely, LetIn, Step, Runs, After;
  }

  lemma OverrunShows(w: World, s: State)
    requires |s.clients| == 2 && s.clients[0].shown.None? && s.clients[0].gone.None? && s.tick == 0
    ensures var e := Overrun(w)[3]; var t := Step(w, s, e);
            Enabled(w, s, e) && t == s.(clients := [s.clients[0].(shown := Some(1)), s.clients[1]], tick := 1)
  {
  }

  ghost predicate SafeAt(lag: real, skew: real) {
    forall w: World, events: seq<Event> |
      w.lag == lag && w.skew == skew && events != [] && Runs(w, events) :: WithinLimit(w, events)
  }

  /** The device limit holds over every run exactly when an admission shows up within
      half the reservation's life, counting the skew once. */
  lemma SafeExactlyWithinHalf(lag: real, skew: real)
    requires 0.0 < lag && 0.0 <= skew
    ensures SafeAt(lag, skew) <==> 2.0 * lag + skew <= TTL_SECONDS
  {
    if 2.0 * lag + skew <= TTL_SECONDS {
      forall w: World, events: seq<Event> |
        w.lag == lag && w.skew == skew && events != [] && Runs(w, events)
        ensures WithinLimit(w, events)
      {
        NeverTooManyDevices(w, events);
      }
    } else {
      var w := World(0, lag, skew, map[]);
      LateCountsOverrun(w);
    }
  }
}
