/** The per-source window of the password work limiter, exactly: every source keeps its burst
    in every run if and only if the overall burst is no larger than the burst of one source,
    or smaller than the number of tracked sources. */
module WorkLimiterExact {
  import opened StateStore
  import opened WorkLimiter
  import opened WorkLimiterRuns

  /** In every run no source gets more grants than its burst into a half-open window. */
  ghost predicate BurstsHold(b: Bounds)
    requires ValidBounds(b)
  {
    forall start: real, events: seq<Event>, x: Source, w: Window | Runs(b, start, events) ::
      Count(w, b.window, TimesOf(After(b, start, events).granted, x)) <= b.perSource
  }

  /* ---- Nobody is evicted while fewer grants are unexpired than sources fit ---- */

  /** Every grant is logged with its source, and no later than the last reading. */
  ghost predicate Timed(s: State) {
    && |s.all| == |s.granted|
    && forall i | 0 <= i < |s.all| :: s.all[i] == s.granted[i].1 <= s.last
  }

  /** Every event in the table is the time of a grant to that source. */
  ghost predicate Logged(s: State) {
    forall y: Source, t: real | t in Kept(s.limiter.tracked, y) :: (y, t) in s.granted
  }

  lemma {:induction false} PruneMeans(events: seq<real>, cutoff: real)
    ensures forall t | t in Prune(events, cutoff) :: t in events
    ensures Prune(events, cutoff) != [] ==> Prune(events, cutoff)[0] > cutoff
  {
    if events != [] && events[0] <= cutoff {
      PruneMeans(events[1..], cutoff);
    }
  }

  lemma StepTimed(b: Bounds, s: State, e: Event)
    requires ValidBounds(b) && Matches(s.limiter.tracked) && (e.Tries? ==> s.last <= e.now)
    requires Timed(s)
    ensures Timed(Step(b, s, e))
  {
    hide Tried, Matches, Evicts;
  }

  lemma StepLogged(b: Bounds, s: State, e: Event)
    requires ValidBounds(b) && Matches(s.limiter.tracked) && Logged(s)
    ensures Logged(Step(b, s, e))
  {
    var n := Step(b, s, e);
    if e.Tries? {
      forall y: Source, t: real | t in Kept(n.limiter.tracked, y)
        ensures (y, t) in n.granted
      {
        PruneMeans(Kept(s.limiter.tracked, y), e.now - b.window);
        StepSays(b, s, e);
        if y == e.source {
          StepOnOwn(b, s, e);
        } else {
          StepOnOther(b, s, e, y);
        }
        hide Step, Tried, Matches, Kept, Prune, Log;
      }
    }
  }

  lemma {:induction false} EveryRunLogged(b: Bounds, start: real, events: seq<Event>)
    requires ValidBounds(b) && Runs(b, start, events)
    ensures Timed(After(b, start, events)) && Logged(After(b, start, events))
  {
    if events == [] {
    } else {
      var before := events[..|events| - 1];
      EveryRunLogged(b, start, before);
      StepTimed(b, After(b, start, before), events[|events| - 1]);
      StepLogged(b, After(b, start, before), events[|events| - 1]);
    }
  }

  lemma FirstIn(order: seq<Source>)
    requires order != []
    ensures order[0] in order
  {
  }

  /** Different sources with a grant in the window account for different grants. */
  lemma {:induction false} SourcesWithin(granted: seq<(Source, real)>, all: seq<real>, order: seq<Source>, w: Window,
                                         length: real)
    requires |all| == |granted| && forall i | 0 <= i < |all| :: all[i] == granted[i].1
    requires forall i, j | 0 <= i < j < |order| :: order[i] != order[j]
    requires forall y | y in order :: exists t: real :: (y, t) in granted && Inside(w, length, t)
    ensures |order| <= Count(w, length, all)
  {
    if granted == [] {
      if order != [] {
        FirstIn(order);
        assert false;
      }
    } else {
      var k := |granted| - 1;
      var rest := if Inside(w, length, all[k]) then Without(order, granted[k].0) else order;
      WithoutMeans(order, granted[k].0);
      forall y | y in rest
        ensures exists t: real :: (y, t) in granted[..k] && Inside(w, length, t)
      {
        var t: real :| (y, t) in granted && Inside(w, length, t);
        var i :| 0 <= i < |granted| && granted[i] == (y, t);
        assert i < k && granted[..k][i] == (y, t);
      }
      hide Without, Inside;
      SourcesWithin(granted[..k], all[..k], rest, w, length);
    }
  }

  /** After a cleanup at most `overall` sources are left. */
  lemma CleanedFits(b: Bounds, s: State, now: real)
    requires ValidBounds(b) && Inv(b, s) && Timed(s) && Logged(s) && s.last <= now
    ensures |CleanedUp(s.limiter.tracked, now - b.window).order| <= b.overall
  {
    var t, cutoff := s.limiter.tracked, now - b.window;
    var w, order := Window(cutoff, true), NonEmpty(t.order, t.events, cutoff);
    NonEmptyMeans(t.order, t.events, cutoff);
    forall y | y in order
      ensures exists g: real :: (y, g) in s.granted && Inside(w, b.window, g)
    {
      PruneMeans(t.events[y], cutoff);
      var g := Prune(t.events[y], cutoff)[0];
      assert g in Kept(t, y);
      var i :| 0 <= i < |s.granted| && s.granted[i] == (y, g);
      assert s.all[i] == g;
      assert (y, g) in s.granted && Inside(w, b.window, g);
    }
    SourcesWithin(s.granted, s.all, order, w, b.window);
    assert Count(w, b.window, s.all) <= b.overall;
  }

  /** With room once the expired events are gone, a lookup forgets no unexpired ones. */
  lemma RoomKeeps(t: Tracked, s: Source, cutoff: real, maxSources: nat, x: Source)
    requires Matches(t) && |CleanedUp(t, cutoff).order| < maxSources
    requires x in t.events && Prune(t.events[x], cutoff) != []
    ensures x in Touched(t, s, cutoff, maxSources).events
  {
    CleanedUpMatches(t, cutoff);
    EvictedMeans(CleanedUp(t, cutoff), maxSources);
    EvictedMeans(t, maxSources);
    hide Prune, NonEmpty, Without, Evicted;
  }

  lemma NotEvicted(b: Bounds, s: State, e: Event, x: Source)
    requires ValidBounds(b) && Inv(b, s) && Timed(s) && Logged(s) && (e.Tries? ==> s.last <= e.now)
    requires b.overall < b.maxSources
    ensures !Evicts(b, s, e, x)
  {
    hide Step, Tried, Kept, Prune, Timed, Logged, Touched, CleanedUp, Agrees, AtMost, SourceFine;
    var t := s.limiter.tracked;
    if e.Tries? && x != e.source {
      StepOnOtherKept(b, s, e, x);
      CleanedFits(b, s, e.now);
      if x in t.events && Prune(t.events[x], e.now - b.window) != [] {
        RoomKeeps(t, e.source, e.now - b.window, b.maxSources, x);
      }
    }
  }

  lemma {:induction false} NobodyEvicted(b: Bounds, start: real, events: seq<Event>, x: Source)
    requires ValidBounds(b) && Runs(b, start, events) && b.overall < b.maxSources
    ensures NeverEvicted(b, start, events, x)
  {
    if events == [] {
    } else {
      var before := events[..|events| - 1];
      NobodyEvicted(b, start, before, x);
      EveryRunKeeps(b, start, before);
      EveryRunLogged(b, start, before);
      NotEvicted(b, After(b, start, before), events[|events| - 1], x);
    }
  }

  /* ---- One source gets no more than all together ---- */

  lemma {:induction false} OneOfAll(granted: seq<(Source, real)>, all: seq<real>, x: Source, w: Window, length: real)
    requires |all| == |granted| && forall i | 0 <= i < |all| :: all[i] == granted[i].1
    ensures Count(w, length, TimesOf(granted, x)) <= Count(w, length, all)
  {
    if granted == [] {
    } else {
      var k := |granted| - 1;
      OneOfAll(granted[..k], all[..k], x, w, length);
      var times := TimesOf(granted[..k], x);
      assert (times + [all[k]])[..|times|] == times && times + [] == times;
    }
  }

  lemma SafeBounds(b: Bounds, start: real, events: seq<Event>, x: Source, w: Window)
    requires ValidBounds(b) && Runs(b, start, events)
    requires b.overall <= b.perSource || b.overall < b.maxSources
    ensures Count(w, b.window, TimesOf(After(b, start, events).granted, x)) <= b.perSource
  {
    if b.overall < b.maxSources {
      NobodyEvicted(b, start, events, x);
      SourceWindowHolds(b, start, events, x, w);
    } else {
      var s := After(b, start, events);
      OverallWindowHolds(b, start, events, w);
      EveryRunLogged(b, start, events);
      OneOfAll(s.granted, s.all, x, w, b.window);
    }
  }

  /* ---- Otherwise a source can be pushed out and start afresh ---- */

  /** Where a run stands between requests, when every lease was given back. */
  datatype Spot = Spot(overall: seq<real>, table: Tracked, at: real, granted: seq<(Source, real)>)

  ghost predicate Stands(b: Bounds, events: seq<Event>, p: Spot)
    requires ValidBounds(b)
  {
    && Runs(b, 0.0, events)
    && var s := After(b, 0.0, events);
       s.limiter == Limiter(p.overall, p.table) && s.open == {} && s.last == p.at && s.granted == p.granted
  }

  lemma Refused(b: Bounds, before: seq<Event>, p: Spot, x: Source, now: real, kept: seq<real>, table: Tracked)
    returns (events: seq<Event>)
    requires ValidBounds(b) && Matches(p.table) && Stands(b, before, p) && p.at <= now
    requires kept == Prune(p.overall, now - b.window) && |kept| >= b.overall
    requires table == Touched(p.table, x, now - b.window, b.maxSources)
    ensures Stands(b, events, Spot(kept, table, now, p.granted))
  {
    hide Step, Tried, Runs, After, Touched, Prune;
    events := before + [Tries(x, now)];
    var s := After(b, 0.0, before);
    OneMore(b, 0.0, before, Tries(x, now));
    TouchedStaysBounded(p.table, x, now - b.window, b.maxSources);
    TriedSays(b, s.limiter, 0, x, now, kept, table, table.events[x]);
    StepSays(b, s, Tries(x, now));
  }

  /** A request is let in and gives its lease back; `mine` is what the lookup left of its source. */
  lemma Admitted(b: Bounds, before: seq<Event>, p: Spot, x: Source, now: real, kept: seq<real>, order: seq<Source>,
                 rest: map<Source, seq<real>>, mine: seq<real>)
    returns (events: seq<Event>)
    requires ValidBounds(b) && Matches(p.table) && Stands(b, before, p) && p.at <= now
    requires kept == Prune(p.overall, now - b.window) && |kept| < b.overall && |mine| < b.perSource
    requires Touched(p.table, x, now - b.window, b.maxSources) == Tracked(order, rest[x := mine])
    ensures Stands(b, events, Spot(kept + [now], Tracked(order, rest[x := mine + [now]]), now, p.granted + [(x, now)]))
  {
    hide Step, Tried, Runs, After, Touched, Prune;
    var s := After(b, 0.0, before);
    events := before + [Tries(x, now)];
    OneMore(b, 0.0, before, Tries(x, now));
    TriedSays(b, s.limiter, 0, x, now, kept, Tracked(order, rest[x := mine]), mine);
    StepSays(b, s, Tries(x, now));
    assert rest[x := mine][x := mine + [now]] == rest[x := mine + [now]];
    OneMore(b, 0.0, events, Releases(|s.granted|));
    ReleaseSays(b, After(b, 0.0, events), |s.granted|);
    events := events + [Releases(|s.granted|)];
  }

  lemma ReleaseSays(b: Bounds, s: State, lease: nat)
    requires ValidBounds(b) && Matches(s.limiter.tracked)
    ensures Step(b, s, Releases(lease)) == s.(open := s.open - {lease})
  {
  }

  /* -- Tables in which every source has one event, x at `at` and the others at zero -- */

  function Singles(order: seq<Source>, x: Source, at: real): map<Source, seq<real>> {
    map y | y in order :: [if y == x then at else 0.0]
  }

  ghost predicate Distinct(ys: seq<Source>) {
    forall i, j | 0 <= i < j < |ys| :: ys[i] != ys[j]
  }

  /** What is left of a table when a newcomer needs a place. */
  function Room(order: seq<Source>, maxSources: nat): seq<Source> {
    if order != [] && |order| >= maxSources then order[1..] else order
  }

  /** A table of unexpired events comes through the cleanup as it is. */
  lemma {:induction false} NothingCleaned(order: seq<Source>, events: map<Source, seq<real>>, cutoff: real)
    requires forall y | y in order :: y in events && events[y] != [] && Prune(events[y], cutoff) == events[y]
    ensures NonEmpty(order, events, cutoff) == order
  {
    hide Prune;
    if order == [] {
    } else {
      NothingCleaned(order[1..], events, cutoff);
    }
  }

  lemma CleanTable(t: Tracked, cutoff: real)
    requires Matches(t)
    requires forall y | y in t.events :: t.events[y] != [] && Prune(t.events[y], cutoff) == t.events[y]
    ensures CleanedUp(t, cutoff) == t
  {
    hide Prune;
    NothingCleaned(t.order, t.events, cutoff);
  }

  /** In a full table of unexpired events a newcomer pushes the first one out. */
  lemma PushesOut(t: Tracked, y: Source, cutoff: real, maxSources: nat)
    requires Matches(t) && y !in t.events && |t.order| == maxSources > 0
    requires forall z | z in t.events :: t.events[z] != [] && Prune(t.events[z], cutoff) == t.events[z]
    ensures Touched(t, y, cutoff, maxSources) == Tracked(t.order[1..] + [y], (t.events - {t.order[0]})[y := []])
  {
    CleanTable(t, cutoff);
    hide Prune, CleanedUp;
    var rest := Tracked(t.order[1..], t.events - {t.order[0]});
    assert Evicted(rest, maxSources) == rest;
  }

  lemma NewcomerJoins(order: seq<Source>, x: Source, at: real, y: Source, cutoff: real, maxSources: nat)
    requires Distinct(order) && y !in order && |order| <= maxSources && 0 < maxSources && cutoff < 0.0 <= at
    ensures var t := Tracked(order, Singles(order, x, at));
            && Matches(t)
            && Touched(t, y, cutoff, maxSources)
               == Tracked(Room(order, maxSources) + [y], Singles(Room(order, maxSources), x, at)[y := []])
  {
    var t := Tracked(order, Singles(order, x, at));
    if |order| == maxSources {
      PushesOut(t, y, cutoff, maxSources);
      assert t.events - {order[0]} == Singles(order[1..], x, at);
    }
  }

  /** The first in the table tries again and goes to the end. */
  lemma FirstReturns(first: Source, rest: seq<Source>, x: Source, at: real, cutoff: real, maxSources: nat)
    requires Distinct([first] + rest) && 0 < maxSources && cutoff < 0.0 <= at
    ensures var t := Tracked([first] + rest, Singles([first] + rest, x, at));
            && Matches(t)
            && Touched(t, first, cutoff, maxSources) == Tracked(rest + [first], Singles(rest + [first], x, at))
  {
    assert ([first] + rest)[1..] == rest;
  }

  /* -- The run -- */

  function Same(t: real, n: nat): (ts: seq<real>)
    ensures |ts| == n && forall i | 0 <= i < n :: ts[i] == t
  {
    seq(n, i => t)
  }

  function Stamped(ys: seq<Source>): (g: seq<(Source, real)>)
    ensures |g| == |ys|
  {
    seq(|ys|, i requires 0 <= i < |ys| => (ys[i], 0.0))
  }

  /** The table once all of these came by. */
  function Came(ys: seq<Source>, maxSources: nat): seq<Source> {
    if ys == [] then [] else Room(Came(ys[..|ys| - 1], maxSources), maxSources) + [ys[|ys| - 1]]
  }

  lemma {:induction false} CameMeans(ys: seq<Source>, maxSources: nat)
    requires Distinct(ys) && 0 < maxSources
    ensures Distinct(Came(ys, maxSources)) && forall y | y in Came(ys, maxSources) :: y in ys
    ensures |Came(ys, maxSources)| == if |ys| <= maxSources then |ys| else maxSources
  {
    if ys == [] {
    } else {
      var init := ys[..|ys| - 1];
      assert forall y | y in init :: y in ys;
      CameMeans(init, maxSources);
      assert ys[|ys| - 1] !in init;
    }
  }

  lemma NewInRoom(order: seq<Source>, x: Source, at: real, y: Source, own: real)
    requires y !in order && own == (if y == x then at else 0.0)
    ensures Singles(order, x, at)[y := [own]] == Singles(order + [y], x, at)
  {
  }

  /** Others, each once, at time zero. */
  lemma {:induction false} OthersCome(b: Bounds, ys: seq<Source>, x: Source, at: real) returns (events: seq<Event>)
    requires ValidBounds(b) && Distinct(ys) && x !in ys && |ys| <= b.overall && 0.0 <= at
    ensures var order := Came(ys, b.maxSources);
            Stands(b, events, Spot(Same(0.0, |ys|), Tracked(order, Singles(order, x, at)), 0.0, Stamped(ys)))
  {
    hide Stands, Touched, Singles, Room;
    if ys == [] {
      events := [];
      NobodyCame(b, x, at);
      assert Same(0.0, 0) == [] && Stamped([]) == [];
    } else {
      var init, y, M := ys[..|ys| - 1], ys[|ys| - 1], b.maxSources;
      var order := Came(init, M);
      assert y !in init;
      events := OthersCome(b, init, x, at);
      CameMeans(init, M);
      NewcomerJoins(order, x, at, y, -b.window, M);
      var p := Spot(Same(0.0, |init|), Tracked(order, Singles(order, x, at)), 0.0, Stamped(init));
      events := Admitted(b, events, p, y, 0.0, p.overall, Room(order, M) + [y], Singles(Room(order, M), x, at), []);
      assert Same(0.0, |init|) + [0.0] == Same(0.0, |ys|) && Stamped(init) + [(y, 0.0)] == Stamped(ys);
      InRoom(order, M);
      NewInRoom(Room(order, M), x, at, y, 0.0);
      assert [] + [0.0] == [0.0];
    }
  }

  lemma NobodyCame(b: Bounds, x: Source, at: real)
    requires ValidBounds(b)
    ensures Stands(b, [], Spot([], Tracked([], Singles([], x, at)), 0.0, []))
  {
  }

  lemma InRoom(order: seq<Source>, maxSources: nat)
    requires Distinct(order)
    ensures Distinct(Room(order, maxSources)) && forall y | y in Room(order, maxSources) :: y in order
    ensures |Room(order, maxSources)| == if order != [] && |order| >= maxSources then |order| - 1 else |order|
  {
  }

  /** While the overall window is full, the sources before x in the table try again and x
      comes first. */
  lemma {:induction false} OthersReturn(b: Bounds, before: seq<Event>, p: Spot, front: seq<Source>, back: seq<Source>,
                                        x: Source, at: real)
    returns (events: seq<Event>)
    requires ValidBounds(b) && Stands(b, before, p) && Distinct(front + [x] + back) && 0.0 <= at < b.window
    requires p.table == Tracked(front + [x] + back, Singles(front + [x] + back, x, at)) && p.at == at
    requires |p.overall| == b.overall && p.overall[0] >= 0.0
    ensures var order := [x] + back + front;
            Stands(b, events, p.(table := Tracked(order, Singles(order, x, at))))
    decreases |front|
  {
    hide Stands, Touched, Singles, Distinct;
    if front == [] {
      events := before;
      assert front + [x] + back == [x] + back + front;
    } else {
      var first, rest := front[0], front[1..] + [x] + back;
      assert front + [x] + back == [first] + rest;
      FirstReturns(first, rest, x, at, at - b.window, b.maxSources);
      var next := Tracked(rest + [first], Singles(rest + [first], x, at));
      events := Refused(b, before, p, first, at, p.overall, next);
      assert rest + [first] == front[1..] + [x] + (back + [first]);
      DistinctTurned(first, rest);
      events := OthersReturn(b, events, p.(table := next), front[1..], back + [first], x, at);
      assert [x] + (back + [first]) + front[1..] == [x] + back + front;
    }
  }

  lemma DistinctTurned(first: Source, rest: seq<Source>)
    requires Distinct([first] + rest)
    ensures Distinct(rest + [first])
  {
    var all := [first] + rest;
    assert all[0] == first && forall i | 0 <= i < |rest| :: rest[i] == all[i + 1];
  }

  lemma {:induction false} NoneLeft(order: seq<Source>, events: map<Source, seq<real>>, cutoff: real)
    requires forall y | y in order :: y in events && Prune(events[y], cutoff) == []
    ensures NonEmpty(order, events, cutoff) == []
  {
    if order == [] {
    } else {
      NoneLeft(order[1..], events, cutoff);
    }
  }

  /** Expired events and a newcomer without any leave an empty table. */
  lemma AllExpired(order: seq<Source>, x: Source, z: Source, at: real, maxSources: nat)
    requires Distinct(order + [z]) && x !in order + [z] && |order| + 1 == maxSources
    ensures var t := Tracked(order + [z], Singles(order, x, at)[z := []]);
            Matches(t) && Touched(t, x, 0.0, maxSources) == Tracked([x], map[][x := []])
  {
    var t := Tracked(order + [z], Singles(order, x, at)[z := []]);
    hide NonEmpty, Without;
    assert z == t.order[|order|] && forall i | 0 <= i < |order| :: order[i] == t.order[i];
    assert forall y | y in t.order :: Prune(t.events[y], 0.0) == [];
    NoneLeft(t.order, t.events, 0.0);
    assert CleanedUp(t, 0.0) == Tracked([], map[]);
  }

  /** Alone in the table, x uses a whole burst. */
  lemma {:induction false} BurstUsed(b: Bounds, before: seq<Event>, p: Spot, x: Source, at: real, n: nat)
    returns (events: seq<Event>)
    requires ValidBounds(b) && Stands(b, before, p) && Matches(p.table) && 0.0 < at && p.at <= b.window
    requires Prune(p.overall, 0.0) == [at] && n <= b.perSource < b.overall
    requires Touched(p.table, x, 0.0, b.maxSources) == Tracked([x], map[][x := []])
    ensures n > 0 ==> Stands(b, events, Spot([at] + Same(b.window, n), Tracked([x], map[][x := Same(b.window, n)]),
                                             b.window, p.granted + seq(n, i => (x, b.window))))
  {
    hide Stands, Touched;
    events := before;
    if n == 1 {
      events := Admitted(b, before, p, x, b.window, [at], [x], map[], []);
      assert [] + [b.window] == Same(b.window, 1) && [at] + [b.window] == [at] + Same(b.window, 1);
      assert [(x, b.window)] == seq(1, i => (x, b.window));
    } else if n > 1 {
      var used, times := Same(b.window, n - 1), seq(n - 1, i => (x, b.window));
      events := BurstUsed(b, before, p, x, at, n - 1);
      var q := Spot([at] + used, Tracked([x], map[][x := used]), b.window, p.granted + times);
      AloneAgain(q.table, x, 0.0, b.maxSources);
      events := Admitted(b, events, q, x, b.window, q.overall, [x], map[], used);
      assert used + [b.window] == Same(b.window, n) && [at] + used + [b.window] == [at] + Same(b.window, n);
      assert times + [(x, b.window)] == seq(n, i => (x, b.window));
      assert p.granted + times + [(x, b.window)] == p.granted + seq(n, i => (x, b.window));
    }
  }

  lemma AloneAgain(t: Tracked, x: Source, cutoff: real, maxSources: nat)
    requires t.order == [x] && t.events.Keys == {x} && Prune(t.events[x], cutoff) == t.events[x] && maxSources > 0
    ensures Matches(t) && Touched(t, x, cutoff, maxSources) == t
  {
  }

  /** Others fill the overall window but for one grant, and x takes that one. */
  lemma LastComes(b: Bounds, ys: seq<Source>, x: Source, at: real) returns (events: seq<Event>)
    requires ValidBounds(b) && Distinct(ys) && x !in ys && |ys| + 1 == b.overall && 0.0 <= at < b.window
    ensures var order := Room(Came(ys, b.maxSources), b.maxSources) + [x];
            Stands(b, events, Spot(Same(0.0, |ys|) + [at], Tracked(order, Singles(order, x, at)), at,
                                   Stamped(ys) + [(x, at)]))
  {
    hide Stands, Touched, Singles, Room;
    var came, M := Came(ys, b.maxSources), b.maxSources;
    events := OthersCome(b, ys, x, at);
    CameMeans(ys, M);
    NewcomerJoins(came, x, at, x, at - b.window, M);
    var p := Spot(Same(0.0, |ys|), Tracked(came, Singles(came, x, at)), 0.0, Stamped(ys));
    events := Admitted(b, events, p, x, at, p.overall, Room(came, M) + [x], Singles(Room(came, M), x, at), []);
    InRoom(came, M);
    NewInRoom(Room(came, M), x, at, x, at);
    assert [] + [at] == [at];
  }

  /** With the overall window and the table full, a newcomer that is refused pushes x out. */
  lemma NewcomerPushes(b: Bounds, before: seq<Event>, p: Spot, order: seq<Source>, x: Source, z: Source, at: real)
    returns (events: seq<Event>)
    requires ValidBounds(b) && Stands(b, before, p) && Distinct(order + [x, z]) && 0.0 <= at < b.window
    requires p.table == Tracked(order + [x], Singles(order + [x], x, at)) && p.at == at
    requires |p.overall| == b.overall && p.overall[0] >= 0.0 && |order| + 1 == b.maxSources
    ensures Stands(b, events, p.(table := Tracked(order + [z], Singles(order, x, at)[z := []])))
  {
    hide Stands, Touched, Singles;
    Parts(order, x, z);
    assert order + [x] + [] == order + [x] && [x] + [] + order == [x] + order;
    events := OthersReturn(b, before, p, order, [], x, at);
    var q := p.(table := Tracked([x] + order, Singles([x] + order, x, at)));
    NewcomerJoins([x] + order, x, at, z, at - b.window, b.maxSources);
    assert Room([x] + order, b.maxSources) == order;
    events := Refused(b, events, q, z, at, p.overall, Tracked(order + [z], Singles(order, x, at)[z := []]));
  }

  /** The overall window is filled by others at time zero and by x before they expire; x is
      pushed out by a newcomer that is refused, and has its whole burst once they expired. */
  lemma PushedOut(b: Bounds, ys: seq<Source>, x: Source, z: Source) returns (events: seq<Event>)
    requires ValidBounds(b) && b.perSource < b.overall && b.maxSources <= b.overall
    requires Distinct(ys + [x, z]) && |ys| == b.overall - 1
    ensures Runs(b, 0.0, events)
    ensures After(b, 0.0, events).granted
            == Stamped(ys) + [(x, b.window / 2.0)] + seq(b.perSource, i => (x, b.window))
  {
    hide Touched, Singles, Prune, Distinct, After, Runs, Room;
    var at, came := b.window / 2.0, Came(ys, b.maxSources);
    var order := Room(came, b.maxSources);
    Parts(ys, x, z);
    events := LastComes(b, ys, x, at);
    CameMeans(ys, b.maxSources);
    InRoom(came, b.maxSources);
    Joined(order, x, z);
    var p := Spot(Same(0.0, |ys|) + [at], Tracked(order + [x], Singles(order + [x], x, at)), at,
                  Stamped(ys) + [(x, at)]);
    events := NewcomerPushes(b, events, p, order, x, z, at);
    var q := p.(table := Tracked(order + [z], Singles(order, x, at)[z := []]));
    AllExpired(order, x, z, at, b.maxSources);
    OnlyLast(|ys|, at);
    events := BurstUsed(b, events, q, x, at, b.perSource);
  }

  lemma Joined(order: seq<Source>, x: Source, z: Source)
    requires Distinct(order) && x !in order && z !in order && x != z
    ensures Distinct(order + [x, z]) && Distinct(order + [x]) && Distinct(order + [z])
  {
  }

  lemma Parts(ys: seq<Source>, x: Source, z: Source)
    requires Distinct(ys + [x, z])
    ensures Distinct(ys) && x !in ys && z !in ys && z != x
  {
    var all := ys + [x, z];
    assert all[|ys|] == x && all[|ys| + 1] == z && forall i | 0 <= i < |ys| :: all[i] == ys[i];
  }

  lemma {:induction false} OnlyLast(n: nat, at: real)
    requires 0.0 < at
    ensures Prune(Same(0.0, n) + [at], 0.0) == [at]
  {
    if n == 0 {
      assert Same(0.0, 0) + [at] == [at];
    } else {
      OnlyLast(n - 1, at);
      assert (Same(0.0, n) + [at])[1..] == Same(0.0, n - 1) + [at];
    }
  }

  /* ---- Counting the grants ---- */

  lemma {:induction false} TimesOfMore(granted: seq<(Source, real)>, more: seq<(Source, real)>, x: Source)
    ensures TimesOf(granted + more, x) == TimesOf(granted, x) + TimesOf(more, x)
  {
    if more == [] {
      assert granted + more == granted;
    } else {
      assert (granted + more)[..|granted + more| - 1] == granted + more[..|more| - 1];
      TimesOfMore(granted, more[..|more| - 1], x);
    }
  }

  lemma {:induction false} TimesOfOthers(ys: seq<Source>, x: Source)
    requires x !in ys
    ensures TimesOf(Stamped(ys), x) == []
  {
    if ys == [] {
    } else {
      assert Stamped(ys)[..|ys| - 1] == Stamped(ys[..|ys| - 1]);
      TimesOfOthers(ys[..|ys| - 1], x);
    }
  }

  lemma {:induction false} TimesOfOwn(x: Source, t: real, n: nat)
    ensures TimesOf(seq(n, i => (x, t)), x) == Same(t, n)
  {
    if n == 0 {
    } else {
      assert seq(n, i => (x, t))[..n - 1] == seq(n - 1, i => (x, t));
      TimesOfOwn(x, t, n - 1);
    }
  }

  lemma {:induction false} CountBurst(w: Window, length: real, first: real, t: real, n: nat)
    requires Inside(w, length, first) && Inside(w, length, t)
    ensures Count(w, length, [first] + Same(t, n)) == n + 1
  {
    if n == 0 {
      assert [first] + Same(t, 0) == [first];
    } else {
      assert ([first] + Same(t, n))[..n] == [first] + Same(t, n - 1);
      CountBurst(w, length, first, t, n - 1);
    }
  }

  /** A source that was pushed out gets one grant more than its burst into one window. */
  lemma EvictionForgets(b: Bounds, ys: seq<Source>, x: Source, z: Source) returns (events: seq<Event>)
    requires ValidBounds(b) && b.perSource < b.overall && b.maxSources <= b.overall
    requires Distinct(ys + [x, z]) && |ys| == b.overall - 1
    ensures Runs(b, 0.0, events)
    ensures Count(Window(b.window / 2.0, false), b.window, TimesOf(After(b, 0.0, events).granted, x))
            == b.perSource + 1
  {
    events := PushedOut(b, ys, x, z);
    var at, own := b.window / 2.0, seq(b.perSource, i => (x, b.window));
    hide Runs, After;
    Parts(ys, x, z);
    TimesOfOthers(ys, x);
    TimesOfOwn(x, b.window, b.perSource);
    TimesOfMore(Stamped(ys), [(x, at)], x);
    TimesOfMore(Stamped(ys) + [(x, at)], own, x);
    assert TimesOf([(x, at)], x) == [at] by { assert [(x, at)][..0] == []; }
    CountBurst(Window(at, false), b.window, at, b.window, b.perSource);
    assert [] + [at] + Same(b.window, b.perSource) == [at] + Same(b.window, b.perSource);
  }

  /* ---- Enough addresses ---- */

  function Numeral(n: nat): (text: string)
    ensures text != ""
  {
    (if n < 10 then "" else Numeral(n / 10)) + [('0' as int + n % 10) as char]
  }

  lemma {:induction false} NumeralsDiffer(m: nat, n: nat)
    requires m != n
    ensures Numeral(m) != Numeral(n)
  {
    var s, t := Numeral(m), Numeral(n);
    if m % 10 != n % 10 {
      assert s[|s| - 1] != t[|t| - 1];
    } else {
      assert m / 10 != n / 10;
      assert s[..|s| - 1] == if m < 10 then "" else Numeral(m / 10);
      assert t[..|t| - 1] == if n < 10 then "" else Numeral(n / 10);
      if m >= 10 && n >= 10 {
        NumeralsDiffer(m / 10, n / 10);
      }
    }
  }

  function Addresses(n: nat): (ys: seq<Source>)
    ensures |ys| == n
  {
    seq(n, i requires 0 <= i => Source(Numeral(i)))
  }

  lemma AddressesDistinct(n: nat)
    ensures Distinct(Addresses(n))
  {
    forall i, j | 0 <= i < j < n
      ensures Addresses(n)[i] != Addresses(n)[j]
    {
      NumeralsDiffer(i, j);
    }
  }

  /** The bounds for which no source ever exceeds its burst. */
  lemma SourceWindowExactly(b: Bounds)
    requires ValidBounds(b)
    ensures BurstsHold(b) <==> b.overall <= b.perSource || b.overall < b.maxSources
  {
    if b.overall <= b.perSource || b.overall < b.maxSources {
      forall start: real, events: seq<Event>, x: Source, w: Window | Runs(b, start, events)
        ensures Count(w, b.window, TimesOf(After(b, start, events).granted, x)) <= b.perSource
      {
        SafeBounds(b, start, events, x, w);
      }
    } else {
      var n := b.overall - 1;
      var ys := Addresses(b.overall + 1);
      AddressesDistinct(b.overall + 1);
      assert ys == ys[..n] + [ys[n], ys[n + 1]];
      var events := EvictionForgets(b, ys[..n], ys[n], ys[n + 1]);
    }
  }

  /** The bounds the service runs with. */
  const Deployed := Bounds(30.0, 3, 20, 1024, 2)

  /** In the service as it is deployed every source keeps its burst in every run. */
  lemma DeployedBurstsHold()
    ensures ValidBounds(Deployed) && BurstsHold(Deployed)
  {
    SourceWindowExactly(Deployed);
  }
}
