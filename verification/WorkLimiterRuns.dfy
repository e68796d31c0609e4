/** Runs of the password work limiter, with clock readings taken in the order of the lock. */
module WorkLimiterRuns {
  import opened StateStore
  import opened WorkLimiter

  /** `all` and `granted` log the grants, in order; `since` those of each source since it
      was last evicted by the cap. `open` holds the leases not yet released. */
  datatype State = State(
    limiter: Limiter,
    open: set<nat>,
    last: real,
    all: seq<real>,
    granted: seq<(Source, real)>,
    since: map<Source, seq<real>>)

  /** A request that got past the checks of source, clock and deadline, or a release. */
  datatype Event = Tries(source: Source, now: real) | Releases(lease: nat)

  function Start(now: real): State {
    State(Limiter([], Tracked([], map[])), {}, now, [], [], map[])
  }

  function Log(s: State, source: Source): seq<real> {
    if source in s.since then s.since[source] else []
  }

  /** Evicted by the cap: gone although it still had unexpired events. */
  predicate Evicts(b: Bounds, s: State, e: Event, source: Source)
    requires ValidBounds(b) && Matches(s.limiter.tracked)
  {
    && e.Tries?
    && source != e.source
    && source in s.limiter.tracked.events
    && Prune(s.limiter.tracked.events[source], e.now - b.window) != []
    && source !in Tried(b, s.limiter, |s.open|, e.source, e.now).0.tracked.events
  }

  function Step(b: Bounds, s: State, e: Event): (t: State)
    requires ValidBounds(b) && Matches(s.limiter.tracked)
    ensures Matches(t.limiter.tracked)
  {
    match e
    case Releases(lease) => s.(open := s.open - {lease})
    case Tries(source, now) =>
      var (limiter, granted) := Tried(b, s.limiter, |s.open|, source, now);
      var kept := map x | x in s.since && !Evicts(b, s, e, x) :: s.since[x];
      if granted then
        State(limiter, s.open + {|s.granted|}, now, s.all + [now], s.granted + [(source, now)],
              kept[source := Log(s, source) + [now]])
      else
        s.(limiter := limiter, last := now, since := kept)
  }

  /* ---- Windows ---- */

  /** Half-open, at either end. */
  datatype Window = Window(from: real, openStart: bool)

  predicate Inside(w: Window, length: real, t: real) {
    if w.openStart then w.from < t <= w.from + length else w.from <= t < w.from + length
  }

  function Count(w: Window, length: real, events: seq<real>): nat {
    if events == [] then 0
    else Count(w, length, events[..|events| - 1]) + (if Inside(w, length, events[|events| - 1]) then 1 else 0)
  }

  ghost predicate AtMost(length: real, events: seq<real>, burst: nat) {
    forall w: Window :: Count(w, length, events) <= burst
  }

  /** The kept events agree with the log for every cutoff from c on. */
  ghost predicate Agrees(kept: seq<real>, log: seq<real>, c: real) {
    forall d: real | c <= d :: Prune(kept, d) == Prune(log, d)
  }

  lemma {:induction false} PruneTwice(events: seq<real>, c: real, d: real)
    requires c <= d
    ensures Prune(Prune(events, c), d) == Prune(events, d)
  {
    if events != [] && events[0] <= c {
      PruneTwice(events[1..], c, d);
    }
  }

  lemma {:induction false} PruneAppend(events: seq<real>, t: real, c: real)
    ensures t > c ==> Prune(events + [t], c) == Prune(events, c) + [t]
    ensures t <= c ==> Prune(events + [t], c) == if Prune(events, c) == [] then [] else Prune(events, c) + [t]
  {
    if events != [] && events[0] <= c {
      assert (events + [t])[1..] == events[1..] + [t];
      PruneAppend(events[1..], t, c);
    }
  }

  /** A window that reaches past `now` holds no more of the log than what is unexpired now. */
  lemma {:induction false} WindowWithinRest(events: seq<real>, w: Window, length: real, now: real)
    requires Inside(w, length, now) && 0.0 < length
    ensures Count(w, length, events) <= |Prune(events, now - length)|
  {
    if events == [] {
    } else {
      var init, t := events[..|events| - 1], events[|events| - 1];
      WindowWithinRest(init, w, length, now);
      PruneAppend(init, t, now - length);
      assert events == init + [t];
    }
  }

  lemma GrantStaysWithin(log: seq<real>, length: real, now: real, burst: nat)
    requires 0.0 < length && AtMost(length, log, burst) && |Prune(log, now - length)| < burst
    ensures AtMost(length, log + [now], burst)
  {
    forall w: Window
      ensures Count(w, length, log + [now]) <= burst
    {
      if Inside(w, length, now) {
        WindowWithinRest(log, w, length, now);
      }
    }
  }

  lemma AgreesPruned(kept: seq<real>, log: seq<real>, c: real, d: real)
    requires Agrees(kept, log, c) && c <= d
    ensures Agrees(Prune(kept, d), log, d)
    ensures Prune(kept, d) == Prune(log, d)
  {
    forall x: real | d <= x
      ensures Prune(Prune(kept, d), x) == Prune(log, x)
    {
      PruneTwice(kept, d, x);
    }
  }

  lemma AgreesMore(kept: seq<real>, log: seq<real>, c: real, t: real)
    requires Agrees(kept, log, c)
    ensures Agrees(kept + [t], log + [t], c)
  {
    forall x: real | c <= x
      ensures Prune(kept + [t], x) == Prune(log + [t], x)
    {
      PruneAppend(kept, t, x);
      PruneAppend(log, t, x);
    }
  }

  /* ---- The invariant ---- */

  function Kept(t: Tracked, source: Source): seq<real> {
    if source in t.events then t.events[source] else []
  }

  ghost predicate SourceFine(b: Bounds, s: State, source: Source) {
    && Agrees(Kept(s.limiter.tracked, source), Log(s, source), s.last - b.window)
    && AtMost(b.window, Log(s, source), b.perSource)
  }

  ghost predicate Inv(b: Bounds, s: State)
    requires ValidBounds(b)
  {
    && Matches(s.limiter.tracked) && |s.limiter.tracked.order| <= b.maxSources
    && |s.open| <= b.maxConcurrent && (forall l | l in s.open :: l < |s.granted|)
    && Agrees(s.limiter.overall, s.all, s.last - b.window)
    && AtMost(b.window, s.all, b.overall)
    && forall source :: SourceFine(b, s, source)
  }

  /** What the lookup leaves of any source: as it was, pruned, or nothing. */
  lemma TouchedEvents(t: Tracked, s: Source, cutoff: real, maxSources: nat, x: Source)
    requires maxSources > 0 && Matches(t)
    ensures var u := Touched(t, s, cutoff, maxSources);
            || Kept(u, x) == Kept(t, x)
            || Kept(u, x) == Prune(Kept(t, x), cutoff)
            || (x != s && x in t.events && x !in u.events && Prune(t.events[x], cutoff) != [])
    ensures Kept(Touched(t, s, cutoff, maxSources), s) == Prune(Kept(t, s), cutoff)
  {
    if s !in t.events {
      var clean := if |t.order| >= maxSources then CleanedUp(t, cutoff) else t;
      CleanedUpMatches(t, cutoff);
      EvictedMeans(clean, maxSources);
    }
  }

  /** What a request leaves of another source: its events as they were, or pruned, or,
      if the cap evicted it, neither events nor log. */
  lemma StepOnOther(b: Bounds, s: State, e: Event, x: Source)
    requires ValidBounds(b) && Matches(s.limiter.tracked) && e.Tries? && x != e.source
    ensures var before, after := Kept(s.limiter.tracked, x), Kept(Step(b, s, e).limiter.tracked, x);
            || (after == [] && Log(Step(b, s, e), x) == [])
            || ((after == before || after == Prune(before, e.now - b.window)) && Log(Step(b, s, e), x) == Log(s, x))
  {
    TouchedEvents(s.limiter.tracked, e.source, e.now - b.window, b.maxSources, x);
    StepOnOtherKept(b, s, e, x);
    StepOnOtherLog(b, s, e, x);
    hide Touched, Prune, Matches, Step, Log, Tried, Evicts;
  }

  lemma StepOnOtherKept(b: Bounds, s: State, e: Event, x: Source)
    requires ValidBounds(b) && Matches(s.limiter.tracked) && e.Tries? && x != e.source
    ensures var touched := Touched(s.limiter.tracked, e.source, e.now - b.window, b.maxSources);
            && Kept(Step(b, s, e).limiter.tracked, x) == Kept(touched, x)
            && Evicts(b, s, e, x) == (x in s.limiter.tracked.events && x !in touched.events
                                      && Prune(s.limiter.tracked.events[x], e.now - b.window) != [])
  {
    hide Touched, Prune, Matches, Tried, Step;
    var touched := Touched(s.limiter.tracked, e.source, e.now - b.window, b.maxSources);
    TouchedStaysBounded(s.limiter.tracked, e.source, e.now - b.window, b.maxSources);
    TriedSays(b, s.limiter, |s.open|, e.source, e.now, Prune(s.limiter.overall, e.now - b.window), touched,
              touched.events[e.source]);
    StepSays(b, s, e);
  }

  lemma StepOnOtherLog(b: Bounds, s: State, e: Event, x: Source)
    requires ValidBounds(b) && Matches(s.limiter.tracked) && e.Tries? && x != e.source
    ensures Log(Step(b, s, e), x) == if Evicts(b, s, e, x) then [] else Log(s, x)
  {
  }

  lemma OtherSourceKeeps(b: Bounds, s: State, e: Event, x: Source)
    requires ValidBounds(b) && Matches(s.limiter.tracked) && SourceFine(b, s, x)
    requires e.Tries? && s.last <= e.now && x != e.source
    ensures SourceFine(b, Step(b, s, e), x)
  {
    hide Touched, Tried, Step, Evicts, Agrees, AtMost, Matches, Log, Prune, Count, Kept;
    StepOnOther(b, s, e, x);
    StepSays(b, s, e);
    OtherLeft(b, Kept(s.limiter.tracked, x), Log(s, x), s.last, e.now, Kept(Step(b, s, e).limiter.tracked, x));
  }

  /** The plain parts of a request's step. */
  lemma StepSays(b: Bounds, s: State, e: Event)
    requires ValidBounds(b) && Matches(s.limiter.tracked) && e.Tries?
    ensures var t := Step(b, s, e);
            var (limiter, granted) := Tried(b, s.limiter, |s.open|, e.source, e.now);
            && t.limiter == limiter && t.last == e.now
            && t.open == (if granted then s.open + {|s.granted|} else s.open)
            && t.granted == (if granted then s.granted + [(e.source, e.now)] else s.granted)
  {
  }

  lemma OtherLeft(b: Bounds, kept: seq<real>, log: seq<real>, last: real, now: real, left: seq<real>)
    requires Agrees(kept, log, last - b.window) && AtMost(b.window, log, b.perSource) && last <= now
    ensures left == kept || left == Prune(kept, now - b.window) ==> Agrees(left, log, now - b.window)
    ensures Agrees([], [], now - b.window) && AtMost(b.window, [], b.perSource)
  {
    AgreesPruned(kept, log, last - b.window, now - b.window);
  }

  lemma OwnSourceKeeps(b: Bounds, s: State, e: Event)
    requires ValidBounds(b) && Inv(b, s) && e.Tries? && s.last <= e.now
    ensures SourceFine(b, Step(b, s, e), e.source)
  {
    assert SourceFine(b, s, e.source);
    hide Touched, Tried, Step, Agrees, AtMost, Inv, Matches, Log, Kept, Prune, Count;
    StepOnOwn(b, s, e);
    OwnLeft(b, Kept(s.limiter.tracked, e.source), Log(s, e.source), s.last, e.now, b.perSource);
  }

  /** Pruned to now, and with a grant added that the burst allows, the kept events still
      agree with the log and the log still fits its windows. */
  lemma OwnLeft(b: Bounds, kept: seq<real>, log: seq<real>, last: real, now: real, burst: nat)
    requires ValidBounds(b) && Agrees(kept, log, last - b.window) && AtMost(b.window, log, burst) && last <= now
    ensures var mine := Prune(kept, now - b.window);
            && Agrees(mine, log, now - b.window)
            && (|mine| < burst ==>
                  Agrees(mine + [now], log + [now], now - b.window) && AtMost(b.window, log + [now], burst))
  {
    var cutoff := now - b.window;
    AgreesPruned(kept, log, last - b.window, cutoff);
    AgreesMore(Prune(kept, cutoff), log, cutoff, now);
    if |Prune(kept, cutoff)| < burst {
      GrantStaysWithin(log, b.window, now, burst);
    }
    hide Agrees, AtMost, Prune, Count;
  }

  lemma StepOnOwn(b: Bounds, s: State, e: Event)
    requires ValidBounds(b) && Matches(s.limiter.tracked) && e.Tries?
    ensures var t, x := Step(b, s, e), e.source;
            var mine := Prune(Kept(s.limiter.tracked, x), e.now - b.window);
            var granted := Tried(b, s.limiter, |s.open|, x, e.now).1;
            && t.last == e.now
            && (granted ==> |mine| < b.perSource)
            && Kept(t.limiter.tracked, x) == (if granted then mine + [e.now] else mine)
            && Log(t, x) == (if granted then Log(s, x) + [e.now] else Log(s, x))
  {
  }

  lemma OverallKeeps(b: Bounds, s: State, e: Event)
    requires ValidBounds(b) && Inv(b, s) && e.Tries? && s.last <= e.now
    ensures var t := Step(b, s, e);
            Agrees(t.limiter.overall, t.all, t.last - b.window) && AtMost(b.window, t.all, b.overall)
  {
    OwnLeft(b, s.limiter.overall, s.all, s.last, e.now, b.overall);
    OverallSays(b, s, e);
    hide Touched, Prune, Matches, Tried, Agrees, AtMost, Step;
  }

  lemma OverallSays(b: Bounds, s: State, e: Event)
    requires ValidBounds(b) && Matches(s.limiter.tracked) && e.Tries?
    ensures var t := Step(b, s, e);
            var rest := Prune(s.limiter.overall, e.now - b.window);
            && t.last == e.now
            && ((t.limiter.overall == rest && t.all == s.all)
                || (|rest| < b.overall && t.limiter.overall == rest + [e.now] && t.all == s.all + [e.now]))
  {
  }

  lemma StepKeeps(b: Bounds, s: State, e: Event)
    requires ValidBounds(b) && Inv(b, s) && (e.Tries? ==> s.last <= e.now)
    ensures Inv(b, Step(b, s, e))
  {
    var t := Step(b, s, e);
    hide Tried, Touched, Agrees, AtMost, SourceFine, Evicts, Matches;
    if e.Tries? {
      OverallKeeps(b, s, e);
      forall x
        ensures SourceFine(b, t, x)
      {
        if x == e.source { OwnSourceKeeps(b, s, e); } else { OtherSourceKeeps(b, s, e, x); }
      }
      LeasesKeep(b, s, e);
    } else {
      ReleaseKeeps(b, s, e);
    }
  }

  lemma LeasesKeep(b: Bounds, s: State, e: Event)
    requires ValidBounds(b) && Inv(b, s) && e.Tries?
    ensures var t := Step(b, s, e); |t.open| <= b.maxConcurrent && forall l | l in t.open :: l < |t.granted|
  {
  }

  lemma ReleaseKeeps(b: Bounds, s: State, e: Event)
    requires ValidBounds(b) && Inv(b, s) && e.Releases?
    ensures Inv(b, Step(b, s, e))
  {
    var t := Step(b, s, e);
    assert forall x | SourceFine(b, s, x) :: SourceFine(b, t, x);
  }

  /* ---- Runs ---- */

  function After(b: Bounds, start: real, events: seq<Event>): (s: State)
    requires ValidBounds(b)
    ensures Matches(s.limiter.tracked)
  {
    if events == [] then Start(start)
    else Step(b, After(b, start, events[..|events| - 1]), events[|events| - 1])
  }

  ghost predicate Runs(b: Bounds, start: real, events: seq<Event>)
    requires ValidBounds(b)
  {
    events == [] ||
    var e := events[|events| - 1];
    Runs(b, start, events[..|events| - 1]) && (e.Tries? ==> After(b, start, events[..|events| - 1]).last <= e.now)
  }

  lemma {:induction false} EveryRunKeeps(b: Bounds, start: real, events: seq<Event>)
    requires ValidBounds(b) && Runs(b, start, events)
    ensures Inv(b, After(b, start, events))
  {
    if events == [] {
    } else {
      EveryRunKeeps(b, start, events[..|events| - 1]);
      StepKeeps(b, After(b, start, events[..|events| - 1]), events[|events| - 1]);
    }
  }

  /** In every run, at most `overall` grants fall into any half-open window. */
  lemma OverallWindowHolds(b: Bounds, start: real, events: seq<Event>, w: Window)
    requires ValidBounds(b) && Runs(b, start, events)
    ensures Count(w, b.window, After(b, start, events).all) <= b.overall
  {
    EveryRunKeeps(b, start, events);
  }

  function TimesOf(granted: seq<(Source, real)>, x: Source): seq<real> {
    if granted == [] then []
    else
      var last := granted[|granted| - 1];
      TimesOf(granted[..|granted| - 1], x) + (if last.0 == x then [last.1] else [])
  }

  ghost predicate NeverEvicted(b: Bounds, start: real, events: seq<Event>, x: Source)
    requires ValidBounds(b)
  {
    events == [] ||
    (NeverEvicted(b, start, events[..|events| - 1], x)
     && !Evicts(b, After(b, start, events[..|events| - 1]), events[|events| - 1], x))
  }

  lemma {:induction false} UnevictedLogIsWhole(b: Bounds, start: real, events: seq<Event>, x: Source)
    requires ValidBounds(b) && NeverEvicted(b, start, events, x)
    ensures Log(After(b, start, events), x) == TimesOf(After(b, start, events).granted, x)
  {
    if events == [] {
    } else {
      UnevictedLogIsWhole(b, start, events[..|events| - 1], x);
      StepLogs(b, After(b, start, events[..|events| - 1]), events[|events| - 1], x);
      hide Step, Evicts, Log, TimesOf;
    }
  }

  lemma StepLogs(b: Bounds, s: State, e: Event, x: Source)
    requires ValidBounds(b) && Matches(s.limiter.tracked) && !Evicts(b, s, e, x)
    requires Log(s, x) == TimesOf(s.granted, x)
    ensures Log(Step(b, s, e), x) == TimesOf(Step(b, s, e).granted, x)
  {
    hide Tried, Evicts;
    if e.Tries? {
      assert (s.granted + [(e.source, e.now)])[..|s.granted|] == s.granted;
    }
  }

  /** A source the cap never evicted while it had unexpired grants gets at most `perSource`
      of them in any half-open window. */
  lemma {:induction false} SourceWindowHolds(b: Bounds, start: real, events: seq<Event>, x: Source, w: Window)
    requires ValidBounds(b) && Runs(b, start, events) && NeverEvicted(b, start, events, x)
    ensures Count(w, b.window, TimesOf(After(b, start, events).granted, x)) <= b.perSource
  {
    EveryRunKeeps(b, start, events);
    UnevictedLogIsWhole(b, start, events, x);
    assert SourceFine(b, After(b, start, events), x);
  }

  /** The tracked sources and the leases not yet released stay within their bounds. */
  lemma TableAndLeasesBounded(b: Bounds, start: real, events: seq<Event>)
    requires ValidBounds(b) && Runs(b, start, events)
    ensures |After(b, start, events).limiter.tracked.order| <= b.maxSources
    ensures |After(b, start, events).open| <= b.maxConcurrent
  {
  }

  lemma OneMore(b: Bounds, start: real, before: seq<Event>, e: Event)
    requires ValidBounds(b) && Runs(b, start, before) && (e.Tries? ==> After(b, start, before).last <= e.now)
    ensures Runs(b, start, before + [e])
    ensures After(b, start, before + [e]) == Step(b, After(b, start, before), e)
  {
  }
}
