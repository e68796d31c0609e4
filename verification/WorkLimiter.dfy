/** The limiter of password hashing work (hysteria/auth_service.py): sliding windows per
    source and overall, a bounded number of tracked sources, and a bounded semaphore whose
    leases may be released any number of times. */
module WorkLimiter {
  import opened StateStore

  /** The peer address a request came from. */
  datatype Source = Source(text: string)

  const SOURCE_MAX_CHARS := 128

  datatype Bounds = Bounds(window: real, perSource: nat, overall: nat, maxSources: nat, maxConcurrent: nat)

  predicate ValidBounds(b: Bounds) {
    b.window > 0.0 && b.perSource > 0 && b.overall > 0 && b.maxSources > 0 && b.maxConcurrent > 0
  }

  /** `order` is the insertion order of the tracked sources, the least recent first. */
  datatype Tracked = Tracked(order: seq<Source>, events: map<Source, seq<real>>)

  datatype Limiter = Limiter(overall: seq<real>, tracked: Tracked)

  ghost predicate Matches(t: Tracked) {
    && (forall s :: s in t.order <==> s in t.events)
    && forall i, j | 0 <= i < j < |t.order| :: t.order[i] != t.order[j]
  }

  /** Drop expired events from the front. */
  function Prune(events: seq<real>, cutoff: real): seq<real> {
    if events != [] && events[0] <= cutoff then Prune(events[1..], cutoff) else events
  }

  function Without(order: seq<Source>, s: Source): seq<Source> {
    if order == [] then []
    else if order[0] == s then order[1..]
    else [order[0]] + Without(order[1..], s)
  }

  /** `_cleanup_sources`: every source pruned, and those left empty forgotten. */
  function CleanedUp(t: Tracked, cutoff: real): Tracked
    requires Matches(t)
  {
    Tracked(NonEmpty(t.order, t.events, cutoff),
            map s | s in t.events && Prune(t.events[s], cutoff) != [] :: Prune(t.events[s], cutoff))
  }

  function NonEmpty(order: seq<Source>, events: map<Source, seq<real>>, cutoff: real): seq<Source>
    requires forall s | s in order :: s in events
  {
    if order == [] then []
    else (if Prune(events[order[0]], cutoff) != [] then [order[0]] else []) + NonEmpty(order[1..], events, cutoff)
  }

  /** The first i sources cleaned up already. */
  function CleanPrefix(t: Tracked, i: nat, cutoff: real): Tracked
    requires Matches(t) && i <= |t.order|
  {
    Tracked(NonEmpty(t.order[..i], t.events, cutoff),
            map s | s in t.events && (s in t.order[..i] ==> Prune(t.events[s], cutoff) != [])
              :: if s in t.order[..i] then Prune(t.events[s], cutoff) else t.events[s])
  }

  lemma {:induction false} NonEmptyAppend(order: seq<Source>, s: Source, events: map<Source, seq<real>>, cutoff: real)
    requires s in events && forall x | x in order :: x in events
    ensures NonEmpty(order + [s], events, cutoff) ==
            NonEmpty(order, events, cutoff) + (if Prune(events[s], cutoff) != [] then [s] else [])
  {
    hide Prune;
    var tail := if Prune(events[s], cutoff) != [] then [s] else [];
    if order == [] {
      assert [] + [s] == [s] && [s][1..] == [];
    } else {
      var more, rest := order + [s], order[1..];
      var head := if Prune(events[order[0]], cutoff) != [] then [order[0]] else [];
      assert more[0] == order[0] && more[1..] == rest + [s] && forall x | x in rest :: x in order;
      NonEmptyAppend(rest, s, events, cutoff);
      assert NonEmpty(more, events, cutoff) == head + NonEmpty(rest + [s], events, cutoff);
      assert NonEmpty(order, events, cutoff) == head + NonEmpty(rest, events, cutoff);
      hide NonEmpty;
      assert head + (NonEmpty(rest, events, cutoff) + tail) == head + NonEmpty(rest, events, cutoff) + tail;
    }
  }

  lemma CleanEnds(t: Tracked, cutoff: real)
    requires Matches(t)
    ensures CleanPrefix(t, 0, cutoff) == Tracked([], t.events)
    ensures CleanPrefix(t, |t.order|, cutoff) == CleanedUp(t, cutoff)
  {
    hide Prune;
    assert t.order[..0] == [] && t.order[..|t.order|] == t.order;
  }

  lemma CleanOneKept(t: Tracked, i: nat, cutoff: real)
    requires Matches(t) && i < |t.order|
    ensures var s, events, next := t.order[i], CleanPrefix(t, i, cutoff).events, CleanPrefix(t, i + 1, cutoff).events;
            && s in t.events && s in events && events[s] == t.events[s]
            && next == var rest := Prune(t.events[s], cutoff); if rest == [] then events - {s} else events[s := rest]
  {
    hide Prune, NonEmpty;
    var s, before := t.order[i], t.order[..i];
    assert s !in before && s in t.order && t.order[..i + 1] == before + [s];
  }

  /** One more source cleaned. */
  lemma CleanOneMore(t: Tracked, i: nat, cutoff: real)
    requires Matches(t) && i < |t.order|
    ensures var u, s := CleanPrefix(t, i, cutoff), t.order[i];
            && s in u.events
            && CleanPrefix(t, i + 1, cutoff) ==
               var rest := Prune(u.events[s], cutoff);
               if rest == [] then Tracked(u.order, u.events - {s}) else Tracked(u.order + [s], u.events[s := rest])
  {
    CleanOneKept(t, i, cutoff);
    var s, before := t.order[i], t.order[..i];
    assert t.order[..i + 1] == before + [s] && forall x | x in before :: x in t.order;
    NonEmptyAppend(before, s, t.events, cutoff);
    var (u, n) := (CleanPrefix(t, i, cutoff), CleanPrefix(t, i + 1, cutoff));
    assert n.order == u.order + if Prune(t.events[s], cutoff) != [] then [s] else [];
    hide Prune, NonEmpty, CleanPrefix, Matches;
  }

  /** Forget the least recent sources until there is room for one more. */
  function Evicted(t: Tracked, maxSources: nat): Tracked
    requires maxSources > 0
    decreases |t.order|
  {
    if |t.order| >= maxSources then
      Evicted(Tracked(t.order[1..], t.events - {t.order[0]}), maxSources)
    else t
  }

  /** The sources as they are once this one has been looked up and moved to the end. */
  function Touched(t: Tracked, s: Source, cutoff: real, maxSources: nat): Tracked
    requires maxSources > 0 && Matches(t)
  {
    if s in t.events then
      Tracked(Without(t.order, s) + [s], t.events[s := Prune(t.events[s], cutoff)])
    else
      var roomy := Evicted(if |t.order| >= maxSources then CleanedUp(t, cutoff) else t, maxSources);
      Tracked(roomy.order + [s], roomy.events[s := []])
  }

  predicate Grants(b: Bounds, overall: seq<real>, mine: seq<real>, held: nat) {
    |overall| < b.overall && |mine| < b.perSource && held < b.maxConcurrent
  }

  lemma StillMatches(t: Tracked, s: Source, events: seq<real>)
    requires Matches(t) && s in t.events
    ensures Matches(t.(events := t.events[s := events]))
  {
  }

  /* ---- The tracked sources stay consistent and bounded ---- */

  lemma {:induction false} WithoutMeans(order: seq<Source>, s: Source)
    requires forall i, j | 0 <= i < j < |order| :: order[i] != order[j]
    ensures forall x :: x in Without(order, s) <==> x in order && x != s
    ensures forall i, j | 0 <= i < j < |Without(order, s)| :: Without(order, s)[i] != Without(order, s)[j]
    ensures |Without(order, s)| == if s in order then |order| - 1 else |order|
  {
    if order != [] && order[0] != s {
      WithoutMeans(order[1..], s);
      assert order[0] !in order[1..];
    }
  }

  lemma {:induction false} NonEmptyMeans(order: seq<Source>, events: map<Source, seq<real>>, cutoff: real)
    requires forall s | s in order :: s in events
    requires forall i, j | 0 <= i < j < |order| :: order[i] != order[j]
    ensures forall x :: x in NonEmpty(order, events, cutoff) <==> x in order && Prune(events[x], cutoff) != []
    ensures forall i, j | 0 <= i < j < |NonEmpty(order, events, cutoff)| ::
              NonEmpty(order, events, cutoff)[i] != NonEmpty(order, events, cutoff)[j]
    ensures |NonEmpty(order, events, cutoff)| <= |order|
  {
    if order == [] {
    } else {
      NonEmptyMeans(order[1..], events, cutoff);
    }
  }

  lemma {:induction false} EvictedMeans(t: Tracked, maxSources: nat)
    requires maxSources > 0 && Matches(t)
    ensures Matches(Evicted(t, maxSources)) && |Evicted(t, maxSources).order| < maxSources
    ensures forall s | s in Evicted(t, maxSources).events ::
              s in t.events && Evicted(t, maxSources).events[s] == t.events[s]
    ensures |t.order| < maxSources ==> Evicted(t, maxSources) == t
    decreases |t.order|
  {
    if |t.order| >= maxSources {
      var next := Tracked(t.order[1..], t.events - {t.order[0]});
      EvictedMeans(next, maxSources);
    }
  }

  lemma CleanedUpMatches(t: Tracked, cutoff: real)
    requires Matches(t)
    ensures Matches(CleanedUp(t, cutoff)) && |CleanedUp(t, cutoff).order| <= |t.order|
  {
    NonEmptyMeans(t.order, t.events, cutoff);
  }

  lemma MatchesAppend(t: Tracked, s: Source, events: seq<real>)
    requires Matches(t) && s !in t.events
    ensures Matches(Tracked(t.order + [s], t.events[s := events]))
  {
  }

  /** Looking a source up keeps the records consistent and never exceeds the cap. */
  lemma TouchedStaysBounded(t: Tracked, s: Source, cutoff: real, maxSources: nat)
    requires maxSources > 0 && Matches(t)
    ensures var u := Touched(t, s, cutoff, maxSources);
            Matches(u) && s in u.events && (|t.order| <= maxSources ==> |u.order| <= maxSources)
  {
    if s in t.events {
      hide Prune, Without;
      WithoutMeans(t.order, s);
      assert t.events[s := Prune(t.events[s], cutoff)] == (t.events - {s})[s := Prune(t.events[s], cutoff)];
    } else {
      CleanedUpMatches(t, cutoff);
      var clean := if |t.order| >= maxSources then CleanedUp(t, cutoff) else t;
      hide Prune, CleanedUp, Evicted;
      EvictedMeans(clean, maxSources);
      MatchesAppend(Evicted(clean, maxSources), s, []);
    }
  }

  /** The limiter after one accepted request, and whether it granted a lease. */
  function Tried(b: Bounds, l: Limiter, held: nat, s: Source, now: real): (r: (Limiter, bool))
    requires ValidBounds(b) && Matches(l.tracked)
    ensures Matches(r.0.tracked)
    ensures |l.tracked.order| <= b.maxSources ==> |r.0.tracked.order| <= b.maxSources
  {
    var cutoff := now - b.window;
    var overall := Prune(l.overall, cutoff);
    TouchedStaysBounded(l.tracked, s, cutoff, b.maxSources);
    var touched := Touched(l.tracked, s, cutoff, b.maxSources);
    var mine := touched.events[s];
    if Grants(b, overall, mine, held) then
      (Limiter(overall + [now], touched.(events := touched.events[s := mine + [now]])), true)
    else
      (Limiter(overall, touched), false)
  }

  /** The same, from the looked-up records. */
  lemma TriedSays(b: Bounds, l: Limiter, held: nat, s: Source, now: real, overall: seq<real>, t: Tracked,
                  mine: seq<real>)
    requires ValidBounds(b) && Matches(l.tracked)
    requires overall == Prune(l.overall, now - b.window) && t == Touched(l.tracked, s, now - b.window, b.maxSources)
    requires s in t.events && mine == t.events[s]
    ensures Tried(b, l, held, s, now) ==
            if Grants(b, overall, mine, held) then
              (Limiter(overall + [now], Tracked(t.order, t.events[s := mine + [now]])), true)
            else
              (Limiter(overall, t), false)
  {
  }

  /* ---- The objects ---- */

  /** `threading.BoundedSemaphore`, taken only without waiting. */
  class Semaphore {
    const capacity: nat
    var held: nat
    ghost var holders: set<WorkLease>

    ghost predicate Valid()
      reads this, holders
    {
      && held == |holders| <= capacity
      && forall l | l in holders :: l.semaphore == this && !l.released
    }

    constructor (capacity: nat)
      ensures Valid() && this.capacity == capacity && held == 0 && holders == {}
    {
      this.capacity, held, holders := capacity, 0, {};
    }

    /** Take a permit if one is free, as a lease that holds it. */
    method TryAcquire() returns (lease: Option<WorkLease>)
      requires Valid()
      modifies this
      ensures Valid()
      ensures lease.Some? <==> old(held) < capacity
      ensures lease.None? ==> held == old(held) && holders == old(holders)
      ensures lease.Some? ==> fresh(lease.value) && lease.value.semaphore == this && !lease.value.released
      ensures lease.Some? ==> held == old(held) + 1 && holders == old(holders) + {lease.value}
    {
      if held >= capacity {
        return None;
      }
      var l := new WorkLease(this);
      held, holders := held + 1, holders + {l};
      lease := Some(l);
    }
  }

  /** `_PasswordWorkLease`: gives its permit back once, however often it is released. */
  class WorkLease {
    const semaphore: Semaphore
    var released: bool

    constructor (semaphore: Semaphore)
      ensures this.semaphore == semaphore && !released
    {
      this.semaphore, released := semaphore, false;
    }

    method Release()
      requires semaphore.Valid() && (released || this in semaphore.holders)
      modifies this, semaphore
      ensures semaphore.Valid() && released
      ensures semaphore.holders == old(semaphore.holders) - {this}
      ensures semaphore.held == if old(released) then old(semaphore.held) else old(semaphore.held) - 1
    {
      if released {
        return;
      }
      released := true;
      semaphore.held, semaphore.holders := semaphore.held - 1, semaphore.holders - {this};
    }
  }

  class PasswordWorkLimiter {
    const bounds: Bounds
    const semaphore: Semaphore
    var overall: seq<real>
    var order: seq<Source>
    var events: map<Source, seq<real>>

    ghost function Contents(): Limiter
      reads this
    {
      Limiter(overall, Tracked(order, events))
    }

    ghost predicate Valid()
      reads this, semaphore, semaphore.holders
    {
      && ValidBounds(bounds) && semaphore.capacity == bounds.maxConcurrent && semaphore.Valid()
      && Matches(Tracked(order, events)) && |order| <= bounds.maxSources
    }

    constructor (bounds: Bounds)
      requires ValidBounds(bounds)
      ensures Valid() && fresh(semaphore) && this.bounds == bounds
      ensures Contents() == Limiter([], Tracked([], map[])) && semaphore.held == 0
    {
      this.bounds := bounds;
      semaphore := new Semaphore(bounds.maxConcurrent);
      overall, order, events := [], [], map[];
    }

    static method Pruned(events: seq<real>, cutoff: real) returns (rest: seq<real>)
      ensures rest == Prune(events, cutoff)
    {
      rest := events;
      while rest != [] && rest[0] <= cutoff
        invariant Prune(rest, cutoff) == Prune(events, cutoff)
      {
        rest := rest[1..];
      }
    }

    /** `_cleanup_sources`, over a snapshot of the tracked sources. */
    static method CleanupSources(t: Tracked, cutoff: real) returns (u: Tracked)
      requires Matches(t)
      ensures u == CleanedUp(t, cutoff)
    {
      hide CleanPrefix, CleanedUp, Prune, Matches;
      CleanEnds(t, cutoff);
      u := Tracked([], t.events);
      for i := 0 to |t.order|
        invariant u == CleanPrefix(t, i, cutoff)
      {
        var s := t.order[i];
        CleanOneMore(t, i, cutoff);
        var rest := Pruned(u.events[s], cutoff);
        if rest == [] {
          u := Tracked(u.order, u.events - {s});
        } else {
          u := Tracked(u.order + [s], u.events[s := rest]);
        }
      }
    }

    /** Take the source out of the order and put it back at the end. */
    method TouchSource(source: Source, cutoff: real) returns (mine: seq<real>)
      requires ValidBounds(bounds) && Matches(Tracked(order, events)) && |order| <= bounds.maxSources
      modifies `order, `events
      ensures Tracked(order, events) == Touched(Tracked(old(order), old(events)), source, cutoff, bounds.maxSources)
      ensures Matches(Tracked(order, events)) && |order| <= bounds.maxSources
      ensures source in events && mine == events[source]
    {
      ghost var t := Tracked(order, events);
      TouchedStaysBounded(t, source, cutoff, bounds.maxSources);
      if source in events {
        mine := Pruned(events[source], cutoff);
        order := Without(order, source);
      } else {
        if |order| >= bounds.maxSources {
          CleanedUpMatches(t, cutoff);
          var clean := CleanupSources(Tracked(order, events), cutoff);
          order, events := clean.order, clean.events;
        }
        while |order| >= bounds.maxSources
          invariant Evicted(Tracked(order, events), bounds.maxSources)
                    == Evicted(if |t.order| >= bounds.maxSources then CleanedUp(t, cutoff) else t, bounds.maxSources)
          decreases |order|
        {
          events := events - {order[0]};
          order := order[1..];
        }
        mine := [];
      }
      order := order + [source];
      events := events[source := mine];
    }

    /** The part of `try_acquire` that runs under the limiter's lock. */
    method TryLocked(source: Source, now: real) returns (lease: Option<WorkLease>)
      requires Valid()
      modifies this, semaphore
      ensures Valid()
      ensures (Contents(), lease.Some?) == Tried(bounds, old(Contents()), old(semaphore.held), source, now)
      ensures semaphore.held == old(semaphore.held) + if lease.Some? then 1 else 0
      ensures semaphore.holders == old(semaphore.holders) + if lease.Some? then {lease.value} else {}
      ensures lease.Some? ==> fresh(lease.value) && lease.value.semaphore == semaphore && !lease.value.released
    {
      hide Touched, Prune, Matches, Tried;
      ghost var was := Contents();
      var mine, room := LookUp(source, now - bounds.window);
      StillMatches(Tracked(order, events), source, mine + [now]);
      TriedSays(bounds, was, semaphore.held, source, now, overall, Tracked(order, events), mine);
      if !room {
        return None;
      }
      lease := semaphore.TryAcquire();
      if lease.None? {
        return None;
      }
      overall := overall + [now];
      events := events[source := mine + [now]];
    }

    /** Prune and look up; whether both windows have room for one more. */
    method LookUp(source: Source, cutoff: real) returns (mine: seq<real>, room: bool)
      requires ValidBounds(bounds) && Matches(Tracked(order, events)) && |order| <= bounds.maxSources
      modifies `overall, `order, `events
      ensures overall == Prune(old(overall), cutoff)
      ensures Tracked(order, events) == Touched(Tracked(old(order), old(events)), source, cutoff, bounds.maxSources)
      ensures Matches(Tracked(order, events)) && |order| <= bounds.maxSources
      ensures source in events && mine == events[source]
      ensures room <==> |overall| < bounds.overall && |mine| < bounds.perSource
    {
      overall := Pruned(overall, cutoff);
      mine := TouchSource(source, cutoff);
      room := |overall| < bounds.overall && |mine| < bounds.perSource;
    }

    /** `try_acquire`. An unusable source or clock reading, or a passed deadline, is turned
        away before anything changes. */
    method TryAcquire(source: Source, clock: Option<real>, deadline: Option<real>) returns (lease: Option<WorkLease>)
      requires Valid()
      modifies this, semaphore
      ensures Valid()
      ensures var unusable := source.text == "" || |source.text| > 128 || clock.None?
                              || (deadline.Some? && clock.value >= deadline.value);
              && (unusable ==>
                    lease.None? && Contents() == old(Contents()) && semaphore.held == old(semaphore.held))
              && (!unusable ==> (Contents(), lease.Some?)
                                == Tried(bounds, old(Contents()), old(semaphore.held), source, clock.value))
      ensures semaphore.held == old(semaphore.held) + if lease.Some? then 1 else 0
      ensures semaphore.holders == old(semaphore.holders) + if lease.Some? then {lease.value} else {}
      ensures lease.Some? ==> fresh(lease.value) && lease.value.semaphore == semaphore && !lease.value.released
    {
      if source.text == "" || |source.text| > SOURCE_MAX_CHARS || clock.None? {
        return None;
      }
      var now := clock.value;
      if deadline.Some? && now >= deadline.value {
        return None;
      }
      lease := TryLocked(source, now);
    }
  }
}
