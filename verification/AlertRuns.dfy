/** Interleavings of claims, deliveries, completions and clears of alerts, with saves that
    fail, senders that die and power loss. */
module AlertRuns {
  import opened StateStore
  import opened AlertClaims

  /** A delivery under way, between its claim and its completion. */
  datatype Sender = Sender(slot: Slot, key: Key)

  datatype State = State(file: Disk<Alerts>, issued: nat, senders: map<nat, Sender>)

  datatype Event =
    | Claims(slot: Slot, key: Key, now: real, ttl: real, landing: Outcome)
    | Finishes(token: nat, delivered: bool, landing: Outcome)
    | SenderDies(token: nat)
    | Clears(kinds: set<Kind>, users: set<nat>, landing: Outcome)
    | PowerFails(shown: Alerts)

  /** The claim returned its token, so its caller goes on to deliver. */
  predicate Granted(s: State, e: Event) {
    e.Claims? && Claimed(s.file.visible, e.slot, e.key, s.issued + 1, e.now, e.ttl).Some? && e.landing == Durable
  }

  function Step(s: State, e: Event): State {
    match e
    case Claims(slot, key, now, ttl, landing) =>
      State(s.file.WriteIf(Claimed(s.file.visible, slot, key, s.issued + 1, now, ttl), landing), s.issued + 1,
            if Granted(s, e) then s.senders[s.issued + 1 := Sender(slot, key)] else s.senders)
    case Finishes(token, delivered, landing) =>
      if token !in s.senders then s else
      var sender := s.senders[token];
      s.(file := s.file.WriteIf(Finished(s.file.visible, sender.slot, sender.key, token, delivered), landing),
         senders := s.senders - {token})
    case SenderDies(token) => s.(senders := s.senders - {token})
    case Clears(kinds, users, landing) => s.(file := s.file.WriteIf(Cleared(s.file.visible, kinds, users), landing))
    case PowerFails(shown) => State(Disk(shown, {}), s.issued, map[])
  }

  /** A granted claim's sender, and nobody else's, can complete it: delivered and saved, the
      key is stored; not delivered, the alert is open again for every key. */
  lemma GrantedCompletes(s: State, e: Event, delivered: bool)
    requires e.Claims? && s.issued + 1 !in s.senders
    ensures Granted(s, e) <==> Step(s, e).issued in Step(s, e).senders
    ensures Granted(s, e) ==>
              var after := Step(Step(s, e), Finishes(s.issued + 1, delivered, Durable));
              && after.senders == s.senders
              && after.file.stale == {}
              && (delivered ==> after.file.visible == s.file.visible[e.slot := Delivered(e.key)])
              && (!delivered ==> after.file.visible == s.file.visible - {e.slot})
  {
  }

  ghost predicate Possible(s: State, e: Event) {
    match e
    case Claims(_, _, _, _, _) => true
    case Finishes(token, _, _) => token in s.senders
    case SenderDies(token) => token in s.senders
    case Clears(_, _, _) => true
    case PowerFails(shown) => shown in s.file.Versions()
  }

  const START: State := State(Disk(map[], {}), 0, map[])

  function After(s: State, events: seq<Event>): State {
    if events == [] then s
    else Step(After(s, events[..|events| - 1]), events[|events| - 1])
  }

  ghost predicate Runs(s: State, events: seq<Event>) {
    events == [] ||
    (Runs(s, events[..|events| - 1]) && Possible(After(s, events[..|events| - 1]), events[|events| - 1]))
  }

  /* ---- Keys are stored only by their own delivery ---- */

  /** The event completes, as delivered, a claim still standing for exactly this slot and key. */
  ghost predicate Delivers(s: State, e: Event, slot: Slot, key: Key) {
    && e.Finishes? && e.delivered && e.token in s.senders && s.senders[e.token] == Sender(slot, key)
    && Owns(s.file.visible, slot, key, e.token)
  }

  ghost predicate DeliveredIn(events: seq<Event>, slot: Slot, key: Key) {
    exists i :: 0 <= i < |events| && Delivers(After(START, events[..i]), events[i], slot, key)
  }

  lemma DeliveredInMore(events: seq<Event>, e: Event, slot: Slot, key: Key)
    ensures DeliveredIn(events, slot, key) ==> DeliveredIn(events + [e], slot, key)
    ensures Delivers(After(START, events), e, slot, key) ==> DeliveredIn(events + [e], slot, key)
  {
    var more := events + [e];
    if DeliveredIn(events, slot, key) {
      var i :| 0 <= i < |events| && Delivers(After(START, events[..i]), events[i], slot, key);
      assert more[..i] == events[..i] && more[i] == events[i];
    }
    assert more[..|events|] == events && more[|events|] == e;
  }

  /** Where a step takes a delivered key in a version of the file from. */
  lemma StepKeys(s: State, e: Event, version: Alerts, slot: Slot)
    requires Possible(s, e) && version in Step(s, e).file.Versions()
    requires slot in version && version[slot].Delivered?
    ensures || version in s.file.Versions()
            || Delivers(s, e, slot, version[slot].key)
            || (slot in s.file.visible && s.file.visible[slot] == version[slot])
  {
  }

  /** No version of the file, not even one a power loss brings back, holds a key that no
      delivery of that key stored. */
  lemma {:induction false} KeysAreDelivered(events: seq<Event>, version: Alerts, slot: Slot)
    requires Runs(START, events) && version in After(START, events).file.Versions()
    requires slot in version && version[slot].Delivered?
    ensures DeliveredIn(events, slot, version[slot].key)
    decreases |events|
  {
    if events == [] {
    } else {
      var before, e := events[..|events| - 1], events[|events| - 1];
      var s := After(START, before);
      assert events == before + [e];
      StepKeys(s, e, version, slot);
      hide Step, Possible, DeliveredIn, Delivers;
      DeliveredInMore(before, e, slot, version[slot].key);
      if version in s.file.Versions() {
        KeysAreDelivered(before, version, slot);
      } else if slot in s.file.visible && s.file.visible[slot] == version[slot] {
        KeysAreDelivered(before, s.file.visible, slot);
      }
    }
  }

  /* ---- Tokens belong to one claim ---- */

  ghost predicate TokensFresh(s: State) {
    && (forall t | t in s.senders :: t <= s.issued)
    && forall v: Alerts, slot: Slot | v in s.file.Versions() && slot in v && v[slot].Claim? :: v[slot].token <= s.issued
  }

  lemma StepFresh(s: State, e: Event)
    requires TokensFresh(s) && Possible(s, e)
    ensures TokensFresh(Step(s, e))
  {
  }

  lemma {:induction false} RunFresh(s: State, events: seq<Event>)
    requires TokensFresh(s) && Runs(s, events)
    ensures TokensFresh(After(s, events))
  {
    if events == [] {
    } else {
      RunFresh(s, events[..|events| - 1]);
      StepFresh(After(s, events[..|events| - 1]), events[|events| - 1]);
    }
  }

  /* ---- When the same alert may be claimed again ---- */

  /** What ends the protection of a claim: its release, a clear, a claim for another key, or a
      claim of the same key whose clock puts the claim's age outside [0, ttl). A power loss
      does not, since a claim is granted only once it is durable. */
  ghost predicate Frees(e: Event, slot: Slot, key: Key, token: nat, at: real) {
    match e
    case Claims(s, k, now, ttl, landing) => s == slot && landing != NotReplaced
      && (k != key || !(0.0 <= now - at < ttl))
    case Finishes(t, delivered, landing) => t == token && landing != NotReplaced && !delivered
    case SenderDies(_) => false
    case Clears(kinds, users, landing) => slot.kind in kinds && slot.user in users && landing != NotReplaced
    case PowerFails(_) => false
  }

  /** What ends the suppression of a delivered key. A power loss does only if the completion
      was not durable. */
  ghost predicate Forgets(e: Event, slot: Slot, key: Key, recorded: Outcome) {
    match e
    case Claims(s, k, _, _, landing) => s == slot && k != key && landing != NotReplaced
    case Finishes(_, _, _) => false
    case SenderDies(_) => false
    case Clears(kinds, users, landing) => slot.kind in kinds && slot.user in users && landing != NotReplaced
    case PowerFails(_) => recorded != Durable
  }

  predicate HeldBy(a: Alerts, slot: Slot, key: Key, token: nat, at: real) {
    slot in a && (a[slot] == Claim(key, token, at) || a[slot] == Delivered(key))
  }

  /** Every version of the file, present or recoverable, holds the claim or its completion. */
  ghost predicate Holds(s: State, slot: Slot, key: Key, token: nat, at: real) {
    token <= s.issued && forall v: Alerts | v in s.file.Versions() :: HeldBy(v, slot, key, token, at)
  }

  lemma {:induction false} HoldStays(s: State, events: seq<Event>, slot: Slot, key: Key, token: nat, at: real)
    requires Runs(s, events) && Holds(s, slot, key, token, at)
    requires forall i | 0 <= i < |events| :: !Frees(events[i], slot, key, token, at)
    ensures Holds(After(s, events), slot, key, token, at)
  {
    if events == [] {
    } else {
      HoldStays(s, events[..|events| - 1], slot, key, token, at);
    }
  }

  /** After a claim was granted, the same alert is not granted again unless something in
      between freed it or the second clock reading puts the first outside [0, ttl). */
  lemma SecondClaimNeedsReason(s: State, first: Event, between: seq<Event>, second: Event)
    requires Granted(s, first) && Runs(Step(s, first), between)
    requires second.Claims? && second.slot == first.slot && second.key == first.key
    requires Granted(After(Step(s, first), between), second)
    ensures || !(0.0 <= second.now - first.now < second.ttl)
            || exists i :: 0 <= i < |between| && Frees(between[i], first.slot, first.key, s.issued + 1, first.now)
  {
    hide Runs, Frees, After, Step, Claimed, Holds, Granted;
    ClaimHolds(s, first);
    if forall i | 0 <= i < |between| :: !Frees(between[i], first.slot, first.key, s.issued + 1, first.now) {
      HoldStays(Step(s, first), between, first.slot, first.key, s.issued + 1, first.now);
      HeldIsSuppressed(After(Step(s, first), between), second, s.issued + 1, first.now);
    }
  }

  lemma ClaimHolds(s: State, e: Event)
    requires Granted(s, e)
    ensures e.Claims? && Holds(Step(s, e), e.slot, e.key, s.issued + 1, e.now)
  {
  }

  /** While the entry holds, a claim of the same key whose age is inside [0, ttl) is refused. */
  lemma HeldIsSuppressed(s: State, e: Event, token: nat, at: real)
    requires e.Claims? && Holds(s, e.slot, e.key, token, at) && Granted(s, e)
    ensures !(0.0 <= e.now - at < e.ttl)
  {
    assert HeldBy(s.file.visible, e.slot, e.key, token, at);
  }

  predicate Recorded(a: Alerts, slot: Slot, key: Key) {
    slot in a && a[slot] == Delivered(key)
  }

  lemma {:induction false} DeliveryStays(s: State, events: seq<Event>, slot: Slot, key: Key, recorded: Outcome)
    requires Runs(s, events) && Recorded(s.file.visible, slot, key)
    requires recorded == Durable ==> forall v: Alerts | v in s.file.Versions() :: Recorded(v, slot, key)
    requires forall i | 0 <= i < |events| :: !Forgets(events[i], slot, key, recorded)
    ensures var n := After(s, events);
            && Recorded(n.file.visible, slot, key)
            && (recorded == Durable ==> forall v: Alerts | v in n.file.Versions() :: Recorded(v, slot, key))
  {
    if events == [] {
    } else {
      DeliveryStays(s, events[..|events| - 1], slot, key, recorded);
    }
  }

  /** Once a delivery was recorded, no passage of time makes the alert go out again: only a
      clear or a claim for another key does, or a power loss if the record was not durable. */
  lemma DeliveredNeedsClear(s: State, finish: Event, between: seq<Event>, again: Event)
    requires again.Claims? && Delivers(s, finish, again.slot, again.key) && finish.landing != NotReplaced
    requires Runs(Step(s, finish), between)
    requires Granted(After(Step(s, finish), between), again)
    ensures exists i :: 0 <= i < |between| && Forgets(between[i], again.slot, again.key, finish.landing)
  {
    if forall i | 0 <= i < |between| :: !Forgets(between[i], again.slot, again.key, finish.landing) {
      DeliveryStays(Step(s, finish), between, again.slot, again.key, finish.landing);
    }
  }

  /** A claim once lost is never owned again by a sender that still lives: a power loss may
      bring the claim back, but ends its sender. */
  lemma {:induction false} LostStaysLost(s: State, events: seq<Event>, slot: Slot, key: Key, token: nat)
    requires Runs(s, events) && token <= s.issued && !Owns(s.file.visible, slot, key, token)
    ensures var n := After(s, events);
            token <= n.issued && (token !in n.senders || !Owns(n.file.visible, slot, key, token))
  {
    if events == [] {
    } else {
      LostStaysLost(s, events[..|events| - 1], slot, key, token);
    }
  }

  /** A sender whose claim was cleared or replaced while it delivered never changes the
      file again, whatever happened in between. */
  lemma {:induction false} StaleFinishChangesNothing(before: seq<Event>, between: seq<Event>, e: Event)
    requires Runs(START, before) && e.Finishes? && e.token in After(START, before).senders
    requires var s := After(START, before);
             !Owns(s.file.visible, s.senders[e.token].slot, s.senders[e.token].key, e.token)
    requires Runs(After(START, before), between)
    requires Possible(After(After(START, before), between), e)
    ensures var t := After(After(START, before), between); Step(t, e).file == t.file
  {
    var s := After(START, before);
    RunFresh(START, before);
    LostStaysLost(s, between, s.senders[e.token].slot, s.senders[e.token].key, e.token);
    SenderStays(s, between, e.token);
  }

  lemma {:induction false} SenderStays(s: State, events: seq<Event>, token: nat)
    requires TokensFresh(s) && Runs(s, events) && token in s.senders && token in After(s, events).senders
    ensures After(s, events).senders[token] == s.senders[token]
  {
    if events == [] {
    } else {
      IssuedGrows(s, events[..|events| - 1]);
      SenderStays(s, events[..|events| - 1], token);
    }
  }

  lemma {:induction false} IssuedGrows(s: State, events: seq<Event>)
    ensures s.issued <= After(s, events).issued
  {
    if events == [] {
    } else {
      IssuedGrows(s, events[..|events| - 1]);
    }
  }

  /** A claim granted while an older sender is still delivering survives that sender's
      completion. */
  lemma NewerClaimSurvives(before: seq<Event>, claim: Event, finish: Event)
    requires Runs(START, before) && Granted(After(START, before), claim)
    requires finish.Finishes? && finish.token in After(START, before).senders
    ensures var t := Step(After(START, before), claim);
            Owns(Step(t, finish).file.visible, claim.slot, claim.key, t.issued)
  {
    RunFresh(START, before);
    OlderFinishSpares(After(START, before), claim, finish);
  }

  lemma OlderFinishSpares(s: State, claim: Event, finish: Event)
    requires TokensFresh(s) && Granted(s, claim) && finish.Finishes? && finish.token in s.senders
    ensures var t := Step(s, claim); Owns(Step(t, finish).file.visible, claim.slot, claim.key, t.issued)
  {
  }
}
