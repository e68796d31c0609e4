/** Reload generations of the Xray and TUIC configs as a step machine
    (hysteria/xray_config.py, hysteria/tuic_config.py, hysteria/static_access.py).

    Both services follow one protocol. A sync holds the config's file lock, writes a
    marker with a fresh token and only then replaces the config. A worker restarts the
    service outside the lock and afterwards removes the marker if it still carries the
    worker's token. Between any two steps a process may die or the host lose power. */
module ReloadProtocol {
  import opened StateStore

  /** Configs matter only up to equality; tokens are numbered in the order drawn. */
  type Config = nat

  datatype Section = Free | Marked(token: nat, desired: Config)

  /** A scheduled restart; Loaded once `systemctl restart` returned zero. */
  datatype Phase = Scheduled | Loaded
  datatype Worker = Worker(token: nat, phase: Phase)

  /** `from` is how many config writes, and `starts` how many starts of the service, there
      had been when the recovery began. */
  datatype Recovery = NoRecovery | PreStopped(from: nat, starts: nat) | Started(from: nat, starts: nat)

  /** `running` is the config the service's process has loaded. `writes` counts config
      replacements, `starts` the starts of the service, and `loadedAt` is the value of
      `writes` at the last start. */
  datatype State = State(
    config: Disk<Config>,
    marker: Disk<Option<nat>>,
    failed: Disk<bool>,
    running: Option<Config>,
    section: Section,
    workers: map<nat, Worker>,
    recovery: Recovery,
    issued: nat,
    writes: nat,
    starts: nat,
    loadedAt: nat)

  datatype Event =
    | Syncs(desired: Config, mark: Outcome)
    | WritesConfig(landing: Outcome)
    | PanelDies
    | Schedules(worker: nat, token: nat)
    | WorkerRestarts(worker: nat)
    | WorkerGivesUp(worker: nat)
    | WorkerClears(worker: nat, landing: Outcome)
    | StopsFailClosed(mark: Outcome, stopped: bool)
    | RecoveryStops
    | RecoveryStarts
    | RecoveryEnds(cleared: Outcome)
    | ServiceDies
    | ServiceReturns
    | PowerFails(config: Config, marker: Option<nat>, failed: bool, boots: bool)

  /** What a sync tells its caller: a reload is required. */
  predicate ReloadRequired(s: State, desired: Config) {
    desired != s.config.visible || s.marker.visible.Some?
  }

  function Load(s: State): State {
    s.(running := Some(s.config.visible), loadedAt := s.writes, starts := s.starts + 1)
  }

  function Step(s: State, e: Event): State {
    match e
    case Syncs(desired, mark) =>
      if desired == s.config.visible then s else
      s.(marker := s.marker.Write(Some(s.issued + 1), mark), issued := s.issued + 1,
         section := if mark == Durable then Marked(s.issued + 1, desired) else Free)
    case WritesConfig(landing) =>
      if !s.section.Marked? then s else
      s.(config := s.config.Write(s.section.desired, landing), section := Free,
         writes := if landing == NotReplaced then s.writes else s.writes + 1)
    case PanelDies => s.(section := Free, recovery := NoRecovery)
    case Schedules(w, token) => s.(workers := s.workers[w := Worker(token, Scheduled)])
    case WorkerRestarts(w) =>
      if w !in s.workers then s else
      Load(s).(workers := s.workers[w := s.workers[w].(phase := Loaded)])
    case WorkerGivesUp(w) => s.(workers := s.workers - {w})
    case WorkerClears(w, landing) =>
      if w !in s.workers then s else
      s.(marker := if s.marker.visible == Some(s.workers[w].token) then s.marker.Write(None, landing) else s.marker,
         workers := s.workers - {w})
    case StopsFailClosed(mark, stopped) =>
      s.(failed := s.failed.Write(true, mark), running := if stopped then None else s.running)
    case RecoveryStops => s.(running := None, recovery := PreStopped(s.writes, s.starts))
    case RecoveryStarts =>
      if !s.recovery.PreStopped? then s else
      (if s.running.Some? then s else Load(s)).(recovery := Started(s.recovery.from, s.recovery.starts))
    case RecoveryEnds(cleared) => s.(failed := s.failed.Write(false, cleared), recovery := NoRecovery)
    case ServiceDies => s.(running := None)
    case ServiceReturns => Load(s)
    case PowerFails(config, marker, failed, boots) =>
      State(Disk(config, {}), Disk(marker, {}), Disk(failed, {}), if boots then Some(config) else None,
            Free, map[], NoRecovery, s.issued, s.writes, s.starts + 1, s.writes)
  }

  /** Which steps the code can take; locks and the order within each call decide. */
  ghost predicate Possible(s: State, e: Event) {
    match e
    case Syncs(_, _) => s.section == Free
    case WritesConfig(_) => s.section.Marked?
    case PanelDies => true
    case Schedules(w, token) => w !in s.workers && s.marker.visible == Some(token)
    case WorkerRestarts(w) => w in s.workers && s.workers[w].phase == Scheduled
    case WorkerGivesUp(w) => w in s.workers
    case WorkerClears(w, _) => w in s.workers && s.workers[w].phase == Loaded && s.section == Free
    case StopsFailClosed(_, _) => true
    case RecoveryStops => s.failed.visible && s.recovery == NoRecovery && s.section == Free
    case RecoveryStarts => s.recovery.PreStopped?
    case RecoveryEnds(_) => s.recovery.Started?
    case ServiceDies => true
    case ServiceReturns => true
    case PowerFails(config, marker, failed, _) =>
      config in s.config.Versions() && marker in s.marker.Versions() && failed in s.failed.Versions()
  }

  /** A worker restarts only after the critical section that wrote its token has ended. */
  ghost predicate OnTime(s: State, e: Event) {
    e.WorkerRestarts? && e.worker in s.workers && s.section.Marked? ==>
      s.workers[e.worker].token != s.section.token
  }

  /** A service that loaded the config found on disk, and nothing pending. */
  function Start(config: Config): State {
    State(Disk(config, {}), Disk(None, {}), Disk(false, {}), Some(config), Free, map[], NoRecovery, 0, 0, 1, 0)
  }

  function After(config: Config, events: seq<Event>): State {
    if events == [] then Start(config)
    else Step(After(config, events[..|events| - 1]), events[|events| - 1])
  }

  ghost predicate Runs(config: Config, events: seq<Event>) {
    events == [] ||
    (Runs(config, events[..|events| - 1]) && Possible(After(config, events[..|events| - 1]), events[|events| - 1]))
  }

  ghost predicate RunsOnTime(config: Config, events: seq<Event>) {
    events == [] ||
    (RunsOnTime(config, events[..|events| - 1]) && OnTime(After(config, events[..|events| - 1]), events[|events| - 1]))
  }

  /* ---- The invariant ---- */

  ghost predicate Numbered(s: State) {
    && (forall w | w in s.workers :: s.workers[w].token <= s.issued)
    && (forall m | m in s.marker.Versions() && m.Some? :: m.value <= s.issued)
    && (s.section.Marked? ==> s.marker.visible == Some(s.section.token))
  }

  /** A service that loaded after the last write runs what is on disk. */
  ghost predicate LoadsAreCurrent(s: State) {
    s.loadedAt <= s.writes && (s.running.Some? && s.loadedAt == s.writes ==> s.running == Some(s.config.visible))
  }

  /** A worker that could still clear the marker loaded the last write. */
  ghost predicate AcksAreCurrent(s: State) {
    forall w | w in s.workers && s.workers[w].phase == Loaded && s.marker.visible == Some(s.workers[w].token) ::
      s.loadedAt == s.writes && s.section == Free
  }

  ghost predicate MarkerCovers(s: State) {
    s.marker.visible.None? ==> s.loadedAt == s.writes
  }

  ghost predicate RecoveryIsCurrent(s: State) {
    s.recovery.PreStopped? || s.recovery.Started? ==>
      && s.recovery.from <= s.writes && s.recovery.starts <= s.starts
      && (s.running.Some? ==> s.recovery.from <= s.loadedAt && s.recovery.starts < s.starts)
  }

  ghost predicate Inv(s: State) {
    Numbered(s) && LoadsAreCurrent(s) && AcksAreCurrent(s) && MarkerCovers(s) && RecoveryIsCurrent(s)
  }

  lemma StepKeeps(s: State, e: Event)
    requires Inv(s) && Possible(s, e) && OnTime(s, e)
    ensures Inv(Step(s, e))
  {
  }

  lemma {:induction false} EveryRunKeeps(config: Config, events: seq<Event>)
    requires Runs(config, events) && RunsOnTime(config, events)
    ensures Inv(After(config, events))
  {
    if events == [] {
    } else {
      EveryRunKeeps(config, events[..|events| - 1]);
      StepKeeps(After(config, events[..|events| - 1]), events[|events| - 1]);
    }
  }

  /* ---- What the protocol is for ---- */

  /** Without a marker the service is stopped or runs the config on disk. */
  lemma NoMarkerMeansLoaded(config: Config, events: seq<Event>)
    requires Runs(config, events) && RunsOnTime(config, events)
    ensures var s := After(config, events);
            s.marker.visible.None? ==> s.running.None? || s.running == Some(s.config.visible)
  {
    EveryRunKeeps(config, events);
  }

  /** While the service has not started since the last config write, every sync, also of
      the plan already on disk, reports that a reload is required. */
  lemma StaleServiceKeepsReporting(config: Config, events: seq<Event>, desired: Config)
    requires Runs(config, events) && RunsOnTime(config, events)
    requires After(config, events).loadedAt < After(config, events).writes
    ensures ReloadRequired(After(config, events), desired)
  {
    EveryRunKeeps(config, events);
  }

  /** A sync that asks for no reload leaves a service that is stopped or runs its plan. */
  lemma QuietSyncIsInForce(config: Config, events: seq<Event>, desired: Config)
    requires Runs(config, events) && RunsOnTime(config, events)
    requires !ReloadRequired(After(config, events), desired)
    ensures After(config, events).running.None? || After(config, events).running == Some(desired)
  {
    EveryRunKeeps(config, events);
  }

  /** Only the worker holding the marker's own token takes it away, after loading the
      last config written; otherwise it is replaced by a newer one. */
  lemma OlderWorkerNeverClears(config: Config, events: seq<Event>, e: Event, token: nat)
    requires Runs(config, events) && RunsOnTime(config, events)
    requires Possible(After(config, events), e) && !e.PowerFails?
    requires After(config, events).marker.visible == Some(token)
    ensures var s, t := After(config, events), Step(After(config, events), e);
            || t.marker.visible == Some(token)
            || (e.Syncs? && t.marker.visible == Some(t.issued) && token < t.issued)
            || (e.WorkerClears? && e.worker in s.workers && s.workers[e.worker] == Worker(token, Loaded)
                && s.loadedAt == s.writes)
  {
    EveryRunKeeps(config, events);
  }

  /** A recovery lifts the fail-closed mark only from a service that is stopped or was
      started after the recovery began, with a config no older than at that time. */
  lemma RecoveryLoadsFresh(config: Config, events: seq<Event>, cleared: Outcome)
    requires Runs(config, events) && RunsOnTime(config, events)
    requires Possible(After(config, events), RecoveryEnds(cleared))
    ensures var s := After(config, events);
            s.running.Some? ==> s.recovery.starts < s.starts && s.recovery.from <= s.loadedAt
  {
    EveryRunKeeps(config, events);
  }

  ghost predicate MarkedFailed(s: State) { forall v | v in s.failed.Versions() :: v }

  /** A fail-closed stop whose mark was saved stays marked, through every crash and power loss,
      until a recovery ends. */
  lemma {:induction false} FailClosedStays(config: Config, events: seq<Event>, stopped: bool, more: seq<Event>)
    requires Runs(config, events + [StopsFailClosed(Durable, stopped)] + more)
    requires forall e | e in more && e.RecoveryEnds? :: e.cleared == NotReplaced
    ensures MarkedFailed(After(config, events + [StopsFailClosed(Durable, stopped)] + more))
  {
    var begun := events + [StopsFailClosed(Durable, stopped)];
    if more == [] {
      assert begun + more == begun && begun[..|events|] == events;
    } else {
      var before, e := more[..|more| - 1], more[|more| - 1];
      assert (begun + more)[..|begun + more| - 1] == begun + before;
      FailClosedStays(config, events, stopped, before);
    }
  }

  /* ---- The timing assumption is needed ---- */

  function EarlyRestart(): seq<Event> {
    [Syncs(1, Durable), Schedules(0, 1), WorkerRestarts(0), WritesConfig(Durable), WorkerClears(0, Durable)]
  }

  lemma OneMore(config: Config, before: seq<Event>, e: Event)
    requires Runs(config, before) && Possible(After(config, before), e)
    ensures Runs(config, before + [e]) && After(config, before + [e]) == Step(After(config, before), e)
  {
  }

  lemma EarlyRestartBegins()
    ensures var s := After(0, EarlyRestart()[..3]);
            && Runs(0, EarlyRestart()[..3])
            && s.marker == Disk(Some(1), {}) && s.running == Some(0) && s.config == Disk(0, {})
            && s.section == Marked(1, 1) && s.workers == map[0 := Worker(1, Loaded)]
  {
    var es := EarlyRestart();
    assert es[..0] == [] && es[..1] == es[..0] + [es[0]];
    assert es[..2] == es[..1] + [es[1]] && es[..3] == es[..2] + [es[2]];
    OneMore(0, es[..0], es[0]);
  }

  /** A restart between the marker and the config write ends with the old config running,
      the new one on disk and no marker. */
  lemma EarlyRestartIsForgotten()
    ensures Runs(0, EarlyRestart())
    ensures var s := After(0, EarlyRestart());
            s.marker.visible == None && s.running == Some(0) && s.config.visible == 1
  {
    var es := EarlyRestart();
    EarlyRestartBegins();
    assert es[..4] == es[..3] + [es[3]] && es == es[..4] + [es[4]];
  }
}
