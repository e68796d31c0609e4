/** The reload and fail-closed calls themselves, shown to perform exactly the steps of
    the reload machine when nothing interrupts them. */
module ReloadService {
  import opened StateStore
  import opened ReloadProtocol

  /** How one systemctl command came back. A stop that fails is taken to leave the process
      alone; a process that dies anyway is the machine's own ServiceDies step. */
  datatype Command = Zero | NonZero | TimedOut

  const STABILITY_PROBES := 3

  datatype Synced = ReloadNeeded(required: bool) | SaveFailed(o: Outcome)

  function SyncSteps(s: State, desired: Config, mark: Fault, save: Fault): State {
    var marked := Step(s, Syncs(desired, Landing(mark)));
    if desired == s.config.visible || mark != NoFault then marked else Step(marked, WritesConfig(Landing(save)))
  }

  /** A restart that did not succeed may leave the old process, none, or a new one. */
  datatype Aftermath = Unchanged | Gone | Back

  function Settle(s: State, a: Aftermath): State {
    match a
    case Unchanged => s
    case Gone => Step(s, ServiceDies)
    case Back => Step(s, ServiceReturns)
  }

  ghost predicate AllZero(probes: seq<Command>) {
    forall p | p in probes :: p == Zero
  }

  /** How far a recovery gets. */
  function RecoverySteps(s: State, stop: Command, start: Command, aftermath: Aftermath, up: bool, clear: Fault): State {
    if !s.failed.visible || stop != Zero then s
    else StartSteps(Step(s, RecoveryStops), start, aftermath, up, clear)
  }

  function StartSteps(s: State, start: Command, aftermath: Aftermath, up: bool, clear: Fault): State {
    if start != Zero then Settle(s, aftermath)
    else if up then Step(Step(s, RecoveryStarts), RecoveryEnds(Landing(clear)))
    else Step(s, RecoveryStarts)
  }

  class ProxyService {
    const config: JsonFile<Config>
    const marker: JsonFile<Option<nat>>
    const failed: JsonFile<bool>
    var running: Option<Config>
    ghost var issued: nat
    ghost var writes: nat
    ghost var starts: nat
    ghost var loadedAt: nat

    ghost predicate Separate()
      reads this
    {
      config as object != marker && config as object != failed && marker as object != failed
    }

    ghost predicate Shows(s: State)
      reads this, config, marker, failed
    {
      && config.Contents() == s.config && marker.Contents() == s.marker && failed.Contents() == s.failed
      && running == s.running && issued == s.issued && writes == s.writes && starts == s.starts
         && loadedAt == s.loadedAt
    }

    constructor (config: JsonFile<Config>, marker: JsonFile<Option<nat>>, failed: JsonFile<bool>)
      ensures this.config == config && this.marker == marker && this.failed == failed
      ensures running == Some(config.visible) && issued == 0 && writes == 0 && starts == 1 && loadedAt == 0
    {
      this.config, this.marker, this.failed := config, marker, failed;
      running := Some(config.visible);
      issued, writes, starts, loadedAt := 0, 0, 1, 0;
    }

    /** `sync_all`, `sync_user_plan`, `apply_user_plan`: marker first, config second. */
    method Sync(ghost s: State, desired: Config, token: nat, markFault: Fault, saveFault: Fault) returns (r: Synced)
      requires Separate() && Shows(s) && s.section == Free && token == s.issued + 1
      modifies this, config, marker
      ensures Shows(SyncSteps(s, desired, markFault, saveFault))
      ensures SyncSteps(s, desired, markFault, saveFault).section == Free
      ensures r.SaveFailed? <==> desired != old(config.visible) && (markFault != NoFault || saveFault != NoFault)
      ensures r.ReloadNeeded? ==> r.required == ReloadRequired(s, desired) && config.visible == desired
      ensures r.ReloadNeeded? && desired != old(config.visible) ==> marker.visible == Some(token)
    {
      var current := config.visible;
      if current == desired {
        return ReloadNeeded(marker.visible.Some?);
      }
      issued := issued + 1;
      var o := marker.WriteAtomic(Some(token), markFault);
      if o != Durable {
        return SaveFailed(o);
      }
      o := config.WriteAtomic(desired, saveFault);
      writes := if o == NotReplaced then writes else writes + 1;
      if o != Durable {
        return SaveFailed(o);
      }
      r := ReloadNeeded(true);
    }

    /** `_clear_reload_pending`: compare and remove, under the config's lock. */
    method ClearReloadPending(expected: nat, fault: Fault)
      modifies marker
      ensures marker.Contents() ==
              if old(marker.visible) == Some(expected) then old(marker.Contents()).Write(None, Landing(fault))
              else old(marker.Contents())
    {
      if marker.visible != Some(expected) {
        return;
      }
      var _ := marker.WriteAtomic(None, fault);
    }

    /** `stop_fail_closed`: persist the mark, then stop whatever the mark's fate. */
    method StopFailClosed(mark: Fault, stop: Command, ghost s: State) returns (ok: bool)
      requires Separate() && Shows(s)
      modifies this, failed
      ensures Shows(Step(s, StopsFailClosed(Landing(mark), stop == Zero)))
      ensures ok <==> mark == NoFault && stop == Zero
      ensures running == if stop == Zero then None else old(running)
      ensures failed.Contents() == old(failed.Contents()).Write(true, Landing(mark))
    {
      var o := failed.WriteAtomic(true, mark);
      if stop != Zero {
        return false;
      }
      running := None;
      ok := o == Durable;
    }

    /** The spaced readiness probes; the first one that fails decides. */
    static method StaysUp(probes: seq<Command>) returns (up: bool)
      requires |probes| == STABILITY_PROBES
      ensures up == AllZero(probes)
    {
      for i := 0 to STABILITY_PROBES
        invariant AllZero(probes[..i])
      {
        if probes[i] != Zero {
          assert probes[i] in probes;
          return false;
        }
        assert probes[..i + 1] == probes[..i] + [probes[i]];
      }
      assert probes[..STABILITY_PROBES] == probes;
      up := true;
    }

    /** `_run_reload_worker`: restart, watch it stay up, and only then acknowledge. */
    method RunReloadWorker(ghost s: State, worker: nat, token: nat, restart: Command, aftermath: Aftermath,
                           probes: seq<Command>, mark: Fault, stop: Command, clear: Fault) returns (ok: bool)
      requires Separate() && Shows(s) && |probes| == STABILITY_PROBES
      requires worker in s.workers && s.workers[worker] == Worker(token, Scheduled)
      modifies this, marker, failed
      ensures ok <==> restart == Zero && AllZero(probes)
      ensures ok ==> Shows(Step(Step(s, WorkerRestarts(worker)), WorkerClears(worker, Landing(clear))))
      ensures !ok ==>
                var t := if restart == Zero then Step(s, WorkerRestarts(worker)) else Settle(s, aftermath);
                Shows(Step(Step(t, WorkerGivesUp(worker)), StopsFailClosed(Landing(mark), stop == Zero)))
      ensures ok ==> running == Some(config.visible) && failed.Contents() == old(failed.Contents())
      ensures ok && clear == NoFault ==> marker.visible != Some(token)
      ensures !ok ==> failed.Contents() == old(failed.Contents()).Write(true, Landing(mark))
      ensures !ok && stop == Zero ==> running.None?
      ensures !ok ==> marker.Contents() == old(marker.Contents())
    {
      if restart == Zero || aftermath == Back {
        running, loadedAt, starts := Some(config.visible), writes, starts + 1;
      } else if aftermath == Gone {
        running := None;
      }
      ghost var t := if restart == Zero then Step(s, WorkerRestarts(worker)) else Settle(s, aftermath);
      if restart != Zero {
        var _ := StopFailClosed(mark, stop, Step(t, WorkerGivesUp(worker)));
        return false;
      }
      var up := StaysUp(probes);
      if !up {
        var _ := StopFailClosed(mark, stop, Step(t, WorkerGivesUp(worker)));
        return false;
      }
      ClearReloadPending(token, clear);
      ok := true;
    }

    /** The second half of `recover_if_pending`, with the service stopped. */
    method StartAgain(ghost s: State, start: Command, aftermath: Aftermath, probes: seq<Command>, clear: Fault)
      returns (ok: bool)
      requires Separate() && Shows(s) && s.running.None? && s.recovery.PreStopped? && |probes| == STABILITY_PROBES
      modifies this, failed
      ensures ok <==> start == Zero && AllZero(probes) && clear == NoFault
      ensures Shows(StartSteps(s, start, aftermath, AllZero(probes), clear))
      ensures ok ==> running == Some(config.visible) && !failed.visible
      ensures start != Zero || !AllZero(probes) ==> failed.Contents() == old(failed.Contents())
    {
      hide AllZero;
      if start == Zero || aftermath == Back {
        running, loadedAt, starts := Some(config.visible), writes, starts + 1;
      }
      if start != Zero {
        return false;
      }
      var up := StaysUp(probes);
      if !up {
        return false;
      }
      var o := failed.WriteAtomic(false, clear);
      ok := o == Durable;
    }

    /** `recover_if_pending`: a confirmed stop, a start, a watch, and the mark goes last. */
    method RecoverIfPending(ghost s: State, stop: Command, start: Command, aftermath: Aftermath,
                            probes: seq<Command>, clear: Fault) returns (ok: bool)
      requires Separate() && Shows(s) && s.recovery == NoRecovery && s.section == Free
      requires |probes| == STABILITY_PROBES
      modifies this, failed
      ensures ok <==> old(failed.visible) && stop == Zero && start == Zero && AllZero(probes) && clear == NoFault
      ensures Shows(RecoverySteps(s, stop, start, aftermath, AllZero(probes), clear))
      ensures ok ==> running == Some(config.visible) && !failed.visible
      ensures !old(failed.visible) || stop != Zero ==>
                running == old(running) && failed.Contents() == old(failed.Contents())
      ensures old(failed.visible) && stop == Zero && (start != Zero || !AllZero(probes)) ==>
                failed.Contents() == old(failed.Contents())
    {
      if !failed.visible || stop != Zero {
        return false;
      }
      running := None;
      ok := StartAgain(Step(s, RecoveryStops), start, aftermath, probes, clear);
    }
  }
}
