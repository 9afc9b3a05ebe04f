/**
 The shell functions of the installers, as they run when no signal gets through: variables,
 links, pid file and processes updated in place. Each is proved to take the transaction of
 Installer.dfy exactly as far as its commands do.
 */
module InstallerScript {
  import opened Options
  import opened Installer

  /** Where a rollback hands back: to the trap's exit, or to the end of the main script. */
  predicate Settles(pc: Pc) {
    pc.Exiting? || pc.Done? || pc == GoingBack(EndRollback)
  }

  /** The commands from s on, up to there. */
  function Straight(s: State, u: Setup, luck: bool): State
    decreases Left(s.pc)
  {
    if Settles(s.pc) then s
    else
      CommandAdvances(s, u, luck);
      Straight(Step(s, u, luck), u, luck)
  }

  lemma Unroll(s: State, t: State, u: Setup, luck: bool)
    requires !Settles(s.pc) && t == Step(s, u, luck)
    ensures Straight(s, u, luck) == Straight(t, u, luck)
  {
  }

  // ---------------------------------------------------------------------------
  // Stretches of a rollback, in closed form
  // ---------------------------------------------------------------------------

  function Started(s: State, trap: bool): State {
    s.(pc := Restarting(AwaitAgain, trap), w := Spawn(s.w, Restored), v := s.v.(active := Some(Restored)),
       f := s.f.(pid := Some(Restored)))
  }

  function AcceptedRestart(s: State, trap: bool): State {
    s.(pc := if trap then Handling(FinalCleanup) else GoingBack(RemoveNew), w := Accept(s.w, Restored),
       v := s.v.(active := None))
  }

  function GaveUp(s: State, trap: bool): State {
    s.(pc := if trap then Handling(FinalCleanup) else GoingBack(EndRollback), w := Kill(s.w, Restored),
       f := ClearPid(s.f, Some(Restored)), v := s.v.(active := None, keepFailed := trap || s.v.keepFailed))
  }

  function Restarted(s: State, luck: bool, trap: bool): State {
    var s1 := Started(s, trap);
    if luck then AcceptedRestart(s1, trap) else GaveUp(s1, trap)
  }

  function Dropped(s: State): State {
    s.(pc := Handling(RestoreCurrent), w := if s.v.active.Some? then Kill(s.w, s.v.active.value) else s.w,
       f := ClearPid(s.f, s.v.active), v := s.v.(rolling := true, active := None))
  }

  function Link(s: State, u: Setup, current: Option<Release>, trap: bool): State {
    s.(pc := Restarting(SpawnAgain, trap), f := s.f.(current := current, previous := PreviousTarget(u)))
  }

  function RolledBack(s: State, u: Setup, luck: bool): State {
    var s2 := Restarted(Link(s, u, s.f.previous, false), luck, false);
    if luck then s2.(pc := GoingBack(EndRollback), f := s2.f.(staged := false), v := s2.v.(failed := false)) else s2
  }

  function RolledBackByTrap(s: State, u: Setup, luck: bool): State {
    CleanupOnExit(Restarted(Link(Dropped(s), u, Some(u.oldCurrent), true), luck, true)).(pc := Exiting)
  }

  lemma StartedIs(s: State, u: Setup, luck: bool, trap: bool)
    requires s.pc == Restarting(SpawnAgain, trap)
    ensures Straight(s, u, luck) == Straight(Started(s, trap), u, luck)
  {
    hide Straight;
    var s1 := s.(pc := Restarting(OwnAgain, trap), w := Spawn(s.w, Restored));
    var s2 := s1.(pc := Restarting(RecordAgain, trap), v := s.v.(active := Some(Restored)));
    Unroll(s, s1, u, luck);
    Unroll(s1, s2, u, luck);
    Unroll(s2, Started(s, trap), u, luck);
  }

  lemma AcceptedIs(s: State, u: Setup, luck: bool, trap: bool)
    requires s.pc == Restarting(AwaitAgain, trap) && BecomesReady(s.w, Restored, luck)
    ensures Straight(s, u, luck) == Straight(AcceptedRestart(s, trap), u, luck)
  {
    hide Straight;
    var s1 := s.(pc := Restarting(AcceptAgain, trap), w := Accept(s.w, Restored));
    Unroll(s, s1, u, luck);
    Unroll(s1, AcceptedRestart(s, trap), u, luck);
  }

  lemma GaveUpIs(s: State, u: Setup, luck: bool, trap: bool)
    requires s.pc == Restarting(AwaitAgain, trap) && !BecomesReady(s.w, Restored, luck)
    ensures Straight(s, u, luck) == Straight(GaveUp(s, trap), u, luck)
  {
    hide Straight;
    var s1 := s.(pc := Restarting(KillAgain, trap));
    var s2 := s1.(pc := Restarting(ClearAgain, trap), w := Kill(s.w, Restored));
    var s3 := s2.(pc := Restarting(GiveUp, trap), f := ClearPid(s.f, Some(Restored)));
    Unroll(s, s1, u, luck);
    Unroll(s1, s2, u, luck);
    Unroll(s2, s3, u, luck);
    Unroll(s3, GaveUp(s, trap), u, luck);
  }

  lemma RestartedIs(s: State, u: Setup, luck: bool, trap: bool)
    requires s.pc == Restarting(SpawnAgain, trap)
    ensures Straight(s, u, luck) == Straight(Restarted(s, luck, trap), u, luck)
  {
    hide Straight, AcceptedRestart, GaveUp;
    StartedIs(s, u, luck, trap);
    if luck {
      AcceptedIs(Started(s, trap), u, luck, trap);
    } else {
      GaveUpIs(Started(s, trap), u, luck, trap);
    }
  }

  lemma DroppedIs(s: State, u: Setup, luck: bool)
    requires s.pc == Handling(Interrupted)
    ensures Straight(s, u, luck) == Straight(Dropped(s), u, luck)
  {
    hide Straight, ClearPid;
    var s1 := s.(pc := Handling(StopNew), v := s.v.(rolling := true));
    var s2 := s1.(pc := Handling(ClearNew), w := if s.v.active.Some? then Kill(s.w, s.v.active.value) else s.w);
    var s3 := s2.(pc := Handling(ForgetNew), f := ClearPid(s.f, s.v.active));
    Unroll(s, s1, u, luck);
    Unroll(s1, s2, u, luck);
    Unroll(s2, s3, u, luck);
    Unroll(s3, Dropped(s), u, luck);
  }

  /** rollback_to_previous, uninterrupted, is what the commands of the transaction add up to. */
  lemma RolledBackIs(s: State, u: Setup, luck: bool)
    requires s.pc == GoingBack(BackCurrent)
    ensures RolledBack(s, u, luck) == Straight(s, u, luck)
  {
    hide Straight, Restarted;
    var s1 := s.(pc := GoingBack(BackPrevious), f := s.f.(current := s.f.previous));
    var s2 := s1.(pc := Restarting(SpawnAgain, false), f := s1.f.(previous := PreviousTarget(u)));
    Unroll(s, s1, u, luck);
    Unroll(s1, s2, u, luck);
    RestartedIs(s2, u, luck, false);
    RestartedPc(s2, luck, false);
    var s3 := Restarted(s2, luck, false);
    if luck {
      Unroll(s3, RolledBack(s, u, luck), u, luck);
    }
    SettledStays(RolledBack(s, u, luck), u, luck);
  }

  lemma RestartedPc(s: State, luck: bool, trap: bool)
    ensures Restarted(s, luck, trap).pc ==
            if trap then Handling(FinalCleanup) else if luck then GoingBack(RemoveNew) else GoingBack(EndRollback)
  {
  }

  lemma SettledStays(s: State, u: Setup, luck: bool)
    requires Settles(s.pc)
    ensures Straight(s, u, luck) == s
  {
  }

  /** rollback_after_interrupt likewise. */
  lemma RolledBackByTrapIs(s: State, u: Setup, luck: bool)
    requires s.pc == Handling(Interrupted)
    ensures RolledBackByTrap(s, u, luck) == Straight(s, u, luck)
  {
    hide Straight, Restarted, CleanupOnExit, ClearPid;
    var s1 := Dropped(s);
    var s2 := s1.(pc := Handling(RestorePrevious), f := s1.f.(current := Some(u.oldCurrent)));
    var s3 := s2.(pc := Restarting(SpawnAgain, true), f := s2.f.(previous := PreviousTarget(u)));
    DroppedIs(s, u, luck);
    Unroll(s1, s2, u, luck);
    Unroll(s2, s3, u, luck);
    RestartedIs(s3, u, luck, true);
    RestartedPc(s3, luck, true);
    Unroll(Restarted(s3, luck, true), RolledBackByTrap(s, u, luck), u, luck);
    SettledStays(RolledBackByTrap(s, u, luck), u, luck);
  }

  class Script {
    const u: Setup
    ghost var pc: Pc
    var installPhase: Phase
    var transactionDestructive: bool
    var rollbackInProgress: bool
    var interruptSignal: Option<Sig>       // INTERRUPT_PENDING: whether it is set
    var activePid: Option<Process>
    var keepFailedRelease: bool
    var newReleaseReady: bool
    var rcFailed: bool
    var currentLink: Option<Release>
    var previousLink: Option<Release>
    var pidFile: Option<Process>
    var releaseDir: bool
    var alive: set<Process>              // the operating system's processes
    ghost var accepted: Option<Process>
    ghost var died: set<Process>
    ghost var signals: set<Sig>
    var trapSignal: Option<Sig>            // the argument of the trap that exits

    ghost function Now(): State
      reads this
    {
      State(pc,
            Vars(installPhase, transactionDestructive, rollbackInProgress, interruptSignal, activePid,
                 keepFailedRelease, newReleaseReady, rcFailed),
            Files(currentLink, previousLink, pidFile, releaseDir),
            World(alive, accepted, died), signals, trapSignal)
    }

    constructor (setup: Setup)
      ensures u == setup && Now() == Start(setup)
    {
      u := setup;
      pc := Preparing(Staging);
      installPhase, transactionDestructive, rollbackInProgress, interruptSignal := PhaseStaging, false, false, None;
      activePid, keepFailedRelease, newReleaseReady, rcFailed := None, false, false, false;
      currentLink, previousLink := Some(setup.oldCurrent), setup.previousLink;
      pidFile, releaseDir := if setup.managed then Some(Old) else None, true;
      alive, accepted, died := if setup.managed then {Old} else {}, None, {};
      signals, trapSignal := {}, None;
    }

    // kill_candidate
    method KillProcess(p: Process)
      modifies this`alive
      ensures Now() == old(Now()).(w := Kill(old(Now()).w, p))
    {
      alive := alive - {p};
    }

    // cleanup_stale_metadata
    method CleanupStaleMetadata(dead: Option<Process>)
      modifies this`pidFile
      ensures Now() == old(Now()).(f := ClearPid(old(Now()).f, dead))
    {
      if dead.Some? && pidFile == dead {
        pidFile := None;
      }
    }

    // cleanup_on_exit
    method CleanUp()
      modifies this`alive, this`releaseDir
      ensures Now() == CleanupOnExit(old(Now()))
    {
      if activePid.Some? {
        alive := alive - {activePid.value};
      }
      if !newReleaseReady && !keepFailedRelease {
        releaseDir := false;
      }
    }

    // stop_old_process
    method StopOldProcess(ghost luck: bool)
      requires pc == Preparing(StopOld)
      modifies this`pc, this`alive, this`pidFile
      ensures Now() == Step(Step(old(Now()), u, luck), u, luck) && pc == Preparing(MarkStopped)
    {
      if u.managed {
        alive := alive - {Old};
      }
      pc := Preparing(ClearOld);
      pidFile := None;
      pc := Preparing(MarkStopped);
    }

    // start_process: spawned, owned, recorded
    method StartProcess(p: Process)
      modifies this`alive, this`activePid, this`pidFile
      ensures var s := old(Now());
              Now() == s.(w := Spawn(s.w, p), v := s.v.(active := Some(p)), f := s.f.(pid := Some(p)))
    {
      alive := alive + {p};
      activePid := Some(p);
      pidFile := Some(p);
    }

    // The main script's start_process "$RELEASE_DIR" current
    method StartCandidate(ghost luck: bool)
      requires pc == Trying(SpawnNew)
      modifies this`pc, this`alive, this`activePid, this`pidFile
      ensures Now() == Step(Step(Step(old(Now()), u, luck), u, luck), u, luck) && pc == Trying(MarkRunning)
    {
      StartProcess(Candidate);
      pc := Trying(MarkRunning);
    }

    // A rollback's start_process "$prev" previous
    method StartOld(ghost trap: bool)
      modifies this`pc, this`alive, this`activePid, this`pidFile
      ensures Now() == Started(old(Now()), trap)
    {
      StartProcess(Restored);
      pc := Restarting(AwaitAgain, trap);
    }

    // A rollback's start_process and wait_for_readiness, and what follows
    method RestartOld(luck: bool, trap: bool) returns (ready: bool)
      modifies this`pc, this`alive, this`activePid, this`pidFile, this`accepted, this`keepFailedRelease
      ensures ready == luck && Now() == Restarted(old(Now()), luck, trap)
    {
      StartOld(trap);
      ready := luck && Restored in alive;
      if ready {
        activePid := None;
        accepted := Some(Restored);
        pc := if trap then Handling(FinalCleanup) else GoingBack(RemoveNew);
      } else {
        GiveUpOld(trap);
      }
    }

    // The restarted process did not become ready
    method GiveUpOld(trap: bool)
      modifies this`pc, this`alive, this`activePid, this`pidFile, this`keepFailedRelease
      ensures Now() == GaveUp(old(Now()), trap)
    {
      KillProcess(Restored);
      CleanupStaleMetadata(Some(Restored));
      activePid := None;
      if trap {
        keepFailedRelease := true;
      }
      pc := if trap then Handling(FinalCleanup) else GoingBack(EndRollback);
    }

    // The two activate_release calls of a rollback
    method ActivateReleases(current: Option<Release>, ghost trap: bool)
      modifies this`pc, this`currentLink, this`previousLink
      ensures Now() == Link(old(Now()), u, current, trap)
    {
      currentLink := current;
      previousLink := PreviousTarget(u);
      pc := Restarting(SpawnAgain, trap);
    }

    // rollback_to_previous; rc is 0 when it returns true
    method RollbackToPrevious(luck: bool) returns (restored: bool)
      requires pc == GoingBack(BackCurrent)
      modifies this
      ensures restored == luck && Now() == Straight(old(Now()), u, luck)
    {
      hide Restarted, Straight, Link;
      RolledBackIs(Now(), u, luck);
      ActivateReleases(previousLink, false);
      restored := RestartOld(luck, false);
      if restored {
        releaseDir := false;
        rcFailed := false;
        pc := GoingBack(EndRollback);
      }
    }

    // The start of rollback_after_interrupt: the candidate goes, with its metadata
    method DropCandidate()
      modifies this`pc, this`rollbackInProgress, this`alive, this`pidFile, this`activePid
      ensures Now() == Dropped(old(Now()))
    {
      rollbackInProgress := true;
      var interrupted := activePid;
      if interrupted.Some? {
        KillProcess(interrupted.value);
      }
      CleanupStaleMetadata(interrupted);
      activePid := None;
      pc := Handling(RestoreCurrent);
    }

    // rollback_after_interrupt
    method RollbackAfterInterrupt(luck: bool)
      requires rollbackInProgress || pc == Handling(Interrupted)
      modifies this
      ensures Now() == if old(rollbackInProgress) then old(Now()) else Straight(old(Now()), u, luck)
    {
      hide Dropped, Restarted, CleanupOnExit, Straight, Link;
      if rollbackInProgress {
        return;
      }
      RolledBackByTrapIs(Now(), u, luck);
      DropCandidate();
      ActivateReleases(Some(u.oldCurrent), true);
      var _ := RestartOld(luck, true);
      CleanUp();
      pc := Exiting;
    }

    // INTERRUPT_PENDING=1; INTERRUPT_SIGNAL="$sig"
    method NoteInterrupt(sig: Sig)
      modifies this`interruptSignal, this`signals
      ensures Now() == Noted(old(Now()), sig)
    {
      signals := signals + {sig};
      interruptSignal := Some(sig);
    }

    // The trap will exit with its signal's code
    method TakeInterrupt(sig: Sig)
      modifies this`trapSignal, this`signals
      ensures Now() == old(Now()).(signals := old(signals) + {sig}, trapped := Some(sig))
    {
      signals := signals + {sig};
      trapSignal := Some(sig);
    }

    // handle_interrupt: noted, or rolled back, or a plain exit
    method HandleInterrupt(sig: Sig, luck: bool)
      requires !pc.Exiting? && !pc.Done?
      modifies this
      ensures var s := Interrupt(old(Now()), sig);
              Now() == if !Defers(old(Now().v)) && old(transactionDestructive) then Straight(s, u, luck) else s
    {
      hide Straight;
      if installPhase.PhaseStoppingOld? || installPhase.PhaseStarting? {
        NoteInterrupt(sig);
        return;
      }
      if rollbackInProgress {
        NoteInterrupt(sig);
        return;
      }
      TakeInterrupt(sig);
      if transactionDestructive {
        pc := Handling(Interrupted);
        accepted := None;
        RollbackAfterInterrupt(luck);
        return;
      }
      pc := Exiting;
    }
  }
}
