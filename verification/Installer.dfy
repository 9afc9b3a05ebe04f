/**
 The installers' transaction (scripts/setup-service-host.sh and setup-application-host.sh,
 which run the same commands): stage a release, stop the old process, activate and start the
 candidate, wait, then commit or roll back. A signal may arrive between any two commands.

 The model is the script's own program counter, one value per command that matters, with the
 script's variables, its links and pid file, and the processes that are alive. A step takes
 one command; an interrupt runs the trap; a process may die by itself until it is accepted.
 */
module Installer {
  import opened Options

  type Release = string

  datatype Process = Old | Candidate | Restored

  // What the script finds when it starts: `current` points to an existing release; `previous`
  // may be absent or dangle; `managed` is whether the pid file names a verified process (one
  // that is alive and fails the verification ends the script at Recording).
  datatype Setup = Setup(oldCurrent: Release, previousLink: Option<Release>, previousIsDir: bool,
                         managed: bool, codeOnly: bool, release: Release)

  datatype Phase =
    | PhaseStaging | PhaseStoppingOld | PhaseOldStopped | PhaseActivated | PhaseStarting | PhaseRunning
    | PhaseComplete | PhaseRollback

  // Up to the point where the old release is saved as `previous`.
  datatype PrepareAt =
    | Staging | Recording | Capturing | MarkStopping | MarkDestructive | StopOld | ClearOld | MarkStopped | CheckStopped
    | SavePrevious

  // The candidate, until it is committed or has failed.
  datatype TryAt =
    | MarkActivated | ActivateNew | MarkStarting | SpawnNew | OwnNew | RecordNew | MarkRunning | CheckRunning | AwaitNew
    | Committing | MarkRollback | BeginRollback

  // The failed candidate goes; rollback_to_previous around its restart.
  datatype BackAt = KillNew | DisownNew | BackCurrent | BackPrevious | RemoveNew | EndRollback

  // rollback_after_interrupt around its restart.
  datatype HandlerAt =
    | Interrupted | StopNew | ClearNew | ForgetNew | RestoreCurrent | RestorePrevious | FinalCleanup

  // Both restart the old release: start_process, wait_for_readiness, and what follows.
  datatype RestartAt = SpawnAgain | OwnAgain | RecordAgain | AwaitAgain | AcceptAgain | KillAgain | ClearAgain | GiveUp

  // The next command; `trap` tells for which of the two a restart is; Exiting is the EXIT trap.
  datatype Pc =
    | Preparing(p: PrepareAt)
    | Trying(t: TryAt)
    | GoingBack(b: BackAt)
    | Handling(h: HandlerAt)
    | Restarting(r: RestartAt, trap: bool)
    | Exiting
    | Done

  datatype Sig = SigHup | SigInt | SigTerm

  // INSTALL_PHASE, TRANSACTION_DESTRUCTIVE, ROLLBACK_IN_PROGRESS, INTERRUPT_SIGNAL (with
  // INTERRUPT_PENDING), ACTIVE_PID, KEEP_FAILED_RELEASE, NEW_RELEASE_READY, whether rc is not 0.
  datatype Vars = Vars(phase: Phase, destructive: bool, rolling: bool, pending: Option<Sig>,
                       active: Option<Process>, keepFailed: bool, ready: bool, failed: bool)

  // The two links, the pid file, and whether RELEASE_DIR exists.
  datatype Files = Files(current: Option<Release>, previous: Option<Release>, pid: Option<Process>, staged: bool)

  // `alive`, and for the statements below: who was accepted as running, who died by itself.
  datatype World = World(alive: set<Process>, accepted: Option<Process>, died: set<Process>)

  // `signals`: those that ever arrived; `trapped`: the one whose trap does not return.
  datatype State = State(pc: Pc, v: Vars, f: Files, w: World, signals: set<Sig>, trapped: Option<Sig>)

  const VARS := Vars(PhaseStaging, false, false, None, None, false, false, false)

  function StartPid(u: Setup): Option<Process> {
    if u.managed then Some(Old) else None
  }

  function StartAlive(u: Setup): set<Process> {
    if u.managed then {Old} else {}
  }

  function Start(u: Setup): State {
    State(Preparing(Staging), VARS, Files(Some(u.oldCurrent), u.previousLink, StartPid(u), true),
          World(StartAlive(u), None, {}), {}, None)
  }

  /** What `previous` is restored to. */
  function PreviousTarget(u: Setup): Option<Release> {
    if u.previousLink.Some? && u.previousIsDir then u.previousLink else Some(u.oldCurrent)
  }

  // ---------------------------------------------------------------------------
  // Commands
  // ---------------------------------------------------------------------------

  function SetPhase(v: Vars, phase: Phase): Vars {
    v.(phase := phase)
  }

  /** kill, wait, kill -9. */
  function Kill(w: World, p: Process): World {
    w.(alive := w.alive - {p})
  }

  function Spawn(w: World, p: Process): World {
    w.(alive := w.alive + {p})
  }

  function Accept(w: World, p: Process): World {
    w.(accepted := Some(p))
  }

  /** cleanup_stale_metadata: the pid file goes if it names the dead process. */
  function ClearPid(f: Files, dead: Option<Process>): Files {
    if dead.Some? && f.pid == dead then f.(pid := None) else f
  }

  /** wait_for_readiness succeeds only for a process that is alive. */
  predicate BecomesReady(w: World, p: Process, luck: bool) {
    luck && p in w.alive
  }

  /** cleanup_on_exit. */
  function CleanupOnExit(s: State): State {
    s.(w := if s.v.active.Some? then Kill(s.w, s.v.active.value) else s.w,
       f := if !s.v.ready && !s.v.keepFailed then s.f.(staged := false) else s.f)
  }

  function Prepare(s: State, u: Setup, luck: bool): State
    requires s.pc.Preparing?
  {
    match s.pc.p
    case Staging => s.(pc := if luck then Preparing(Recording) else Exiting)
    case Recording => s.(pc := if luck then Preparing(Capturing) else Exiting)
    case Capturing => s.(pc := if luck || u.codeOnly then Preparing(MarkStopping) else Exiting)
    case MarkStopping => s.(pc := Preparing(MarkDestructive), v := SetPhase(s.v, PhaseStoppingOld))
    case MarkDestructive => s.(pc := Preparing(StopOld), v := s.v.(destructive := true))
    case StopOld => s.(pc := Preparing(ClearOld), w := if u.managed then Kill(s.w, Old) else s.w)
    case ClearOld => s.(pc := Preparing(MarkStopped), f := s.f.(pid := None))
    case MarkStopped => s.(pc := Preparing(CheckStopped), v := SetPhase(s.v, PhaseOldStopped))
    case CheckStopped => s.(pc := if s.v.pending.Some? then Handling(Interrupted) else Preparing(SavePrevious))
    case SavePrevious => s.(pc := Trying(MarkActivated), f := s.f.(previous := Some(u.oldCurrent)))
  }

  function TryNew(s: State, u: Setup, luck: bool): State
    requires s.pc.Trying?
  {
    match s.pc.t
    case MarkActivated => s.(pc := Trying(ActivateNew), v := SetPhase(s.v, PhaseActivated))
    case ActivateNew => s.(pc := Trying(MarkStarting), f := s.f.(current := Some(u.release)))
    case MarkStarting => s.(pc := Trying(SpawnNew), v := SetPhase(s.v, PhaseStarting))
    case SpawnNew => s.(pc := Trying(OwnNew), w := Spawn(s.w, Candidate))
    case OwnNew => s.(pc := Trying(RecordNew), v := s.v.(active := Some(Candidate)))
    case RecordNew => s.(pc := Trying(MarkRunning), f := s.f.(pid := Some(Candidate)))
    case MarkRunning => s.(pc := Trying(CheckRunning), v := SetPhase(s.v, PhaseRunning))
    case CheckRunning => s.(pc := if s.v.pending.Some? then Handling(Interrupted) else Trying(AwaitNew))
    case AwaitNew =>
      if BecomesReady(s.w, Candidate, luck) then s.(pc := Trying(Committing), w := Accept(s.w, Candidate))
      else s.(pc := Trying(MarkRollback), v := s.v.(failed := true))
    case Committing =>
      s.(pc := Exiting, v := s.v.(ready := true, phase := PhaseComplete, destructive := false, active := None))
    case MarkRollback => s.(pc := Trying(BeginRollback), v := SetPhase(s.v, PhaseRollback))
    case BeginRollback => s.(pc := GoingBack(KillNew), v := s.v.(rolling := true))
  }

  function GoBack(s: State, u: Setup): State
    requires s.pc.GoingBack?
  {
    match s.pc.b
    case KillNew => s.(pc := GoingBack(DisownNew), w := Kill(s.w, Candidate))
    case DisownNew => s.(pc := GoingBack(BackCurrent), v := s.v.(active := None))
    case BackCurrent => s.(pc := GoingBack(BackPrevious), f := s.f.(current := s.f.previous))
    case BackPrevious => s.(pc := Restarting(SpawnAgain, false), f := s.f.(previous := PreviousTarget(u)))
    case RemoveNew => s.(pc := GoingBack(EndRollback), f := s.f.(staged := false), v := s.v.(failed := false))
    case EndRollback => s.(pc := Exiting, v := s.v.(rolling := false, keepFailed := s.v.failed))
  }

  function Handle(s: State, u: Setup): State
    requires s.pc.Handling?
  {
    match s.pc.h
    case Interrupted => s.(pc := Handling(StopNew), v := s.v.(rolling := true))
    case StopNew => s.(pc := Handling(ClearNew), w := if s.v.active.Some? then Kill(s.w, s.v.active.value) else s.w)
    case ClearNew => s.(pc := Handling(ForgetNew), f := ClearPid(s.f, s.v.active))
    case ForgetNew => s.(pc := Handling(RestoreCurrent), v := s.v.(active := None))
    case RestoreCurrent => s.(pc := Handling(RestorePrevious), f := s.f.(current := Some(u.oldCurrent)))
    case RestorePrevious => s.(pc := Restarting(SpawnAgain, true), f := s.f.(previous := PreviousTarget(u)))
    case FinalCleanup => CleanupOnExit(s).(pc := Exiting)
  }

  function Restart(s: State, luck: bool): State
    requires s.pc.Restarting?
  {
    var trap := s.pc.trap;
    match s.pc.r
    case SpawnAgain => s.(pc := Restarting(OwnAgain, trap), w := Spawn(s.w, Restored))
    case OwnAgain => s.(pc := Restarting(RecordAgain, trap), v := s.v.(active := Some(Restored)))
    case RecordAgain => s.(pc := Restarting(AwaitAgain, trap), f := s.f.(pid := Some(Restored)))
    case AwaitAgain =>
      if BecomesReady(s.w, Restored, luck) then s.(pc := Restarting(AcceptAgain, trap), w := Accept(s.w, Restored))
      else s.(pc := Restarting(KillAgain, trap))
    case AcceptAgain =>
      s.(pc := if trap then Handling(FinalCleanup) else GoingBack(RemoveNew), v := s.v.(active := None))
    case KillAgain => s.(pc := Restarting(ClearAgain, trap), w := Kill(s.w, Restored))
    case ClearAgain => s.(pc := Restarting(GiveUp, trap), f := ClearPid(s.f, Some(Restored)))
    case GiveUp =>
      if trap then s.(pc := Handling(FinalCleanup), v := s.v.(active := None, keepFailed := true))
      else s.(pc := GoingBack(EndRollback), v := s.v.(active := None))
  }

  /** The next command. `luck` decides staging, validation, capture and readiness. */
  function Step(s: State, u: Setup, luck: bool): State {
    match s.pc
    case Preparing(_) => Prepare(s, u, luck)
    case Trying(_) => TryNew(s, u, luck)
    case GoingBack(_) => GoBack(s, u)
    case Handling(_) => Handle(s, u)
    case Restarting(_, _) => Restart(s, luck)
    case Exiting => CleanupOnExit(s).(pc := Done)
    case Done => s
  }

  predicate Defers(v: Vars) {
    v.phase.PhaseStoppingOld? || v.phase.PhaseStarting? || v.rolling
  }

  /** handle_interrupt. */
  function Interrupt(s: State, sig: Sig): State {
    var s1 := s.(signals := s.signals + {sig});
    if Defers(s.v) then s1.(v := s.v.(pending := Some(sig)))
    else if s.v.destructive then s1.(pc := Handling(Interrupted), w := s.w.(accepted := None), trapped := Some(sig))
    else s1.(pc := Exiting, trapped := Some(sig))
  }

  /** interrupt_exit_code. */
  function Code(sig: Sig): nat {
    match sig case SigHup => 129 case SigInt => 130 case SigTerm => 143
  }

  /**
   What `exit` is called with, once it is: 0 after the commit; the signal of the trap that does
   not return, else the signal noted last; 1 from die.
   */
  function ExitStatus(s: State): nat {
    if s.v.ready then 0
    else if s.trapped.Some? then Code(s.trapped.value)
    else if s.v.pending.Some? then Code(s.v.pending.value)
    else 1
  }

  function Dies(s: State, p: Process): State {
    s.(w := s.w.(alive := s.w.alive - {p}, died := s.w.died + {p}))
  }

  datatype Event = Command(luck: bool) | Signal(sig: Sig) | Death(p: Process)

  /** No signal once `exit` runs; an accepted process stays up. */
  predicate Possible(s: State, ev: Event) {
    match ev
    case Command(_) => !s.pc.Done?
    case Signal(_) => !s.pc.Exiting? && !s.pc.Done?
    case Death(p) => p in s.w.alive && s.w.accepted != Some(p)
  }

  function Next(s: State, u: Setup, ev: Event): State {
    match ev
    case Command(luck) => Step(s, u, luck)
    case Signal(sig) => Interrupt(s, sig)
    case Death(p) => Dies(s, p)
  }

  // ---------------------------------------------------------------------------
  // What holds at every command
  // ---------------------------------------------------------------------------

  // How a run ends.
  datatype Verdict = Untouched | Committed | Recovered | Lost

  function VerdictOf(v: Vars): Verdict {
    if v.ready then Committed else if !v.destructive then Untouched else if v.keepFailed then Lost else Recovered
  }

  /** Everything the script believes and has written, before each command of Prepare. */
  predicate PrepareInv(s: State, u: Setup)
    requires s.pc.Preparing?
  {
    var at, pend := s.pc.p, s.v.pending;
    && s.v == (match at
               case Staging | Recording | Capturing | MarkStopping => VARS
               case MarkDestructive => VARS.(phase := PhaseStoppingOld, pending := pend)
               case StopOld | ClearOld | MarkStopped =>
                 VARS.(phase := PhaseStoppingOld, pending := pend, destructive := true)
               case CheckStopped => VARS.(phase := PhaseOldStopped, pending := pend, destructive := true)
               case SavePrevious => VARS.(phase := PhaseOldStopped, destructive := true))
    && s.f == Files(Some(u.oldCurrent), u.previousLink,
                    if at.MarkStopped? || at.CheckStopped? || at.SavePrevious? then None else StartPid(u), true)
    && (if at.ClearOld? || at.MarkStopped? || at.CheckStopped? || at.SavePrevious? then s.w.alive == {}
        else s.w.alive == StartAlive(u) - s.w.died)
    && s.w.accepted == None
    && (s.signals == {} <==> s.v.pending == None)
  }

  predicate NotSpawned(at: TryAt) {
    at.MarkActivated? || at.ActivateNew? || at.MarkStarting? || at.SpawnNew?
  }

  predicate TryInv(s: State, u: Setup)
    requires s.pc.Trying?
  {
    var at, pend := s.pc.t, s.v.pending;
    var mine := VARS.(destructive := true, active := Some(Candidate));
    && s.v == (match at
               case MarkActivated => VARS.(phase := PhaseOldStopped, destructive := true)
               case ActivateNew | MarkStarting => VARS.(phase := PhaseActivated, destructive := true)
               case SpawnNew | OwnNew => VARS.(phase := PhaseStarting, pending := pend, destructive := true)
               case RecordNew | MarkRunning => mine.(phase := PhaseStarting, pending := pend)
               case CheckRunning => mine.(phase := PhaseRunning, pending := pend)
               case AwaitNew | Committing => mine.(phase := PhaseRunning)
               case MarkRollback => mine.(phase := PhaseRunning, failed := true)
               case BeginRollback => mine.(phase := PhaseRollback, failed := true))
    && s.f == Files(if at.MarkActivated? || at.ActivateNew? then Some(u.oldCurrent) else Some(u.release),
                    Some(u.oldCurrent),
                    if NotSpawned(at) || at.OwnNew? || at.RecordNew? then None else Some(Candidate), true)
    && s.w.alive <= (if NotSpawned(at) then {} else {Candidate})
    && s.w.accepted == (if at.Committing? then Some(Candidate) else None)
    && (at.Committing? ==> Candidate in s.w.alive)
    && (s.signals == {} <==> s.v.pending == None)
  }

  predicate BackInv(s: State, u: Setup)
    requires s.pc.GoingBack?
  {
    var at := s.pc.b;
    var mine := VARS.(phase := PhaseRollback, destructive := true, rolling := true, failed := true,
                      pending := s.v.pending);
    && s.v == (match at
               case KillNew | DisownNew => mine.(active := Some(Candidate))
               case BackCurrent | BackPrevious | RemoveNew => mine
               case EndRollback => mine.(failed := s.v.failed))
    && s.f == (match at
               case KillNew | DisownNew | BackCurrent =>
                 Files(Some(u.release), Some(u.oldCurrent), Some(Candidate), true)
               case BackPrevious => Files(Some(u.oldCurrent), Some(u.oldCurrent), Some(Candidate), true)
               case RemoveNew => Settled(u, false).(staged := true)
               case EndRollback => Settled(u, s.v.failed))
    && (match at
        case KillNew => s.w.alive <= {Candidate} && s.w.accepted == None
        case DisownNew | BackCurrent | BackPrevious => s.w.alive == {} && s.w.accepted == None
        case RemoveNew => BackUp(s.w, true)
        case EndRollback => BackUp(s.w, !s.v.failed))
  }

  /** The files once the old release is back: the restart worked, or it did not. */
  function Settled(u: Setup, lost: bool): Files {
    Files(Some(u.oldCurrent), PreviousTarget(u), if lost then None else Some(Restored), lost)
  }

  /** The old release runs again and was accepted; or nothing runs. */
  predicate BackUp(w: World, up: bool) {
    if up then w.alive == {Restored} && w.accepted == Some(Restored) else w.alive == {} && w.accepted == None
  }

  predicate HandlerInv(s: State, u: Setup)
    requires s.pc.Handling?
  {
    var at := s.pc.h;
    && s.v == VARS.(phase := s.v.phase, destructive := true, rolling := !at.Interrupted?, pending := s.v.pending,
                    failed := s.v.failed, active := s.v.active, keepFailed := at.FinalCleanup? && s.v.keepFailed)
    && (at.Interrupted? ==> !s.v.phase.PhaseStoppingOld? && !s.v.phase.PhaseStarting?)
    && s.f.staged
    && (match at
        case Interrupted | StopNew | ClearNew => s.f.pid == None || s.f.pid == s.v.active
        case ForgetNew | RestoreCurrent => s.f.pid == None
        case RestorePrevious => s.f.pid == None && s.f.current == Some(u.oldCurrent)
        case FinalCleanup => s.f == Settled(u, s.v.keepFailed).(staged := true))
    && (match at
        case Interrupted | StopNew | ClearNew | ForgetNew => s.v.active == None || s.v.active == Some(Candidate)
        case _ => s.v.active == None)
    && (match at
        case Interrupted | StopNew =>
          s.w.alive <= (if s.v.active.Some? then {Candidate} else {}) && s.w.accepted == None
        case FinalCleanup => BackUp(s.w, !s.v.keepFailed)
        case _ => s.w.alive == {} && s.w.accepted == None)
  }

  predicate RestartInv(s: State, u: Setup)
    requires s.pc.Restarting?
  {
    var at := s.pc.r;
    && s.v == VARS.(phase := s.v.phase, destructive := true, rolling := true, pending := s.v.pending,
                    failed := s.v.failed,
                    active := if at.SpawnAgain? || at.OwnAgain? then None else Some(Restored))
    && (!s.pc.trap ==> s.v.phase.PhaseRollback? && s.v.failed)
    && s.f == Files(Some(u.oldCurrent), PreviousTarget(u), s.f.pid, true)
    && (match at
        case SpawnAgain | OwnAgain | RecordAgain => true
        case GiveUp => s.f.pid == None
        case _ => s.f.pid == Some(Restored))
    && (match at
        case SpawnAgain | ClearAgain | GiveUp => BackUp(s.w, false)
        case AcceptAgain => BackUp(s.w, true)
        case _ => s.w.alive <= {Restored} && s.w.accepted == None)
  }

  /** The four ways a run can end; `over`: the EXIT trap has run. */
  predicate EndInv(s: State, u: Setup, over: bool) {
    && s.v.active == None && (s.v.ready ==> !s.v.destructive && s.signals == {}) && (s.v.keepFailed ==> s.v.destructive)
    && match VerdictOf(s.v)
       case Committed =>
         && s.f == Files(Some(u.release), Some(u.oldCurrent), Some(Candidate), true)
         && s.w.alive == {Candidate} && s.w.accepted == Some(Candidate) && s.v.phase.PhaseComplete?
       case Untouched =>
         && s.f == Files(Some(u.oldCurrent), u.previousLink, StartPid(u), !over)
         && s.w.alive == StartAlive(u) - s.w.died && s.w.accepted == None
       case Recovered => s.f == Settled(u, false) && s.w.alive == {Restored} && s.w.accepted == Some(Restored)
       case Lost => s.f == Settled(u, true) && s.w.alive == {} && s.w.accepted == None
  }

  predicate Inv(s: State, u: Setup) {
    match s.pc
    case Preparing(_) => PrepareInv(s, u)
    case Trying(_) => TryInv(s, u)
    case GoingBack(_) => BackInv(s, u)
    case Handling(_) => HandlerInv(s, u)
    case Restarting(_, _) => RestartInv(s, u)
    case Exiting => EndInv(s, u, false)
    case Done => EndInv(s, u, true)
  }

  lemma PrepareKeeps(s: State, u: Setup, luck: bool)
    requires s.pc.Preparing? && PrepareInv(s, u)
    ensures Inv(Prepare(s, u, luck), u)
  {
  }

  lemma TryNewKeeps(s: State, u: Setup, luck: bool)
    requires s.pc.Trying? && TryInv(s, u)
    ensures Inv(TryNew(s, u, luck), u)
  {
  }

  lemma GoBackKeeps(s: State, u: Setup)
    requires s.pc.GoingBack? && BackInv(s, u)
    ensures Inv(GoBack(s, u), u)
  {
  }

  lemma HandleKeeps(s: State, u: Setup)
    requires s.pc.Handling? && HandlerInv(s, u)
    ensures Inv(Handle(s, u), u)
  {
  }

  lemma RestartKeeps(s: State, u: Setup, luck: bool)
    requires s.pc.Restarting? && RestartInv(s, u)
    ensures Inv(Restart(s, luck), u)
  {
  }

  lemma ExitKeeps(s: State, u: Setup)
    requires s.pc.Exiting? && EndInv(s, u, false)
    ensures EndInv(CleanupOnExit(s).(pc := Done), u, true)
  {
  }

  lemma SignalPreparing(s: State, u: Setup, sig: Sig)
    requires s.pc.Preparing? && PrepareInv(s, u)
    ensures Inv(Interrupt(s, sig), u)
  {
  }

  lemma SignalTrying(s: State, u: Setup, sig: Sig)
    requires s.pc.Trying? && TryInv(s, u)
    ensures Inv(Interrupt(s, sig), u)
  {
  }

  lemma SignalBack(s: State, u: Setup, sig: Sig)
    requires (s.pc.GoingBack? && BackInv(s, u)) || (s.pc.Restarting? && RestartInv(s, u))
    ensures Inv(Interrupt(s, sig), u)
  {
  }

  lemma SignalHandling(s: State, u: Setup, sig: Sig)
    requires s.pc.Handling? && HandlerInv(s, u)
    ensures Inv(Interrupt(s, sig), u)
  {
  }

  lemma SignalKeeps(s: State, u: Setup, sig: Sig)
    requires Inv(s, u) && Possible(s, Signal(sig))
    ensures Inv(Interrupt(s, sig), u)
  {
    hide PrepareInv, TryInv, BackInv, HandlerInv, RestartInv, EndInv, Interrupt;
    match s.pc
    case Preparing(_) => SignalPreparing(s, u, sig);
    case Trying(_) => SignalTrying(s, u, sig);
    case Handling(_) => SignalHandling(s, u, sig);
    case _ => SignalBack(s, u, sig);
  }

  lemma DeathKeeps(s: State, u: Setup, p: Process)
    requires Inv(s, u) && Possible(s, Death(p))
    ensures Inv(Dies(s, p), u)
  {
  }

  lemma NextKeeps(s: State, u: Setup, ev: Event)
    requires Inv(s, u) && Possible(s, ev)
    ensures Inv(Next(s, u, ev), u)
  {
    hide PrepareInv, TryInv, BackInv, HandlerInv, RestartInv, EndInv, Prepare, TryNew, GoBack, Handle, Restart;
    match ev
    case Command(luck) =>
      match s.pc {
        case Preparing(_) => PrepareKeeps(s, u, luck);
        case Trying(_) => TryNewKeeps(s, u, luck);
        case GoingBack(_) => GoBackKeeps(s, u);
        case Handling(_) => HandleKeeps(s, u);
        case Restarting(_, _) => RestartKeeps(s, u, luck);
        case Exiting => ExitKeeps(s, u);
      }
    case Signal(sig) => SignalKeeps(s, u, sig);
    case Death(p) => DeathKeeps(s, u, p);
  }

  // ---------------------------------------------------------------------------
  // Every run
  // ---------------------------------------------------------------------------

  predicate CanRun(s: State, u: Setup, evs: seq<Event>)
    decreases |evs|
  {
    evs == [] || (Possible(s, evs[0]) && CanRun(Next(s, u, evs[0]), u, evs[1..]))
  }

  function Run(s: State, u: Setup, evs: seq<Event>): State
    requires CanRun(s, u, evs)
    decreases |evs|
  {
    if evs == [] then s else Run(Next(s, u, evs[0]), u, evs[1..])
  }

  lemma StartInv(u: Setup)
    ensures Inv(Start(u), u)
  {
  }

  lemma {:induction false} RunKeeps(s: State, u: Setup, evs: seq<Event>)
    requires Inv(s, u) && CanRun(s, u, evs)
    ensures Inv(Run(s, u, evs), u)
    decreases |evs|
  {
    hide Inv, Next, Possible;
    if evs != [] {
      NextKeeps(s, u, evs[0]);
      RunKeeps(Next(s, u, evs[0]), u, evs[1..]);
    }
  }

  /** Two managed processes are never alive at once, wherever signals and deaths strike. */
  lemma OneAtATime(u: Setup, evs: seq<Event>, p: Process, q: Process)
    requires CanRun(Start(u), u, evs)
    requires p in Run(Start(u), u, evs).w.alive && q in Run(Start(u), u, evs).w.alive
    ensures p == q
  {
    StartInv(u);
    RunKeeps(Start(u), u, evs);
    AtMostOne(Run(Start(u), u, evs), u, p, q);
  }

  lemma AtMostOne(s: State, u: Setup, p: Process, q: Process)
    requires Inv(s, u) && p in s.w.alive && q in s.w.alive
    ensures p == q
  {
  }

  /** The signals so far, and what the script holds of them. */
  predicate SignalsInv(s: State) {
    && (s.v.pending.Some? ==> s.v.pending.value in s.signals)
    && (s.trapped.Some? ==> s.trapped.value in s.signals)
    && (s.signals != {} ==> s.v.pending.Some? || s.trapped.Some?)
  }

  /** No command touches them. */
  predicate SameSignals(s: State, t: State) {
    t.v.pending == s.v.pending && t.trapped == s.trapped && t.signals == s.signals && t.w.died == s.w.died
  }

  lemma StepSignals(s: State, u: Setup, luck: bool)
    ensures SameSignals(s, Step(s, u, luck))
  {
    hide Prepare, TryNew, GoBack, Handle, Restart;
    match s.pc
    case Preparing(_) => PrepareSignals(s, u, luck);
    case Trying(_) => TrySignals(s, u, luck);
    case GoingBack(_) => BackSignals(s, u);
    case Handling(_) => HandleSignals(s, u);
    case Restarting(_, _) => RestartSignals(s, luck);
    case _ =>
  }

  lemma PrepareSignals(s: State, u: Setup, luck: bool)
    requires s.pc.Preparing?
    ensures SameSignals(s, Prepare(s, u, luck))
  {
  }

  lemma TrySignals(s: State, u: Setup, luck: bool)
    requires s.pc.Trying?
    ensures SameSignals(s, TryNew(s, u, luck))
  {
    hide BecomesReady;
    match s.pc.t
    case MarkActivated => case ActivateNew => case MarkStarting => case SpawnNew => case OwnNew => case RecordNew =>
    case MarkRunning => case CheckRunning => case AwaitNew => case Committing => case MarkRollback =>
    case BeginRollback =>
  }

  lemma BackSignals(s: State, u: Setup)
    requires s.pc.GoingBack?
    ensures SameSignals(s, GoBack(s, u))
  {
  }

  lemma HandleSignals(s: State, u: Setup)
    requires s.pc.Handling?
    ensures SameSignals(s, Handle(s, u))
  {
  }

  lemma RestartSignals(s: State, luck: bool)
    requires s.pc.Restarting?
    ensures SameSignals(s, Restart(s, luck))
  {
  }

  function SignalsIn(evs: seq<Event>): set<Sig> {
    if evs == [] then {} else (if evs[0].Signal? then {evs[0].sig} else {}) + SignalsIn(evs[1..])
  }

  function DeathsIn(evs: seq<Event>): set<Process> {
    if evs == [] then {} else (if evs[0].Death? then {evs[0].p} else {}) + DeathsIn(evs[1..])
  }

  /** No signal and no death goes unnoticed. */
  lemma {:induction false} RunKeepsSignals(s: State, u: Setup, evs: seq<Event>)
    requires SignalsInv(s) && CanRun(s, u, evs)
    ensures var t := Run(s, u, evs);
            && SignalsInv(t) && t.signals == s.signals + SignalsIn(evs) && t.w.died == s.w.died + DeathsIn(evs)
    decreases |evs|
  {
    hide Step, Possible, SignalsInv;
    if evs != [] {
      EventSignals(s, u, evs[0]);
      RunKeepsSignals(Next(s, u, evs[0]), u, evs[1..]);
    }
  }

  lemma EventSignals(s: State, u: Setup, ev: Event)
    requires SignalsInv(s)
    ensures var t := Next(s, u, ev);
            && SignalsInv(t)
            && t.signals == s.signals + (if ev.Signal? then {ev.sig} else {})
            && t.w.died == s.w.died + (if ev.Death? then {ev.p} else {})
  {
    hide Step;
    if ev.Command? {
      StepSignals(s, u, ev.luck);
    }
  }

  /** A process that dies by itself is gone, and no other. */
  lemma OnlyItDies(s: State, u: Setup, p: Process)
    ensures var t := Next(s, u, Death(p));
            && (forall q :: q in t.w.alive <==> q in s.w.alive && q != p)
            && (t.w.accepted, t.f, t.v, t.pc, t.signals) == (s.w.accepted, s.f, s.v, s.pc, s.signals)
  {
  }

  /** The exit status of a run that is not committed: 1, or 128 and the number of a signal that came. */
  predicate FailsBy(s: State) {
    if s.signals == {} then ExitStatus(s) == 1 else exists sig :: sig in s.signals && ExitStatus(s) == Code(sig)
  }

  /** What the EXIT trap leaves: no process the script still owns, and a staged release only if it is to stay. */
  lemma ExitCleansUp(s: State)
    ensures var t := CleanupOnExit(s);
            && (s.v.active.Some? ==> s.v.active.value !in t.w.alive)
            && (forall p :: s.v.active != Some(p) ==> (p in t.w.alive <==> p in s.w.alive))
            && (t.f.staged <==> s.f.staged && (s.v.ready || s.v.keepFailed))
            && t.f == s.f.(staged := t.f.staged) && t.v == s.v
  {
  }

  /** The pid file goes with the process it names, and with no other. */
  lemma OnlyItsPid(f: Files, dead: Option<Process>)
    ensures dead.Some? && f.pid == dead ==> ClearPid(f, dead).pid == None
    ensures !(dead.Some? && f.pid == dead) ==> ClearPid(f, dead) == f
  {
  }

  predicate IsCommitted(s: State, u: Setup) {
    && s.v.ready && s.f == Files(Some(u.release), Some(u.oldCurrent), Some(Candidate), true)
    && s.w.alive == {Candidate} && s.v.phase.PhaseComplete? && ExitStatus(s) == 0
  }

  /** Links, pid file and process as found; the staged release is gone. */
  predicate IsUntouched(s: State, u: Setup) {
    && !s.v.ready && s.f == Files(Some(u.oldCurrent), u.previousLink, StartPid(u), false)
    && s.w.alive == StartAlive(u) - s.w.died && !s.v.destructive && FailsBy(s)
  }

  predicate IsRestored(s: State, u: Setup) {
    && !s.v.ready && s.f == Files(Some(u.oldCurrent), PreviousTarget(u), Some(Restored), false)
    && s.w.alive == {Restored} && FailsBy(s)
  }

  predicate IsLost(s: State, u: Setup) {
    && !s.v.ready && s.f == Files(Some(u.oldCurrent), PreviousTarget(u), None, true) && s.w.alive == {}
    && FailsBy(s)
  }

  /**
   Every run that ends, ends in exactly one of four states: committed with status 0; untouched,
   restored, or not recovered with nothing running and the failed release kept, with status 1
   or 128 and a signal's number. A run that saw a signal is never committed, and the status
   tells: 0 if and only if committed, 1 if and only if it failed without a signal. Unless
   committed, `current` is as it was found; `previous` too if it named a release, and else, once
   the old process was stopped, it names the old release; and the staged release is gone unless
   it is committed or kept.
   */
  lemma FourEndings(u: Setup, evs: seq<Event>)
    requires CanRun(Start(u), u, evs) && Run(Start(u), u, evs).pc.Done?
    ensures var s := Run(Start(u), u, evs);
            && (IsCommitted(s, u) || IsUntouched(s, u) || IsRestored(s, u) || IsLost(s, u))
            && (IsCommitted(s, u) ==> !IsUntouched(s, u) && !IsRestored(s, u) && !IsLost(s, u))
            && (IsUntouched(s, u) ==> !IsRestored(s, u) && !IsLost(s, u))
            && (IsRestored(s, u) ==> !IsLost(s, u))
            && s.signals == SignalsIn(evs) && s.w.died == DeathsIn(evs)
            && (s.signals != {} ==> !IsCommitted(s, u))
            && (ExitStatus(s) == 0 <==> IsCommitted(s, u))
            && (ExitStatus(s) == 1 <==> !IsCommitted(s, u) && s.signals == {})
            && (!IsCommitted(s, u) ==> s.f.current == Start(u).f.current)
            && (!IsCommitted(s, u) && u.previousLink.Some? && u.previousIsDir ==> s.f.previous == Start(u).f.previous)
            && (IsUntouched(s, u) ==>
                  && s.f.previous == u.previousLink && s.f.pid == (if u.managed then Some(Old) else None)
                  && s.w.alive == if u.managed && Old !in s.w.died then {Old} else {})
            && ((IsRestored(s, u) || IsLost(s, u)) && !(u.previousLink.Some? && u.previousIsDir) ==>
                  s.f.previous == Some(u.oldCurrent))
            && (IsCommitted(s, u) ==> s.f.current == Some(u.release) && s.f.previous == Some(u.oldCurrent))
            && (s.f.staged <==> IsCommitted(s, u) || IsLost(s, u))
  {
    StartInv(u);
    RunKeeps(Start(u), u, evs);
    RunKeepsSignals(Start(u), u, evs);
    Ended(Run(Start(u), u, evs), u);
  }

  lemma Fails(s: State)
    requires SignalsInv(s) && !s.v.ready
    ensures FailsBy(s) && ExitStatus(s) != 0
  {
    if s.trapped.Some? {
      assert ExitStatus(s) == Code(s.trapped.value);
    } else if s.v.pending.Some? {
      assert ExitStatus(s) == Code(s.v.pending.value);
    }
  }

  lemma Ended(s: State, u: Setup)
    requires s.pc.Done? && EndInv(s, u, true) && SignalsInv(s)
    ensures match VerdictOf(s.v)
            case Committed => IsCommitted(s, u) && s.signals == {}
            case Untouched => IsUntouched(s, u)
            case Recovered => IsRestored(s, u)
            case Lost => IsLost(s, u)
  {
    if !s.v.ready {
      Fails(s);
    }
  }

  // ---------------------------------------------------------------------------
  // Every run ends
  // ---------------------------------------------------------------------------

  function PrepareLeft(p: PrepareAt): nat {
    match p
    case Staging => 9 case Recording => 8 case Capturing => 7 case MarkStopping => 6 case MarkDestructive => 5
    case StopOld => 4 case ClearOld => 3 case MarkStopped => 2 case CheckStopped => 1 case SavePrevious => 0
  }

  function TryLeft(t: TryAt): nat {
    match t
    case MarkActivated => 10 case ActivateNew => 9 case MarkStarting => 8 case SpawnNew => 7 case OwnNew => 6
    case RecordNew => 5 case MarkRunning => 4 case CheckRunning => 3 case AwaitNew => 2
    case Committing => 1 case MarkRollback => 1 case BeginRollback => 0
  }

  function RestartLeft(r: RestartAt): nat {
    match r
    case SpawnAgain => 6 case OwnAgain => 5 case RecordAgain => 4 case AwaitAgain => 3
    case AcceptAgain => 0 case KillAgain => 2 case ClearAgain => 1 case GiveUp => 0
  }

  function BackLeft(b: BackAt): nat {
    match b
    case KillNew => 14 case DisownNew => 13 case BackCurrent => 12 case BackPrevious => 11
    case RemoveNew => 3 case EndRollback => 2
  }

  function HandlerLeft(h: HandlerAt): nat {
    match h
    case Interrupted => 16 case StopNew => 15 case ClearNew => 14 case ForgetNew => 13
    case RestoreCurrent => 12 case RestorePrevious => 11 case FinalCleanup => 2
  }

  /** An upper bound on the commands still to run. */
  function Left(pc: Pc): nat {
    match pc
    case Preparing(p) => 28 + PrepareLeft(p)
    case Trying(t) => 17 + TryLeft(t)
    case GoingBack(b) => BackLeft(b)
    case Handling(h) => HandlerLeft(h)
    case Restarting(r, _) => 4 + RestartLeft(r)
    case Exiting => 1
    case Done => 0
  }

  /** Every command brings the end nearer. */
  lemma CommandAdvances(s: State, u: Setup, luck: bool)
    requires !s.pc.Done?
    ensures Left(Step(s, u, luck).pc) < Left(s.pc)
  {
    hide Prepare, TryNew, GoBack, Handle, Restart, PrepareLeft, TryLeft, BackLeft, HandlerLeft, RestartLeft;
    match s.pc
    case Preparing(_) => PrepareAdvances(s, u, luck);
    case Trying(_) => TryAdvances(s, u, luck);
    case GoingBack(_) => BackAdvances(s, u, luck);
    case Handling(_) => BackAdvances(s, u, luck);
    case Restarting(_, _) => BackAdvances(s, u, luck);
    case Exiting =>
  }

  lemma PrepareAdvances(s: State, u: Setup, luck: bool)
    requires s.pc.Preparing?
    ensures Left(Prepare(s, u, luck).pc) < Left(s.pc)
  {
  }

  lemma TryAdvances(s: State, u: Setup, luck: bool)
    requires s.pc.Trying?
    ensures Left(TryNew(s, u, luck).pc) < Left(s.pc)
  {
  }

  lemma BackAdvances(s: State, u: Setup, luck: bool)
    ensures s.pc.GoingBack? ==> Left(GoBack(s, u).pc) < Left(s.pc)
    ensures s.pc.Handling? ==> Left(Handle(s, u).pc) < Left(s.pc)
    ensures s.pc.Restarting? ==> Left(Restart(s, luck).pc) < Left(s.pc)
  {
  }

  /** No signal and no death puts it off. */
  lemma LeftDecreases(s: State, u: Setup, ev: Event)
    requires Possible(s, ev) && Inv(s, u)
    ensures ev.Command? ==> Left(Next(s, u, ev).pc) < Left(s.pc)
    ensures Left(Next(s, u, ev).pc) <= Left(s.pc)
  {
    hide Inv, Step, Interrupt, Left;
    match ev
    case Command(luck) => CommandAdvances(s, u, luck);
    case Signal(sig) => SignalLeaves(s, u, sig);
    case Death(_) =>
  }

  lemma SignalLeaves(s: State, u: Setup, sig: Sig)
    requires Inv(s, u) && Possible(s, Signal(sig))
    ensures Left(Interrupt(s, sig).pc) <= Left(s.pc)
  {
  }

  function Commands(evs: seq<Event>): nat {
    if evs == [] then 0 else (if evs[0].Command? then 1 else 0) + Commands(evs[1..])
  }

  /** However signals and deaths fall, a run takes at most 37 commands; and only Done stops it. */
  lemma {:induction false} RunsEnd(s: State, u: Setup, evs: seq<Event>)
    requires Inv(s, u) && CanRun(s, u, evs)
    ensures Commands(evs) + Left(Run(s, u, evs).pc) <= Left(s.pc) <= 37
    ensures Run(s, u, evs).pc.Done? || Possible(Run(s, u, evs), Command(true))
    decreases |evs|
  {
    hide Inv, Next;
    if evs != [] {
      NextKeeps(s, u, evs[0]);
      LeftDecreases(s, u, evs[0]);
      RunsEnd(Next(s, u, evs[0]), u, evs[1..]);
    }
  }

  // What the outside decides of an installation: whether the release is staged and validated, the
  // links and the old pid read, the old configuration captured, the candidate ready, and the old
  // release ready again.
  datatype Fate = Fate(staged: bool, recorded: bool, captured: bool, ready: bool, again: bool)

  function LuckAt(pc: Pc, fate: Fate): bool {
    match pc
    case Preparing(at) =>
      if at.Staging? then fate.staged else if at.Recording? then fate.recorded else fate.captured
    case Trying(_) => fate.ready
    case _ => fate.again
  }

  /** The commands from s to the end, with nobody interfering. */
  function Undisturbed(s: State, u: Setup, fate: Fate): State
    decreases Left(s.pc)
  {
    if s.pc.Done? then s
    else
      CommandAdvances(s, u, LuckAt(s.pc, fate));
      Undisturbed(Step(s, u, LuckAt(s.pc, fate)), u, fate)
  }

  function Comeback(fate: Fate): Verdict {
    if fate.again then Recovered else Lost
  }

  function Attempt(fate: Fate): Verdict {
    if fate.ready then Committed else Comeback(fate)
  }

  /** How an installation ends that nobody disturbs from here on, while it prepares. */
  function PrepareEnds(s: State, u: Setup, fate: Fate): Verdict
    requires s.pc.Preparing?
  {
    var captures := fate.captured || u.codeOnly;
    match s.pc.p
    case Staging => if fate.staged && fate.recorded && captures then Attempt(fate) else Untouched
    case Recording => if fate.recorded && captures then Attempt(fate) else Untouched
    case Capturing => if captures then Attempt(fate) else Untouched
    case _ => if s.v.pending.Some? then Comeback(fate) else Attempt(fate)
  }

  /** While it tries the candidate; a candidate that has died is not ready. */
  function TryEnds(s: State, fate: Fate): Verdict
    requires s.pc.Trying?
  {
    match s.pc.t
    case Committing => Committed
    case MarkRollback => Comeback(fate)
    case BeginRollback => Comeback(fate)
    case _ =>
      if s.v.pending.Some? || !(NotSpawned(s.pc.t) || Candidate in s.w.alive) then Comeback(fate) else Attempt(fate)
  }

  /** While it restarts the old release. */
  function RestartEnds(s: State, fate: Fate): Verdict
    requires s.pc.Restarting?
  {
    match s.pc.r
    case SpawnAgain => Comeback(fate)
    case AcceptAgain => Recovered
    case KillAgain => Lost
    case ClearAgain => Lost
    case GiveUp => Lost
    case _ => if fate.again && Restored in s.w.alive then Recovered else Lost
  }

  /** How an installation ends that nobody disturbs from here on. */
  function Ends(s: State, u: Setup, fate: Fate): Verdict {
    match s.pc
    case Preparing(_) => PrepareEnds(s, u, fate)
    case Trying(_) => TryEnds(s, fate)
    case GoingBack(at) =>
      if at.RemoveNew? then Recovered
      else if at.EndRollback? then (if s.v.failed then Lost else Recovered)
      else Comeback(fate)
    case Handling(at) => if at.FinalCleanup? then (if s.v.keepFailed then Lost else Recovered) else Comeback(fate)
    case Restarting(_, _) => RestartEnds(s, fate)
    case Exiting => VerdictOf(s.v)
    case Done => VerdictOf(s.v)
  }

  lemma PrepareStays(s: State, u: Setup, fate: Fate)
    requires s.pc.Preparing? && PrepareInv(s, u)
    ensures Ends(Prepare(s, u, LuckAt(s.pc, fate)), u, fate) == PrepareEnds(s, u, fate)
  {
    hide Kill, StartPid, StartAlive;
  }

  lemma TryStays(s: State, u: Setup, fate: Fate)
    requires s.pc.Trying? && TryInv(s, u)
    ensures Ends(TryNew(s, u, LuckAt(s.pc, fate)), u, fate) == TryEnds(s, fate)
  {
  }

  lemma BackStays(s: State, u: Setup, fate: Fate)
    requires s.pc.GoingBack? && BackInv(s, u)
    ensures Ends(GoBack(s, u), u, fate) == Ends(s, u, fate)
  {
  }

  lemma HandleStays(s: State, u: Setup, fate: Fate)
    requires s.pc.Handling? && HandlerInv(s, u)
    ensures Ends(Handle(s, u), u, fate) == Ends(s, u, fate)
  {
  }

  lemma RestartStays(s: State, u: Setup, fate: Fate)
    requires s.pc.Restarting? && RestartInv(s, u)
    ensures Ends(Restart(s, fate.again), u, fate) == RestartEnds(s, fate)
  {
  }

  /** No command changes how it will end. */
  lemma CommandStays(s: State, u: Setup, fate: Fate)
    requires Inv(s, u) && !s.pc.Done?
    ensures Ends(Step(s, u, LuckAt(s.pc, fate)), u, fate) == Ends(s, u, fate)
  {
    hide PrepareInv, TryInv, BackInv, HandlerInv, RestartInv, EndInv, Prepare, TryNew, GoBack, Handle, Restart;
    match s.pc
    case Preparing(_) => PrepareStays(s, u, fate);
    case Trying(_) => TryStays(s, u, fate);
    case GoingBack(_) => BackStays(s, u, fate);
    case Handling(_) => HandleStays(s, u, fate);
    case Restarting(_, _) => RestartStays(s, u, fate);
    case Exiting =>
  }

  /**
   Wherever signals and deaths have brought an installation, if nobody disturbs it further it
   ends exactly as `Ends` tells.
   */
  lemma {:induction false} EndsAsTold(s: State, u: Setup, fate: Fate)
    requires Inv(s, u)
    ensures var t := Undisturbed(s, u, fate);
            t.pc.Done? && Inv(t, u) && VerdictOf(t.v) == Ends(s, u, fate)
    decreases Left(s.pc)
  {
    hide Inv, Step, Ends, LuckAt;
    if s.pc.Done? {
      DoneEnds(s, u, fate);
    } else {
      var luck := LuckAt(s.pc, fate);
      NextKeeps(s, u, Command(luck));
      CommandStays(s, u, fate);
      CommandAdvances(s, u, luck);
      EndsAsTold(Step(s, u, luck), u, fate);
    }
  }

  lemma DoneEnds(s: State, u: Setup, fate: Fate)
    requires s.pc.Done?
    ensures Ends(s, u, fate) == VerdictOf(s.v)
  {
  }

  /**
   An installation nobody disturbs: committed if everything succeeds; the old release restored if
   the candidate does not become ready, or lost if that does not either; and nothing touched if
   it fails before the old process is stopped.
   */
  lemma InstallEnds(u: Setup, fate: Fate)
    ensures var t := Undisturbed(Start(u), u, fate);
            if !fate.staged || !fate.recorded || !(fate.captured || u.codeOnly) then IsUntouched(t, u)
            else if fate.ready then IsCommitted(t, u)
            else if fate.again then IsRestored(t, u)
            else IsLost(t, u)
  {
    hide Undisturbed, IsCommitted, IsUntouched, IsRestored, IsLost, EndInv;
    StartInv(u);
    EndsAsTold(Start(u), u, fate);
    UndisturbedSignals(Start(u), u, fate);
    assert SignalsInv(Start(u));
    Ended(Undisturbed(Start(u), u, fate), u);
  }

  lemma {:induction false} UndisturbedSignals(s: State, u: Setup, fate: Fate)
    ensures SameSignals(s, Undisturbed(s, u, fate))
    decreases Left(s.pc)
  {
    hide Step, LuckAt;
    if !s.pc.Done? {
      StepSignals(s, u, LuckAt(s.pc, fate));
      CommandAdvances(s, u, LuckAt(s.pc, fate));
      UndisturbedSignals(Step(s, u, LuckAt(s.pc, fate)), u, fate);
    }
  }

  /** The commands before the old process is to be stopped. */
  predicate StillHarmless(pc: Pc) {
    pc.Preparing? && (pc.p.Staging? || pc.p.Recording? || pc.p.Capturing? || pc.p.MarkStopping?)
  }

  /**
   One signal, anywhere in any installation so far: if the old process was not to be stopped yet,
   nothing is touched; after that the old release comes back, unless it does not become ready, or
   the rollback under way has already ended. The exit status is the signal's, unless the rollback
   under way is an earlier signal's.
   */
  lemma SignalEnds(s: State, u: Setup, fate: Fate, sig: Sig)
    requires Inv(s, u) && Possible(s, Signal(sig))
    ensures var t := Undisturbed(Next(s, u, Signal(sig)), u, fate);
            && t.pc.Done? && !t.v.ready
            && ExitStatus(t) == Code(if s.trapped.Some? && Defers(s.v) then s.trapped.value else sig)
            && VerdictOf(t.v) ==
               (if StillHarmless(s.pc) then Untouched
                else if s.v.rolling then Ends(s, u, fate) else Comeback(fate))
  {
    hide Undisturbed, Inv, Code;
    SignalKeeps(s, u, sig);
    UndisturbedSignals(Interrupt(s, sig), u, fate);
    EndsAsTold(Interrupt(s, sig), u, fate);
    SignalTurns(s, u, fate, sig);
  }

  lemma SignalTurns(s: State, u: Setup, fate: Fate, sig: Sig)
    requires Inv(s, u) && Possible(s, Signal(sig))
    ensures Ends(Interrupt(s, sig), u, fate) ==
            (if StillHarmless(s.pc) then Untouched
             else if s.v.rolling then Ends(s, u, fate) else Comeback(fate))
    ensures Ends(Interrupt(s, sig), u, fate) != Committed
  {
    match s.pc
    case Preparing(_) => case Trying(_) => case GoingBack(_) => case Handling(_) => case Restarting(_, _) =>
  }

  function Noted(s: State, sig: Sig): State {
    s.(signals := s.signals + {sig}, v := s.v.(pending := Some(sig)))
  }

  lemma NotedGoingBack(s: State, u: Setup, sig: Sig)
    requires s.pc.GoingBack?
    ensures GoBack(Noted(s, sig), u) == Noted(GoBack(s, u), sig)
  {
    match s.pc.b
    case KillNew => assert GoBack(Noted(s, sig), u) == Noted(GoBack(s, u), sig);
    case DisownNew => assert GoBack(Noted(s, sig), u) == Noted(GoBack(s, u), sig);
    case BackCurrent => assert GoBack(Noted(s, sig), u) == Noted(GoBack(s, u), sig);
    case BackPrevious => assert GoBack(Noted(s, sig), u) == Noted(GoBack(s, u), sig);
    case RemoveNew => assert GoBack(Noted(s, sig), u) == Noted(GoBack(s, u), sig);
    case EndRollback => assert GoBack(Noted(s, sig), u) == Noted(GoBack(s, u), sig);
  }

  lemma NotedHandling(s: State, u: Setup, sig: Sig)
    requires s.pc.Handling?
    ensures Handle(Noted(s, sig), u) == Noted(Handle(s, u), sig)
  {
    match s.pc.h
    case Interrupted => assert Handle(Noted(s, sig), u) == Noted(Handle(s, u), sig);
    case StopNew => assert Handle(Noted(s, sig), u) == Noted(Handle(s, u), sig);
    case ClearNew => assert Handle(Noted(s, sig), u) == Noted(Handle(s, u), sig);
    case ForgetNew => assert Handle(Noted(s, sig), u) == Noted(Handle(s, u), sig);
    case RestoreCurrent => assert Handle(Noted(s, sig), u) == Noted(Handle(s, u), sig);
    case RestorePrevious => assert Handle(Noted(s, sig), u) == Noted(Handle(s, u), sig);
    case FinalCleanup => assert Handle(Noted(s, sig), u) == Noted(Handle(s, u), sig);
  }

  lemma NotedRestarting(s: State, luck: bool, sig: Sig)
    requires s.pc.Restarting?
    ensures Restart(Noted(s, sig), luck) == Noted(Restart(s, luck), sig)
  {
    match s.pc.r
    case SpawnAgain => assert Restart(Noted(s, sig), luck) == Noted(Restart(s, luck), sig);
    case OwnAgain => assert Restart(Noted(s, sig), luck) == Noted(Restart(s, luck), sig);
    case RecordAgain => assert Restart(Noted(s, sig), luck) == Noted(Restart(s, luck), sig);
    case AwaitAgain => assert Restart(Noted(s, sig), luck) == Noted(Restart(s, luck), sig);
    case AcceptAgain => assert Restart(Noted(s, sig), luck) == Noted(Restart(s, luck), sig);
    case KillAgain => assert Restart(Noted(s, sig), luck) == Noted(Restart(s, luck), sig);
    case ClearAgain => assert Restart(Noted(s, sig), luck) == Noted(Restart(s, luck), sig);
    case GiveUp => assert Restart(Noted(s, sig), luck) == Noted(Restart(s, luck), sig);
  }

  lemma RollingMeans(s: State, u: Setup)
    requires Inv(s, u) && s.v.rolling
    ensures !s.pc.Preparing? && !s.pc.Trying?
  {
  }

  /** While a rollback is under way a signal is only noted: it commutes with every command. */
  lemma RollbackIsAtomic(s: State, u: Setup, luck: bool, sig: Sig)
    requires Inv(s, u) && s.v.rolling && !s.pc.Exiting? && !s.pc.Done?
    ensures Interrupt(s, sig) == Noted(s, sig)
    ensures Step(Interrupt(s, sig), u, luck) == Noted(Step(s, u, luck), sig)
  {
    hide Inv, GoBack, Handle, Restart;
    RollingMeans(s, u);
    match s.pc
    case GoingBack(_) => NotedGoingBack(s, u, sig);
    case Handling(_) => NotedHandling(s, u, sig);
    case Restarting(_, _) => NotedRestarting(s, luck, sig);
  }
}
