/** The supervision loop of a stream process, its control thread and the clock, as one step system. */
module Supervisor {
  import opened Wrappers

  const RESTART_AFTER_FROZEN_SEC: nat := 60
  const INVALID_CHUNK_INDEX: nat := 0xffff_ffff_ffff_ffff

  /** What the configuration fixes: VOD or timeshift player type, chunk duration in seconds, restart attempts. */
  datatype Config = Config(vod: bool, player: bool, chunkDuration: nat, maxAttempts: nat) {
    predicate Valid() {
      maxAttempts >= 1 && !(vod && player)
    }
  }

  datatype ExitStatus = EXIT_SELF | EXIT_INNER

  datatype StreamStatus = NEW | INIT | STARTED | READY | PLAYING | FROZEN | WAITING

  /** Where the supervising thread is; waiting threads have released the mutex. */
  datatype Phase =
    | LoopHead
    | Searching
    | NoChunk
    | ChunkWaiting(since: nat, notified: bool)
    | Creating(start: nat)
    | Starting(start: nat)
    | Looping(start: nat, quit: Option<ExitStatus>)
    | BackoffReady(wait: nat)
    | BackoffWaiting(wait: nat, since: nat, notified: bool)
    | Returned

  /** What an observer notes down. */
  datatype Entry =
    | RunEnded(failed: bool, ms: nat, piped: bool)
    | Froze
    | BackoffEnded(wait: nat, interrupted: bool)
    | ChunkWaitEnded(interrupted: bool)

  datatype State = State(now: nat, phase: Phase, stop: bool, quitPending: bool, attempts: nat,
                         idle: nat, restarts: nat, status: StreamStatus, log: seq<Entry>)

  function Initial(now: nat): State {
    State(now, LoopHead, false, false, 0, 0, 0, NEW, [])
  }

  /** The atomic steps of the three parties; outcomes of calls into other code are part of the event. */
  datatype Event =
    // the supervising thread
    | TestStop
    | Search(found: Option<nat>)
    | EnterChunkWait
    | LeaveChunkWait(timedOut: bool)
    | Create(ok: bool)
    | StartPipeline(ok: bool)
    | LeaveLoop
    | EnterBackoffWait
    | LeaveBackoffWait(timedOut: bool)
    // messages inside the running stream
    | StateChanged(status: StreamStatus)
    | PostQuit(exit: ExitStatus)
    | PipelineEos
    // the control thread
    | StopFlag
    | RestartNotify
    | QuitStream
    // the clock
    | Advance(ms: nat)

  /** A step of the supervising thread itself. */
  predicate SupervisorStep(e: Event) {
    e.TestStop? || e.Search? || e.EnterChunkWait? || e.LeaveChunkWait? || e.Create? || e.StartPipeline? || e.LeaveLoop?
    || e.EnterBackoffWait? || e.LeaveBackoffWait?
  }

  /** restart_attempts_ * (60 / max), or a minute when frozen. */
  function WaitTime(max: nat, attempt: nat): nat
    requires max >= 1
  {
    if attempt == max then RESTART_AFTER_FROZEN_SEC else attempt * (RESTART_AFTER_FROZEN_SEC / max)
  }

  /** A failed run without measured working time: freeze after the last attempt, else back off. */
  function CountFailure(cfg: Config, s: State): State
    requires cfg.Valid()
  {
    if s.attempts + 1 == cfg.maxAttempts then
      s.(attempts := 0, status := FROZEN, phase := BackoffReady(RESTART_AFTER_FROZEN_SEC), log := s.log + [Froze])
    else
      s.(attempts := s.attempts + 1, phase := BackoffReady(WaitTime(cfg.maxAttempts, s.attempts + 1)))
  }

  /** What Exec does when a stream's own Exec has returned. */
  function FinishRun(cfg: Config, s: State, start: nat, exit: ExitStatus, piped: bool): State
    requires cfg.Valid()
  {
    var diff := if s.now >= start then s.now - start else 0;
    var failed := exit == EXIT_INNER;
    var s := s.(status := NEW, restarts := s.restarts + (if piped then 1 else 0), log := s.log + [RunEnded(failed, diff, piped)]);
    if cfg.vod then s.(phase := Returned)
    else
      var longer := diff > RESTART_AFTER_FROZEN_SEC * 10 * 1000;
      var s := s.(idle := s.idle + if failed && !longer then diff else 0);
      if !failed || diff != 0 then s.(attempts := 0, phase := LoopHead)
      else CountFailure(cfg, s)
  }

  lemma FinishPlace(cfg: Config, m: State, start: nat, exit: ExitStatus, piped: bool)
    requires cfg.Valid()
    ensures var r := FinishRun(cfg, m, start, exit, piped);
            && r.stop == m.stop && (r.phase.Returned? || r.phase.LoopHead? || r.phase.BackoffReady?)
            && (r.phase.Returned? <==> cfg.vod)
  {
  }

  function Notify(p: Phase): Phase {
    match p
    case ChunkWaiting(since, _) => ChunkWaiting(since, true)
    case BackoffWaiting(wait, since, _) => BackoffWaiting(wait, since, true)
    case _ => p
  }

  /** A quit message stops a running loop once; before the loop runs, and after, it is lost. */
  function Post(p: Phase, exit: ExitStatus): Phase {
    match p
    case Looping(start, None) => Looping(start, Some(exit))
    case _ => p
  }

  function Step(cfg: Config, s: State, e: Event): Option<State>
    requires cfg.Valid()
  {
    match (s.phase, e)
    case (LoopHead, TestStop) =>
      Some(s.(phase := if s.stop then Returned else if cfg.player then Searching else Creating(s.now)))
    case (Searching, Search(None)) => Some(s.(status := WAITING, phase := NoChunk))
    case (Searching, Search(Some(i))) =>
      Some(s.(phase := if i == INVALID_CHUNK_INDEX then LoopHead else Creating(s.now)))
    case (NoChunk, EnterChunkWait) => Some(s.(phase := ChunkWaiting(s.now, false)))
    case (ChunkWaiting(since, _), LeaveChunkWait(timedOut)) =>
      if !timedOut then
        Some(s.(restarts := s.restarts + 1, phase := LoopHead, log := s.log + [ChunkWaitEnded(true)]))
      else if s.now >= since + cfg.chunkDuration * 1000 then
        Some(s.(phase := Searching, log := s.log + [ChunkWaitEnded(false)]))
      else None
    case (Creating(start), Create(ok)) => 
      Some(if ok then s.(phase := Starting(start), status := NEW) else s.(phase := Returned))
    case (Starting(start), StartPipeline(ok)) =>
      if ok then Some(s.(phase := Looping(start, None), status := INIT))
      else Some(FinishRun(cfg, s, start, EXIT_INNER, false))
    case (Looping(start, Some(exit)), LeaveLoop) =>
      Some(FinishRun(cfg, s, start, exit, true))
    case (BackoffReady(wait), EnterBackoffWait) => Some(s.(phase := BackoffWaiting(wait, s.now, false)))
    case (BackoffWaiting(wait, since, _), LeaveBackoffWait(timedOut)) =>
      if !timedOut then
        Some(s.(attempts := 0, phase := LoopHead, log := s.log + [BackoffEnded(wait, true)]))
      else if s.now >= since + wait * 1000 then
        Some(s.(idle := s.idle + wait * 1000, phase := LoopHead, log := s.log + [BackoffEnded(wait, false)]))
      else None
    case (Looping(_, _), StateChanged(status)) =>
      if status.INIT? || status.READY? || status.PLAYING? then Some(s.(status := status)) else None
    case (_, PostQuit(exit)) => Some(s.(phase := Post(s.phase, exit)))
    case (_, PipelineEos) => Some(s.(phase := Post(s.phase, if cfg.vod then EXIT_SELF else EXIT_INNER)))
    case (_, StopFlag) =>
      if s.quitPending then None else Some(s.(stop := true, quitPending := true, phase := Notify(s.phase)))
    case (_, RestartNotify) =>
      if s.quitPending then None else Some(s.(quitPending := true, phase := Notify(s.phase)))
    case (_, QuitStream) =>
      if s.quitPending then Some(s.(quitPending := false, phase := Post(s.phase, EXIT_SELF))) else None
    case (_, Advance(ms)) => Some(s.(now := s.now + ms))
    case _ => None
  }

  /** The same for the steps that end a run. */
  lemma EndPlace(cfg: Config, s: State, e: Event, s': State)
    requires cfg.Valid() && Step(cfg, s, e) == Some(s') && (e.LeaveLoop? || e == StartPipeline(false))
    ensures s'.stop == s.stop && (s'.phase.Returned? || s'.phase.LoopHead? || s'.phase.BackoffReady?)
    ensures s'.phase.Returned? <==> cfg.vod
    ensures if e.LeaveLoop? then s.phase.Looping? else s.phase.Starting?
  {
    hide FinishRun;
    if e.LeaveLoop? {
      FinishPlace(cfg, s, s.phase.start, s.phase.quit.value, true);
    } else {
      FinishPlace(cfg, s, s.phase.start, EXIT_INNER, false);
    }
  }

  function Run(cfg: Config, s: State, evs: seq<Event>): Option<State>
    requires cfg.Valid()
    decreases evs
  {
    if evs == [] then Some(s) else
      match Step(cfg, s, evs[0])
      case None => None
      case Some(s') => Run(cfg, s', evs[1..])
  }

  ghost predicate Reaches(cfg: Config, s: State, evs: seq<Event>, r: State) {
    cfg.Valid() && Run(cfg, s, evs) == Some(r)
  }

  lemma RunCons(cfg: Config, s: State, e: Event, s': State, evs: seq<Event>, r: State)
    requires cfg.Valid() && Step(cfg, s, e) == Some(s') && Reaches(cfg, s', evs, r)
    ensures Reaches(cfg, s, [e] + evs, r)
  {
    hide Step;
    assert ([e] + evs)[1..] == evs;
  }

  lemma {:induction false} RunConcat(cfg: Config, s: State, a: seq<Event>, m: State, b: seq<Event>, r: State)
    requires Reaches(cfg, s, a, m) && Reaches(cfg, m, b, r)
    ensures Reaches(cfg, s, a + b, r)
    decreases a
  {
    hide Step;
    if a == [] {
      assert a + b == b;
    } else {
      var s' := Step(cfg, s, a[0]).value;
      RunConcat(cfg, s', a[1..], m, b, r);
      RunCons(cfg, s, a[0], s', a[1..] + b, r);
      assert a + b == [a[0]] + (a[1..] + b);
    }
  }
}
