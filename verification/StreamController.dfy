/** The controller object: each method is the stretch of code one thread runs between two points where the other thread,
    the stream or the clock can act. */
module StreamControllers {
  import opened Wrappers
  import opened Supervisor
  import opened SupervisorSafety

  class StreamController {
    const cfg: Config
    var restartAttempts: nat
    var stop: bool
    // mem_
    var idleTime: nat
    var restarts: nat
    var status: StreamStatus
    // where the threads are, the virtual clock, and the observer's notes
    var phase: Phase
    var quitPending: bool
    var now: nat
    ghost var log: seq<Entry>

    ghost function Abs(): State
      reads this
    {
      State(now, phase, stop, quitPending, restartAttempts, idleTime, restarts, status, log)
    }

    ghost predicate Took(before: State, e: Event)
      reads this
    {
      cfg.Valid() && Step(cfg, before, e) == Some(Abs())
    }

    constructor (cfg: Config, now: nat)
      requires cfg.Valid()
      ensures this.cfg == cfg && Abs() == Initial(now)
    {
      this.cfg := cfg;
      restartAttempts, stop, idleTime, restarts, status := 0, false, 0, 0, NEW;
      phase, quitPending, this.now, log := LoopHead, false, now, [];
    }

    method TestStop()
      requires cfg.Valid() && phase == LoopHead
      modifies this
      ensures Took(old(Abs()), Event.TestStop)
      ensures phase.Returned? || phase.Searching? || phase.Creating?
    {
      if stop {
        phase := Returned;
      } else if cfg.player {
        phase := Searching;
      } else {
        phase := Creating(now);
      }
    }

    /** found is the answer of FindChunkToPlay. */
    method SearchChunk(found: Option<nat>)
      requires cfg.Valid() && phase == Searching
      modifies this
      ensures Took(old(Abs()), Search(found))
      ensures if found == None then phase.NoChunk? else phase.LoopHead? || phase.Creating?
    {
      if found == None {
        status := WAITING;
        phase := NoChunk;
        return;
      }
      if found.value == INVALID_CHUNK_INDEX {
        phase := LoopHead;
        return;
      }
      phase := Creating(now);
    }

    method EnterChunkWait()
      requires cfg.Valid() && phase == NoChunk
      modifies this
      ensures Took(old(Abs()), Event.EnterChunkWait) && phase.ChunkWaiting?
    {
      phase := ChunkWaiting(now, false);
    }

    /** wait_for came back; a time-out takes the whole chunk duration. */
    method LeaveChunkWait(timedOut: bool)
      requires cfg.Valid() && phase.ChunkWaiting?
      requires timedOut ==> now >= phase.since + cfg.chunkDuration * 1000
      modifies this
      ensures Took(old(Abs()), Event.LeaveChunkWait(timedOut))
      ensures if timedOut then phase.Searching? else phase.LoopHead?
    {
      log := log + [ChunkWaitEnded(!timedOut)];
      if !timedOut {
        restarts := restarts + 1;
        phase := LoopHead;
        return;
      }
      phase := Searching;
    }

    method CreateStream(ok: bool)
      requires cfg.Valid() && phase.Creating?
      modifies this
      ensures Took(old(Abs()), Create(ok)) && if ok then phase.Starting? else phase.Returned?
    {
      if !ok {
        phase := Returned;
        return;
      }
      status := NEW;
      phase := Starting(phase.start);
    }

    method StartPipeline(ok: bool)
      requires cfg.Valid() && phase.Starting?
      modifies this
      ensures Took(old(Abs()), Event.StartPipeline(ok))
      ensures if ok then phase.Looping? else RunIsOver(phase)
    {
      if !ok {
        AfterRun(phase.start, EXIT_INNER, false);
        return;
      }
      status := INIT;
      phase := Looping(phase.start, None);
    }

    method LeaveLoop()
      requires cfg.Valid() && phase.Looping? && phase.quit.Some?
      modifies this
      ensures Took(old(Abs()), Event.LeaveLoop) && RunIsOver(phase)
    {
      AfterRun(phase.start, phase.quit.value, true);
    }

    /** From the end of the stream's own Exec to the next place the supervisor can block. */
    method AfterRun(start: nat, exit: ExitStatus, piped: bool)
      requires cfg.Valid()
      modifies this
      ensures Abs() == FinishRun(cfg, old(Abs()), start, exit, piped) && RunIsOver(phase)
    {
      hide Supervisor.CountFailure, Config.Valid;
      if piped {
        restarts := restarts + 1;
      }
      status := NEW;
      var failed := exit == EXIT_INNER;
      var diff := if now >= start then now - start else 0;
      log := log + [RunEnded(failed, diff, piped)];
      if cfg.vod {
        phase := Returned;
        return;
      }
      var isLongerWork := diff > RESTART_AFTER_FROZEN_SEC * 10 * 1000;
      if failed && !isLongerWork {
        idleTime := idleTime + diff;
      }
      if !failed {
        restartAttempts := 0;
        phase := LoopHead;
        return;
      }
      if diff != 0 {
        restartAttempts := 0;
        phase := LoopHead;
        return;
      }
      CountFailure();
    }

    method CountFailure()
      requires cfg.Valid()
      modifies this
      ensures Abs() == Supervisor.CountFailure(cfg, old(Abs())) && phase.BackoffReady?
    {
      restartAttempts := restartAttempts + 1;
      var waitTime: nat;
      if restartAttempts == cfg.maxAttempts {
        restartAttempts := 0;
        status := FROZEN;
        log := log + [Froze];
        waitTime := RESTART_AFTER_FROZEN_SEC;
      } else {
        waitTime := restartAttempts * (RESTART_AFTER_FROZEN_SEC / cfg.maxAttempts);
      }
      phase := BackoffReady(waitTime);
    }

    method EnterBackoffWait()
      requires cfg.Valid() && phase.BackoffReady?
      modifies this
      ensures Took(old(Abs()), Event.EnterBackoffWait) && phase.BackoffWaiting?
    {
      phase := BackoffWaiting(phase.wait, now, false);
    }

    method LeaveBackoffWait(timedOut: bool)
      requires cfg.Valid() && phase.BackoffWaiting?
      requires timedOut ==> now >= phase.since + phase.wait * 1000
      modifies this
      ensures Took(old(Abs()), Event.LeaveBackoffWait(timedOut)) && phase == LoopHead
    {
      log := log + [BackoffEnded(phase.wait, !timedOut)];
      if !timedOut {
        restartAttempts := 0;
      } else {
        idleTime := idleTime + phase.wait * 1000;
      }
      phase := LoopHead;
    }

    /** The sync bus handler of the running stream. */
    method PostQuit(exit: ExitStatus)
      requires cfg.Valid()
      modifies this
      ensures Took(old(Abs()), Event.PostQuit(exit))
    {
      if phase.Looping? && phase.quit == None {
        phase := Looping(phase.start, Some(exit));
      }
    }

    method OnPipelineEos()
      requires cfg.Valid()
      modifies this
      ensures Took(old(Abs()), PipelineEos)
    {
      if cfg.vod {
        PostQuit(EXIT_SELF);
      } else {
        PostQuit(EXIT_INNER);
      }
    }

    /** Stop, under the mutex. */
    method StopFlag()
      requires cfg.Valid() && !quitPending
      modifies this
      ensures Took(old(Abs()), Event.StopFlag)
    {
      stop := true;
      NotifyAll();
      quitPending := true;
    }

    /** Restart, under the mutex. */
    method RestartNotify()
      requires cfg.Valid() && !quitPending
      modifies this
      ensures Took(old(Abs()), Event.RestartNotify)
    {
      NotifyAll();
      quitPending := true;
    }

    /** notify_all reaches a thread only while it waits. */
    method NotifyAll()
      modifies this`phase
      ensures phase == Notify(old(phase))
    {
      if phase.ChunkWaiting? {
        phase := ChunkWaiting(phase.since, true);
      } else if phase.BackoffWaiting? {
        phase := BackoffWaiting(phase.wait, phase.since, true);
      }
    }

    /** StopStream, after the mutex was given up: quits the stream there is, if any. */
    method StopStream()
      requires cfg.Valid() && quitPending
      modifies this
      ensures Took(old(Abs()), QuitStream)
    {
      PostQuit(EXIT_SELF);
      quitPending := false;
    }

    method StateChanged(status: StreamStatus)
      requires cfg.Valid() && phase.Looping? && (status.INIT? || status.READY? || status.PLAYING?)
      modifies this
      ensures Took(old(Abs()), Event.StateChanged(status)) && phase == old(phase)
    {
      this.status := status;
    }

    method PassTime(ms: nat)
      requires cfg.Valid()
      modifies this
      ensures Took(old(Abs()), Advance(ms)) && phase == old(phase)
    {
      now := now + ms;
    }

    /** One action of the stream, the control thread or the clock; nothing when it is none that can come now. */
    method Intervene(e: Event) returns (done: bool)
      requires cfg.Valid()
      modifies this
      ensures done == (!SupervisorStep(e) && Step(cfg, old(Abs()), e).Some?)
      ensures if done then Took(old(Abs()), e) && SamePlace(old(phase), phase) else Abs() == old(Abs())
    {
      OthersKeepPlace(cfg, Abs(), e);
      match e
      case StateChanged(status) =>
        done := phase.Looping? && (status.INIT? || status.READY? || status.PLAYING?);
        if done { StateChanged(status); }
      case PostQuit(exit) =>
        done := true;
        PostQuit(exit);
      case PipelineEos =>
        done := true;
        OnPipelineEos();
      case StopFlag =>
        done := !quitPending;
        if done { StopFlag(); }
      case RestartNotify =>
        done := !quitPending;
        if done { RestartNotify(); }
      case QuitStream =>
        done := quitPending;
        if done { StopStream(); }
      case Advance(ms) =>
        done := true;
        PassTime(ms);
      case _ => done := false;
    }

    /** Before the supervisor's next step the others act, as far as the script says; then its event, if it is one the
        supervisor can take. */
    method Due(script: seq<Event>, i: nat, ghost start: State) returns (j: nat, e: Option<Event>)
      requires cfg.Valid() && Follows(cfg, start, script, i, Abs())
      modifies this
      ensures i <= j && Follows(cfg, start, script, j, Abs()) && SamePlace(old(phase), phase)
      ensures e.Some? ==> j < |script| && e.value == script[j] && CanTake(cfg, phase, now, e.value)
      ensures e == None ==> (Run(cfg, start, script).Some? ==> j == |script|)
    {
      hide Step, CanTake;
      j := i;
      while j < |script|
        invariant i <= j && Follows(cfg, start, script, j, Abs()) && SamePlace(old(phase), phase)
      {
        if CanTake(cfg, phase, now, script[j]) {
          return j, Some(script[j]);
        }
        ghost var before := Abs();
        var done := Intervene(script[j]);
        if !done {
          OnlyTakes(cfg, Abs(), script[j]);
          Stuck(cfg, start, script, j, Abs());
          return j, None;
        }
        FollowsOn(cfg, start, script, j, before, Abs());
        j := j + 1;
      }
      e := None;
    }

    /** The loop that looks for a chunk to play; left for the next test of the flag, or to create a stream. */
    method SearchLoop(script: seq<Event>, i: nat, ghost start: State) returns (j: nat, e: Option<Event>)
      requires cfg.Valid() && phase.Searching? && Follows(cfg, start, script, i, Abs())
      modifies this
      ensures i <= j && Follows(cfg, start, script, j, Abs())
      ensures e.Some? ==> i < j && (phase.Creating? || phase.LoopHead?)
      ensures e == None ==> (Run(cfg, start, script).Some? ==> j == |script|)
    {
      hide Step, Follows, Run;
      ghost var s := Abs();
      j, e := i, Some(Event.TestStop);
      while phase.Searching?
        invariant i <= j && Follows(cfg, start, script, j, Abs()) && e.Some?
        invariant phase.Searching? || (i < j && (phase.Creating? || phase.LoopHead?))
        decreases |script| - j
      {
        j, e := Due(script, j, start);
        if e == None { return; }
        s := Abs();
        SearchChunk(e.value.found);
        FollowsOn(cfg, start, script, j, s, Abs());
        j := j + 1;
        if phase.NoChunk? {
          j, e := Due(script, j, start);
          if e == None { return; }
          s := Abs();
          EnterChunkWait();
          FollowsOn(cfg, start, script, j, s, Abs());
          j, e := Due(script, j + 1, start);
          if e == None { return; }
          s := Abs();
          LeaveChunkWait(e.value.timedOut);
          FollowsOn(cfg, start, script, j, s, Abs());
          j := j + 1;
        }
      }
    }

    /** From creating a stream to the end of its run. */
    method RunStream(script: seq<Event>, i: nat, ghost start: State) returns (j: nat, e: Option<Event>)
      requires cfg.Valid() && phase.Creating? && Follows(cfg, start, script, i, Abs())
      modifies this
      ensures i <= j && Follows(cfg, start, script, j, Abs())
      ensures e.Some? ==> i < j && RunIsOver(phase)
      ensures e == None ==> (Run(cfg, start, script).Some? ==> j == |script|)
    {
      hide Step, Follows, Run;
      ghost var s := Abs();
      j, e := Due(script, i, start);
      if e == None { return; }
      s := Abs();
      CreateStream(e.value.ok);
      FollowsOn(cfg, start, script, j, s, Abs());
      j := j + 1;
      if phase.Returned? { return; }
      j, e := Due(script, j, start);
      if e == None { return; }
      s := Abs();
      StartPipeline(e.value.ok);
      FollowsOn(cfg, start, script, j, s, Abs());
      j := j + 1;
      if phase.Looping? {
        j, e := Due(script, j, start);
        if e == None { return; }
        s := Abs();
        LeaveLoop();
        FollowsOn(cfg, start, script, j, s, Abs());
        j := j + 1;
      }
    }

    /** The wait before the next try. */
    method BackOff(script: seq<Event>, i: nat, ghost start: State) returns (j: nat, e: Option<Event>)
      requires cfg.Valid() && phase.BackoffReady? && Follows(cfg, start, script, i, Abs())
      modifies this
      ensures i <= j && Follows(cfg, start, script, j, Abs())
      ensures e.Some? ==> i < j && phase == LoopHead
      ensures e == None ==> (Run(cfg, start, script).Some? ==> j == |script|)
    {
      hide Step, Follows, Run;
      j, e := Due(script, i, start);
      if e == None { return; }
      ghost var s := Abs();
      EnterBackoffWait();
      FollowsOn(cfg, start, script, j, s, Abs());
      j, e := Due(script, j + 1, start);
      if e == None { return; }
      s := Abs();
      LeaveBackoffWait(e.value.timedOut);
      FollowsOn(cfg, start, script, j, s, Abs());
      j := j + 1;
    }

    /** Exec with its loops. The script says what the calls into other code come back with, how the waits end, and what
        the others do meanwhile; Exec follows it to its end, or to the first event that cannot happen. */
    method Exec(script: seq<Event>) returns (i: nat)
      requires cfg.Valid() && phase == LoopHead
      modifies this
      ensures i <= |script| && Reaches(cfg, old(Abs()), script[..i], Abs())
      ensures Run(cfg, old(Abs()), script).Some? ==> i == |script|
    {
      hide Step, Follows, Reaches, Run;
      ghost var start, s := Abs(), Abs();
      FollowsNothing(cfg, start, script);
      i := 0;
      var e := Some(Event.TestStop);
      while e.Some?
        invariant cfg.Valid() && Follows(cfg, start, script, i, Abs()) && (e.Some? ==> phase == LoopHead)
        invariant e == None ==> (Run(cfg, start, script).Some? ==> i == |script|)
        decreases e.Some?, |script| - i
      {
        i, e := Due(script, i, start);
        if e == None { break; }
        s := Abs();
        TestStop();
        FollowsOn(cfg, start, script, i, s, Abs());
        i := i + 1;
        if phase.Searching? {
          i, e := SearchLoop(script, i, start);
          if e == None { break; }
          if phase == LoopHead { continue; }
        }
        if phase.Creating? {
          i, e := RunStream(script, i, start);
          if e == None { break; }
          if phase == LoopHead { continue; }
        }
        if phase.Returned? {
          // nothing is left for the supervisor to do
          i, e := Due(script, i, start);
          NothingToTake(cfg, phase, now, e);
          break;
        }
        i, e := BackOff(script, i, start);
      }
      FollowsReaches(cfg, start, script, i, Abs());
    }
  }

  // Where the supervisor is, and what it can do there

  /** After a run the supervision ends, starts over or backs off. */
  predicate RunIsOver(p: Phase) {
    p.Returned? || p.LoopHead? || p.BackoffReady?
  }

  predicate SamePlace(p: Phase, q: Phase) {
    match p
    case LoopHead => q.LoopHead?
    case Searching => q.Searching?
    case NoChunk => q.NoChunk?
    case ChunkWaiting(since, _) => q.ChunkWaiting? && q.since == since
    case Creating(_) => q == p
    case Starting(_) => q == p
    case Looping(start, _) => q.Looping? && q.start == start
    case BackoffReady(_) => q == p
    case BackoffWaiting(wait, since, _) => q.BackoffWaiting? && q.wait == wait && q.since == since
    case Returned => q.Returned?
  }

  /** The supervisor's own steps from a place: one kind each, a wait that ran out only when its time has come. */
  predicate CanTake(cfg: Config, p: Phase, now: nat, e: Event) {
    match (p, e)
    case (LoopHead, TestStop) => true
    case (Searching, Search(_)) => true
    case (NoChunk, EnterChunkWait) => true
    case (ChunkWaiting(since, _), LeaveChunkWait(timedOut)) => timedOut ==> now >= since + cfg.chunkDuration * 1000
    case (Creating(_), Create(_)) => true
    case (Starting(_), StartPipeline(_)) => true
    case (Looping(_, Some(_)), LeaveLoop) => true
    case (BackoffReady(_), EnterBackoffWait) => true
    case (BackoffWaiting(wait, since, _), LeaveBackoffWait(timedOut)) => timedOut ==> now >= since + wait * 1000
    case _ => false
  }

  lemma OnlyTakes(cfg: Config, s: State, e: Event)
    requires cfg.Valid()
    ensures SupervisorStep(e) ==> (CanTake(cfg, s.phase, s.now, e) <==> Step(cfg, s, e).Some?)
  {
  }

  lemma NothingToTake(cfg: Config, p: Phase, now: nat, e: Option<Event>)
    requires p.Returned?
    ensures e.Some? ==> !CanTake(cfg, p, now, e.value)
  {
  }

  lemma OthersKeepPlace(cfg: Config, s: State, e: Event)
    requires cfg.Valid()
    ensures !SupervisorStep(e) && Step(cfg, s, e).Some? ==> SamePlace(s.phase, Step(cfg, s, e).value.phase)
  {
  }

  /** The first i events of the script lead from start to s. */
  ghost predicate Follows(cfg: Config, start: State, script: seq<Event>, i: nat, s: State) {
    i <= |script| && Reaches(cfg, start, script[..i], s)
  }

  lemma FollowsNothing(cfg: Config, start: State, script: seq<Event>)
    requires cfg.Valid()
    ensures Follows(cfg, start, script, 0, start)
  {
  }

  lemma FollowsReaches(cfg: Config, start: State, script: seq<Event>, i: nat, s: State)
    requires Follows(cfg, start, script, i, s)
    ensures i <= |script| && Reaches(cfg, start, script[..i], s)
  {
  }

  lemma FollowsOn(cfg: Config, start: State, script: seq<Event>, i: nat, s: State, t: State)
    requires cfg.Valid() && Follows(cfg, start, script, i, s) && i < |script| && Step(cfg, s, script[i]) == Some(t)
    ensures Follows(cfg, start, script, i + 1, t)
  {
    hide Step;
    assert Reaches(cfg, t, [], t);
    RunCons(cfg, s, script[i], t, [], t);
    RunConcat(cfg, start, script[..i], s, [script[i]] + [], t);
    assert script[..i] + ([script[i]] + []) == script[..i + 1];
  }

  /** An event that cannot happen ends every run of the script. */
  lemma Stuck(cfg: Config, start: State, script: seq<Event>, i: nat, s: State)
    requires cfg.Valid() && Follows(cfg, start, script, i, s) && i < |script| && Step(cfg, s, script[i]) == None
    ensures Run(cfg, start, script) == None
  {
    hide Step;
    assert script[i..][0] == script[i] && Run(cfg, s, script[i..]) == None;
    if Run(cfg, start, script).Some? {
      RunSplits(cfg, start, script[..i], s, script[i..]);
      assert script[..i] + script[i..] == script;
    }
  }

  lemma {:induction false} RunSplits(cfg: Config, s: State, a: seq<Event>, m: State, b: seq<Event>)
    requires Reaches(cfg, s, a, m)
    ensures Run(cfg, s, a + b) == Run(cfg, m, b)
    decreases a
  {
    hide Step;
    if a == [] {
      assert a + b == b;
    } else {
      RunSplits(cfg, Step(cfg, s, a[0]).value, a[1..], m, b);
      assert (a + b)[1..] == a[1..] + b && (a + b)[0] == a[0];
    }
  }
}
