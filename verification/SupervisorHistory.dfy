/** What happened in a supervised life, read off its events alone, and what the supervisor has to make of it. */
module SupervisorHistory {
  import opened Wrappers
  import opened Sequences
  import opened Supervisor
  import opened SupervisorAccounting

  // Readings of the events

  function Clock(t0: nat, evs: seq<Event>): nat {
    if evs == [] then t0
    else Clock(t0, Front(evs)) + match Last(evs) case Advance(ms) => ms case _ => 0
  }

  /** When the run of a stream began: at the last test of the flag, or search, before it was created. */
  function BeganAt(t0: nat, evs: seq<Event>): nat {
    if evs == [] then t0
    else if Last(evs).TestStop? || Last(evs).Search? then Clock(t0, evs)
    else BeganAt(t0, Front(evs))
  }

  /** When the last wait began. */
  function WaitingSince(t0: nat, evs: seq<Event>): nat {
    if evs == [] then t0
    else if Last(evs).EnterChunkWait? || Last(evs).EnterBackoffWait? then Clock(t0, evs)
    else WaitingSince(t0, Front(evs))
  }

  /** The first message that quits a running pipeline decides whether it failed: an inner quit does, and so does the end
      of a stream that is no VOD; a stop or restart of the control thread does not. */
  function FirstQuitFails(vod: bool, evs: seq<Event>): Option<bool> {
    if evs == [] || Last(evs).StartPipeline? then None
    else
      var earlier := FirstQuitFails(vod, Front(evs));
      if earlier.Some? then earlier
      else
        match Last(evs)
        case PostQuit(exit) => Some(exit == EXIT_INNER)
        case PipelineEos => Some(!vod)
        case QuitStream => Some(false)
        case _ => None
  }

  /** The run that ends with the last event, if one does. */
  function EndedRun(vod: bool, t0: nat, evs: seq<Event>): Option<Entry> {
    if evs == [] then None
    else
      var ms := if Clock(t0, evs) >= BeganAt(t0, evs) then Clock(t0, evs) - BeganAt(t0, evs) else 0;
      match Last(evs)
      case StartPipeline(false) => Some(RunEnded(true, ms, false))
      case LeaveLoop => Some(RunEnded(FirstQuitFails(vod, Front(evs)) == Some(true), ms, true))
      case _ => None
  }

  /** Seconds to wait after n failed runs without working time in a row. */
  function WaitDue(max: nat, n: nat): nat
    requires max >= 1
  {
    if n == max then 60 else n * (60 / max)
  }

  function History(cfg: Config, t0: nat, evs: seq<Event>): seq<Entry>
    requires cfg.maxAttempts >= 1
  {
    if evs == [] then []
    else
      var log := History(cfg, t0, Front(evs));
      var run := EndedRun(cfg.vod, t0, evs);
      if run.Some? then
        log + [run.value] + if MustFreeze(cfg, log + [run.value]) then [Froze] else []
      else
        match Last(evs)
        case LeaveChunkWait(timedOut) => log + [ChunkWaitEnded(!timedOut)]
        case LeaveBackoffWait(timedOut) =>
          log + [BackoffEnded(WaitDue(cfg.maxAttempts, Position(cfg.maxAttempts, log)), !timedOut)]
        case _ => log
  }

  /** The status on show. */
  function Shown(cfg: Config, t0: nat, evs: seq<Event>): StreamStatus
    requires cfg.maxAttempts >= 1
  {
    if evs == [] then NEW
    else if EndedRun(cfg.vod, t0, evs).Some? then
      if MustFreeze(cfg, History(cfg, t0, Front(evs)) + [EndedRun(cfg.vod, t0, evs).value]) then FROZEN else NEW
    else
      match Last(evs)
      case Search(None) => WAITING
      case Create(true) => NEW
      case StartPipeline(_) => INIT
      case StateChanged(status) => status
      case _ => Shown(cfg, t0, Front(evs))
  }

  // The supervisor keeps to the readings

  lemma {:induction false} RunSnoc(cfg: Config, s: State, evs: seq<Event>, r: State) returns (m: State)
    requires Reaches(cfg, s, evs, r) && evs != []
    ensures Reaches(cfg, s, Front(evs), m) && Step(cfg, m, Last(evs)) == Some(r)
    decreases evs
  {
    hide Step;
    var s' := Step(cfg, s, evs[0]).value;
    if |evs| == 1 {
      m := s;
      assert evs[1..] == [] && Front(evs) == [];
      assert Run(cfg, s', evs[1..]) == Some(s');
    } else {
      m := RunSnoc(cfg, s', evs[1..], r);
      assert Front(evs[1..]) == Front(evs)[1..] && Front(evs)[0] == evs[0];
      assert Last(evs[1..]) == Last(evs);
    }
  }

  /** What the phase remembers. */
  predicate PhaseReads(cfg: Config, t0: nat, evs: seq<Event>, p: Phase)
  {
    match p
    case Creating(start) => start == BeganAt(t0, evs)
    case Starting(start) => start == BeganAt(t0, evs)
    case Looping(start, quit) =>
      && start == BeganAt(t0, evs)
      && FirstQuitFails(cfg.vod, evs) == (match quit case None => None case Some(exit) => Some(exit == EXIT_INNER))
    case BackoffWaiting(_, since, _) => since == WaitingSince(t0, evs)
    case ChunkWaiting(since, _) => since == WaitingSince(t0, evs)
    case _ => true
  }

  predicate Reads(cfg: Config, t0: nat, evs: seq<Event>, r: State)
    requires cfg.maxAttempts >= 1
  {
    && r.now == Clock(t0, evs) && r.log == History(cfg, t0, evs) && r.status == Shown(cfg, t0, evs)
    && PhaseReads(cfg, t0, evs, r.phase)
  }

  lemma EndOfRun(cfg: Config, t0: nat, m: State, run: Entry)
    requires cfg.Valid() && Inv(cfg, t0, m) && !Backing(m.phase) && run.RunEnded?
    ensures MustFreeze(cfg, m.log + [run])
            <==> !cfg.vod && run.failed && run.ms == 0 && m.attempts + 1 == cfg.maxAttempts
  {
    Appended(m.log, run);
    hide LogOk, Idle, Restarts, CycleOf, SumWaits, WaitTime;
  }

  /** Where the end of a run leads, with everything spelled out. */
  predicate LeadsOn(cfg: Config, m: State, run: Entry, r: State)
    requires cfg.maxAttempts >= 1 && run.RunEnded?
  {
    var zero := run.failed && run.ms == 0;
    var freezes := !cfg.vod && zero && m.attempts + 1 == cfg.maxAttempts;
    && r.log == m.log + [run] + (if freezes then [Froze] else [])
    && r.status == (if freezes then FROZEN else NEW) && r.now == m.now
    && (if cfg.vod then r.phase == Returned
        else if !zero then r.phase == LoopHead && r.attempts == 0
        else
          && r.phase == BackoffReady(WaitDue(cfg.maxAttempts, m.attempts + 1))
          && r.attempts == if freezes then 0 else m.attempts + 1)
  }

  lemma FinishLeadsOn(cfg: Config, m: State, start: nat, exit: ExitStatus, piped: bool)
    requires cfg.Valid()
    ensures LeadsOn(cfg, m, RunEnded(exit == EXIT_INNER, if m.now >= start then m.now - start else 0, piped),
                    FinishRun(cfg, m, start, exit, piped))
  {
  }

  lemma HistoryOfEnd(cfg: Config, t0: nat, evs: seq<Event>)
    requires cfg.maxAttempts >= 1 && evs != [] && EndedRun(cfg.vod, t0, evs).Some?
    ensures var log := History(cfg, t0, Front(evs)) + [EndedRun(cfg.vod, t0, evs).value];
            && History(cfg, t0, evs) == log + (if MustFreeze(cfg, log) then [Froze] else [])
            && Shown(cfg, t0, evs) == if MustFreeze(cfg, log) then FROZEN else NEW
  {
    hide MustFreeze, EndedRun;
  }

  lemma ReadEnd(cfg: Config, t0: nat, evs: seq<Event>, m: State, run: Entry, r: State)
    requires cfg.Valid() && Inv(cfg, t0, m) && !Backing(m.phase) && evs != [] && run.RunEnded?
    requires m.now == Clock(t0, evs) && m.log == History(cfg, t0, Front(evs))
    requires EndedRun(cfg.vod, t0, evs) == Some(run) && LeadsOn(cfg, m, run, r)
    ensures Reads(cfg, t0, evs, r)
  {
    EndOfRun(cfg, t0, m, run);
    HistoryOfEnd(cfg, t0, evs);
    hide Inv, MustFreeze, Clock, EndedRun, WaitDue, History, Shown;
  }

  lemma OwnQuiet(cfg: Config, t0: nat, evs: seq<Event>, m: State, r: State)
    requires cfg.Valid() && evs != [] && Step(cfg, m, Last(evs)) == Some(r) && !Notes(Last(evs)) && SupervisorStep(Last(evs))
    requires m.now == Clock(t0, Front(evs)) && m.log == History(cfg, t0, Front(evs))
    ensures r.now == Clock(t0, evs) && r.log == History(cfg, t0, evs)
  {
    hide MustFreeze, BeganAt, FirstQuitFails, Post, Notify, FinishRun;
  }

  lemma OthersQuiet(cfg: Config, t0: nat, evs: seq<Event>, m: State, r: State)
    requires cfg.Valid() && evs != [] && Step(cfg, m, Last(evs)) == Some(r) && !Notes(Last(evs)) && !SupervisorStep(Last(evs))
    requires m.now == Clock(t0, Front(evs)) && m.log == History(cfg, t0, Front(evs))
    ensures r.now == Clock(t0, evs) && r.log == History(cfg, t0, evs)
  {
    hide MustFreeze, BeganAt, FirstQuitFails, Post, Notify, FinishRun;
  }

  lemma ReadQuiet(cfg: Config, t0: nat, evs: seq<Event>, m: State, r: State)
    requires cfg.Valid() && evs != [] && Step(cfg, m, Last(evs)) == Some(r) && !Notes(Last(evs))
    requires m.now == Clock(t0, Front(evs)) && m.log == History(cfg, t0, Front(evs))
    ensures r.now == Clock(t0, evs) && r.log == History(cfg, t0, evs)
  {
    hide *;
    if SupervisorStep(Last(evs)) {
      OwnQuiet(cfg, t0, evs, m, r);
    } else {
      OthersQuiet(cfg, t0, evs, m, r);
    }
  }

  lemma OwnShown(cfg: Config, t0: nat, evs: seq<Event>, m: State, r: State)
    requires cfg.Valid() && evs != [] && Step(cfg, m, Last(evs)) == Some(r) && !Notes(Last(evs))
    requires m.status == Shown(cfg, t0, Front(evs)) && SupervisorStep(Last(evs))
    ensures r.status == Shown(cfg, t0, evs)
  {
    hide MustFreeze, BeganAt, FirstQuitFails, Post, Notify, Clock, History, FinishRun;
  }

  lemma OthersShown(cfg: Config, t0: nat, evs: seq<Event>, m: State, r: State)
    requires cfg.Valid() && evs != [] && Step(cfg, m, Last(evs)) == Some(r) && !Notes(Last(evs))
    requires m.status == Shown(cfg, t0, Front(evs)) && !SupervisorStep(Last(evs))
    ensures r.status == Shown(cfg, t0, evs)
  {
    hide MustFreeze, BeganAt, FirstQuitFails, Post, Notify, Clock, History, FinishRun;
  }

  lemma ReadShown(cfg: Config, t0: nat, evs: seq<Event>, m: State, r: State)
    requires cfg.Valid() && evs != [] && Step(cfg, m, Last(evs)) == Some(r) && !Notes(Last(evs))
    requires m.status == Shown(cfg, t0, Front(evs))
    ensures r.status == Shown(cfg, t0, evs)
  {
    hide *;
    if SupervisorStep(Last(evs)) {
      OwnShown(cfg, t0, evs, m, r);
    } else {
      OthersShown(cfg, t0, evs, m, r);
    }
  }

  lemma OwnPhase(cfg: Config, t0: nat, evs: seq<Event>, m: State, r: State)
    requires cfg.Valid() && evs != [] && Step(cfg, m, Last(evs)) == Some(r) && SupervisorStep(Last(evs))
    requires PhaseReads(cfg, t0, Front(evs), m.phase) && r.now == Clock(t0, evs) && !Notes(Last(evs))
    ensures PhaseReads(cfg, t0, evs, r.phase)
  {
    hide Clock, FinishRun, Post, Notify;
  }

  lemma OthersPhase(cfg: Config, t0: nat, evs: seq<Event>, m: State, r: State)
    requires cfg.Valid() && evs != [] && Step(cfg, m, Last(evs)) == Some(r) && !SupervisorStep(Last(evs))
    requires PhaseReads(cfg, t0, Front(evs), m.phase) && r.now == Clock(t0, evs) && !Notes(Last(evs))
    ensures PhaseReads(cfg, t0, evs, r.phase)
  {
    hide Clock, FinishRun;
  }

  lemma ReadPhase(cfg: Config, t0: nat, evs: seq<Event>, m: State, r: State)
    requires cfg.Valid() && evs != [] && Step(cfg, m, Last(evs)) == Some(r)
    requires PhaseReads(cfg, t0, Front(evs), m.phase) && r.now == Clock(t0, evs) && !Notes(Last(evs))
    ensures PhaseReads(cfg, t0, evs, r.phase)
  {
    hide *;
    if SupervisorStep(Last(evs)) {
      OwnPhase(cfg, t0, evs, m, r);
    } else {
      OthersPhase(cfg, t0, evs, m, r);
    }
  }

  lemma WaitIsDue(cfg: Config, t0: nat, m: State)
    requires cfg.Valid() && Inv(cfg, t0, m) && Backing(m.phase)
    ensures m.phase.wait == WaitDue(cfg.maxAttempts, Position(cfg.maxAttempts, m.log))
  {
    hide Idle, Restarts, LogOk, CycleOf, SumWaits, Position, MustFreeze;
  }

  lemma ReadBackoffWait(cfg: Config, t0: nat, evs: seq<Event>, m: State, r: State)
    requires cfg.Valid() && evs != [] && Reads(cfg, t0, Front(evs), m)
    requires Step(cfg, m, Last(evs)) == Some(r) && Last(evs).LeaveBackoffWait?
    requires m.phase.wait == WaitDue(cfg.maxAttempts, Position(cfg.maxAttempts, m.log))
    ensures Reads(cfg, t0, evs, r)
  {
    hide BeganAt, FirstQuitFails, Position, MustFreeze, WaitDue, FinishRun, Post, Notify;
  }

  lemma ReadChunkWait(cfg: Config, t0: nat, evs: seq<Event>, m: State, r: State)
    requires cfg.Valid() && evs != [] && Reads(cfg, t0, Front(evs), m)
    requires Step(cfg, m, Last(evs)) == Some(r) && Last(evs).LeaveChunkWait?
    ensures Reads(cfg, t0, evs, r)
  {
    hide BeganAt, FirstQuitFails, Position, MustFreeze, WaitDue, FinishRun, Post, Notify;
  }

  lemma ReadStep(cfg: Config, t0: nat, evs: seq<Event>, m: State, r: State)
    requires cfg.Valid() && Inv(cfg, t0, m) && evs != [] && Reads(cfg, t0, Front(evs), m)
    requires Step(cfg, m, Last(evs)) == Some(r)
    ensures Reads(cfg, t0, evs, r)
  {
    hide Inv, History, Shown, LeadsOn;
    var e := Last(evs);
    if e.LeaveLoop? {
      ReadEnd(cfg, t0, evs, m, EndedRun(cfg.vod, t0, evs).value, r) by {
        FinishLeadsOn(cfg, m, m.phase.start, m.phase.quit.value, true);
      }
    } else if e == StartPipeline(false) {
      ReadEnd(cfg, t0, evs, m, EndedRun(cfg.vod, t0, evs).value, r) by {
        FinishLeadsOn(cfg, m, m.phase.start, EXIT_INNER, false);
      }
    } else if e.LeaveBackoffWait? {
      WaitIsDue(cfg, t0, m);
      ReadBackoffWait(cfg, t0, evs, m, r);
    } else if e.LeaveChunkWait? {
      ReadChunkWait(cfg, t0, evs, m, r);
    } else {
      ReadQuiet(cfg, t0, evs, m, r);
      ReadShown(cfg, t0, evs, m, r);
      ReadPhase(cfg, t0, evs, m, r);
    }
  }

  /** The log, the clock, the status and the start times of every run are what its events say, and a run of a pipeline
      failed exactly when its first quit message was that of a failure. */
  lemma {:induction false} HistoryOfEveryRun(cfg: Config, t0: nat, evs: seq<Event>, r: State)
    requires Reaches(cfg, Initial(t0), evs, r)
    ensures Reads(cfg, t0, evs, r) && Inv(cfg, t0, r)
    decreases |evs|
  {
    hide Inv, Step, Reads;
    InitialInv(cfg, t0);
    InvRun(cfg, t0, Initial(t0), evs, r);
    if evs == [] {
      NothingRead(cfg, t0);
    } else {
      var m := RunSnoc(cfg, Initial(t0), evs, r);
      HistoryOfEveryRun(cfg, t0, Front(evs), m);
      ReadStep(cfg, t0, evs, m, r);
    }
  }

  lemma NothingRead(cfg: Config, t0: nat)
    requires cfg.Valid()
    ensures Reads(cfg, t0, [], Initial(t0))
  {
  }

  // The results, for every life of a supervisor

  /** idle_time and restarts are exactly what the events add up to, and idle time never exceeds elapsed time. */
  lemma StatisticsMatchEvents(cfg: Config, t0: nat, evs: seq<Event>, r: State)
    requires Reaches(cfg, Initial(t0), evs, r)
    ensures r.idle == Idle(cfg.vod, History(cfg, t0, evs)) && r.restarts == Restarts(History(cfg, t0, evs))
    ensures r.idle <= Clock(t0, evs) - t0
  {
    HistoryOfEveryRun(cfg, t0, evs, r);
    StatisticsOfLog(cfg, t0, evs, r);
  }

  /** The attempts count the failed runs without working time in a row; a wait that is due or under way is the one for
      that number, at most a minute, no shorter than the wait before it in its cycle, and within the bound of the cycle. */
  lemma BackoffMatchesEvents(cfg: Config, t0: nat, evs: seq<Event>, r: State)
    requires Reaches(cfg, Initial(t0), evs, r)
    ensures r.attempts < cfg.maxAttempts
    ensures var log := History(cfg, t0, evs); var n := Position(cfg.maxAttempts, log);
            && (!cfg.vod ==> r.attempts == if n == cfg.maxAttempts then 0 else n)
            && (Backing(r.phase) ==>
                  1 <= n <= cfg.maxAttempts && r.phase.wait == WaitDue(cfg.maxAttempts, n) && WaitFits(cfg, log, r.phase.wait))
  {
    HistoryOfEveryRun(cfg, t0, evs, r);
    BackoffOfState(cfg, t0, evs, r);
    hide History, Clock, Shown, PhaseReads, LogOk, Idle, Restarts, CycleOf, SumWaits, Position, MustFreeze, WaitFits;
  }

  /** The same bounds for every wait that ended. */
  lemma WaitsOfEveryRun(cfg: Config, t0: nat, evs: seq<Event>, r: State, i: nat)
    requires Reaches(cfg, Initial(t0), evs, r)
    ensures var log := History(cfg, t0, evs);
            i < |log| && log[i].BackoffEnded? ==> WaitFits(cfg, log[..i], log[i].wait)
  {
    HistoryOfEveryRun(cfg, t0, evs, r);
    if i < |r.log| {
      BackoffOfLog(cfg, t0, evs, r, i);
    }
  }

  /** What follows the end of a run: a VOD is done; a run that failed without working time is the n-th of its row and
      followed by its wait, frozen when it is the last; after any other run the supervisor starts over at once. */
  lemma EveryEndOfRun(cfg: Config, t0: nat, evs: seq<Event>, run: Entry, r: State)
    requires Reaches(cfg, Initial(t0), evs, r) && EndedRun(cfg.vod, t0, evs) == Some(run)
    ensures var n := Position(cfg.maxAttempts, History(cfg, t0, evs));
            if cfg.vod then r.phase == Returned
            else if run.failed && run.ms == 0 then
              && n >= 1 && r.phase == BackoffReady(WaitDue(cfg.maxAttempts, n))
              && r.status == if n == cfg.maxAttempts then FROZEN else NEW
            else r.phase == LoopHead && r.attempts == 0 && r.status == NEW
  {
    var m := RunSnoc(cfg, Initial(t0), evs, r);
    HistoryOfEveryRun(cfg, t0, evs, r);
    BackoffMatchesEvents(cfg, t0, evs, r);
    EndLeadsOn(cfg, t0, evs, m, run, r);
    hide History, Clock, PhaseReads, Inv, Step, Position, WaitFits, Reaches, EndedRun, WaitDue;
  }

  lemma EndLeadsOn(cfg: Config, t0: nat, evs: seq<Event>, m: State, run: Entry, r: State)
    requires evs != [] && Reaches(cfg, Initial(t0), Front(evs), m) && Step(cfg, m, Last(evs)) == Some(r)
    requires EndedRun(cfg.vod, t0, evs) == Some(run) && r.now == Clock(t0, evs)
    ensures LeadsOn(cfg, m, run, r)
  {
    HistoryOfEveryRun(cfg, t0, Front(evs), m);
    hide History, Shown, Inv, LeadsOn, Reaches;
    if Last(evs).LeaveLoop? {
      FinishLeadsOn(cfg, m, m.phase.start, m.phase.quit.value, true);
    } else {
      FinishLeadsOn(cfg, m, m.phase.start, EXIT_INNER, false);
    }
  }

  /** A wait can run out exactly when its time is over. */
  lemma WaitRunsOutIff(cfg: Config, t0: nat, evs: seq<Event>, r: State)
    requires Reaches(cfg, Initial(t0), evs, r)
    ensures r.phase.BackoffWaiting? ==>
              (Step(cfg, r, LeaveBackoffWait(true)).Some? <==>
               Clock(t0, evs) >= WaitingSince(t0, evs)
                                 + 1000 * WaitDue(cfg.maxAttempts, Position(cfg.maxAttempts, History(cfg, t0, evs))))
    ensures r.phase.ChunkWaiting? ==>
              (Step(cfg, r, LeaveChunkWait(true)).Some? <==>
               Clock(t0, evs) >= WaitingSince(t0, evs) + 1000 * cfg.chunkDuration)
  {
    HistoryOfEveryRun(cfg, t0, evs, r);
    BackoffMatchesEvents(cfg, t0, evs, r);
    RunsOut(cfg, r);
    hide History, Shown, Inv, Reaches, Clock, WaitingSince, WaitDue, WaitFits, Position, Step;
  }

  lemma RunsOut(cfg: Config, r: State)
    requires cfg.Valid()
    ensures r.phase.BackoffWaiting? ==>
              (Step(cfg, r, LeaveBackoffWait(true)).Some? <==> r.now >= r.phase.since + r.phase.wait * 1000)
    ensures r.phase.ChunkWaiting? ==>
              (Step(cfg, r, LeaveChunkWait(true)).Some? <==> r.now >= r.phase.since + cfg.chunkDuration * 1000)
  {
  }

  // Where the supervisor is

  function StopAsked(evs: seq<Event>): bool {
    evs != [] && (Last(evs).StopFlag? || StopAsked(Front(evs)))
  }

  /** The place the supervisor's own last step has led to; the steps of the others do not move it. */
  predicate Follows(cfg: Config, evs: seq<Event>, p: Phase) {
    if evs == [] then p.LoopHead?
    else
      match Last(evs)
      case TestStop => if StopAsked(Front(evs)) then p.Returned? else if cfg.player then p.Searching? else p.Creating?
      case Search(None) => p.NoChunk?
      case Search(Some(i)) => if i == 0xffff_ffff_ffff_ffff then p.LoopHead? else p.Creating?
      case EnterChunkWait => p.ChunkWaiting?
      case LeaveChunkWait(timedOut) => if timedOut then p.Searching? else p.LoopHead?
      case Create(ok) => if ok then p.Starting? else p.Returned?
      case StartPipeline(ok) => if ok then p.Looping? else p.Returned? || p.LoopHead? || p.BackoffReady?
      case LeaveLoop => p.Returned? || p.LoopHead? || p.BackoffReady?
      case EnterBackoffWait => p.BackoffWaiting?
      case LeaveBackoffWait(_) => p.LoopHead?
      case _ => Follows(cfg, Front(evs), p)
  }

  predicate SameKind(p: Phase, q: Phase) {
    match p
    case LoopHead => q.LoopHead?
    case Searching => q.Searching?
    case NoChunk => q.NoChunk?
    case ChunkWaiting(_, _) => q.ChunkWaiting?
    case Creating(_) => q.Creating?
    case Starting(_) => q.Starting?
    case Looping(_, _) => q.Looping?
    case BackoffReady(_) => q.BackoffReady?
    case BackoffWaiting(_, _, _) => q.BackoffWaiting?
    case Returned => q.Returned?
  }

  lemma OthersKeepKind(cfg: Config, m: State, e: Event, r: State)
    requires cfg.Valid() && Step(cfg, m, e) == Some(r) && !SupervisorStep(e)
    ensures SameKind(m.phase, r.phase) && (r.stop <==> m.stop || e.StopFlag?)
  {
  }

  lemma OwnStepLeads(cfg: Config, evs: seq<Event>, m: State, r: State)
    requires cfg.Valid() && evs != [] && Step(cfg, m, Last(evs)) == Some(r) && SupervisorStep(Last(evs))
    requires m.stop <==> StopAsked(Front(evs))
    ensures Follows(cfg, evs, r.phase) && r.stop == m.stop
  {
    hide Post, Notify, FinishRun;
    if Last(evs).LeaveLoop? {
      FinishPlace(cfg, m, m.phase.start, m.phase.quit.value, true);
    } else if Last(evs) == StartPipeline(false) {
      FinishPlace(cfg, m, m.phase.start, EXIT_INNER, false);
    }
  }

  lemma {:induction false} KindFollows(cfg: Config, evs: seq<Event>, p: Phase, q: Phase)
    requires Follows(cfg, evs, p) && SameKind(p, q)
    ensures Follows(cfg, evs, q)
    decreases |evs|
  {
    if evs != [] && !SupervisorStep(Last(evs)) {
      KindFollows(cfg, Front(evs), p, q);
    }
  }

  /** In every run the flag is set exactly when a stop was asked for, and the supervisor is where its own last step leads. */
  lemma {:induction false} PlaceOfEveryRun(cfg: Config, t0: nat, evs: seq<Event>, r: State)
    requires Reaches(cfg, Initial(t0), evs, r)
    ensures (r.stop <==> StopAsked(evs)) && Follows(cfg, evs, r.phase)
    decreases |evs|
  {
    hide Step, SameKind;
    if evs != [] {
      var m := RunSnoc(cfg, Initial(t0), evs, r);
      PlaceOfEveryRun(cfg, t0, Front(evs), m);
      if SupervisorStep(Last(evs)) {
        OwnStepLeads(cfg, evs, m, r);
      } else {
        OthersKeepKind(cfg, m, Last(evs), r);
        KindFollows(cfg, Front(evs), m.phase, r.phase);
      }
    }
  }
}
