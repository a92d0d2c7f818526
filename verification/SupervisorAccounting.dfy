/** Backoff, freezing and the statistics of a whole supervised life, against what an observer noted down. */
module SupervisorAccounting {
  import opened Wrappers
  import opened Sequences
  import opened Supervisor

  // Readings of the log

  predicate ZeroFailure(e: Entry) {
    e.RunEnded? && e.failed && e.ms == 0
  }

  predicate Resets(e: Entry) {
    (e.RunEnded? && !ZeroFailure(e)) || (e.BackoffEnded? && e.interrupted)
  }

  /** How many failed runs without any measured working time in a row, since the last reset or freeze. */
  function Position(max: nat, log: seq<Entry>): nat {
    if log == [] then 0
    else
      var n := Position(max, Front(log));
      if ZeroFailure(Last(log)) then (if n == max then 1 else n + 1)
      else if Resets(Last(log)) then 0
      else n
  }

  /** Seconds waited in the current freeze cycle, and the last of those waits. */
  datatype Cycle = Cycle(waited: nat, last: nat)

  function CycleOf(max: nat, log: seq<Entry>): Cycle {
    if log == [] then Cycle(0, 0)
    else
      var c, e := CycleOf(max, Front(log)), Last(log);
      if Resets(e) || (ZeroFailure(e) && Position(max, log) == 1) then Cycle(0, 0)
      else if e.BackoffEnded? then Cycle(c.waited + e.wait, e.wait)
      else c
  }

  /** Working time of short failed runs, and the waits that ran out. */
  function Idle(vod: bool, log: seq<Entry>): nat {
    if log == [] then 0
    else
      Idle(vod, Front(log)) +
      match Last(log)
      case RunEnded(failed, ms, _) => if failed && ms <= 600000 && !vod then ms else 0
      case BackoffEnded(wait, interrupted) => if interrupted then 0 else 1000 * wait
      case _ => 0
  }

  /** Runs of a pipeline and interrupted chunk waits. */
  function Restarts(log: seq<Entry>): nat {
    if log == [] then 0
    else
      Restarts(Front(log)) +
      match Last(log)
      case RunEnded(_, _, piped) => if piped then 1 else 0
      case ChunkWaitEnded(interrupted) => if interrupted then 1 else 0
      case _ => 0
  }

  /** The run just noted is the max-th of its row. */
  predicate MustFreeze(cfg: Config, log: seq<Entry>) {
    !cfg.vod && log != [] && ZeroFailure(Last(log)) && Position(cfg.maxAttempts, log) == cfg.maxAttempts
  }

  /** What every entry of a log has to satisfy after the entries before it. */
  predicate EntryOk(cfg: Config, log: seq<Entry>, e: Entry)
    requires cfg.Valid()
  {
    var max := cfg.maxAttempts;
    && (e == Froze <==> MustFreeze(cfg, log))
    && (e.BackoffEnded? ==>
          var c := CycleOf(max, log);
          && 1 <= Position(max, log) <= max
          && e.wait == WaitTime(max, Position(max, log))
          && c.last <= e.wait <= 60
          && c.waited + e.wait <= 30 * (max - 1) + 60)
  }

  predicate LogOk(cfg: Config, log: seq<Entry>)
    requires cfg.Valid()
  {
    log == [] || (LogOk(cfg, Front(log)) && EntryOk(cfg, Front(log), Last(log)))
  }

  // Arithmetic of the waits

  function SumWaits(max: nat, k: nat): nat
    requires max >= 1
  {
    if k == 0 then 0 else SumWaits(max, k - 1) + WaitTime(max, k)
  }

  lemma WaitAtMostAMinute(max: nat, k: nat)
    requires max >= 1 && k <= max
    ensures WaitTime(max, k) <= 60
    ensures k > 0 ==> WaitTime(max, k - 1) <= WaitTime(max, k)
  {
    var step := 60 / max;
    assert max * step <= 60;
    if k < max {
      assert k * step <= max * step by { MulMono(k, max, step); }
    }
    if 0 < k {
      MulMono(k - 1, k, step);
      MulMono(k - 1, max, step);
    }
  }

  lemma MulMono(a: nat, b: nat, c: nat)
    requires a <= b
    ensures a * c <= b * c
  {
  }

  /** Twice the sum of the waits before the freeze. */
  lemma {:induction false} SumBelowFreeze(max: nat, k: nat)
    requires max >= 1 && k < max
    ensures 2 * SumWaits(max, k) == k * (k + 1) * (60 / max)
  {
    if k > 0 {
      SumBelowFreeze(max, k - 1);
      var step := 60 / max;
      Distribute(k, step);
    }
  }

  lemma Distribute(k: nat, step: nat)
    requires k > 0
    ensures (k - 1) * k * step + 2 * (k * step) == k * (k + 1) * step
  {
    assert (k - 1) * k + 2 * k == k * (k + 1);
    assert (k - 1) * k * step + (2 * k) * step == ((k - 1) * k + 2 * k) * step;
  }

  lemma HalfTriangle(max: nat, j: nat)
    requires j < max
    ensures j * (j + 1) * (60 / max) <= 60 * (max - 1)
  {
    var step := 60 / max;
    var top := (j + 1) * step;
    MulMono(j + 1, max, step);
    assert top <= 60;
    assert j * (j + 1) * step == j * top;
    MulMono(top, 60, j);
    assert j * top <= j * 60;
  }

  /** A full cycle waits at most 30 * (max - 1) + 60 seconds. */
  lemma CycleBound(max: nat, k: nat)
    requires max >= 1 && 1 <= k <= max
    ensures SumWaits(max, k) <= 30 * (max - 1) + 60
    ensures k < max ==> SumWaits(max, k) <= 30 * (max - 1)
  {
    var j := if k == max then k - 1 else k;
    SumBelowFreeze(max, j);
    HalfTriangle(max, j);
  }

  // The invariant of every run

  predicate Backing(p: Phase) {
    p.BackoffReady? || p.BackoffWaiting?
  }

  /** The instant up to which time has been accounted for. */
  function Mark(s: State): nat {
    match s.phase
    case Creating(start) => start
    case Starting(start) => start
    case Looping(start, _) => start
    case BackoffWaiting(_, since, _) => since
    case ChunkWaiting(since, _) => since
    case _ => s.now
  }

  predicate BackoffInv(cfg: Config, s: State)
    requires cfg.Valid()
  {
    var max := cfg.maxAttempts;
    var n, c := Position(max, s.log), CycleOf(max, s.log);
    && s.attempts < max && n <= max
    && s.attempts == (if n == max then 0 else n)
    && !MustFreeze(cfg, s.log)
    && (Backing(s.phase) ==>
          && n >= 1 && s.phase.wait == WaitTime(max, n)
          && c == Cycle(SumWaits(max, n - 1), if n == 1 then 0 else WaitTime(max, n - 1)))
    && (!Backing(s.phase) ==> c == Cycle(SumWaits(max, n), if n == 0 then 0 else WaitTime(max, n)))
  }

  predicate Inv(cfg: Config, t0: nat, s: State)
    requires cfg.Valid()
  {
    && s.idle == Idle(cfg.vod, s.log) && s.restarts == Restarts(s.log)
    && t0 + s.idle <= Mark(s) <= s.now
    && LogOk(cfg, s.log)
    && (s.phase.Searching? || s.phase.NoChunk? || s.phase.ChunkWaiting? ==> cfg.player)
    && (cfg.vod ==> s.attempts == 0 && !Backing(s.phase) && (s.log == [] || s.phase.Returned?))
    && (!cfg.vod ==> BackoffInv(cfg, s))
  }

  lemma Appended(log: seq<Entry>, e: Entry)
    ensures Front(log + [e]) == log && Last(log + [e]) == e
  {
  }

  /** A run that is no zero failure resets the row. */
  lemma NoteReset(cfg: Config, t0: nat, s: State, run: Entry, r: State)
    requires cfg.Valid() && !cfg.vod && Inv(cfg, t0, s) && !Backing(s.phase) && run.RunEnded? && Resets(run)
    requires r.log == s.log + [run] && r.phase == LoopHead && r.attempts == 0 && r.now == s.now
    requires s.now == Mark(s) + run.ms
    requires r.idle == s.idle + (if run.failed && run.ms <= 600000 then run.ms else 0)
    requires r.restarts == s.restarts + if run.piped then 1 else 0
    ensures Inv(cfg, t0, r)
  {
    hide WaitTime;
    Appended(s.log, run);
    assert Position(cfg.maxAttempts, r.log) == 0;
  }

  /** A zero failure moves the row on, and the max-th of it freezes. */
  lemma NoteZeroFailure(cfg: Config, t0: nat, s: State, run: Entry, r: State)
    requires cfg.Valid() && !cfg.vod && Inv(cfg, t0, s) && !Backing(s.phase) && ZeroFailure(run)
    requires s.now == Mark(s) && r.now == s.now && r.idle == s.idle
    requires r.restarts == s.restarts + if run.piped then 1 else 0
    requires if s.attempts + 1 == cfg.maxAttempts
             then r.attempts == 0 && r.phase == BackoffReady(60) && r.log == s.log + [run] + [Froze]
             else r.attempts == s.attempts + 1 && r.phase == BackoffReady(WaitTime(cfg.maxAttempts, r.attempts))
                  && r.log == s.log + [run]
    ensures Inv(cfg, t0, r)
  {
    var max, log := cfg.maxAttempts, s.log + [run];
    Appended(s.log, run);
    assert Position(max, log) == s.attempts + 1;
    assert LogOk(cfg, log);
    assert CycleOf(max, log).waited == SumWaits(max, s.attempts);
    if s.attempts + 1 == max {
      Appended(log, Froze);
      assert Position(max, r.log) == max && CycleOf(max, r.log) == CycleOf(max, log);
    }
  }

  lemma NoteVod(cfg: Config, t0: nat, s: State, run: Entry, r: State)
    requires cfg.Valid() && cfg.vod && Inv(cfg, t0, s) && run.RunEnded? && !s.phase.Returned?
    requires r.log == s.log + [run] && r.phase == Returned && r.attempts == s.attempts && r.now == s.now
    requires r.idle == s.idle && r.restarts == s.restarts + if run.piped then 1 else 0
    ensures Inv(cfg, t0, r)
  {
    Appended(s.log, run);
  }

  lemma NoteRun(cfg: Config, t0: nat, s: State, start: nat, exit: ExitStatus, piped: bool)
    requires cfg.Valid() && Inv(cfg, t0, s) && !Backing(s.phase) && !s.phase.Returned? && Mark(s) == start
    ensures Inv(cfg, t0, FinishRun(cfg, s, start, exit, piped))
  {
    var run := RunEnded(exit == EXIT_INNER, s.now - start, piped);
    var r := FinishRun(cfg, s, start, exit, piped);
    if cfg.vod {
      hide Inv;
      NoteVod(cfg, t0, s, run, r);
    } else if ZeroFailure(run) {
      hide Inv;
      NoteZeroFailure(cfg, t0, s, run, r);
    } else {
      hide Inv;
      NoteReset(cfg, t0, s, run, r);
    }
  }

  lemma NoteBackoff(cfg: Config, t0: nat, s: State, timedOut: bool, s': State)
    requires cfg.Valid() && Inv(cfg, t0, s) && s.phase.BackoffWaiting?
    requires Step(cfg, s, LeaveBackoffWait(timedOut)) == Some(s')
    ensures Inv(cfg, t0, s')
  {
    var n := Position(cfg.maxAttempts, s.log);
    Appended(s.log, BackoffEnded(s.phase.wait, !timedOut));
    WaitAtMostAMinute(cfg.maxAttempts, n);
    CycleBound(cfg.maxAttempts, n);
  }

  lemma NoteChunkWait(cfg: Config, t0: nat, s: State, timedOut: bool, s': State)
    requires cfg.Valid() && Inv(cfg, t0, s) && s.phase.ChunkWaiting?
    requires Step(cfg, s, LeaveChunkWait(timedOut)) == Some(s')
    ensures Inv(cfg, t0, s')
  {
    Appended(s.log, ChunkWaitEnded(!timedOut));
  }

  predicate Notes(e: Event) {
    e.LeaveLoop? || e == StartPipeline(false) || e.LeaveBackoffWait? || e.LeaveChunkWait?
  }

  /** Nothing is noted and nothing is accounted for. */
  predicate Quiet(cfg: Config, s: State, s': State) {
    && s'.log == s.log && s'.idle == s.idle && s'.restarts == s.restarts && s'.attempts == s.attempts
    && s.now <= s'.now && (Mark(s) <= s.now ==> Mark(s) <= Mark(s') <= s'.now)
    && Backing(s'.phase) == Backing(s.phase) && (Backing(s.phase) ==> s'.phase.wait == s.phase.wait)
    && (s.phase.Returned? ==> s'.phase.Returned?)
    && (s'.phase.Searching? || s'.phase.NoChunk? || s'.phase.ChunkWaiting? ==>
          cfg.player || s.phase.Searching? || s.phase.NoChunk? || s.phase.ChunkWaiting?)
  }

  lemma QuietStep(cfg: Config, s: State, e: Event, s': State)
    requires cfg.Valid() && Step(cfg, s, e) == Some(s') && !Notes(e)
    ensures Quiet(cfg, s, s')
  {
  }

  lemma QuietKeepsInv(cfg: Config, t0: nat, s: State, s': State)
    requires cfg.Valid() && Inv(cfg, t0, s) && Quiet(cfg, s, s')
    ensures Inv(cfg, t0, s')
  {
    hide LogOk, Idle, Restarts, Position, CycleOf, SumWaits, WaitTime;
  }

  lemma InvStep(cfg: Config, t0: nat, s: State, e: Event, s': State)
    requires cfg.Valid() && Inv(cfg, t0, s) && Step(cfg, s, e) == Some(s')
    ensures Inv(cfg, t0, s') && s.idle <= s'.idle && s.restarts <= s'.restarts && s.now <= s'.now
  {
    hide Inv;
    if e.LeaveLoop? {
      MarkOfRun(cfg, t0, s);
      NoteRun(cfg, t0, s, s.phase.start, s.phase.quit.value, true);
    } else if e == StartPipeline(false) {
      MarkOfRun(cfg, t0, s);
      NoteRun(cfg, t0, s, s.phase.start, EXIT_INNER, false);
    } else if e.LeaveBackoffWait? {
      NoteBackoff(cfg, t0, s, e.timedOut, s');
    } else if e.LeaveChunkWait? {
      NoteChunkWait(cfg, t0, s, e.timedOut, s');
    } else {
      QuietStep(cfg, s, e, s');
      QuietKeepsInv(cfg, t0, s, s');
    }
  }

  lemma MarkOfRun(cfg: Config, t0: nat, s: State)
    requires cfg.Valid() && Inv(cfg, t0, s)
    ensures Mark(s) <= s.now
  {
  }

  lemma {:induction false} InvRun(cfg: Config, t0: nat, s: State, evs: seq<Event>, r: State)
    requires Reaches(cfg, s, evs, r) && Inv(cfg, t0, s)
    ensures Inv(cfg, t0, r) && s.idle <= r.idle && s.restarts <= r.restarts && s.now <= r.now
    decreases evs
  {
    hide Step, Inv;
    if evs != [] {
      var s' := Step(cfg, s, evs[0]).value;
      InvStep(cfg, t0, s, evs[0], s');
      InvRun(cfg, t0, s', evs[1..], r);
    }
  }

  // The results, for every life of a supervisor

  lemma InitialInv(cfg: Config, t0: nat)
    requires cfg.Valid()
    ensures Inv(cfg, t0, Initial(t0))
  {
  }

  /** idle_time and restarts are exactly what the log adds up to, and idle time never exceeds elapsed time. */
  lemma StatisticsOfLog(cfg: Config, t0: nat, evs: seq<Event>, r: State)
    requires Reaches(cfg, Initial(t0), evs, r)
    ensures r.idle == Idle(cfg.vod, r.log) && r.restarts == Restarts(r.log) && r.idle <= r.now - t0
  {
    InitialInv(cfg, t0);
    InvRun(cfg, t0, Initial(t0), evs, r);
  }

  lemma {:induction false} LogEntries(cfg: Config, log: seq<Entry>, i: nat)
    requires cfg.Valid() && LogOk(cfg, log) && i < |log|
    ensures EntryOk(cfg, log[..i], log[i])
  {
    if i < |log| - 1 {
      LogEntries(cfg, Front(log), i);
      assert Front(log)[..i] == log[..i];
    }
  }

  /** The supervisor freezes exactly after the max-th zero failure of a row; every wait that ended took at most a minute,
      was no shorter than the one before it in its cycle, and kept the cycle within its bound. */
  lemma BackoffOfLog(cfg: Config, t0: nat, evs: seq<Event>, r: State, i: nat)
    requires Reaches(cfg, Initial(t0), evs, r) && i < |r.log|
    ensures r.log[i] == Froze <==> MustFreeze(cfg, r.log[..i])
    ensures r.log[i].BackoffEnded? ==> WaitFits(cfg, r.log[..i], r.log[i].wait)
  {
    InitialInv(cfg, t0);
    InvRun(cfg, t0, Initial(t0), evs, r);
    LogEntries(cfg, r.log, i);
  }

  /** At most a minute, no shorter than the wait before it in its cycle, and within the bound of the cycle. */
  predicate WaitFits(cfg: Config, log: seq<Entry>, wait: nat)
    requires cfg.Valid()
  {
    var c := CycleOf(cfg.maxAttempts, log);
    c.last <= wait <= 60 && c.waited + wait <= 30 * (cfg.maxAttempts - 1) + 60
  }

  /** In every reachable state the counter is below the maximum, and a wait that is about to begin or under way fits. */
  lemma BackoffOfState(cfg: Config, t0: nat, evs: seq<Event>, r: State)
    requires Reaches(cfg, Initial(t0), evs, r)
    ensures r.attempts < cfg.maxAttempts
    ensures Backing(r.phase) ==> WaitFits(cfg, r.log, r.phase.wait)
  {
    InitialInv(cfg, t0);
    InvRun(cfg, t0, Initial(t0), evs, r);
    if Backing(r.phase) {
      var n := Position(cfg.maxAttempts, r.log);
      WaitAtMostAMinute(cfg.maxAttempts, n);
      CycleBound(cfg.maxAttempts, n);
    }
  }

  lemma FinishShowsFrozen(cfg: Config, s: State, start: nat, exit: ExitStatus, piped: bool)
    requires cfg.Valid()
    ensures var r := FinishRun(cfg, s, start, exit, piped);
            |r.log| > |s.log| && (r.status == FROZEN <==> Last(r.log) == Froze)
  {
  }

  /** FROZEN is shown exactly when the log notes a freeze. */
  lemma FrozenIsNoted(cfg: Config, s: State, e: Event, s': State)
    requires cfg.Valid() && Step(cfg, s, e) == Some(s') && s.status != FROZEN
    ensures s'.status == FROZEN <==> |s'.log| > |s.log| && Last(s'.log) == Froze
  {
    hide FinishRun;
    if e.LeaveLoop? {
      FinishShowsFrozen(cfg, s, s.phase.start, s.phase.quit.value, true);
    } else if e == StartPipeline(false) {
      FinishShowsFrozen(cfg, s, s.phase.start, EXIT_INNER, false);
    }
  }

  /** Events that count as a restart. */
  function RestartEvents(evs: seq<Event>): nat {
    if evs == [] then 0
    else (if evs[0].LeaveLoop? || evs[0] == LeaveChunkWait(false) then 1 else 0) + RestartEvents(evs[1..])
  }

  lemma RestartStep(cfg: Config, s: State, e: Event, s': State)
    requires cfg.Valid() && Step(cfg, s, e) == Some(s')
    ensures s'.restarts == s.restarts + if e.LeaveLoop? || e == LeaveChunkWait(false) then 1 else 0
  {
  }

  /** restarts counts the pipelines that ran to their end and the chunk waits that were interrupted. */
  lemma {:induction false} RestartsAreEvents(cfg: Config, s: State, evs: seq<Event>, r: State)
    requires Reaches(cfg, s, evs, r)
    ensures r.restarts == s.restarts + RestartEvents(evs)
    decreases evs
  {
    hide Step;
    if evs != [] {
      var s' := Step(cfg, s, evs[0]).value;
      RestartStep(cfg, s, evs[0], s');
      RestartsAreEvents(cfg, s', evs[1..], r);
    }
  }
}
