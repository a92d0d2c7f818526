/** Stopping and returning, over every interleaving. */
module SupervisorSafety {
  import opened Wrappers
  import opened Supervisor

  function Creations(evs: seq<Event>): nat {
    if evs == [] then 0 else (if evs[0] == Create(true) then 1 else 0) + Creations(evs[1..])
  }

  /** The phases from which a stream is created without another look at stop_. */
  predicate Committed(p: Phase) {
    p.Searching? || p.NoChunk? || p.ChunkWaiting? || p.Creating?
  }

  lemma CreationStep(cfg: Config, s: State, e: Event, s': State)
    requires cfg.Valid() && Step(cfg, s, e) == Some(s') && s.stop
    ensures s'.stop && (Committed(s'.phase) ==> Committed(s.phase))
    ensures e == Create(true) ==> Committed(s.phase) && !Committed(s'.phase)
  {
    hide FinishRun;
    if e.LeaveLoop? || e == StartPipeline(false) {
      EndPlace(cfg, s, e, s');
    }
  }

  /** After stop is set at most one more stream is created, and none unless the supervisor had passed its test:
      none when stop came during a run or a backoff wait. */
  lemma {:induction false} CreationsAfterStop(cfg: Config, s: State, evs: seq<Event>, r: State)
    requires s.stop && Reaches(cfg, s, evs, r)
    ensures r.stop && Creations(evs) <= if Committed(s.phase) then 1 else 0
    decreases evs
  {
    hide Step;
    if evs != [] {
      var s' := Step(cfg, s, evs[0]).value;
      CreationStep(cfg, s, evs[0], s');
      CreationsAfterStop(cfg, s', evs[1..], r);
    }
  }

  function Distance(p: Phase): nat {
    match p
    case NoChunk => 3
    case ChunkWaiting(_, _) => 2
    case Searching => 1
    case _ => 0
  }

  /** The bound is exact: every phase past the test can still create one. */
  lemma {:induction false} CommittedCanCreate(cfg: Config, s: State) returns (evs: seq<Event>, r: State)
    requires cfg.Valid() && Committed(s.phase)
    ensures Reaches(cfg, s, evs, r) && Creations(evs) == 1
    ensures r.phase.Starting? && r.stop == s.stop && r.now >= s.now
    decreases Distance(s.phase)
  {
    if s.phase.Creating? {
      evs := [Create(true)];
      r := Step(cfg, s, Create(true)).value;
      assert evs[1..] == [];
      assert Run(cfg, r, []) == Some(r);
    } else {
      var m := s;
      var first: seq<Event> := [];
      if s.phase.ChunkWaiting? {
        var pause := Advance(s.phase.since + cfg.chunkDuration * 1000);
        m := Step(cfg, s, pause).value;
        first := [pause];
      }
      var e := if s.phase.NoChunk? then EnterChunkWait else
               if s.phase.ChunkWaiting? then LeaveChunkWait(true) else Search(Some(0));
      var m' := Step(cfg, m, e).value;
      var rest;
      rest, r := CommittedCanCreate(cfg, m');
      RunCons(cfg, m, e, m', rest, r);
      evs := [e] + rest;
      assert evs[1..] == rest;
      if first != [] {
        RunCons(cfg, s, first[0], m, evs, r);
        assert ([first[0]] + evs)[1..] == evs;
        evs := [first[0]] + evs;
      }
    }
  }

  // Why Exec returns

  predicate FinishesRun(e: Event) {
    e.LeaveLoop? || e == StartPipeline(false)
  }

  lemma ReturnStep(cfg: Config, s: State, e: Event, s': State)
    requires cfg.Valid() && Step(cfg, s, e) == Some(s')
    ensures !s.phase.Returned? && s'.phase.Returned? ==>
              s'.stop || (cfg.vod && FinishesRun(e)) || e == Create(false)
    ensures s.phase.Returned? ==> s'.phase.Returned?
    ensures s'.stop <==> s.stop || e == StopFlag
  {
    hide FinishRun;
    if e.LeaveLoop? || e == StartPipeline(false) {
      EndPlace(cfg, s, e, s');
    }
  }

  /** Exec returns only because stop is set, a VOD run ended, or a stream could not be created. */
  lemma {:induction false} ReturnsOnlyBecause(cfg: Config, s: State, evs: seq<Event>, r: State)
    requires Reaches(cfg, s, evs, r) && !s.phase.Returned? && r.phase.Returned?
    ensures r.stop || (cfg.vod && exists e | e in evs :: FinishesRun(e)) || Create(false) in evs
    ensures r.stop ==> s.stop || StopFlag in evs
    decreases evs
  {
    hide Step;
    if evs != [] {
      var s' := Step(cfg, s, evs[0]).value;
      ReturnStep(cfg, s, evs[0], s');
      if s'.phase.Returned? {
        ReturnedStays(cfg, s', evs[1..], r);
        assert evs[0] in evs;
      } else {
        ReturnsOnlyBecause(cfg, s', evs[1..], r);
      }
    }
  }

  lemma {:induction false} ReturnedStays(cfg: Config, s: State, evs: seq<Event>, r: State)
    requires Reaches(cfg, s, evs, r) && s.phase.Returned?
    ensures r.phase.Returned? && (s.stop ==> r.stop) && (r.stop ==> s.stop || StopFlag in evs)
    decreases evs
  {
    hide Step;
    if evs != [] {
      var s' := Step(cfg, s, evs[0]).value;
      ReturnStep(cfg, s, evs[0], s');
      ReturnedStays(cfg, s', evs[1..], r);
    }
  }

  // How fast a stop is seen

  function SupervisorSteps(evs: seq<Event>): nat {
    if evs == [] then 0 else (if SupervisorStep(evs[0]) then 1 else 0) + SupervisorSteps(evs[1..])
  }

  function StepsToReturn(p: Phase): nat {
    match p
    case LoopHead => 1
    case BackoffWaiting(_, _, _) => 2
    case BackoffReady(_) => 3
    case Looping(_, _) => 4
    case Starting(_) => 5
    case Creating(_) => 6
    case _ => 0
  }

  /** Looking for a chunk to play, or waiting for one. */
  predicate InSearch(p: Phase) {
    p.Searching? || p.NoChunk? || p.ChunkWaiting?
  }

  lemma StopStep(cfg: Config, s: State, e: Event, s': State)
    requires cfg.Valid() && Step(cfg, s, e) == Some(s') && s.stop && !InSearch(s.phase)
    ensures s'.stop && !InSearch(s'.phase)
    ensures StepsToReturn(s'.phase) + (if SupervisorStep(e) then 1 else 0) <= StepsToReturn(s.phase)
  {
    hide FinishRun;
    if e.LeaveLoop? || e == StartPipeline(false) {
      EndPlace(cfg, s, e, s');
    }
  }

  /** Outside the chunk search the supervisor has at most that many steps left once stop is set. */
  lemma {:induction false} StopIsSeen(cfg: Config, s: State, evs: seq<Event>, r: State)
    requires s.stop && !InSearch(s.phase) && Reaches(cfg, s, evs, r)
    ensures !InSearch(r.phase) && SupervisorSteps(evs) + StepsToReturn(r.phase) <= StepsToReturn(s.phase)
    decreases evs
  {
    hide Step;
    if evs != [] {
      var s' := Step(cfg, s, evs[0]).value;
      StopStep(cfg, s, evs[0], s');
      StopIsSeen(cfg, s', evs[1..], r);
    }
  }

  function RepeatSearch(cfg: Config, n: nat): seq<Event> {
    if n == 0 then []
    else [Search(None), EnterChunkWait, Advance(cfg.chunkDuration * 1000), LeaveChunkWait(true)] + RepeatSearch(cfg, n - 1)
  }

  function AfterSearch(cfg: Config, s: State): State {
    s.(now := s.now + cfg.chunkDuration * 1000, status := WAITING, log := s.log + [ChunkWaitEnded(false)])
  }

  lemma OneSearch(cfg: Config, s: State, rest: seq<Event>, r: State)
    requires cfg.Valid() && s.phase.Searching? && Reaches(cfg, AfterSearch(cfg, s), rest, r)
    ensures Reaches(cfg, s, [Search(None), EnterChunkWait, Advance(cfg.chunkDuration * 1000), LeaveChunkWait(true)] + rest, r)
  {
    var e1, e2, e3, e4 := Search(None), EnterChunkWait, Advance(cfg.chunkDuration * 1000), LeaveChunkWait(true);
    var s1 := Step(cfg, s, e1).value;
    var s2 := Step(cfg, s1, e2).value;
    var s3 := Step(cfg, s2, e3).value;
    RunCons(cfg, s3, e4, AfterSearch(cfg, s), rest, r);
    RunCons(cfg, s2, e3, s3, [e4] + rest, r);
    RunCons(cfg, s1, e2, s2, [e3] + ([e4] + rest), r);
    RunCons(cfg, s, e1, s1, [e2] + ([e3] + ([e4] + rest)), r);
    assert [e1] + ([e2] + ([e3] + ([e4] + rest))) == [e1, e2, e3, e4] + rest;
  }

  /** The chunk search never looks at stop_: a stop that misses its wait can go unseen for any length of time. */
  lemma {:induction false} SearchIgnoresStop(cfg: Config, s: State, n: nat) returns (r: State)
    requires cfg.Valid() && s.phase.Searching? && s.stop
    ensures Reaches(cfg, s, RepeatSearch(cfg, n), r)
    ensures r.phase.Searching? && r.stop && r.now == s.now + n * (cfg.chunkDuration * 1000)
    decreases n
  {
    hide Step;
    if n == 0 {
      r := s;
    } else {
      r := SearchIgnoresStop(cfg, AfterSearch(cfg, s), n - 1);
      OneSearch(cfg, s, RepeatSearch(cfg, n - 1), r);
      assert n * (cfg.chunkDuration * 1000) == (n - 1) * (cfg.chunkDuration * 1000) + cfg.chunkDuration * 1000;
    }
  }

  // When a stop is seen, exactly

  /** No run from s holds more than n steps of the supervisor. */
  ghost predicate SeenWithin(cfg: Config, s: State, n: nat) {
    forall evs, r | Reaches(cfg, s, evs, r) :: SupervisorSteps(evs) <= n
  }

  /** The steps the supervisor still takes are bounded. */
  ghost predicate StopSeen(cfg: Config, s: State) {
    exists n :: SeenWithin(cfg, s, n)
  }

  lemma {:induction false} StepsConcat(a: seq<Event>, b: seq<Event>)
    ensures SupervisorSteps(a + b) == SupervisorSteps(a) + SupervisorSteps(b)
  {
    if a == [] {
      assert a + b == b;
    } else {
      StepsConcat(a[1..], b);
      assert (a + b)[1..] == a[1..] + b && (a + b)[0] == a[0];
    }
  }

  lemma {:induction false} StepsOfSearch(cfg: Config, n: nat)
    ensures SupervisorSteps(RepeatSearch(cfg, n)) == 3 * n
  {
    if n > 0 {
      var once := [Search(None), EnterChunkWait, Advance(cfg.chunkDuration * 1000), LeaveChunkWait(true)];
      StepsOfSearch(cfg, n - 1);
      StepsConcat(once, RepeatSearch(cfg, n - 1));
      var last := [LeaveChunkWait(true)];
      assert last[1..] == [] && SupervisorSteps(last) == 1;
      assert once[1..][1..][1..] == last && SupervisorSteps(once[1..][1..]) == 1;
      assert SupervisorSteps(once[1..]) == 2;
    }
  }

  /** Every phase of the search leads to another look for a chunk. */
  lemma BackToSearching(cfg: Config, s: State) returns (evs: seq<Event>, r: State)
    requires cfg.Valid() && InSearch(s.phase)
    ensures Reaches(cfg, s, evs, r) && r.phase.Searching? && r.stop == s.stop
  {
    assert Reaches(cfg, s, [], s);
    evs, r := [], s;
    if s.phase.NoChunk? {
      r := Step(cfg, s, EnterChunkWait).value;
      assert Reaches(cfg, r, [], r);
      RunCons(cfg, s, EnterChunkWait, r, [], r);
      evs := [EnterChunkWait] + [];
    }
    if r.phase.ChunkWaiting? {
      var pause := Advance(r.phase.since + cfg.chunkDuration * 1000);
      var m := Step(cfg, r, pause).value;
      var t := Step(cfg, m, LeaveChunkWait(true)).value;
      assert Reaches(cfg, t, [], t);
      RunCons(cfg, m, LeaveChunkWait(true), t, [], t);
      RunCons(cfg, r, pause, m, [LeaveChunkWait(true)] + [], t);
      RunConcat(cfg, s, evs, r, [pause] + ([LeaveChunkWait(true)] + []), t);
      evs, r := evs + ([pause] + ([LeaveChunkWait(true)] + [])), t;
    }
  }

  /** A stop that is set is seen after a bounded number of the supervisor's own steps exactly when it did not find the
      supervisor in its chunk search. */
  lemma StopSeenIff(cfg: Config, s: State)
    requires cfg.Valid() && s.stop
    ensures StopSeen(cfg, s) <==> !InSearch(s.phase)
  {
    hide Step;
    if !InSearch(s.phase) {
      forall evs, r | Reaches(cfg, s, evs, r) ensures SupervisorSteps(evs) <= StepsToReturn(s.phase) {
        StopIsSeen(cfg, s, evs, r);
      }
      assert SeenWithin(cfg, s, StepsToReturn(s.phase));
    } else {
      forall n: nat ensures !SeenWithin(cfg, s, n) {
        var first, m := BackToSearching(cfg, s);
        var r := SearchIgnoresStop(cfg, m, n + 1);
        RunConcat(cfg, s, first, m, RepeatSearch(cfg, n + 1), r);
        StepsConcat(first, RepeatSearch(cfg, n + 1));
        StepsOfSearch(cfg, n + 1);
      }
    }
  }

  /** A stop right after a player's test of the flag does find it there. */
  lemma SearchReached(cfg: Config, now: nat) returns (r: State)
    requires cfg.Valid() && cfg.player
    ensures Reaches(cfg, Initial(now), [TestStop, StopFlag], r) && r.stop && InSearch(r.phase)
  {
    var m := Step(cfg, Initial(now), TestStop).value;
    r := Step(cfg, m, StopFlag).value;
    assert Reaches(cfg, r, [], r);
    RunCons(cfg, m, StopFlag, r, [], r);
    RunCons(cfg, Initial(now), TestStop, m, [StopFlag], r);
    assert [TestStop] + [StopFlag] == [TestStop, StopFlag];
  }

  lemma {:induction false} OnlyPlayersSearch(cfg: Config, s: State, evs: seq<Event>, r: State)
    requires !cfg.player && !InSearch(s.phase) && Reaches(cfg, s, evs, r)
    ensures !InSearch(r.phase)
    decreases evs
  {
    hide Step;
    if evs != [] {
      var s' := Step(cfg, s, evs[0]).value;
      NoSearchStep(cfg, s, evs[0], s');
      OnlyPlayersSearch(cfg, s', evs[1..], r);
    }
  }

  lemma NoSearchStep(cfg: Config, s: State, e: Event, s': State)
    requires cfg.Valid() && Step(cfg, s, e) == Some(s') && !cfg.player && !InSearch(s.phase)
    ensures !InSearch(s'.phase)
  {
    hide FinishRun;
    if e.LeaveLoop? || e == StartPipeline(false) {
      EndPlace(cfg, s, e, s');
    }
  }

  /** In terms of the configuration: stops are always seen exactly when the stream is no timeshift player. */
  lemma StopAlwaysSeenIff(cfg: Config, now: nat)
    requires cfg.Valid()
    ensures (forall evs, s | Reaches(cfg, Initial(now), evs, s) && s.stop :: StopSeen(cfg, s)) <==> !cfg.player
  {
    hide Step, StopSeen;
    if cfg.player {
      var s := SearchReached(cfg, now);
      StopSeenIff(cfg, s);
    } else {
      forall evs, s | Reaches(cfg, Initial(now), evs, s) && s.stop ensures StopSeen(cfg, s) {
        OnlyPlayersSearch(cfg, Initial(now), evs, s);
        StopSeenIff(cfg, s);
      }
    }
  }

  // Stops that come before the loop runs

  predicate AskedToQuit(p: Phase) {
    p.Looping? && p.quit.Some?
  }

  predicate RunsUnasked(p: Phase) {
    p.Looping? && p.quit == None
  }

  /** The second half of a stop asks the loop to quit exactly when it finds it running. */
  lemma QuitReachesLoop(cfg: Config, s: State, r: State)
    requires cfg.Valid() && Step(cfg, s, QuitStream) == Some(r)
    ensures AskedToQuit(r.phase) <==> s.phase.Looping?
  {
  }

  /** A run leads to a loop that nobody asked to quit, at least that much later. */
  ghost predicate RunsOn(cfg: Config, s: State, ms: nat) {
    exists evs, r :: Reaches(cfg, s, evs, r) && RunsUnasked(r.phase) && r.now >= s.now + ms
  }

  lemma UnaskedStep(cfg: Config, s: State, e: Event, s': State)
    requires cfg.Valid() && Step(cfg, s, e) == Some(s') && s.stop
    requires !Committed(s.phase) && !s.phase.Starting? && !RunsUnasked(s.phase)
    ensures s'.stop && !Committed(s'.phase) && !s'.phase.Starting? && !RunsUnasked(s'.phase)
  {
  }

  lemma {:induction false} NeverUnasked(cfg: Config, s: State, evs: seq<Event>, r: State)
    requires s.stop && Reaches(cfg, s, evs, r)
    requires !Committed(s.phase) && !s.phase.Starting? && !RunsUnasked(s.phase)
    ensures !RunsUnasked(r.phase)
    decreases evs
  {
    hide Step;
    if evs != [] {
      var s' := Step(cfg, s, evs[0]).value;
      UnaskedStep(cfg, s, evs[0], s');
      NeverUnasked(cfg, s', evs[1..], r);
    }
  }

  lemma StartedRunsOn(cfg: Config, s: State, ms: nat)
    requires cfg.Valid() && s.phase.Starting?
    ensures RunsOn(cfg, s, ms)
  {
    var m := Step(cfg, s, StartPipeline(true)).value;
    var r := Step(cfg, m, Advance(ms)).value;
    assert Reaches(cfg, r, [], r);
    RunCons(cfg, m, Advance(ms), r, [], r);
    RunCons(cfg, s, StartPipeline(true), m, [Advance(ms)] + [], r);
  }

  /** After both halves of a stop a stream can still run on, for any length of time, exactly when the second half came
      after the test of the flag and before the loop ran: its message is lost. */
  lemma LostStopIff(cfg: Config, s: State, r: State, ms: nat)
    requires cfg.Valid() && s.stop && Step(cfg, s, QuitStream) == Some(r)
    ensures RunsOn(cfg, r, ms) <==> Committed(s.phase) || s.phase.Starting?
  {
    QuitReachesLoop(cfg, s, r);
    assert Committed(r.phase) == Committed(s.phase) && r.phase.Starting? == s.phase.Starting? && r.stop;
    hide Step;
    if r.phase.Starting? {
      StartedRunsOn(cfg, r, ms);
    } else if Committed(r.phase) {
      var evs, m := CommittedCanCreate(cfg, r);
      StartedRunsOn(cfg, m, ms);
      var more, t :| Reaches(cfg, m, more, t) && RunsUnasked(t.phase) && t.now >= m.now + ms;
      RunConcat(cfg, r, evs, m, more, t);
    } else {
      forall evs, t | Reaches(cfg, r, evs, t) ensures !RunsUnasked(t.phase) {
        NeverUnasked(cfg, r, evs, t);
      }
    }
  }

  /** Such a stop, from the start of the supervisor. */
  lemma LostStop(cfg: Config, now: nat, ms: nat) returns (evs: seq<Event>, s: State, r: State)
    requires cfg.Valid()
    ensures Reaches(cfg, Initial(now), evs, s) && s.stop && Step(cfg, s, QuitStream) == Some(r) && RunsOn(cfg, r, ms)
  {
    var m := Step(cfg, Initial(now), TestStop).value;
    s := Step(cfg, m, StopFlag).value;
    r := Step(cfg, s, QuitStream).value;
    assert Reaches(cfg, s, [], s);
    RunCons(cfg, m, StopFlag, s, [], s);
    RunCons(cfg, Initial(now), TestStop, m, [StopFlag] + [], s);
    evs := [TestStop] + ([StopFlag] + []);
    LostStopIff(cfg, s, r, ms);
  }
}
