/** When a run asks to quit, in terms of what happened to it: the buffers it saw and the times of its ticks. */
module WatchdogHistory {
  import opened Sequences
  import opened Watchdog

  // Readings of the events

  /** The start of the run or the last time enough output data was found. */
  function CheckpointTime(evs: seq<Event>): nat {
    if evs == [] then 0
    else match Last(evs)
      case StartRun(at) => at
      case TickReset(at) => at
      case _ => CheckpointTime(Front(evs))
  }

  /** Bytes of one of n channels since then. */
  function Arrived(evs: seq<Event>, side: Side, n: nat): nat {
    if evs == [] then 0
    else match Last(evs)
      case StartRun(_) => 0
      case TickReset(_) => 0
      case InBuffer(id, size) => Arrived(Front(evs), side, n) + if side == Input && id < n then size else 0
      case OutBuffer(id, size) => Arrived(Front(evs), side, n) + if side == Output && id < n then size else 0
      case _ => Arrived(Front(evs), side, n)
  }

  /** The same for a single channel. */
  function ArrivedAt(evs: seq<Event>, side: Side, id: nat): nat {
    if evs == [] then 0
    else match Last(evs)
      case StartRun(_) => 0
      case TickReset(_) => 0
      case InBuffer(to, size) => ArrivedAt(Front(evs), side, id) + if side == Input && to == id then size else 0
      case OutBuffer(to, size) => ArrivedAt(Front(evs), side, id) + if side == Output && to == id then size else 0
      case _ => ArrivedAt(Front(evs), side, id)
  }

  /** Whole seconds since the checkpoint, by the stream's own clock. */
  function SecondsSince(startTime: nat, evs: seq<Event>, at: nat): int {
    (at - startTime) / 1000 - (CheckpointTime(evs) - startTime) / 1000
  }

  /** A tick at that time finds a period over that brought too little. */
  predicate Starved(s: Stream, evs: seq<Event>, at: nat, lazy: bool) {
    && SecondsSince(s.startTime, evs, at) > 60
    && (Arrived(evs, Input, |s.input|) < 245760 || (!lazy && Arrived(evs, Output, |s.output|) < 245760))
  }

  /** A tick at that time finds a period over in which enough was sent. */
  predicate Satisfied(s: Stream, evs: seq<Event>, at: nat) {
    SecondsSince(s.startTime, evs, at) > 60 && Arrived(evs, Output, |s.output|) >= 245760
  }

  // The stream keeps to the readings

  lemma {:induction false} RunsSnoc(s: Stream, evs: seq<Event>, lazy: bool)
    requires Valid(s) && Runs(s, evs, lazy) && evs != []
    ensures Runs(s, Front(evs), lazy) && Enabled(After(s, Front(evs), lazy), Last(evs))
    ensures After(s, evs, lazy) == Step(After(s, Front(evs), lazy), Last(evs), lazy)
    decreases evs
  {
    hide Step, Enabled, Valid;
    var s' := Step(s, evs[0], lazy);
    if |evs| == 1 {
      assert evs[1..] == [] && Front(evs) == [];
      assert After(s', evs[1..], lazy) == s';
    } else {
      RunsSnoc(s', evs[1..], lazy);
      assert Front(evs[1..]) == Front(evs)[1..] && Front(evs)[0] == evs[0];
      assert Last(evs[1..]) == Last(evs);
    }
  }

  /** A run of the stream from its start. */
  predicate FromStart(s: Stream, evs: seq<Event>, lazy: bool) {
    evs != [] && evs[0].StartRun? && Valid(s) && Runs(s, evs, lazy)
  }

  lemma {:induction false} CreditAdds(cs: seq<Channel>, id: nat, size: nat)
    requires AllSound(cs)
    ensures SumDiff(Credit(cs, id, size)) == SumDiff(cs) + if id < |cs| then size else 0
  {
    if id < |cs| {
      var front, r := cs[..|cs| - 1], Credit(cs, id, size);
      CreditAdds(front, id, size);
      assert r[..|cs| - 1] == Credit(front, id, size);
    }
  }

  lemma {:induction false} NothingAfterCheckpoint(cs: seq<Channel>)
    ensures AllSound(Checkpoints(cs)) && SumDiff(Checkpoints(cs)) == 0
  {
    if cs != [] {
      var front := cs[..|cs| - 1];
      NothingAfterCheckpoint(front);
      assert Checkpoints(cs)[..|cs| - 1] == Checkpoints(front);
    }
  }

  predicate Reads(s: Stream, evs: seq<Event>, r: Stream) {
    && Valid(r) && r.startTime == s.startTime && |r.input| == |s.input| && |r.output| == |s.output|
    && r.checkpointAt == CheckpointTime(evs)
    && SumDiff(r.input) == Arrived(evs, Input, |s.input|) && SumDiff(r.output) == Arrived(evs, Output, |s.output|)
    && (forall id | 0 <= id < |r.input| :: Diff(r.input[id]) == ArrivedAt(evs, Input, id))
    && (forall id | 0 <= id < |r.output| :: Diff(r.output[id]) == ArrivedAt(evs, Output, id))
  }

  lemma ReadBuffer(s: Stream, evs: seq<Event>, m: Stream, lazy: bool)
    requires evs != [] && Valid(m) && Reads(s, Front(evs), m) && (Last(evs).InBuffer? || Last(evs).OutBuffer?)
    ensures Reads(s, evs, Step(m, Last(evs), lazy))
  {
    hide SumDiff;
    if Last(evs).InBuffer? {
      CreditAdds(m.input, Last(evs).id, Last(evs).size);
    } else {
      CreditAdds(m.output, Last(evs).id, Last(evs).size);
    }
  }

  lemma ReadReset(s: Stream, evs: seq<Event>, m: Stream, lazy: bool)
    requires evs != [] && Enabled(m, Last(evs)) && Valid(m) && Reads(s, Front(evs), m) && MovesCheckpoint(Last(evs))
    ensures Reads(s, evs, Step(m, Last(evs), lazy))
  {
    NothingAfterCheckpoint(m.input);
    NothingAfterCheckpoint(m.output);
    hide SumDiff;
  }

  lemma ReadTick(s: Stream, evs: seq<Event>, m: Stream, lazy: bool)
    requires evs != [] && Enabled(m, Last(evs)) && Valid(m) && Reads(s, Front(evs), m) && Last(evs).TickBegin?
    ensures Reads(s, evs, Step(m, Last(evs), lazy))
  {
    DivisorPositive(m, Last(evs).at);
    SumOfBps(m.input, DiffSec(m, Last(evs).at));
    SumOfBps(m.output, DiffSec(m, Last(evs).at));
    hide SumDiff;
  }

  lemma ReadStart(s: Stream, at: nat, lazy: bool)
    requires Valid(s) && Enabled(s, StartRun(at))
    ensures Reads(s, [StartRun(at)], Step(s, StartRun(at), lazy))
  {
    NothingAfterCheckpoint(s.input);
    NothingAfterCheckpoint(s.output);
    hide SumDiff;
  }

  /** Through every run the checkpoint and the bytes since it, per channel and side, are what the events say. */
  lemma {:induction false} ReadRun(s: Stream, evs: seq<Event>, lazy: bool)
    requires FromStart(s, evs, lazy)
    ensures Reads(s, evs, After(s, evs, lazy))
    decreases |evs|
  {
    RunsSnoc(s, evs, lazy);
    if |evs| == 1 {
      assert evs == [evs[0]] && After(s, Front(evs), lazy) == s;
      ReadStart(s, evs[0].at, lazy);
    } else {
      assert Front(evs)[0] == evs[0];
      ReadRun(s, Front(evs), lazy);
      var m := After(s, Front(evs), lazy);
      hide Reads, Step, Runs, After, Valid;
      match Last(evs)
      case InBuffer(_, _) => ReadBuffer(s, evs, m, lazy);
      case OutBuffer(_, _) => ReadBuffer(s, evs, m, lazy);
      case TickBegin(_) => ReadTick(s, evs, m, lazy);
      case _ => ReadReset(s, evs, m, lazy);
    }
  }

  // The verdicts

  lemma VerdictOf(s: Stream, evs: seq<Event>, m: Stream, at: nat, lazy: bool)
    requires Valid(m) && Enabled(m, TickBegin(at)) && Reads(s, evs, m)
    ensures var r := Step(m, TickBegin(at), lazy);
            (r.quit <==> m.quit || Starved(s, evs, at, lazy)) && (r.resetDue <==> Satisfied(s, evs, at))
  {
    hide SumDiff, BpsOf, Arrived, CheckpointTime;
  }

  lemma RatesOf(s: Stream, evs: seq<Event>, m: Stream, at: nat, lazy: bool)
    requires Valid(m) && Enabled(m, TickBegin(at)) && Reads(s, evs, m)
    ensures var r, sec := Step(m, TickBegin(at), lazy), SecondsSince(s.startTime, evs, at) + 1;
            && sec >= 1
            && (forall id | 0 <= id < |r.input| :: r.input[id].bps == ArrivedAt(evs, Input, id) / sec)
            && (forall id | 0 <= id < |r.output| :: r.output[id].bps == ArrivedAt(evs, Output, id) / sec)
  {
    DivisorPositive(m, at);
    hide SumDiff, Arrived, ArrivedAt, CheckpointTime;
  }

  /** What a tick decides: it asks to quit exactly when more than 60 whole seconds have passed since the checkpoint and
      fewer than 245760 bytes came in since then, or went out of a stream that is not lazy; it moves the checkpoint
      exactly when that time has passed and enough went out; and it shows the bytes of each channel per second. */
  lemma TickVerdict(s: Stream, evs: seq<Event>, at: nat, lazy: bool)
    requires FromStart(s, evs, lazy) && Enabled(After(s, evs, lazy), TickBegin(at))
    ensures var m := After(s, evs, lazy);
            var r, sec := Step(m, TickBegin(at), lazy), SecondsSince(s.startTime, evs, at) + 1;
            && (r.quit <==> m.quit || Starved(s, evs, at, lazy)) && (r.resetDue <==> Satisfied(s, evs, at)) && sec >= 1
            && (forall id | 0 <= id < |r.input| :: r.input[id].bps == ArrivedAt(evs, Input, id) / sec)
            && (forall id | 0 <= id < |r.output| :: r.output[id].bps == ArrivedAt(evs, Output, id) / sec)
  {
    ReadRun(s, evs, lazy);
    hide Step, Reads, Runs, Starved, Satisfied, SecondsSince, ArrivedAt;
    VerdictOf(s, evs, After(s, evs, lazy), at, lazy);
    RatesOf(s, evs, After(s, evs, lazy), at, lazy);
  }

  /** The i-th event is a tick that found too little, and the run did not start anew afterwards. */
  predicate QuitsAt(s: Stream, evs: seq<Event>, lazy: bool, i: nat) {
    && i < |evs| && evs[i].TickBegin? && Starved(s, evs[..i], evs[i].at, lazy)
    && forall j | i < j < |evs| :: !evs[j].StartRun?
  }

  lemma QuitsAtSnoc(s: Stream, evs: seq<Event>, lazy: bool)
    requires evs != []
    ensures (exists i: nat :: QuitsAt(s, evs, lazy, i)) <==>
            (Last(evs).TickBegin? && Starved(s, Front(evs), Last(evs).at, lazy))
            || (!Last(evs).StartRun? && exists i: nat :: QuitsAt(s, Front(evs), lazy, i))
  {
    hide Starved;
    var n := |evs| - 1;
    if i: nat :| QuitsAt(s, evs, lazy, i) {
      if i < n {
        assert evs[..i] == Front(evs)[..i] && Front(evs)[i] == evs[i];
        assert QuitsAt(s, Front(evs), lazy, i);
      }
    }
    if Last(evs).TickBegin? && Starved(s, Front(evs), Last(evs).at, lazy) {
      assert QuitsAt(s, evs, lazy, n);
    }
    if !Last(evs).StartRun? && exists i: nat :: QuitsAt(s, Front(evs), lazy, i) {
      var i: nat :| QuitsAt(s, Front(evs), lazy, i);
      assert evs[..i] == Front(evs)[..i] && Front(evs)[i] == evs[i];
      assert forall j | i < j < n :: evs[j] == Front(evs)[j];
      assert QuitsAt(s, evs, lazy, i);
    }
  }

  lemma QuitOfStep(m: Stream, e: Event, lazy: bool)
    requires Valid(m) && Enabled(m, e) && !e.TickBegin?
    ensures Step(m, e, lazy).quit <==> m.quit && !e.StartRun?
  {
  }

  lemma NoQuitAtStart(s: Stream, evs: seq<Event>, lazy: bool, i: nat)
    requires |evs| == 1 && evs[0].StartRun?
    ensures !QuitsAt(s, evs, lazy, i)
  {
  }

  /** A run asks to quit exactly when one of its ticks, since it last started, found a period over that brought too
      little. */
  lemma {:induction false} QuitIff(s: Stream, evs: seq<Event>, lazy: bool)
    requires FromStart(s, evs, lazy)
    ensures After(s, evs, lazy).quit <==> exists i: nat :: QuitsAt(s, evs, lazy, i)
    decreases |evs|
  {
    hide Step, QuitsAt, Starved, Satisfied, Valid;
    RunsSnoc(s, evs, lazy);
    var m, e := After(s, Front(evs), lazy), Last(evs);
    if |evs| == 1 {
      QuitOfStep(m, e, lazy);
      forall i: nat ensures !QuitsAt(s, evs, lazy, i) {
        NoQuitAtStart(s, evs, lazy, i);
      }
    } else {
      assert Front(evs)[0] == evs[0];
      QuitIff(s, Front(evs), lazy);
      QuitsAtSnoc(s, evs, lazy);
      if e.TickBegin? {
        TickVerdict(s, Front(evs), e.at, lazy);
      } else {
        QuitOfStep(m, e, lazy);
      }
    }
  }

  /** A stream that brings 245760 bytes each way in every period is left running for ever. */
  lemma HealthyNeverQuits(s: Stream, evs: seq<Event>, lazy: bool)
    requires FromStart(s, evs, lazy)
    requires forall i | 0 <= i < |evs| && evs[i].TickBegin? && SecondsSince(s.startTime, evs[..i], evs[i].at) > 60 ::
               Arrived(evs[..i], Input, |s.input|) >= 245760 && Arrived(evs[..i], Output, |s.output|) >= 245760
    ensures !After(s, evs, lazy).quit
  {
    QuitIff(s, evs, lazy);
    hide SecondsSince, Arrived;
  }
}
