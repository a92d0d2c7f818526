/** The counters as objects, and the timer tick that works on them. */
module BaseStreams {
  import opened Watchdog

  class ChannelStats {
    const id: nat
    var totalBytes: nat
    var prevTotalBytes: nat
    var bytesPerSecond: nat

    function Abs(): Channel
      reads this
    {
      Channel(totalBytes, prevTotalBytes, bytesPerSecond)
    }

    constructor (id: nat)
      ensures this.id == id && Abs() == Channel(0, 0, 0)
    {
      this.id := id;
      totalBytes, prevTotalBytes, bytesPerSecond := 0, 0, 0;
    }

    method SetTotalBytes(bytes: nat)
      modifies this
      ensures Abs() == old(Abs()).(total := bytes)
    {
      totalBytes := bytes;
    }

    method GetDiffTotalBytes() returns (diff: nat)
      requires Sound(Abs())
      ensures diff == Diff(Abs())
    {
      diff := totalBytes - prevTotalBytes;
    }

    method UpdateBps(sec: nat)
      requires Sound(Abs())
      modifies this
      ensures Abs() == WithBps(old(Abs()), sec)
    {
      if sec == 0 {
        return;
      }
      var diff := GetDiffTotalBytes();
      bytesPerSecond := diff / sec;
    }

    method UpdateCheckPoint()
      modifies this
      ensures Abs() == Checkpoint(old(Abs()))
    {
      prevTotalBytes := totalBytes;
    }
  }

  predicate Distinct(cs: seq<ChannelStats>) {
    forall i, j | 0 <= i < j < |cs| :: cs[i] != cs[j]
  }

  predicate Disjoint(a: seq<ChannelStats>, b: seq<ChannelStats>) {
    forall i, j | 0 <= i < |a| && 0 <= j < |b| :: a[i] != b[j]
  }

  function ChannelsOf(cs: seq<ChannelStats>): (r: seq<Channel>)
    reads cs
    ensures |r| == |cs|
  {
    if cs == [] then [] else ChannelsOf(cs[..|cs| - 1]) + [cs[|cs| - 1].Abs()]
  }

  lemma {:induction false} ChannelsAt(cs: seq<ChannelStats>)
    ensures forall i | 0 <= i < |cs| :: ChannelsOf(cs)[i] == cs[i].Abs()
  {
    if cs != [] {
      ChannelsAt(cs[..|cs| - 1]);
    }
  }

  /** Counters nobody wrote to read as before. */
  twostate lemma {:induction false} Untouched(cs: seq<ChannelStats>)
    requires forall i | 0 <= i < |cs| :: unchanged(cs[i])
    ensures ChannelsOf(cs) == old(ChannelsOf(cs))
  {
    if cs != [] {
      Untouched(cs[..|cs| - 1]);
      assert cs[|cs| - 1].Abs() == old(cs[|cs| - 1].Abs());
    }
  }

  /** make_inputs and make_outputs: a fresh counter for each configured channel, with its id. */
  method MakeChannels(ids: seq<nat>) returns (cs: seq<ChannelStats>)
    ensures |cs| == |ids| && Distinct(cs) && fresh(cs) && AllSound(ChannelsOf(cs))
    ensures forall i | 0 <= i < |ids| :: cs[i].id == ids[i] && cs[i].Abs() == Channel(0, 0, 0)
  {
    cs := [];
    hide ChannelsOf;
    for i := 0 to |ids|
      invariant |cs| == i && Distinct(cs) && fresh(cs)
      invariant forall j | 0 <= j < i :: cs[j].id == ids[j] && cs[j].Abs() == Channel(0, 0, 0)
    {
      var c := new ChannelStats(ids[i]);
      cs := cs + [c];
    }
    ChannelsAt(cs);
  }

  /** The loop of StreamStruct::ResetDataWait over one vector. */
  method UpdateCheckPoints(cs: seq<ChannelStats>)
    requires Distinct(cs)
    modifies cs
    ensures ChannelsOf(cs) == Checkpoints(old(ChannelsOf(cs)))
  {
    hide ChannelsOf;
    ChannelsAt(cs);
    ghost var was := ChannelsOf(cs);
    for i := 0 to |cs|
      invariant forall j | 0 <= j < i :: cs[j].Abs() == Checkpoint(was[j])
      invariant forall j | i <= j < |cs| :: cs[j].Abs() == was[j]
    {
      cs[i].UpdateCheckPoint();
    }
    ChannelsAt(cs);
  }

  lemma SumStep(cs: seq<Channel>, i: nat)
    requires AllSound(cs) && i < |cs|
    ensures SumDiff(cs[..i + 1]) == SumDiff(cs[..i]) + Diff(cs[i])
  {
    assert cs[..i + 1][..i] == cs[..i];
  }

  /** The tick's loop over one vector: the rates are refreshed and the differences added up. */
  method CollectDiffs(cs: seq<ChannelStats>, sec: nat) returns (total: nat)
    requires Distinct(cs) && AllSound(ChannelsOf(cs))
    modifies cs
    ensures ChannelsOf(cs) == BpsOf(old(ChannelsOf(cs)), sec)
    ensures total == SumDiff(old(ChannelsOf(cs)))
  {
    hide ChannelsOf;
    ChannelsAt(cs);
    ghost var was := ChannelsOf(cs);
    total := 0;
    for i := 0 to |cs|
      invariant forall j | 0 <= j < i :: cs[j].Abs() == WithBps(was[j], sec)
      invariant forall j | i <= j < |cs| :: cs[j].Abs() == was[j]
      invariant total == SumDiff(was[..i])
    {
      var diff := cs[i].GetDiffTotalBytes();
      cs[i].UpdateBps(sec);
      total := total + diff;
      SumStep(was, i);
    }
    assert was[..|was|] == was;
    ChannelsAt(cs);
  }

  /** The bytes of a buffer go to the channel of its id, if there is one. */
  method AddBytes(cs: seq<ChannelStats>, id: nat, size: nat)
    requires Distinct(cs)
    modifies cs
    ensures ChannelsOf(cs) == Credit(old(ChannelsOf(cs)), id, size)
  {
    hide ChannelsOf;
    ChannelsAt(cs);
    if id < |cs| {
      cs[id].SetTotalBytes(cs[id].totalBytes + size);
    }
    ChannelsAt(cs);
    assert ChannelsOf(cs) == Credit(old(ChannelsOf(cs)), id, size);
  }

  lemma ResetKeepsValid(s: Stream, at: nat)
    requires AllSound(s.input) && AllSound(s.output) && s.startTime <= at
    ensures Valid(ResetDataWait(s, at))
  {
  }

  lemma TickIs(s: Stream, at: nat, lazy: bool)
    requires Valid(s) && Enabled(s, TickBegin(at))
    ensures AllSound(s.input) && AllSound(s.output) && DiffSec(s, at) >= 1
    ensures Step(s, TickBegin(at), lazy) == BeginTick(s, at, lazy) && Valid(BeginTick(s, at, lazy))
  {
    DivisorPositive(s, at);
    assert Valid(Step(s, TickBegin(at), lazy));
  }

  datatype Scheme = Rtmp | Udp | Tcp | Http | Srt | OtherScheme

  predicate IsLazy(output: seq<Scheme>) {
    Srt in output || Udp in output
  }

  /** One pass of a stream's life; input and output are the vectors of the shared statistics. */
  class BaseStream {
    const outputs: seq<Scheme>
    const input: seq<ChannelStats>
    const output: seq<ChannelStats>
    const startTime: nat
    var noDataPanicTick: int
    var quit: bool
    // the virtual clock and when it was read
    var now: nat
    ghost var checkpointAt: nat
    ghost var tickAt: nat
    // set between the two halves of a tick
    var resetDue: bool

    ghost function Abs(): Stream
      reads this, input, output
    {
      Stream(startTime, now, noDataPanicTick, ChannelsOf(input), ChannelsOf(output), checkpointAt, tickAt, resetDue, quit)
    }

    ghost predicate Ready()
      reads this, input, output
    {
      && Distinct(input) && Distinct(output) && Disjoint(input, output)
      && Valid(Abs())
    }

    /** The stream object and the checkpoint its Exec sets; the statistics live on from earlier runs. */
    constructor (outputs: seq<Scheme>, input: seq<ChannelStats>, output: seq<ChannelStats>, startTime: nat, now: nat)
      requires Distinct(input) && Distinct(output) && Disjoint(input, output)
      requires AllSound(ChannelsOf(input)) && AllSound(ChannelsOf(output)) && startTime <= now
      modifies input, output
      ensures Ready() && this.input == input && this.output == output && this.outputs == outputs
      ensures Abs() == ResetDataWait(Stream(startTime, now, 0, old(ChannelsOf(input)), old(ChannelsOf(output)), now, now,
                                            false, false), now)
    {
      this.outputs, this.input, this.output, this.startTime := outputs, input, output, startTime;
      noDataPanicTick, quit, this.now, resetDue := 0, false, now, false;
      checkpointAt, tickAt := now, now;
      new;
      hide ChannelsOf, Distinct, Disjoint, Checkpoints, Valid;
      ResetKeepsValid(Abs(), now);
      MoveCheckPoints();
      var upTime := GetElapsedTime(now);
      hide Elapsed;
      noDataPanicTick := upTime + NO_DATA_PANIC_SEC;
    }

    /** GetElipsedTime. */
    function GetElapsedTime(at: nat): (sec: int)
      reads this, input, output
      ensures sec == Elapsed(Abs(), at)
    {
      (at - startTime) / 1000
    }

    /** StreamStruct::ResetDataWait. */
    method MoveCheckPoints()
      requires Distinct(input) && Distinct(output) && Disjoint(input, output)
      modifies input, output
      ensures Abs() == old(Abs()).(input := Checkpoints(old(ChannelsOf(input))),
                                   output := Checkpoints(old(ChannelsOf(output))))
    {
      hide ChannelsOf, Distinct, Checkpoints;
      UpdateCheckPoints(input);
      Untouched(output);
      label half:
      UpdateCheckPoints(output);
      Untouched@half(input);
    }

    method CollectBoth(sec: nat) returns (inTotal: nat, outTotal: nat)
      requires Distinct(input) && Distinct(output) && Disjoint(input, output)
      requires AllSound(ChannelsOf(input)) && AllSound(ChannelsOf(output))
      modifies input, output
      ensures Abs() == old(Abs()).(input := BpsOf(old(ChannelsOf(input)), sec), output := BpsOf(old(ChannelsOf(output)), sec))
      ensures inTotal == SumDiff(old(ChannelsOf(input))) && outTotal == SumDiff(old(ChannelsOf(output)))
    {
      hide ChannelsOf, Distinct, BpsOf, SumDiff, AllSound;
      inTotal := CollectDiffs(input, sec);
      Untouched(output);
      label half:
      outTotal := CollectDiffs(output, sec);
      Untouched@half(input);
    }

    method ResetData(at: nat)
      requires Ready() && now <= at
      modifies this, input, output
      ensures Ready() && Abs() == ResetDataWait(old(Abs()), at)
    {
      hide ChannelsOf, Distinct, Disjoint, Checkpoints;
      ResetKeepsValid(Abs(), at);
      hide Valid;
      MoveCheckPoints();
      var upTime := GetElapsedTime(at);
      hide Elapsed;
      noDataPanicTick := upTime + NO_DATA_PANIC_SEC;
      now, resetDue, checkpointAt, tickAt := at, false, at, at;
    }

    /** A pad probe saw a buffer. */
    method UpdateInputProbeStats(id: nat, size: nat)
      requires Ready()
      modifies input
      ensures Ready() && Abs() == old(Abs()).(input := Credit(old(ChannelsOf(input)), id, size))
    {
      hide ChannelsOf, Distinct, Credit;
      AddBytes(input, id, size);
      Untouched(output);
    }

    method UpdateOutputProbeStats(id: nat, size: nat)
      requires Ready()
      modifies output
      ensures Ready() && Abs() == old(Abs()).(output := Credit(old(ChannelsOf(output)), id, size))
    {
      hide ChannelsOf, Distinct, Credit;
      AddBytes(output, id, size);
      Untouched(input);
    }

    method OnOutputDataFailed()
      modifies this`quit
      ensures quit == (old(quit) || !IsLazy(outputs))
    {
      var isLazyStreams := false;
      for i := 0 to |outputs|
        invariant !isLazyStreams && !IsLazy(outputs[..i])
      {
        if outputs[i] == Srt || outputs[i] == Udp {
          isLazyStreams := true;
          break;
        }
        assert outputs[..i + 1] == outputs[..i] + [outputs[i]];
      }
      assert outputs[..|outputs|] == outputs;
      if !isLazyStreams {
        quit := true;
      }
    }

    /** The verdict on a period, if it is over. */
    method Judge(at: nat, late: bool, diffInTotal: nat, diffOutTotal: nat)
      modifies this`quit, this`resetDue, this`now, this`tickAt
      ensures Abs() == Verdict(old(Abs()), at, late, diffInTotal < MIN_DATA, diffOutTotal < MIN_DATA, IsLazy(outputs))
    {
      hide ChannelsOf, IsLazy;
      ghost var ins, outs := ChannelsOf(input), ChannelsOf(output);
      if late {
        if diffInTotal < MIN_DATA {
          quit := true;
        }
        if diffOutTotal < MIN_DATA {
          OnOutputDataFailed();
        } else {
          resetDue := true;
        }
      }
      now, tickAt := at, at;
      assert ChannelsOf(input) == ins && ChannelsOf(output) == outs;
    }

    /** HandleMainTimerTick up to the reaction to its verdict. */
    method BeginTick(at: nat)
      requires Ready() && !resetDue && now <= at
      modifies this, input, output
      ensures Ready() && Abs() == Step(old(Abs()), TickBegin(at), IsLazy(outputs))
    {
      hide ChannelsOf, Distinct, Disjoint, BpsOf, SumDiff, AllSound, Step, IsLazy;
      ghost var was := Abs();
      TickIs(was, at, IsLazy(outputs));
      hide Valid, Verdict;
      var upTime := GetElapsedTime(at);
      hide Elapsed;
      var diff := NO_DATA_PANIC_SEC - noDataPanicTick + upTime + 1;
      var diffInTotal, diffOutTotal := CollectBoth(diff);
      Judge(at, upTime > noDataPanicTick, diffInTotal, diffOutTotal);
    }

    /** The whole tick; enough output data moves the checkpoint, by a later reading of the clock. */
    method HandleMainTimerTick(at: nat, later: nat)
      requires Ready() && !resetDue && now <= at <= later
      modifies this, input, output
      ensures Ready() && !resetDue
      ensures var judged := Step(old(Abs()), TickBegin(at), IsLazy(outputs));
              Abs() == if judged.resetDue then Step(judged, TickReset(later), IsLazy(outputs)) else judged
      ensures quit <==> old(quit) || AsksToQuit(old(Abs()), outputs, at)
    {
      TickQuits(Abs(), outputs, at, later);
      ghost var judged := Step(Abs(), TickBegin(at), IsLazy(outputs));
      TickSetsClock(Abs(), at, IsLazy(outputs));
      hide ChannelsOf, Watchdog.BeginTick, Valid, AllSound, BpsOf, AsksToQuit;
      BeginTick(at);
      if resetDue {
        ResetIsStep(judged, later, IsLazy(outputs));
        hide Step, ResetDataWait;
        ResetData(later);
      }
    }
  }

  /** More than a minute without enough data, in or out of outputs that can be measured. */
  predicate AsksToQuit(s: Stream, outputs: seq<Scheme>, at: nat)
    requires AllSound(s.input) && AllSound(s.output)
  {
    && (at - s.startTime) / 1000 > s.panicTick
    && (SumDiff(s.input) < 245760 || (SumDiff(s.output) < 245760 && Udp !in outputs && Srt !in outputs))
  }

  lemma TickQuits(s: Stream, outputs: seq<Scheme>, at: nat, later: nat)
    requires Valid(s) && Enabled(s, TickBegin(at)) && at <= later
    ensures var judged := Step(s, TickBegin(at), IsLazy(outputs));
            && (judged.quit <==> s.quit || AsksToQuit(s, outputs, at))
            && (judged.resetDue ==> Step(judged, TickReset(later), IsLazy(outputs)).quit == judged.quit)
  {
    hide SumDiff, BpsOf;
  }

  lemma TickSetsClock(s: Stream, at: nat, lazy: bool)
    requires Valid(s) && Enabled(s, TickBegin(at))
    ensures Step(s, TickBegin(at), lazy).now == at
  {
  }

  lemma ResetIsStep(s: Stream, at: nat, lazy: bool)
    requires Valid(s) && s.resetDue && s.now <= at
    ensures Step(s, TickReset(at), lazy) == ResetDataWait(s, at) && !ResetDataWait(s, at).resetDue
  {
  }
}
