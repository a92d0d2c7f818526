/** The data watchdog of a running stream and the byte counters it reads. */
module Watchdog {
  const NO_DATA_PANIC_SEC: nat := 60
  const MIN_DATA: nat := 4 * 1024 * 60

  /** Byte counters of one channel: all bytes, and the bytes at the last checkpoint. */
  datatype Channel = Channel(total: nat, prev: nat, bps: nat)

  predicate Sound(c: Channel) {
    c.prev <= c.total
  }

  function Diff(c: Channel): nat
    requires Sound(c)
  {
    c.total - c.prev
  }

  function Checkpoint(c: Channel): Channel {
    c.(prev := c.total)
  }

  function WithBps(c: Channel, sec: nat): Channel
    requires Sound(c)
  {
    if sec == 0 then c else c.(bps := Diff(c) / sec)
  }

  /** Counters survive the run; the rest belongs to the run. Times in ms; resetDue is set while a tick that found enough
      data has not moved the checkpoint yet. */
  datatype Stream = Stream(startTime: nat, now: nat, panicTick: int, input: seq<Channel>, output: seq<Channel>,
                           checkpointAt: nat, tickAt: nat, resetDue: bool, quit: bool)

  datatype Event =
    | StartRun(at: nat)
    | InBuffer(id: nat, size: nat)
    | OutBuffer(id: nat, size: nat)
    | TickBegin(at: nat)
    | TickReset(at: nat)

  predicate AllSound(cs: seq<Channel>) {
    forall i | 0 <= i < |cs| :: Sound(cs[i])
  }

  predicate Valid(s: Stream) {
    && AllSound(s.input) && AllSound(s.output)
    && s.startTime <= s.checkpointAt <= s.now && s.checkpointAt <= s.tickAt <= s.now
    && s.panicTick == Elapsed(s, s.checkpointAt) + NO_DATA_PANIC_SEC
  }

  /** GetElipsedTime: whole seconds since the stream was created. */
  function Elapsed(s: Stream, at: nat): int {
    (at - s.startTime) / 1000
  }

  function Checkpoints(cs: seq<Channel>): (r: seq<Channel>)
    ensures |r| == |cs|
  {
    seq(|cs|, i requires 0 <= i < |cs| => Checkpoint(cs[i]))
  }

  function BpsOf(cs: seq<Channel>, sec: nat): (r: seq<Channel>)
    requires AllSound(cs)
    ensures |r| == |cs|
  {
    seq(|cs|, i requires 0 <= i < |cs| => WithBps(cs[i], sec))
  }

  function SumDiff(cs: seq<Channel>): nat
    requires AllSound(cs)
  {
    if cs == [] then 0 else SumDiff(cs[..|cs| - 1]) + Diff(cs[|cs| - 1])
  }

  function SumTotal(cs: seq<Channel>): nat {
    if cs == [] then 0 else SumTotal(cs[..|cs| - 1]) + cs[|cs| - 1].total
  }

  function SumPrev(cs: seq<Channel>): nat {
    if cs == [] then 0 else SumPrev(cs[..|cs| - 1]) + cs[|cs| - 1].prev
  }

  /** Bytes are credited only to a channel there is. */
  function Credit(cs: seq<Channel>, id: nat, size: nat): (r: seq<Channel>)
    ensures |r| == |cs| && (AllSound(cs) ==> AllSound(r))
  {
    if id < |cs| then cs[id := cs[id].(total := cs[id].total + size)] else cs
  }

  function ResetDataWait(s: Stream, at: nat): Stream {
    s.(panicTick := Elapsed(s, at) + NO_DATA_PANIC_SEC, input := Checkpoints(s.input), output := Checkpoints(s.output),
       checkpointAt := at, tickAt := at, now := at, resetDue := false)
  }

  /** The divisor of the rate computations. */
  function DiffSec(s: Stream, at: nat): int {
    NO_DATA_PANIC_SEC - s.panicTick + Elapsed(s, at) + 1
  }

  /** Up to the point where HandleMainTimerTick would move the checkpoint. */
  function BeginTick(s: Stream, at: nat, lazy: bool): Stream
    requires AllSound(s.input) && AllSound(s.output) && DiffSec(s, at) >= 0
  {
    Verdict(s.(input := BpsOf(s.input, DiffSec(s, at)), output := BpsOf(s.output, DiffSec(s, at))),
            at, Elapsed(s, at) > s.panicTick, SumDiff(s.input) < MIN_DATA, SumDiff(s.output) < MIN_DATA, lazy)
  }

  function Verdict(s: Stream, at: nat, late: bool, inFailed: bool, outFailed: bool, lazy: bool): Stream {
    s.(now := at, tickAt := at,
       quit := s.quit || (late && (inFailed || (outFailed && !lazy))),
       resetDue := s.resetDue || (late && !outFailed))
  }

  lemma DivMono(a: int, b: int)
    requires a <= b
    ensures a / 1000 <= b / 1000
  {
  }

  /** The divisor of the rates is never zero. */
  lemma DivisorPositive(s: Stream, at: nat)
    requires Valid(s) && s.now <= at
    ensures DiffSec(s, at) >= 1
  {
    DivMono(s.checkpointAt - s.startTime, at - s.startTime);
  }

  predicate Enabled(s: Stream, e: Event) {
    match e
    case StartRun(at) => s.now <= at
    case TickBegin(at) => s.now <= at && !s.resetDue
    case TickReset(at) => s.now <= at && s.resetDue
    case _ => true
  }

  function Step(s: Stream, e: Event, lazy: bool): (s': Stream)
    requires Valid(s) && Enabled(s, e)
    ensures Valid(s') && s'.startTime == s.startTime && |s'.input| == |s.input| && |s'.output| == |s.output|
  {
    match e
    case StartRun(at) => ResetDataWait(s, at).(quit := false)
    case InBuffer(id, size) => s.(input := Credit(s.input, id, size))
    case OutBuffer(id, size) => s.(output := Credit(s.output, id, size))
    case TickBegin(at) => DivisorPositive(s, at); BeginTick(s, at, lazy)
    case TickReset(at) => ResetDataWait(s, at)
  }

  /** A run: every event is enabled when it comes. */
  predicate Runs(s: Stream, evs: seq<Event>, lazy: bool)
    requires Valid(s)
    decreases evs
  {
    evs == [] || (Enabled(s, evs[0]) && Runs(Step(s, evs[0], lazy), evs[1..], lazy))
  }

  function After(s: Stream, evs: seq<Event>, lazy: bool): (r: Stream)
    requires Valid(s) && Runs(s, evs, lazy)
    ensures Valid(r) && r.startTime == s.startTime && |r.input| == |s.input| && |r.output| == |s.output|
    decreases evs
  {
    if evs == [] then s else After(Step(s, evs[0], lazy), evs[1..], lazy)
  }

  // Conservation of bytes

  datatype Side = Input | Output

  function Channels(s: Stream, side: Side): seq<Channel> {
    if side == Input then s.input else s.output
  }

  /** The bytes an event credits to a channel. */
  function CreditOf(e: Event, side: Side, id: nat): nat {
    match e
    case InBuffer(to, size) => if side == Input && to == id then size else 0
    case OutBuffer(to, size) => if side == Output && to == id then size else 0
    case _ => 0
  }

  function Credited(evs: seq<Event>, side: Side, id: nat): nat {
    if evs == [] then 0 else CreditOf(evs[0], side, id) + Credited(evs[1..], side, id)
  }

  predicate MovesCheckpoint(e: Event) {
    e.StartRun? || e.TickReset?
  }

  /** The differences of a channel taken at the checkpoints of a run. */
  function Taken(s: Stream, evs: seq<Event>, lazy: bool, side: Side, id: nat): nat
    requires Valid(s) && Runs(s, evs, lazy) && id < |Channels(s, side)|
    decreases evs
  {
    if evs == [] then 0
    else (if MovesCheckpoint(evs[0]) then Diff(Channels(s, side)[id]) else 0)
         + Taken(Step(s, evs[0], lazy), evs[1..], lazy, side, id)
  }

  lemma BytesOfStep(s: Stream, e: Event, lazy: bool, side: Side, id: nat)
    requires Valid(s) && Enabled(s, e) && id < |Channels(s, side)|
    ensures var c, c' := Channels(s, side)[id], Channels(Step(s, e, lazy), side)[id];
            && c'.total == c.total + CreditOf(e, side, id)
            && (if MovesCheckpoint(e) then Diff(c) else 0) + Diff(c') == Diff(c) + CreditOf(e, side, id)
  {
  }

  /** Through buffers, ticks, checkpoints and restarts no byte is lost or counted twice on any channel. */
  lemma {:induction false} BytesConserved(s: Stream, evs: seq<Event>, lazy: bool, side: Side, id: nat)
    requires Valid(s) && Runs(s, evs, lazy) && id < |Channels(s, side)|
    ensures var c, r := Channels(s, side)[id], Channels(After(s, evs, lazy), side)[id];
            && r.total == c.total + Credited(evs, side, id)
            && Taken(s, evs, lazy, side, id) + Diff(r) == Diff(c) + Credited(evs, side, id)
    decreases evs
  {
    hide BeginTick, ResetDataWait, Credit, CreditOf;
    if evs != [] {
      BytesOfStep(s, evs[0], lazy, side, id);
      BytesConserved(Step(s, evs[0], lazy), evs[1..], lazy, side, id);
    }
  }

  // The bounds of a run that has not asked to quit

  /** A tick is over: less than 61 seconds have passed since the last checkpoint. */
  predicate Recent(s: Stream) {
    s.resetDue || s.quit || s.tickAt - s.checkpointAt < 61000
  }

  lemma RecentStep(s: Stream, e: Event)
    requires Valid(s) && Enabled(s, e) && Recent(s)
    ensures Recent(Step(s, e, false))
  {
    if e.TickBegin? {
      var t := Step(s, e, false);
      if !t.quit && !t.resetDue {
        assert Elapsed(s, e.at) <= s.panicTick;
        SecondsApart(s.checkpointAt - s.startTime, e.at - s.startTime, 60);
      }
    }
  }

  lemma SecondsApart(a: int, b: int, k: int)
    requires b / 1000 <= a / 1000 + k
    ensures b - a < (k + 1) * 1000
  {
  }

  lemma {:induction false} CheckpointIsRecent(s: Stream, evs: seq<Event>)
    requires Valid(s) && Recent(s) && Runs(s, evs, false)
    ensures Recent(After(s, evs, false))
    decreases evs
  {
    if evs != [] {
      RecentStep(s, evs[0]);
      CheckpointIsRecent(Step(s, evs[0], false), evs[1..]);
    }
  }

  /** Every clock reading of a tick is at most g seconds after the last reading of the tick before. */
  predicate Paced(s: Stream, evs: seq<Event>, g: nat, last: int)
    requires Valid(s) && Runs(s, evs, false)
    decreases evs
  {
    evs == [] ||
    var e, s' := evs[0], Step(s, evs[0], false);
    && !e.StartRun?
    && ((e.TickBegin? || e.TickReset?) ==> Elapsed(s, e.at) <= last + g)
    && Paced(s', evs[1..], g, if s'.resetDue then last else Elapsed(s', s'.tickAt))
  }

  /** k checkpoints since the run began at second t0 with the given byte totals. */
  predicate Fed(s: Stream, g: nat, last: int, t0: int, in0: nat, out0: nat, k: nat)
    requires Valid(s)
  {
    && SumPrev(s.input) >= in0 + k * MIN_DATA && SumPrev(s.output) >= out0 + k * MIN_DATA
    && Elapsed(s, s.checkpointAt) <= t0 + k * (NO_DATA_PANIC_SEC + g)
    && last <= s.panicTick
    && (s.resetDue ==> SumDiff(s.input) >= MIN_DATA && SumDiff(s.output) >= MIN_DATA)
    && (!s.resetDue ==> last == Elapsed(s, s.tickAt))
  }

  lemma {:induction false} SumSplit(cs: seq<Channel>)
    requires AllSound(cs)
    ensures SumTotal(cs) == SumPrev(cs) + SumDiff(cs)
  {
    if cs != [] {
      SumSplit(cs[..|cs| - 1]);
    }
  }

  lemma {:induction false} SumOfCheckpoints(cs: seq<Channel>)
    ensures SumPrev(Checkpoints(cs)) == SumTotal(cs)
  {
    if cs != [] {
      var front := cs[..|cs| - 1];
      SumOfCheckpoints(front);
      assert Checkpoints(cs)[..|cs| - 1] == Checkpoints(front);
    }
  }

  lemma {:induction false} SumOfBps(cs: seq<Channel>, sec: nat)
    requires AllSound(cs)
    ensures AllSound(BpsOf(cs, sec))
    ensures SumPrev(BpsOf(cs, sec)) == SumPrev(cs) && SumDiff(BpsOf(cs, sec)) == SumDiff(cs)
  {
    if cs != [] {
      var front := cs[..|cs| - 1];
      SumOfBps(front, sec);
      assert BpsOf(cs, sec)[..|cs| - 1] == BpsOf(front, sec);
    }
  }

  lemma {:induction false} SumOfCredit(cs: seq<Channel>, id: nat, size: nat)
    requires AllSound(cs)
    ensures SumPrev(Credit(cs, id, size)) == SumPrev(cs) && SumDiff(Credit(cs, id, size)) >= SumDiff(cs)
  {
    if id < |cs| {
      var front, r := cs[..|cs| - 1], Credit(cs, id, size);
      SumOfCredit(front, id, size);
      assert r[..|cs| - 1] == Credit(front, id, size);
    }
  }

  lemma FedReset(s: Stream, at: nat, g: nat, last: int, t0: int, in0: nat, out0: nat, k: nat)
    requires Valid(s) && Enabled(s, TickReset(at)) && !s.quit && Fed(s, g, last, t0, in0, out0, k)
    requires Elapsed(s, at) <= last + g
    ensures var s' := Step(s, TickReset(at), false); Fed(s', g, Elapsed(s', s'.tickAt), t0, in0, out0, k + 1)
  {
    hide SumTotal, SumPrev, SumDiff;
    SumSplit(s.input);
    SumSplit(s.output);
    SumOfCheckpoints(s.input);
    SumOfCheckpoints(s.output);
    assert (k + 1) * MIN_DATA == k * MIN_DATA + MIN_DATA;
    assert (k + 1) * (NO_DATA_PANIC_SEC + g) == k * (NO_DATA_PANIC_SEC + g) + NO_DATA_PANIC_SEC + g;
  }

  lemma FedOther(s: Stream, e: Event, g: nat, last: int, t0: int, in0: nat, out0: nat, k: nat)
    requires Valid(s) && Enabled(s, e) && !MovesCheckpoint(e) && Fed(s, g, last, t0, in0, out0, k)
    requires e.TickBegin? ==> Elapsed(s, e.at) <= last + g
    ensures var s' := Step(s, e, false);
            !s'.quit ==> Fed(s', g, if s'.resetDue then last else Elapsed(s', s'.tickAt), t0, in0, out0, k)
  {
    hide SumTotal, SumPrev, SumDiff;
    match e
    case InBuffer(id, size) => SumOfCredit(s.input, id, size);
    case OutBuffer(id, size) => SumOfCredit(s.output, id, size);
    case TickBegin(at) =>
      DivisorPositive(s, at);
      SumOfBps(s.input, DiffSec(s, at));
      SumOfBps(s.output, DiffSec(s, at));
    case _ =>
  }

  lemma {:induction false} QuitStays(s: Stream, evs: seq<Event>, g: nat, last: int)
    requires Valid(s) && s.quit && Runs(s, evs, false) && Paced(s, evs, g, last)
    ensures After(s, evs, false).quit
    decreases evs
  {
    if evs != [] {
      var s' := Step(s, evs[0], false);
      QuitStays(s', evs[1..], g, if s'.resetDue then last else Elapsed(s', s'.tickAt));
    }
  }

  lemma {:induction false} FedRun(s: Stream, evs: seq<Event>, g: nat, last: int, t0: int, in0: nat, out0: nat, k: nat)
    returns (m: nat)
    requires Valid(s) && !s.quit && Runs(s, evs, false) && Paced(s, evs, g, last)
    requires Fed(s, g, last, t0, in0, out0, k)
    ensures var r := After(s, evs, false);
            !r.quit && !r.resetDue ==> Fed(r, g, Elapsed(r, r.tickAt), t0, in0, out0, m)
    decreases evs
  {
    hide Fed, BeginTick, ResetDataWait;
    m := k;
    if evs == [] {
      FedLast(s, g, last, t0, in0, out0, k);
    } else {
      var e := evs[0];
      var s' := Step(s, e, false);
      var last' := if s'.resetDue then last else Elapsed(s', s'.tickAt);
      if s'.quit {
        QuitStays(s', evs[1..], g, last');
      } else if e.TickReset? {
        FedReset(s, e.at, g, last, t0, in0, out0, k);
        ResetClears(s, e.at);
        m := FedRun(s', evs[1..], g, last', t0, in0, out0, k + 1);
      } else {
        FedOther(s, e, g, last, t0, in0, out0, k);
        m := FedRun(s', evs[1..], g, last', t0, in0, out0, k);
      }
    }
  }

  lemma FedLast(s: Stream, g: nat, last: int, t0: int, in0: nat, out0: nat, k: nat)
    requires Valid(s) && Fed(s, g, last, t0, in0, out0, k)
    ensures !s.resetDue ==> last == Elapsed(s, s.tickAt)
  {
  }

  lemma ResetClears(s: Stream, at: nat)
    ensures !ResetDataWait(s, at).resetDue
  {
  }

  /** A run whose checkpoint has just been set. */
  predicate JustStarted(s: Stream) {
    && Valid(s) && !s.quit && !s.resetDue && s.tickAt == s.checkpointAt
    && SumPrev(s.input) == SumTotal(s.input) && SumPrev(s.output) == SumTotal(s.output)
  }

  lemma StartRunJustStarts(s: Stream, at: nat, lazy: bool)
    requires Valid(s) && s.now <= at
    ensures JustStarted(Step(s, StartRun(at), lazy))
  {
    SumOfCheckpoints(s.input);
    SumOfCheckpoints(s.output);
    TotalsKept(s.input);
    TotalsKept(s.output);
  }

  lemma {:induction false} TotalsKept(cs: seq<Channel>)
    ensures SumTotal(Checkpoints(cs)) == SumTotal(cs)
  {
    if cs != [] {
      var front := cs[..|cs| - 1];
      TotalsKept(front);
      assert Checkpoints(cs)[..|cs| - 1] == Checkpoints(front);
    }
  }

  lemma WholePeriods(elapsed: int, k: nat, period: nat)
    requires period >= 1 && elapsed < (k + 1) * period
    ensures elapsed / period <= k
  {
    var q := elapsed / period;
    assert q * period + elapsed % period == elapsed;
    MulLess(q, k + 1, period);
  }

  lemma MulLess(a: int, b: int, c: nat)
    requires a * c < b * c
    ensures a < b
  {
    assert a >= b ==> (a - b) * c >= 0;
    assert (a - b) * c == a * c - b * c;
  }

  lemma FedStart(s: Stream, g: nat)
    requires JustStarted(s)
    ensures var t0 := Elapsed(s, s.tickAt); Fed(s, g, t0, t0, SumTotal(s.input), SumTotal(s.output), 0)
  {
    hide SumTotal, SumPrev, SumDiff;
  }

  lemma FedTotals(r: Stream, g: nat, t0: int, in0: nat, out0: nat, k: nat)
    requires Valid(r) && g >= 1 && !r.resetDue && Fed(r, g, Elapsed(r, r.tickAt), t0, in0, out0, k)
    ensures var periods := (Elapsed(r, r.tickAt) - t0) / (NO_DATA_PANIC_SEC + g);
            SumTotal(r.input) - in0 >= MIN_DATA * periods && SumTotal(r.output) - out0 >= MIN_DATA * periods
  {
    hide SumTotal, SumPrev, SumDiff;
    SumSplit(r.input);
    SumSplit(r.output);
    var period := NO_DATA_PANIC_SEC + g;
    assert (k + 1) * period == k * period + period;
    WholePeriods(Elapsed(r, r.tickAt) - t0, k, period);
  }

  /** With ticks at most g seconds apart and no udp or srt output, a run that has not asked to quit T seconds after its
      start has received and sent at least 245760 bytes for each whole period of 60 + g seconds. */
  lemma Throughput(s: Stream, evs: seq<Event>, g: nat)
    requires JustStarted(s) && g >= 1 && Runs(s, evs, false) && Paced(s, evs, g, Elapsed(s, s.tickAt))
    ensures var r := After(s, evs, false);
            var periods := (Elapsed(r, r.tickAt) - Elapsed(s, s.tickAt)) / (NO_DATA_PANIC_SEC + g);
            !r.quit && !r.resetDue ==>
              && SumTotal(r.input) - SumTotal(s.input) >= MIN_DATA * periods
              && SumTotal(r.output) - SumTotal(s.output) >= MIN_DATA * periods
  {
    hide Runs, After, Paced, Fed, SumTotal, SumPrev, SumDiff, Valid, AllSound;
    var t0, in0, out0 := Elapsed(s, s.tickAt), SumTotal(s.input), SumTotal(s.output);
    FedStart(s, g);
    var k := FedRun(s, evs, g, t0, t0, in0, out0, 0);
    var r := After(s, evs, false);
    if !r.quit && !r.resetDue {
      FedTotals(r, g, t0, in0, out0, k);
    }
  }
}
