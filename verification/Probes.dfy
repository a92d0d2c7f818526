/** Pad probes: what the event callbacks remember, and how many streams have ended. */
module Probes {
  datatype PadEvent =
    | FLUSH_START | FLUSH_STOP | STREAM_START | CAPS | SEGMENT | EOS
    | SEEK(flush: bool)
    | OtherEvent(serialized: bool)

  predicate IsSerialized(e: PadEvent) {
    match e
    case FLUSH_START => false
    case SEEK(_) => false
    case OtherEvent(serialized) => serialized
    case _ => true
  }

  datatype Consistency = Consistency(segment: bool, eos: bool, expectFlush: bool, flushing: bool,
                                     sawStreamStart: bool, sawSerializedEvent: bool)

  const FRESH := Consistency(false, true, false, false, false, false)

  datatype Side = Input | Output

  function InputStep(c: Consistency, e: PadEvent): Consistency {
    var c := match e
      case FLUSH_START => c.(flushing := true)
      case FLUSH_STOP => c.(flushing := false, expectFlush := false)
      case STREAM_START => c.(sawStreamStart := true)
      case SEGMENT => c.(segment := true, eos := false)
      case EOS => c.(eos := true, segment := false)
      case _ => c;
    c.(sawSerializedEvent := c.sawSerializedEvent || IsSerialized(e))
  }

  function OutputStep(c: Consistency, e: PadEvent): Consistency {
    match e
    case SEEK(flush) => c.(expectFlush := flush)
    case SEGMENT => c.(segment := true, eos := false)
    case EOS => c.(eos := true, segment := false)
    case _ => c
  }

  function Step(side: Side, c: Consistency, e: PadEvent): Consistency {
    if side == Input then InputStep(c, e) else OutputStep(c, e)
  }

  /** What a probe remembers after a trace of events. */
  function After(side: Side, trace: seq<PadEvent>): Consistency {
    if trace == [] then FRESH else Step(side, After(side, trace[..|trace| - 1]), trace[|trace| - 1])
  }

  lemma AfterNext(side: Side, trace: seq<PadEvent>, e: PadEvent)
    ensures After(side, trace + [e]) == Step(side, After(side, trace), e)
  {
    assert (trace + [e])[..|trace|] == trace;
  }

  ghost predicate LatestAt(trace: seq<PadEvent>, on: PadEvent, off: PadEvent, i: int) {
    0 <= i < |trace| && trace[i] == on && forall j | i < j < |trace| :: trace[j] != off
  }

  /** Some event of the kind on came, and none of the kind off came later. */
  ghost predicate Latest(trace: seq<PadEvent>, on: PadEvent, off: PadEvent) {
    exists i :: LatestAt(trace, on, off, i)
  }

  lemma LatestStep(trace: seq<PadEvent>, on: PadEvent, off: PadEvent)
    requires trace != [] && on != off
    ensures var e := trace[|trace| - 1];
            Latest(trace, on, off) == (e == on || (e != off && Latest(trace[..|trace| - 1], on, off)))
  {
    var n := |trace| - 1;
    var front := trace[..n];
    if trace[n] == on {
      assert LatestAt(trace, on, off, n);
    } else if trace[n] != off {
      forall i ensures LatestAt(front, on, off, i) == LatestAt(trace, on, off, i) {
        assert forall j | 0 <= j < n :: front[j] == trace[j];
      }
    } else {
      forall i ensures !LatestAt(trace, on, off, i) {
      }
    }
  }

  /** A probe is at end of stream exactly while no segment followed the last EOS, and in a segment otherwise. */
  lemma {:induction false} EosIffNoLaterSegment(side: Side, trace: seq<PadEvent>)
    ensures After(side, trace).eos <==> !Latest(trace, SEGMENT, EOS)
    ensures After(side, trace).segment <==> !After(side, trace).eos
  {
    if trace != [] {
      EosIffNoLaterSegment(side, trace[..|trace| - 1]);
      LatestStep(trace, SEGMENT, EOS);
    }
  }

  /** Input probes track flushes; a seek is seen by output probes only, which never see the flush: the warning about a
      segment inside a flushing seek needs both and is never given. */
  lemma {:induction false} FlushingSeekNeverSeen(side: Side, trace: seq<PadEvent>)
    ensures !(After(side, trace).expectFlush && After(side, trace).flushing)
    ensures After(side, trace).flushing <==> side == Input && Latest(trace, FLUSH_START, FLUSH_STOP)
    ensures side == Input ==> !After(side, trace).expectFlush
  {
    if trace != [] {
      FlushingSeekNeverSeen(side, trace[..|trace| - 1]);
      LatestStep(trace, FLUSH_START, FLUSH_STOP);
    }
  }

  predicate Holds(trace: seq<PadEvent>, e: PadEvent) {
    e in trace
  }

  lemma HoldsStep(trace: seq<PadEvent>, e: PadEvent)
    requires trace != []
    ensures Holds(trace, e) <==> trace[|trace| - 1] == e || Holds(trace[..|trace| - 1], e)
  {
    assert trace == trace[..|trace| - 1] + [trace[|trace| - 1]];
  }

  lemma SerializedAre(e: PadEvent)
    ensures IsSerialized(e) <==>
            e == FLUSH_STOP || e == STREAM_START || e == CAPS || e == SEGMENT || e == EOS || e == OtherEvent(true)
  {
  }

  /** An input probe has seen a stream start exactly when there was one, and a serialized event exactly when there was the
      end of a flush, a stream start, caps, a segment, an end of stream or another event marked as serialized; an output
      probe minds neither, and expects a flush exactly when the last seek asked for one. */
  lemma {:induction false} FlagsOfEveryTrace(side: Side, trace: seq<PadEvent>)
    ensures After(side, trace).sawStreamStart <==> side == Input && Holds(trace, STREAM_START)
    ensures After(side, trace).sawSerializedEvent <==>
            side == Input && (Holds(trace, FLUSH_STOP) || Holds(trace, STREAM_START) || Holds(trace, CAPS)
                              || Holds(trace, SEGMENT) || Holds(trace, EOS) || Holds(trace, OtherEvent(true)))
    ensures After(side, trace).expectFlush <==> side == Output && Latest(trace, SEEK(true), SEEK(false))
  {
    if trace != [] {
      FlagsOfEveryTrace(side, trace[..|trace| - 1]);
      LatestStep(trace, SEEK(true), SEEK(false));
      SerializedAre(trace[|trace| - 1]);
      HoldsStep(trace, FLUSH_STOP);
      HoldsStep(trace, STREAM_START);
      HoldsStep(trace, CAPS);
      HoldsStep(trace, SEGMENT);
      HoldsStep(trace, EOS);
      HoldsStep(trace, OtherEvent(true));
      hide Latest, Holds;
    }
  }

  class Probe {
    const side: Side
    const id: nat
    var consistency: Consistency
    ghost var trace: seq<PadEvent>

    ghost predicate Valid()
      reads this
    {
      consistency == After(side, trace)
    }

    constructor (side: Side, id: nat)
      ensures Valid() && this.side == side && this.id == id && trace == []
    {
      this.side, this.id, consistency, trace := side, id, FRESH, [];
    }

    /** The event part of source_callback_probe_buffer and of sink_callback_probe_buffer. */
    method SawEvent(e: PadEvent)
      requires Valid()
      modifies this
      ensures Valid() && trace == old(trace) + [e]
    {
      AfterNext(side, trace, e);
      hide After;
      if side == Input {
        match e {
        case FLUSH_START => consistency := consistency.(flushing := true);
        case FLUSH_STOP => consistency := consistency.(flushing := false, expectFlush := false);
        case STREAM_START => consistency := consistency.(sawStreamStart := true);
        case SEGMENT => consistency := consistency.(segment := true, eos := false);
        case EOS => consistency := consistency.(eos := true, segment := false);
        case _ =>
        }
        if IsSerialized(e) {
          consistency := consistency.(sawSerializedEvent := true);
        }
      } else {
        match e {
        case SEEK(flush) => consistency := consistency.(expectFlush := flush);
        case SEGMENT => consistency := consistency.(segment := true, eos := false);
        case EOS => consistency := consistency.(eos := true, segment := false);
        case _ =>
        }
      }
      trace := trace + [e];
    }
  }

  /** Every probe of the id is at end of stream. */
  predicate AllEos(probes: seq<Probe>, id: nat)
    reads probes
  {
    forall i | 0 <= i < |probes| && probes[i].id == id :: probes[i].consistency.eos
  }

  function Ids(probes: seq<Probe>): set<nat>
    reads probes
  {
    set i | 0 <= i < |probes| :: probes[i].id
  }

  method CollectStatuses(probes: seq<Probe>) returns (statuses: map<nat, Consistency>)
    ensures statuses.Keys == Ids(probes)
    ensures forall id | id in statuses :: statuses[id].eos == AllEos(probes, id)
  {
    statuses := map[];
    for i := 0 to |probes|
      invariant statuses.Keys == set j | 0 <= j < i :: probes[j].id
      invariant forall id | id in statuses ::
                  statuses[id].eos == forall j | 0 <= j < i && probes[j].id == id :: probes[j].consistency.eos
    {
      var id, state := probes[i].id, probes[i].consistency;
      if id in statuses {
        statuses := statuses[id := statuses[id].(eos := statuses[id].eos && state.eos)];
      } else {
        statuses := statuses[id := state];
      }
    }
  }

  /** CountInputEOS and CountOutEOS: the number of distinct ids all of whose probes are at end of stream. */
  method CountEos(probes: seq<Probe>) returns (count: nat)
    ensures count == |set id | id in Ids(probes) && AllEos(probes, id)|
  {
    var statuses := CollectStatuses(probes);
    count := 0;
    var rest := statuses.Keys;
    ghost var counted: set<nat> := {};
    while rest != {}
      invariant rest <= statuses.Keys
      invariant forall id :: id in counted <==> id in statuses && id !in rest && statuses[id].eos
      invariant count == |counted|
      decreases rest
    {
      var id :| id in rest;
      if statuses[id].eos {
        count, counted := count + 1, counted + {id};
      }
      rest := rest - {id};
    }
    assert counted == set id | id in Ids(probes) && AllEos(probes, id);
  }
}
