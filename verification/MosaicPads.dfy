/** The links a running mosaic pipeline gains as its decoders show their pads. */
module MosaicPads {
  import opened Wrappers
  import opened Decimal
  import opened Elements
  import opened Mosaic
  import opened MosaicBuilder

  // Nothing in the built graph feeds the queues behind the decoders

  predicate IsQueue(e: Element) {
    e.stem == UdbVideo || e.stem == UdbAudio
  }

  predicate QueuesFree(links: set<Link>) {
    forall l | l in links :: !IsQueue(l.1)
  }

  lemma {:induction false} ChainQueuesFree(c: Chain)
    requires c != [] && forall e | e in c[1..] :: !IsQueue(e)
    ensures QueuesFree(Pairs(c))
  {
    if |c| > 1 {
      assert c[1] == c[1..][0];
      forall e | e in c[1..][1..] ensures !IsQueue(e) {
        assert e in c[1..];
      }
      ChainQueuesFree(c[1..]);
    }
  }

  lemma WholeChainFree(c: Chain)
    requires c != [] && forall e | e in c :: !IsQueue(e)
    ensures QueuesFree(Pairs(c))
  {
    hide IsQueue;
    forall e | e in c[1..] ensures !IsQueue(e) {
      assert e in c;
    }
    ChainQueuesFree(c);
  }

  lemma InputChainsFree(cfg: Config, i: nat, c: Chain)
    requires c in InputChains(cfg, i)
    ensures QueuesFree(Pairs(c))
  {
    hide Pairs, QueuesFree;
    ChainQueuesFree(c);
  }

  lemma TrunksFree(cfg: Config)
    ensures QueuesFree(Pairs(VideoTrunk(cfg))) && QueuesFree(Pairs(AudioTrunk(cfg)))
  {
    hide Pairs, QueuesFree;
    WholeChainFree(VideoTrunk(cfg));
    WholeChainFree(AudioTrunk(cfg));
  }

  lemma WithinIsFree(c: Chain, tee: Element, part: Part, i: nat)
    requires Within(c, tee, part, i) && !IsQueue(tee) && part != InputPart
    ensures forall e | e in c :: !IsQueue(e)
  {
  }

  lemma BranchesFree(cfg: Config, o: Output, i: nat)
    ensures QueuesFree(Pairs(VideoBranch(cfg, o, i))) && QueuesFree(Pairs(AudioBranch(cfg, o, i)))
  {
    hide VideoBranch, AudioBranch, Pairs, QueuesFree, Within;
    VideoBranchElements(cfg, o, i);
    AudioBranchElements(cfg, o, i);
    BranchEnds(cfg, o, i);
    WithinIsFree(VideoBranch(cfg, o, i), VTEE, VideoOutPart, i);
    WithinIsFree(AudioBranch(cfg, o, i), ATEE, AudioOutPart, i);
    hide IsQueue;
    WholeChainFree(VideoBranch(cfg, o, i));
    WholeChainFree(AudioBranch(cfg, o, i));
  }

  lemma OutputChainsFree(cfg: Config, i: nat, c: Chain)
    requires i < |cfg.outputs| && c in OutputChains(cfg, i)
    ensures QueuesFree(Pairs(c))
  {
    BranchesFree(cfg, cfg.outputs[i], i);
    hide VideoBranch, AudioBranch, Pairs, QueuesFree;
    OutputChainIs(cfg, i, c);
    hide OutputChains;
    if c == [Element(Muxer, i), Element(Sink, i)] {
      WholeChainFree(c);
    }
  }

  lemma {:induction false} AddChainsFree(g: Graph, cs: seq<Chain>)
    requires QueuesFree(g.links) && forall c | c in cs :: QueuesFree(Pairs(c))
    ensures QueuesFree(AddChains(g, cs).links)
    decreases cs
  {
    hide Pairs;
    if cs != [] {
      assert cs[0] in cs;
      AddChainsFree(AddChain(g, cs[0]), cs[1..]);
    }
  }

  lemma {:induction false} InputGraphFree(cfg: Config, n: nat)
    ensures QueuesFree(InputGraph(cfg, n).links)
  {
    hide Pairs, InputChains;
    if n > 0 {
      InputGraphFree(cfg, n - 1);
      forall c | c in InputChains(cfg, n - 1) ensures QueuesFree(Pairs(c)) {
        InputChainsFree(cfg, n - 1, c);
      }
      AddChainsFree(InputGraph(cfg, n - 1), InputChains(cfg, n - 1));
    }
  }

  lemma {:induction false} OutputGraphFree(cfg: Config, n: nat)
    requires n <= |cfg.outputs|
    ensures QueuesFree(OutputGraph(cfg, n).links)
  {
    hide Pairs, OutputChains, VideoTrunk, AudioTrunk, InputGraph;
    if n == 0 {
      InputGraphFree(cfg, cfg.inputs);
      TrunksFree(cfg);
      AddChainsFree(InputGraph(cfg, cfg.inputs), (if cfg.haveVideo then [VideoTrunk(cfg)] else [])
                                                 + (if cfg.haveAudio then [AudioTrunk(cfg)] else []));
    } else {
      OutputGraphFree(cfg, n - 1);
      forall c | c in OutputChains(cfg, n - 1) ensures QueuesFree(Pairs(c)) {
        OutputChainsFree(cfg, n - 1, c);
      }
      AddChainsFree(OutputGraph(cfg, n - 1), OutputChains(cfg, n - 1));
    }
  }

  // Decoders and queues are in the graph

  predicate Carries(cfg: Config, video: bool) {
    if video then cfg.haveVideo else cfg.haveAudio
  }

  function QueueOf(i: nat, video: bool): Element {
    Element(if video then UdbVideo else UdbAudio, i)
  }

  lemma {:induction false} InputGraphHas(cfg: Config, n: nat, i: nat, video: bool)
    requires i < n
    ensures Element(Decodebin, i) in InputGraph(cfg, n).elements
    ensures Carries(cfg, video) ==> QueueOf(i, video) in InputGraph(cfg, n).elements
  {
    AddChainsMembers(InputGraph(cfg, n - 1), InputChains(cfg, n - 1));
    if i == n - 1 {
      ChainsHave(cfg, i, video);
    } else {
      InputGraphHas(cfg, n - 1, i, video);
    }
    hide InputChains, AddChains;
  }

  lemma ChainsHave(cfg: Config, i: nat, video: bool)
    ensures exists c | c in InputChains(cfg, i) :: Element(Decodebin, i) in c
    ensures Carries(cfg, video) ==> exists c | c in InputChains(cfg, i) :: QueueOf(i, video) in c
  {
    var head := [Element(Src, i), Element(Decodebin, i)];
    assert InputChains(cfg, i)[0] == head && head[1] == Element(Decodebin, i);
    assert head in InputChains(cfg, i) && Element(Decodebin, i) in head;
    if Carries(cfg, video) {
      var k := if video then 1 else |InputChains(cfg, i)| - 1;
      assert InputChains(cfg, i)[k][0] == QueueOf(i, video) && InputChains(cfg, i)[k] in InputChains(cfg, i);
    }
  }

  lemma {:induction false} OutputGraphKeeps(cfg: Config, n: nat)
    requires n <= |cfg.outputs|
    ensures InputGraph(cfg, cfg.inputs).elements <= OutputGraph(cfg, n).elements
  {
    hide OutputChains, InputGraph, VideoTrunk, AudioTrunk;
    if n == 0 {
      AddChainsMembers(InputGraph(cfg, cfg.inputs), (if cfg.haveVideo then [VideoTrunk(cfg)] else [])
                                                    + (if cfg.haveAudio then [AudioTrunk(cfg)] else []));
    } else {
      OutputGraphKeeps(cfg, n - 1);
      AddChainsMembers(OutputGraph(cfg, n - 1), OutputChains(cfg, n - 1));
    }
  }

  // Pads as they show up

  /** The decoder of an input shows a pad of video, or of audio. */
  datatype Pad = Pad(input: nat, video: bool)

  function PadLink(p: Pad): Link {
    (Element(Decodebin, p.input), QueueOf(p.input, p.video))
  }

  /** The links that are there after these pads. */
  function Shown(cfg: Config, pads: seq<Pad>): set<Link> {
    set k | 0 <= k < |pads| && Carries(cfg, pads[k].video) :: PadLink(pads[k])
  }

  lemma PadStep(cfg: Config, pads: seq<Pad>, p: Pad)
    requires p.input < cfg.inputs
    ensures var links := MosaicGraph(cfg).links + Shown(cfg, pads);
            var dest := Element(if p.video then UdbVideo else UdbAudio, p.input);
            var wanted := if p.video then cfg.haveVideo else cfg.haveAudio;
            links + (if wanted && dest in MosaicGraph(cfg).elements && (forall l | l in links :: l.1 != dest)
                     then {(Element(Decodebin, p.input), dest)} else {})
            == MosaicGraph(cfg).links + Shown(cfg, pads + [p])
  {
    var links, dest := MosaicGraph(cfg).links + Shown(cfg, pads), QueueOf(p.input, p.video);
    OutputGraphFree(cfg, |cfg.outputs|);
    OutputGraphKeeps(cfg, |cfg.outputs|);
    InputGraphHas(cfg, cfg.inputs, p.input, p.video);
    hide OutputGraph, InputGraph;
    ShownMore(cfg, pads, p);
    hide Shown;
    if exists l | l in links :: l.1 == dest {
      var l :| l in links && l.1 == dest;
      assert l !in MosaicGraph(cfg).links;
      ShownTo(cfg, pads, l);
    }
  }

  lemma ShownMore(cfg: Config, pads: seq<Pad>, p: Pad)
    ensures Shown(cfg, pads + [p]) == Shown(cfg, pads) + if Carries(cfg, p.video) then {PadLink(p)} else {}
  {
    var more := pads + [p];
    assert forall k | 0 <= k < |pads| :: more[k] == pads[k];
    assert more[|pads|] == p;
  }

  lemma ShownTo(cfg: Config, pads: seq<Pad>, l: Link)
    requires l in Shown(cfg, pads)
    ensures l.0 == Element(Decodebin, l.1.id)
  {
  }

  /** Every decoder has shown a pad of each medium the pipeline carries. */
  predicate AllPadsShown(cfg: Config, pads: seq<Pad>) {
    forall i | 0 <= i < cfg.inputs ::
      (cfg.haveVideo ==> Pad(i, true) in pads) && (cfg.haveAudio ==> Pad(i, false) in pads)
  }

  lemma ShownWithin(cfg: Config, pads: seq<Pad>)
    requires forall p | p in pads :: p.input < cfg.inputs
    ensures Shown(cfg, pads) <= PadLinks(cfg)
    ensures AllPadsShown(cfg, pads) ==> Shown(cfg, pads) == PadLinks(cfg)
  {
    forall l | l in Shown(cfg, pads) ensures l in PadLinks(cfg) {
      var k :| 0 <= k < |pads| && Carries(cfg, pads[k].video) && l == PadLink(pads[k]);
      assert pads[k] in pads;
    }
    if AllPadsShown(cfg, pads) {
      forall l | l in PadLinks(cfg) ensures l in Shown(cfg, pads) {
        var i := l.0.id;
        var p := Pad(i, l.1.stem == UdbVideo);
        assert p in pads && l == PadLink(p);
      }
    }
  }

  /** The handler, pad by pad: the pipeline gains exactly the links of the pads shown, in whatever order and however often
      they show up. */
  method ShowPads(builder: Builder, cfg: Config, pads: seq<Pad>)
    requires builder.Valid() && builder.Abs() == MosaicGraph(cfg) && cfg.inputs <= UINT64_LIMIT
    requires forall p | p in pads :: p.input < cfg.inputs
    modifies builder
    ensures builder.Valid()
    ensures builder.Abs() == Graph(MosaicGraph(cfg).elements, MosaicGraph(cfg).links + Shown(cfg, pads))
  {
    hide MosaicGraph, Shown, Members, Builder.Valid, Text, QueueOf, Carries, PadLink;
    NothingShown(cfg);
    for k := 0 to |pads|
      invariant builder.Valid()
      invariant builder.Abs() == Graph(MosaicGraph(cfg).elements, MosaicGraph(cfg).links + Shown(cfg, pads[..k]))
    {
      var p := pads[k];
      assert p in pads;
      DecoderIn(cfg, p.input, p.video);
      builder.HandleDecodeBinPadAdded(cfg, Element(Decodebin, p.input), p.video);
      PadStep(cfg, pads[..k], p);
      assert pads[..k] + [p] == pads[..k + 1];
    }
    assert pads[..|pads|] == pads;
  }

  lemma NothingShown(cfg: Config)
    ensures MosaicGraph(cfg).links + Shown(cfg, []) == MosaicGraph(cfg).links
  {
    hide MosaicGraph;
  }

  lemma DecoderIn(cfg: Config, i: nat, video: bool)
    requires i < cfg.inputs
    ensures Element(Decodebin, i) in MosaicGraph(cfg).elements
  {
    OutputGraphKeeps(cfg, |cfg.outputs|);
    InputGraphHas(cfg, cfg.inputs, i, video);
    hide OutputGraph, InputGraph;
  }

  /** A mosaic pipeline from its configuration to the pads shown so far: never a cycle, every sink fed by the mixers, and
      by every input once all pads are there. */
  method BuildAndRun(cfg: Config, pads: seq<Pad>) returns (builder: Builder, ok: bool)
    requires Supported(cfg) && forall p | p in pads :: p.input < cfg.inputs
    ensures builder.Valid() && (ok <==> cfg.inputs in {1, 2, 4, 9, 16})
    ensures ok ==> MosaicGraph(cfg).links <= builder.links <= AllLinks(cfg) && Acyclic(builder.links)
    ensures ok && AllPadsShown(cfg, pads) ==> builder.links == AllLinks(cfg)
  {
    hide MosaicGraph, Shown, PadLinks, Acyclic, AllPadsShown, MapOrder;
    builder := new Builder();
    ok := builder.InitPipeline(cfg);
    if ok {
      ShowPads(builder, cfg, pads);
      ShownWithin(cfg, pads);
      MosaicAcyclic(cfg);
      FewerLinksAcyclic(AllLinks(cfg), builder.links);
    }
  }

  lemma FewerLinksAcyclic(links: set<Link>, fewer: set<Link>)
    requires fewer <= links && Acyclic(links)
    ensures Acyclic(fewer)
  {
    hide Pairs;
    forall p | IsPath(fewer, p) && |p| > 1 ensures p[0] != p[|p| - 1] {
      assert IsPath(links, p);
    }
  }
}
