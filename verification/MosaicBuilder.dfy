/** The builder that adds and links the elements of a mosaic pipeline. */
module MosaicBuilder {
  import opened Wrappers
  import opened Decimal
  import opened Names
  import opened Elements
  import opened Mosaic

  // Which elements a part of the graph can hold

  lemma InputChainElements(cfg: Config, i: nat, c: Chain, e: Element)
    requires c in InputChains(cfg, i) && e in c
    ensures e == VMIX || e == AMIX || (PartOf(e.stem) == InputPart && e.id == i)
  {
  }

  /** Only the mixers and the elements of the inputs before. */
  predicate OfInputs(e: Element, n: nat) {
    e == VMIX || e == AMIX || (PartOf(e.stem) == InputPart && e.id < n)
  }

  lemma {:induction false} InputElements(cfg: Config, n: nat)
    ensures forall e | e in InputGraph(cfg, n).elements :: OfInputs(e, n)
    ensures VMIX in InputGraph(cfg, n).elements && AMIX in InputGraph(cfg, n).elements
  {
    hide Pairs, InputChains, PartOf;
    if n > 0 {
      InputElements(cfg, n - 1);
      AddChainsMembers(InputGraph(cfg, n - 1), InputChains(cfg, n - 1));
      forall c, e | c in InputChains(cfg, n - 1) && e in c ensures OfInputs(e, n) {
        InputChainElements(cfg, n - 1, c, e);
      }
    }
  }

  lemma {:induction false} AddChainsMembers(g: Graph, cs: seq<Chain>)
    ensures g.elements <= AddChains(g, cs).elements
    ensures forall e :: e in AddChains(g, cs).elements ==> e in g.elements || exists c | c in cs :: e in c
    ensures forall c, e | c in cs && e in c :: e in AddChains(g, cs).elements
    decreases cs
  {
    hide Pairs;
    if cs != [] {
      AddChainsMembers(AddChain(g, cs[0]), cs[1..]);
    }
  }

  lemma OneChain(g: Graph, c: Chain)
    ensures AddChains(g, [c]) == AddChain(g, c)
  {
    assert [c][1..] == [];
  }

  /** The graph with a chain for each medium there is. */
  function WithMedia(g: Graph, video: bool, v: Chain, audio: bool, a: Chain): Graph {
    var h := if video then AddChain(g, v) else g;
    if audio then AddChain(h, a) else h
  }

  lemma AddMedia(g: Graph, video: bool, v: Chain, audio: bool, a: Chain)
    ensures AddChains(g, (if video then [v] else []) + (if audio then [a] else [])) == WithMedia(g, video, v, audio, a)
  {
    hide AddChain;
    var vs, audios := if video then [v] else [], if audio then [a] else [];
    AddChainsConcat(g, vs, audios);
    OneChain(g, v);
    OneChain(AddChains(g, vs), a);
  }

  lemma {:induction false} AddChainsConcat(g: Graph, a: seq<Chain>, b: seq<Chain>)
    ensures AddChains(g, a + b) == AddChains(AddChains(g, a), b)
    decreases a
  {
    hide Pairs, Members;
    if a == [] {
      assert a + b == b;
    } else {
      AddChainsConcat(AddChain(g, a[0]), a[1..], b);
      assert (a + b)[1..] == a[1..] + b && (a + b)[0] == a[0];
    }
  }

  lemma StartChain(g: Graph, x: Element)
    ensures AddChain(g, [x]) == Graph(g.elements + {x}, g.links)
  {
    assert Members([x]) == {x};
  }

  lemma ExtendChain(g: Graph, c: Chain, x: Element)
    requires c != []
    ensures AddChain(g, c + [x])
            == (var h := AddChain(g, c); Graph(h.elements + {x}, h.links + {(c[|c| - 1], x)}))
  {
    PairsJoin(c, [x]);
    assert Pairs([x]) == {};
    hide Pairs;
  }

  lemma ChainMembers(g: Graph, c: Chain)
    ensures AddChain(g, c).elements == g.elements + Members(c) && forall e :: e in Members(c) <==> e in c
  {
  }

  function ConvertChain(cfg: Config): Chain {
    [Element(VideoConvert, 0)] + When(cfg.deinterlace, [Element(Deinterlace, 0)])
  }

  function ConvertersChain(cfg: Config): Chain {
    [Element(AudioConvert, 0)] + When(cfg.audioChannels, [Element(AudioConvertCaps, 0)])
    + When(cfg.volume, [Element(Volume, 0)])
  }

  predicate NoVideoTrunk(es: set<Element>) {
    Element(Cairo, 0) !in es && Element(VideoConvert, 0) !in es && Element(Deinterlace, 0) !in es && VTEE !in es
  }

  predicate NoAudioTrunk(es: set<Element>) {
    && Element(AudioConvert, 0) !in es && Element(AudioConvertCaps, 0) !in es && Element(Volume, 0) !in es
    && ATEE !in es
  }

  lemma VideoTrunkParts(cfg: Config)
    ensures VideoTrunk(cfg) == [VMIX] + [Element(Cairo, 0)] + ConvertChain(cfg) + [VTEE]
    ensures VTEE !in [VMIX] + [Element(Cairo, 0)] + ConvertChain(cfg) && ConvertChain(cfg) != []
  {
    assert VideoTrunk(cfg) == [VMIX] + [Element(Cairo, 0)] + ConvertChain(cfg) + [VTEE];
  }

  lemma AudioTrunkParts(cfg: Config)
    ensures AudioTrunk(cfg) == [AMIX] + ConvertersChain(cfg) + [ATEE]
    ensures ATEE !in [AMIX] + ConvertersChain(cfg) && ConvertersChain(cfg) != []
  {
    assert AudioTrunk(cfg) == [AMIX] + ConvertersChain(cfg) + [ATEE];
  }

  class Builder {
    var pipelineElements: seq<Element>
    var links: set<Link>

    function Abs(): Graph
      reads this
    {
      Graph(Members(pipelineElements), links)
    }

    /** No two elements share a name, and only added elements are linked. */
    predicate Valid()
      reads this
    {
      && (forall i, j | 0 <= i < j < |pipelineElements| :: pipelineElements[i].Name() != pipelineElements[j].Name())
      && forall l | l in links :: l.0 in Members(pipelineElements) && l.1 in Members(pipelineElements)
    }

    constructor ()
      ensures Valid() && Abs() == Graph({}, {})
    {
      pipelineElements, links := [], {};
    }

    /** The bin takes no second element of a name; that the answer is yes is checked by the source at run time. */
    method ElementAdd(elem: Element) returns (res: bool)
      requires Valid() && elem !in Abs().elements
      modifies this`pipelineElements
      ensures res && Valid() && Abs() == Graph(old(Abs().elements) + {elem}, old(Abs().links))
    {
      res := forall e | e in pipelineElements :: e.Name() != elem.Name();
      forall e | e in pipelineElements && e.Name() == elem.Name() ensures e == elem {
        NameInjective(e, elem);
      }
      if res {
        pipelineElements := pipelineElements + [elem];
      }
    }

    /** Both ends must be in the pipeline. */
    method ElementLink(src: Element, dest: Element) returns (res: bool)
      requires Valid() && src in Abs().elements && dest in Abs().elements
      modifies this`links
      ensures res && Valid() && Abs() == Graph(old(Abs().elements), old(Abs().links) + {(src, dest)})
    {
      res := src in pipelineElements && dest in pipelineElements;
      links := links + {(src, dest)};
    }

    /** Looking an element up by its name is exact; no element is the answer the source calls unreachable. */
    method GetElementByName(name: string) returns (found: Option<Element>)
      requires Valid()
      ensures forall e | e in Abs().elements && e.Name() == name :: found == Some(e)
      ensures found.Some? ==> found.value in Abs().elements && found.value.Name() == name
    {
      for i := 0 to |pipelineElements|
        invariant forall j | 0 <= j < i :: pipelineElements[j].Name() != name
      {
        if pipelineElements[i].Name() == name {
          found := Some(pipelineElements[i]);
          forall e | e in Abs().elements && e.Name() == name ensures e == pipelineElements[i] {
            NameInjective(e, pipelineElements[i]);
          }
          return;
        }
      }
      found := None;
    }

    method BuildMuxVideoScale(linkTo: Element, id: nat) returns (last: Element)
      requires Valid() && linkTo in Abs().elements
      requires Element(MuxScale, id) !in Abs().elements && Element(MuxScaleCaps, id) !in Abs().elements
      modifies this
      ensures Valid() && last == Element(MuxScaleCaps, id)
      ensures Abs() == Graph(old(Abs().elements) + {Element(MuxScale, id), last},
                             old(links) + {(linkTo, Element(MuxScale, id)), (Element(MuxScale, id), last)})
    {
      hide Valid, Members;
      var videoscale, capsfilter := Element(MuxScale, id), Element(MuxScaleCaps, id);
      var _ := ElementAdd(videoscale);
      var _ := ElementAdd(capsfilter);
      var _ := ElementLink(linkTo, videoscale);
      var _ := ElementLink(videoscale, capsfilter);
      last := capsfilter;
    }

    method BuildVideoFramerate(linkTo: Element, id: nat) returns (last: Element)
      requires Valid() && linkTo in Abs().elements
      requires Element(VideoRate, id) !in Abs().elements && Element(VideoRateCaps, id) !in Abs().elements
      modifies this
      ensures Valid() && last == Element(VideoRateCaps, id)
      ensures Abs() == Graph(old(Abs().elements) + {Element(VideoRate, id), last},
                             old(links) + {(linkTo, Element(VideoRate, id)), (Element(VideoRate, id), last)})
    {
      hide Valid, Members;
      var videorate, capsfilter := Element(VideoRate, id), Element(VideoRateCaps, id);
      var _ := ElementAdd(videorate);
      var _ := ElementAdd(capsfilter);
      var _ := ElementLink(linkTo, videorate);
      var _ := ElementLink(videorate, capsfilter);
      last := capsfilter;
    }

    /** One step down a chain: add the next element and link it to the last. */
    method AddNext(ghost g: Graph, ghost c: Chain, last: Element, next: Element)
      requires Valid() && c != [] && c[|c| - 1] == last
      requires Abs() == AddChain(g, c) && next !in g.elements && next !in c
      modifies this
      ensures Valid() && Abs() == AddChain(g, c + [next])
    {
      ChainMembers(g, c);
      hide Valid, Members, AddChain;
      var _ := ElementAdd(next);
      var _ := ElementLink(last, next);
      ExtendChain(g, c, next);
    }

    /** A step that is taken only when it is asked for. */
    method AddOptional(on: bool, ghost g: Graph, ghost c: Chain, last: Element, next: Element) returns (end: Element)
      requires Valid() && c != [] && c[|c| - 1] == last
      requires Abs() == AddChain(g, c) && next !in g.elements && next !in c
      modifies this
      ensures Valid() && Abs() == AddChain(g, c + When(on, [next]))
      ensures (c + When(on, [next]))[|c + When(on, [next])| - 1] == end
    {
      hide Valid, Members, AddChain;
      end := last;
      if on {
        AddNext(g, c, last, next);
        end := next;
      } else {
        assert c + [] == c;
      }
    }

    /** The first element of a part of a chain. */
    method AddFirst(ghost g: Graph, first: Element)
      requires Valid() && Abs() == g && first !in g.elements
      modifies this
      ensures Valid() && Abs() == AddChain(g, [first])
    {
      StartChain(g, first);
      hide Valid, Members, AddChain;
      var _ := ElementAdd(first);
    }

    /** Links two parts that were built one after the other. */
    method LinkParts(ghost g: Graph, ghost a: Chain, last: Element, ghost b: Chain, first: Element)
      requires Valid() && a != [] && b != [] && a[|a| - 1] == last && b[0] == first
      requires Abs() == AddChain(AddChain(g, a), b)
      modifies this`links
      ensures Valid() && Abs() == AddChain(g, a + b)
    {
      ChainMembers(g, a);
      ChainMembers(AddChain(g, a), b);
      JoinChains(g, a, b);
      hide Valid, Members, AddChain;
      var _ := ElementLink(last, first);
    }

    method BuildVideoConvert(cfg: Config) returns (first: Element, last: Element)
      requires Valid() && Element(VideoConvert, 0) !in Abs().elements && Element(Deinterlace, 0) !in Abs().elements
      modifies this
      ensures Valid() && Abs() == AddChain(old(Abs()), ConvertChain(cfg))
      ensures FromTo(ConvertChain(cfg), first, last)
    {
      hide Valid, Members, AddChain, When;
      ghost var g := Abs();
      first := Element(VideoConvert, 0);
      AddFirst(g, first);
      last := AddOptional(cfg.deinterlace, g, [first], first, Element(Deinterlace, 0));
    }

    method BuildVideoTrunk(cfg: Config)
      requires Valid() && VMIX in Abs().elements && NoVideoTrunk(Abs().elements)
      modifies this
      ensures Valid() && Abs() == AddChain(old(Abs()), VideoTrunk(cfg))
    {
      ghost var g := Abs();
      var cairo := Element(Cairo, 0);
      ghost var c := [VMIX] + [cairo];
      StartChain(g, VMIX);
      ChainMembers(g, c);
      VideoTrunkParts(cfg);
      hide Valid, Abs, Members, AddChain, ConvertChain, VideoTrunk;
      AddNext(g, [VMIX], VMIX, cairo);
      var first, last := BuildVideoConvert(cfg);
      LinkParts(g, c, cairo, ConvertChain(cfg), first);
      AddNext(g, c + ConvertChain(cfg), last, VTEE);
    }

    method BuildAudioConverters(cfg: Config) returns (first: Element, last: Element)
      requires Valid() && Element(AudioConvert, 0) !in Abs().elements
      requires Element(AudioConvertCaps, 0) !in Abs().elements && Element(Volume, 0) !in Abs().elements
      modifies this
      ensures Valid() && Abs() == AddChain(old(Abs()), ConvertersChain(cfg))
      ensures FromTo(ConvertersChain(cfg), first, last)
    {
      hide Valid, Members, AddChain;
      ghost var g := Abs();
      first := Element(AudioConvert, 0);
      AddFirst(g, first);
      last := AddOptional(cfg.audioChannels, g, [first], first, Element(AudioConvertCaps, 0));
      ghost var c := [first] + When(cfg.audioChannels, [Element(AudioConvertCaps, 0)]);
      last := AddOptional(cfg.volume, g, c, last, Element(Volume, 0));
    }

    method BuildAudioTrunk(cfg: Config)
      requires Valid() && AMIX in Abs().elements && NoAudioTrunk(Abs().elements)
      modifies this
      ensures Valid() && Abs() == AddChain(old(Abs()), AudioTrunk(cfg))
    {
      ghost var g := Abs();
      StartChain(g, AMIX);
      assert g.elements + {AMIX} == g.elements;
      AudioTrunkParts(cfg);
      hide Valid, Members, AddChain, ConvertersChain, AudioTrunk;
      var first, last := BuildAudioConverters(cfg);
      LinkParts(g, [AMIX], AMIX, ConvertersChain(cfg), first);
      AddNext(g, [AMIX] + ConvertersChain(cfg), last, ATEE);
    }

    method BuildInputVideo(i: nat)
      requires Valid() && VMIX in Abs().elements
      requires Element(UdbVideo, i) !in Abs().elements && Element(MuxScale, i) !in Abs().elements
      requires Element(MuxScaleCaps, i) !in Abs().elements && Element(VideoBox, i) !in Abs().elements
      modifies this
      ensures Valid() && Abs() == AddChain(old(Abs()), UdbVideoChain(i))
    {
      hide Valid, Members;
      ghost var g := Abs();
      var videoQueue := Element(UdbVideo, i);
      var _ := ElementAdd(videoQueue);
      var scale := BuildMuxVideoScale(videoQueue, i);
      var videoBox := Element(VideoBox, i);
      var _ := ElementAdd(videoBox);
      var _ := ElementLink(scale, videoBox);
      var _ := ElementLink(videoBox, VMIX);
      UdbVideoIs(g, i);
    }

    method BuildInputAudio(i: nat)
      requires Valid() && AMIX in Abs().elements
      requires Element(UdbAudio, i) !in Abs().elements && Element(Level, i) !in Abs().elements
      modifies this
      ensures Valid() && Abs() == AddChain(old(Abs()), UdbAudioChain(i))
    {
      hide Valid, Members;
      ghost var g := Abs();
      var audioQueue := Element(UdbAudio, i);
      var _ := ElementAdd(audioQueue);
      var spec := Element(Level, i);
      var _ := ElementAdd(spec);
      var _ := ElementLink(audioQueue, spec);
      var _ := ElementLink(spec, AMIX);
      UdbAudioIs(g, i);
    }

    method BuildInputSource(i: nat)
      requires Valid() && Element(Src, i) !in Abs().elements && Element(Decodebin, i) !in Abs().elements
      modifies this
      ensures Valid() && Abs() == AddChain(old(Abs()), HeadChain(i))
    {
      hide Valid, Members;
      ghost var g := Abs();
      var src, decodebin := Element(Src, i), Element(Decodebin, i);
      var _ := ElementAdd(src);
      var _ := ElementAdd(decodebin);
      var _ := ElementLink(src, decodebin);
      HeadIs(g, i);
    }

    /** One round of the loop over the inputs. */
    method BuildInput(cfg: Config, i: nat)
      requires Valid() && Abs() == InputGraph(cfg, i)
      modifies this
      ensures Valid() && Abs() == InputGraph(cfg, i + 1)
    {
      ghost var g := Abs();
      InputFresh(cfg, i);
      HeadIs(g, i);
      UdbVideoIs(AddChain(g, HeadChain(i)), i);
      InputStep(cfg, i);
      hide Valid, Members, InputGraph, HeadChain, UdbVideoChain, UdbAudioChain, AddChain;
      BuildInputSource(i);
      if cfg.haveVideo {
        BuildInputVideo(i);
      }
      if cfg.haveAudio {
        BuildInputAudio(i);
      }
    }

    /** make_video_encoder and the filters its text arguments ask for, argument by argument in the order of the map. */
    method BuildVideoEncoder(cfg: Config, i: nat) returns (first: Element, last: Element)
      requires Valid() && MapOrder(cfg.strArgs) && NoEncoder(Abs().elements, i)
      modifies this
      ensures Valid() && Abs() == AddChain(old(Abs()), EncoderChain(cfg, i))
      ensures FromTo(EncoderChain(cfg, i), first, last)
    {
      ghost var g := Abs();
      first := Element(VideoCodec, i);
      var profile, format := Element(ProfileCaps, i), Element(StreamFormatCaps, i);
      EncoderStarts(cfg, i);
      hide Valid, Members, AddChain, PluginName, PROFILE_KEY, STREAM_FORMAT_KEY, KeyPrefix, MapOrder, EncoderSoFar;
      hide EncoderChain;
      AddFirst(g, first);
      last := first;
      for k := 0 to |cfg.strArgs|
        invariant Valid() && Abs() == AddChain(g, EncoderSoFar(cfg, i, k)) && FromTo(EncoderSoFar(cfg, i, k), first, last)
      {
        var key := cfg.strArgs[k];
        EncoderNext(cfg, i, k);
        if KeyPrefix(key) == PluginName(cfg.videoEncoder) {
          if key == PROFILE_KEY {
            AddNext(g, EncoderSoFar(cfg, i, k), last, profile);
            last := profile;
          } else if key == STREAM_FORMAT_KEY {
            AddNext(g, EncoderSoFar(cfg, i, k), last, format);
            last := format;
          }
        }
      }
    }

    method BuildVideoHead(cfg: Config, i: nat) returns (last: Element)
      requires Valid() && VTEE in Abs().elements && NoVideoHead(Abs().elements, i)
      modifies this
      ensures Valid() && Abs() == AddChain(old(Abs()), VideoHead(cfg, i)) && FromTo(VideoHead(cfg, i), VTEE, last)
    {
      ghost var g := Abs();
      var queue, aspect, rate, caps :=
        Element(VideoTeeQueue, i), Element(AspectRatio, i), Element(VideoRate, i), Element(VideoRateCaps, i);
      StartChain(g, VTEE);
      assert g.elements + {VTEE} == g.elements;
      hide Valid, Members, AddChain, VideoHead;
      AddNext(g, [VTEE], VTEE, queue);
      ghost var c := [VTEE] + [queue];
      last := AddOptional(cfg.aspectRatio, g, c, queue, aspect);
      c := c + When(cfg.aspectRatio, [aspect]);
      VideoHeadParts(cfg, i, g);
      hide When;
      if cfg.framerate && !cfg.mfxGpu {
        last := BuildVideoFramerate(last, i);
      }
    }

    /** From the encoder to the muxer. */
    method BuildVideoTail(cfg: Config, scheme: Scheme, i: nat, ghost g: Graph, ghost c: Chain, from: Element)
      requires Valid() && (scheme == Udp ==> Payable(cfg.videoEncoder))
      requires c != [] && c[|c| - 1] == from && Abs() == AddChain(g, c)
      requires NoVideoTail(g.elements, i) && NoVideoTail(Members(c), i) && Element(Muxer, i) in g.elements
      modifies this
      ensures Valid() && Abs() == AddChain(g, c + VideoTail(cfg, scheme, i))
    {
      var pay, parser, mux := Element(VideoPay, i), Element(VideoParser, i), Element(Muxer, i);
      hide Valid, AddChain, IsH264Encoder;
      var next := AddOptional(scheme == Udp, g, c, from, pay);
      ghost var d := c + When(scheme == Udp, [pay]);
      next := AddOptional(IsH264Encoder(cfg.videoEncoder), g, d, next, parser);
      d := d + When(IsH264Encoder(cfg.videoEncoder), [parser]);
      CloseChain(g, d, next, mux);
      assert d + [mux] == c + VideoTail(cfg, scheme, i);
    }

    /** The last link of a chain whose end is in the pipeline already. */
    method CloseChain(ghost g: Graph, ghost c: Chain, last: Element, end: Element)
      requires Valid() && c != [] && c[|c| - 1] == last && Abs() == AddChain(g, c) && end in g.elements
      modifies this`links
      ensures Valid() && Abs() == AddChain(g, c + [end])
    {
      ChainMembers(g, c);
      ExtendChain(g, c, end);
      assert AddChain(g, c).elements + {end} == AddChain(g, c).elements;
      hide Valid, Members, AddChain;
      var _ := ElementLink(last, end);
    }

    method BuildVideoDevice(i: nat)
      requires Valid() && VTEE in Abs().elements && NoVideoOut(Abs().elements, i)
      modifies this
      ensures Valid() && Abs() == AddChain(old(Abs()), [VTEE, Element(VideoTeeQueue, i), Element(VideoSink, i)])
    {
      ghost var g := Abs();
      var queue, sink := Element(VideoTeeQueue, i), Element(VideoSink, i);
      StartChain(g, VTEE);
      assert g.elements + {VTEE} == g.elements;
      NoVideoParts(g.elements, i);
      hide Valid, Abs, Members, AddChain, NoVideoOut;
      AddNext(g, [VTEE], VTEE, queue);
      AddNext(g, [VTEE] + [queue], queue, sink);
      assert [VTEE] + [queue] + [sink] == [VTEE, queue, sink];
    }

    method BuildAudioDevice(i: nat)
      requires Valid() && ATEE in Abs().elements && NoAudioOut(Abs().elements, i)
      modifies this
      ensures Valid() && Abs() == AddChain(old(Abs()), [ATEE, Element(AudioTeeQueue, i), Element(AudioSink, i)])
    {
      ghost var g := Abs();
      var queue, sink := Element(AudioTeeQueue, i), Element(AudioSink, i);
      StartChain(g, ATEE);
      assert g.elements + {ATEE} == g.elements;
      NoAudioParts(g.elements, i);
      hide Valid, Abs, Members, AddChain, NoAudioOut;
      AddNext(g, [ATEE], ATEE, queue);
      AddNext(g, [ATEE] + [queue], queue, sink);
      assert [ATEE] + [queue] + [sink] == [ATEE, queue, sink];
    }

    method BuildVideoStream(cfg: Config, scheme: Scheme, i: nat)
      requires Valid() && MapOrder(cfg.strArgs) && (scheme == Udp ==> Payable(cfg.videoEncoder))
      requires VTEE in Abs().elements && Element(Muxer, i) in Abs().elements && NoVideoOut(Abs().elements, i)
      modifies this
      ensures Valid() && Abs() == AddChain(old(Abs()), VideoBranch(cfg, Stream(scheme), i))
    {
      ghost var g := Abs();
      ghost var videoHead, encoder := VideoHead(cfg, i), EncoderChain(cfg, i);
      VideoPartsFresh(cfg, scheme, i, g);
      hide Valid, Abs, Members, AddChain, VideoHead, EncoderChain, VideoTail, MapOrder, Payable, VideoBranch;
      hide NoVideoOut, NoVideoHead, NoEncoder, NoVideoTail;
      var last := BuildVideoHead(cfg, i);
      var first, encoded := BuildVideoEncoder(cfg, i);
      LinkParts(g, videoHead, last, encoder, first);
      BuildVideoTail(cfg, scheme, i, g, videoHead + encoder, encoded);
    }

    /** The encoder, between a resampler and a parser when it makes mp3. */
    method BuildAudioEncoder(cfg: Config, i: nat, ghost g: Graph, ghost c: Chain, from: Element) returns (last: Element)
      requires Valid() && c != [] && c[|c| - 1] == from && Abs() == AddChain(g, c)
      requires NoAudioEncoder(Abs().elements, i)
      modifies this
      ensures Valid() && Abs() == AddChain(g, c + AudioEncoderChain(cfg, i))
      ensures last == AudioEncoderChain(cfg, i)[|AudioEncoderChain(cfg, i)| - 1]
    {
      ChainMembers(g, c);
      AudioEncoderIs(cfg, g, c, i);
      var encoder := Element(AudioCodec, i);
      hide Valid, Abs, Members, AddChain, AudioEncoderChain, NoAudioEncoder;
      var _ := ElementAdd(encoder);
      if cfg.audioEncoder == LameMp3Enc {
        var resample, parse := Element(AudioResample, i), Element(MpegAudioParse, i);
        var _ := ElementAdd(resample);
        var _ := ElementAdd(parse);
        var _ := ElementLink(from, resample);
        var _ := ElementLink(resample, encoder);
        var _ := ElementLink(encoder, parse);
        last := parse;
      } else {
        var _ := ElementLink(from, encoder);
        last := encoder;
      }
    }

    method BuildAudioStream(cfg: Config, scheme: Scheme, i: nat)
      requires Valid()
      requires ATEE in Abs().elements && Element(Muxer, i) in Abs().elements && NoAudioOut(Abs().elements, i)
      modifies this
      ensures Valid() && Abs() == AddChain(old(Abs()), AudioBranch(cfg, Stream(scheme), i))
    {
      ghost var g := Abs();
      var queue, pay, mux := Element(AudioTeeQueue, i), Element(AudioPay, i), Element(Muxer, i);
      ghost var c, encoder := [ATEE] + [queue], AudioEncoderChain(cfg, i);
      AudioPartsFresh(cfg, i, g);
      AudioBranchParts(cfg, scheme, i);
      hide Valid, Abs, Members, AddChain, NoAudioOut, NoAudioEncoder, AudioEncoderChain, AudioBranch, When;
      AddNext(g, [ATEE], ATEE, queue);
      var next := BuildAudioEncoder(cfg, i, g, c, queue);
      c := c + encoder;
      next := AddOptional(scheme == Udp, g, c, next, pay);
      CloseChain(g, c + When(scheme == Udp, [pay]), next, mux);
    }

    /** One round of BuildOutput's loop. */
    method BuildOutput(cfg: Config, i: nat)
      requires Valid() && Supported(cfg) && i < |cfg.outputs| && Abs() == OutputGraph(cfg, i)
      modifies this
      ensures Valid() && Abs() == OutputGraph(cfg, i + 1)
    {
      ghost var g := Abs();
      OutputFresh(cfg, i);
      OutputStep(cfg, i);
      hide Valid, Abs, Members, OutputGraph, AddChain, MapOrder, VideoBranch, AudioBranch, Payable;
      hide NoAudioOut, NoVideoOut, WithMedia, WithBranches;
      match cfg.outputs[i]
      case Device =>
        DeviceBranches(cfg, i);
        BuildMedia(cfg, Device, i, g);
      case Stream(scheme) =>
        var mux, sink := Element(Muxer, i), Element(Sink, i);
        var _ := ElementAdd(mux);
        ghost var h := Abs();
        FreshWithMuxer(g.elements, i);
        BuildMedia(cfg, Stream(scheme), i, h);
        MediaMembers(cfg, Stream(scheme), i, h);
        MuxerFirst(cfg, i, g);
        var _ := ElementAdd(sink);
        var _ := ElementLink(mux, sink);
    }

    /** The branches of output i, for the media there are. */
    method BuildMedia(cfg: Config, o: Output, i: nat, ghost g: Graph)
      requires Valid() && Abs() == g && MapOrder(cfg.strArgs)
      requires o == Stream(Udp) && cfg.haveVideo ==> Payable(cfg.videoEncoder)
      requires cfg.haveVideo ==> VTEE in g.elements
      requires cfg.haveAudio ==> ATEE in g.elements
      requires NoVideoOut(g.elements, i) && NoAudioOut(g.elements, i) && (o != Device ==> Element(Muxer, i) in g.elements)
      modifies this
      ensures Valid() && Abs() == WithBranches(g, cfg, o, i)
    {
      VideoKeepsAudio(cfg, o, i, g);
      DeviceBranches(cfg, i);
      hide Valid, Members, AddChain, MapOrder, VideoBranch, AudioBranch, Payable, NoAudioOut, NoVideoOut;
      if cfg.haveVideo {
        if o == Device {
          BuildVideoDevice(i);
        } else {
          BuildVideoStream(cfg, o.scheme, i);
        }
      }
      if cfg.haveAudio {
        if o == Device {
          BuildAudioDevice(i);
        } else {
          BuildAudioStream(cfg, o.scheme, i);
        }
      }
    }

    /** The loops over the rows and columns of the picture. */
    method BuildInputs(cfg: Config, rows: nat, columns: nat)
      requires Valid() && Abs() == InputGraph(cfg, 0) && rows * columns == cfg.inputs
      modifies this
      ensures Valid() && Abs() == InputGraph(cfg, cfg.inputs)
    {
      hide Valid, InputGraph, Members;
      var i := 0;
      for r := 0 to rows
        invariant Valid() && Abs() == InputGraph(cfg, i) && i == r * columns
      {
        for c := 0 to columns
          invariant Valid() && Abs() == InputGraph(cfg, i) && i == r * columns + c
        {
          BuildInput(cfg, i);
          i := i + 1;
          if i == cfg.inputs {
            LastCell(r, rows, c, columns);
            break;
          }
        }
      }
    }

    method BuildTrunks(cfg: Config)
      requires Valid() && Abs() == InputGraph(cfg, cfg.inputs)
      modifies this
      ensures Valid() && Abs() == TrunkGraph(cfg)
    {
      TrunkFresh(cfg);
      hide Valid, Members, InputGraph, AddChain, VideoTrunk, AudioTrunk, NoVideoTrunk, NoAudioTrunk;
      if cfg.haveVideo {
        BuildVideoTrunk(cfg);
      }
      if cfg.haveAudio {
        BuildAudioTrunk(cfg);
      }
      AddMedia(InputGraph(cfg, cfg.inputs), cfg.haveVideo, VideoTrunk(cfg), cfg.haveAudio, AudioTrunk(cfg));
    }

    /** Builds the whole pipeline, for a number of inputs that fills a square or a column of two. */
    method InitPipeline(cfg: Config) returns (ok: bool)
      requires Valid() && Abs() == Graph({}, {}) && Supported(cfg)
      modifies this
      ensures ok <==> cfg.inputs == 1 || cfg.inputs == 2 || cfg.inputs == 4 || cfg.inputs == 9 || cfg.inputs == 16
      ensures Valid() && Abs() == if ok then MosaicGraph(cfg) else Graph({}, {})
    {
      hide Valid, Members, MapOrder, Payable;
      var sz := cfg.inputs;
      var rowCounts, columnCounts := 0, 0;
      if sz == 1 {
        rowCounts, columnCounts := 1, 1;
      } else if sz == 2 {
        rowCounts, columnCounts := 2, 1;
      } else if sz == 4 {
        rowCounts, columnCounts := 2, 2;
      } else if sz == 9 {
        rowCounts, columnCounts := 3, 3;
      } else if sz == 16 {
        rowCounts, columnCounts := 4, 4;
      } else {
        return false;
      }
      ok := true;
      var _ := ElementAdd(VMIX);
      var _ := ElementAdd(AMIX);
      assert Abs() == InputGraph(cfg, 0);
      hide InputGraph, TrunkGraph;
      BuildInputs(cfg, rowCounts, columnCounts);
      BuildTrunks(cfg);
      for i := 0 to |cfg.outputs|
        invariant Valid() && Abs() == OutputGraph(cfg, i)
      {
        BuildOutput(cfg, i);
      }
    }

    /** A decoder shows a pad: its number leads to the queue of the same input, which takes one link. */
    method HandleDecodeBinPadAdded(cfg: Config, src: Element, video: bool)
      requires Valid() && src in Abs().elements && src.id < UINT64_LIMIT
      modifies this
      ensures Valid()
      ensures var dest := Element(if video then UdbVideo else UdbAudio, src.id);
              var wanted := if video then cfg.haveVideo else cfg.haveAudio;
              Abs() == old(Abs()).(links := old(Abs().links)
                + (if wanted && dest in old(Abs().elements) && (forall l | l in old(Abs().links) :: l.1 != dest)
                   then {(src, dest)} else {}))
    {
      IdOfElement(src);
      hide Valid, Members, Text, ElementId, ElementName;
      var id := ElementId(src.Name());
      if !id.Id? {
        return;
      }
      var dest := None;
      if video {
        if cfg.haveVideo {
          dest := GetElementByName(ElementName(Text(UdbVideo), id.value));
        }
      } else if cfg.haveAudio {
        dest := GetElementByName(ElementName(Text(UdbAudio), id.value));
      }
      ghost var wanted := Element(if video then UdbVideo else UdbAudio, src.id);
      if dest.None? {
        assert wanted in Abs().elements ==> wanted.Name() == ElementName(Text(wanted.stem), src.id);
        return;
      }
      NameInjective(dest.value, wanted);
      if forall l | l in links :: l.1 != dest.value {
        var _ := ElementLink(src, dest.value);
      }
    }
  }

  lemma AtLeastOne(m: nat, c: nat)
    requires m >= 1
    ensures m * c >= c
  {
    assert m * c == (m - 1) * c + c;
  }

  lemma LastCell(r: nat, rows: nat, c: nat, columns: nat)
    requires r < rows && c < columns && r * columns + c + 1 == rows * columns
    ensures c + 1 == columns
  {
    var m := rows - r;
    assert rows * columns == r * columns + m * columns;
    AtLeastOne(m, columns);
  }

  function WithBranches(g: Graph, cfg: Config, o: Output, i: nat): Graph {
    WithMedia(g, cfg.haveVideo, VideoBranch(cfg, o, i), cfg.haveAudio, AudioBranch(cfg, o, i))
  }

  lemma DeviceBranches(cfg: Config, i: nat)
    ensures VideoBranch(cfg, Device, i) == [VTEE, Element(VideoTeeQueue, i), Element(VideoSink, i)]
    ensures AudioBranch(cfg, Device, i) == [ATEE, Element(AudioTeeQueue, i), Element(AudioSink, i)]
  {
  }

  /** A tee, and elements of the one part of output i or its muxer. */
  predicate Within(c: Chain, tee: Element, part: Part, i: nat) {
    forall e | e in c :: e == tee || (e.id == i && (PartOf(e.stem) == part || e.stem == Muxer))
  }

  lemma WithinJoin(a: Chain, b: Chain, tee: Element, part: Part, i: nat)
    requires Within(a, tee, part, i) && Within(b, tee, part, i)
    ensures Within(a + b, tee, part, i)
  {
    hide PartOf;
  }

  lemma WithinWhen(a: Chain, on: bool, b: Chain, tee: Element, part: Part, i: nat)
    requires Within(a, tee, part, i) && Within(b, tee, part, i)
    ensures Within(a + When(on, b), tee, part, i)
  {
    hide PartOf;
  }

  lemma Within2(x: Element, y: Element, tee: Element, part: Part, i: nat)
    requires x == tee || (x.id == i && (PartOf(x.stem) == part || x.stem == Muxer))
    requires y == tee || (y.id == i && (PartOf(y.stem) == part || y.stem == Muxer))
    ensures Within([x], tee, part, i) && Within([x, y], tee, part, i)
  {
    hide PartOf;
  }

  lemma VideoHeadWithin(cfg: Config, i: nat)
    ensures Within(VideoHead(cfg, i), VTEE, VideoOutPart, i)
  {
    hide Within, When;
    var c := [VTEE, Element(VideoTeeQueue, i)];
    var aspect, rate := [Element(AspectRatio, i)], [Element(VideoRate, i), Element(VideoRateCaps, i)];
    Within2(c[0], c[1], VTEE, VideoOutPart, i);
    Within2(aspect[0], aspect[0], VTEE, VideoOutPart, i);
    Within2(rate[0], rate[1], VTEE, VideoOutPart, i);
    WithinWhen(c, cfg.aspectRatio, aspect, VTEE, VideoOutPart, i);
    WithinWhen(c + When(cfg.aspectRatio, aspect), cfg.framerate && !cfg.mfxGpu, rate, VTEE, VideoOutPart, i);
  }

  lemma EncoderWithin(i: nat, p: bool, q: bool)
    ensures Within(EncoderWith(i, p, q), VTEE, VideoOutPart, i)
  {
    hide Within, When;
    var c, profile, format := [Element(VideoCodec, i)], [Element(ProfileCaps, i)], [Element(StreamFormatCaps, i)];
    Within2(c[0], c[0], VTEE, VideoOutPart, i);
    Within2(profile[0], profile[0], VTEE, VideoOutPart, i);
    Within2(format[0], format[0], VTEE, VideoOutPart, i);
    WithinWhen(c, p, profile, VTEE, VideoOutPart, i);
    WithinWhen(c + When(p, profile), q, format, VTEE, VideoOutPart, i);
  }

  lemma VideoTailWithin(cfg: Config, scheme: Scheme, i: nat)
    ensures Within(VideoTail(cfg, scheme, i), VTEE, VideoOutPart, i)
  {
    var pay, parser, mux := [Element(VideoPay, i)], [Element(VideoParser, i)], [Element(Muxer, i)];
    var h264 := IsH264Encoder(cfg.videoEncoder);
    Within2(pay[0], pay[0], VTEE, VideoOutPart, i);
    Within2(parser[0], mux[0], VTEE, VideoOutPart, i);
    Within2(mux[0], mux[0], VTEE, VideoOutPart, i);
    assert Within([], VTEE, VideoOutPart, i);
    WithinWhen([], scheme == Udp, pay, VTEE, VideoOutPart, i);
    assert [] + When(scheme == Udp, pay) == When(scheme == Udp, pay);
    hide Within, When, IsH264Encoder;
    WithinWhen(When(scheme == Udp, pay), h264, parser, VTEE, VideoOutPart, i);
    WithinJoin(When(scheme == Udp, pay) + When(h264, parser), mux, VTEE, VideoOutPart, i);
  }

  lemma VideoStreamWithin(cfg: Config, scheme: Scheme, i: nat)
    ensures Within(VideoHead(cfg, i) + EncoderChain(cfg, i) + VideoTail(cfg, scheme, i), VTEE, VideoOutPart, i)
  {
    hide PROFILE_KEY, STREAM_FORMAT_KEY, EncoderWith, VideoHead, VideoTail, Within;
    VideoHeadWithin(cfg, i);
    EncoderWithin(i, cfg.videoEncoder == X264Enc && PROFILE_KEY in cfg.strArgs,
                  cfg.videoEncoder == X264Enc && STREAM_FORMAT_KEY in cfg.strArgs);
    VideoTailWithin(cfg, scheme, i);
    WithinJoin(VideoHead(cfg, i), EncoderChain(cfg, i), VTEE, VideoOutPart, i);
    WithinJoin(VideoHead(cfg, i) + EncoderChain(cfg, i), VideoTail(cfg, scheme, i), VTEE, VideoOutPart, i);
  }

  lemma VideoDeviceWithin(cfg: Config, i: nat)
    ensures Within(VideoBranch(cfg, Device, i), VTEE, VideoOutPart, i)
  {
    DeviceBranches(cfg, i);
    hide VideoBranch, AudioBranch;
  }

  lemma AudioDeviceWithin(cfg: Config, i: nat)
    ensures Within(AudioBranch(cfg, Device, i), ATEE, AudioOutPart, i)
  {
    DeviceBranches(cfg, i);
    hide VideoBranch, AudioBranch;
  }

  lemma VideoBranchElements(cfg: Config, o: Output, i: nat)
    ensures Within(VideoBranch(cfg, o, i), VTEE, VideoOutPart, i)
  {
    hide Within, VideoHead, EncoderChain, VideoTail;
    match o
    case Device => VideoDeviceWithin(cfg, i);
    case Stream(scheme) => VideoStreamWithin(cfg, scheme, i);
  }

  lemma AudioEncoderWithin(cfg: Config, i: nat)
    ensures Within(AudioEncoderChain(cfg, i), ATEE, AudioOutPart, i)
  {
  }

  lemma AudioStreamWithin(cfg: Config, scheme: Scheme, i: nat)
    ensures Within([ATEE] + [Element(AudioTeeQueue, i)] + AudioEncoderChain(cfg, i)
                   + When(scheme == Udp, [Element(AudioPay, i)]) + [Element(Muxer, i)], ATEE, AudioOutPart, i)
  {
    var queue, pay, mux := Element(AudioTeeQueue, i), Element(AudioPay, i), Element(Muxer, i);
    AudioEncoderWithin(cfg, i);
    Within2(ATEE, queue, ATEE, AudioOutPart, i);
    Within2(pay, mux, ATEE, AudioOutPart, i);
    Within2(mux, mux, ATEE, AudioOutPart, i);
    hide *;
    var c := [ATEE, queue];
    assert [ATEE] + [queue] == c;
    WithinJoin(c, AudioEncoderChain(cfg, i), ATEE, AudioOutPart, i);
    c := c + AudioEncoderChain(cfg, i);
    WithinWhen(c, scheme == Udp, [pay], ATEE, AudioOutPart, i);
    WithinJoin(c + When(scheme == Udp, [pay]), [mux], ATEE, AudioOutPart, i);
  }

  lemma AudioBranchElements(cfg: Config, o: Output, i: nat)
    ensures Within(AudioBranch(cfg, o, i), ATEE, AudioOutPart, i)
  {
    hide *;
    match o
    case Device => AudioDeviceWithin(cfg, i);
    case Stream(scheme) =>
      AudioBranchParts(cfg, scheme, i);
      AudioStreamWithin(cfg, scheme, i);
  }

  /** A branch of video does not stand in the way of one of audio. */
  lemma VideoKeepsAudio(cfg: Config, o: Output, i: nat, g: Graph)
    requires NoAudioOut(g.elements, i)
    ensures var es := AddChain(g, VideoBranch(cfg, o, i)).elements; NoAudioOut(es, i) && g.elements <= es
  {
    VideoBranchElements(cfg, o, i);
    ChainMembers(g, VideoBranch(cfg, o, i));
    hide VideoBranch, AddChain, Members;
  }

  lemma FreshWithMuxer(es: set<Element>, i: nat)
    requires NoVideoOut(es, i) && NoAudioOut(es, i)
    ensures NoVideoOut(es + {Element(Muxer, i)}, i) && NoAudioOut(es + {Element(Muxer, i)}, i)
  {
  }

  lemma MediaMembers(cfg: Config, o: Output, i: nat, g: Graph)
    ensures var es := WithBranches(g, cfg, o, i).elements;
            g.elements <= es && (Element(Sink, i) in es ==> Element(Sink, i) in g.elements)
  {
    VideoBranchElements(cfg, o, i);
    AudioBranchElements(cfg, o, i);
    hide VideoBranch, AudioBranch, Pairs;
  }

  /** That the muxer is added before the branches makes no difference to the graph. */
  lemma MuxerFirst(cfg: Config, i: nat, g: Graph)
    requires i < |cfg.outputs|
    ensures var mux, sink := Element(Muxer, i), Element(Sink, i);
            var h := WithBranches(Graph(g.elements + {mux}, g.links), cfg, cfg.outputs[i], i);
            AddChain(WithBranches(g, cfg, cfg.outputs[i], i), [mux, sink])
            == Graph(h.elements + {sink}, h.links + {(mux, sink)})
  {
    var mux, sink := Element(Muxer, i), Element(Sink, i);
    assert Members([mux, sink]) == {mux, sink};
    assert Pairs([mux, sink]) == {(mux, sink)} by { assert [mux, sink][1..] == [sink]; }
    hide Members, Pairs, VideoBranch, AudioBranch;
  }

  lemma OutputStep(cfg: Config, i: nat)
    requires i < |cfg.outputs|
    ensures OutputGraph(cfg, i + 1)
            == (var h := WithBranches(OutputGraph(cfg, i), cfg, cfg.outputs[i], i);
                if cfg.outputs[i] == Device then h else AddChain(h, [Element(Muxer, i), Element(Sink, i)]))
  {
    hide AddChain, VideoBranch, AudioBranch, WithMedia;
    var g, o := OutputGraph(cfg, i), cfg.outputs[i];
    var media := (if cfg.haveVideo then [VideoBranch(cfg, o, i)] else [])
                 + (if cfg.haveAudio then [AudioBranch(cfg, o, i)] else []);
    AddMedia(g, cfg.haveVideo, VideoBranch(cfg, o, i), cfg.haveAudio, AudioBranch(cfg, o, i));
    if o == Device {
      assert OutputChains(cfg, i) == media + [] == media;
    } else {
      var last := [Element(Muxer, i), Element(Sink, i)];
      assert OutputChains(cfg, i) == media + [last];
      AddChainsConcat(g, media, [last]);
      OneChain(AddChains(g, media), last);
    }
  }

  lemma InputsLeaveTrunks(es: set<Element>, n: nat)
    requires forall e | e in es :: OfInputs(e, n)
    ensures NoVideoTrunk(es) && NoAudioTrunk(es)
  {
  }

  lemma VideoTrunkKeepsAudio(cfg: Config, g: Graph)
    requires NoAudioTrunk(g.elements)
    ensures var es := AddChain(g, VideoTrunk(cfg)).elements; g.elements <= es && NoAudioTrunk(es)
  {
    ChainMembers(g, VideoTrunk(cfg));
    hide AddChain, Members;
  }

  lemma TrunkFresh(cfg: Config)
    ensures var g := InputGraph(cfg, cfg.inputs); var h := AddChain(g, VideoTrunk(cfg));
            && VMIX in g.elements && NoVideoTrunk(g.elements)
            && AMIX in g.elements && NoAudioTrunk(g.elements)
            && AMIX in h.elements && NoAudioTrunk(h.elements)
  {
    var g := InputGraph(cfg, cfg.inputs);
    InputElements(cfg, cfg.inputs);
    hide *;
    InputsLeaveTrunks(g.elements, cfg.inputs);
    VideoTrunkKeepsAudio(cfg, g);
  }

  /** Trunk and input elements, and the outputs before. */
  predicate OfOutputs(e: Element, n: nat) {
    PartOf(e.stem) == InputPart || PartOf(e.stem) == VideoTrunkPart || PartOf(e.stem) == AudioTrunkPart || e.id < n
  }

  lemma TrunkElements(cfg: Config)
    ensures forall e | e in TrunkGraph(cfg).elements :: OfOutputs(e, 0)
    ensures cfg.haveVideo ==> VTEE in TrunkGraph(cfg).elements
    ensures cfg.haveAudio ==> ATEE in TrunkGraph(cfg).elements
  {
    var g := InputGraph(cfg, cfg.inputs);
    InputElements(cfg, cfg.inputs);
    AddMedia(g, cfg.haveVideo, VideoTrunk(cfg), cfg.haveAudio, AudioTrunk(cfg));
    hide InputGraph, Pairs, AddChains;
  }

  lemma OutputChainIs(cfg: Config, i: nat, c: Chain)
    requires i < |cfg.outputs| && c in OutputChains(cfg, i)
    ensures c == VideoBranch(cfg, cfg.outputs[i], i) || c == AudioBranch(cfg, cfg.outputs[i], i)
            || c == [Element(Muxer, i), Element(Sink, i)]
  {
    hide VideoBranch, AudioBranch;
  }

  lemma OutputChainElements(cfg: Config, i: nat, c: Chain, e: Element)
    requires i < |cfg.outputs| && c in OutputChains(cfg, i) && e in c
    ensures OfOutputs(e, i + 1)
  {
    OutputChainIs(cfg, i, c);
    VideoBranchElements(cfg, cfg.outputs[i], i);
    AudioBranchElements(cfg, cfg.outputs[i], i);
    hide VideoBranch, AudioBranch, OutputChains;
  }

  lemma {:induction false} OutputElements(cfg: Config, n: nat)
    requires n <= |cfg.outputs|
    ensures forall e | e in OutputGraph(cfg, n).elements :: OfOutputs(e, n)
    ensures cfg.haveVideo ==> VTEE in OutputGraph(cfg, n).elements
    ensures cfg.haveAudio ==> ATEE in OutputGraph(cfg, n).elements
  {
    hide TrunkGraph, OutputChains, PartOf, Pairs;
    if n == 0 {
      TrunkElements(cfg);
    } else {
      OutputElements(cfg, n - 1);
      AddChainsMembers(OutputGraph(cfg, n - 1), OutputChains(cfg, n - 1));
      forall c, e | c in OutputChains(cfg, n - 1) && e in c ensures OfOutputs(e, n) {
        OutputChainElements(cfg, n - 1, c, e);
      }
    }
  }

  lemma OutputFresh(cfg: Config, i: nat)
    requires i < |cfg.outputs|
    ensures var es := OutputGraph(cfg, i).elements;
            && NoVideoOut(es, i) && NoAudioOut(es, i) && Element(Muxer, i) !in es && Element(Sink, i) !in es
            && (cfg.haveVideo ==> VTEE in es) && (cfg.haveAudio ==> ATEE in es)
  {
    OutputElements(cfg, i);
    hide OutputGraph;
    assert !OfOutputs(Element(Muxer, i), i) && !OfOutputs(Element(Sink, i), i);
  }

  /** No element of output i's video, or audio, part is there yet. */
  predicate NoVideoOut(es: set<Element>, i: nat) {
    forall e | e in es :: PartOf(e.stem) == VideoOutPart ==> e.id != i
  }

  predicate NoAudioOut(es: set<Element>, i: nat) {
    forall e | e in es :: PartOf(e.stem) == AudioOutPart ==> e.id != i
  }

  predicate NoAudioEncoder(es: set<Element>, i: nat) {
    Element(AudioCodec, i) !in es && Element(AudioResample, i) !in es && Element(MpegAudioParse, i) !in es
  }

  lemma NoVideoParts(es: set<Element>, i: nat)
    requires NoVideoOut(es, i)
    ensures NoVideoHead(es, i) && NoEncoder(es, i) && NoVideoTail(es, i) && Element(VideoSink, i) !in es
  {
  }

  lemma NoAudioParts(es: set<Element>, i: nat)
    requires NoAudioOut(es, i)
    ensures Element(AudioTeeQueue, i) !in es && NoAudioEncoder(es, i) && Element(AudioPay, i) !in es
    ensures Element(AudioSink, i) !in es
  {
  }

  lemma VideoPartsApart(cfg: Config, i: nat)
    ensures var h, e := VideoHead(cfg, i), EncoderChain(cfg, i);
            && h != [] && e != [] && (h + e)[|h + e| - 1] == e[|e| - 1]
            && NoEncoder(Members(h), i) && NoVideoTail(Members(h + e), i)
  {
    hide PROFILE_KEY, STREAM_FORMAT_KEY;
  }

  lemma VideoPartsFresh(cfg: Config, scheme: Scheme, i: nat, g: Graph)
    requires NoVideoOut(g.elements, i)
    ensures var h, e := VideoHead(cfg, i), EncoderChain(cfg, i);
            && h != [] && e != [] && (h + e)[|h + e| - 1] == e[|e| - 1]
            && NoVideoHead(g.elements, i) && NoEncoder(AddChain(g, h).elements, i)
            && NoVideoTail(g.elements, i) && NoVideoTail(Members(h + e), i)
            && VideoBranch(cfg, Stream(scheme), i) == h + e + VideoTail(cfg, scheme, i)
  {
    NoVideoParts(g.elements, i);
    VideoPartsApart(cfg, i);
    ChainMembers(g, VideoHead(cfg, i));
    hide AddChain, VideoHead, EncoderChain, VideoTail, NoVideoOut;
  }

  lemma AudioEncoderIs(cfg: Config, g: Graph, c: Chain, i: nat)
    requires c != []
    ensures var e, r, p := Element(AudioCodec, i), Element(AudioResample, i), Element(MpegAudioParse, i);
            var h, from, a := AddChain(g, c), c[|c| - 1], AudioEncoderChain(cfg, i);
            && AddChain(g, c + a)
               == (if cfg.audioEncoder == LameMp3Enc then
                     Graph(h.elements + {e} + {r} + {p}, h.links + {(from, r)} + {(r, e)} + {(e, p)})
                   else Graph(h.elements + {e}, h.links + {(from, e)}))
            && a[|a| - 1] == (if cfg.audioEncoder == LameMp3Enc then p else e)
  {
    var e, r, p := Element(AudioCodec, i), Element(AudioResample, i), Element(MpegAudioParse, i);
    ExtendChain(g, c, e);
    ExtendChain(g, c, r);
    ExtendChain(g, c + [r], e);
    ExtendChain(g, c + [r] + [e], p);
    hide AddChain;
    assert c + [r] + [e] + [p] == c + [r, e, p];
  }

  lemma AudioBranchParts(cfg: Config, scheme: Scheme, i: nat)
    ensures AudioBranch(cfg, Stream(scheme), i)
            == [ATEE] + [Element(AudioTeeQueue, i)] + AudioEncoderChain(cfg, i)
               + When(scheme == Udp, [Element(AudioPay, i)]) + [Element(Muxer, i)]
  {
    hide AudioEncoderChain, When;
    assert [ATEE] + [Element(AudioTeeQueue, i)] == [ATEE, Element(AudioTeeQueue, i)];
  }

  /** Before the frame rate, and with it. */
  lemma VideoHeadParts(cfg: Config, i: nat, g: Graph)
    ensures var rate, caps := Element(VideoRate, i), Element(VideoRateCaps, i);
            var c := [VTEE] + [Element(VideoTeeQueue, i)] + When(cfg.aspectRatio, [Element(AspectRatio, i)]);
            var h := AddChain(g, c);
            && (!(cfg.framerate && !cfg.mfxGpu) ==> VideoHead(cfg, i) == c)
            && (cfg.framerate && !cfg.mfxGpu ==>
                  && AddChain(g, VideoHead(cfg, i))
                     == Graph(h.elements + {rate, caps}, h.links + {(c[|c| - 1], rate), (rate, caps)})
                  && FromTo(VideoHead(cfg, i), VTEE, caps))
            && c[|c| - 1] in h.elements && (rate in h.elements ==> rate in g.elements)
            && (caps in h.elements ==> caps in g.elements) && FromTo(c, VTEE, c[|c| - 1])
  {
    var rate, caps := Element(VideoRate, i), Element(VideoRateCaps, i);
    var c := [VTEE] + [Element(VideoTeeQueue, i)] + When(cfg.aspectRatio, [Element(AspectRatio, i)]);
    ChainMembers(g, c);
    ExtendChain(g, c, rate);
    ExtendChain(g, c + [rate], caps);
    assert [VTEE] + [Element(VideoTeeQueue, i)] == [VTEE, Element(VideoTeeQueue, i)];
    assert c + [rate] + [caps] == c + [rate, caps] && c + [] == c;
    hide AddChain, Members;
  }

  lemma AudioPartsApart(cfg: Config, i: nat)
    ensures var c, e := [ATEE] + [Element(AudioTeeQueue, i)], AudioEncoderChain(cfg, i);
            && e != [] && Element(AudioPay, i) !in c + e && NoAudioEncoder(Members(c), i)
            && (c + e)[|c + e| - 1] == e[|e| - 1]
  {
  }

  lemma AudioPartsFresh(cfg: Config, i: nat, g: Graph)
    requires ATEE in g.elements && NoAudioOut(g.elements, i)
    ensures var queue, pay, e := Element(AudioTeeQueue, i), Element(AudioPay, i), AudioEncoderChain(cfg, i);
            var c := [ATEE] + [queue];
            && AddChain(g, [ATEE]) == g && queue !in g.elements && pay !in g.elements && pay !in c + e
            && NoAudioEncoder(AddChain(g, c).elements, i) && e != [] && (c + e)[|c + e| - 1] == e[|e| - 1]
  {
    StartChain(g, ATEE);
    assert g.elements + {ATEE} == g.elements;
    NoAudioParts(g.elements, i);
    ChainMembers(g, [ATEE] + [Element(AudioTeeQueue, i)]);
    AudioPartsApart(cfg, i);
    hide AddChain, AudioEncoderChain, NoAudioOut, Members;
  }

  predicate NoEncoder(es: set<Element>, i: nat) {
    Element(VideoCodec, i) !in es && Element(ProfileCaps, i) !in es && Element(StreamFormatCaps, i) !in es
  }

  predicate NoVideoHead(es: set<Element>, i: nat) {
    && Element(VideoTeeQueue, i) !in es && Element(AspectRatio, i) !in es && Element(VideoRate, i) !in es
    && Element(VideoRateCaps, i) !in es
  }

  predicate NoVideoTail(es: set<Element>, i: nat) {
    Element(VideoPay, i) !in es && Element(VideoParser, i) !in es
  }

  function KeyPrefix(key: string): string {
    key[..IndexOf(key, '.')]
  }

  /** The encoder's chain after the first k text arguments. */
  function EncoderSoFar(cfg: Config, i: nat, k: nat): Chain
    requires k <= |cfg.strArgs|
  {
    EncoderWith(i, cfg.videoEncoder == X264Enc && PROFILE_KEY in cfg.strArgs[..k],
                cfg.videoEncoder == X264Enc && STREAM_FORMAT_KEY in cfg.strArgs[..k])
  }

  lemma EncoderStarts(cfg: Config, i: nat)
    ensures EncoderSoFar(cfg, i, 0) == [Element(VideoCodec, i)]
    ensures EncoderSoFar(cfg, i, |cfg.strArgs|) == EncoderChain(cfg, i)
  {
    hide PROFILE_KEY, STREAM_FORMAT_KEY;
    assert cfg.strArgs[..|cfg.strArgs|] == cfg.strArgs;
    assert [Element(VideoCodec, i)] + [] + [] == [Element(VideoCodec, i)];
  }

  lemma EncoderGrows(i: nat, profile: bool)
    ensures EncoderWith(i, false, false) + [Element(ProfileCaps, i)] == EncoderWith(i, true, false)
    ensures EncoderWith(i, profile, false) + [Element(StreamFormatCaps, i)] == EncoderWith(i, profile, true)
    ensures Element(ProfileCaps, i) !in EncoderWith(i, false, false)
    ensures Element(StreamFormatCaps, i) !in EncoderWith(i, profile, false)
  {
  }

  lemma PrefixIs(prefix: string, rest: string)
    requires '.' !in prefix
    ensures KeyPrefix(prefix + "." + rest) == prefix
  {
    var s := prefix + "." + rest;
    var k := IndexOf(s, '.');
    assert s[|prefix|] == '.';
    SliceContains(s, 0, k);
    assert forall j | 0 <= j < |prefix| :: s[j] == prefix[j] && s[j] != '.';
  }

  lemma NameOfX264(v: VideoEncoder)
    ensures PluginName(v) == X264_ENC <==> v == X264Enc
  {
  }

  lemma KeysOfX264()
    ensures KeyPrefix(PROFILE_KEY) == KeyPrefix(STREAM_FORMAT_KEY) == X264_ENC
    ensures PROFILE_KEY != STREAM_FORMAT_KEY
  {
    PrefixIs(X264_ENC, "profile");
    PrefixIs(X264_ENC, "stream-format");
    hide KeyPrefix;
    assert |PROFILE_KEY| != |STREAM_FORMAT_KEY|;
  }

  lemma {:induction false} BeforeAfterPrefix(prefix: string, a: string, b: string)
    ensures Before(prefix + a, prefix + b) == Before(a, b)
    decreases prefix
  {
    if prefix == "" {
      assert prefix + a == a && prefix + b == b;
    } else {
      BeforeAfterPrefix(prefix[1..], a, b);
      assert (prefix + a)[1..] == prefix[1..] + a && (prefix + b)[1..] == prefix[1..] + b;
    }
  }

  lemma {:induction false} NotBeforeItself(a: string)
    ensures !Before(a, a)
  {
    if a != "" {
      NotBeforeItself(a[1..]);
    }
  }

  /** In a map the profile comes before the stream format. */
  lemma ProfileFirst()
    ensures !Before(STREAM_FORMAT_KEY, PROFILE_KEY)
  {
    BeforeAfterPrefix(X264_ENC + ".", "stream-format", "profile");
  }

  lemma EncoderNext(cfg: Config, i: nat, k: nat)
    requires MapOrder(cfg.strArgs) && k < |cfg.strArgs|
    ensures var key, now := cfg.strArgs[k], EncoderSoFar(cfg, i, k);
            var ours := KeyPrefix(key) == PluginName(cfg.videoEncoder);
            && EncoderSoFar(cfg, i, k + 1)
               == (if ours && key == PROFILE_KEY then now + [Element(ProfileCaps, i)]
                   else if ours && key == STREAM_FORMAT_KEY then now + [Element(StreamFormatCaps, i)]
                   else now)
            && (ours && key == PROFILE_KEY ==> Element(ProfileCaps, i) !in now)
            && (ours && key == STREAM_FORMAT_KEY ==> Element(StreamFormatCaps, i) !in now)
  {
    var keys := cfg.strArgs;
    KeysOfX264();
    NameOfX264(cfg.videoEncoder);
    ProfileFirst();
    NotBeforeItself(keys[k]);
    hide Before, PROFILE_KEY, STREAM_FORMAT_KEY, X264_ENC, PluginName, KeyPrefix, EncoderWith;
    assert keys[..k + 1] == keys[..k] + [keys[k]];
    forall key | key in keys[..k] ensures Before(key, keys[k]) {
      var j :| 0 <= j < k && keys[j] == key;
    }
    EncoderGrows(i, PROFILE_KEY in keys[..k]);
  }

  lemma InputFresh(cfg: Config, i: nat)
    ensures var es := InputGraph(cfg, i).elements;
            && VMIX in es && AMIX in es
            && Element(Src, i) !in es && Element(Decodebin, i) !in es
            && Element(UdbVideo, i) !in es && Element(MuxScale, i) !in es && Element(MuxScaleCaps, i) !in es
            && Element(VideoBox, i) !in es && Element(UdbAudio, i) !in es && Element(Level, i) !in es
  {
    InputElements(cfg, i);
    hide InputGraph;
    assert !OfInputs(Element(Src, i), i) && !OfInputs(Element(Decodebin, i), i);
    assert !OfInputs(Element(UdbVideo, i), i) && !OfInputs(Element(MuxScale, i), i);
    assert !OfInputs(Element(MuxScaleCaps, i), i) && !OfInputs(Element(VideoBox, i), i);
    assert !OfInputs(Element(UdbAudio, i), i) && !OfInputs(Element(Level, i), i);
  }

  function HeadChain(i: nat): Chain {
    [Element(Src, i), Element(Decodebin, i)]
  }

  function UdbVideoChain(i: nat): Chain {
    [Element(UdbVideo, i), Element(MuxScale, i), Element(MuxScaleCaps, i), Element(VideoBox, i), VMIX]
  }

  function UdbAudioChain(i: nat): Chain {
    [Element(UdbAudio, i), Element(Level, i), AMIX]
  }

  lemma HeadIs(g: Graph, i: nat)
    ensures AddChain(g, HeadChain(i))
            == Graph(g.elements + {Element(Src, i), Element(Decodebin, i)}, g.links + {(Element(Src, i), Element(Decodebin, i))})
  {
    StartChain(g, Element(Src, i));
    hide AddChain;
    assert [Element(Src, i)] + [Element(Decodebin, i)] == HeadChain(i);
    ExtendChain(g, [Element(Src, i)], Element(Decodebin, i));
  }

  lemma UdbVideoIs(g: Graph, i: nat)
    ensures var q, s, f, b := Element(UdbVideo, i), Element(MuxScale, i), Element(MuxScaleCaps, i), Element(VideoBox, i);
            AddChain(g, UdbVideoChain(i))
            == Graph(g.elements + {q, s, f, b, VMIX}, g.links + {(q, s), (s, f), (f, b), (b, VMIX)})
  {
    var q, s, f, b := Element(UdbVideo, i), Element(MuxScale, i), Element(MuxScaleCaps, i), Element(VideoBox, i);
    StartChain(g, q);
    hide AddChain;
    assert [q] + [s] == [q, s] && [q, s] + [f] == [q, s, f] && [q, s, f] + [b] == [q, s, f, b];
    assert [q, s, f, b] + [VMIX] == UdbVideoChain(i);
    ExtendChain(g, [q], s);
    ExtendChain(g, [q, s], f);
    ExtendChain(g, [q, s, f], b);
    ExtendChain(g, [q, s, f, b], VMIX);
  }

  lemma UdbAudioIs(g: Graph, i: nat)
    ensures AddChain(g, UdbAudioChain(i))
            == Graph(g.elements + {Element(UdbAudio, i), Element(Level, i), AMIX},
                     g.links + {(Element(UdbAudio, i), Element(Level, i)), (Element(Level, i), AMIX)})
  {
    var q, s := Element(UdbAudio, i), Element(Level, i);
    StartChain(g, q);
    hide AddChain;
    assert [q] + [s] == [q, s] && [q, s] + [AMIX] == UdbAudioChain(i);
    ExtendChain(g, [q], s);
    ExtendChain(g, [q, s], AMIX);
  }

  lemma InputStep(cfg: Config, i: nat)
    ensures InputGraph(cfg, i + 1) == WithMedia(AddChain(InputGraph(cfg, i), HeadChain(i)),
                                                cfg.haveVideo, UdbVideoChain(i), cfg.haveAudio, UdbAudioChain(i))
  {
    hide AddChain, WithMedia;
    var g := InputGraph(cfg, i);
    var media := (if cfg.haveVideo then [UdbVideoChain(i)] else []) + (if cfg.haveAudio then [UdbAudioChain(i)] else []);
    assert InputChains(cfg, i) == [HeadChain(i)] + media;
    AddChainsConcat(g, [HeadChain(i)], media);
    OneChain(g, HeadChain(i));
    AddMedia(AddChain(g, HeadChain(i)), cfg.haveVideo, UdbVideoChain(i), cfg.haveAudio, UdbAudioChain(i));
  }
}
