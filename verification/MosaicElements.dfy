/** Which elements a mosaic pipeline has, element by element and in terms of the configuration. */
module MosaicElements {
  import opened Elements
  import opened Mosaic
  import opened MosaicBuilder

  /** The elements of an output's video part. */
  predicate WantedVideo(cfg: Config, o: Output, stem: Stem) {
    match stem
    case VideoTeeQueue => true
    case VideoSink => o.Device?
    case AspectRatio => o.Stream? && cfg.aspectRatio
    case VideoRate | VideoRateCaps => o.Stream? && cfg.framerate && !cfg.mfxGpu
    case VideoCodec => o.Stream?
    case ProfileCaps => o.Stream? && cfg.videoEncoder.X264Enc? && "x264enc.profile" in cfg.strArgs
    case StreamFormatCaps => o.Stream? && cfg.videoEncoder.X264Enc? && "x264enc.stream-format" in cfg.strArgs
    case VideoPay => o == Stream(Udp)
    case VideoParser =>
      && o.Stream?
      && (cfg.videoEncoder.X264Enc? || cfg.videoEncoder.VaapiH264Enc? || cfg.videoEncoder.OpenH264Enc?
          || cfg.videoEncoder.NvH264Enc? || cfg.videoEncoder.MfxH264Enc?)
    case _ => false
  }

  /** And of its audio part. */
  predicate WantedAudio(cfg: Config, o: Output, stem: Stem) {
    match stem
    case AudioTeeQueue => true
    case AudioSink => o.Device?
    case AudioCodec => o.Stream?
    case AudioResample | MpegAudioParse => o.Stream? && cfg.audioEncoder.LameMp3Enc?
    case AudioPay => o == Stream(Udp)
    case _ => false
  }

  predicate Wanted(cfg: Config, e: Element) {
    match e.stem
    case Src | Decodebin => e.id < cfg.inputs
    case UdbVideo | MuxScale | MuxScaleCaps | VideoBox => cfg.haveVideo && e.id < cfg.inputs
    case UdbAudio | Level => cfg.haveAudio && e.id < cfg.inputs
    case VideoMixer | AudioMixer => e.id == 0
    case Cairo | VideoConvert | VideoTee => cfg.haveVideo && e.id == 0
    case Deinterlace => cfg.haveVideo && cfg.deinterlace && e.id == 0
    case AudioConvert | AudioTee => cfg.haveAudio && e.id == 0
    case AudioConvertCaps => cfg.haveAudio && cfg.audioChannels && e.id == 0
    case Volume => cfg.haveAudio && cfg.volume && e.id == 0
    case Muxer | Sink => e.id < |cfg.outputs| && cfg.outputs[e.id].Stream?
    case _ =>
      e.id < |cfg.outputs|
      && ((cfg.haveVideo && WantedVideo(cfg, cfg.outputs[e.id], e.stem))
          || (cfg.haveAudio && WantedAudio(cfg, cfg.outputs[e.id], e.stem)))
  }

  // The chains

  predicate InChains(cs: seq<Chain>, e: Element) {
    exists c | c in cs :: e in c
  }

  lemma WhenHas(b: bool, c: Chain, e: Element)
    ensures e in When(b, c) <==> b && e in c
  {
  }

  lemma VideoHeadHas(cfg: Config, i: nat, e: Element)
    ensures e in VideoHead(cfg, i) <==>
            e == VTEE || (e.id == i && (e.stem.VideoTeeQueue? || (e.stem.AspectRatio? && cfg.aspectRatio)
                                        || ((e.stem.VideoRate? || e.stem.VideoRateCaps?) && cfg.framerate && !cfg.mfxGpu)))
  {
    WhenHas(cfg.aspectRatio, [Element(AspectRatio, i)], e);
    WhenHas(cfg.framerate && !cfg.mfxGpu, [Element(VideoRate, i), Element(VideoRateCaps, i)], e);
    hide When;
  }

  lemma EncoderHas(i: nat, p: bool, q: bool, e: Element)
    ensures e in EncoderWith(i, p, q) <==>
            e.id == i && (e.stem.VideoCodec? || (e.stem.ProfileCaps? && p) || (e.stem.StreamFormatCaps? && q))
  {
    WhenHas(p, [Element(ProfileCaps, i)], e);
    WhenHas(q, [Element(StreamFormatCaps, i)], e);
    hide When;
  }

  lemma KeysAre()
    ensures PROFILE_KEY == "x264enc.profile" && STREAM_FORMAT_KEY == "x264enc.stream-format"
  {
  }

  lemma VideoTailHas(cfg: Config, scheme: Scheme, i: nat, e: Element)
    ensures e in VideoTail(cfg, scheme, i) <==>
            e.id == i && (e.stem.Muxer? || (e.stem.VideoPay? && scheme == Udp)
                          || (e.stem.VideoParser? && IsH264Encoder(cfg.videoEncoder)))
  {
    WhenHas(scheme == Udp, [Element(VideoPay, i)], e);
    WhenHas(IsH264Encoder(cfg.videoEncoder), [Element(VideoParser, i)], e);
    hide When, IsH264Encoder;
  }

  lemma VideoStreamHas(cfg: Config, scheme: Scheme, i: nat, e: Element)
    ensures e in VideoBranch(cfg, Stream(scheme), i) <==>
            e in VideoHead(cfg, i) || e in EncoderChain(cfg, i) || e in VideoTail(cfg, scheme, i)
  {
    hide VideoHead, EncoderChain, VideoTail;
  }

  lemma VideoDeviceHas(cfg: Config, i: nat, e: Element)
    ensures e in VideoBranch(cfg, Device, i) <==> e == VTEE || (e.id == i && (e.stem.VideoTeeQueue? || e.stem.VideoSink?))
  {
  }

  lemma VideoBranchHas(cfg: Config, o: Output, i: nat, e: Element)
    ensures e in VideoBranch(cfg, o, i) <==>
            e == VTEE || (e.id == i && (WantedVideo(cfg, o, e.stem) || (o.Stream? && e.stem.Muxer?)))
  {
    KeysAre();
    hide VideoBranch, VideoHead, EncoderWith, VideoTail, PROFILE_KEY, STREAM_FORMAT_KEY;
    match o
    case Device => VideoDeviceHas(cfg, i, e);
    case Stream(scheme) =>
      VideoStreamHas(cfg, scheme, i, e);
      VideoHeadHas(cfg, i, e);
      EncoderHas(i, cfg.videoEncoder == X264Enc && PROFILE_KEY in cfg.strArgs,
                 cfg.videoEncoder == X264Enc && STREAM_FORMAT_KEY in cfg.strArgs, e);
      VideoTailHas(cfg, scheme, i, e);
  }

  lemma AudioBranchHas(cfg: Config, o: Output, i: nat, e: Element)
    ensures e in AudioBranch(cfg, o, i) <==>
            e == ATEE || (e.id == i && (WantedAudio(cfg, o, e.stem) || (o.Stream? && e.stem.Muxer?)))
  {
    match o
    case Device =>
    case Stream(scheme) =>
      WhenHas(scheme == Udp, [Element(AudioPay, i)], e);
      hide When;
  }

  lemma OutputChainsHave(cfg: Config, i: nat, e: Element)
    requires i < |cfg.outputs|
    ensures InChains(OutputChains(cfg, i), e) <==>
            || (cfg.haveVideo && e in VideoBranch(cfg, cfg.outputs[i], i))
            || (cfg.haveAudio && e in AudioBranch(cfg, cfg.outputs[i], i))
            || (cfg.outputs[i].Stream? && e.id == i && (e.stem.Muxer? || e.stem.Sink?))
  {
    hide VideoBranch, AudioBranch;
    var v, a := VideoBranch(cfg, cfg.outputs[i], i), AudioBranch(cfg, cfg.outputs[i], i);
    var m, cs := [Element(Muxer, i), Element(Sink, i)], OutputChains(cfg, i);
    if cfg.haveVideo { assert v in cs; }
    if cfg.haveAudio { assert a in cs; }
    if cfg.outputs[i].Stream? { assert m in cs; }
  }

  lemma InputChainsHave(cfg: Config, i: nat, e: Element)
    ensures InChains(InputChains(cfg, i), e) <==>
            || (e.id == i && (e.stem.Src? || e.stem.Decodebin?))
            || (cfg.haveVideo && (e == VMIX || (e.id == i && (e.stem.UdbVideo? || e.stem.MuxScale? || e.stem.MuxScaleCaps?
                                                              || e.stem.VideoBox?))))
            || (cfg.haveAudio && (e == AMIX || (e.id == i && (e.stem.UdbAudio? || e.stem.Level?))))
  {
    var h, v, a := [Element(Src, i), Element(Decodebin, i)],
      [Element(UdbVideo, i), Element(MuxScale, i), Element(MuxScaleCaps, i), Element(VideoBox, i), VMIX],
      [Element(UdbAudio, i), Element(Level, i), AMIX];
    var cs := InputChains(cfg, i);
    assert cs[0] == h && h in cs;
    if cfg.haveVideo { assert cs[1] == v && v in cs; }
    if cfg.haveAudio { assert cs[|cs| - 1] == a && a in cs; }
  }

  lemma ChainsAdd(g: Graph, cs: seq<Chain>, e: Element)
    ensures e in AddChains(g, cs).elements <==> e in g.elements || InChains(cs, e)
  {
    AddChainsMembers(g, cs);
    hide AddChains;
  }

  /** With the first n inputs. */
  lemma {:induction false} InputGraphHas(cfg: Config, n: nat, e: Element)
    ensures e in InputGraph(cfg, n).elements <==>
            e == VMIX || e == AMIX || (e.id < n && InChains(InputChains(cfg, e.id), e) && PartOf(e.stem) == InputPart)
  {
    hide InChains, InputChains;
    if n > 0 {
      InputGraphHas(cfg, n - 1, e);
      ChainsAdd(InputGraph(cfg, n - 1), InputChains(cfg, n - 1), e);
      InputChainsHave(cfg, n - 1, e);
      hide AddChains;
    }
  }

  lemma TrunksHave(cfg: Config, e: Element)
    ensures e in VideoTrunk(cfg) <==>
            e == VMIX || (e.id == 0 && (e.stem.Cairo? || e.stem.VideoConvert? || e.stem.VideoTee?
                                        || (e.stem.Deinterlace? && cfg.deinterlace)))
    ensures e in AudioTrunk(cfg) <==>
            e == AMIX || (e.id == 0 && (e.stem.AudioConvert? || e.stem.AudioTee? || (e.stem.Volume? && cfg.volume)
                                        || (e.stem.AudioConvertCaps? && cfg.audioChannels)))
  {
    WhenHas(cfg.deinterlace, [Element(Deinterlace, 0)], e);
    WhenHas(cfg.audioChannels, [Element(AudioConvertCaps, 0)], e);
    WhenHas(cfg.volume, [Element(Volume, 0)], e);
    hide When;
  }

  lemma TrunkChainsHave(cfg: Config, e: Element)
    ensures InChains((if cfg.haveVideo then [VideoTrunk(cfg)] else []) + (if cfg.haveAudio then [AudioTrunk(cfg)] else []),
                     e)
            <==> (cfg.haveVideo && e in VideoTrunk(cfg)) || (cfg.haveAudio && e in AudioTrunk(cfg))
  {
    hide VideoTrunk, AudioTrunk;
    var v, a := VideoTrunk(cfg), AudioTrunk(cfg);
    var cs := (if cfg.haveVideo then [v] else []) + (if cfg.haveAudio then [a] else []);
    if cfg.haveVideo { assert v in cs; }
    if cfg.haveAudio { assert a in cs; }
  }

  predicate OfOutput(e: Element) {
    match PartOf(e.stem)
    case InputPart => false
    case VideoTrunkPart => false
    case AudioTrunkPart => false
    case _ => true
  }

  /** Before any output. */
  lemma TrunkGraphHas(cfg: Config, e: Element)
    ensures e in TrunkGraph(cfg).elements <==> Wanted(cfg, e) && !OfOutput(e)
  {
    InputGraphHas(cfg, cfg.inputs, e);
    InputChainsHave(cfg, e.id, e);
    TrunksHave(cfg, e);
    TrunkChainsHave(cfg, e);
    ChainsAdd(InputGraph(cfg, cfg.inputs), (if cfg.haveVideo then [VideoTrunk(cfg)] else [])
                                           + (if cfg.haveAudio then [AudioTrunk(cfg)] else []), e);
    hide InputGraph, InputChains, InChains, VideoTrunk, AudioTrunk, AddChains, WantedVideo, WantedAudio;
  }

  lemma PartsAreOfOutput(cfg: Config, o: Output, stem: Stem, id: nat)
    requires WantedVideo(cfg, o, stem) || WantedAudio(cfg, o, stem) || stem.Muxer? || stem.Sink?
    ensures OfOutput(Element(stem, id))
  {
  }

  lemma WantedParts(cfg: Config, e: Element)
    requires e.id < |cfg.outputs| && OfOutput(e)
    ensures var o := cfg.outputs[e.id];
            Wanted(cfg, e) <==>
            || (cfg.haveVideo && WantedVideo(cfg, o, e.stem)) || (cfg.haveAudio && WantedAudio(cfg, o, e.stem))
            || (o.Stream? && (e.stem.Muxer? || e.stem.Sink?))
  {
  }

  /** An output adds its own wanted elements, and starts at the tees. */
  lemma OutputChainsWant(cfg: Config, i: nat, e: Element)
    requires i < |cfg.outputs|
    ensures InChains(OutputChains(cfg, i), e) <==>
            || (OfOutput(e) && e.id == i && Wanted(cfg, e))
            || (cfg.haveVideo && e == VTEE) || (cfg.haveAudio && e == ATEE)
  {
    hide *;
    var o := cfg.outputs[i];
    OutputChainsHave(cfg, i, e);
    VideoBranchHas(cfg, o, i, e);
    AudioBranchHas(cfg, o, i, e);
    if WantedVideo(cfg, o, e.stem) || WantedAudio(cfg, o, e.stem) || e.stem.Muxer? || e.stem.Sink? {
      PartsAreOfOutput(cfg, o, e.stem, e.id);
    }
    if e.id == i && OfOutput(e) {
      WantedParts(cfg, e);
    }
  }

  lemma Tees(cfg: Config)
    ensures (cfg.haveVideo ==> Wanted(cfg, VTEE)) && (cfg.haveAudio ==> Wanted(cfg, ATEE))
    ensures !OfOutput(VTEE) && !OfOutput(ATEE)
  {
  }

  /** With the first n outputs. */
  lemma {:induction false} OutputGraphHas(cfg: Config, n: nat, e: Element)
    requires n <= |cfg.outputs|
    ensures e in OutputGraph(cfg, n).elements <==> Wanted(cfg, e) && (OfOutput(e) ==> e.id < n)
  {
    hide Wanted, OfOutput, InChains, OutputChains, TrunkGraph, AddChains;
    if n == 0 {
      TrunkGraphHas(cfg, e);
    } else {
      OutputGraphHas(cfg, n - 1, e);
      OutputChainsWant(cfg, n - 1, e);
      ChainsAdd(OutputGraph(cfg, n - 1), OutputChains(cfg, n - 1), e);
      Tees(cfg);
    }
  }

  lemma OutputInRange(cfg: Config, e: Element)
    requires Wanted(cfg, e) && OfOutput(e)
    ensures e.id < |cfg.outputs|
  {
  }

  /** The pipeline has an element exactly when the configuration wants it. */
  lemma ElementIff(cfg: Config, e: Element)
    ensures e in MosaicGraph(cfg).elements <==> Wanted(cfg, e)
  {
    OutputGraphHas(cfg, |cfg.outputs|, e);
    hide Wanted, OfOutput, OutputGraph;
    if Wanted(cfg, e) && OfOutput(e) {
      OutputInRange(cfg, e);
    }
  }
}
