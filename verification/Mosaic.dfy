/** What the mosaic pipeline is: the chains of elements a configuration stands for, and what the graph of them promises. */
module Mosaic {
  import opened Wrappers
  import opened Decimal
  import opened Names
  import opened Elements

  datatype VideoEncoder =
    | X264Enc | X265Enc | Mpeg2Enc | VaapiH264Enc | VaapiMpeg2Enc | MfxH264Enc | OpenH264Enc | EavcEnc | NvH264Enc
    | NvH265Enc | MsdkH264Enc

  datatype AudioEncoder = Faac | VoaacEnc | LameMp3Enc

  function PluginName(v: VideoEncoder): string {
    match v
    case X264Enc => X264_ENC
    case X265Enc => "x265enc"
    case Mpeg2Enc => "mpeg2enc"
    case VaapiH264Enc => "vaapih264enc"
    case VaapiMpeg2Enc => "vaapimpeg2enc"
    case MfxH264Enc => "mfxh264enc"
    case OpenH264Enc => "openh264enc"
    case EavcEnc => "eavcenc"
    case NvH264Enc => "nvh264enc"
    case NvH265Enc => "nvh265enc"
    case MsdkH264Enc => "msdkh264enc"
  }

  predicate IsH264Encoder(v: VideoEncoder) {
    v == X264Enc || v == VaapiH264Enc || v == OpenH264Enc || v == NvH264Enc || v == MfxH264Enc
  }

  /** The schemes there is a muxer for. */
  datatype Scheme = Rtmp | Udp | Tcp | Http | Srt

  /** An output is a device (screen or decklink) or a stream. */
  datatype Output = Device | Stream(scheme: Scheme)

  const X264_ENC := "x264enc"
  const PROFILE_KEY := X264_ENC + "." + "profile"
  const STREAM_FORMAT_KEY := X264_ENC + "." + "stream-format"

  /** strArgs are the keys of the encoder's text arguments, in the order of the map that holds them. */
  datatype Config = Config(inputs: nat, outputs: seq<Output>, haveVideo: bool, haveAudio: bool, deinterlace: bool,
                           audioChannels: bool, volume: bool, aspectRatio: bool, framerate: bool, mfxGpu: bool,
                           videoEncoder: VideoEncoder, strArgs: seq<string>, audioEncoder: AudioEncoder)

  /** The order of strings. */
  predicate Before(a: string, b: string) {
    b != "" && (a == "" || a[0] < b[0] || (a[0] == b[0] && Before(a[1..], b[1..])))
  }

  predicate MapOrder(keys: seq<string>) {
    forall i, j | 0 <= i < j < |keys| :: Before(keys[i], keys[j])
  }

  /** An encoder an rtp payloader exists for. */
  predicate Payable(v: VideoEncoder) {
    IsH264Encoder(v) || v == X265Enc || v == Mpeg2Enc
  }

  predicate Supported(cfg: Config) {
    && MapOrder(cfg.strArgs)
    && forall i | 0 <= i < |cfg.outputs| :: cfg.outputs[i] == Stream(Udp) && cfg.haveVideo ==> Payable(cfg.videoEncoder)
  }

  const VMIX := Element(VideoMixer, 0)
  const AMIX := Element(AudioMixer, 0)
  const VTEE := Element(VideoTee, 0)
  const ATEE := Element(AudioTee, 0)

  function When(b: bool, c: Chain): Chain {
    if b then c else []
  }

  function InputChains(cfg: Config, i: nat): seq<Chain> {
    [[Element(Src, i), Element(Decodebin, i)]]
    + (if cfg.haveVideo then
         [[Element(UdbVideo, i), Element(MuxScale, i), Element(MuxScaleCaps, i), Element(VideoBox, i), VMIX]]
       else [])
    + (if cfg.haveAudio then [[Element(UdbAudio, i), Element(Level, i), AMIX]] else [])
  }

  function VideoTrunk(cfg: Config): Chain {
    [VMIX, Element(Cairo, 0), Element(VideoConvert, 0)] + When(cfg.deinterlace, [Element(Deinterlace, 0)]) + [VTEE]
  }

  function AudioTrunk(cfg: Config): Chain {
    [AMIX, Element(AudioConvert, 0)] + When(cfg.audioChannels, [Element(AudioConvertCaps, 0)])
    + When(cfg.volume, [Element(Volume, 0)]) + [ATEE]
  }

  /** The encoder, followed by a filter for each text argument that asks for one. */
  function EncoderChain(cfg: Config, i: nat): Chain {
    EncoderWith(i, cfg.videoEncoder == X264Enc && PROFILE_KEY in cfg.strArgs,
                cfg.videoEncoder == X264Enc && STREAM_FORMAT_KEY in cfg.strArgs)
  }

  function EncoderWith(i: nat, profile: bool, format: bool): Chain {
    [Element(VideoCodec, i)] + When(profile, [Element(ProfileCaps, i)]) + When(format, [Element(StreamFormatCaps, i)])
  }

  /** Before the encoder: the aspect ratio and, unless the encoder is an mfx one, the frame rate. */
  function VideoHead(cfg: Config, i: nat): Chain {
    [VTEE, Element(VideoTeeQueue, i)]
    + When(cfg.aspectRatio, [Element(AspectRatio, i)])
    + When(cfg.framerate && !cfg.mfxGpu, [Element(VideoRate, i), Element(VideoRateCaps, i)])
  }

  /** After the encoder: the rtp payloader and the h264 parser, if called for, and the muxer. */
  function VideoTail(cfg: Config, scheme: Scheme, i: nat): Chain {
    When(scheme == Udp, [Element(VideoPay, i)])
    + When(IsH264Encoder(cfg.videoEncoder), [Element(VideoParser, i)])
    + [Element(Muxer, i)]
  }

  function VideoBranch(cfg: Config, o: Output, i: nat): Chain {
    match o
    case Device => [VTEE, Element(VideoTeeQueue, i), Element(VideoSink, i)]
    case Stream(scheme) => VideoHead(cfg, i) + EncoderChain(cfg, i) + VideoTail(cfg, scheme, i)
  }

  /** An mp3 encoder stands between a resampler and a parser. */
  function AudioEncoderChain(cfg: Config, i: nat): Chain {
    if cfg.audioEncoder == LameMp3Enc then
      [Element(AudioResample, i), Element(AudioCodec, i), Element(MpegAudioParse, i)]
    else [Element(AudioCodec, i)]
  }

  function AudioBranch(cfg: Config, o: Output, i: nat): Chain {
    match o
    case Device => [ATEE, Element(AudioTeeQueue, i), Element(AudioSink, i)]
    case Stream(scheme) =>
      [ATEE, Element(AudioTeeQueue, i)]
      + AudioEncoderChain(cfg, i)
      + When(scheme == Udp, [Element(AudioPay, i)])
      + [Element(Muxer, i)]
  }

  function OutputChains(cfg: Config, i: nat): seq<Chain>
    requires i < |cfg.outputs|
  {
    (if cfg.haveVideo then [VideoBranch(cfg, cfg.outputs[i], i)] else [])
    + (if cfg.haveAudio then [AudioBranch(cfg, cfg.outputs[i], i)] else [])
    + (if cfg.outputs[i] == Device then [] else [[Element(Muxer, i), Element(Sink, i)]])
  }

  function InputGraph(cfg: Config, n: nat): Graph {
    if n == 0 then Graph({VMIX, AMIX}, {}) else AddChains(InputGraph(cfg, n - 1), InputChains(cfg, n - 1))
  }

  function TrunkGraph(cfg: Config): Graph {
    AddChains(InputGraph(cfg, cfg.inputs),
              (if cfg.haveVideo then [VideoTrunk(cfg)] else []) + (if cfg.haveAudio then [AudioTrunk(cfg)] else []))
  }

  function OutputGraph(cfg: Config, n: nat): Graph
    requires n <= |cfg.outputs|
  {
    if n == 0 then TrunkGraph(cfg) else AddChains(OutputGraph(cfg, n - 1), OutputChains(cfg, n - 1))
  }

  function MosaicGraph(cfg: Config): Graph {
    OutputGraph(cfg, |cfg.outputs|)
  }

  // No cycles

  /** Ranks grow strictly along the chain, from lo on and below hi. */
  predicate Steps(c: Chain, lo: nat, hi: nat) {
    if c == [] then lo <= hi else lo <= Rank(c[0].stem) < hi && Steps(c[1..], Rank(c[0].stem) + 1, hi)
  }

  lemma {:induction false} StepsJoin(a: Chain, b: Chain, lo: nat, mid: nat, hi: nat)
    requires Steps(a, lo, mid) && Steps(b, mid, hi)
    ensures Steps(a + b, lo, hi)
    decreases a
  {
    hide Rank;
    if a == [] {
      assert a + b == b;
      StepsLower(b, lo, mid, hi);
    } else {
      StepsJoin(a[1..], b, Rank(a[0].stem) + 1, mid, hi);
      assert (a + b)[1..] == a[1..] + b && (a + b)[0] == a[0];
    }
  }

  lemma StepsLower(b: Chain, lo: nat, mid: nat, hi: nat)
    requires Steps(b, mid, hi) && lo <= mid
    ensures Steps(b, lo, hi)
  {
  }

  lemma {:induction false} StepsDescend(c: Chain, lo: nat, hi: nat)
    requires Steps(c, lo, hi)
    ensures Descends(Pairs(c))
  {
    hide Rank;
    if |c| > 1 {
      StepsDescend(c[1..], Rank(c[0].stem) + 1, hi);
    }
  }

  lemma Steps1(a: Element, lo: nat, hi: nat)
    requires lo <= Rank(a.stem) < hi
    ensures Steps([a], lo, hi)
  {
    hide Rank;
  }

  lemma Steps2(a: Element, b: Element, lo: nat, hi: nat)
    requires lo <= Rank(a.stem) < Rank(b.stem) < hi
    ensures Steps([a, b], lo, hi)
  {
    hide Rank;
    Steps1(b, Rank(a.stem) + 1, hi);
    assert [a, b][1..] == [b];
  }

  lemma Steps3(a: Element, b: Element, c: Element, lo: nat, hi: nat)
    requires lo <= Rank(a.stem) < Rank(b.stem) < Rank(c.stem) < hi
    ensures Steps([a, b, c], lo, hi)
  {
    hide Rank;
    Steps2(b, c, Rank(a.stem) + 1, hi);
    assert [a, b, c][1..] == [b, c];
  }

  /** A part that may be left out. */
  lemma StepsWhen(c: Chain, on: bool, part: Chain, lo: nat, mid: nat, hi: nat)
    requires Steps(c, lo, mid) && Steps(part, mid, hi) && mid <= hi
    ensures Steps(c + When(on, part), lo, hi)
  {
    hide Steps;
    if on {
      StepsJoin(c, part, lo, mid, hi);
    } else {
      assert c + [] == c;
      StepsRoom(c, lo, mid, hi);
    }
  }

  lemma {:induction false} StepsRoom(c: Chain, lo: nat, mid: nat, hi: nat)
    requires Steps(c, lo, mid) && mid <= hi
    ensures Steps(c, lo, hi)
    decreases c
  {
    hide Rank;
    if c != [] {
      StepsRoom(c[1..], Rank(c[0].stem) + 1, mid, hi);
    }
  }

  lemma InputChainsDescend(cfg: Config, i: nat, c: Chain)
    requires c in InputChains(cfg, i)
    ensures Descends(Pairs(c))
  {
    hide Steps, Pairs, Descends;
    if c == [Element(Src, i), Element(Decodebin, i)] {
      Steps2(c[0], c[1], 0, 7);
    } else if c == [Element(UdbAudio, i), Element(Level, i), AMIX] {
      Steps3(c[0], c[1], c[2], 0, 7);
    } else {
      var front, back := [Element(UdbVideo, i), Element(MuxScale, i), Element(MuxScaleCaps, i)], [Element(VideoBox, i), VMIX];
      Steps3(front[0], front[1], front[2], 0, 5);
      Steps2(back[0], back[1], 5, 7);
      StepsJoin(front, back, 0, 5, 7);
      assert c == front + back;
    }
    StepsDescend(c, 0, 7);
  }

  lemma VideoTrunkDescends(cfg: Config)
    ensures Descends(Pairs(VideoTrunk(cfg)))
  {
    hide Steps, Pairs, Descends, When;
    var c1, c2 := [VMIX, Element(Cairo, 0), Element(VideoConvert, 0)], [Element(Deinterlace, 0)];
    Steps3(c1[0], c1[1], c1[2], 6, 9);
    Steps1(c2[0], 9, 10);
    StepsWhen(c1, cfg.deinterlace, c2, 6, 9, 10);
    Steps1(VTEE, 10, 11);
    StepsJoin(c1 + When(cfg.deinterlace, c2), [VTEE], 6, 10, 11);
    StepsDescend(VideoTrunk(cfg), 6, 11);
  }

  lemma AudioTrunkDescends(cfg: Config)
    ensures Descends(Pairs(AudioTrunk(cfg)))
  {
    hide Steps, Pairs, Descends, When;
    var c1, c2, c3 := [AMIX, Element(AudioConvert, 0)], [Element(AudioConvertCaps, 0)], [Element(Volume, 0)];
    Steps2(c1[0], c1[1], 6, 8);
    Steps1(c2[0], 8, 9);
    Steps1(c3[0], 9, 10);
    StepsWhen(c1, cfg.audioChannels, c2, 6, 8, 9);
    var c12 := c1 + When(cfg.audioChannels, c2);
    StepsWhen(c12, cfg.volume, c3, 6, 9, 10);
    Steps1(ATEE, 10, 11);
    StepsJoin(c12 + When(cfg.volume, c3), [ATEE], 6, 10, 11);
    StepsDescend(AudioTrunk(cfg), 6, 11);
  }

  lemma EncoderSteps(cfg: Config, i: nat)
    ensures Steps(EncoderChain(cfg, i), 15, 18)
  {
    hide Steps, When, PROFILE_KEY, STREAM_FORMAT_KEY;
    var c1, c2, c3 := [Element(VideoCodec, i)], [Element(ProfileCaps, i)], [Element(StreamFormatCaps, i)];
    var profile := cfg.videoEncoder == X264Enc && PROFILE_KEY in cfg.strArgs;
    Steps1(c1[0], 15, 16);
    Steps1(c2[0], 16, 17);
    Steps1(c3[0], 17, 18);
    StepsWhen(c1, profile, c2, 15, 16, 17);
    StepsWhen(c1 + When(profile, c2), cfg.videoEncoder == X264Enc && STREAM_FORMAT_KEY in cfg.strArgs, c3, 15, 17, 18);
  }

  lemma VideoBranchDescends(cfg: Config, o: Output, i: nat)
    ensures Descends(Pairs(VideoBranch(cfg, o, i)))
  {
    hide Steps, Pairs, Descends, EncoderChain, VideoHead, VideoTail;
    if o == Device {
      Steps3(VTEE, Element(VideoTeeQueue, i), Element(VideoSink, i), 10, 22);
      StepsDescend(VideoBranch(cfg, o, i), 10, 22);
      return;
    }
    hide Rank;
    VideoHeadSteps(cfg, i);
    EncoderSteps(cfg, i);
    VideoTailSteps(cfg, o.scheme, i);
    StepsJoin(VideoHead(cfg, i), EncoderChain(cfg, i), 10, 15, 18);
    StepsJoin(VideoHead(cfg, i) + EncoderChain(cfg, i), VideoTail(cfg, o.scheme, i), 10, 18, 21);
    StepsDescend(VideoBranch(cfg, o, i), 10, 21);
  }

  lemma VideoHeadSteps(cfg: Config, i: nat)
    ensures Steps(VideoHead(cfg, i), 10, 15)
  {
    hide Steps, When;
    var c1, c2 := [VTEE, Element(VideoTeeQueue, i)], [Element(AspectRatio, i)];
    var c3 := [Element(VideoRate, i), Element(VideoRateCaps, i)];
    Steps2(c1[0], c1[1], 10, 12);
    Steps1(c2[0], 12, 13);
    Steps2(c3[0], c3[1], 13, 15);
    StepsWhen(c1, cfg.aspectRatio, c2, 10, 12, 13);
    StepsWhen(c1 + When(cfg.aspectRatio, c2), cfg.framerate && !cfg.mfxGpu, c3, 10, 13, 15);
  }

  lemma VideoTailSteps(cfg: Config, scheme: Scheme, i: nat)
    ensures Steps(VideoTail(cfg, scheme, i), 18, 21)
  {
    hide IsH264Encoder;
    var c1, c2, c3 := [Element(VideoPay, i)], [Element(VideoParser, i)], [Element(Muxer, i)];
    var h264 := IsH264Encoder(cfg.videoEncoder);
    Steps1(c1[0], 18, 19);
    Steps1(c2[0], 19, 20);
    Steps1(c3[0], 20, 21);
    assert Steps(When(scheme == Udp, c1), 18, 19);
    hide Steps, When;
    StepsWhen(When(scheme == Udp, c1), h264, c2, 18, 19, 20);
    StepsJoin(When(scheme == Udp, c1) + When(h264, c2), c3, 18, 20, 21);
  }

  lemma AudioEncoderSteps(cfg: Config, i: nat)
    ensures Steps(AudioEncoderChain(cfg, i), 12, 15)
  {
    hide Steps;
    Steps3(Element(AudioResample, i), Element(AudioCodec, i), Element(MpegAudioParse, i), 12, 15);
    Steps1(Element(AudioCodec, i), 12, 15);
  }

  lemma AudioBranchDescends(cfg: Config, o: Output, i: nat)
    ensures Descends(Pairs(AudioBranch(cfg, o, i)))
  {
    hide Steps, Pairs, Descends, When;
    if o == Device {
      Steps3(ATEE, Element(AudioTeeQueue, i), Element(AudioSink, i), 10, 22);
      StepsDescend(AudioBranch(cfg, o, i), 10, 22);
      return;
    }
    Steps2(ATEE, Element(AudioTeeQueue, i), 10, 12);
    AudioEncoderSteps(cfg, i);
    Steps1(Element(AudioPay, i), 15, 16);
    Steps1(Element(Muxer, i), 16, 21);
    hide Rank, AudioEncoderChain;
    var c := [ATEE, Element(AudioTeeQueue, i)];
    StepsJoin(c, AudioEncoderChain(cfg, i), 10, 12, 15);
    c := c + AudioEncoderChain(cfg, i);
    StepsWhen(c, o.scheme == Udp, [Element(AudioPay, i)], 10, 15, 16);
    c := c + When(o.scheme == Udp, [Element(AudioPay, i)]);
    StepsJoin(c, [Element(Muxer, i)], 10, 16, 21);
    StepsDescend(AudioBranch(cfg, o, i), 10, 21);
  }

  lemma {:induction false} AddChainsDescends(g: Graph, cs: seq<Chain>)
    requires Descends(g.links) && forall c | c in cs :: Descends(Pairs(c))
    ensures Descends(AddChains(g, cs).links)
    decreases cs
  {
    hide Rank, Pairs;
    if cs != [] {
      assert cs[0] in cs;
      AddChainsDescends(AddChain(g, cs[0]), cs[1..]);
    }
  }

  lemma {:induction false} InputGraphDescends(cfg: Config, n: nat)
    ensures Descends(InputGraph(cfg, n).links)
  {
    hide Rank, Pairs, InputChains;
    if n > 0 {
      InputGraphDescends(cfg, n - 1);
      forall c | c in InputChains(cfg, n - 1) ensures Descends(Pairs(c)) {
        InputChainsDescend(cfg, n - 1, c);
      }
      AddChainsDescends(InputGraph(cfg, n - 1), InputChains(cfg, n - 1));
    }
  }

  lemma TrunkGraphDescends(cfg: Config)
    ensures Descends(TrunkGraph(cfg).links)
  {
    hide Pairs, VideoTrunk, AudioTrunk, Rank, InputGraph;
    InputGraphDescends(cfg, cfg.inputs);
    VideoTrunkDescends(cfg);
    AudioTrunkDescends(cfg);
    AddChainsDescends(InputGraph(cfg, cfg.inputs), (if cfg.haveVideo then [VideoTrunk(cfg)] else [])
                                                   + (if cfg.haveAudio then [AudioTrunk(cfg)] else []));
  }

  lemma OutputChainsDescend(cfg: Config, i: nat, c: Chain)
    requires i < |cfg.outputs| && c in OutputChains(cfg, i)
    ensures Descends(Pairs(c))
  {
    hide Pairs, VideoBranch, AudioBranch, Steps, Descends;
    VideoBranchDescends(cfg, cfg.outputs[i], i);
    AudioBranchDescends(cfg, cfg.outputs[i], i);
    Steps2(Element(Muxer, i), Element(Sink, i), 20, 22);
    StepsDescend([Element(Muxer, i), Element(Sink, i)], 20, 22);
  }

  lemma {:induction false} OutputGraphDescends(cfg: Config, n: nat)
    requires n <= |cfg.outputs|
    ensures Descends(OutputGraph(cfg, n).links)
  {
    hide Pairs, OutputChains, TrunkGraph, Rank;
    if n == 0 {
      TrunkGraphDescends(cfg);
    } else {
      OutputGraphDescends(cfg, n - 1);
      forall c | c in OutputChains(cfg, n - 1) ensures Descends(Pairs(c)) {
        OutputChainsDescend(cfg, n - 1, c);
      }
      AddChainsDescends(OutputGraph(cfg, n - 1), OutputChains(cfg, n - 1));
    }
  }

  // What decodebin pads add while the pipeline runs

  /** The links made when the decoder of each input shows its pads. */
  function PadLinks(cfg: Config): set<Link> {
    (set i | 0 <= i < cfg.inputs && cfg.haveVideo :: (Element(Decodebin, i), Element(UdbVideo, i)))
    + (set i | 0 <= i < cfg.inputs && cfg.haveAudio :: (Element(Decodebin, i), Element(UdbAudio, i)))
  }

  function AllLinks(cfg: Config): set<Link> {
    MosaicGraph(cfg).links + PadLinks(cfg)
  }

  /** No element feeds itself, before and after the decoders have shown their pads. */
  lemma MosaicAcyclic(cfg: Config)
    ensures Acyclic(AllLinks(cfg)) && Acyclic(MosaicGraph(cfg).links)
  {
    OutputGraphDescends(cfg, |cfg.outputs|);
    PadLinksDescend(cfg);
    hide OutputGraph, PadLinks, Rank, Acyclic;
    DescendingIsAcyclic(AllLinks(cfg));
    DescendingIsAcyclic(MosaicGraph(cfg).links);
  }

  lemma PadLinksDescend(cfg: Config)
    ensures Descends(PadLinks(cfg))
  {
  }

  // From the mixers to the sinks

  lemma {:induction false} AddChainsHolds(g: Graph, cs: seq<Chain>)
    ensures g.links <= AddChains(g, cs).links
    ensures forall c | c in cs :: Pairs(c) <= AddChains(g, cs).links
    decreases cs
  {
    hide Pairs;
    if cs != [] {
      AddChainsHolds(AddChain(g, cs[0]), cs[1..]);
      forall c | c in cs ensures Pairs(c) <= AddChains(g, cs).links {
        assert c == cs[0] || c in cs[1..];
      }
    }
  }

  lemma {:induction false} OutputGraphGrows(cfg: Config, n: nat, m: nat)
    requires n <= m <= |cfg.outputs|
    ensures OutputGraph(cfg, n).links <= OutputGraph(cfg, m).links
  {
    hide OutputChains, TrunkGraph;
    if n < m {
      OutputGraphGrows(cfg, n, m - 1);
      AddChainsHolds(OutputGraph(cfg, m - 1), OutputChains(cfg, m - 1));
    }
  }

  lemma {:induction false} InputGraphGrows(cfg: Config, n: nat, m: nat)
    requires n <= m
    ensures InputGraph(cfg, n).links <= InputGraph(cfg, m).links
  {
    hide InputChains;
    if n < m {
      InputGraphGrows(cfg, n, m - 1);
      AddChainsHolds(InputGraph(cfg, m - 1), InputChains(cfg, m - 1));
    }
  }

  lemma OutputChainHeld(cfg: Config, i: nat, c: Chain)
    requires i < |cfg.outputs| && c in OutputChains(cfg, i)
    ensures Pairs(c) <= MosaicGraph(cfg).links
  {
    hide OutputChains, Pairs;
    AddChainsHolds(OutputGraph(cfg, i), OutputChains(cfg, i));
    OutputGraphGrows(cfg, i + 1, |cfg.outputs|);
  }

  lemma TrunkHeld(cfg: Config)
    ensures cfg.haveVideo ==> Pairs(VideoTrunk(cfg)) <= MosaicGraph(cfg).links
    ensures cfg.haveAudio ==> Pairs(AudioTrunk(cfg)) <= MosaicGraph(cfg).links
  {
    hide Pairs, VideoTrunk, AudioTrunk, InputGraph, OutputChains;
    var trunks := (if cfg.haveVideo then [VideoTrunk(cfg)] else []) + (if cfg.haveAudio then [AudioTrunk(cfg)] else []);
    AddChainsHolds(InputGraph(cfg, cfg.inputs), trunks);
    OutputGraphGrows(cfg, 0, |cfg.outputs|);
    assert cfg.haveVideo ==> VideoTrunk(cfg) in trunks;
    assert cfg.haveAudio ==> AudioTrunk(cfg) in trunks;
  }

  lemma InputChainHeld(cfg: Config, i: nat, c: Chain)
    requires i < cfg.inputs && c in InputChains(cfg, i)
    ensures Pairs(c) <= MosaicGraph(cfg).links
  {
    hide Pairs, InputChains, VideoTrunk, AudioTrunk, OutputChains;
    AddChainsHolds(InputGraph(cfg, i), InputChains(cfg, i));
    InputGraphGrows(cfg, i + 1, cfg.inputs);
    AddChainsHolds(InputGraph(cfg, cfg.inputs), (if cfg.haveVideo then [VideoTrunk(cfg)] else [])
                                                + (if cfg.haveAudio then [AudioTrunk(cfg)] else []));
    OutputGraphGrows(cfg, 0, |cfg.outputs|);
  }

  function VideoSinkOf(cfg: Config, i: nat): Element
    requires i < |cfg.outputs|
  {
    if cfg.outputs[i] == Device then Element(VideoSink, i) else Element(Sink, i)
  }

  function AudioSinkOf(cfg: Config, i: nat): Element
    requires i < |cfg.outputs|
  {
    if cfg.outputs[i] == Device then Element(AudioSink, i) else Element(Sink, i)
  }

  lemma BranchEnds(cfg: Config, o: Output, i: nat)
    ensures FromTo(VideoBranch(cfg, o, i), VTEE, if o == Device then Element(VideoSink, i) else Element(Muxer, i))
    ensures FromTo(AudioBranch(cfg, o, i), ATEE, if o == Device then Element(AudioSink, i) else Element(Muxer, i))
  {
    hide EncoderChain, AudioEncoderChain, When;
  }

  /** A trunk of the pipeline, then a branch of the output, then the muxer's sink unless the output is a device. */
  lemma SinkFed(cfg: Config, i: nat, trunk: Chain, branch: Chain, mixer: Element, tee: Element, end: Element)
    requires i < |cfg.outputs| && Pairs(trunk) <= MosaicGraph(cfg).links && branch in OutputChains(cfg, i)
    requires FromTo(trunk, mixer, tee) && FromTo(branch, tee, end)
    requires cfg.outputs[i] != Device ==> end == Element(Muxer, i)
    ensures Reaches(MosaicGraph(cfg).links, mixer, if cfg.outputs[i] == Device then end else Element(Sink, i))
  {
    hide MosaicGraph, Reaches, Pairs, VideoBranch, AudioBranch;
    var links, last := MosaicGraph(cfg).links, [Element(Muxer, i), Element(Sink, i)];
    ChainReaches(links, trunk);
    OutputChainHeld(cfg, i, branch);
    ChainReaches(links, branch);
    ReachesOnward(links, mixer, tee, end);
    if cfg.outputs[i] != Device {
      assert last in OutputChains(cfg, i);
      OutputChainHeld(cfg, i, last);
      ChainReaches(links, last);
      ReachesOnward(links, mixer, end, last[1]);
    }
  }

  /** Every output's sink is fed by the mixer of each medium the pipeline carries. */
  lemma SinksReached(cfg: Config, i: nat)
    requires i < |cfg.outputs|
    ensures var links := MosaicGraph(cfg).links;
            && (cfg.haveVideo ==> Reaches(links, VMIX, VideoSinkOf(cfg, i)))
            && (cfg.haveAudio ==> Reaches(links, AMIX, AudioSinkOf(cfg, i)))
  {
    var o := cfg.outputs[i];
    TrunkHeld(cfg);
    TrunkEnds(cfg);
    BranchEnds(cfg, o, i);
    hide MosaicGraph, VideoBranch, AudioBranch, VideoTrunk, AudioTrunk, Reaches, Pairs, FromTo;
    if cfg.haveVideo {
      SinkFed(cfg, i, VideoTrunk(cfg), VideoBranch(cfg, o, i), VMIX, VTEE,
              if o == Device then Element(VideoSink, i) else Element(Muxer, i));
    }
    if cfg.haveAudio {
      SinkFed(cfg, i, AudioTrunk(cfg), AudioBranch(cfg, o, i), AMIX, ATEE,
              if o == Device then Element(AudioSink, i) else Element(Muxer, i));
    }
  }

  lemma TrunkEnds(cfg: Config)
    ensures FromTo(VideoTrunk(cfg), VMIX, VTEE) && FromTo(AudioTrunk(cfg), AMIX, ATEE)
  {
  }

  /** With the decoders' pads linked, every input's source feeds the mixers, and so every sink. */
  lemma SourcesReachSinks(cfg: Config, j: nat, i: nat)
    requires j < cfg.inputs && i < |cfg.outputs|
    ensures cfg.haveVideo ==> Reaches(AllLinks(cfg), Element(Src, j), VideoSinkOf(cfg, i))
    ensures cfg.haveAudio ==> Reaches(AllLinks(cfg), Element(Src, j), AudioSinkOf(cfg, i))
  {
    SinksReached(cfg, i);
    SourceReachesMixers(cfg, j);
    hide Reaches, MosaicGraph, PadLinks;
    var links, all := MosaicGraph(cfg).links, AllLinks(cfg);
    if cfg.haveVideo {
      ReachesMore(links, all, VMIX, VideoSinkOf(cfg, i));
      ReachesOnward(all, Element(Src, j), VMIX, VideoSinkOf(cfg, i));
    }
    if cfg.haveAudio {
      ReachesMore(links, all, AMIX, AudioSinkOf(cfg, i));
      ReachesOnward(all, Element(Src, j), AMIX, AudioSinkOf(cfg, i));
    }
  }

  lemma SourceReachesMixers(cfg: Config, j: nat)
    requires j < cfg.inputs
    ensures cfg.haveVideo ==> Reaches(AllLinks(cfg), Element(Src, j), VMIX)
    ensures cfg.haveAudio ==> Reaches(AllLinks(cfg), Element(Src, j), AMIX)
  {
    var all := AllLinks(cfg);
    var head := [Element(Src, j), Element(Decodebin, j)];
    InputChainHeld(cfg, j, head);
    hide MosaicGraph;
    if cfg.haveVideo {
      var c := [Element(UdbVideo, j), Element(MuxScale, j), Element(MuxScaleCaps, j), Element(VideoBox, j), VMIX];
      InputChainHeld(cfg, j, c);
      PairsJoin(head, c);
      hide Pairs;
      ChainReaches(all, head + c);
    }
    if cfg.haveAudio {
      var c := [Element(UdbAudio, j), Element(Level, j), AMIX];
      InputChainHeld(cfg, j, c);
      PairsJoin(head, c);
      hide Pairs;
      ChainReaches(all, head + c);
    }
  }
}
