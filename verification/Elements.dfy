/** Pipeline elements and graphs of linked elements. */
module Elements {
  import opened Wrappers
  import opened Decimal
  import opened Names

  /** The name templates the mosaic pipeline uses. */
  datatype Stem =
    | Src | Decodebin
    | UdbVideo | MuxScale | MuxScaleCaps | VideoBox | UdbAudio | Level
    | VideoMixer | AudioMixer
    | Cairo | VideoConvert | Deinterlace | VideoTee
    | AudioConvert | AudioConvertCaps | Volume | AudioTee
    | VideoTeeQueue | AspectRatio | VideoRate | VideoRateCaps | VideoCodec | ProfileCaps | StreamFormatCaps
    | VideoPay | VideoParser | VideoSink
    | AudioTeeQueue | AudioResample | AudioCodec | MpegAudioParse | AudioPay | AudioSink
    | Muxer | Sink

  function Text(s: Stem): string {
    match s
    case Src => "src"
    case Decodebin => "decodebin"
    case UdbVideo => "udb_conn_video"
    case MuxScale => "mux_videoscale"
    case MuxScaleCaps => "mux_videoscale_capsfilter"
    case VideoBox => "videobox"
    case UdbAudio => "udb_conn_audio"
    case Level => "level"
    case VideoMixer => "videomixer"
    case Cairo => "cairo"
    case VideoConvert => "video_convert"
    case Deinterlace => "deinterlace"
    case VideoTee => "video_tee"
    case AudioMixer => "interlive"
    case AudioConvert => "audio_convert"
    case AudioConvertCaps => "audio_convert_capsfilter"
    case Volume => "volume"
    case AudioTee => "audio_tee"
    case VideoTeeQueue => "video_tee_queue"
    case AspectRatio => "aspect_ratio"
    case VideoRate => "videorate"
    case VideoRateCaps => "videorate_capsfilter"
    case VideoCodec => "video_codec"
    case ProfileCaps => "x264enc_capsfilter_profile"
    case StreamFormatCaps => "x264enc_capsfilter_stream_format"
    case VideoPay => "video_pay"
    case VideoParser => "video_parser"
    case VideoSink => "video_sink"
    case AudioTeeQueue => "audio_tee_queue"
    case AudioResample => "audioresample"
    case AudioCodec => "audio_codec"
    case MpegAudioParse => "mpegaudioparse"
    case AudioPay => "audio_pay"
    case AudioSink => "audio_sink"
    case Muxer => "muxer"
    case Sink => "sink"
  }

  function Length(s: Stem): nat {
    match s
    case Src => 3
    case Sink => 4
    case Level | Cairo | Muxer => 5
    case Volume => 6
    case VideoBox => 8
    case Decodebin | AudioMixer | VideoTee | AudioTee | VideoRate | VideoPay | AudioPay => 9
    case VideoMixer | VideoSink | AudioSink => 10
    case Deinterlace | VideoCodec | AudioCodec => 11
    case AspectRatio | VideoParser => 12
    case VideoConvert | AudioConvert | AudioResample => 13
    case UdbVideo | MuxScale | UdbAudio | MpegAudioParse => 14
    case VideoTeeQueue | AudioTeeQueue => 15
    case VideoRateCaps => 20
    case AudioConvertCaps => 24
    case MuxScaleCaps => 25
    case ProfileCaps => 26
    case StreamFormatCaps => 32
  }

  /** The part of the pipeline a template belongs to. */
  datatype Part = InputPart | VideoTrunkPart | AudioTrunkPart | VideoOutPart | AudioOutPart | MuxPart | SinkPart

  function PartOf(s: Stem): Part {
    match s
    case Src | Decodebin | UdbVideo | MuxScale | MuxScaleCaps | VideoBox | UdbAudio | Level => InputPart
    case VideoMixer | Cairo | VideoConvert | Deinterlace | VideoTee => VideoTrunkPart
    case AudioMixer | AudioConvert | AudioConvertCaps | Volume | AudioTee => AudioTrunkPart
    case Muxer => MuxPart
    case Sink => SinkPart
    case AudioTeeQueue | AudioResample | AudioCodec | MpegAudioParse | AudioPay | AudioSink => AudioOutPart
    case _ => VideoOutPart
  }

  predicate Upstream(s: Stem) {
    PartOf(s) == InputPart || PartOf(s) == VideoTrunkPart || PartOf(s) == AudioTrunkPart
  }

  lemma InputTextLength(s: Stem)
    requires Upstream(s)
    ensures |Text(s)| == Length(s)
  {
  }

  lemma OutputTextLength(s: Stem)
    requires !Upstream(s)
    ensures |Text(s)| == Length(s)
  {
  }

  lemma TextLength(s: Stem)
    ensures |Text(s)| == Length(s)
  {
    hide *;
    if Upstream(s) {
      InputTextLength(s);
    } else {
      OutputTextLength(s);
    }
  }

  lemma NineInjective(a: Stem, b: Stem)
    requires Length(a) == Length(b) == 9 && Text(a) == Text(b)
    ensures a == b
  {
    assert Text(a)[0] == Text(b)[0] && Text(a)[7] == Text(b)[7];
  }

  lemma ShortInjective(a: Stem, b: Stem)
    requires Length(a) == Length(b) < 12 && Length(a) != 9 && Text(a) == Text(b)
    ensures a == b
  {
    assert Text(a)[0] == Text(b)[0];
  }

  lemma LongInjective(a: Stem, b: Stem)
    requires 12 <= Length(a) == Length(b) < 15 && Text(a) == Text(b) && |Text(a)| == Length(a)
    ensures a == b
  {
    var n := Length(a);
    assert Text(a)[0] == Text(b)[0] && Text(a)[n - 2] == Text(b)[n - 2];
  }

  lemma LongestInjective(a: Stem, b: Stem)
    requires Length(a) == Length(b) >= 15 && Text(a) == Text(b)
    ensures a == b
  {
    assert Text(a)[0] == Text(b)[0];
  }

  lemma TextInjective(a: Stem, b: Stem)
    requires Text(a) == Text(b)
    ensures a == b
  {
    hide *;
    TextLength(a);
    TextLength(b);
    if Length(a) == 9 {
      NineInjective(a, b);
    } else if Length(a) < 12 {
      ShortInjective(a, b);
    } else if Length(a) < 15 {
      LongInjective(a, b);
    } else {
      LongestInjective(a, b);
    }
  }

  lemma InputsArePlain()
    ensures PlainStem("src") && PlainStem("decodebin") && PlainStem("udb_conn_video")
    ensures PlainStem("udb_conn_audio") && PlainStem("mux_videoscale")
  {
  }

  lemma InputStagesArePlain()
    ensures PlainStem("mux_videoscale_capsfilter") && PlainStem("videobox") && PlainStem("level")
  {
  }

  lemma VideoTrunkIsPlain()
    ensures PlainStem("videomixer") && PlainStem("cairo") && PlainStem("video_convert")
    ensures PlainStem("deinterlace") && PlainStem("video_tee")
  {
  }

  lemma AudioTrunkIsPlain()
    ensures PlainStem("interlive") && PlainStem("audio_convert") && PlainStem("audio_convert_capsfilter")
    ensures PlainStem("volume") && PlainStem("audio_tee")
  {
  }

  lemma VideoHeadIsPlain()
    ensures PlainStem("video_tee_queue") && PlainStem("aspect_ratio") && PlainStem("videorate")
    ensures PlainStem("videorate_capsfilter")
  {
  }

  lemma VideoEncoderIsPlain()
    ensures PlainStem("video_codec") && PlainStem("x264enc_capsfilter_profile")
    ensures PlainStem("x264enc_capsfilter_stream_format")
  {
  }

  lemma VideoTailIsPlain()
    ensures PlainStem("video_pay") && PlainStem("video_parser") && PlainStem("video_sink")
    ensures PlainStem("muxer") && PlainStem("sink")
  {
  }

  lemma AudioOutIsPlain()
    ensures PlainStem("audio_tee_queue") && PlainStem("audioresample") && PlainStem("audio_codec")
    ensures PlainStem("mpegaudioparse") && PlainStem("audio_pay") && PlainStem("audio_sink")
  {
  }

  lemma TextIsPlain(s: Stem)
    ensures PlainStem(Text(s))
  {
    hide PlainStem;
    match s {
      case Src | Decodebin | UdbVideo | UdbAudio | MuxScale => InputsArePlain();
      case MuxScaleCaps | VideoBox | Level => InputStagesArePlain();
      case VideoMixer | Cairo | VideoConvert | Deinterlace | VideoTee => VideoTrunkIsPlain();
      case AudioMixer | AudioConvert | AudioConvertCaps | Volume | AudioTee => AudioTrunkIsPlain();
      case VideoTeeQueue | AspectRatio | VideoRate | VideoRateCaps => VideoHeadIsPlain();
      case VideoCodec | ProfileCaps | StreamFormatCaps => VideoEncoderIsPlain();
      case VideoPay | VideoParser | VideoSink | Muxer | Sink => VideoTailIsPlain();
      case AudioTeeQueue | AudioResample | AudioCodec | MpegAudioParse | AudioPay | AudioSink => AudioOutIsPlain();
    }
  }

  /** The templates no mosaic pipeline uses. */
  const OTHER_TEMPLATES: seq<string> := [
    "post_proc", "videologo", "rsvg_videologo", "encoder_video_convert", "auto_video_convert", "text", "queue2",
    "video_caps_device", "videoscale_capsfilter", "videoscale", "video_decodebin", "audio_decodebin", "audio_parser",
    "audio_depay", "video_depay"]

  lemma PlainOtherHead(k: nat)
    requires k < 5
    ensures PlainStem(OTHER_TEMPLATES[k])
  {
  }

  lemma PlainOtherMiddle(k: nat)
    requires 5 <= k < 10
    ensures PlainStem(OTHER_TEMPLATES[k])
  {
  }

  lemma PlainOtherTail(k: nat)
    requires 10 <= k < |OTHER_TEMPLATES|
    ensures PlainStem(OTHER_TEMPLATES[k])
  {
  }

  datatype Element = Element(stem: Stem, id: nat) {
    function Name(): string {
      ElementName(Text(stem), id)
    }
  }

  lemma NameInjective(a: Element, b: Element)
    requires a.Name() == b.Name()
    ensures a == b
  {
    hide Text, ElementName;
    ElementNameInjective(Text(a.stem), a.id, Text(b.stem), b.id);
    TextInjective(a.stem, b.stem);
  }

  /** GetElementId undoes every template. */
  lemma IdOfElement(e: Element)
    requires e.id < UINT64_LIMIT
    ensures ElementId(e.Name()) == Id(e.id)
  {
    hide Text, PlainStem, ElementId, ElementName;
    TextIsPlain(e.stem);
    ElementIdOfName(Text(e.stem), e.id);
  }

  lemma IdOfOther(k: nat, id: nat)
    requires k < |OTHER_TEMPLATES| && id < UINT64_LIMIT
    ensures ElementId(ElementName(OTHER_TEMPLATES[k], id)) == Id(id)
  {
    hide PlainStem;
    if k < 5 {
      PlainOtherHead(k);
    } else if k < 10 {
      PlainOtherMiddle(k);
    } else {
      PlainOtherTail(k);
    }
    hide OTHER_TEMPLATES;
    ElementIdOfName(OTHER_TEMPLATES[k], id);
  }

  // Graphs

  type Link = (Element, Element)

  type Chain = seq<Element>

  datatype Graph = Graph(elements: set<Element>, links: set<Link>)

  function Members(c: Chain): set<Element> {
    set e | e in c
  }

  /** The links of a chain: each element to the next. */
  function Pairs(c: Chain): set<Link> {
    if |c| < 2 then {} else {(c[0], c[1])} + Pairs(c[1..])
  }

  function AddChain(g: Graph, c: Chain): Graph {
    Graph(g.elements + Members(c), g.links + Pairs(c))
  }

  function AddChains(g: Graph, cs: seq<Chain>): Graph
    decreases cs
  {
    if cs == [] then g else AddChains(AddChain(g, cs[0]), cs[1..])
  }

  lemma {:induction false} PairsJoin(a: Chain, b: Chain)
    requires a != [] && b != []
    ensures Pairs(a + b) == Pairs(a) + {(a[|a| - 1], b[0])} + Pairs(b)
  {
    var c := a + b;
    assert c[0] == a[0];
    if |a| == 1 {
      assert c[1..] == b;
    } else {
      PairsJoin(a[1..], b);
      assert c[1..] == a[1..] + b && c[1] == a[1];
    }
  }

  /** Linking the head of a chain to the end of another makes one chain of both. */
  lemma JoinChains(g: Graph, a: Chain, b: Chain)
    requires a != [] && b != []
    ensures var h := AddChain(AddChain(g, a), b);
            Graph(h.elements, h.links + {(a[|a| - 1], b[0])}) == AddChain(g, a + b)
  {
    hide Pairs;
    PairsJoin(a, b);
  }

  predicate IsPath(links: set<Link>, p: Chain) {
    p != [] && Pairs(p) <= links
  }

  predicate FromTo(p: Chain, a: Element, b: Element) {
    p != [] && p[0] == a && p[|p| - 1] == b
  }

  /** b can be reached from a along the links. */
  ghost predicate Reaches(links: set<Link>, a: Element, b: Element) {
    exists p :: IsPath(links, p) && FromTo(p, a, b)
  }

  lemma ReachesOnward(links: set<Link>, a: Element, b: Element, c: Element)
    requires Reaches(links, a, b) && Reaches(links, b, c)
    ensures Reaches(links, a, c)
  {
    var p :| IsPath(links, p) && FromTo(p, a, b);
    var q :| IsPath(links, q) && FromTo(q, b, c);
    if |q| > 1 {
      var r := p + q[1..];
      PairsJoin(p, q[1..]);
      assert IsPath(links, r) && FromTo(r, a, c);
    }
  }

  lemma ChainReaches(links: set<Link>, c: Chain)
    requires c != [] && Pairs(c) <= links
    ensures Reaches(links, c[0], c[|c| - 1])
  {
    assert IsPath(links, c) && FromTo(c, c[0], c[|c| - 1]);
  }

  lemma ReachesMore(links: set<Link>, more: set<Link>, a: Element, b: Element)
    requires links <= more && Reaches(links, a, b)
    ensures Reaches(more, a, b)
  {
    var p :| IsPath(links, p) && FromTo(p, a, b);
    assert IsPath(more, p);
  }

  /** How far down the pipeline a template stands. */
  function Rank(s: Stem): nat {
    match s
    case Src => 0
    case Decodebin => 1
    case UdbVideo => 2 case MuxScale => 3 case MuxScaleCaps => 4 case VideoBox => 5
    case UdbAudio => 2 case Level => 3
    case VideoMixer => 6 case Cairo => 7 case VideoConvert => 8 case Deinterlace => 9 case VideoTee => 10
    case AudioMixer => 6 case AudioConvert => 7 case AudioConvertCaps => 8 case Volume => 9 case AudioTee => 10
    case VideoTeeQueue => 11 case AspectRatio => 12 case VideoRate => 13 case VideoRateCaps => 14
    case VideoCodec => 15 case ProfileCaps => 16 case StreamFormatCaps => 17 case VideoPay => 18 case VideoParser => 19
    case AudioTeeQueue => 11 case AudioResample => 12 case AudioCodec => 13 case MpegAudioParse => 14 case AudioPay => 15
    case Muxer => 20
    case Sink => 21 case VideoSink => 21 case AudioSink => 21
  }

  predicate Descends(links: set<Link>) {
    forall l | l in links :: Rank(l.0.stem) < Rank(l.1.stem)
  }

  lemma {:induction false} PathDescends(links: set<Link>, p: Chain)
    requires Descends(links) && IsPath(links, p)
    ensures |p| > 1 ==> Rank(p[0].stem) < Rank(p[|p| - 1].stem)
  {
    hide Rank;
    if |p| > 1 {
      assert (p[0], p[1]) in links;
      PathDescends(links, p[1..]);
    }
  }

  ghost predicate Acyclic(links: set<Link>) {
    forall p | IsPath(links, p) && |p| > 1 :: p[0] != p[|p| - 1]
  }

  lemma DescendingIsAcyclic(links: set<Link>)
    requires Descends(links)
    ensures Acyclic(links)
  {
    forall p | IsPath(links, p) && |p| > 1 ensures p[0] != p[|p| - 1] {
      PathDescends(links, p);
    }
  }
}
