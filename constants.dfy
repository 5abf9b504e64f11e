/**
  Capability tables of mkchromecast: operating modes, the legal sample rates
  per codec, the encoder backends per platform and the bitrate settings.
 */
module Constants {

  /** The one high-level task of an invocation. */
  datatype OpMode =
    | Audiocast
    | Discover
    | InputFile
    | Reset
    | Screencast
    | SourceUrl
    | Tray
    | Version
    | Youtube

  /** Codecs limited to rates of at most 48 kHz. */
  const Max48kCodecs: set<string> := {"ogg", "mp3"}
  const Max48kSampleRates: seq<int> := [22050, 32000, 44100, 48000]
  const AllSampleRates: seq<int> := Max48kSampleRates + [88200, 96000, 176000, 192000]
  const QuantizedSampleRateCodecs: seq<string> := ["mp3", "ogg", "aac", "opus", "wav", "flac"]

  predicate StrictlyIncreasing(s: seq<int>) {
    forall i, j :: 0 <= i < j < |s| ==> s[i] < s[j]
  }

  /** The rates a codec may use: the four low rates for ogg and mp3, all eight for any other name. */
  function SampleRatesForCodec(codec: string): (rates: seq<int>)
    ensures codec == "ogg" || codec == "mp3" ==> rates == [22050, 32000, 44100, 48000]
    ensures codec != "ogg" && codec != "mp3" ==>
              rates == [22050, 32000, 44100, 48000, 88200, 96000, 176000, 192000]
  {
    if codec in Max48kCodecs then Max48kSampleRates else AllSampleRates
  }

  /** The full table is ascending and begins with the 48 kHz table. */
  lemma SampleRateTablesOrdered()
    ensures StrictlyIncreasing(AllSampleRates) && StrictlyIncreasing(Max48kSampleRates)
    ensures AllSampleRates[..|Max48kSampleRates|] == Max48kSampleRates
  {
  }

  /** Every table the rates lookup can return is non-empty and ascending. */
  lemma SampleRatesForCodecOrdered(codec: string)
    ensures |SampleRatesForCodec(codec)| > 0 && StrictlyIncreasing(SampleRatesForCodec(codec))
  {
    SampleRateTablesOrdered();
  }

  const DarwinBackends: seq<string> := ["node", "ffmpeg"]
  const LinuxVideoBackends: seq<string> := ["node", "ffmpeg"]
  const LinuxBackends: seq<string> := ["ffmpeg", "parec"]
  const AllBackends: seq<string> := ["node", "ffmpeg", "parec"]

  /**
    The backends offered on a platform. "Darwin" offers node and ffmpeg for
    audio and video alike; every other platform name is treated as Linux.
   */
  function BackendOptionsForPlatform(platform: string, video: bool := false): (options: seq<string>)
    ensures platform == "Darwin" ==> options == ["node", "ffmpeg"]
    ensures platform != "Darwin" && video ==> options == ["node", "ffmpeg"]
    ensures platform != "Darwin" && !video ==> options == ["ffmpeg", "parec"]
  {
    if platform == "Darwin" then DarwinBackends
    else if video then LinuxVideoBackends
    else LinuxBackends
  }

  /** "parec" is offered for Linux audio but not for Linux video, and the video flag defaults to false. */
  lemma LinuxBackendsDependOnVideo(platform: string)
    requires platform != "Darwin"
    ensures "parec" in BackendOptionsForPlatform(platform, false)
    ensures "parec" !in BackendOptionsForPlatform(platform, true)
    ensures BackendOptionsForPlatform(platform) == BackendOptionsForPlatform(platform, false)
  {
  }

  /** Every per-platform list only names known backends. */
  lemma BackendOptionsAreKnown(platform: string, video: bool, b: string)
    requires b in BackendOptionsForPlatform(platform, video)
    ensures b in AllBackends
  {
  }

  const DefaultBitrate: int := 192
  const CodecsWithBitrate: seq<string> := ["aac", "mp3", "ogg", "opus"]
  const AllCodecs: seq<string> := QuantizedSampleRateCodecs
  const NodeCodec: string := "mp3"

  /** The bitrate codecs and the node codec are all known codecs. */
  lemma CodecTablesConsistent()
    ensures forall c :: c in CodecsWithBitrate ==> c in AllCodecs
    ensures NodeCodec in AllCodecs
  {
  }
}
