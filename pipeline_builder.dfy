/**
  The encoder command lines of mkchromecast. An `Audio` value turns the
  encode settings into the argument vector of ffmpeg or of a native encoder
  fed by parec; a `Video` value turns the video settings into the ffmpeg,
  youtube-dl or user command. Raised exceptions become `Err` results.
 */
module PipelineBuilder {
  import opened Wrappers
  import opened Strings
  import opened Console
  import opened Constants

  /** Why a builder gave up: a failed dictionary lookup, or an `Exception` with its message. */
  datatype BuildError =
    | KeyError(key: string)
    | Raised(message: string)

  /** `stream_infra.BackendInfo`: the backend's name and the program to run. */
  datatype BackendInfo = BackendInfo(name: string, path: string)

  /** A word that cannot be mistaken for an option flag. */
  predicate PlainWord(w: string) {
    |w| == 0 || w[0] != '-'
  }

  /**
    A word no `str(int)` (with or without a "k" suffix) can equal: it starts
    with a lower-case letter, or with '-' followed by something other than a digit.
   */
  predicate Worded(w: string) {
    |w| > 1 && (('a' <= w[0] <= 'z') || (w[0] == '-' && !IsDigit(w[1])))
  }

  lemma IntToStringShape(i: int)
    ensures |IntToString(i)| > 0
    ensures IsDigit(IntToString(i)[0]) || IntToString(i)[0] == '-'
    ensures |IntToString(i)| > 1 && IntToString(i)[0] == '-' ==> IsDigit(IntToString(i)[1])
  {
    NatToStringDigits(if i < 0 then -i else i);
  }

  lemma IntIsNotWorded(i: int, w: string)
    requires Worded(w)
    ensures IntToString(i) != w && IntToString(i) + "k" != w
  {
    IntToStringShape(i);
    var s := IntToString(i);
    if |s| > 1 {
      assert (s + "k")[1] == s[1];
    }
  }

  // ---------------------------------------------------------------------
  // Audio
  // ---------------------------------------------------------------------

  /** `EncodeSettings`: what the audio encoder is asked to produce. */
  datatype EncodeSettings = EncodeSettings(
    codec: string,
    adevice: Option<string>,
    bitrate: int,
    frameSize: int,
    samplerate: string,
    segmentTime: Option<int>,
    ffmpegDebug: bool)

  /** `Audio._ffmpeg_fmt_to_acodec` */
  const FfmpegFmtToAcodec: map<string, string> :=
    map["mp3" := "libmp3lame", "ogg" := "libvorbis", "adts" := "aac",
        "opus" := "libopus", "wav" := "pcm_s24le", "flac" := "flac"]

  /** The ffmpeg output format of a codec: ADTS for aac, the codec's own name otherwise. */
  function FfmpegFormat(codec: string): string {
    if codec == "aac" then "adts" else codec
  }

  /** `Audio(backend, platform, encode_settings)` */
  datatype Audio = Audio(backend: BackendInfo, platform: string, settings: EncodeSettings)
  {
    /** The input arguments `_input_command` builds. */
    function InputArgs(): seq<string> {
      if platform == "Darwin" then ["-f", "avfoundation", "-i", ":BlackHole 16ch"]
      else
        ["-ac", "2", "-ar", "44100",
         "-frame_size", IntToString(settings.frameSize),
         "-fragment_size", IntToString(settings.frameSize)]
        + (if Given(settings.adevice) then ["-f", "alsa", "-i", settings.adevice.value]
           else ["-f", "pulse", "-i", "Mkchromecast.monitor"])
    }

    /** `_input_command`: a fixed list, extended with the alsa or pulse source. */
    method InputCommand() returns (cmd: seq<string>)
      ensures cmd == InputArgs()
      ensures platform == "Darwin" ==> "-frame_size" !in cmd && "avfoundation" in cmd
      ensures platform != "Darwin" ==> cmd[4] == "-frame_size" && cmd[5] == IntToString(settings.frameSize)
      ensures platform != "Darwin" && Given(settings.adevice) ==> cmd[9..] == ["alsa", "-i", settings.adevice.value]
      ensures platform != "Darwin" && !Given(settings.adevice) ==> cmd[9..] == ["pulse", "-i", "Mkchromecast.monitor"]
    {
      if platform == "Darwin" {
        return ["-f", "avfoundation", "-i", ":BlackHole 16ch"];
      }
      cmd := ["-ac", "2", "-ar", "44100",
              "-frame_size", IntToString(settings.frameSize),
              "-fragment_size", IntToString(settings.frameSize)];
      if Given(settings.adevice) {
        cmd := cmd + ["-f", "alsa", "-i", settings.adevice.value];
      } else {
        cmd := cmd + ["-f", "pulse", "-i", "Mkchromecast.monitor"];
      }
    }

    /** Whether the ffmpeg command writes segments: Darwin except ogg, "Linux" except aac. */
    predicate Segments() {
      var fmt := FfmpegFormat(settings.codec);
      GivenInt(settings.segmentTime)
      && ((platform == "Darwin" && fmt != "ogg") || (platform == "Linux" && fmt != "adts"))
    }

    /** `_build_ffmpeg_command`; a format missing from the acodec table raises KeyError. */
    function FfmpegCommand(): Result<seq<string>, BuildError> {
      var fmt := FfmpegFormat(settings.codec);
      var maybeDebug := if settings.ffmpegDebug then ["-loglevel", "panic"] else [];
      var maybeBitrate :=
        if settings.codec in CodecsWithBitrate then ["-b:a", IntToString(settings.bitrate) + "k"] else [];
      var maybeSegment :=
        if Segments() then ["-f", "segment", "-segment_time", IntToString(settings.segmentTime.value)] else [];
      var maybeCutoff :=
        if fmt == "adts" && GivenInt(settings.segmentTime) then ["-cutoff", "18000"] else [];
      if fmt !in FfmpegFmtToAcodec then Err(KeyError(fmt))
      else
        Ok([backend.path] + maybeDebug + InputArgs() + maybeSegment
           + ["-f", fmt, "-acodec", FfmpegFmtToAcodec[fmt], "-ac", "2", "-ar", settings.samplerate]
           + maybeBitrate + maybeCutoff + ["pipe:"])
    }

    /** `_build_linux_other_command`: the native encoder that reads parec's raw stream. */
    function NativeEncoderCommand(): Result<seq<string>, BuildError> {
      var bitrate := IntToString(settings.bitrate);
      var rate := settings.samplerate;
      if settings.codec == "mp3" then Ok(["lame", "-b", bitrate, "-r", "-"])
      else if settings.codec == "ogg" then Ok(["oggenc", "-b", bitrate, "-Q", "-r", "--ignorelength", "-"])
      else if settings.codec == "aac" then Ok(["faac", "-b", bitrate, "-X", "-P", "-c", "18000", "-o", "-", "-"])
      else if settings.codec == "opus" then
        Ok(["opusenc", "-", "--raw", "--bitrate", bitrate, "--raw-rate", rate, "-"])
      else if settings.codec == "wav" then
        Ok(["sox", "-t", "raw", "-b", "16", "-e", "signed", "-c", "2", "-r", rate, "-",
            "-t", "wav", "-b", "16", "-e", "signed", "-c", "2", "-r", rate, "-L", "-"])
      else if settings.codec == "flac" then
        Ok(["flac", "-", "-c", "--channels", "2", "--bps", "16", "--sample-rate", rate,
            "--endian", "little", "--sign", "signed", "-s"])
      else Err(Raised("Can't handle unexpected codec " + settings.codec))
    }

    /** `Audio.command` */
    function Command(): Result<seq<string>, BuildError> {
      if platform == "Darwin" then FfmpegCommand()
      else if backend.name == "ffmpeg" then FfmpegCommand()
      else if backend.name == "parec" then NativeEncoderCommand()
      else Err(Raised("Unsupported backend: " + backend.name))
    }
  }

  /** The strings a user can put into an audio command start with no '-'. */
  predicate PlainAudioWords(a: Audio) {
    PlainWord(a.backend.path) && PlainWord(a.settings.codec) && PlainWord(a.settings.samplerate)
    && (a.settings.adevice.Some? ==> PlainWord(a.settings.adevice.value))
  }

  /** Darwin always builds the ffmpeg command, whatever the backend is called. */
  lemma DarwinIgnoresBackendName(a: Audio, name: string)
    requires a.platform == "Darwin"
    ensures a.(backend := a.backend.(name := name)).Command() == a.Command() == a.FfmpegCommand()
  {
  }

  /**
    Off Darwin the backend name picks the builder: ffmpeg or parec; any other
    name raises "Unsupported backend" naming it.
   */
  lemma CommandDispatch(a: Audio)
    requires a.platform != "Darwin"
    ensures a.backend.name == "ffmpeg" ==> a.Command() == a.FfmpegCommand()
    ensures a.backend.name == "parec" ==> a.Command() == a.NativeEncoderCommand()
    ensures a.backend.name !in ["ffmpeg", "parec"] ==>
              a.Command().Err? && Contains(a.Command().error.message, a.backend.name)
  {
    if a.backend.name !in ["ffmpeg", "parec"] {
      var head := "Unsupported backend: ";
      ContainsSelf(a.backend.name);
      ContainsInRight(head, a.backend.name, a.backend.name);
    }
  }

  /**
    On Darwin the input is the BlackHole device through avfoundation, with no
    frame size; elsewhere the frame size is given, then alsa with the device
    when one is set, else pulse with the Mkchromecast monitor.
   */
  lemma InputArgsBySource(a: Audio)
    requires a.settings.adevice.Some? ==> PlainWord(a.settings.adevice.value)
    ensures a.platform == "Darwin" ==> a.InputArgs() == ["-f", "avfoundation", "-i", ":BlackHole 16ch"]
    ensures "-frame_size" in a.InputArgs() <==> a.platform != "Darwin"
    ensures a.platform != "Darwin" ==> Contains(a.InputArgs(), ["-frame_size", IntToString(a.settings.frameSize)])
    ensures a.platform != "Darwin" && Given(a.settings.adevice) ==>
              Contains(a.InputArgs(), ["-f", "alsa", "-i", a.settings.adevice.value])
    ensures a.platform != "Darwin" && !Given(a.settings.adevice) ==>
              Contains(a.InputArgs(), ["-f", "pulse", "-i", "Mkchromecast.monitor"])
  {
    IntIsNotWorded(a.settings.frameSize, "-frame_size");
    var args := a.InputArgs();
    if a.platform != "Darwin" {
      var fs := IntToString(a.settings.frameSize);
      ContainsInMiddle(["-ac", "2", "-ar", "44100"], ["-frame_size", fs], ["-fragment_size", fs] + args[8..]);
      assert args == ["-ac", "2", "-ar", "44100"] + ["-frame_size", fs] + (["-fragment_size", fs] + args[8..]);
      ContainsInMiddle(args[..8], args[8..], []);
      assert args == args[..8] + args[8..] + [];
    }
  }

  /** The ffmpeg command exists exactly for the six codecs (and the format name "adts"). */
  lemma FfmpegCommandDefined(a: Audio)
    ensures a.FfmpegCommand().Ok? <==> a.settings.codec in AllCodecs || a.settings.codec == "adts"
    ensures a.FfmpegCommand().Err? ==> a.FfmpegCommand().error == KeyError(a.settings.codec)
  {
  }

  /**
    The ffmpeg command runs the backend's program and writes to "pipe:"; it
    names the output format (ADTS for aac) and the matching audio codec.
   */
  lemma FfmpegCommandFrame(a: Audio)
    requires a.FfmpegCommand().Ok?
    ensures a.FfmpegCommand().value[0] == a.backend.path
    ensures a.FfmpegCommand().value[|a.FfmpegCommand().value| - 1] == "pipe:"
    ensures Contains(a.FfmpegCommand().value,
                     ["-f", FfmpegFormat(a.settings.codec),
                      "-acodec", FfmpegFmtToAcodec[FfmpegFormat(a.settings.codec)]])
  {
    var pre, mid, post := FfmpegPrefix(a), FfmpegMiddle(a), FfmpegSuffix(a);
    FfmpegCommandPieces(a);
    assert pre[0] == a.backend.path;
    assert post[|post| - 1] == "pipe:";
    var fmt := FfmpegFormat(a.settings.codec);
    assert mid[..4] == ["-f", fmt, "-acodec", FfmpegFmtToAcodec[fmt]];
    FramedRun(pre, mid, post);
  }

  /** A command made of three pieces starts with the first, ends with the last and holds the middle's first four words. */
  lemma FramedRun(pre: seq<string>, mid: seq<string>, post: seq<string>)
    requires |pre| > 0 && |mid| >= 4 && |post| > 0
    ensures (pre + mid + post)[0] == pre[0]
    ensures (pre + mid + post)[|pre + mid + post| - 1] == post[|post| - 1]
    ensures Contains(pre + mid + post, mid[..4])
  {
    ContainsInMiddle(pre, mid[..4], mid[4..] + post);
    assert pre + mid + post == pre + mid[..4] + (mid[4..] + post);
  }

  /** For aac the output format is ADTS, encoded by ffmpeg's aac encoder. */
  lemma AacIsAdts(a: Audio)
    requires a.settings.codec == "aac"
    ensures a.FfmpegCommand().Ok?
    ensures Contains(a.FfmpegCommand().value, ["-f", "adts", "-acodec", "aac"])
  {
    FfmpegCommandFrame(a);
  }

  /** What `_build_ffmpeg_command` puts in front of the output format. */
  function FfmpegPrefix(a: Audio): seq<string> {
    [a.backend.path]
    + (if a.settings.ffmpegDebug then ["-loglevel", "panic"] else [])
    + a.InputArgs()
    + (if a.Segments() then ["-f", "segment", "-segment_time", IntToString(a.settings.segmentTime.value)] else [])
  }

  /** The output format, codec, channels and sample rate. */
  function FfmpegMiddle(a: Audio): seq<string>
    requires FfmpegFormat(a.settings.codec) in FfmpegFmtToAcodec
  {
    var fmt := FfmpegFormat(a.settings.codec);
    ["-f", fmt, "-acodec", FfmpegFmtToAcodec[fmt], "-ac", "2", "-ar", a.settings.samplerate]
  }

  lemma FfmpegCommandPieces(a: Audio)
    requires a.FfmpegCommand().Ok?
    ensures a.FfmpegCommand().value == FfmpegPrefix(a) + FfmpegMiddle(a) + FfmpegSuffix(a)
  {
  }

  /** What `_build_ffmpeg_command` puts after the sample rate. */
  function FfmpegSuffix(a: Audio): seq<string> {
    (if a.settings.codec in CodecsWithBitrate then ["-b:a", IntToString(a.settings.bitrate) + "k"] else [])
    + (if FfmpegFormat(a.settings.codec) == "adts" && GivenInt(a.settings.segmentTime) then ["-cutoff", "18000"] else [])
    + ["pipe:"]
  }

  /** The flags the builder itself writes. */
  const BuilderFlags: seq<string> := ["-b:a", "-loglevel", "-segment_time", "-cutoff", "-frame_size"]

  /** A flag the builder itself writes appears in the command exactly when its rule says so. */
  lemma FfmpegFlagsInCommand(a: Audio, flag: string)
    requires a.FfmpegCommand().Ok? && PlainAudioWords(a)
    requires flag in BuilderFlags
    ensures flag == "-b:a" ==> (flag in a.FfmpegCommand().value <==> a.settings.codec in CodecsWithBitrate)
    ensures flag == "-loglevel" ==> (flag in a.FfmpegCommand().value <==> a.settings.ffmpegDebug)
    ensures flag == "-segment_time" ==> (flag in a.FfmpegCommand().value <==> a.Segments())
    ensures flag == "-cutoff" ==>
              (flag in a.FfmpegCommand().value
               <==> FfmpegFormat(a.settings.codec) == "adts" && GivenInt(a.settings.segmentTime))
    ensures flag == "-frame_size" ==> (flag in a.FfmpegCommand().value <==> a.platform != "Darwin")
  {
    FfmpegCommandPieces(a);
    FlagNotInMiddle(a, flag);
    FlagInPrefix(a, flag);
    FlagInSuffix(a, flag);
  }

  lemma FlagInPrefix(a: Audio, flag: string)
    requires PlainAudioWords(a) && flag in BuilderFlags
    ensures flag in FfmpegPrefix(a) <==>
              (flag == "-loglevel" && a.settings.ffmpegDebug)
              || (flag == "-segment_time" && a.Segments())
              || (flag == "-frame_size" && a.platform != "Darwin")
  {
    assert Worded(flag);
    if a.settings.segmentTime.Some? {
      IntIsNotWorded(a.settings.segmentTime.value, flag);
    }
    FlagInInput(a, flag);
  }

  lemma FlagNotInMiddle(a: Audio, flag: string)
    requires FfmpegFormat(a.settings.codec) in FfmpegFmtToAcodec && PlainAudioWords(a) && flag in BuilderFlags
    ensures flag !in FfmpegMiddle(a)
  {
  }

  lemma FlagInInput(a: Audio, flag: string)
    requires PlainAudioWords(a) && flag in BuilderFlags
    ensures flag in a.InputArgs() <==> flag == "-frame_size" && a.platform != "Darwin"
  {
    assert Worded(flag);
    IntIsNotWorded(a.settings.frameSize, flag);
  }

  lemma FlagInSuffix(a: Audio, flag: string)
    requires flag in BuilderFlags
    ensures flag in FfmpegSuffix(a) <==>
              (flag == "-b:a" && a.settings.codec in CodecsWithBitrate)
              || (flag == "-cutoff" && FfmpegFormat(a.settings.codec) == "adts" && GivenInt(a.settings.segmentTime))
  {
    assert Worded(flag);
    IntIsNotWorded(a.settings.bitrate, flag);
  }

  /** With `-b:a` the bitrate is written with a "k" suffix. */
  lemma FfmpegBitrateArgument(a: Audio)
    requires a.FfmpegCommand().Ok? && a.settings.codec in CodecsWithBitrate
    ensures Contains(a.FfmpegCommand().value, ["-b:a", IntToString(a.settings.bitrate) + "k"])
  {
    var cmd := a.FfmpegCommand().value;
    var pre := FfmpegPrefix(a) + FfmpegMiddle(a);
    FfmpegCommandPieces(a);
    assert ContainsAt(cmd, ["-b:a", IntToString(a.settings.bitrate) + "k"], |pre|);
  }

  /** The native encoder for each of the six codecs. */
  lemma NativeEncoderBinary(a: Audio)
    ensures a.NativeEncoderCommand().Ok? <==> a.settings.codec in AllCodecs
    ensures a.settings.codec == "mp3" ==> a.NativeEncoderCommand().value[0] == "lame"
    ensures a.settings.codec == "ogg" ==> a.NativeEncoderCommand().value[0] == "oggenc"
    ensures a.settings.codec == "aac" ==> a.NativeEncoderCommand().value[0] == "faac"
    ensures a.settings.codec == "opus" ==> a.NativeEncoderCommand().value[0] == "opusenc"
    ensures a.settings.codec == "wav" ==> a.NativeEncoderCommand().value[0] == "sox"
    ensures a.settings.codec == "flac" ==> a.NativeEncoderCommand().value[0] == "flac"
  {
  }

  /** Any other codec raises an error that says "unexpected codec" and names it. */
  lemma NativeEncoderRejects(a: Audio)
    requires a.settings.codec !in AllCodecs
    ensures a.NativeEncoderCommand().Err?
    ensures Contains(a.NativeEncoderCommand().error.message, "unexpected codec")
    ensures Contains(a.NativeEncoderCommand().error.message, a.settings.codec)
  {
    assert a.NativeEncoderCommand() == Err(Raised("Can't handle unexpected codec " + a.settings.codec));
    UnexpectedCodecMentions(a.settings.codec);
  }

  lemma UnexpectedCodecMentions(codec: string)
    ensures Contains("Can't handle unexpected codec " + codec, "unexpected codec")
    ensures Contains("Can't handle unexpected codec " + codec, codec)
  {
    var msg := "Can't handle unexpected codec " + codec;
    assert msg[13..29] == "Can't handle unexpected codec "[13..29] == "unexpected codec";
    assert ContainsAt(msg, "unexpected codec", 13);
    ContainsInMiddle("Can't handle unexpected codec ", codec, "");
    assert msg == "Can't handle unexpected codec " + codec + "";
  }

  /** The native encoders take the bitrate as a bare number, never with the "k" suffix. */
  lemma NativeBitrateArgument(a: Audio)
    requires a.NativeEncoderCommand().Ok?
    ensures a.settings.codec in ["mp3", "ogg", "aac"] ==>
              Contains(a.NativeEncoderCommand().value, ["-b", IntToString(a.settings.bitrate)])
    ensures a.settings.codec == "opus" ==>
              Contains(a.NativeEncoderCommand().value, ["--bitrate", IntToString(a.settings.bitrate)])
  {
    var b := IntToString(a.settings.bitrate);
    var cmd := a.NativeEncoderCommand().value;
    if a.settings.codec in ["mp3", "ogg", "aac"] {
      assert ContainsAt(cmd, ["-b", b], 1);
    } else if a.settings.codec == "opus" {
      assert ContainsAt(cmd, ["--bitrate", b], 3);
    }
  }

  predicate EndsInK(w: string) {
    |w| > 0 && w[|w| - 1] == 'k'
  }

  /** No word the native encoders write ends in "k": the bitrate never carries the ffmpeg suffix. */
  lemma NativeBitrateHasNoSuffix(a: Audio)
    requires a.NativeEncoderCommand().Ok?
    requires !EndsInK(a.settings.samplerate)
    ensures IntToString(a.settings.bitrate) + "k" !in a.NativeEncoderCommand().value
  {
    var b := IntToString(a.settings.bitrate);
    IntToStringShape(a.settings.bitrate);
    assert !EndsInK(b);
    assert EndsInK(b + "k");
    var rate := a.settings.samplerate;
    var cmd := a.NativeEncoderCommand().value;
    match a.settings.codec
    case "mp3" => NoWordEndsInK(["lame", "-b", b, "-r", "-"]);
    case "ogg" => NoWordEndsInK(["oggenc", "-b", b, "-Q", "-r", "--ignorelength", "-"]);
    case "aac" => NoWordEndsInK(["faac", "-b", b, "-X", "-P", "-c", "18000", "-o", "-", "-"]);
    case "opus" => NoWordEndsInK(["opusenc", "-", "--raw", "--bitrate", b, "--raw-rate", rate, "-"]);
    case "wav" =>
      NoWordEndsInK(["sox", "-t", "raw", "-b", "16", "-e", "signed", "-c", "2", "-r", rate, "-"]);
      NoWordEndsInK(["-t", "wav", "-b", "16", "-e", "signed", "-c", "2", "-r", rate, "-L", "-"]);
    case "flac" =>
      NoWordEndsInK(["flac", "-", "-c", "--channels", "2", "--bps", "16", "--sample-rate", rate]);
      NoWordEndsInK(["--endian", "little", "--sign", "signed", "-s"]);
    case _ =>
  }

  lemma NoWordEndsInK(words: seq<string>)
    requires forall i | 0 <= i < |words| :: !EndsInK(words[i])
    ensures forall w :: EndsInK(w) ==> w !in words
  {
  }

  lemma FrameSizeText()
    ensures IntToString(32 * 128) == "4096"
  {
    assert NatToString(4) == "4";
    assert NatToString(40) == "40";
    assert NatToString(409) == "409";
  }

  lemma BitrateText()
    ensures IntToString(160) + "k" == "160k"
  {
    assert NatToString(1) == "1";
    assert NatToString(16) == "16";
  }

  /** The full pulse-audio ffmpeg command for mp3 at 160k on Linux. */
  lemma FullLinuxCommand(a: Audio)
    requires a == Audio(BackendInfo("ffmpeg", "ffmpeg"), "Linux",
                        EncodeSettings("mp3", None, 160, 32 * 128, "22050", None, false))
    ensures a.Command() == Ok(["ffmpeg", "-ac", "2", "-ar", "44100",
                               "-frame_size", "4096", "-fragment_size", "4096",
                               "-f", "pulse", "-i", "Mkchromecast.monitor",
                               "-f", "mp3", "-acodec", "libmp3lame", "-ac", "2", "-ar", "22050",
                               "-b:a", "160k", "pipe:"])
  {
    FrameSizeText();
    BitrateText();
    assert a.InputArgs() == ["-ac", "2", "-ar", "44100", "-frame_size", "4096", "-fragment_size", "4096",
                             "-f", "pulse", "-i", "Mkchromecast.monitor"];
    assert !a.Segments();
    LinuxSpotPieces(a.InputArgs());
  }

  lemma LinuxSpotPieces(input: seq<string>)
    requires input == ["-ac", "2", "-ar", "44100", "-frame_size", "4096", "-fragment_size", "4096",
                       "-f", "pulse", "-i", "Mkchromecast.monitor"]
    ensures ["ffmpeg"] + [] + input + [] + ["-f", "mp3", "-acodec", "libmp3lame", "-ac", "2", "-ar", "22050"]
            + ["-b:a", "160k"] + [] + ["pipe:"]
         == ["ffmpeg", "-ac", "2", "-ar", "44100", "-frame_size", "4096", "-fragment_size", "4096",
             "-f", "pulse", "-i", "Mkchromecast.monitor",
             "-f", "mp3", "-acodec", "libmp3lame", "-ac", "2", "-ar", "22050", "-b:a", "160k", "pipe:"]
  {
  }

  /** The full BlackHole ffmpeg command for aac at 160k with 2-second segments on Darwin. */
  lemma FullDarwinCommand(a: Audio)
    requires a == Audio(BackendInfo("ffmpeg", "ffmpeg"), "Darwin",
                        EncodeSettings("aac", None, 160, 32 * 128, "22050", Some(2), false))
    ensures a.Command() == Ok(["ffmpeg", "-f", "avfoundation", "-i", ":BlackHole 16ch",
                               "-f", "segment", "-segment_time", "2",
                               "-f", "adts", "-acodec", "aac", "-ac", "2", "-ar", "22050",
                               "-b:a", "160k", "-cutoff", "18000", "pipe:"])
  {
    BitrateText();
    assert NatToString(2) == "2";
    assert a.Segments();
    DarwinSpotPieces(a.InputArgs(), IntToString(2));
  }

  lemma DarwinSpotPieces(input: seq<string>, segment: string)
    requires input == ["-f", "avfoundation", "-i", ":BlackHole 16ch"] && segment == "2"
    ensures ["ffmpeg"] + [] + input + ["-f", "segment", "-segment_time", segment]
            + ["-f", "adts", "-acodec", "aac", "-ac", "2", "-ar", "22050"]
            + ["-b:a", "160k"] + ["-cutoff", "18000"] + ["pipe:"]
         == ["ffmpeg", "-f", "avfoundation", "-i", ":BlackHole 16ch", "-f", "segment", "-segment_time", "2",
             "-f", "adts", "-acodec", "aac", "-ac", "2", "-ar", "22050", "-b:a", "160k", "-cutoff", "18000", "pipe:"]
  {
  }

  // ---------------------------------------------------------------------
  // Video
  // ---------------------------------------------------------------------

  /** `is_mkv(filename)`: the name ends with "mkv". */
  function IsMkv(filename: string): (r: bool)
    ensures r ==> |filename| >= 3 && filename[|filename| - 1] == 'v'
  {
    |filename| >= 3 && filename[|filename| - 3..] == "mkv"
  }

  /** Whatever comes before it, a name ending ".mkv" is mkv and one ending ".mp4" is not. */
  lemma IsMkvBySuffix(stem: string)
    ensures IsMkv(stem + ".mkv")
    ensures !IsMkv(stem + ".mp4")
  {
    assert (stem + ".mkv")[|stem| + 1..] == "mkv";
  }

  /** `VideoSettings` */
  datatype VideoSettings = VideoSettings(
    display: Option<string>,
    fps: string,
    inputFile: Option<string>,
    loop: bool,
    operation: OpMode,
    resolution: Option<string>,
    screencast: bool,
    seek: Option<string>,
    subtitles: Option<string>,
    userCommand: Option<string>,
    vcodec: string,
    youtubeUrl: Option<string>)

  /** `SubprocessCommand`: an argument vector, or a command line for the shell. */
  datatype SubprocessCommand =
    | Argv(args: seq<string>)
    | Shell(line: string)

  /** A built video command and the lines printed while building it. */
  datatype Built = Built(command: SubprocessCommand, printed: seq<Line>)

  /** `str(x)` for an optional string. */
  function PyStr(s: Option<string>): string {
    if s.Some? then s.value else "None"
  }

  /** How `f"{operation}"` renders an operating mode. */
  function OpModeRepr(op: OpMode): string {
    match op
    case Audiocast => "OpMode.AUDIOCAST"
    case Discover => "OpMode.DISCOVER"
    case InputFile => "OpMode.INPUT_FILE"
    case Reset => "OpMode.RESET"
    case Screencast => "OpMode.SCREENCAST"
    case SourceUrl => "OpMode.SOURCE_URL"
    case Tray => "OpMode.TRAY"
    case Version => "OpMode.VERSION"
    case Youtube => "OpMode.YOUTUBE"
  }

  const ReencodeStrategy: seq<string> :=
    ["-vcodec", "libx264", "-preset", "veryfast", "-tune", "zerolatency",
     "-maxrate", "10000k", "-bufsize", "20000k", "-pix_fmt", "yuv420p", "-g", "60"]

  const CopyStrategy: seq<string> := ["-vcodec", "copy"]

  const MkvSubtitleWarning: string := "Subtitles with mkv are not supported yet."

  /**
    `_input_file_subtitle(subtitles, is_mkv)`: the input-side and output-side
    arguments for subtitles, and the warning printed for mkv files.
   */
  function InputFileSubtitle(subtitles: Option<string>, isMkv: bool): (r: (seq<string>, seq<string>, seq<Line>))
    ensures !Given(subtitles) ==> r == ([], [], [])
    ensures Given(subtitles) && !isMkv ==> r == ([], ["-vf", "subtitles=" + subtitles.value], [])
    ensures Given(subtitles) && isMkv ==>
              Contains(r.0, ["-i", subtitles.value])
              && "-max_muxing_queue_size" in r.1 && "-vf" !in r.1
              && r.2 == [WarningLine(MkvSubtitleWarning)]
  {
    if !Given(subtitles) then ([], [], [])
    else if !isMkv then ([], ["-vf", "subtitles=" + subtitles.value], [])
    else
      var inputArgs := ["-i", subtitles.value, "-codec:s", "mov_text", "-map", "1:0"];
      assert ContainsAt(inputArgs, ["-i", subtitles.value], 0);
      (inputArgs, ["-max_muxing_queue_size", "9999"], [WarningLine(MkvSubtitleWarning)])
  }

  /**
    `_input_file_vencode(input_file, res)`: re-encode when a resolution is
    set, copy a non-mkv file, and for an mkv file re-encode exactly when the
    probed pixel format is "yuv420p10le". `pixelFormat` stands for the ffprobe call.
   */
  function InputFileVencode(inputFile: string, res: Option<string>, pixelFormat: string -> string): seq<string> {
    if Given(res) then ReencodeStrategy
    else if !IsMkv(inputFile) then CopyStrategy
    else if pixelFormat(inputFile) == "yuv420p10le" then ReencodeStrategy
    else CopyStrategy
  }

  /**
    The probe decides only for an mkv file without a resolution: for any
    other input every probe gives the same arguments, so none is needed.
   */
  lemma VencodeProbesOnlyMkv(inputFile: string, res: Option<string>, p1: string -> string, p2: string -> string)
    requires Given(res) || !IsMkv(inputFile)
    ensures InputFileVencode(inputFile, res, p1) == InputFileVencode(inputFile, res, p2)
  {
  }

  /** Re-encoding uses libx264 and copying never does; an mkv without resolution follows its pixel format. */
  lemma VencodePolicy(inputFile: string, res: Option<string>, pixelFormat: string -> string)
    ensures Given(res) ==> "libx264" in InputFileVencode(inputFile, res, pixelFormat)
                           && "copy" !in InputFileVencode(inputFile, res, pixelFormat)
    ensures !Given(res) && !IsMkv(inputFile) ==>
              "copy" in InputFileVencode(inputFile, res, pixelFormat)
              && "libx264" !in InputFileVencode(inputFile, res, pixelFormat)
    ensures !Given(res) && IsMkv(inputFile) ==>
              ("libx264" in InputFileVencode(inputFile, res, pixelFormat) <==> pixelFormat(inputFile) == "yuv420p10le")
  {
  }

  /** `_input_file_aencode(has_subtitles, input_is_mkv)`: an audio codec only for mkv input. */
  function InputFileAencode(hasSubtitles: bool, inputIsMkv: bool): (r: seq<string>)
    ensures !inputIsMkv <==> r == []
    ensures inputIsMkv ==> ("copy" in r <==> hasSubtitles) && ("libmp3lame" in r <==> !hasSubtitles)
  {
    if !inputIsMkv then []
    else if hasSubtitles then ["-codec:a", "copy"]
    else ["-codec:a", "libmp3lame", "-q:a", "0"]
  }

  /**
    `_input_file_command`: stream the input file through ffmpeg into MP4 on
    "pipe:1". `scaleFilters` is the first entry of each row of the resolution
    table; an unknown resolution raises KeyError.
   */
  function InputFileCommand(s: VideoSettings, scaleFilters: map<string, string>, pixelFormat: string -> string)
    : Result<(seq<string>, seq<Line>), BuildError>
  {
    if !Given(s.inputFile) then Err(Raised("Internal error: input file is not specified."))
    else if Given(s.resolution) && s.resolution.value !in scaleFilters then Err(KeyError(s.resolution.value))
    else
      var inputIsMkv := IsMkv(s.inputFile.value);
      var maybeLoop := if s.loop then ["-stream_loop", "-1"] else [];
      var maybeSeek := if Given(s.seek) then ["-ss", s.seek.value] else [];
      var maybeResolution := if Given(s.resolution) then ["-vf", scaleFilters[s.resolution.value]] else [];
      var (subtitleIn, subtitleOut, printed) := InputFileSubtitle(s.subtitles, inputIsMkv);
      var vencode := InputFileVencode(s.inputFile.value, s.resolution, pixelFormat);
      var aencode := InputFileAencode(Given(s.subtitles), inputIsMkv);
      Ok((["ffmpeg"] + maybeLoop + maybeSeek + ["-re", "-i", s.inputFile.value] + subtitleIn
          + ["-map_chapters", "-1"] + vencode + aencode
          + ["-f", "mp4", "-movflags", "frag_keyframe+empty_moov"]
          + subtitleOut + maybeResolution + ["pipe:1"], printed))
  }

  /** The arguments in front of the input file's own options: loop, seek, then `-re -i` and the file. */
  function InputFileHead(s: VideoSettings): seq<string>
    requires s.inputFile.Some?
  {
    ["ffmpeg"] + (if s.loop then ["-stream_loop", "-1"] else []) + (if Given(s.seek) then ["-ss", s.seek.value] else [])
    + ["-re", "-i", s.inputFile.value]
  }

  lemma InputFileCommandHead(s: VideoSettings, scaleFilters: map<string, string>, pixelFormat: string -> string)
    requires InputFileCommand(s, scaleFilters, pixelFormat).Ok?
    ensures |InputFileHead(s)| < |InputFileCommand(s, scaleFilters, pixelFormat).value.0|
    ensures InputFileCommand(s, scaleFilters, pixelFormat).value.0[..|InputFileHead(s)|] == InputFileHead(s)
    ensures InputFileCommand(s, scaleFilters, pixelFormat).value.0[|InputFileCommand(s, scaleFilters, pixelFormat).value.0| - 1]
            == "pipe:1"
  {
    var cmd := InputFileCommand(s, scaleFilters, pixelFormat).value.0;
    var head := InputFileHead(s);
    assert cmd == head + cmd[|head|..];
  }

  /**
    The input-file command fails without an input file; otherwise it starts
    with "ffmpeg", then `-stream_loop -1` when looping, then `-ss` and the
    position when seeking, then `-re -i` and the file, and it ends with "pipe:1".
   */
  lemma InputFileCommandShape(s: VideoSettings, scaleFilters: map<string, string>, pixelFormat: string -> string)
    ensures !Given(s.inputFile) ==> InputFileCommand(s, scaleFilters, pixelFormat).Err?
    ensures Given(s.inputFile) && (!Given(s.resolution) || s.resolution.value in scaleFilters) ==>
              InputFileCommand(s, scaleFilters, pixelFormat).Ok?
    ensures InputFileCommand(s, scaleFilters, pixelFormat).Ok? ==>
              var cmd := InputFileCommand(s, scaleFilters, pixelFormat).value.0;
              var k := (if s.loop then 2 else 0) + (if Given(s.seek) then 2 else 0);
              |cmd| > k + 3 && cmd[0] == "ffmpeg" && cmd[|cmd| - 1] == "pipe:1"
              && (s.loop ==> cmd[1..3] == ["-stream_loop", "-1"])
              && (Given(s.seek) ==> cmd[k - 1..k + 1] == ["-ss", s.seek.value])
              && cmd[k + 1..k + 4] == ["-re", "-i", s.inputFile.value]
  {
    if InputFileCommand(s, scaleFilters, pixelFormat).Ok? {
      var cmd := InputFileCommand(s, scaleFilters, pixelFormat).value.0;
      var head := InputFileHead(s);
      InputFileCommandHead(s, scaleFilters, pixelFormat);
      var k := (if s.loop then 2 else 0) + (if Given(s.seek) then 2 else 0);
      assert |head| == k + 4;
      assert cmd[0] == head[0];
      assert s.loop ==> cmd[1..3] == head[1..3];
      assert Given(s.seek) ==> cmd[k - 1..k + 1] == head[k - 1..k + 1];
      assert cmd[k + 1..k + 4] == head[k + 1..k + 4];
    }
  }

  /** `Video._screencast_command`; `screenSize` stands for the resolution module. */
  function ScreencastCommand(s: VideoSettings, screenSize: (string, bool) -> string): (cmd: seq<string>)
    ensures |cmd| > 0 && cmd[0] == "ffmpeg" && cmd[|cmd| - 1] == "pipe:1"
  {
    var size := screenSize(if Given(s.resolution) then s.resolution.value else "1080p", s.screencast);
    var maybeVeryfast := if s.vcodec != "h264_nvenc" then ["-preset", "veryfast"] else [];
    ScreencastCapture(s, size) + maybeVeryfast + ScreencastOutput
  }

  /** The capture half: the PulseAudio monitor, then the X11 display at `size`, then the encoder. */
  function ScreencastCapture(s: VideoSettings, size: string): seq<string> {
    ["ffmpeg", "-ac", "2", "-ar", "44100", "-frame_size", "2048", "-fragment_size", "2048",
     "-f", "pulse", "-ac", "2", "-i", "Mkchromecast.monitor",
     "-f", "x11grab", "-r", s.fps, "-s", size, "-i", PyStr(s.display) + "+0,0",
     "-vcodec", s.vcodec]
  }

  const ScreencastOutput: seq<string> :=
    ["-tune", "zerolatency", "-maxrate", "10000k", "-bufsize", "20000k", "-pix_fmt", "yuv420p",
     "-g", "60", "-f", "mp4", "-movflags", "frag_keyframe+empty_moov", "-ar", "44100",
     "-acodec", "libvorbis", "pipe:1"]

  /**
    A screencast records the PulseAudio monitor and the X11 display, at the
    requested resolution or 1080p, and asks for the veryfast preset exactly
    when the encoder is not NVENC.
   */
  lemma ScreencastArguments(s: VideoSettings, screenSize: (string, bool) -> string)
    ensures var cmd := ScreencastCommand(s, screenSize);
            |cmd| >= 27
            && cmd[9..15] == ["-f", "pulse", "-ac", "2", "-i", "Mkchromecast.monitor"]
            && cmd[15..25] == ["-f", "x11grab", "-r", s.fps,
                               "-s", screenSize(if Given(s.resolution) then s.resolution.value else "1080p", s.screencast),
                               "-i", PyStr(s.display) + "+0,0", "-vcodec", s.vcodec]
            && (cmd[25..27] == ["-preset", "veryfast"] <==> s.vcodec != "h264_nvenc")
  {
    var size := screenSize(if Given(s.resolution) then s.resolution.value else "1080p", s.screencast);
    var capture := ScreencastCapture(s, size);
    var cmd := ScreencastCommand(s, screenSize);
    assert |capture| == 25;
    if s.vcodec != "h264_nvenc" {
      assert cmd == capture + (["-preset", "veryfast"] + ScreencastOutput);
      assert cmd[25..27] == ["-preset", "veryfast"];
    } else {
      assert cmd == capture + ScreencastOutput;
      assert cmd[25] == "-tune";
    }
    assert cmd[..25] == capture;
    assert cmd[9..15] == capture[9..15];
    assert cmd[15..25] == capture[15..25];
  }

  /** `Video.command`: youtube first, then screencast, then the user's command, then the input file. */
  function VideoCommand(s: VideoSettings, scaleFilters: map<string, string>, pixelFormat: string -> string,
                        screenSize: (string, bool) -> string): Result<Built, BuildError>
    requires s.operation == Youtube ==> s.youtubeUrl.Some?
  {
    if s.operation == Youtube then Ok(Built(Argv(["youtube-dl", "-o", "-", s.youtubeUrl.value]), []))
    else if s.operation == Screencast then Ok(Built(Argv(ScreencastCommand(s, screenSize)), []))
    else if Given(s.userCommand) then Ok(Built(Shell(s.userCommand.value), []))
    else if s.operation == InputFile then
      match InputFileCommand(s, scaleFilters, pixelFormat)
      case Ok((args, printed)) => Ok(Built(Argv(args), printed))
      case Err(e) => Err(e)
    else Err(Raised("Internal error: Unexpected video operation mode " + OpModeRepr(s.operation)))
  }

  /**
    The priority of `Video.command`: the youtube and screencast modes ignore a
    user command; a user command overrides the input file; only the
    input-file mode builds the ffmpeg file command, and every other mode
    without a user command raises.
   */
  lemma VideoCommandPriority(s: VideoSettings, scaleFilters: map<string, string>, pixelFormat: string -> string,
                             screenSize: (string, bool) -> string, other: Option<string>)
    requires s.operation == Youtube ==> s.youtubeUrl.Some?
    ensures s.operation in {Youtube, Screencast} ==>
              VideoCommand(s.(userCommand := other), scaleFilters, pixelFormat, screenSize)
              == VideoCommand(s, scaleFilters, pixelFormat, screenSize)
    ensures s.operation == Youtube ==>
              VideoCommand(s, scaleFilters, pixelFormat, screenSize).value.command.args[0] == "youtube-dl"
    ensures s.operation !in {Youtube, Screencast} && Given(s.userCommand) ==>
              VideoCommand(s, scaleFilters, pixelFormat, screenSize) == Ok(Built(Shell(s.userCommand.value), []))
    ensures s.operation == InputFile && !Given(s.userCommand) ==>
              (VideoCommand(s, scaleFilters, pixelFormat, screenSize).Ok?
               <==> InputFileCommand(s, scaleFilters, pixelFormat).Ok?)
    ensures s.operation !in {Youtube, Screencast, InputFile} && !Given(s.userCommand) ==>
              VideoCommand(s, scaleFilters, pixelFormat, screenSize).Err?
  {
  }

  lemma ReencodeSpotCheck(s: VideoSettings, scaleFilters: map<string, string>, pixelFormat: string -> string)
    requires s.operation == InputFile && s.inputFile == Some("input_file.mp4") && s.resolution == Some("1080p")
    requires !s.loop && s.seek.None? && s.subtitles.None? && s.userCommand.None?
    requires "1080p" in scaleFilters && scaleFilters["1080p"] == "scale=1920x1080"
    ensures InputFileCommand(s, scaleFilters, pixelFormat)
         == Ok((["ffmpeg", "-re", "-i", "input_file.mp4", "-map_chapters", "-1",
                 "-vcodec", "libx264", "-preset", "veryfast", "-tune", "zerolatency",
                 "-maxrate", "10000k", "-bufsize", "20000k", "-pix_fmt", "yuv420p", "-g", "60",
                 "-f", "mp4", "-movflags", "frag_keyframe+empty_moov",
                 "-vf", "scale=1920x1080", "pipe:1"], []))
  {
    assert !IsMkv("input_file.mp4");
    assert InputFileSubtitle(s.subtitles, false) == ([], [], []);
    assert InputFileVencode("input_file.mp4", s.resolution, pixelFormat) == ReencodeStrategy;
    ReencodeSpotPieces(ReencodeStrategy, scaleFilters["1080p"]);
  }

  lemma ReencodeSpotPieces(vencode: seq<string>, filter: string)
    requires vencode == ReencodeStrategy && filter == "scale=1920x1080"
    ensures ["ffmpeg"] + [] + [] + ["-re", "-i", "input_file.mp4"] + [] + ["-map_chapters", "-1"] + vencode + []
            + ["-f", "mp4", "-movflags", "frag_keyframe+empty_moov"] + [] + ["-vf", filter] + ["pipe:1"]
         == ["ffmpeg", "-re", "-i", "input_file.mp4", "-map_chapters", "-1",
             "-vcodec", "libx264", "-preset", "veryfast", "-tune", "zerolatency",
             "-maxrate", "10000k", "-bufsize", "20000k", "-pix_fmt", "yuv420p", "-g", "60",
             "-f", "mp4", "-movflags", "frag_keyframe+empty_moov", "-vf", "scale=1920x1080", "pipe:1"]
  {
  }

  lemma CopySpotCheck(s: VideoSettings, scaleFilters: map<string, string>, pixelFormat: string -> string)
    requires s.operation == InputFile && s.inputFile == Some("input_file.mp4") && s.resolution.None?
    requires s.loop && s.seek == Some("hh:mm:ss") && s.subtitles.None? && s.userCommand.None?
    ensures InputFileCommand(s, scaleFilters, pixelFormat)
         == Ok((["ffmpeg", "-stream_loop", "-1", "-ss", "hh:mm:ss", "-re", "-i", "input_file.mp4",
                 "-map_chapters", "-1", "-vcodec", "copy",
                 "-f", "mp4", "-movflags", "frag_keyframe+empty_moov", "pipe:1"], []))
  {
    assert !IsMkv("input_file.mp4");
    assert InputFileSubtitle(s.subtitles, false) == ([], [], []);
    assert InputFileVencode("input_file.mp4", s.resolution, pixelFormat) == CopyStrategy;
    CopySpotPieces(CopyStrategy, s.seek.value);
  }

  lemma CopySpotPieces(vencode: seq<string>, seek: string)
    requires vencode == CopyStrategy && seek == "hh:mm:ss"
    ensures ["ffmpeg"] + ["-stream_loop", "-1"] + ["-ss", seek] + ["-re", "-i", "input_file.mp4"] + []
            + ["-map_chapters", "-1"] + vencode + []
            + ["-f", "mp4", "-movflags", "frag_keyframe+empty_moov"] + [] + [] + ["pipe:1"]
         == ["ffmpeg", "-stream_loop", "-1", "-ss", "hh:mm:ss", "-re", "-i", "input_file.mp4",
             "-map_chapters", "-1", "-vcodec", "copy",
             "-f", "mp4", "-movflags", "frag_keyframe+empty_moov", "pipe:1"]
  {
  }
}
