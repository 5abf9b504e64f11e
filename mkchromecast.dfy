/**
  How `Mkchromecast.__init__` turns the parsed command line (and, in tray
  mode, the saved tray settings) into the settings of one run: the operating
  mode, then backend, codec, command, resolution, bitrate, chunk size, sample
  rate, segment time and the youtube override, each checked in the order the
  source checks it. A `sys.exit` becomes an `Exited` halt and an exception
  becomes a `Crashed` halt; every `print` becomes a `Line`.
 */
module Mkchromecast {
  import opened Wrappers
  import opened Strings
  import opened Console
  import opened Constants
  import Config

  /** The parsed command line, as far as `__init__` inspects it. */
  datatype Args = Args(
    debug: bool,
    discover: bool,
    inputFile: Option<string>,
    reset: bool,
    screencast: bool,
    sourceUrl: Option<string>,
    tray: bool,
    version: bool,
    youtube: Option<string>,
    alsaDevice: Option<string>,
    notifications: bool,
    selectDevice: bool,
    video: bool,
    encoderBackend: Option<string>,
    codec: string,
    command: Option<string>,
    resolution: Option<string>,
    bitrate: int,
    chunkSize: int,
    sampleRate: int,
    segmentTime: Option<int>)

  /**
    What `__init__` asks of the world: `platform.system()`, the settings
    section of the tray config file (`None` when the file or the section is
    absent), the names of the resolutions table, `check_url` and
    `os.path.isfile`.
   */
  datatype Environment = Environment(
    platform: string,
    trayFile: Option<map<string, string>>,
    resolutionNames: seq<string>,
    checkUrl: string -> bool,
    isFile: string -> bool)

  /** The reasons `__init__` calls `sys.exit`. */
  datatype Exit =
    | UnsupportedBackend(backend: string)
    | UnsupportedCodec(codec: string)
    | UnsupportedCommand(command: string)
    | UnsupportedResolution(resolution: string)
    | NonPositiveBitrate
    | NonPositiveChunkSize
    | SampleRateTooLow
    | UnsupportedYoutubeUrl(url: string)
    | MissingInputFile(path: string)

  /** The exceptions `__init__` can raise. */
  datatype Crash =
    | CodecUnassigned         // `self.codec` read before any branch assigned it
    | TrayValue(error: Config.ConfigError)

  datatype Halt = Exited(reason: Exit) | Crashed(crash: Crash)

  /** The instance fields `__init__` resolves (fields copied unchanged from the arguments are left out). */
  datatype Settings = Settings(
    operation: OpMode,
    adevice: Option<string>,
    notifications: bool,
    searchAtLaunch: Option<bool>,
    colors: Option<string>,
    selectDevice: bool,
    backend: string,
    codec: string,
    command: Option<string>,
    resolution: Option<string>,
    bitrate: int,
    chunkSize: int,
    samplerate: int,
    segmentTime: Option<int>,
    youtubeUrl: Option<string>)

  /** The operating mode: the first flag set, in priority order, else audiocast. */
  function Operation(args: Args): (op: OpMode)
    ensures op == Discover <==> args.discover
    ensures op == InputFile <==> !args.discover && Given(args.inputFile)
    ensures op == Reset <==> !args.discover && !Given(args.inputFile) && args.reset
    ensures op == Screencast <==> (!args.discover && !Given(args.inputFile) && !args.reset && args.screencast)
    ensures op == SourceUrl <==> (!args.discover && !Given(args.inputFile) && !args.reset && !args.screencast
                                  && Given(args.sourceUrl))
    ensures op == Tray <==> (!args.discover && !Given(args.inputFile) && !args.reset && !args.screencast
                             && !Given(args.sourceUrl) && args.tray)
    ensures op == Version <==> (!args.discover && !Given(args.inputFile) && !args.reset && !args.screencast
                                && !Given(args.sourceUrl) && !args.tray && args.version)
    ensures op == Youtube <==> (!args.discover && !Given(args.inputFile) && !args.reset && !args.screencast
                                && !Given(args.sourceUrl) && !args.tray && !args.version && Given(args.youtube))
    ensures op == Audiocast <==> (!args.discover && !Given(args.inputFile) && !args.reset && !args.screencast
                                  && !Given(args.sourceUrl) && !args.tray && !args.version && !Given(args.youtube))
  {
    if args.discover then Discover
    else if Given(args.inputFile) then InputFile
    else if args.reset then Reset
    else if args.screencast then Screencast
    else if Given(args.sourceUrl) then SourceUrl
    else if args.tray then Tray
    else if args.version then Version
    else if Given(args.youtube) then Youtube
    else Audiocast
  }

  /** A loaded tray config: its settings section, and what loading it printed. */
  type TrayLoaded = (map<string, string>, seq<Config.Notice>)

  /** The tray settings section after a read-only `load_and_validate`, and what loading printed. */
  function TrayLoad(platform: string, debug: bool, file: Option<map<string, string>>): TrayLoaded
  {
    TrayLoadWith(Config.DefaultConf(platform), debug, file)
  }

  /** The same, for a given table of defaults. */
  function TrayLoadWith(defaults: seq<(string, Config.PyValue)>, debug: bool, file: Option<map<string, string>>)
    : (map<string, string>, seq<Config.Notice>)
  {
    var read := if file.Some? then file.value else map[];
    var filled := Config.FillMissing(read, defaults);
    (filled.0,
     (if file.Some? then [] else [Config.CreatingSection])
     + Config.MissingKeyNotices(filled.1, debug) + Config.SaveNotices(filled.1, true, debug))
  }

  /** `TrayLoad` unfolded for the defaults table of a new Config. */
  lemma TrayLoadFromDefaults(platform: string, debug: bool, file: Option<map<string, string>>,
                             defaults: seq<(string, Config.PyValue)>)
    requires defaults == Config.DefaultConf(platform)
    ensures var filled := Config.FillMissing(if file.Some? then file.value else map[], defaults);
            TrayLoad(platform, debug, file)
            == (filled.0, (if file.Some? then [] else [Config.CreatingSection])
                          + Config.MissingKeyNotices(filled.1, debug) + Config.SaveNotices(filled.1, true, debug))
  {
  }

  // Reading one tray property; a configparser error propagates as a crash.

  function TrayText(tray: map<string, string>, key: string): Result<string, Halt> {
    match Config.Get(true, tray, key)
    case Ok(text) => Ok(text)
    case Err(e) => Err(Crashed(TrayValue(e)))
  }

  function TrayInt(tray: map<string, string>, key: string): Result<int, Halt> {
    match Config.GetInt(true, tray, key)
    case Ok(n) => Ok(n)
    case Err(e) => Err(Crashed(TrayValue(e)))
  }

  function TrayBool(tray: map<string, string>, key: string): Result<bool, Halt> {
    match Config.GetBoolean(true, tray, key)
    case Ok(b) => Ok(b)
    case Err(e) => Err(Crashed(TrayValue(e)))
  }

  /** The four fields read first: ALSA device, notifications, search-at-launch and colours. */
  datatype EarlyFields = EarlyFields(adevice: Option<string>, notifications: bool,
                                     searchAtLaunch: Option<bool>, colors: Option<string>)

  /** From the tray config when there is one, else from the arguments (no search flag, no colours). */
  function ReadEarlyFields(args: Args, tray: Option<map<string, string>>): (r: Result<EarlyFields, Halt>)
    ensures tray.None? ==> r == Ok(EarlyFields(args.alsaDevice, args.notifications, None, None))
  {
    if tray.None? then Ok(EarlyFields(args.alsaDevice, args.notifications, None, None))
    else
      var t := tray.value;
      match TrayText(t, Config.AlsaDeviceKey)
      case Err(h) => Err(h)
      case Ok(device) =>
        match TrayBool(t, Config.NotificationsKey)
        case Err(h) => Err(h)
        case Ok(notifications) =>
          match TrayBool(t, Config.SearchAtLaunchKey)
          case Err(h) => Err(h)
          case Ok(search) =>
            match TrayText(t, Config.ColorsKey)
            case Err(h) => Err(h)
            case Ok(colors) =>
              Ok(EarlyFields(Config.DecodeAlsaDevice(device), notifications, Some(search), Some(colors)))
  }

  /**
    What `__init__` prints, one value per `print`; `Shown` gives the line as
    it appears on the console. `Loading` carries what the tray config
    printed while it was loaded.
   */
  datatype Notice =
    | Loading(notice: Config.Notice)
    | BackendNotSupported(backend: string)
    | ChoiceItem(choice: string, suffix: string)
    | ForcingMp3(codec: string)
    | SelectedCodec(codec: string)
    | SupportedCodecs
    | ConfiguredCommand(command: string)
    | SupportedCommands
    | ConfiguredResolution(resolution: string)
    | SupportedResolutions
    | BitrateMustBePositive
    | ChunkSizeMustBePositive
    | SampleRateMustBeHigher
    | YoutubeUrlNeeded
    | YoutubeSupportedSites
    | InputFileNotFound

  /** One `print(f"- {choice}{suffix}")` per choice, in order. */
  function ChoiceNotices(choices: seq<string>, suffix: string): (notices: seq<Notice>)
    ensures |notices| == |choices|
    ensures forall i :: 0 <= i < |choices| ==> notices[i] == ChoiceItem(choices[i], suffix)
  {
    seq(|choices|, i requires 0 <= i < |choices| => ChoiceItem(choices[i], suffix))
  }

  /** The tray config's own lines, in the order it printed them. */
  function Loaded(lines: seq<Config.Notice>): (notices: seq<Notice>)
    ensures |notices| == |lines|
    ensures forall i :: 0 <= i < |lines| ==> notices[i] == Loading(lines[i])
  {
    seq(|lines|, i requires 0 <= i < |lines| => Loading(lines[i]))
  }

  function UnsupportedBackendMessage(backend: string): string {
    "Backend " + backend + " is not in supported backends: "
  }

  /**
    The backend: the tray's; else an explicit backend, which must be offered
    on the platform; else ffmpeg for video, node on "Darwin", parec elsewhere.
   */
  function ChooseBackend(args: Args, platform: string, tray: Option<map<string, string>>)
    : (r: (Result<string, Halt>, seq<Notice>))
    ensures tray.None? && !Given(args.encoderBackend) ==>
              r == (Ok(if args.video then "ffmpeg" else if platform == "Darwin" then "node" else "parec"), [])
    ensures tray.None? && Given(args.encoderBackend) ==>
              (r.0.Ok? <==> args.encoderBackend.value in BackendOptionsForPlatform(platform, args.video))
    ensures tray.None? && r.0.Ok? ==> r.0.value in BackendOptionsForPlatform(platform, args.video)
    ensures tray.None? && r.0.Err? ==>
              Given(args.encoderBackend)
              && r.1 == [BackendNotSupported(args.encoderBackend.value)]
                        + ChoiceNotices(BackendOptionsForPlatform(platform, args.video), ".")
    ensures tray.Some? || r.0.Ok? ==> r.1 == []
  {
    var options := BackendOptionsForPlatform(platform, args.video);
    if tray.Some? then (TrayText(tray.value, Config.BackendKey), [])
    else if Given(args.encoderBackend) then
      var backend := args.encoderBackend.value;
      if backend !in options then
        (Err(Exited(UnsupportedBackend(backend))),
         [BackendNotSupported(backend)] + ChoiceNotices(options, "."))
      else (Ok(backend), [])
    else if args.video then (Ok("ffmpeg"), [])
    else if platform == "Darwin" then (Ok("node"), [])
    else (Ok("parec"), [])
  }

  /** `codec_choices` in `__init__`: the same six codecs as the constants table. */
  const CodecChoices: seq<string> := ["mp3", "ogg", "aac", "opus", "wav", "flac"]

  lemma CodecChoicesAreAllCodecs()
    ensures CodecChoices == AllCodecs
  {
  }

  function ForcingMp3Message(codec: string): string {
    "Setting codec from " + codec + " to mp3, as required by node backend"
  }

  function SelectedCodecMessage(codec: string): string {
    "Selected audio codec: " + codec + "."
  }

  function SupportedCodecsMessage(): string {
    "Supported audio codecs are: "
  }

  /**
    The codec: the argument in source-url mode, the tray's in tray mode; with
    the node backend any codec but mp3 is replaced by mp3 with a warning, and
    mp3 itself is never assigned (`None` here); otherwise the codec must be
    one of the six choices.
   */
  function ChooseCodec(op: OpMode, args: Args, tray: Option<map<string, string>>, backend: string)
    : (r: (Result<Option<string>, Halt>, seq<Notice>))
    ensures r.0.Ok? && r.0.value.None? <==> op != SourceUrl && tray.None? && backend == "node" && args.codec == "mp3"
    ensures op != SourceUrl && tray.None? && backend == "node" && args.codec != "mp3" ==>
              r == (Ok(Some("mp3")), [ForcingMp3(args.codec)])
    ensures op != SourceUrl && tray.None? && backend != "node" ==>
              (r.0.Ok? <==> args.codec in CodecChoices) && (r.0.Ok? ==> r.0.value == Some(args.codec))
    ensures tray.None? && r.0.Err? ==>
              r.1 == [SelectedCodec(args.codec), SupportedCodecs] + ChoiceNotices(CodecChoices, "")
    ensures r.1 != [] && r.0.Ok? ==> r.1 == [ForcingMp3(args.codec)]
    ensures r.0.Err? && r.0.error.Crashed? ==> r.1 == []
  {
    if op == SourceUrl then (Ok(Some(args.codec)), [])
    else if tray.Some? then
      match TrayText(tray.value, Config.CodecKey)
      case Ok(codec) => (Ok(Some(codec)), [])
      case Err(h) => (Err(h), [])
    else if backend == "node" then
      if args.codec != "mp3" then (Ok(Some("mp3")), [ForcingMp3(args.codec)])
      else (Ok(None), [])
    else if args.codec !in CodecChoices then
      (Err(Exited(UnsupportedCodec(args.codec))),
       [SelectedCodec(args.codec), SupportedCodecs]
       + ChoiceNotices(CodecChoices, ""))
    else (Ok(Some(args.codec)), [])
  }

  const CommandChoices: seq<string> := ["ffmpeg", "youtube-dl"]

  function ConfiguredCommandMessage(command: string): string {
    "Configured command: " + command
  }

  function SupportedCommandsMessage(): string {
    "Supported commands are: "
  }

  /** The external command: absent, or one of ffmpeg and youtube-dl. */
  function ChooseCommand(args: Args): (r: (Result<Option<string>, Halt>, seq<Notice>))
    ensures !Given(args.command) ==> r == (Ok(None), [])
    ensures Given(args.command) ==> (r.0.Ok? <==> args.command.value in CommandChoices)
    ensures r.0.Ok? && Given(args.command) ==> r.0.value == args.command
    ensures r.0.Err? ==>
              r.1 == [ConfiguredCommand(args.command.value), SupportedCommands] + ChoiceNotices(CommandChoices, "")
    ensures r.0.Ok? ==> r.1 == []
  {
    if !Given(args.command) then (Ok(None), [])
    else
      var command := args.command.value;
      if command !in CommandChoices then
        (Err(Exited(UnsupportedCommand(command))),
         [ConfiguredCommand(command), SupportedCommands]
         + ChoiceNotices(CommandChoices, ""))
      else (Ok(args.command), [])
  }

  /** `[r.lower() for r in resolutions.keys()]` */
  function LowerAll(names: seq<string>): (lowered: seq<string>)
    ensures |lowered| == |names|
    ensures forall i :: 0 <= i < |names| ==> lowered[i] == Lower(names[i])
  {
    seq(|names|, i requires 0 <= i < |names| => Lower(names[i]))
  }

  function ConfiguredResolutionMessage(resolution: string): string {
    "Configured resolution: " + resolution
  }

  function SupportedResolutionsMessage(): string {
    "Supported resolutions are: "
  }

  /**
    The resolution: absent, or a name of the resolutions table compared
    without case; the value kept is the argument as given, not lower-cased.
   */
  function ChooseResolution(args: Args, names: seq<string>): (r: (Result<Option<string>, Halt>, seq<Notice>))
    ensures !Given(args.resolution) ==> r == (Ok(None), [])
    ensures Given(args.resolution) ==>
              (r.0.Ok? <==> exists i :: 0 <= i < |names| && Lower(names[i]) == Lower(args.resolution.value))
    ensures r.0.Ok? && Given(args.resolution) ==> r.0.value == args.resolution
    ensures r.0.Err? ==>
              r.1 == [ConfiguredResolution(Lower(args.resolution.value)), SupportedResolutions]
                     + ChoiceNotices(LowerAll(names), "")
    ensures r.0.Ok? ==> r.1 == []
  {
    if !Given(args.resolution) then (Ok(None), [])
    else
      var choices := LowerAll(names);
      var lowered := Lower(args.resolution.value);
      if lowered !in choices then
        (Err(Exited(UnsupportedResolution(args.resolution.value))),
         [ConfiguredResolution(lowered), SupportedResolutions]
         + ChoiceNotices(choices, ""))
      else (Ok(args.resolution), [])
  }

  function BitrateErrorMessage(): string {
    "Bitrate must be a positive integer"
  }

  /**
    The bitrate: the tray's; else, reading the codec, the argument for a
    bitrate codec (which must be positive) or the default bitrate.
   */
  function ChooseBitrate(args: Args, tray: Option<map<string, string>>, codec: Option<string>)
    : (r: (Result<int, Halt>, seq<Notice>))
    ensures tray.None? && codec.None? ==> r.0 == Err(Crashed(CodecUnassigned))
    ensures tray.None? && codec.Some? && codec.value in CodecsWithBitrate ==>
              (r.0.Ok? <==> args.bitrate > 0) && (r.0.Ok? ==> r.0.value == args.bitrate)
    ensures tray.None? && codec.Some? && codec.value !in CodecsWithBitrate ==> r == (Ok(DefaultBitrate), [])
    ensures tray.None? && codec.Some? && r.0.Err? ==> r.1 == [BitrateMustBePositive]
    ensures r.0.Err? && r.0.error.Crashed? ==> r.1 == []
    ensures r.0.Ok? ==> r.1 == []
  {
    if tray.Some? then (TrayInt(tray.value, Config.BitrateKey), [])
    else if codec.None? then (Err(Crashed(CodecUnassigned)), [])
    else if codec.value in CodecsWithBitrate then
      if args.bitrate <= 0 then (Err(Exited(NonPositiveBitrate)), [BitrateMustBePositive])
      else (Ok(args.bitrate), [])
    else (Ok(DefaultBitrate), [])
  }

  function ChunkSizeErrorMessage(): string {
    "Chunk size must be a positive integer"
  }

  function SampleRateErrorMessage(): string {
    "Sample rate must be at least 22050"
  }

  /**
    The sample rate: the argument must be at least 22050 in every mode; the
    tray's rate is used in tray mode, opus forces 48000, otherwise the argument.
   */
  function ChooseSamplerate(args: Args, tray: Option<map<string, string>>, codec: string)
    : (r: (Result<int, Halt>, seq<Notice>))
    ensures args.sampleRate < 22050 ==> r == (Err(Exited(SampleRateTooLow)), [SampleRateMustBeHigher])
    ensures args.sampleRate >= 22050 && tray.None? ==>
              r == (Ok(if codec == "opus" then 48000 else args.sampleRate), [])
    ensures r.0.Err? && r.0.error.Crashed? ==> r.1 == []
    ensures r.0.Ok? ==> r.1 == []
  {
    if args.sampleRate < 22050 then (Err(Exited(SampleRateTooLow)), [SampleRateMustBeHigher])
    else if tray.Some? then (TrayInt(tray.value, Config.SamplerateKey), [])
    else if codec == "opus" then (Ok(48000), [])
    else (Ok(args.sampleRate), [])
  }

  /** The segment time is kept only for backends other than parec and node. */
  function SegmentTime(args: Args, backend: string): (segment: Option<int>)
    ensures segment.Some? <==> GivenInt(args.segmentTime) && backend != "parec" && backend != "node"
    ensures segment.Some? ==> segment == args.segmentTime
  {
    if GivenInt(args.segmentTime) && backend !in ["parec", "node"] then args.segmentTime else None
  }

  /** `n` spaces. */
  function Spaces(n: nat): string {
    seq(n, _ => ' ')
  }

  // The two triple-quoted messages, one source line per element, indented as in the source.

  function YoutubeUrlError(): string {
    Join(["", Spaces(16) + "You need to provide a URL that is supported by youtube-dl.", Spaces(16)], "\n")
  }

  function YoutubeSourcesHelp(): string {
    Join(["", Spaces(16) + "For a list of supported sources please visit:",
          Spaces(20) + "https://rg3.github.io/youtube-dl/supportedsites.html", "",
          Spaces(16) + "Note that the URLs have to start with https.", Spaces(16)], "\n")
  }

  /** A youtube URL must pass `check_url`; it is kept as the URL to play. */
  function ChooseYoutubeUrl(args: Args, checkUrl: string -> bool): (r: (Result<Option<string>, Halt>, seq<Notice>))
    ensures !Given(args.youtube) ==> r == (Ok(None), [])
    ensures Given(args.youtube) ==> (r.0.Ok? <==> checkUrl(args.youtube.value))
    ensures Given(args.youtube) && r.0.Ok? ==> r.0.value == args.youtube
    ensures r.0.Err? ==> r.1 == [YoutubeUrlNeeded, YoutubeSupportedSites]
    ensures r.0.Ok? ==> r.1 == []
  {
    if !Given(args.youtube) then (Ok(None), [])
    else if !checkUrl(args.youtube.value) then
      (Err(Exited(UnsupportedYoutubeUrl(args.youtube.value))),
       [YoutubeUrlNeeded, YoutubeSupportedSites])
    else (Ok(args.youtube), [])
  }

  function MissingInputFileMessage(): string {
    "Specified input file does not exist or is not a file."
  }

  /**
    `_validate_input_file`: a given input file must exist; the message goes
    through `colors.warning` twice, once by the caller and once by `_fatal_error`.
   */
  function ValidateInputFile(args: Args, isFile: string -> bool): (r: (Option<Halt>, seq<Notice>))
    ensures r.0.None? <==> !Given(args.inputFile) || isFile(args.inputFile.value)
    ensures r.0.Some? ==> r == (Some(Exited(MissingInputFile(args.inputFile.value))), [InputFileNotFound])
    ensures r.0.None? ==> r.1 == []
  {
    if !Given(args.inputFile) || isFile(args.inputFile.value) then (None, [])
    else (Some(Exited(MissingInputFile(args.inputFile.value))),
          [InputFileNotFound])
  }

  /** Each notice as the console shows it, in the colour `__init__` gives it. */
  function Shown(n: Notice): Line {
    match n
    case Loading(notice) => Config.Shown(notice)
    case BackendNotSupported(backend) => ErrorLine(UnsupportedBackendMessage(backend))
    case ChoiceItem(choice, suffix) => Plain("- " + choice + suffix)
    case ForcingMp3(codec) => WarningLine(ForcingMp3Message(codec))
    case SelectedCodec(codec) => Options(Plain(SelectedCodecMessage(codec)))
    case SupportedCodecs => ErrorLine(SupportedCodecsMessage())
    case ConfiguredCommand(command) => Options(Plain(ConfiguredCommandMessage(command)))
    case SupportedCommands => ErrorLine(SupportedCommandsMessage())
    case ConfiguredResolution(resolution) => Options(Plain(ConfiguredResolutionMessage(resolution)))
    case SupportedResolutions => ErrorLine(SupportedResolutionsMessage())
    case BitrateMustBePositive => ErrorLine(BitrateErrorMessage())
    case ChunkSizeMustBePositive => ErrorLine(ChunkSizeErrorMessage())
    case SampleRateMustBeHigher => ErrorLine(SampleRateErrorMessage())
    case YoutubeUrlNeeded => ErrorLine(YoutubeUrlError())
    case YoutubeSupportedSites => Plain(YoutubeSourcesHelp())
    case InputFileNotFound => Warning(WarningLine(MissingInputFileMessage()))
  }

  /**
    The whole of `__init__` as a function: each step in source order, the
    first halt ending the run, with everything printed up to that point.
    The stages below carry the fields assigned so far in a `Settings` value
    whose later fields still hold placeholders, as the instance does while
    `__init__` runs; the codec travels apart, since it may be unassigned.
   */
  function Resolution(args: Args, env: Environment): (Result<Settings, Halt>, seq<Notice>) {
    Resolved(args, env, TrayLoad(env.platform, args.debug, env.trayFile))
  }

  /**
    The same, once the tray config is loaded: `load` is the tray's settings
    section and what loading it printed, used only in tray mode.
   */
  function Resolved(args: Args, env: Environment, load: TrayLoaded)
    : (Result<Settings, Halt>, seq<Notice>)
  {
    var op := Operation(args);
    var tray := TraySettings(args, load);
    var out := if op == Tray then Loaded(load.1) else [];
    match ReadEarlyFields(args, tray)
    case Err(h) => (Err(h), out)
    case Ok(early) =>
      ResolveBackend(args, env, tray, Unresolved(op, early, args.tray || args.selectDevice), out)
  }

  /** The tray's settings section in tray mode; no tray config otherwise. */
  function TraySettings(args: Args, load: TrayLoaded): Option<map<string, string>> {
    if Operation(args) == Tray then Some(load.0) else None
  }

  /** The fields assigned before the backend; the rest hold placeholders. */
  function Unresolved(op: OpMode, early: EarlyFields, selectDevice: bool): Settings {
    Settings(op, early.adevice, early.notifications, early.searchAtLaunch, early.colors, selectDevice,
             "", "", None, None, 0, 0, 0, None, None)
  }

  function ResolveBackend(args: Args, env: Environment, tray: Option<map<string, string>>, s: Settings, out: seq<Notice>)
    : (Result<Settings, Halt>, seq<Notice>)
  {
    var backend := ChooseBackend(args, env.platform, tray);
    if backend.0.Err? then (Err(backend.0.error), out + backend.1)
    else ResolveCodec(args, env, tray, s.(backend := backend.0.value), out + backend.1)
  }

  function ResolveCodec(args: Args, env: Environment, tray: Option<map<string, string>>, s: Settings, out: seq<Notice>)
    : (Result<Settings, Halt>, seq<Notice>)
  {
    var codec := ChooseCodec(s.operation, args, tray, s.backend);
    if codec.0.Err? then (Err(codec.0.error), out + codec.1)
    else ResolveCommand(args, env, tray, s, codec.0.value, out + codec.1)
  }

  function ResolveCommand(args: Args, env: Environment, tray: Option<map<string, string>>, s: Settings,
                          codec: Option<string>, out: seq<Notice>)
    : (Result<Settings, Halt>, seq<Notice>)
    requires codec.None? ==> tray.None?
  {
    var command := ChooseCommand(args);
    if command.0.Err? then (Err(command.0.error), out + command.1)
    else ResolveResolution(args, env, tray, s.(command := command.0.value), codec, out + command.1)
  }

  function ResolveResolution(args: Args, env: Environment, tray: Option<map<string, string>>, s: Settings,
                             codec: Option<string>, out: seq<Notice>)
    : (Result<Settings, Halt>, seq<Notice>)
    requires codec.None? ==> tray.None?
  {
    var resolution := ChooseResolution(args, env.resolutionNames);
    if resolution.0.Err? then (Err(resolution.0.error), out + resolution.1)
    else ResolveBitrate(args, env, tray, s.(resolution := resolution.0.value), codec, out + resolution.1)
  }

  function ResolveBitrate(args: Args, env: Environment, tray: Option<map<string, string>>, s: Settings,
                          codec: Option<string>, out: seq<Notice>)
    : (Result<Settings, Halt>, seq<Notice>)
    requires codec.None? ==> tray.None?
  {
    var bitrate := ChooseBitrate(args, tray, codec);
    if bitrate.0.Err? then (Err(bitrate.0.error), out + bitrate.1)
    else if args.chunkSize <= 0 then
      (Err(Exited(NonPositiveChunkSize)), out + bitrate.1 + [ChunkSizeMustBePositive])
    else ResolveSamplerate(args, env, tray, s.(codec := codec.value, bitrate := bitrate.0.value, chunkSize := args.chunkSize),
                           out + bitrate.1)
  }

  function ResolveSamplerate(args: Args, env: Environment, tray: Option<map<string, string>>, s: Settings, out: seq<Notice>)
    : (Result<Settings, Halt>, seq<Notice>)
  {
    var samplerate := ChooseSamplerate(args, tray, s.codec);
    if samplerate.0.Err? then (Err(samplerate.0.error), out + samplerate.1)
    else ResolveYoutube(args, env, s.(samplerate := samplerate.0.value, segmentTime := SegmentTime(args, s.backend)),
                        out + samplerate.1)
  }

  function ResolveYoutube(args: Args, env: Environment, s: Settings, out: seq<Notice>)
    : (Result<Settings, Halt>, seq<Notice>)
  {
    var youtube := ChooseYoutubeUrl(args, env.checkUrl);
    if youtube.0.Err? then (Err(youtube.0.error), out + youtube.1)
    else
      var s' := if youtube.0.value.Some? then s.(youtubeUrl := youtube.0.value, backend := "ffmpeg") else s;
      var input := ValidateInputFile(args, env.isFile);
      if input.0.Some? then (Err(input.0.value), out + youtube.1 + input.1)
      else (Ok(s'), out + youtube.1 + input.1)
  }

  /** The loops that print the valid choices before a `sys.exit`. */
  method PrintChoices(choices: seq<string>, suffix: string) returns (lines: seq<Notice>)
    ensures lines == ChoiceNotices(choices, suffix)
  {
    lines := [];
    for i := 0 to |choices|
      invariant lines == ChoiceNotices(choices[..i], suffix)
    {
      lines := lines + [ChoiceItem(choices[i], suffix)];
      assert lines == ChoiceNotices(choices[..i + 1], suffix);
    }
    assert choices[..|choices|] == choices;
  }

  /** The settings of the tray config, when there is one. */
  function TrayOf(config: Config.Config?): Option<map<string, string>>
    reads config
  {
    if config == null then None else Some(config.settings)
  }

  /**
    The tray's read-only `Config`, loaded from the tray file; its settings and
    what loading printed are what `TrayLoad` says.
   */
  method OpenTrayConfig(platform: string, debug: bool, file: Option<map<string, string>>)
    returns (config: Config.Config)
    ensures fresh(config) && config.hasSection
    ensures config.settings == TrayLoad(platform, debug, file).0
    ensures config.console == TrayLoad(platform, debug, file).1
  {
    config := new Config.Config(platform, true, debug);
    config.LoadAndValidate(file);
    ghost var read := if file.Some? then file.value else map[];
    assert map[] + read == read;
    assert [] + (if file.Some? then [] else [Config.CreatingSection]) == (if file.Some? then [] else [Config.CreatingSection]);
    TrayLoadFromDefaults(platform, debug, file, config.defaultConf);
  }

  /** The four early settings, read through the tray config's properties in tray mode. */
  method ReadEarly(args: Args, config: Config.Config?) returns (r: Result<EarlyFields, Halt>)
    requires config != null ==> config.hasSection
    ensures r == ReadEarlyFields(args, TrayOf(config))
  {
    if config == null {
      return Ok(EarlyFields(args.alsaDevice, args.notifications, None, None));
    }
    var device := config.AlsaDevice();
    if device.Err? {
      return Err(Crashed(TrayValue(device.error)));
    }
    var notify := config.Notifications();
    if notify.Err? {
      return Err(Crashed(TrayValue(notify.error)));
    }
    var search := config.SearchAtLaunch();
    if search.Err? {
      return Err(Crashed(TrayValue(search.error)));
    }
    var colours := config.Colors();
    if colours.Err? {
      return Err(Crashed(TrayValue(colours.error)));
    }
    r := Ok(EarlyFields(device.value, notify.value, Some(search.value), Some(colours.value)));
  }

  method SelectBackend(args: Args, platform: string, config: Config.Config?)
    returns (backend: Result<string, Halt>, lines: seq<Notice>)
    requires config != null ==> config.hasSection
    ensures (backend, lines) == ChooseBackend(args, platform, TrayOf(config))
  {
    lines := [];
    var backendOptions := BackendOptionsForPlatform(platform, args.video);
    if config != null {
      var stored := config.Backend();
      if stored.Err? {
        return Err(Crashed(TrayValue(stored.error))), lines;
      }
      backend := Ok(stored.value);
    } else if Given(args.encoderBackend) {
      if args.encoderBackend.value !in backendOptions {
        lines := [BackendNotSupported(args.encoderBackend.value)];
        var choices := PrintChoices(backendOptions, ".");
        lines := lines + choices;
        return Err(Exited(UnsupportedBackend(args.encoderBackend.value))), lines;
      }
      backend := Ok(args.encoderBackend.value);
    } else if args.video {
      backend := Ok("ffmpeg");
    } else if platform == "Darwin" {
      backend := Ok("node");
    } else {
      backend := Ok("parec");
    }
  }

  /** The codec; with the node backend and mp3 requested, nothing is assigned. */
  method SelectCodec(operation: OpMode, args: Args, config: Config.Config?, backend: string)
    returns (codec: Result<Option<string>, Halt>, lines: seq<Notice>)
    requires config != null ==> config.hasSection
    ensures (codec, lines) == ChooseCodec(operation, args, TrayOf(config), backend)
  {
    lines := [];
    codec := Ok(None);
    if operation == SourceUrl {
      codec := Ok(Some(args.codec));
    } else if config != null {
      var stored := config.Codec();
      if stored.Err? {
        return Err(Crashed(TrayValue(stored.error))), lines;
      }
      codec := Ok(Some(stored.value));
    } else if backend == "node" {
      if args.codec != "mp3" {
        lines := [ForcingMp3(args.codec)];
        codec := Ok(Some("mp3"));
      }
    } else {
      if args.codec !in CodecChoices {
        lines := [SelectedCodec(args.codec), SupportedCodecs];
        var choices := PrintChoices(CodecChoices, "");
        lines := lines + choices;
        return Err(Exited(UnsupportedCodec(args.codec))), lines;
      }
      codec := Ok(Some(args.codec));
    }
  }

  method SelectCommand(args: Args) returns (command: Result<Option<string>, Halt>, lines: seq<Notice>)
    ensures (command, lines) == ChooseCommand(args)
  {
    lines := [];
    if !Given(args.command) {
      return Ok(None), lines;
    }
    if args.command.value !in CommandChoices {
      lines := [ConfiguredCommand(args.command.value), SupportedCommands];
      var choices := PrintChoices(CommandChoices, "");
      lines := lines + choices;
      return Err(Exited(UnsupportedCommand(args.command.value))), lines;
    }
    command := Ok(args.command);
  }

  method SelectResolution(args: Args, names: seq<string>)
    returns (resolution: Result<Option<string>, Halt>, lines: seq<Notice>)
    ensures (resolution, lines) == ChooseResolution(args, names)
  {
    lines := [];
    if !Given(args.resolution) {
      return Ok(None), lines;
    }
    var resolutionChoices := LowerAll(names);
    var lowered := Lower(args.resolution.value);
    if lowered !in resolutionChoices {
      lines := [ConfiguredResolution(lowered), SupportedResolutions];
      var choices := PrintChoices(resolutionChoices, "");
      lines := lines + choices;
      return Err(Exited(UnsupportedResolution(args.resolution.value))), lines;
    }
    resolution := Ok(args.resolution);
  }

  /** The bitrate; reading the codec fails when it was never assigned. */
  method SelectBitrate(args: Args, config: Config.Config?, codec: Option<string>)
    returns (bitrate: Result<int, Halt>, lines: seq<Notice>)
    requires config != null ==> config.hasSection
    ensures (bitrate, lines) == ChooseBitrate(args, TrayOf(config), codec)
  {
    lines := [];
    if config != null {
      var stored := config.Bitrate();
      if stored.Err? {
        return Err(Crashed(TrayValue(stored.error))), lines;
      }
      bitrate := Ok(stored.value);
    } else if codec.None? {
      bitrate := Err(Crashed(CodecUnassigned));
    } else if codec.value in CodecsWithBitrate {
      if args.bitrate <= 0 {
        lines := [BitrateMustBePositive];
        return Err(Exited(NonPositiveBitrate)), lines;
      }
      bitrate := Ok(args.bitrate);
    } else {
      bitrate := Ok(DefaultBitrate);
    }
  }

  method SelectSamplerate(args: Args, config: Config.Config?, codec: string)
    returns (samplerate: Result<int, Halt>, lines: seq<Notice>)
    requires config != null ==> config.hasSection
    ensures (samplerate, lines) == ChooseSamplerate(args, TrayOf(config), codec)
  {
    lines := [];
    if args.sampleRate < 22050 {
      lines := [SampleRateMustBeHigher];
      return Err(Exited(SampleRateTooLow)), lines;
    }
    if config != null {
      var stored := config.Samplerate();
      if stored.Err? {
        return Err(Crashed(TrayValue(stored.error))), lines;
      }
      samplerate := Ok(stored.value);
    } else if codec == "opus" {
      samplerate := Ok(48000);
    } else {
      samplerate := Ok(args.sampleRate);
    }
  }

  method SelectYoutubeUrl(args: Args, checkUrl: string -> bool)
    returns (url: Result<Option<string>, Halt>, lines: seq<Notice>)
    ensures (url, lines) == ChooseYoutubeUrl(args, checkUrl)
  {
    lines := [];
    if !Given(args.youtube) {
      return Ok(None), lines;
    }
    if !checkUrl(args.youtube.value) {
      lines := [YoutubeUrlNeeded, YoutubeSupportedSites];
      return Err(Exited(UnsupportedYoutubeUrl(args.youtube.value))), lines;
    }
    url := Ok(args.youtube);
  }

  /**
    `Mkchromecast.__init__`, assigning one setting after another: the tray
    config is a read-only `Config` loaded from the tray file, and its
    properties are read at the points where the source reads them.
   */
  method Init(args: Args, env: Environment) returns (result: Result<Settings, Halt>, printed: seq<Notice>)
    ensures (result, printed) == Resolution(args, env)
  {
    var operation: OpMode;
    if args.discover {
      operation := Discover;
    } else if Given(args.inputFile) {
      operation := InputFile;
    } else if args.reset {
      operation := Reset;
    } else if args.screencast {
      operation := Screencast;
    } else if Given(args.sourceUrl) {
      operation := SourceUrl;
    } else if args.tray {
      operation := Tray;
    } else if args.version {
      operation := Version;
    } else if Given(args.youtube) {
      operation := Youtube;
    } else {
      operation := Audiocast;
    }

    var trayConfig: Config.Config? := null;
    printed := [];
    if operation == Tray {
      trayConfig := OpenTrayConfig(env.platform, args.debug, env.trayFile);
      printed := Loaded(trayConfig.console);
    }

    // Settings with no dependencies.
    var early := ReadEarly(args, trayConfig);
    if early.Err? {
      return Err(early.error), printed;
    }
    var selectDevice := if args.tray then true else args.selectDevice;
    var settings := Unresolved(operation, early.value, selectDevice);
    result, printed := AssignFormat(args, env, trayConfig, settings, printed);
  }

  /** Backend, codec, command and resolution, in that order. */
  method AssignFormat(args: Args, env: Environment, trayConfig: Config.Config?, settings: Settings, printed: seq<Notice>)
    returns (result: Result<Settings, Halt>, out: seq<Notice>)
    requires trayConfig != null ==> trayConfig.hasSection
    ensures (result, out) == ResolveBackend(args, env, TrayOf(trayConfig), settings, printed)
  {
    out := printed;
    var backend, backendLines := SelectBackend(args, env.platform, trayConfig);
    out := out + backendLines;
    if backend.Err? {
      return Err(backend.error), out;
    }
    var s := settings.(backend := backend.value);

    var codec, codecLines := SelectCodec(s.operation, args, trayConfig, backend.value);
    out := out + codecLines;
    if codec.Err? {
      return Err(codec.error), out;
    }

    var command, commandLines := SelectCommand(args);
    out := out + commandLines;
    if command.Err? {
      return Err(command.error), out;
    }
    s := s.(command := command.value);

    var resolution, resolutionLines := SelectResolution(args, env.resolutionNames);
    out := out + resolutionLines;
    if resolution.Err? {
      return Err(resolution.error), out;
    }
    s := s.(resolution := resolution.value);
    result, out := AssignRates(args, env, trayConfig, s, codec.value, out);
  }

  /** Bitrate, chunk size, sample rate and segment time. */
  method AssignRates(args: Args, env: Environment, trayConfig: Config.Config?, settings: Settings,
                     codec: Option<string>, printed: seq<Notice>)
    returns (result: Result<Settings, Halt>, out: seq<Notice>)
    requires trayConfig != null ==> trayConfig.hasSection
    requires codec.None? ==> trayConfig == null
    ensures (result, out) == ResolveBitrate(args, env, TrayOf(trayConfig), settings, codec, printed)
  {
    out := printed;
    // Reading the codec fails when it was never assigned.
    var bitrate, bitrateLines := SelectBitrate(args, trayConfig, codec);
    out := out + bitrateLines;
    if bitrate.Err? {
      return Err(bitrate.error), out;
    }
    if args.chunkSize <= 0 {
      out := out + [ChunkSizeMustBePositive];
      return Err(Exited(NonPositiveChunkSize)), out;
    }
    var s := settings.(codec := codec.value, bitrate := bitrate.value, chunkSize := args.chunkSize);

    var samplerate, samplerateLines := SelectSamplerate(args, trayConfig, s.codec);
    out := out + samplerateLines;
    if samplerate.Err? {
      return Err(samplerate.error), out;
    }

    // Segment time, from the backend chosen so far.
    var segmentTime: Option<int>;
    if GivenInt(args.segmentTime) && s.backend !in ["parec", "node"] {
      segmentTime := args.segmentTime;
    } else {
      segmentTime := None;
    }
    s := s.(samplerate := samplerate.value, segmentTime := segmentTime);
    result, out := AssignSource(args, env, s, out);
  }

  /** The youtube URL, which overrides the backend, then `_validate_input_file`. */
  method AssignSource(args: Args, env: Environment, settings: Settings, printed: seq<Notice>)
    returns (result: Result<Settings, Halt>, out: seq<Notice>)
    ensures (result, out) == ResolveYoutube(args, env, settings, printed)
  {
    out := printed;
    var youtube, youtubeLines := SelectYoutubeUrl(args, env.checkUrl);
    out := out + youtubeLines;
    if youtube.Err? {
      return Err(youtube.error), out;
    }
    var s := settings;
    if youtube.value.Some? {
      s := s.(youtubeUrl := youtube.value, backend := "ffmpeg");
    }

    var input := ValidateInputFile(args, env.isFile);
    out := out + input.1;
    if input.0.Some? {
      return Err(input.0.value), out;
    }
    result := Ok(s);
  }
}

module MkchromecastFacts {
  import opened Wrappers
  import opened Strings
  import opened Console
  import opened Constants
  import Config
  import opened Mkchromecast

  /** A youtube URL, once accepted, replaces the backend with ffmpeg. */
  function YoutubeOverride(args: Args, s: Settings): Settings {
    if Given(args.youtube) then s.(youtubeUrl := args.youtube, backend := "ffmpeg") else s
  }

  /**
    Loading the tray file keeps every value the file holds and gives every
    option a value; it prints nothing exactly when the file exists and
    already holds every option.
   */
  lemma TrayLoadFills(platform: string, debug: bool, file: Option<map<string, string>>, k: string)
    ensures file.Some? && k in file.value ==>
              k in TrayLoad(platform, debug, file).0 && TrayLoad(platform, debug, file).0[k] == file.value[k]
    ensures k in Config.Keys(Config.DefaultConf(platform)) ==> k in TrayLoad(platform, debug, file).0
    ensures TrayLoad(platform, debug, file).1 == []
        <==> file.Some? && forall key :: key in Config.Keys(Config.DefaultConf(platform)) ==> key in file.value
  {
    var d := Config.DefaultConf(platform);
    var read := if file.Some? then file.value else map[];
    var missing := Config.FillMissing(read, d).1;
    Config.FillMissingKeys(read, d, k);
    if file.Some? && forall key :: key in Config.Keys(d) ==> key in file.value {
      forall i | 0 <= i < |d|
        ensures d[i].0 in read
      {
        assert d[i].0 in Config.Keys(d);
      }
      Config.FillMissingAllPresent(read, d);
    }
    if missing == [] {
      forall key | key in Config.Keys(d)
        ensures key in read
      {
        Config.FillMissingKeys(read, d, key);
      }
    } else {
      assert Config.SaveNotices(missing, true, debug) == [Config.NotSaving];
    }
  }

  /**
    Every check of `__init__` passes: the tray values read, the backend,
    codec, command and resolution are accepted, the codec was assigned and
    its bitrate accepted, the chunk size is positive, the sample rate
    accepted, the youtube URL supported and the input file present.
   */
  predicate ChecksPass(args: Args, env: Environment, load: TrayLoaded) {
    var tray := TraySettings(args, load);
    var b := ChooseBackend(args, env.platform, tray).0;
    ReadEarlyFields(args, tray).Ok? && b.Ok?
    && (var c := ChooseCodec(Operation(args), args, tray, b.value).0;
        c.Ok? && ChooseCommand(args).0.Ok? && ChooseResolution(args, env.resolutionNames).0.Ok?
        && c.value.Some? && ChooseBitrate(args, tray, c.value).0.Ok? && args.chunkSize > 0
        && ChooseSamplerate(args, tray, c.value.value).0.Ok?)
    && ChooseYoutubeUrl(args, env.checkUrl).0.Ok? && ValidateInputFile(args, env.isFile).0.None?
  }

  // One lemma per stage: the stage succeeds exactly when its own check and
  // every later one pass, and then the settings are the stage's input with
  // the later choices filled in.

  lemma SourceStage(args: Args, env: Environment, s: Settings, out: seq<Notice>)
    ensures ResolveYoutube(args, env, s, out).0.Ok?
        <==> ChooseYoutubeUrl(args, env.checkUrl).0.Ok? && ValidateInputFile(args, env.isFile).0.None?
    ensures ResolveYoutube(args, env, s, out).0.Ok? ==> ResolveYoutube(args, env, s, out).0.value == YoutubeOverride(args, s)
  {
  }

  lemma SamplerateStage(args: Args, env: Environment, tray: Option<map<string, string>>, s: Settings, out: seq<Notice>)
    ensures ResolveSamplerate(args, env, tray, s, out).0.Ok?
        <==> ChooseSamplerate(args, tray, s.codec).0.Ok?
             && ChooseYoutubeUrl(args, env.checkUrl).0.Ok? && ValidateInputFile(args, env.isFile).0.None?
    ensures ResolveSamplerate(args, env, tray, s, out).0.Ok? ==>
              ResolveSamplerate(args, env, tray, s, out).0.value
              == YoutubeOverride(args, s.(samplerate := ChooseSamplerate(args, tray, s.codec).0.value,
                                          segmentTime := SegmentTime(args, s.backend)))
  {
    var sr := ChooseSamplerate(args, tray, s.codec);
    if sr.0.Ok? {
      SourceStage(args, env, s.(samplerate := sr.0.value, segmentTime := SegmentTime(args, s.backend)), out + sr.1);
    }
  }

  lemma RatesStage(args: Args, env: Environment, tray: Option<map<string, string>>, s: Settings,
                   codec: Option<string>, out: seq<Notice>)
    requires codec.None? ==> tray.None?
    ensures ResolveBitrate(args, env, tray, s, codec, out).0.Ok?
        <==> codec.Some? && ChooseBitrate(args, tray, codec).0.Ok? && args.chunkSize > 0
             && ChooseSamplerate(args, tray, codec.value).0.Ok?
             && ChooseYoutubeUrl(args, env.checkUrl).0.Ok? && ValidateInputFile(args, env.isFile).0.None?
    ensures ResolveBitrate(args, env, tray, s, codec, out).0.Ok? ==>
              codec.Some? && ChooseBitrate(args, tray, codec).0.Ok? && ChooseSamplerate(args, tray, codec.value).0.Ok?
              && ResolveBitrate(args, env, tray, s, codec, out).0.value
                 == YoutubeOverride(args, s.(codec := codec.value, bitrate := ChooseBitrate(args, tray, codec).0.value,
                                             chunkSize := args.chunkSize,
                                             samplerate := ChooseSamplerate(args, tray, codec.value).0.value,
                                             segmentTime := SegmentTime(args, s.backend)))
  {
    var br := ChooseBitrate(args, tray, codec);
    if br.0.Ok? && args.chunkSize > 0 {
      SamplerateStage(args, env, tray, s.(codec := codec.value, bitrate := br.0.value, chunkSize := args.chunkSize),
                      out + br.1);
    }
  }

  /** What the backend, codec, command and resolution steps print when they all succeed. */
  function FormatLines(args: Args, env: Environment, tray: Option<map<string, string>>, s: Settings, out: seq<Notice>)
    : seq<Notice>
    requires ChooseBackend(args, env.platform, tray).0.Ok?
  {
    var b := ChooseBackend(args, env.platform, tray);
    out + b.1 + ChooseCodec(s.operation, args, tray, b.0.value).1 + ChooseCommand(args).1
        + ChooseResolution(args, env.resolutionNames).1
  }

  /** The settings after the backend, command and resolution steps. */
  function Formatted(args: Args, env: Environment, tray: Option<map<string, string>>, s: Settings): Settings
    requires ChooseBackend(args, env.platform, tray).0.Ok?
    requires ChooseCommand(args).0.Ok? && ChooseResolution(args, env.resolutionNames).0.Ok?
  {
    s.(backend := ChooseBackend(args, env.platform, tray).0.value, command := ChooseCommand(args).0.value,
       resolution := ChooseResolution(args, env.resolutionNames).0.value)
  }

  lemma FormatStage(args: Args, env: Environment, tray: Option<map<string, string>>, s: Settings, out: seq<Notice>)
    ensures var b := ChooseBackend(args, env.platform, tray).0;
            ResolveBackend(args, env, tray, s, out).0.Ok? ==>
              b.Ok? && ChooseCodec(s.operation, args, tray, b.value).0.Ok?
              && ChooseCommand(args).0.Ok? && ChooseResolution(args, env.resolutionNames).0.Ok?
    ensures var b := ChooseBackend(args, env.platform, tray).0;
            b.Ok? && ChooseCodec(s.operation, args, tray, b.value).0.Ok?
            && ChooseCommand(args).0.Ok? && ChooseResolution(args, env.resolutionNames).0.Ok? ==>
              var c := ChooseCodec(s.operation, args, tray, b.value).0.value;
              (c.None? ==> tray.None?)
              && ResolveBackend(args, env, tray, s, out).0
                 == ResolveBitrate(args, env, tray, Formatted(args, env, tray, s), c, FormatLines(args, env, tray, s, out)).0
  {
    var b := ChooseBackend(args, env.platform, tray);
    if b.0.Ok? {
      var s1 := s.(backend := b.0.value);
      var c := ChooseCodec(s.operation, args, tray, b.0.value);
      assert ResolveBackend(args, env, tray, s, out) == ResolveCodec(args, env, tray, s1, out + b.1);
      if c.0.Ok? {
        assert ResolveCodec(args, env, tray, s1, out + b.1) == ResolveCommand(args, env, tray, s1, c.0.value, out + b.1 + c.1);
      }
    }
  }

  /**
    `__init__` completes exactly when every check passes, and then each
    setting is the choice of its own step: the closed form of the staged
    resolution.
   */
  lemma Ready(args: Args, env: Environment, load: TrayLoaded)
    ensures Resolved(args, env, load).0.Ok? <==> ChecksPass(args, env, load)
    ensures ChecksPass(args, env, load) ==>
            var tray := TraySettings(args, load);
            var early := ReadEarlyFields(args, tray).value;
            var b := ChooseBackend(args, env.platform, tray).0.value;
            var c := ChooseCodec(Operation(args), args, tray, b).0.value;
            Resolved(args, env, load).0.value
            == YoutubeOverride(args, Settings(Operation(args), early.adevice, early.notifications, early.searchAtLaunch,
                                              early.colors, args.tray || args.selectDevice, b, c.value,
                                              ChooseCommand(args).0.value,
                                              ChooseResolution(args, env.resolutionNames).0.value,
                                              ChooseBitrate(args, tray, c).0.value, args.chunkSize,
                                              ChooseSamplerate(args, tray, c.value).0.value,
                                              SegmentTime(args, b), None))
  {
    var op := Operation(args);
    var tray := TraySettings(args, load);
    var out := if op == Tray then Loaded(load.1) else [];
    if ReadEarlyFields(args, tray).Ok? {
      var early := ReadEarlyFields(args, tray).value;
      var s0 := Unresolved(op, early, args.tray || args.selectDevice);
      assert Resolved(args, env, load) == ResolveBackend(args, env, tray, s0, out);
      FormatStage(args, env, tray, s0, out);
      var b := ChooseBackend(args, env.platform, tray).0;
      if b.Ok? && ChooseCodec(op, args, tray, b.value).0.Ok?
         && ChooseCommand(args).0.Ok? && ChooseResolution(args, env.resolutionNames).0.Ok? {
        var c := ChooseCodec(op, args, tray, b.value).0.value;
        RatesStage(args, env, tray, Formatted(args, env, tray, s0), c, FormatLines(args, env, tray, s0, out));
      }
    }
  }

  /** Checks every completed run has passed, in every mode. */
  lemma ReadyChecksPassed(args: Args, env: Environment, load: TrayLoaded)
    requires Resolved(args, env, load).0.Ok?
    ensures var s := Resolved(args, env, load).0.value;
            s.operation == Operation(args)
            && s.selectDevice == (args.tray || args.selectDevice)
            && s.chunkSize == args.chunkSize && s.chunkSize > 0
            && args.sampleRate >= 22050
    ensures Given(args.inputFile) ==> env.isFile(args.inputFile.value)
    ensures var s := Resolved(args, env, load).0.value;
            (Given(args.command) ==> s.command == args.command && args.command.value in CommandChoices)
            && (!Given(args.command) ==> s.command.None?)
    ensures var s := Resolved(args, env, load).0.value;
            (Given(args.resolution) ==>
               s.resolution == args.resolution
               && exists i :: 0 <= i < |env.resolutionNames| && Lower(env.resolutionNames[i]) == Lower(args.resolution.value))
            && (!Given(args.resolution) ==> s.resolution.None?)
  {
    Ready(args, env, load);
  }

  /** A youtube URL must pass `check_url`; it is kept and forces the ffmpeg backend. */
  lemma ReadyYoutube(args: Args, env: Environment, load: TrayLoaded)
    requires Resolved(args, env, load).0.Ok?
    ensures var s := Resolved(args, env, load).0.value;
            (Given(args.youtube) ==> env.checkUrl(args.youtube.value) && s.youtubeUrl == args.youtube && s.backend == "ffmpeg")
            && (!Given(args.youtube) ==> s.youtubeUrl.None?)
  {
    Ready(args, env, load);
  }

  /** The segment time survives only as given, and never for the parec or node backends. */
  lemma ReadySegmentTime(args: Args, env: Environment, load: TrayLoaded)
    requires Resolved(args, env, load).0.Ok?
    ensures var s := Resolved(args, env, load).0.value;
            (s.segmentTime.Some? ==> s.segmentTime == args.segmentTime && GivenInt(args.segmentTime))
            && (s.segmentTime.Some? ==> s.backend != "parec" && s.backend != "node")
  {
    Ready(args, env, load);
  }

  /**
    Outside tray mode the settings come from the arguments: the backend is
    one offered on the platform, the codec is a supported one (the node
    backend only ever runs with mp3), and bitrate and sample rate follow
    the codec.
   */
  lemma ReadyFromArgs(args: Args, env: Environment, load: TrayLoaded)
    requires Resolved(args, env, load).0.Ok?
    requires Operation(args) != Tray
    ensures var s := Resolved(args, env, load).0.value;
            s.adevice == args.alsaDevice && s.notifications == args.notifications
            && s.searchAtLaunch.None? && s.colors.None?
    ensures var s := Resolved(args, env, load).0.value;
            s.backend in BackendOptionsForPlatform(env.platform, args.video)
    ensures var s := Resolved(args, env, load).0.value;
            (Operation(args) == SourceUrl ==> s.codec == args.codec)
            && (Operation(args) != SourceUrl ==> s.codec in CodecChoices)
            && (Operation(args) != SourceUrl && s.backend == "node" ==> s.codec == "mp3")
  {
    Ready(args, env, load);
    CodecChoicesAreAllCodecs();
  }

  /** Outside tray mode, bitrate and sample rate follow the codec. */
  lemma ReadyRatesFromArgs(args: Args, env: Environment, load: TrayLoaded)
    requires Resolved(args, env, load).0.Ok?
    requires Operation(args) != Tray
    ensures var s := Resolved(args, env, load).0.value;
            (s.codec in CodecsWithBitrate ==> s.bitrate == args.bitrate && s.bitrate > 0)
            && (s.codec !in CodecsWithBitrate ==> s.bitrate == DefaultBitrate)
            && s.samplerate == (if s.codec == "opus" then 48000 else args.sampleRate)
  {
    Ready(args, env, load);
  }

  /**
    In tray mode the media settings are read back from the tray config:
    backend (unless a youtube URL overrides it), codec, bitrate and sample rate.
   */
  lemma ReadyFromTray(args: Args, env: Environment, load: TrayLoaded)
    requires Resolved(args, env, load).0.Ok?
    requires Operation(args) == Tray
    ensures var t := load.0;
            var s := Resolved(args, env, load).0.value;
            (!Given(args.youtube) ==> Config.Get(true, t, Config.BackendKey) == Ok(s.backend))
            && Config.Get(true, t, Config.CodecKey) == Ok(s.codec)
            && Config.GetInt(true, t, Config.BitrateKey) == Ok(s.bitrate)
            && Config.GetInt(true, t, Config.SamplerateKey) == Ok(s.samplerate)
  {
    Ready(args, env, load);
  }

  /** In tray mode the preferences are the tray's too, and a device is always selected. */
  lemma ReadyPreferencesFromTray(args: Args, env: Environment, load: TrayLoaded)
    requires Resolved(args, env, load).0.Ok?
    requires Operation(args) == Tray
    ensures var t := load.0;
            var s := Resolved(args, env, load).0.value;
            Config.Get(true, t, Config.AlsaDeviceKey).Ok?
            && s.adevice == Config.DecodeAlsaDevice(Config.Get(true, t, Config.AlsaDeviceKey).value)
            && Config.GetBoolean(true, t, Config.NotificationsKey) == Ok(s.notifications)
            && s.searchAtLaunch.Some? && Config.GetBoolean(true, t, Config.SearchAtLaunchKey) == Ok(s.searchAtLaunch.value)
            && s.colors.Some? && Config.Get(true, t, Config.ColorsKey) == Ok(s.colors.value)
            && s.selectDevice
  {
    Ready(args, env, load);
  }

  /**
    As written, the node backend with mp3 requested never assigns the codec,
    so reading it for the bitrate raises: once the command and resolution
    pass, the run crashes whatever the other arguments say.
   */
  lemma NodeMp3Crashes(args: Args, env: Environment, load: TrayLoaded)
    requires Operation(args) != SourceUrl && Operation(args) != Tray
    requires ChooseBackend(args, env.platform, None).0 == Ok("node") && args.codec == "mp3"
    requires ChooseCommand(args).0.Ok? && ChooseResolution(args, env.resolutionNames).0.Ok?
    ensures Resolved(args, env, load).0 == Err(Crashed(CodecUnassigned))
  {
    var early := ReadEarlyFields(args, None).value;
    var s0 := Unresolved(Operation(args), early, args.tray || args.selectDevice);
    assert Resolved(args, env, load) == ResolveBackend(args, env, None, s0, []);
    FormatStage(args, env, None, s0, []);
  }

  /** Hence the plain audiocast on macOS (no backend, no codec given, so mp3) always crashes. */
  lemma DarwinAudiocastCrashes(args: Args, env: Environment, load: TrayLoaded)
    requires env.platform == "Darwin" && Operation(args) == Audiocast
    requires !Given(args.encoderBackend) && !args.video && args.codec == "mp3"
    requires !Given(args.command) && !Given(args.resolution)
    ensures Resolved(args, env, load).0 == Err(Crashed(CodecUnassigned))
  {
    NodeMp3Crashes(args, env, load);
  }
}
