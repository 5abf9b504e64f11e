# mkchromecast core, modelled in Dafny

mkchromecast casts a desktop's audio, or a video, to a Google Cast device.
Its core does not touch the network. This core:

- chooses the operating mode;
- resolves the encoder settings from the command line or from the tray's configuration file;
- quantizes the sample rate and clamps the bitrate of each codec;
- keeps the tray configuration (a `configparser` file with one `[settings]` section);
- builds the `ffmpeg`, `lame`, `oggenc`, `faac`, `opusenc`, `sox` and `flac` command lines that feed the stream.

The model is split into modules that follow the Python package:

| module | Python source | form |
|---|---|---|
| `Constants` | `mkchromecast/constants.py` | the capability tables and their lookup functions |
| `Messages` | `mkchromecast/messages.py` | the sample-rate warning as a function of the codec |
| `Utils` | `mkchromecast/utils.py` | `quantize_sample_rate` as a method with its loop, proved against `Quantize`; `clamp_bitrate`; `is_installed` as a method with its loop over `$PATH` |
| `PipelineBuilder` | `mkchromecast/pipeline_builder.py` | the audio and video command builders as pure functions on the settings records |
| `Config` | `mkchromecast/config.py` | a `class Config`: its `settings` map, `hasSection` flag, the snapshots it has `written`, and what it has printed to the `console` |
| `Mkchromecast`, `MkchromecastFacts` | `mkchromecast/__init__.py` | `Mkchromecast.__init__` as a method `Init` whose steps update a settings record, proved equal to a stage-by-stage function `Resolution`; the facts about that function |

Supporting modules:

- `Wrappers`: `Option`, `Result`, and Python's truthiness of an optional string or integer (`Given`, `GivenInt`).
- `Strings`: decimal formatting and parsing, ASCII lower-casing, join and split, substrings.
- `Console`: a printed line, tagged with the colour `colors.warning`, `colors.error` or `colors.options` gives it.

Printed output is kept as data:

- `Config.Notice` and `Mkchromecast.Notice` name each message.
- `Shown` gives the line a notice prints.
- The contracts of the `Choose` functions and of `ValidateInputFile` say what each path prints: the lines before each `sys.exit`, nothing before a crash, and nothing on success except the mp3 warning under node.
- The contracts of `Init` and of the `Config` methods give the printed lines in full, in order.

`sys.exit` and uncaught exceptions become error values:

- `Halt.Exited(reason)` for a deliberate exit.
- `Halt.Crashed(cause)` for a Python exception that escapes `__init__`.

The file system, `check_url`, `os.path.isfile`, the resolutions module and `ffprobe` are parameters of the functions that use them.

Two behaviours of the code are worth knowing:

- `quantize_sample_rate` rounds a rate that is not in the codec's table UP to the next legal rate (`mkchromecast/utils.py:71-77`). `Utils.QuantizeRoundsUp` proves it.
- Suppose the node backend is chosen and `--codec mp3` is given, outside tray and source-URL modes (`mkchromecast/__init__.py:144-148`). Then `self.codec` is never assigned, and the bitrate step that reads it raises `AttributeError`. The model keeps this as written: it is the crash `CodecUnassigned`. `MkchromecastFacts.NodeMp3Crashes` and `MkchromecastFacts.DarwinAudiocastCrashes` state when it happens. On macOS this is the default audiocast setup.

## Model

| member | source | states |
|---|---|---|
| Constants.SampleRatesForCodec | mkchromecast/constants.py:22-32 | ogg and mp3 get the four rates up to 48 kHz; every other codec name gets all eight rates |
| Constants.SampleRateTablesOrdered | mkchromecast/constants.py:22-25 | both rate tables are strictly increasing, and the 48 kHz table is a prefix of the full one |
| Constants.SampleRatesForCodecOrdered | tests/test_constants.py:8-12 | every codec's table is non-empty and strictly increasing |
| Constants.BackendOptionsForPlatform | mkchromecast/constants.py:40-47 | macOS offers node and ffmpeg; Linux offers node and ffmpeg for video, ffmpeg and parec otherwise |
| Constants.LinuxBackendsDependOnVideo | tests/test_constants.py:14-27 | on Linux, parec is offered for audio and not for video, and audio is the default |
| Constants.BackendOptionsAreKnown | mkchromecast/constants.py:35-47 | every backend any platform offers is one of the known backends |
| Constants.CodecTablesConsistent | mkchromecast/constants.py:50-54 | every codec with a bitrate is a known codec, and so is node's codec |
| Messages.SampleRateWarningText | mkchromecast/messages.py:11-17 | the warning text: `Sample rates supported by <codec> are: ` and the codec's rates as `<rate>Hz`, joined by `, `, then `.`; `WarningNamesCodec`, `WarningListsEveryRate` and `Max48kWarningMentionsOnlyItsTable` state what it contains |
| Messages.PrintSampleRateWarning | mkchromecast/messages.py:9-18 | exactly one warning-coloured line is printed, and its text is the codec's rate list |
| Messages.WarningNamesCodec | mkchromecast/messages.py:15-18 | the warning contains the codec name |
| Messages.WarningListsEveryRate | mkchromecast/messages.py:11-16 | the warning contains `<rate>Hz` for every rate of the codec's table |
| Messages.Max48kWarningMentionsOnlyItsTable | mkchromecast/messages.py:11-16 | for every rate of the full table, the ogg and mp3 warnings mention `<rate>Hz` iff the rate is in their own table: never 88200Hz, 96000Hz, 176000Hz or 192000Hz |
| Messages.AacWarning | tests/test_messages.py:12-21 | the aac warning names aac and mentions 22050Hz, 48000Hz and 192000Hz |
| Messages.Mp3Warning | tests/test_messages.py:23-32 | the mp3 warning names mp3, mentions 22050Hz and 48000Hz, and does not mention 192000Hz |
| Utils.TargetRates | mkchromecast/utils.py:62-66 | the table that quantization uses is non-empty, strictly increasing and made of legal rates |
| Utils.Quantize | mkchromecast/utils.py:62-83 | the rate `quantize_sample_rate` returns, as a function; `QuantizeInTable`, `QuantizeRoundsUp`, `QuantizeClampsToMaximum` and `QuantizeIdempotent` state its properties |
| Utils.QuantizeWarnings | mkchromecast/utils.py:68-83 | the lines `quantize_sample_rate` prints, as a function: nothing for a legal rate, the sample-rate warning when rounding up, and the maximum notice after it when clamping; `QuantizeRoundsUp` and `QuantizeClampsToMaximum` state them |
| Utils.RoundUpFrom | mkchromecast/utils.py:71-83 | the scan from index `i`; `RoundUpFromIsLeastAbove` states what it returns |
| Utils.QuantizeSampleRate | mkchromecast/utils.py:17-83 | the loop returns a rate of the codec's table and prints the warnings `Quantize` predicts; a rate already in the table is returned unchanged and nothing is printed |
| Utils.RoundUpFromIsLeastAbove | mkchromecast/utils.py:71-83 | the scan returns the least table rate above the input, or the maximum when no rate is above |
| Utils.QuantizeInTable | mkchromecast/utils.py:17-83 | the quantized rate is always in the codec's table |
| Utils.QuantizeRoundsUp | mkchromecast/utils.py:71-77 | a rate below the maximum that is not in the table becomes the least larger table rate, and exactly the sample-rate warning is printed |
| Utils.QuantizeClampsToMaximum | mkchromecast/utils.py:79-83 | a rate above the maximum becomes the maximum; the sample-rate warning and then "Sample rate set to maximum!" are printed |
| Utils.QuantizeIdempotent | mkchromecast/utils.py:68-69 | quantizing a quantized rate changes nothing and prints nothing |
| Utils.MaxBitrate | mkchromecast/utils.py:106-111 | mp3, ogg and aac have a ceiling and no other codec has one; a ceiling exists only for a codec with a bitrate, and the default bitrate 192 is within it |
| Utils.ClampBitrate | mkchromecast/utils.py:86-124 | the result is positive and within the codec's maximum; a missing or non-positive bitrate gives the default with one message; a bitrate in range is kept silently; one above the maximum becomes the maximum |
| Utils.ClampBitrateIdempotent | mkchromecast/utils.py:86-124 | clamping a clamped bitrate returns it unchanged and prints nothing |
| Utils.ClampBitrateMessages | tests/test_utils.py:12-52 | the message printed for a missing, invalid or too-large bitrate is the one the source formats |
| Utils.InvalidMentions | tests/test_utils.py:20-29 | the invalid-bitrate message contains "invalid" and the default 192 |
| Utils.ExceedsMaxMentions | mkchromecast/utils.py:117-122 | the too-large message names the codec, the requested bitrate and the maximum |
| Utils.FirstHit | mkchromecast/utils.py:151-162 | the first `$PATH` entry from `i` on that holds the program; `FirstHitIsEarliest` states it |
| Utils.FirstHitIsEarliest | mkchromecast/utils.py:151-162 | the search finds nothing iff no `$PATH` entry holds the program, and otherwise finds the first entry that does |
| Utils.IsInstalled | mkchromecast/utils.py:151-162 | the loop answers true iff some `$PATH` entry holds the program, and in debug mode prints the entry found first |
| PipelineBuilder.Audio.InputArgs | mkchromecast/pipeline_builder.py:62-85 | the input arguments as a function; `Audio.InputCommand` is proved to build them, and `InputArgsBySource` states them per source |
| PipelineBuilder.Audio.InputCommand | mkchromecast/pipeline_builder.py:62-85 | macOS captures from avfoundation with no frame size; Linux sets the frame size, then reads from ALSA when a device is given and from the PulseAudio monitor otherwise |
| PipelineBuilder.InputArgsBySource | tests/test_pipeline_builder.py:32-61 | the input arguments for the macOS, PulseAudio and ALSA cases, and `-frame_size` appears iff the platform is not macOS |
| PipelineBuilder.Audio.Command | mkchromecast/pipeline_builder.py:48-60 | the backend dispatch; `DarwinIgnoresBackendName` and `CommandDispatch` state it |
| PipelineBuilder.Audio.FfmpegCommand | mkchromecast/pipeline_builder.py:87-138 | the ffmpeg command; `FfmpegCommandDefined`, `FfmpegCommandFrame`, `FfmpegFlagsInCommand` and `FfmpegBitrateArgument` state its properties |
| PipelineBuilder.Audio.NativeEncoderCommand | mkchromecast/pipeline_builder.py:140-203 | the native-encoder command; `NativeEncoderBinary`, `NativeEncoderRejects`, `NativeBitrateArgument` and `NativeBitrateHasNoSuffix` state its properties |
| PipelineBuilder.DarwinIgnoresBackendName | mkchromecast/pipeline_builder.py:48-60 | on macOS the command is the ffmpeg command whatever the backend's name |
| PipelineBuilder.CommandDispatch | mkchromecast/pipeline_builder.py:48-60 | on Linux, ffmpeg gives the ffmpeg command, parec the native-encoder command, and any other backend an error |
| PipelineBuilder.FfmpegCommandDefined | mkchromecast/pipeline_builder.py:87-138 | the ffmpeg command exists iff the codec is known (or adts); otherwise the format lookup fails with a KeyError naming it |
| PipelineBuilder.FfmpegCommandFrame | mkchromecast/pipeline_builder.py:87-138 | the ffmpeg command starts with the backend's path, ends with `pipe:`, and contains `-f <fmt> -acodec <encoder>` |
| PipelineBuilder.AacIsAdts | mkchromecast/pipeline_builder.py:30-37 | aac is sent in the adts container with the aac encoder |
| PipelineBuilder.FfmpegFlagsInCommand | tests/test_pipeline_builder.py:63-137 | `-b:a` appears iff the codec has a bitrate; `-loglevel` iff ffmpeg debug is on; `-segment_time` iff segmenting; `-cutoff` iff the format is adts and a segment time is given; `-frame_size` iff not on macOS |
| PipelineBuilder.FfmpegBitrateArgument | mkchromecast/pipeline_builder.py:101-105 | a codec with a bitrate gets `-b:a <bitrate>k` |
| PipelineBuilder.NativeEncoderBinary | mkchromecast/pipeline_builder.py:140-203 | the native-encoder command exists iff the codec is known, and each codec runs its own encoder (lame, oggenc, faac, opusenc, sox, flac) |
| PipelineBuilder.NativeEncoderRejects | mkchromecast/pipeline_builder.py:200-203 | an unknown codec is an error whose message says "unexpected codec" and names it |
| PipelineBuilder.NativeBitrateArgument | mkchromecast/pipeline_builder.py:140-203 | mp3, ogg and aac pass the bitrate as a bare number; opus passes it with `--bitrate` |
| PipelineBuilder.NativeBitrateHasNoSuffix | tests/test_pipeline_builder.py:181-197 | no native-encoder command carries the `k`-suffixed bitrate that ffmpeg uses |
| PipelineBuilder.FullLinuxCommand | tests/test_pipeline_builder.py:139-158 | the full Linux ffmpeg mp3 command, word by word |
| PipelineBuilder.FullDarwinCommand | tests/test_pipeline_builder.py:160-178 | the full macOS ffmpeg command with segments, word by word |
| PipelineBuilder.IsMkv | mkchromecast/pipeline_builder.py:206-207 | a name reported as Matroska ends in `v` and has at least three characters |
| PipelineBuilder.IsMkvBySuffix | mkchromecast/pipeline_builder.py:206-207 | any name ending in `.mkv` is Matroska, and any name ending in `.mp4` is not |
| PipelineBuilder.InputFileSubtitle | tests/test_pipeline_builder.py:223-257 | no subtitles means no arguments; a non-mkv file burns them in with `-vf subtitles=`; an mkv file extracts them to a temporary file first |
| PipelineBuilder.InputFileVencode | mkchromecast/pipeline_builder.py:342-397 | the video-encoding choice for an input file; `VencodeProbesOnlyMkv` and `VencodePolicy` state it |
| PipelineBuilder.VencodeProbesOnlyMkv | mkchromecast/pipeline_builder.py:342-397 | `ffprobe` is consulted only for an mkv file played at its own resolution |
| PipelineBuilder.VencodePolicy | tests/test_pipeline_builder.py:272-297 | a requested resolution re-encodes with libx264; a non-mkv file at its own resolution copies the video; an mkv file's choice follows its pixel format |
| PipelineBuilder.InputFileAencode | tests/test_pipeline_builder.py:259-270 | a non-mkv file gets no audio arguments; an mkv file copies its audio iff it has subtitles and re-encodes with libmp3lame otherwise |
| PipelineBuilder.InputFileCommand | mkchromecast/pipeline_builder.py:417-464 | the input-file command; `InputFileCommandHead` and `InputFileCommandShape` state its properties |
| PipelineBuilder.InputFileCommandHead | mkchromecast/pipeline_builder.py:417-464 | an input-file command starts with ffmpeg, the loop and seek options and the input, and ends with `pipe:1` |
| PipelineBuilder.InputFileCommandShape | mkchromecast/pipeline_builder.py:417-464 | no input file is an error; an unknown resolution is an error; otherwise a command is built |
| PipelineBuilder.ScreencastCommand | mkchromecast/pipeline_builder.py:257-294 | the screencast command runs ffmpeg and ends with `pipe:1` |
| PipelineBuilder.ScreencastArguments | mkchromecast/pipeline_builder.py:257-294 | the screencast records the PulseAudio monitor and the X11 display at the requested resolution or 1080p, and `-preset veryfast` follows the encoder iff the encoder is not `h264_nvenc` |
| PipelineBuilder.VideoCommand | mkchromecast/pipeline_builder.py:239-255 | the video command dispatch; `VideoCommandPriority` states it |
| PipelineBuilder.VideoCommandPriority | mkchromecast/pipeline_builder.py:239-255 | youtube and screencast commands come first; youtube runs youtube-dl on the URL; otherwise a user command is returned as it is, for the shell; then the input-file command; any other mode is an error |
| PipelineBuilder.ReencodeSpotCheck | tests/test_pipeline_builder.py:299-321 | the full re-encoding command for an mp4 file at 1080p, word by word |
| PipelineBuilder.CopySpotCheck | tests/test_pipeline_builder.py:323-342 | the full copying command for a looped, seeked mp4 file, word by word |
| Config.DefaultKeysDistinct | mkchromecast/config.py:69-82 | `_default_conf` holds each of its keys once |
| Config.DefaultConf | mkchromecast/config.py:69-82 | the defaults cover the eight settings keys in `_default_conf` insertion order (backend last), and the backend default is node on macOS and parec elsewhere |
| Config.FillMissing | mkchromecast/config.py:117-133 | the loop of `_update_any_missing_values` as a function: the filled settings and the missing keys; `FillMissingKeys` and the lemmas below state its properties |
| Config.MissingKeyNotices | mkchromecast/config.py:122-124 | in debug mode, one "Setting missing key" line per missing key, in order; nothing otherwise |
| Config.SaveNotices | mkchromecast/config.py:130-137 | nothing when no key is missing; otherwise "not being saved" for a read-only Config, and the "Re-writing config" line in debug mode |
| Config.FillMissingKeys | mkchromecast/config.py:111-139 | filling keeps every stored value; afterwards a key is present iff it was stored or has a default; a key is reported missing iff it had a default and was not stored |
| Config.FillMissingUsesDefault | mkchromecast/config.py:127-133 | a missing key receives the string form of its default |
| Config.FillMissingAllPresent | mkchromecast/config.py:111-139 | a file holding every key is left as it is, and nothing is reported |
| Config.FillMissingIdempotent | mkchromecast/config.py:111-139 | filling a filled file changes nothing and reports nothing |
| Config.FillMissingReportsOnce | mkchromecast/config.py:111-139 | no key is reported missing twice |
| Config.FillMissingAllAbsent | mkchromecast/config.py:111-139 | filling an empty file reports every default key, in order |
| Config.NewFileReportsEveryKey | tests/test_config.py:17-34 | a new configuration file reports all eight keys missing |
| Config.NewFileValues | tests/test_config.py:36-68 | each key of a new file holds its default's string form |
| Config.NewFileDefaults | tests/test_config.py:36-68 | a new file holds mp3, 192, 44100, False, black, False, None, and the platform's backend (node on macOS, parec elsewhere) |
| Config.BooleanState | mkchromecast/config.py:175-197 | the text means true iff it lower-cases to 1, yes, true or on, and false iff it lower-cases to 0, no, false or off |
| Config.Get | mkchromecast/config.py:143-209 | a read succeeds iff the section exists and holds the key |
| Config.GetInt | mkchromecast/config.py:159-173 | an integer read succeeds only where the plain read does |
| Config.GetBoolean | mkchromecast/config.py:175-197 | a boolean read succeeds only where the plain read does |
| Config.DecodeAlsaDevice | mkchromecast/config.py:199-205 | the stored text "None" reads as no device, and any other text reads as itself |
| Config.IntSettingRoundTrip | tests/test_config.py:70-91 | an integer written through the setter is read back unchanged |
| Config.BoolSettingRoundTrip | tests/test_config.py:70-91 | a boolean written through the setter is read back unchanged |
| Config.AlsaDeviceRoundTrip | tests/test_config.py:93-107 | an ALSA device round-trips iff it is not the device literally named "None" |
| Config.StoreIsLocal | mkchromecast/config.py:143-209 | setting one key makes it read back as written and leaves every other key's read as it was |
| Config.Config.constructor | mkchromecast/config.py:53-82 | a new Config has no section, no settings, has written nothing, and uses its platform's defaults |
| Config.Config.Enter | mkchromecast/config.py:84-88 | entering loads the file on top of the settings and fills the missing keys; it writes the file only when some key was missing and the Config is not read-only; it prints the creating-section line when there was neither a section nor a file, then the missing-key and saving lines |
| Config.Config.Exit | mkchromecast/config.py:90-91 | leaving writes the settings unless read-only, and changes nothing else |
| Config.Config.WithBlock | mkchromecast/config.py:84-91 | after a `with` block the settings are the loaded file with the missing keys filled; nothing is written when read-only, and otherwise the filled settings are written once on exit, after a first write on entry when keys were missing; the lines printed are those of entering |
| Config.Config.LoadAndValidate | mkchromecast/config.py:93-101 | after loading, every default key is present, every value from the file or kept from before is unchanged, and the missing keys are filled and reported |
| Config.Config.MaybeWriteConfig | mkchromecast/config.py:103-109 | a snapshot of the settings is written iff the Config is not read-only |
| Config.Config.UpdateAnyMissingValues | mkchromecast/config.py:111-139 | the section exists afterwards, the missing keys get their defaults and are reported, and the file is rewritten (or "not saving" is printed) only when some key was missing |
| Config.Config.SetMissingToDefaults | mkchromecast/config.py:127-133 | the loop over the defaults fills exactly the missing keys and returns them in order |
| Config.Config.Store | mkchromecast/config.py:143-209 | a store succeeds iff the section exists and then changes only that key; otherwise it fails with NoSectionError and changes nothing |
| Config.Config.SetBackend | mkchromecast/config.py:143-149 | the backend setter changes only the backend key, and the getter then returns the value set |
| Config.Config.SetCodec | mkchromecast/config.py:151-157 | the codec setter changes only the codec key, and the getter then returns the value set |
| Config.Config.SetBitrate | mkchromecast/config.py:159-165 | the bitrate is stored as decimal text and read back as the same integer |
| Config.Config.SetSamplerate | mkchromecast/config.py:167-173 | the sample rate is stored as decimal text and read back as the same integer |
| Config.Config.SetNotifications | mkchromecast/config.py:175-181 | notifications are stored as True/False text and read back as the same boolean |
| Config.Config.SetColors | mkchromecast/config.py:183-189 | the colors setter changes only the colors key, and the getter then returns the value set |
| Config.Config.SetSearchAtLaunch | mkchromecast/config.py:191-197 | search-at-launch is stored as True/False text and read back as the same boolean |
| Config.Config.SetAlsaDevice | mkchromecast/config.py:199-209 | no device is stored as "None"; any device except one named "None" reads back as set |
| Mkchromecast.Operation | mkchromecast/__init__.py:34-53 | the mode is chosen by the first flag set, in the order discover, input file, reset, screencast, source URL, tray, version, youtube; audiocast is chosen when none is set (one if-and-only-if per mode) |
| Mkchromecast.ReadEarlyFields | mkchromecast/__init__.py:70-80 | outside tray mode, the ALSA device and notifications come from the arguments, and search-at-launch and colors are unset |
| Mkchromecast.ChooseBackend | mkchromecast/__init__.py:111-134 | outside tray mode: with no backend requested, the default is ffmpeg for video, node on macOS and parec on Linux; a requested backend is kept iff the platform offers it; any backend chosen is one the platform offers; a rejected backend prints the unsupported-backend line and then the platform's options, and every other path prints nothing |
| Mkchromecast.CodecChoicesAreAllCodecs | mkchromecast/__init__.py:150 | the codecs accepted on the command line are exactly the known codecs |
| Mkchromecast.ChooseCodec | mkchromecast/__init__.py:136-157 | the codec is left unassigned exactly for node with mp3 outside tray and source-URL modes; outside those modes, node with another codec forces mp3, and other backends accept the argument iff it is a known codec; a rejected codec prints the selected-codec and supported-codecs lines and then the six codecs; a failed tray read crashes without printing |
| Mkchromecast.ChooseCommand | mkchromecast/__init__.py:159-174 | no command gives none; a given command is accepted iff it is a supported one, and then kept silently; a rejected one prints the configured-command and supported-commands lines and then the two commands |
| Mkchromecast.ChooseResolution | mkchromecast/__init__.py:176-189 | no resolution gives none; a given one is accepted iff it matches a known name ignoring case, and is then kept as typed and silently; a rejected one prints the lower-cased name, the supported-resolutions line and then the lower-cased names |
| Mkchromecast.ChooseBitrate | mkchromecast/__init__.py:191-202 | outside tray mode: an unassigned codec crashes, a codec with a bitrate takes the argument iff it is positive, and other codecs take the default bitrate silently; a rejected bitrate prints its error line; an accepted bitrate and every crash (the unassigned codec, a failed tray read) print nothing |
| Mkchromecast.ChooseSamplerate | mkchromecast/__init__.py:209-219 | in every mode a rate below 22050 exits with its message; otherwise, outside tray mode, opus uses 48000 and other codecs the argument, silently; a failed tray read crashes without printing |
| Mkchromecast.SegmentTime | mkchromecast/__init__.py:221-225 | a segment time is kept iff one is given and the backend is neither parec nor node |
| Mkchromecast.ChooseYoutubeUrl | mkchromecast/__init__.py:227-251 | no URL gives none; a given URL is accepted iff `check_url` accepts it, and is then kept silently; a rejected one prints the URL error and the list of supported sites |
| Mkchromecast.ValidateInputFile | mkchromecast/__init__.py:279-290 | validation passes silently iff no input file is given or the file exists; otherwise it prints the not-found warning, which does not name the file, and exits; only the model's exit reason `MissingInputFile` records the path |
| Mkchromecast.PrintChoices | mkchromecast/__init__.py:121-124 | the loop prints one plain `- <choice><suffix>` line per choice, in order |
| Mkchromecast.OpenTrayConfig | mkchromecast/__init__.py:58-65 | the tray opens a fresh read-only Config whose settings and printed lines are those of loading the file (the beta-path warning the constructor prints is left out) |
| Mkchromecast.ReadEarly | mkchromecast/__init__.py:70-80 | the method reads the early fields exactly as `ReadEarlyFields` does |
| Mkchromecast.SelectBackend | mkchromecast/__init__.py:111-134 | the method's loop and branches choose the backend exactly as `ChooseBackend` does |
| Mkchromecast.SelectCodec | mkchromecast/__init__.py:136-157 | the method chooses the codec exactly as `ChooseCodec` does |
| Mkchromecast.SelectCommand | mkchromecast/__init__.py:159-174 | the method chooses the command exactly as `ChooseCommand` does |
| Mkchromecast.SelectResolution | mkchromecast/__init__.py:176-189 | the method chooses the resolution exactly as `ChooseResolution` does |
| Mkchromecast.SelectBitrate | mkchromecast/__init__.py:191-207 | the method chooses the bitrate exactly as `ChooseBitrate` does; the chunk-size check is `AssignRates`'s |
| Mkchromecast.SelectSamplerate | mkchromecast/__init__.py:209-219 | the method chooses the sample rate exactly as `ChooseSamplerate` does |
| Mkchromecast.SelectYoutubeUrl | mkchromecast/__init__.py:227-251 | the method checks the URL exactly as `ChooseYoutubeUrl` does |
| Mkchromecast.TrayLoad | mkchromecast/config.py:93-139 | the tray file loaded read-only: its settings with the missing keys filled, and what loading printed; `TrayLoadFills` states it, and `OpenTrayConfig` is proved to produce it |
| Mkchromecast.Resolution | mkchromecast/__init__.py:22-290 | `__init__` as a function of the arguments and the environment; `Init` is proved to compute it, and `MkchromecastFacts` states its properties |
| Mkchromecast.Resolved | mkchromecast/__init__.py:34-290 | the same, once the tray file is loaded; the `MkchromecastFacts` lemmas are stated about it |
| Mkchromecast.Init | mkchromecast/__init__.py:22-290 | the constructor's result and printed lines are those of `Resolution` |
| Mkchromecast.AssignFormat | mkchromecast/__init__.py:111-189 | the backend, codec, command and resolution steps assign what `ResolveBackend` computes |
| Mkchromecast.AssignRates | mkchromecast/__init__.py:191-225 | the bitrate, chunk, sample-rate and segment steps assign what `ResolveBitrate` computes |
| Mkchromecast.AssignSource | mkchromecast/__init__.py:227-254 | the youtube and input-file steps assign what `ResolveYoutube` computes |
| MkchromecastFacts.TrayLoadFills | mkchromecast/config.py:93-139 | loading the tray file keeps every stored value and gives every option a value; it prints nothing iff the file exists and already holds every option |
| MkchromecastFacts.SourceStage | mkchromecast/__init__.py:227-290 | the youtube and input-file stage succeeds iff the URL and the file pass their checks, and then only the youtube override applies |
| MkchromecastFacts.SamplerateStage | mkchromecast/__init__.py:209-225 | the sample-rate stage succeeds iff the rate is at least 22050 and the later checks pass |
| MkchromecastFacts.RatesStage | mkchromecast/__init__.py:191-225 | the bitrate stage succeeds iff the bitrate, chunk size and later checks pass |
| MkchromecastFacts.FormatStage | mkchromecast/__init__.py:111-189 | the format stage succeeds iff the backend, codec, command and resolution are accepted and the later stages succeed |
| MkchromecastFacts.Ready | mkchromecast/__init__.py:34-290 | construction succeeds iff every check passes, and the settings are then exactly the ones each step chooses |
| MkchromecastFacts.ReadyChecksPassed | mkchromecast/__init__.py:159-290 | a constructed instance has a positive chunk size, a sample rate of at least 22050, an existing input file, and a supported command and resolution (or none) |
| MkchromecastFacts.ReadyYoutube | mkchromecast/__init__.py:227-251 | a youtube URL survives only if `check_url` accepts it, and it forces the ffmpeg backend |
| MkchromecastFacts.ReadySegmentTime | mkchromecast/__init__.py:221-225 | a segment time survives only if given, and never with parec or node |
| MkchromecastFacts.ReadyFromArgs | mkchromecast/__init__.py:70-157 | outside tray mode, the device and notifications come from the arguments; the backend is one the platform offers; the codec is a known one, and mp3 for node |
| MkchromecastFacts.ReadyRatesFromArgs | mkchromecast/__init__.py:191-219 | outside tray mode, a codec with a bitrate keeps the positive argument, other codecs use the default bitrate, and the sample rate is 48000 for opus and the argument otherwise |
| MkchromecastFacts.ReadyFromTray | mkchromecast/__init__.py:111-219 | in tray mode, the backend (unless youtube overrides it), codec, bitrate and sample rate are the tray file's values |
| MkchromecastFacts.ReadyPreferencesFromTray | mkchromecast/__init__.py:70-109 | in tray mode, the ALSA device, notifications, search-at-launch and colors come from the tray file, and device selection is on |
| MkchromecastFacts.NodeMp3Crashes | mkchromecast/__init__.py:144-148 | node with `--codec mp3` outside tray and source-URL modes leaves the codec unassigned and crashes at the bitrate step |
| MkchromecastFacts.DarwinAudiocastCrashes | mkchromecast/__init__.py:129-148 | a plain audiocast on macOS with default arguments chooses node and mp3, and so crashes |

## Left out

- Argument parsing (`mkchromecast/_arg_parsing.py`) is not part of this model. The parsed arguments are a record of plain values.
- The diagnostics `__init__` prints on first parse (`mkchromecast/__init__.py:22-29`, `:257-277`) are not modelled. Neither are the warnings about options that are ignored without video; they only print.
- The fields `__init__` copies straight from the arguments (`mkchromecast/__init__.py:81-106`) are not modelled. They take no decision.
- `sys.exit` status codes are not modelled. An exit is the value `Exited(reason)`.
- Mkchromecast.Init: the tray configuration file is a parameter of the environment. Reading it from disk, and the path `_default_config_path` computes, are left out. So is the ":::config::: WARNING: USING BETA CONFIG PATH: …" line that computing the path prints in tray mode (`mkchromecast/config.py:37`, `:62-65`; `mkchromecast/__init__.py:62-64`).
- Config: the `configparser` file is a map from key to text. Writing the file is modelled as appending a snapshot to `written`. File locations, other sections and the INI syntax are left out.
- Config: `configparser`'s `BasicInterpolation` is left out. A value holding a bare `%` raises `ValueError` when set, and `%(key)s` is substituted when read; the model stores and reads the text as it is.
- Config.GetInt: Python's `int` also accepts surrounding whitespace, `_` between digits and non-ASCII digits. The model reads only an optionally signed run of ASCII digits and gives `None` for those other forms.
- Config.BooleanState: case folding is ASCII only, where Python's `str.lower` covers Unicode.
- Mkchromecast.ChooseResolution: the resolution names are a parameter, because the resolutions module is outside the core. Its lower-casing is ASCII only.
- Utils.IsInstalled: file existence is a parameter. `os.path.exists` and the real `$PATH` are not read.
- Mkchromecast.ChooseYoutubeUrl: `check_url` is a parameter. It only calls `urllib.parse.urlparse` (`mkchromecast/utils.py:165-171`) and makes no request, but `urllib` is outside the core. As written it is true for every string `urlparse` accepts, since the three-element list it tests is never empty.
- Mkchromecast.ValidateInputFile: `os.path.isfile` is a parameter.
- PipelineBuilder.InputFileVencode: the pixel format `ffprobe` reports is a parameter, because it runs a subprocess.
- PipelineBuilder.ScreencastCommand: the screen size the resolutions module computes is a parameter.
- PipelineBuilder.VideoCommand: in youtube mode it requires a URL. The source does not check this, but `__init__` only chooses youtube mode when a URL is given.
- PipelineBuilder.Audio: `stream_infra.BackendInfo` has an optional name and path. The model gives both as strings, so the case of a missing path is left out. `stream_infra.py` is not part of this model.
- MkchromecastFacts: the facts are stated for any loaded tray file (`Resolved`), not by unfolding `TrayLoad` inside each lemma.
- Colours are tags on a printed line (`Console.Line`). The terminal escape codes of `colors` are left out.
- The rest of `mkchromecast/utils.py` is not part of this model: `terminate`, `del_tmp`, the pid file, `checkmktmp`, `check_file_info` and IP resolution. It manages processes, temporary files and the network.
- The streaming, casting, tray user interface and node server modules (`cast.py`, `stream_infra.py`, `systray.py`, `node.py`, `video.py`, `audio_devices.py`, `pulseaudio.py`, `preferences.py`, `tray_threading.py`) are not part of this model.
