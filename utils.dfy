/**
  The value normalisers of mkchromecast: snapping a sample rate onto a
  codec's table, clamping a bitrate, and searching a colon-separated PATH.
  What they print is returned as lines; the file system is a parameter.
 */
module Utils {
  import opened Wrappers
  import opened Strings
  import opened Console
  import opened Constants
  import opened Messages

  // ---------------------------------------------------------------------
  // quantize_sample_rate
  // ---------------------------------------------------------------------

  /** The table a rate is snapped onto: the 48 kHz table when limited, else the codec's own. */
  function TargetRates(codec: string, limitTo48k: bool): (rates: seq<int>)
    ensures |rates| > 0 && StrictlyIncreasing(rates)
    ensures forall r :: r in rates ==> r in AllSampleRates
  {
    SampleRateTablesOrdered();
    SampleRatesForCodecOrdered(codec);
    if limitTo48k then Max48kSampleRates else SampleRatesForCodec(codec)
  }

  function Last(rates: seq<int>): int
    requires |rates| > 0
  {
    rates[|rates| - 1]
  }

  /**
    Scanning `rates` from index `i`: the first entry above `rate`, or the
    last entry of the table once the scan runs off its end.
   */
  function RoundUpFrom(rates: seq<int>, rate: int, i: nat): int
    requires 0 < |rates| && i <= |rates|
    decreases |rates| - i
  {
    if i == |rates| then Last(rates)
    else if rate < rates[i] then rates[i]
    else RoundUpFrom(rates, rate, i + 1)
  }

  /** The rate `quantize_sample_rate` returns. */
  function Quantize(codec: string, rate: int, limitTo48k: bool): int {
    var rates := TargetRates(codec, limitTo48k);
    if rate in rates then rate else RoundUpFrom(rates, rate, 0)
  }

  const MaximumWarning: string := "Sample rate set to maximum!"

  /**
    What `quantize_sample_rate` prints: nothing for a table rate, the codec's
    warning when it rounds up, and a second warning when it clamps to the top.
   */
  function QuantizeWarnings(codec: string, rate: int, limitTo48k: bool): seq<Line> {
    var rates := TargetRates(codec, limitTo48k);
    if rate in rates then []
    else if rate < Last(rates) then PrintSampleRateWarning(codec)
    else PrintSampleRateWarning(codec) + [WarningLine(MaximumWarning)]
  }

  /** `quantize_sample_rate(codec, sample_rate, limit_to_48k)` */
  method QuantizeSampleRate(codec: string, sampleRate: int, limitTo48k: bool)
    returns (r: int, printed: seq<Line>)
    ensures r == Quantize(codec, sampleRate, limitTo48k)
    ensures printed == QuantizeWarnings(codec, sampleRate, limitTo48k)
    ensures r in TargetRates(codec, limitTo48k)
    ensures sampleRate in TargetRates(codec, limitTo48k) ==> r == sampleRate && printed == []
  {
    var targetRates := if limitTo48k then Max48kSampleRates else SampleRatesForCodec(codec);
    assert targetRates == TargetRates(codec, limitTo48k);
    if sampleRate in targetRates {
      return sampleRate, [];
    }
    var i := 0;
    while i < |targetRates|
      invariant 0 <= i <= |targetRates|
      invariant forall j :: 0 <= j < i ==> targetRates[j] < sampleRate
      invariant RoundUpFrom(targetRates, sampleRate, 0) == RoundUpFrom(targetRates, sampleRate, i)
    {
      if sampleRate < targetRates[i] {
        printed := PrintSampleRateWarning(codec);
        return targetRates[i], printed;
      }
      i := i + 1;
    }
    printed := PrintSampleRateWarning(codec) + [WarningLine(MaximumWarning)];
    r := targetRates[|targetRates| - 1];
  }

  /**
    The scan from `i` finds the least entry from `i` on above `rate` when the
    top of the table is above it, and the top of the table otherwise.
   */
  lemma {:induction false} RoundUpFromIsLeastAbove(rates: seq<int>, rate: int, i: nat)
    requires 0 < |rates| && i <= |rates| && StrictlyIncreasing(rates)
    ensures RoundUpFrom(rates, rate, i) in rates
    ensures rate < Last(rates) && i < |rates| ==> rate < RoundUpFrom(rates, rate, i)
    ensures forall j :: i <= j < |rates| && rate < rates[j] ==> RoundUpFrom(rates, rate, i) <= rates[j]
    ensures rate >= Last(rates) ==> RoundUpFrom(rates, rate, i) == Last(rates)
    decreases |rates| - i
  {
    if i < |rates| && rate >= rates[i] {
      RoundUpFromIsLeastAbove(rates, rate, i + 1);
      if i + 1 == |rates| {
        assert rates[i] == Last(rates);
      }
    }
  }

  /** The result is always an entry of the target table. */
  lemma QuantizeInTable(codec: string, rate: int, limitTo48k: bool)
    ensures Quantize(codec, rate, limitTo48k) in TargetRates(codec, limitTo48k)
  {
    RoundUpFromIsLeastAbove(TargetRates(codec, limitTo48k), rate, 0);
  }

  /**
    A rate off the table and below its top becomes the smallest entry above
    it, with exactly the codec's warning printed.
   */
  lemma QuantizeRoundsUp(codec: string, rate: int, limitTo48k: bool)
    requires rate !in TargetRates(codec, limitTo48k)
    requires rate < Last(TargetRates(codec, limitTo48k))
    ensures rate < Quantize(codec, rate, limitTo48k)
    ensures forall j :: 0 <= j < |TargetRates(codec, limitTo48k)| && rate < TargetRates(codec, limitTo48k)[j] ==>
              Quantize(codec, rate, limitTo48k) <= TargetRates(codec, limitTo48k)[j]
    ensures QuantizeWarnings(codec, rate, limitTo48k) == PrintSampleRateWarning(codec)
  {
    RoundUpFromIsLeastAbove(TargetRates(codec, limitTo48k), rate, 0);
  }

  /** A rate above the top of the table becomes the top, with the extra "maximum" warning. */
  lemma QuantizeClampsToMaximum(codec: string, rate: int, limitTo48k: bool)
    requires rate > Last(TargetRates(codec, limitTo48k))
    ensures Quantize(codec, rate, limitTo48k) == Last(TargetRates(codec, limitTo48k))
    ensures |QuantizeWarnings(codec, rate, limitTo48k)| == 2
    ensures QuantizeWarnings(codec, rate, limitTo48k)[0] == PrintSampleRateWarning(codec)[0]
    ensures Text(QuantizeWarnings(codec, rate, limitTo48k)[1]) == "Sample rate set to maximum!"
  {
    var rates := TargetRates(codec, limitTo48k);
    assert rate !in rates by {
      forall j | 0 <= j < |rates|
        ensures rates[j] != rate
      {
        assert j < |rates| - 1 ==> rates[j] < Last(rates);
      }
    }
    RoundUpFromIsLeastAbove(rates, rate, 0);
  }

  /** Quantizing twice is quantizing once, and the second pass prints nothing. */
  lemma QuantizeIdempotent(codec: string, rate: int, limitTo48k: bool)
    ensures Quantize(codec, Quantize(codec, rate, limitTo48k), limitTo48k) == Quantize(codec, rate, limitTo48k)
    ensures QuantizeWarnings(codec, Quantize(codec, rate, limitTo48k), limitTo48k) == []
  {
    QuantizeInTable(codec, rate, limitTo48k);
  }

  // ---------------------------------------------------------------------
  // clamp_bitrate
  // ---------------------------------------------------------------------

  /**
    The ceiling for a codec's bitrate; codecs without one are unlimited. Only
    codecs that take a bitrate have a ceiling, and the default bitrate is
    within every ceiling.
   */
  function MaxBitrate(codec: string): (max: Option<int>)
    ensures max.Some? ==> codec in CodecsWithBitrate && DefaultBitrate <= max.value
    ensures codec in ["mp3", "ogg", "aac"] <==> max.Some?
  {
    if codec == "mp3" then Some(320)
    else if codec == "ogg" then Some(500)
    else if codec == "aac" then Some(500)
    else None
  }

  function DefaultBitrateMessage(): string {
    "Setting bitrate to default of " + IntToString(DefaultBitrate)
  }

  function InvalidBitrateMessage(bitrate: int): string {
    "Bitrate of " + IntToString(bitrate) + " was invalid; setting to " + IntToString(DefaultBitrate)
  }

  function ExceedsMaxMessage(codec: string, bitrate: int, maxBitrate: int): string {
    "Configured bitrate " + IntToString(bitrate) + " exceeds max " + IntToString(maxBitrate)
      + " for " + codec + " codec; setting to max."
  }

  /** The bitrate `clamp_bitrate(codec, bitrate)` returns, and the lines it prints. */
  function ClampBitrate(codec: string, bitrate: Option<int>): (result: (int, seq<Line>))
    ensures result.0 > 0
    ensures MaxBitrate(codec).Some? ==> result.0 <= MaxBitrate(codec).value
    ensures |result.1| <= 1
    ensures (bitrate.None? || bitrate.value <= 0) ==> result.0 == DefaultBitrate && |result.1| == 1
    ensures bitrate.Some? && bitrate.value > 0 && (MaxBitrate(codec).None? || bitrate.value <= MaxBitrate(codec).value)
            ==> result == (bitrate.value, [])
    ensures bitrate.Some? && MaxBitrate(codec).Some? && bitrate.value > MaxBitrate(codec).value
            ==> result.0 == MaxBitrate(codec).value && |result.1| == 1
  {
    match bitrate
    case None => (DefaultBitrate, [WarningLine(DefaultBitrateMessage())])
    case Some(b) =>
      if b <= 0 then (DefaultBitrate, [WarningLine(InvalidBitrateMessage(b))])
      else match MaxBitrate(codec)
        case None => (b, [])
        case Some(m) =>
          if b > m then (m, [WarningLine(ExceedsMaxMessage(codec, b, m))]) else (b, [])
  }

  /** Clamping a clamped bitrate changes nothing and prints nothing. */
  lemma ClampBitrateIdempotent(codec: string, bitrate: Option<int>)
    ensures ClampBitrate(codec, Some(ClampBitrate(codec, bitrate).0)) == (ClampBitrate(codec, bitrate).0, [])
  {
  }

  lemma DefaultBitrateText()
    ensures IntToString(DefaultBitrate) == "192"
  {
    assert NatToString(1) == "1";
    assert NatToString(19) == "19";
  }

  /**
    The messages say what happened: the missing bitrate mentions the default
    and not "invalid"; the invalid one mentions "invalid" and 192; the clamped
    one names the codec, the requested bitrate and the ceiling.
   */
  lemma ClampBitrateMessages(codec: string, bitrate: Option<int>)
    ensures bitrate.None? ==>
              Text(ClampBitrate(codec, bitrate).1[0]) == "Setting bitrate to default of 192"
    ensures bitrate.Some? && bitrate.value <= 0 ==>
              Contains(Text(ClampBitrate(codec, bitrate).1[0]), "invalid")
              && Contains(Text(ClampBitrate(codec, bitrate).1[0]), "192")
    ensures bitrate.Some? && MaxBitrate(codec).Some? && bitrate.value > MaxBitrate(codec).value ==>
              Contains(Text(ClampBitrate(codec, bitrate).1[0]), codec)
              && Contains(Text(ClampBitrate(codec, bitrate).1[0]), IntToString(bitrate.value))
              && Contains(Text(ClampBitrate(codec, bitrate).1[0]), IntToString(MaxBitrate(codec).value))
  {
    DefaultBitrateText();
    match bitrate
    case None =>
    case Some(b) =>
      if b <= 0 {
        assert Text(ClampBitrate(codec, bitrate).1[0]) == InvalidBitrateMessage(b);
        InvalidMentions(b);
      } else if MaxBitrate(codec).Some? && b > MaxBitrate(codec).value {
        var m := MaxBitrate(codec).value;
        assert Text(ClampBitrate(codec, bitrate).1[0]) == ExceedsMaxMessage(codec, b, m);
        ExceedsMaxMentions(codec, b, m);
      }
  }

  lemma InvalidMentions(b: int)
    ensures Contains(InvalidBitrateMessage(b), "invalid")
    ensures Contains(InvalidBitrateMessage(b), "192")
  {
    var bs, ds := IntToString(b), IntToString(DefaultBitrate);
    var msg := InvalidBitrateMessage(b);
    assert msg == ("Bitrate of " + bs + " was ") + "invalid" + ("; setting to " + ds);
    assert msg == ("Bitrate of " + bs + " was invalid; setting to ") + ds + [];
    ContainsInMiddle("Bitrate of " + bs + " was ", "invalid", "; setting to " + ds);
    ContainsInMiddle("Bitrate of " + bs + " was invalid; setting to ", ds, []);
    DefaultBitrateText();
  }

  lemma ExceedsMaxMentions(codec: string, b: int, m: int)
    ensures Contains(ExceedsMaxMessage(codec, b, m), codec)
    ensures Contains(ExceedsMaxMessage(codec, b, m), IntToString(b))
    ensures Contains(ExceedsMaxMessage(codec, b, m), IntToString(m))
  {
    var bs, ms := IntToString(b), IntToString(m);
    var msg := ExceedsMaxMessage(codec, b, m);
    assert msg == ("Configured bitrate " + bs + " exceeds max " + ms + " for ") + codec + " codec; setting to max.";
    assert msg == "Configured bitrate " + bs + (" exceeds max " + ms + " for " + codec + " codec; setting to max.");
    assert msg == ("Configured bitrate " + bs + " exceeds max ") + ms + (" for " + codec + " codec; setting to max.");
    ContainsInMiddle("Configured bitrate " + bs + " exceeds max " + ms + " for ", codec, " codec; setting to max.");
    ContainsInMiddle("Configured bitrate ", bs, " exceeds max " + ms + " for " + codec + " codec; setting to max.");
    ContainsInMiddle("Configured bitrate " + bs + " exceeds max ", ms, " for " + codec + " codec; setting to max.");
  }

  // ---------------------------------------------------------------------
  // is_installed
  // ---------------------------------------------------------------------

  /** Index of the first PATH entry from `i` on that holds the program, if any. */
  function FirstHit(entries: seq<string>, name: string, fileExists: string -> bool, i: nat): Option<nat>
    requires i <= |entries|
    decreases |entries| - i
  {
    if i == |entries| then None
    else if fileExists(entries[i] + "/" + name) then Some(i)
    else FirstHit(entries, name, fileExists, i + 1)
  }

  /** The scan finds an entry exactly when one exists, and it finds the earliest. */
  lemma {:induction false} FirstHitIsEarliest(entries: seq<string>, name: string, fileExists: string -> bool, i: nat)
    requires i <= |entries|
    ensures FirstHit(entries, name, fileExists, i).None? <==>
              forall j :: i <= j < |entries| ==> !fileExists(entries[j] + "/" + name)
    ensures FirstHit(entries, name, fileExists, i).Some? ==>
              var k := FirstHit(entries, name, fileExists, i).value;
              i <= k < |entries| && fileExists(entries[k] + "/" + name)
              && forall j :: i <= j < k ==> !fileExists(entries[j] + "/" + name)
    decreases |entries| - i
  {
    if i < |entries| && !fileExists(entries[i] + "/" + name) {
      FirstHitIsEarliest(entries, name, fileExists, i + 1);
    }
  }

  /**
    `is_installed(name, path, debug)`: whether `entry + "/" + name` exists for
    some entry of `path.split(":")`; with `debug`, the hit is reported.
   */
  method IsInstalled(name: string, path: string, debug: bool, fileExists: string -> bool)
    returns (found: bool, printed: seq<Line>)
    ensures found <==> exists k :: 0 <= k < |Split(path, ':')| && fileExists(Split(path, ':')[k] + "/" + name)
    ensures match FirstHit(Split(path, ':'), name, fileExists, 0)
            case None => !found && printed == []
            case Some(k) =>
              found && k < |Split(path, ':')| &&
              printed == if debug then [Plain("Program " + name + " found in " + (Split(path, ':')[k] + "/" + name) + ".")]
                         else []
  {
    var iterate := Split(path, ':');
    var i := 0;
    while i < |iterate|
      invariant 0 <= i <= |iterate|
      invariant forall j :: 0 <= j < i ==> !fileExists(iterate[j] + "/" + name)
      invariant FirstHit(iterate, name, fileExists, 0) == FirstHit(iterate, name, fileExists, i)
    {
      var verifyif := iterate[i] + "/" + name;
      if !fileExists(verifyif) {
        i := i + 1;
        continue;
      }
      assert FirstHit(iterate, name, fileExists, i) == Some(i);
      assert fileExists(iterate[i] + "/" + name);
      printed := if debug then [Plain("Program " + name + " found in " + verifyif + ".")] else [];
      assert exists k :: 0 <= k < |Split(path, ':')| && fileExists(Split(path, ':')[k] + "/" + name);
      return true, printed;
    }
    return false, [];
  }
}
