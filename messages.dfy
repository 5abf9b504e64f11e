/** The sample-rate warning printed when a requested rate was not in the codec's table. */
module Messages {
  import opened Strings
  import opened Console
  import opened Constants

  /** Each rate written as `f"{rate}Hz"`, in table order. */
  function RateLabels(rates: seq<int>): seq<string> {
    seq(|rates|, i requires 0 <= i < |rates| => IntToString(rates[i]) + "Hz")
  }

  /** The text of the warning for `codec`: its name, then its table joined with ", ". */
  function SampleRateWarningText(codec: string): string {
    "Sample rates supported by " + codec + " are: "
      + Join(RateLabels(SampleRatesForCodec(codec)), ", ") + "."
  }

  /** The warning names the codec. */
  lemma WarningNamesCodec(codec: string)
    ensures Contains(SampleRateWarningText(codec), codec)
  {
    var rest := " are: " + Join(RateLabels(SampleRatesForCodec(codec)), ", ") + ".";
    assert SampleRateWarningText(codec) == "Sample rates supported by " + codec + rest;
    ContainsInMiddle("Sample rates supported by ", codec, rest);
  }

  /** The warning mentions every rate of the codec's table, written with "Hz". */
  lemma WarningListsEveryRate(codec: string, r: int)
    requires r in SampleRatesForCodec(codec)
    ensures Contains(SampleRateWarningText(codec), IntToString(r) + "Hz")
  {
    var rates := SampleRatesForCodec(codec);
    var joined := Join(RateLabels(rates), ", ");
    var head := "Sample rates supported by " + codec + " are: ";
    var k :| 0 <= k < |rates| && rates[k] == r;
    JoinContainsEach(RateLabels(rates), ", ", k);
    ContainsInRight(head, joined, IntToString(r) + "Hz");
    ContainsInLeft(head + joined, ".", IntToString(r) + "Hz");
  }

  /** `print_samplerate_warning`: exactly one line, a warning holding the text above. */
  function PrintSampleRateWarning(codec: string): (printed: seq<Line>)
    ensures |printed| == 1 && printed[0].Warning?
    ensures Text(printed[0]) == SampleRateWarningText(codec)
  {
    [WarningLine(SampleRateWarningText(codec))]
  }

  /** Every part of a join is a substring of it. */
  lemma {:induction false} JoinContainsEach(parts: seq<string>, sep: string, k: nat)
    requires k < |parts|
    ensures Contains(Join(parts, sep), parts[k])
  {
    if |parts| == 1 {
      ContainsSelf(parts[0]);
    } else if k == 0 {
      ContainsSelf(parts[0]);
      ContainsInLeft(parts[0], sep + Join(parts[1..], sep), parts[0]);
      assert Join(parts, sep) == parts[0] + (sep + Join(parts[1..], sep));
    } else {
      JoinContainsEach(parts[1..], sep, k - 1);
      ContainsInRight(parts[0] + sep, Join(parts[1..], sep), parts[k]);
    }
  }

  /** A character found in no part and not in the separator is not in the join. */
  lemma {:induction false} JoinOmits(parts: seq<string>, sep: string, c: char)
    requires c !in sep
    requires forall k :: 0 <= k < |parts| ==> c !in parts[k]
    ensures c !in Join(parts, sep)
  {
    if |parts| > 1 {
      JoinOmits(parts[1..], sep, c);
    }
  }

  // `str(rate)` for the rates of the tables, unfolded one digit at a time.
  lemma RateString22050()
    ensures IntToString(22050) == "22050"
  {
    assert NatToString(2) == "2";
    assert NatToString(22) == "22";
    assert NatToString(220) == "220";
    assert NatToString(2205) == "2205";
  }

  lemma RateString32000()
    ensures IntToString(32000) == "32000"
  {
    assert NatToString(3) == "3";
    assert NatToString(32) == "32";
    assert NatToString(320) == "320";
    assert NatToString(3200) == "3200";
  }

  lemma RateString44100()
    ensures IntToString(44100) == "44100"
  {
    assert NatToString(4) == "4";
    assert NatToString(44) == "44";
    assert NatToString(441) == "441";
    assert NatToString(4410) == "4410";
  }

  lemma RateString48000()
    ensures IntToString(48000) == "48000"
  {
    assert NatToString(4) == "4";
    assert NatToString(48) == "48";
    assert NatToString(480) == "480";
    assert NatToString(4800) == "4800";
  }

  lemma RateString88200()
    ensures IntToString(88200) == "88200"
  {
    assert NatToString(8) == "8";
    assert NatToString(88) == "88";
    assert NatToString(882) == "882";
    assert NatToString(8820) == "8820";
  }

  lemma RateString96000()
    ensures IntToString(96000) == "96000"
  {
    assert NatToString(9) == "9";
    assert NatToString(96) == "96";
    assert NatToString(960) == "960";
    assert NatToString(9600) == "9600";
  }

  lemma RateString176000()
    ensures IntToString(176000) == "176000"
  {
    assert NatToString(1) == "1";
    assert NatToString(17) == "17";
    assert NatToString(176) == "176";
    assert NatToString(1760) == "1760";
    assert NatToString(17600) == "17600";
  }

  lemma RateString192000()
    ensures IntToString(192000) == "192000"
  {
    assert NatToString(1) == "1";
    assert NatToString(19) == "19";
    assert NatToString(192) == "192";
    assert NatToString(1920) == "1920";
    assert NatToString(19200) == "19200";
  }

  /** The mentions the tests look for, as `f"{rate}Hz"` writes them. */
  lemma TestedMentions()
    ensures IntToString(22050) + "Hz" == "22050Hz"
    ensures IntToString(48000) + "Hz" == "48000Hz"
    ensures IntToString(192000) + "Hz" == "192000Hz"
  {
    RateString22050();
    RateString48000();
    RateString192000();
  }

  /** The aac warning lists the full table, from 22050Hz up to 192000Hz. */
  lemma AacWarning(codec: string)
    requires codec == "aac"
    ensures Contains(SampleRateWarningText(codec), codec)
    ensures Contains(SampleRateWarningText(codec), "22050Hz")
    ensures Contains(SampleRateWarningText(codec), "48000Hz")
    ensures Contains(SampleRateWarningText(codec), "192000Hz")
  {
    TestedMentions();
    WarningNamesCodec(codec);
    WarningListsEveryRate(codec, 22050);
    WarningListsEveryRate(codec, 48000);
    WarningListsEveryRate(codec, 192000);
  }

  /** The warning of a 48 kHz codec (ogg, mp3) has no digit 9 and no digit 7. */
  lemma Max48kWarningDigits(codec: string)
    requires codec == "ogg" || codec == "mp3"
    ensures '9' !in SampleRateWarningText(codec) && '7' !in SampleRateWarningText(codec)
  {
    var joined := Join(RateLabels(SampleRatesForCodec(codec)), ", ");
    Max48kJoinedDigits(codec);
    WarningTextParts(codec);
    FrameDigits(codec, joined);
  }

  lemma WarningTextParts(codec: string)
    ensures SampleRateWarningText(codec)
         == "Sample rates supported by " + codec + " are: " + Join(RateLabels(SampleRatesForCodec(codec)), ", ") + "."
  {
  }

  lemma Max48kJoinedDigits(codec: string)
    requires codec == "ogg" || codec == "mp3"
    ensures '9' !in Join(RateLabels(SampleRatesForCodec(codec)), ", ")
    ensures '7' !in Join(RateLabels(SampleRatesForCodec(codec)), ", ")
  {
    var labels := RateLabels(SampleRatesForCodec(codec));
    assert SampleRatesForCodec(codec) == Max48kSampleRates;
    Max48kLabelDigits(labels);
    JoinOmits(labels, ", ", '9');
    JoinOmits(labels, ", ", '7');
  }

  /** The fixed words around the list carry neither digit, nor does a 48 kHz codec's name. */
  lemma FrameDigits(codec: string, joined: string)
    requires codec == "ogg" || codec == "mp3"
    requires '9' !in joined && '7' !in joined
    ensures '9' !in "Sample rates supported by " + codec + " are: " + joined + "."
    ensures '7' !in "Sample rates supported by " + codec + " are: " + joined + "."
  {
  }

  lemma Max48kLabelDigits(labels: seq<string>)
    requires labels == RateLabels(Max48kSampleRates)
    ensures forall k :: 0 <= k < |labels| ==> '9' !in labels[k] && '7' !in labels[k]
  {
    forall k | 0 <= k < |labels|
      ensures '9' !in labels[k] && '7' !in labels[k]
    {
      NoNineOrSeven(Max48kSampleRates[k]);
    }
  }

  /**
    The warning of a 48 kHz codec mentions a rate of the full table exactly
    when the rate is in the codec's own table: never 88200Hz, 96000Hz,
    176000Hz or 192000Hz.
   */
  lemma Max48kWarningMentionsOnlyItsTable(codec: string, r: int)
    requires codec == "ogg" || codec == "mp3"
    requires r in AllSampleRates
    ensures Contains(SampleRateWarningText(codec), IntToString(r) + "Hz") <==> r in SampleRatesForCodec(codec)
  {
    if r in SampleRatesForCodec(codec) {
      WarningListsEveryRate(codec, r);
    } else {
      assert r in AllSampleRates[4..];
      Max48kOmitsHighRate(codec, r);
    }
  }

  lemma Max48kOmitsHighRate(codec: string, r: int)
    requires codec == "ogg" || codec == "mp3"
    requires r in [88200, 96000, 176000, 192000]
    ensures !Contains(SampleRateWarningText(codec), IntToString(r) + "Hz")
  {
    if r == 88200 {
      Max48kOmits88200(codec);
    } else {
      Max48kOmitsNineOrSeven(codec, r);
    }
  }

  lemma Max48kOmitsNineOrSeven(codec: string, r: int)
    requires codec == "ogg" || codec == "mp3"
    requires r in [96000, 176000, 192000]
    ensures !Contains(SampleRateWarningText(codec), IntToString(r) + "Hz")
  {
    Max48kWarningDigits(codec);
    OmitsNineOrSeven(SampleRateWarningText(codec), r);
  }

  /** A text without 9 and 7 mentions none of 96000Hz, 176000Hz and 192000Hz. */
  lemma OmitsNineOrSeven(text: string, r: int)
    requires '9' !in text && '7' !in text
    requires r in [96000, 176000, 192000]
    ensures !Contains(text, IntToString(r) + "Hz")
  {
    if r == 176000 {
      RateString176000();
      assert IntToString(r) + "Hz" == "176000Hz";
      MentionNeedsDigit(text, "176000Hz", '7');
    } else if r == 96000 {
      RateString96000();
      assert IntToString(r) + "Hz" == "96000Hz";
      MentionNeedsDigit(text, "96000Hz", '9');
    } else {
      RateString192000();
      assert IntToString(r) + "Hz" == "192000Hz";
      MentionNeedsDigit(text, "192000Hz", '9');
    }
  }

  /** "88200Hz" holds two 8s, the warning only one. */
  lemma Max48kOmits88200(codec: string)
    requires codec == "ogg" || codec == "mp3"
    ensures !Contains(SampleRateWarningText(codec), IntToString(88200) + "Hz")
  {
    Max48kEightCount(codec);
    OmitsEightyEight(SampleRateWarningText(codec));
  }

  /** A text with a single 8 cannot mention 88200Hz. */
  lemma OmitsEightyEight(text: string)
    requires Occurrences(text, '8') == 1
    ensures !Contains(text, IntToString(88200) + "Hz")
  {
    RateString88200();
    EightyEightCount();
    assert IntToString(88200) + "Hz" == "88200Hz";
    MentionNeedsCount(text, "88200Hz", '8');
  }


  /** The digit 8 occurs once in a 48 kHz codec's warning, in "48000Hz". */
  lemma Max48kEightCount(codec: string)
    requires codec == "ogg" || codec == "mp3"
    ensures Occurrences(SampleRateWarningText(codec), '8') == 1
  {
    assert SampleRatesForCodec(codec) == Max48kSampleRates;
    Max48kLabelEights(RateLabels(SampleRatesForCodec(codec)));
    FrontEightFree(codec);
    WarningTextParts(codec);
    SingleEightInList("Sample rates supported by " + codec + " are: ", RateLabels(SampleRatesForCodec(codec)));
  }

  /** A framed list of four labels where only the last holds an 8, once, holds one 8. */
  lemma SingleEightInList(front: string, labels: seq<string>)
    requires '8' !in front
    requires |labels| == 4
    requires forall k :: 0 <= k < 3 ==> '8' !in labels[k]
    requires Occurrences(labels[3], '8') == 1
    ensures Occurrences(front + Join(labels, ", ") + ".", '8') == 1
  {
    var head := labels[0] + ", " + labels[1] + ", " + labels[2] + ", ";
    JoinFour(labels, ", ");
    assert front + Join(labels, ", ") + "." == front + (head + labels[3]) + ".";
    OccurrencesAbsent(front, '8');
    OccurrencesAbsent(head, '8');
    OccurrencesAbsent(".", '8');
    OccurrencesAppend(head, labels[3], '8');
    OccurrencesAppend(front, head + labels[3], '8');
    OccurrencesAppend(front + (head + labels[3]), ".", '8');
  }

  lemma FrontEightFree(codec: string)
    requires codec == "ogg" || codec == "mp3"
    ensures '8' !in "Sample rates supported by " + codec + " are: "
  {
  }

  /** Of the labels 22050Hz, 32000Hz, 44100Hz and 48000Hz, only the last holds an 8, once. */
  lemma Max48kLabelEights(labels: seq<string>)
    requires labels == RateLabels(Max48kSampleRates)
    ensures |labels| == 4
    ensures forall k :: 0 <= k < 3 ==> '8' !in labels[k]
    ensures Occurrences(labels[3], '8') == 1
  {
    forall k | 0 <= k < 3
      ensures '8' !in labels[k]
    {
      NoEight(Max48kSampleRates[k]);
    }
    EightIn48000();
  }

  lemma NoEight(r: int)
    requires r in [22050, 32000, 44100]
    ensures '8' !in IntToString(r) + "Hz"
  {
    if r == 22050 {
      RateString22050();
    } else if r == 32000 {
      RateString32000();
    } else {
      RateString44100();
    }
  }

  lemma EightIn48000()
    ensures Occurrences(IntToString(48000) + "Hz", '8') == 1
  {
    RateString48000();
    assert IntToString(48000) + "Hz" == "4" + "8" + "000Hz";
    OccurrencesAbsent("4", '8');
    OccurrencesAbsent("000Hz", '8');
    OccurrencesAppend("4", "8", '8');
    OccurrencesAppend("4" + "8", "000Hz", '8');
  }

  lemma EightyEightCount()
    ensures Occurrences("88200Hz", '8') == 2
  {
    assert "88200Hz" == "8" + "8" + "200Hz";
    OccurrencesAbsent("200Hz", '8');
    OccurrencesAppend("8", "8", '8');
    OccurrencesAppend("8" + "8", "200Hz", '8');
  }

  lemma JoinFour(parts: seq<string>, sep: string)
    requires |parts| == 4
    ensures Join(parts, sep) == parts[0] + sep + parts[1] + sep + parts[2] + sep + parts[3]
  {
    assert Join(parts[3..], sep) == parts[3];
    assert Join(parts[2..], sep) == parts[2] + sep + parts[3];
  }

  /** A mention holding more copies of a character than the text is not in the text. */
  lemma MentionNeedsCount(text: string, mention: string, c: char)
    requires Occurrences(mention, c) > Occurrences(text, c)
    ensures !Contains(text, mention)
  {
    if Contains(text, mention) {
      ContainsOccurrences(text, mention, c);
    }
  }

  lemma MentionNeedsDigit(text: string, mention: string, c: char)
    requires c in mention && c !in text
    ensures !Contains(text, mention)
  {
    if Contains(text, mention) {
      var k :| 0 <= k < |mention| && mention[k] == c;
      ContainsChars(text, mention, k);
    }
  }

  lemma NoNineOrSeven(r: int)
    requires r in Max48kSampleRates
    ensures '9' !in IntToString(r) + "Hz" && '7' !in IntToString(r) + "Hz"
  {
    if r == 22050 {
      RateString22050();
    } else if r == 32000 {
      RateString32000();
    } else if r == 44100 {
      RateString44100();
    } else {
      RateString48000();
    }
  }

  /** The mp3 warning lists 22050Hz to 48000Hz and never mentions 192000Hz. */
  lemma Mp3Warning(codec: string)
    requires codec == "mp3"
    ensures Contains(SampleRateWarningText(codec), codec)
    ensures Contains(SampleRateWarningText(codec), "22050Hz")
    ensures Contains(SampleRateWarningText(codec), "48000Hz")
    ensures !Contains(SampleRateWarningText(codec), "192000Hz")
  {
    TestedMentions();
    WarningNamesCodec(codec);
    WarningListsEveryRate(codec, 22050);
    WarningListsEveryRate(codec, 48000);
    Max48kOmitsNineOrSeven(codec, 192000);
  }
}
