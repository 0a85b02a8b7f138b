/**
 * The voice form: the `m:ss` duration display, the controls each recorder
 * status shows, the handlers that reset and count the recording time and
 * upload the recording, and the probability formatter of its result view.
 *
 * The recorder status and the recording's blob URL belong to the recording
 * library: they are inputs here, and the library calls the handlers make are
 * returned as `LibraryCall` values.
 */
module VoiceRecorder {
  import opened Wrappers
  import opened JsText
  import opened AnalysisModel

  // ---------------------------------------------------------------------------
  // Duration display

  /** A two-digit numeral below 100 is at most two characters long. */
  lemma ShortNumeral(n: nat)
    requires n < 100
    ensures |NatToString(n)| <= 2
  {
    if n >= 10 {
      assert |NatToString(n / 10)| == 1;
    }
  }

  /** A leading zero does not change a numeral's value. */
  lemma LeadingZero(d: string)
    requires AllDigits(d)
    ensures AllDigits("0" + d) && DecimalValue("0" + d) == DecimalValue(d)
    decreases |d|
  {
    if d != [] {
      var front := d[..|d| - 1];
      assert ("0" + d)[..|"0" + d| - 1] == "0" + front;
      LeadingZero(front);
    }
  }

  /** The seconds field: a numeral below 60 left-padded with zeros to two digits. */
  lemma PaddedSeconds(n: nat)
    requires n < 60
    ensures |PadStart(NatToString(n), 2, '0')| == 2
    ensures AllDigits(PadStart(NatToString(n), 2, '0'))
    ensures DecimalValue(PadStart(NatToString(n), 2, '0')) == n
  {
    var digits := NatToString(n);
    ShortNumeral(n);
    var secs := PadStart(digits, 2, '0');
    if |digits| == 1 {
      assert secs == "0" + digits;
      LeadingZero(digits);
    } else {
      assert secs == digits;
    }
  }

  /**
   * `formatDuration`: whole minutes, a colon, then the remaining seconds as
   * exactly two digits.
   */
  function FormatDuration(seconds: nat): (r: string)
    ensures |r| >= 4 && r[|r| - 3] == ':'
    ensures AllDigits(r[..|r| - 3]) && DecimalValue(r[..|r| - 3]) == seconds / 60
    ensures |r| == 4 || r[0] != '0'
    ensures AllDigits(r[|r| - 2..]) && DecimalValue(r[|r| - 2..]) == seconds % 60 < 60
  {
    var mins := NatToString(seconds / 60);
    var secs := PadStart(NatToString(seconds % 60), 2, '0');
    PaddedSeconds(seconds % 60);
    var r := mins + ":" + secs;
    assert r[..|r| - 3] == mins && r[|r| - 2..] == secs;
    r
  }

  /** Reads `m:ss` back: digits, a colon, then two digits below 60. */
  function ParseDuration(text: string): Option<nat> {
    if |text| < 4 || text[|text| - 3] != ':' then None
    else
      var mins, secs := text[..|text| - 3], text[|text| - 2..];
      if AllDigits(mins) && AllDigits(secs) && DecimalValue(secs) < 60
      then Some(DecimalValue(mins) * 60 + DecimalValue(secs))
      else None
  }

  /** The display can be read back to the number of seconds. */
  lemma DurationRoundTrip(seconds: nat)
    ensures ParseDuration(FormatDuration(seconds)) == Some(seconds)
  {
  }

  /** Different durations are displayed differently. */
  lemma FormatDurationInjective(a: nat, b: nat)
    requires FormatDuration(a) == FormatDuration(b)
    ensures a == b
  {
    DurationRoundTrip(a);
    DurationRoundTrip(b);
  }

  /** The seconds field written out: the tens digit, then the units digit. */
  lemma SecondsDigits(k: nat)
    requires k < 60
    ensures PadStart(NatToString(k), 2, '0') == [DigitChar(k / 10), DigitChar(k % 10)]
  {
    if k < 10 {
      assert NatToString(k) == [DigitChar(k)];
      assert DigitChar(0) == '0';
    } else {
      assert NatToString(k) == NatToString(k / 10) + [DigitChar(k % 10)];
      assert NatToString(k / 10) == [DigitChar(k / 10)];
    }
  }

  /** Under ten minutes the display is one digit, a colon and two digits. */
  lemma ShortDuration(seconds: nat)
    requires seconds < 600
    ensures FormatDuration(seconds) == [DigitChar(seconds / 60), ':', DigitChar(seconds % 60 / 10), DigitChar(seconds % 60 % 10)]
  {
    var m, k := seconds / 60, seconds % 60;
    assert NatToString(m) == [DigitChar(m)];
    SecondsDigits(k);
    assert FormatDuration(seconds) == [DigitChar(m)] + ":" + [DigitChar(k / 10), DigitChar(k % 10)];
  }

  lemma FormatDurationExamples()
    ensures FormatDuration(0) == "0:00"
    ensures FormatDuration(75) == "1:15"
  {
    ShortDuration(0);
    ShortDuration(75);
    assert DigitChar(0) == '0' && DigitChar(1) == '1' && DigitChar(5) == '5';
  }

  // ---------------------------------------------------------------------------
  // Controls

  /** The recording library's status; `OtherStatus` stands for the rest (acquiring media, stopping, errors, ...). */
  datatype Status = Idle | Recording | Stopped | OtherStatus

  datatype Control = StartButton | StopButton | PlayButton | RecordAgainButton | AnalyzeButton

  /** The buttons shown for a status. */
  function Controls(status: Status): (r: set<Control>)
    ensures StartButton in r <==> status == Idle
    ensures StopButton in r <==> status == Recording
    ensures PlayButton in r <==> status == Stopped
    ensures RecordAgainButton in r <==> status == Stopped
    ensures AnalyzeButton in r <==> status == Stopped
  {
    match status
    case Idle => {StartButton}
    case Recording => {StopButton}
    case Stopped => {PlayButton, RecordAgainButton, AnalyzeButton}
    case OtherStatus => {}
  }

  /** Analyze is reachable only from a stopped recording, and never alongside Start or Stop. */
  lemma ControlsExclusive(status: Status)
    ensures AnalyzeButton in Controls(status) ==> StartButton !in Controls(status) && StopButton !in Controls(status)
    ensures |Controls(status)| <= 3
  {
  }

  // ---------------------------------------------------------------------------
  // Probability display of the result view

  /** What `formatProbability` prints: exponential notation, or a percentage with two decimals. */
  datatype ProbabilityText = Exponential(value: real) | Percent(value: real)

  const ExponentialBelow: real := 0.0001

  /** `formatProbability`: exponential form below 0.0001, otherwise the value times 100 as a percentage. */
  function FormatProbability(prob: real): (r: ProbabilityText)
    ensures r.Exponential? <==> prob < ExponentialBelow
    ensures r.Exponential? ==> r.value == prob
    ensures r.Percent? ==> r.value == prob * 100.0
  {
    if prob < ExponentialBelow then Exponential(prob) else Percent(prob * 100.0)
  }

  /**
   * The view passes `finalOneInX` and each condition's `oneInX`, which are
   * odds, to `formatProbability`: every odds figure of at least "1 in 1" is
   * printed as a percentage of at least 100.
   */
  lemma OddsShownAsPercentAboveHundred(oneInX: real)
    requires oneInX >= 1.0
    ensures FormatProbability(oneInX).Percent?
    ensures FormatProbability(oneInX).value >= 100.0
  {
  }

  lemma OddsShownAsPercentExample()
    ensures FormatProbability(1_000.0) == Percent(100_000.0)
  {
  }

  /**
   * The chance "1 in `oneInX`" as a probability, formatted; none for odds
   * that are not positive.
   */
  function ChanceText(oneInX: real): (r: Option<ProbabilityText>)
    ensures r.None? <==> oneInX <= 0.0
    ensures r.Some? ==> r.value == FormatProbability(1.0 / oneInX)
  {
    if oneInX <= 0.0 then None else Some(FormatProbability(1.0 / oneInX))
  }

  /**
   * Odds of at least "1 in 1" are shown as a percentage of at most 100, or in
   * exponential form exactly when they exceed "1 in 10000".
   */
  lemma ChanceTextIsProbability(oneInX: real)
    requires oneInX >= 1.0
    ensures ChanceText(oneInX).Some?
    ensures ChanceText(oneInX).value.Percent? ==> 0.0 < ChanceText(oneInX).value.value <= 100.0
    ensures ChanceText(oneInX).value.Exponential? <==> oneInX > 10_000.0
  {
    var p := 1.0 / oneInX;
    assert p * oneInX == 1.0;
    assert 0.0 < p <= 1.0;
    assert p < ExponentialBelow <==> oneInX > 10_000.0 by {
      if p < ExponentialBelow {
        assert oneInX * p < oneInX * ExponentialBelow;
      } else {
        assert oneInX * p >= oneInX * ExponentialBelow;
      }
    }
  }

  lemma ChanceTextExample()
    ensures ChanceText(1_000.0) == Some(Percent(0.1))
  {
  }

  // ---------------------------------------------------------------------------
  // Recorder state

  /** The calls the handlers make into the recording library. */
  datatype LibraryCall = StartCall | StopCall | ClearBlobUrlCall

  const AnalyzeAudioFailed := "Failed to analyze audio"

  class Recorder {
    var recordingDuration: nat
    var isAnalyzing: bool
    var analysis: Option<Analysis>
    var error: Option<string>
    /** Uploads sent and not yet answered; the Analyze button stays enabled during an upload. */
    ghost var inFlight: nat

    /** The spinner shows only while an upload is unanswered, and then no error is shown. */
    ghost predicate Valid()
      reads this
    {
      isAnalyzing ==> inFlight > 0 && error == None
    }

    constructor ()
      ensures Valid()
      ensures recordingDuration == 0 && !isAnalyzing && analysis == None && error == None && inFlight == 0
    {
      recordingDuration := 0;
      isAnalyzing := false;
      analysis := None;
      error := None;
      inFlight := 0;
    }

    /** Start Recording: resets the time, clears the analysis and the error, then starts the library. */
    method StartRecording() returns (call: LibraryCall)
      requires Valid()
      modifies this
      ensures Valid() && call == StartCall
      ensures recordingDuration == 0 && analysis == None && error == None
      ensures isAnalyzing == old(isAnalyzing) && inFlight == old(inFlight)
    {
      recordingDuration := 0;
      analysis := None;
      error := None;
      call := StartCall;
    }

    /** Stop Recording: only tells the library to stop. */
    method StopRecording() returns (call: LibraryCall)
      ensures call == StopCall
    {
      call := StopCall;
    }

    /** Record Again: drops the recording, resets the time, clears the analysis and the error. */
    method Restart() returns (call: LibraryCall)
      requires Valid()
      modifies this
      ensures Valid() && call == ClearBlobUrlCall
      ensures recordingDuration == 0 && analysis == None && error == None
      ensures isAnalyzing == old(isAnalyzing) && inFlight == old(inFlight)
    {
      call := ClearBlobUrlCall;
      recordingDuration := 0;
      analysis := None;
      error := None;
    }

    /** One second passes: the interval exists only while recording, so only then does the time grow, by one. */
    method Tick(status: Status)
      requires Valid()
      modifies this
      ensures Valid()
      ensures recordingDuration == old(recordingDuration) + (if status == Recording then 1 else 0)
      ensures isAnalyzing == old(isAnalyzing) && analysis == old(analysis) && error == old(error)
      ensures inFlight == old(inFlight)
    {
      if status == Recording {
        recordingDuration := recordingDuration + 1;
      }
    }

    /**
     * Analyze: without a recording (no blob URL, or an empty one) nothing
     * happens; otherwise the spinner shows, the error clears and the
     * recording is uploaded.
     */
    method Analyze(mediaBlobUrl: Option<string>) returns (upload: Option<string>)
      requires Valid()
      modifies this
      ensures Valid()
      ensures (mediaBlobUrl.None? || mediaBlobUrl.value == "") ==> upload == None && unchanged(this)
      ensures mediaBlobUrl.Some? && mediaBlobUrl.value != "" ==>
        && upload == mediaBlobUrl
        && isAnalyzing && error == None && inFlight == old(inFlight) + 1
        && analysis == old(analysis) && recordingDuration == old(recordingDuration)
    {
      if mediaBlobUrl.None? || mediaBlobUrl.value == "" {
        return None;
      }
      isAnalyzing := true;
      error := None;
      inFlight := inFlight + 1;
      upload := mediaBlobUrl;
    }

    /**
     * An upload is answered: success replaces the analysis, failure shows the
     * error and keeps it, and in every case the spinner stops, even when
     * another upload is still unanswered.
     */
    method Receive(outcome: Outcome)
      requires Valid() && inFlight > 0
      modifies this
      ensures Valid() && !isAnalyzing && inFlight == old(inFlight) - 1
      ensures Settlement(analysis, error) == Settle(outcome, old(analysis), AnalyzeAudioFailed)
      ensures recordingDuration == old(recordingDuration)
    {
      var s := Settle(outcome, analysis, AnalyzeAudioFailed);
      analysis := s.analysis;
      error := s.error;
      isAnalyzing := false;
      inFlight := inFlight - 1;
    }
  }
}
