/**
 * The voice screen: a recorder with a seconds counter, a stand-in voice
 * classifier, a newest-first list of recordings, and the `m:ss` timer text.
 */
module VoiceAnalyzer {
  import opened Optional
  import opened Seqs
  import opened Strings
  import opened Draws

  /** The labels the stand-in classifier picks from. */
  const Emotions: seq<string> := ["happy", "sad", "angry", "surprised", "fearful", "neutral"]

  datatype Sentiment = Positive | Negative | Neutral

  const Sentiments: seq<Sentiment> := [Positive, Negative, Neutral]

  /** A classification of one recording; `timestamp` comes from the clock. */
  datatype VoiceAnalysis = VoiceAnalysis(emotion: string, confidence: real, sentiment: Sentiment, energy: real, timestamp: int)

  /** A finished recording; the audio blob and its object URL are left out. */
  datatype Recording = Recording(id: string, duration: nat, analysis: VoiceAnalysis, timestamp: int)

  /**
   * `analyzeVoice`: the stand-in classifier, driven by four random draws.
   * Confidence lies in [0.7, 1) and energy in [0, 100).
   */
  function AnalyzeVoice(emotionDraw: real, confidenceDraw: real, sentimentDraw: real, energyDraw: real, now: int): (a: VoiceAnalysis)
    requires IsDraw(emotionDraw) && IsDraw(confidenceDraw) && IsDraw(sentimentDraw) && IsDraw(energyDraw)
    ensures a.emotion in Emotions && a.sentiment in Sentiments
    ensures 0.7 <= a.confidence < 1.0
    ensures 0.0 <= a.energy < 100.0
    ensures a.timestamp == now
  {
    VoiceAnalysis(
      Emotions[Pick(emotionDraw, |Emotions|)],
      Scale(confidenceDraw, 0.7, 0.3),
      Sentiments[Pick(sentimentDraw, |Sentiments|)],
      Scale(energyDraw, 0.0, 100.0),
      now)
  }

  /** A byte-frequency sample: each bin is a byte. */
  predicate IsSample(sample: seq<nat>)
  {
    |sample| > 0 && forall i :: 0 <= i < |sample| ==> sample[i] < 256
  }

  function Sum(xs: seq<nat>): nat
  {
    if xs == [] then 0 else Sum(xs[..|xs| - 1]) + xs[|xs| - 1]
  }

  lemma {:induction false} SumBound(xs: seq<nat>, bound: nat)
    requires forall i :: 0 <= i < |xs| ==> xs[i] <= bound
    ensures Sum(xs) <= |xs| * bound
  {
    if xs != [] {
      SumBound(xs[..|xs| - 1], bound);
    }
  }

  /** The audio level: the mean of the sample's bins, so a byte value. */
  function Level(sample: seq<nat>): (l: real)
    requires IsSample(sample)
    ensures 0.0 <= l <= 255.0
  {
    SumBound(sample, 255);
    var q := Sum(sample) as real / |sample| as real;
    assert q * |sample| as real == Sum(sample) as real;
    q
  }

  function Levels(samples: seq<seq<nat>>): (ls: seq<real>)
    requires forall i :: 0 <= i < |samples| ==> IsSample(samples[i])
    ensures |ls| == |samples|
    ensures forall i :: 0 <= i < |samples| ==> ls[i] == Level(samples[i])
  {
    seq(|samples|, i requires 0 <= i < |samples| => Level(samples[i]))
  }

  /**
   * `monitorAudioLevel` (VoiceAnalyzer.tsx lines 62-79): the first call of
   * `updateLevel` (line 78) stores one level (line 71), and each call
   * schedules the next with `requestAnimationFrame` only
   * `if (isRecording)` (lines 73-74), reading the `isRecording` captured by
   * the `useCallback` closure, here `recordingSeen`. `samples` are the frames
   * the browser would offer; the result is the levels stored, in order.
   */
  method MonitorAudioLevel(recordingSeen: bool, samples: seq<seq<nat>>) returns (levels: seq<real>)
    requires samples != []
    requires forall i :: 0 <= i < |samples| ==> IsSample(samples[i])
    ensures levels == if recordingSeen then Levels(samples) else [Level(samples[0])]
  {
    levels := [Level(samples[0])];
    var i := 1;
    while recordingSeen && i < |samples|
      invariant 1 <= i <= |samples|
      invariant levels == Levels(samples[..i])
      invariant !recordingSeen ==> i == 1
    {
      levels := levels + [Level(samples[i])];
      i := i + 1;
    }
    assert recordingSeen ==> samples[..i] == samples;
  }

  /**
   * As written: `startRecording` calls `monitorAudioLevel()` (line 144) from
   * the render in which the button was clicked, where `isRecording` was still
   * false (`setIsRecording(true)` at line 135 takes effect only on the next
   * render). So `updateLevel` never reschedules: of two or more frames, only
   * the first one's level is stored.
   */
  method MonitorFromStartAsWritten(samples: seq<seq<nat>>) returns (levels: seq<real>)
    requires |samples| >= 2
    requires forall i :: 0 <= i < |samples| ==> IsSample(samples[i])
    ensures |levels| == 1 < |samples|
    ensures levels == [Level(samples[0])]
  {
    levels := MonitorAudioLevel(false, samples);
  }

  /**
   * As intended: the monitor sees `isRecording` true for the whole
   * recording, so every frame's level is stored in order, the last one
   * being the level on screen when recording stops.
   */
  method MonitorWhileRecording(samples: seq<seq<nat>>) returns (levels: seq<real>)
    requires samples != []
    requires forall i :: 0 <= i < |samples| ==> IsSample(samples[i])
    ensures |levels| == |samples|
    ensures forall i :: 0 <= i < |samples| ==> levels[i] == Level(samples[i])
    ensures levels[|levels| - 1] == Level(samples[|samples| - 1])
  {
    levels := MonitorAudioLevel(true, samples);
  }

  /** The recordings left after deleting `id`, in their order. */
  function WithoutId(recordings: seq<Recording>, id: string): (r: seq<Recording>)
    ensures forall x :: x in r <==> x in recordings && x.id != id
  {
    Filter(recordings, (x: Recording) => x.id != id)
  }

  /** Deletion works piecewise, so the remaining recordings keep their relative order. */
  lemma {:induction false} WithoutIdAppend(a: seq<Recording>, b: seq<Recording>, id: string)
    ensures WithoutId(a + b, id) == WithoutId(a, id) + WithoutId(b, id)
  {
    FilterAppend(a, b, (x: Recording) => x.id != id);
  }

  /** Deleting a recording just added under a fresh id gives back the list before it. */
  lemma {:induction false} WithoutNewest(r: Recording, rest: seq<Recording>)
    requires forall i :: 0 <= i < |rest| ==> rest[i].id != r.id
    ensures WithoutId([r] + rest, r.id) == rest
  {
    calc {
      WithoutId([r] + rest, r.id);
      { WithoutIdAppend([r], rest, r.id); }
      WithoutId([r], r.id) + WithoutId(rest, r.id);
      { assert WithoutId([r], r.id) == []; }
      WithoutId(rest, r.id);
      { FilterKeepsAll(rest, (x: Recording) => x.id != r.id); }
      rest;
    }
  }

  /**
   * `formatTime` (lines 218-222): the whole minutes (line 219) in decimal, a
   * colon, then the remaining seconds (line 220) padded on the left with '0'
   * to two digits (line 221). So the colon is third from the end and both
   * fields are digits; `FormatTimeFields` reads the fields back as
   * `seconds / 60` and `seconds % 60`.
   */
  function FormatTime(seconds: nat): (t: string)
    ensures |t| >= 4
    ensures t[|t| - 3] == ':'
    ensures AllDigits(t[..|t| - 3]) && AllDigits(t[|t| - 2..])
  {
    NatToString(seconds / 60) + ":" + PadStart(NatToString(seconds % 60), 2, '0')
  }

  /** Reads a `m:ss` timer text back into seconds; `None` for text of any other shape. */
  function ParseTime(t: string): (r: Option<nat>)
    ensures r.Some? ==> |t| >= 4 && t[|t| - 3] == ':'
  {
    if |t| >= 4 && t[|t| - 3] == ':' && AllDigits(t[..|t| - 3]) && AllDigits(t[|t| - 2..])
       && ParseNat(t[|t| - 2..]) < 60
    then Some(ParseNat(t[..|t| - 3]) * 60 + ParseNat(t[|t| - 2..]))
    else None
  }

  /** The two-digit seconds field reads back as the seconds. */
  lemma {:induction false} SecondsField(secs: nat)
    requires secs < 60
    ensures |PadStart(NatToString(secs), 2, '0')| == 2 && AllDigits(PadStart(NatToString(secs), 2, '0'))
    ensures ParseNat(PadStart(NatToString(secs), 2, '0')) == secs
  {
    var p := PadStart(NatToString(secs), 2, '0');
    ParseNatToString(secs);
    if secs < 10 {
      assert p == ['0'] + NatToString(secs);
      assert p[..1] == ['0'];
      assert ParseNat(p[..1]) == ParseNat([]) * 10 + 0;
    } else {
      assert NatToString(secs) == NatToString(secs / 10) + [DigitChar(secs % 10)];
    }
  }

  /** Minutes digits, a colon and two seconds digits read back as minutes and seconds. */
  lemma {:induction false} ParseTimeOf(m: string, ss: string)
    requires |m| >= 1 && AllDigits(m) && |ss| == 2 && AllDigits(ss) && ParseNat(ss) < 60
    ensures ParseTime(m + ":" + ss) == Some(ParseNat(m) * 60 + ParseNat(ss))
  {
    var t := m + ":" + ss;
    assert t[|t| - 3] == ':';
    assert t[..|t| - 3] == m;
    assert t[|t| - 2..] == ss;
  }

  /** Minutes and a seconds value below 60, rendered as the timer does, read back as the same minutes and seconds. */
  lemma {:induction false} ParseTimeParts(mins: nat, secs: nat)
    requires secs < 60
    ensures ParseTime(NatToString(mins) + ":" + PadStart(NatToString(secs), 2, '0')) == Some(mins * 60 + secs)
  {
    var m, ss := NatToString(mins), PadStart(NatToString(secs), 2, '0');
    calc {
      ParseTime(m + ":" + ss);
      { SecondsField(secs); ParseTimeOf(m, ss); }
      Some(ParseNat(m) * 60 + ParseNat(ss));
      { SecondsField(secs); ParseNatToString(mins); }
      Some(mins * 60 + secs);
    }
  }

  /** The timer text reads back as the seconds it shows. */
  lemma {:induction false} ParseFormatTime(seconds: nat)
    ensures ParseTime(FormatTime(seconds)) == Some(seconds)
  {
    var mins, secs := seconds / 60, seconds % 60;
    calc {
      ParseTime(FormatTime(seconds));
      ParseTime(NatToString(mins) + ":" + PadStart(NatToString(secs), 2, '0'));
      { ParseTimeParts(mins, secs); }
      Some(mins * 60 + secs);
      Some(seconds);
    }
  }

  /** The field before the colon of a timer text. */
  function MinutesText(t: string): string
    requires |t| >= 3
  {
    t[..|t| - 3]
  }

  /** The last two characters of a timer text. */
  function SecondsText(t: string): string
    requires |t| >= 2
  {
    t[|t| - 2..]
  }

  /** Minutes and a seconds value below 60, rendered as the timer does: each field reads back as its own value. */
  lemma {:induction false} TimeFields(mins: nat, secs: nat)
    requires secs < 60
    ensures var t := NatToString(mins) + ":" + PadStart(NatToString(secs), 2, '0');
      |t| >= 3 && MinutesText(t) == NatToString(mins) && SecondsText(t) == PadStart(NatToString(secs), 2, '0')
      && ParseNat(NatToString(mins)) == mins && ParseNat(PadStart(NatToString(secs), 2, '0')) == secs
  {
    SecondsField(secs);
    ParseNatToString(mins);
  }

  /** The field before the colon reads back as the whole minutes, the two digits after it as the remaining seconds. */
  lemma FormatTimeFields(seconds: nat)
    ensures AllDigits(MinutesText(FormatTime(seconds))) && ParseNat(MinutesText(FormatTime(seconds))) == seconds / 60
    ensures AllDigits(SecondsText(FormatTime(seconds))) && ParseNat(SecondsText(FormatTime(seconds))) == seconds % 60
  {
    TimeFields(seconds / 60, seconds % 60);
  }

  /** Different times never show the same text. */
  lemma FormatTimeInjective(a: nat, b: nat)
    requires FormatTime(a) == FormatTime(b)
    ensures a == b
  {
    ParseFormatTime(a);
    ParseFormatTime(b);
  }

  /**
   * The voice screen's state. `hasRecorder` stands for the media recorder
   * ref, `timerRunning` for the one-second interval, `stopPending` for a
   * stopped recorder whose `onstop` has not yet run, and `capturedTime` for
   * the value of `recordingTime` seen by that `onstop` closure.
   */
  class Recorder {
    var isRecording: bool
    var recordings: seq<Recording>
    var currentAnalysis: Option<VoiceAnalysis>
    var recordingTime: nat
    var audioLevel: real
    var hasRecorder: bool
    var timerRunning: bool
    var stopPending: bool
    var capturedTime: nat

    ghost predicate Valid()
      reads this
    {
      (timerRunning <==> isRecording)
      && (isRecording ==> hasRecorder)
      && (stopPending ==> !isRecording)
      && 0.0 <= audioLevel <= 255.0
    }

    constructor()
      ensures Valid()
      ensures !isRecording && recordings == [] && currentAnalysis == None
      ensures recordingTime == 0 && audioLevel == 0.0
      ensures !hasRecorder && !timerRunning && !stopPending
    {
      isRecording := false;
      recordings := [];
      currentAnalysis := None;
      recordingTime := 0;
      audioLevel := 0.0;
      hasRecorder := false;
      timerRunning := false;
      stopPending := false;
      capturedTime := 0;
    }

    /**
     * `startRecording` (lines 81-151). `granted` is whether `getUserMedia`
     * resolves. If it does: the recorder is stored (line 133), `isRecording`
     * becomes true (line 135), `recordingTime` becomes 0 (line 136) and the
     * one-second interval starts (lines 139-141). The `onstop` closure
     * defined at line 114 reads `recordingTime` from this same render, so it
     * keeps the counter value from before the reset (`capturedTime`). If it
     * is refused, the `catch` at line 147 only reports the error and no state
     * changes.
     */
    method StartRecording(granted: bool)
      requires Valid() && !isRecording && !stopPending
      modifies this`hasRecorder, this`isRecording, this`recordingTime, this`timerRunning, this`capturedTime
      ensures Valid()
      ensures !granted ==> unchanged(this)
      ensures granted ==> hasRecorder && isRecording && timerRunning && recordingTime == 0
      ensures granted ==> capturedTime == old(recordingTime)
    {
      if !granted {
        return;
      }
      hasRecorder := true;
      capturedTime := recordingTime;
      isRecording := true;
      recordingTime := 0;
      timerRunning := true;
    }

    /** One second of the interval timer. */
    method TimerTick()
      requires Valid() && timerRunning
      modifies this`recordingTime
      ensures Valid()
      ensures recordingTime == old(recordingTime) + 1
    {
      recordingTime := recordingTime + 1;
    }

    /** One level update from the analyser while recording. */
    method SampleLevel(sample: seq<nat>)
      requires Valid() && isRecording && IsSample(sample)
      modifies this`audioLevel
      ensures Valid()
      ensures audioLevel == Level(sample)
    {
      audioLevel := Level(sample);
    }

    /**
     * `stopRecording`: only with a recorder that is recording; stops it,
     * zeroes the level and clears the timer. The counter keeps its value.
     */
    method StopRecording()
      requires Valid()
      modifies this`isRecording, this`audioLevel, this`timerRunning, this`stopPending
      ensures Valid()
      ensures !(old(hasRecorder) && old(isRecording)) ==> unchanged(this)
      ensures old(hasRecorder) && old(isRecording) ==>
        !isRecording && audioLevel == 0.0 && !timerRunning && stopPending
    {
      if hasRecorder && isRecording {
        isRecording := false;
        audioLevel := 0.0;
        timerRunning := false;
        stopPending := true;
      }
    }

    /**
     * The recorder's `onstop` (lines 114-131) as written: prepends the new
     * recording (line 128) and shows its analysis (line 129), but its
     * `duration: recordingTime` (line 123) is the stale value captured when
     * recording started (`capturedTime`), not the seconds counted since.
     */
    method RecorderStoppedAsWritten(id: string, analysis: VoiceAnalysis, now: int)
      requires Valid() && stopPending
      modifies this`recordings, this`currentAnalysis, this`stopPending
      ensures Valid() && !stopPending
      ensures recordings == [Recording(id, capturedTime, analysis, now)] + old(recordings)
      ensures currentAnalysis == Some(analysis)
    {
      recordings := [Recording(id, capturedTime, analysis, now)] + recordings;
      currentAnalysis := Some(analysis);
      stopPending := false;
    }

    /**
     * The recorder's `onstop` (lines 114-131) as intended: the same prepend
     * and display, with `duration` the current `recordingTime`, the seconds
     * counted since recording started.
     */
    method RecorderStopped(id: string, analysis: VoiceAnalysis, now: int)
      requires Valid() && stopPending
      modifies this`recordings, this`currentAnalysis, this`stopPending
      ensures Valid() && !stopPending
      ensures recordings == [Recording(id, recordingTime, analysis, now)] + old(recordings)
      ensures currentAnalysis == Some(analysis)
    {
      recordings := [Recording(id, recordingTime, analysis, now)] + recordings;
      currentAnalysis := Some(analysis);
      stopPending := false;
    }

    /** `deleteRecording`: drops every recording with that id, keeping the order of the rest. */
    method DeleteRecording(id: string)
      modifies this`recordings
      ensures recordings == WithoutId(old(recordings), id)
    {
      recordings := WithoutId(recordings, id);
    }
  }

  /**
   * A whole recording of `seconds` seconds: start, the timer ticks, stop,
   * then the recorder's `onstop`, as written or as intended.
   */
  method RecordFor(r: Recorder, seconds: nat, asWritten: bool, id: string, analysis: VoiceAnalysis, now: int)
    requires r.Valid() && !r.isRecording && !r.stopPending
    modifies r
    ensures r.Valid() && !r.isRecording && !r.stopPending
    ensures r.recordingTime == seconds
    ensures r.recordings == [Recording(id, if asWritten then old(r.recordingTime) else seconds, analysis, now)] + old(r.recordings)
  {
    r.StartRecording(true);
    var k := 0;
    while k < seconds
      invariant r.Valid() && r.isRecording && r.hasRecorder && !r.stopPending
      invariant 0 <= k <= seconds && r.recordingTime == k
      invariant r.capturedTime == old(r.recordingTime)
      invariant r.recordings == old(r.recordings)
    {
      r.TimerTick();
      k := k + 1;
    }
    r.StopRecording();
    if asWritten {
      r.RecorderStoppedAsWritten(id, analysis, now);
    } else {
      r.RecorderStopped(id, analysis, now);
    }
  }

  /**
   * Recording 5 seconds and then 3 seconds on a fresh screen, with the
   * `duration` of line 123 as written and as intended. The list is newest
   * first, so the durations should read 3 then 5; as written they read 5 then
   * 0: each recording carries the length of the one before it, and the first
   * carries the initial 0.
   */
  method StaleDurationWitness(a: VoiceAnalysis) returns (asWritten: seq<nat>, intended: seq<nat>)
    ensures asWritten == [5, 0]
    ensures intended == [3, 5]
  {
    var w := new Recorder();
    RecordFor(w, 5, true, "first", a, 0);
    RecordFor(w, 3, true, "second", a, 1);
    asWritten := [w.recordings[0].duration, w.recordings[1].duration];
    var c := new Recorder();
    RecordFor(c, 5, false, "first", a, 0);
    RecordFor(c, 3, false, "second", a, 1);
    intended := [c.recordings[0].duration, c.recordings[1].duration];
  }
}
