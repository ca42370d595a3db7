/**
 * The camera screen: while the camera is on, every analysis tick records a
 * reading as the current emotion and appends it to a history that keeps only
 * the ten most recent readings.
 */
module EmotionDetector {
  import opened Optional
  import opened Ranking
  import opened Draws

  /** The labels the stand-in classifier picks from. */
  const Emotions: seq<string> := ["happy", "sad", "angry", "surprised", "fearful", "neutral"]

  predicate IsEmotion(e: string)
  {
    e in Emotions
  }

  /** Every reading carries one of the classifier's labels. */
  predicate Labelled(rs: seq<Reading>)
  {
    forall i :: 0 <= i < |rs| ==> IsEmotion(rs[i].emotion)
  }

  /** Readings kept in the history. */
  const HistoryLimit: nat := 10

  /** A reading; `timestamp` comes from the clock. */
  datatype Reading = Reading(emotion: string, confidence: real, timestamp: int)

  /** `analyzeEmotion`'s stand-in classifier: a label and a confidence in [0.6, 1) from two draws. */
  function Classify(emotionDraw: real, confidenceDraw: real, now: int): (r: Reading)
    requires IsDraw(emotionDraw) && IsDraw(confidenceDraw)
    ensures IsEmotion(r.emotion)
    ensures 0.6 <= r.confidence < 1.0
    ensures r.timestamp == now
  {
    Reading(Emotions[Pick(emotionDraw, |Emotions|)], Scale(confidenceDraw, 0.6, 0.4), now)
  }

  /** `[...prev.slice(-9), r]`: the reading after the last nine before it. */
  function Appended(prev: seq<Reading>, r: Reading): (h: seq<Reading>)
    ensures |h| <= HistoryLimit
    ensures |h| > 0 && h[|h| - 1] == r
    ensures |h| == (if |prev| < HistoryLimit - 1 then |prev| else HistoryLimit - 1) + 1
  {
    TakeLast(prev, HistoryLimit - 1) + [r]
  }

  /** Before the new reading come the last (at most nine) earlier readings, in order. */
  lemma AppendedKeepsOrder(prev: seq<Reading>, r: Reading)
    ensures var h := Appended(prev, r);
      forall i :: 0 <= i < |h| - 1 ==> h[i] == prev[|prev| - (|h| - 1) + i]
  {
    var h := Appended(prev, r);
    var kept := TakeLast(prev, HistoryLimit - 1);
    assert h == kept + [r];
    forall i | 0 <= i < |h| - 1
      ensures h[i] == prev[|prev| - (|h| - 1) + i]
    {
      assert h[i] == kept[i];
    }
  }

  /** Below the limit nothing is dropped. */
  lemma AppendedBelowLimit(prev: seq<Reading>, r: Reading)
    requires |prev| < HistoryLimit
    ensures Appended(prev, r) == prev + [r]
  {
  }

  /** At the limit exactly the oldest reading is dropped. */
  lemma AppendedAtLimit(prev: seq<Reading>, r: Reading)
    requires |prev| == HistoryLimit
    ensures Appended(prev, r) == prev[1..] + [r]
  {
  }

  /** The history after recording `rs` one by one into an empty history. */
  function Replay(rs: seq<Reading>): seq<Reading>
  {
    if rs == [] then [] else Appended(Replay(rs[..|rs| - 1]), rs[|rs| - 1])
  }

  /** The last `HistoryLimit` readings of `rs` (all of them when there are fewer). */
  function Recent(rs: seq<Reading>): seq<Reading>
  {
    if |rs| <= HistoryLimit then rs else rs[|rs| - HistoryLimit..]
  }

  /** Appending a reading to the recent readings before it gives the recent readings after it. */
  lemma {:induction false} AppendedRecent(rs: seq<Reading>)
    requires rs != []
    ensures Appended(Recent(rs[..|rs| - 1]), rs[|rs| - 1]) == Recent(rs)
  {
    var n := |rs|;
    var init, last := rs[..n - 1], rs[n - 1];
    var start := if n <= HistoryLimit then 0 else n - HistoryLimit;
    calc {
      Appended(Recent(init), last);
      TakeLast(Recent(init), HistoryLimit - 1) + [last];
      { KeptReadings(rs); }
      rs[start..n - 1] + [last];
      { assert rs[n - 1..] == [last]; SplitSuffix(rs, start, n - 1); }
      rs[start..];
      { if n <= HistoryLimit { assert rs[0..] == rs; } }
      Recent(rs);
    }
  }

  /** The readings kept from the recent ones when one more arrives: the last nine before it. */
  lemma KeptReadings(rs: seq<Reading>)
    requires rs != []
    ensures var k := if |rs| < HistoryLimit then |rs| else HistoryLimit;
      TakeLast(Recent(rs[..|rs| - 1]), HistoryLimit - 1) == rs[|rs| - k..|rs| - 1]
  {
    var n := |rs|;
    var init := rs[..n - 1];
    if n <= HistoryLimit {
      assert Recent(init) == init;
      assert TakeLast(init, HistoryLimit - 1) == init;
      assert init == rs[0..n - 1];
    } else {
      var window := init[n - 1 - HistoryLimit..];
      assert Recent(init) == window by {
        if n - 1 == HistoryLimit {
          assert init[0..] == init;
        }
      }
      assert TakeLast(window, HistoryLimit - 1) == window[1..];
      assert window[1..] == rs[n - HistoryLimit..n - 1];
    }
  }

  /** The history is always the last (at most ten) readings recorded, in order. */
  lemma {:induction false} ReplayKeepsRecent(rs: seq<Reading>)
    ensures Replay(rs) == Recent(rs)
  {
    if rs != [] {
      ReplayKeepsRecent(rs[..|rs| - 1]);
      AppendedRecent(rs);
    }
  }

  /** `emotionHistory.slice(-10)`: the timeline shows the last ten readings. */
  function Timeline(history: seq<Reading>): (t: seq<Reading>)
    ensures |t| <= HistoryLimit
  {
    TakeLast(history, HistoryLimit)
  }

  /** Under the history bound the timeline is the whole history. */
  lemma TimelineIsHistory(history: seq<Reading>)
    requires |history| <= HistoryLimit
    ensures Timeline(history) == history
  {
  }

  /** The camera screen's state; the media stream and the interval timer are opaque handles. */
  class Detector {
    var isActive: bool
    var isAnalyzing: bool
    var current: Option<Reading>
    var history: seq<Reading>
    var stream: Option<nat>
    var interval: Option<nat>
    /** Every reading recorded since the last reset, oldest first. */
    ghost var recorded: seq<Reading>

    ghost predicate Valid()
      reads this
    {
      history == Recent(recorded)
      && Labelled(recorded)
      && (current.Some? ==> IsEmotion(current.value.emotion))
    }

    constructor()
      ensures Valid()
      ensures !isActive && !isAnalyzing && current == None && history == []
      ensures stream == None && interval == None
      ensures recorded == []
    {
      recorded := [];
      isActive := false;
      isAnalyzing := false;
      current := None;
      history := [];
      stream := None;
      interval := None;
    }

    /** `startCamera`, first half: the permission request is pending. */
    method RequestCamera()
      modifies this`isAnalyzing
      ensures isAnalyzing
    {
      isAnalyzing := true;
    }

    /** The permission request failed. */
    method CameraDenied()
      modifies this`isAnalyzing
      ensures !isAnalyzing
    {
      isAnalyzing := false;
    }

    /**
     * The stream was granted: it is attached when the video element is
     * mounted; otherwise nothing is kept and the request stays pending.
     */
    method CameraGranted(handle: nat, videoMounted: bool)
      modifies this`stream
      ensures stream == if videoMounted then Some(handle) else old(stream)
    {
      if videoMounted {
        stream := Some(handle);
      }
    }

    /** `onloadedmetadata`: the camera is live and the analysis timer is started. */
    method MetadataLoaded(timer: nat)
      modifies this`isActive, this`isAnalyzing, this`interval
      ensures isActive && !isAnalyzing && interval == Some(timer)
    {
      isActive := true;
      isAnalyzing := false;
      interval := Some(timer);
    }

    /**
     * `analyzeEmotion`: with a frame available, records the classifier's
     * reading as the current one and appends it to the bounded history;
     * without one it does nothing. It runs only from the analysis timer, so
     * it needs that timer to be set: after `StopCamera` clears it, no reading
     * arrives until `MetadataLoaded` starts a new one.
     */
    method Tick(frameReady: bool, emotionDraw: real, confidenceDraw: real, now: int)
      requires Valid()
      requires interval.Some?
      requires IsDraw(emotionDraw) && IsDraw(confidenceDraw)
      modifies this`current, this`history, this`recorded
      ensures Valid()
      ensures !frameReady ==> current == old(current) && history == old(history) && recorded == old(recorded)
      ensures frameReady ==> current == Some(Classify(emotionDraw, confidenceDraw, now))
      ensures frameReady ==> history == Appended(old(history), current.value)
      ensures frameReady ==> recorded == old(recorded) + [current.value]
    {
      if !frameReady {
        return;
      }
      var reading := Classify(emotionDraw, confidenceDraw, now);
      current := Some(reading);
      history := Appended(history, reading);
      recorded := recorded + [reading];
      assert recorded[..|recorded| - 1] == old(recorded);
      AppendedRecent(recorded);
    }

    /** `stopCamera`: releases the stream and the timer and clears the current reading; the history stays. */
    method StopCamera()
      requires Valid()
      modifies this`stream, this`interval, this`isActive, this`current
      ensures Valid()
      ensures stream == None && interval == None && !isActive && current == None
    {
      if stream.Some? {
        stream := None;
      }
      if interval.Some? {
        interval := None;
      }
      isActive := false;
      current := None;
    }

    /** `resetAnalysis`: empties the history and clears the current reading; the camera stays as it is. */
    method ResetAnalysis()
      requires Valid()
      modifies this`history, this`current, this`recorded
      ensures Valid()
      ensures history == [] && current == None && recorded == []
    {
      history := [];
      recorded := [];
      current := None;
    }
  }
}
