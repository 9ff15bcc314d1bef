/**
 * Cut-point arithmetic: turning the INDEX marks of a track into the time,
 * in seconds, at which the album file is cut. Times are exact reals here;
 * every mark is also an integer number of frames at 75 frames per second.
 */
module CutPoint {
  import opened Cue

  const FramesPerSecond: nat := 75

  /** A mark as a cue sheet writes it: seconds below 60, frames below 75. */
  predicate WellFormed(ix: CueIndex) {
    ix.seconds < 60 && ix.frames < FramesPerSecond
  }

  /** The position of a mark counted in frames from the start of the file. */
  function IndexFrames(ix: CueIndex): nat {
    (ix.minutes * 60 + ix.seconds) * FramesPerSecond + ix.frames
  }

  /** The position of a mark in seconds: minutes * 60 + seconds + frames / 75. */
  function IndexSeconds(ix: CueIndex): real {
    (ix.minutes * 60 + ix.seconds) as real + ix.frames as real / 75.0
  }

  /** Seconds are exactly frames divided by the frame rate. */
  lemma SecondsAreFrames(ix: CueIndex)
    ensures IndexSeconds(ix) == IndexFrames(ix) as real / 75.0
  {
    var whole := ix.minutes * 60 + ix.seconds;
    assert IndexFrames(ix) == whole * 75 + ix.frames;
    assert (whole * 75 + ix.frames) as real == whole as real * 75.0 + ix.frames as real;
  }

  /**
   * The cut point of a track: the time of its only mark, the average of its
   * two marks, or the sentinel -1 for any other number of marks.
   */
  function GetCutPoint(indices: seq<CueIndex>): real {
    if |indices| == 1 then IndexSeconds(indices[0])
    else if |indices| == 2 then (IndexSeconds(indices[0]) + IndexSeconds(indices[1])) / 2.0
    else -1.0
  }

  /**
   * In frames: one mark gives its frame count over 75, two marks half their
   * sum over 75; the cut point is -1 exactly when the track has neither one
   * nor two marks, and is never negative otherwise.
   */
  lemma CutPointFrames(indices: seq<CueIndex>)
    ensures |indices| == 1 ==> GetCutPoint(indices) == IndexFrames(indices[0]) as real / 75.0
    ensures |indices| == 2 ==>
      GetCutPoint(indices) == (IndexFrames(indices[0]) + IndexFrames(indices[1])) as real / 150.0
    ensures GetCutPoint(indices) == -1.0 <==> |indices| != 1 && |indices| != 2
    ensures GetCutPoint(indices) != -1.0 ==> GetCutPoint(indices) >= 0.0
  {
    if |indices| == 1 || |indices| == 2 {
      SecondsAreFrames(indices[0]);
      SecondsAreFrames(indices[|indices| - 1]);
    }
  }

  /**
   * With a pre-gap mark and a start mark, the cut lies between the two, and
   * when both marks are the same time it is that time.
   */
  lemma MidpointBetween(a: CueIndex, b: CueIndex)
    ensures IndexFrames(a) <= IndexFrames(b) ==> IndexSeconds(a) <= GetCutPoint([a, b]) <= IndexSeconds(b)
    ensures IndexFrames(b) <= IndexFrames(a) ==> IndexSeconds(b) <= GetCutPoint([a, b]) <= IndexSeconds(a)
    ensures IndexFrames(a) == IndexFrames(b) ==> GetCutPoint([a, b]) == IndexSeconds(a) == IndexSeconds(b)
  {
    SecondsAreFrames(a);
    SecondsAreFrames(b);
  }

  /** A cut point moves forward exactly when the single mark it comes from does. */
  lemma SingleMarkMonotone(a: CueIndex, b: CueIndex)
    ensures GetCutPoint([a]) <= GetCutPoint([b]) <==> IndexFrames(a) <= IndexFrames(b)
  {
    SecondsAreFrames(a);
    SecondsAreFrames(b);
  }

  /** For well-formed marks, time order is the order of (minutes, seconds, frames). */
  lemma IndexOrderIsLexicographic(a: CueIndex, b: CueIndex)
    requires WellFormed(a) && WellFormed(b)
    ensures IndexSeconds(a) < IndexSeconds(b) <==>
      a.minutes < b.minutes ||
      (a.minutes == b.minutes && (a.seconds < b.seconds || (a.seconds == b.seconds && a.frames < b.frames)))
  {
    SecondsAreFrames(a);
    SecondsAreFrames(b);
    assert IndexFrames(a) == a.minutes * 4500 + a.seconds * 75 + a.frames;
    assert IndexFrames(b) == b.minutes * 4500 + b.seconds * 75 + b.frames;
  }

  /** 1:30:37 is 90 seconds and 37 frames: 6787 frames, 90 + 37/75 seconds. */
  lemma OneIndexExample()
    ensures IndexFrames(CueIndex(1, 30, 37)) == 6787
    ensures GetCutPoint([CueIndex(1, 30, 37)]) == 90.0 + 37.0 / 75.0
  {
  }
}
