/** The complete AI Selves video: nine shot compositions, each in its own
    `<Sequence>`, played one after another. Durations are in frames at
    24 fps. */
module AISelvesComplete {
  import opened Schedule

  /** One entry of `SHOTS`: the composition it plays, by name, and its
      length in frames. */
  datatype Shot = Shot(component: string, duration: int)

  const Shots: seq<Shot> := [
    Shot("AISelvesShot1", 248),
    Shot("AISelvesShot2", 192),
    Shot("AISelvesShot3", 288),
    Shot("AISelvesShot4", 168),
    Shot("AISelvesShot5", 48),
    Shot("AISelvesShot6", 240),
    Shot("AISelvesShot7", 192),
    Shot("AISelvesShot8", 168),
    Shot("AISelvesShot9", 72)
  ]

  function Durations(shots: seq<Shot>): (r: seq<int>)
    ensures |r| == |shots|
  {
    seq(|shots|, i requires 0 <= i < |shots| => shots[i].duration)
  }

  /** `TOTAL_DURATION`: `SHOTS.reduce((sum, shot) => sum + shot.duration, 0)`. */
  function TotalDuration(shots: seq<Shot>): int {
    Sum(Durations(shots))
  }

  /** The nine shots last 1616 frames, about 67 seconds. */
  lemma ShotsTotal()
    ensures |Shots| == 9 && TotalDuration(Shots) == 1616
  {
    var d := Durations(Shots);
    assert d[0] == 248 && d[1] == 192 && d[2] == 288 && d[3] == 168 && d[4] == 48;
    assert d[5] == 240 && d[6] == 192 && d[7] == 168 && d[8] == 72;
    assert d == [248, 192, 288, 168, 48, 240, 192, 168, 72];
  }

  /** The props of one shot's `<Sequence>`. */
  datatype ShotSequence = ShotSequence(key: int, from: int, durationInFrames: int, component: string)

  /** The composition's map over `SHOTS`: `from` is the running
      `startFrame`, which then advances by the shot's duration. */
  method AISelvesCompleteSequences(shots: seq<Shot>) returns (sequences: seq<ShotSequence>)
    ensures |sequences| == |shots|
    ensures forall i :: 0 <= i < |shots| ==>
      sequences[i] == ShotSequence(i, Starts(Durations(shots))[i], shots[i].duration, shots[i].component)
  {
    var durations := Durations(shots);
    var startFrame := 0;
    sequences := [];
    var index := 0;
    while index < |shots|
      invariant 0 <= index <= |shots|
      invariant startFrame == Sum(durations[..index])
      invariant |sequences| == index
      invariant forall i :: 0 <= i < index ==>
        sequences[i] == ShotSequence(i, Starts(durations)[i], shots[i].duration, shots[i].component)
    {
      var shot := shots[index];
      var from := startFrame;
      startFrame := startFrame + shot.duration;
      SumTake(durations, index);
      sequences := sequences + [ShotSequence(index, from, shot.duration, shot.component)];
      index := index + 1;
    }
  }

  /** The shots play in table order with neither gap nor overlap: the
      first from frame 0, each from where the one before ends, and the
      last ends at `TOTAL_DURATION`. With positive durations each starts
      strictly later than every shot before it. */
  lemma ShotsBackToBack(shots: seq<Shot>)
    requires |shots| > 0
    ensures Starts(Durations(shots))[0] == 0
    ensures forall i :: 0 <= i < |shots| - 1 ==>
      Starts(Durations(shots))[i] + shots[i].duration == Starts(Durations(shots))[i + 1]
    ensures Starts(Durations(shots))[|shots| - 1] + shots[|shots| - 1].duration == TotalDuration(shots)
    ensures Positive(Durations(shots)) ==>
      forall i, j :: 0 <= i < j < |shots| ==> Starts(Durations(shots))[i] < Starts(Durations(shots))[j]
  {
    var d := Durations(shots);
    Tiling(d);
    if Positive(d) {
      forall i, j | 0 <= i < j < |shots| ensures Starts(d)[i] < Starts(d)[j] {
        StartsIncrease(d, i, j);
      }
    }
  }

  /** For the table as given: the last shot, the end card, runs from frame
      1544 to frame 1616. */
  lemma EndCardAtTheEnd()
    ensures Starts(Durations(Shots))[8] == 1544
    ensures Starts(Durations(Shots))[8] + Shots[8].duration == 1616
  {
    ShotsTotal();
    ShotsBackToBack(Shots);
  }
}
