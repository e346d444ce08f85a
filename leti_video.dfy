/** The Remotion composition of the Leti "AI Selves" video: eighteen
    placeholder cards, one `<Sequence>` per section laid back to back at
    24 fps, each with its subtitle lines overlaid in a window of frames.
    Times are kept in whole milliseconds, which every duration and offset
    of the composition is. */
module LetiVideo {
  import opened Wrappers
  import opened Rounding
  import opened Schedule

  /** A subtitle line's timing, relative to the start of its section. */
  datatype SubtitleLine = SubtitleLine(startMs: int, durMs: int)

  datatype Section = Section(id: string, durMs: int, subtitles: seq<SubtitleLine>)

  /** Host intro, then the Anthony and Theo reveal. */
  const Opening: seq<Section> := [
    Section("intro", 8000, [SubtitleLine(0, 2500), SubtitleLine(2500, 2500), SubtitleLine(5000, 1500), SubtitleLine(7000, 1000)]),
    Section("anthony-intro", 4000, [SubtitleLine(0, 3000), SubtitleLine(3000, 1000)]),
    Section("theo-reveal", 7000, [SubtitleLine(0, 1500), SubtitleLine(1500, 2500), SubtitleLine(4000, 2000), SubtitleLine(6000, 1000)])
  ]

  const StarryAndRus: seq<Section> := [
    Section("starry-intro", 3000, [SubtitleLine(0, 2000), SubtitleLine(2000, 1000)]),
    Section("momo-reveal", 6000, [SubtitleLine(0, 1000), SubtitleLine(1000, 800), SubtitleLine(1800, 2200), SubtitleLine(4000, 2000)]),
    Section("rus-intro", 3000, [SubtitleLine(0, 2000), SubtitleLine(2000, 1000)]),
    Section("russ-reveal", 4000, [SubtitleLine(0, 1000), SubtitleLine(1000, 1500), SubtitleLine(2500, 1500)])
  ]

  const MatanAndDemi: seq<Section> := [
    Section("matan-intro", 3000, [SubtitleLine(0, 2500)]),
    Section("raccoon-reveal", 5000, [SubtitleLine(0, 1500), SubtitleLine(0, 1500), SubtitleLine(1500, 1500), SubtitleLine(3000, 2000)]),
    Section("demi-intro", 3000, [SubtitleLine(0, 3000)]),
    Section("semi-reveal", 6000, [SubtitleLine(0, 1500), SubtitleLine(1500, 1500), SubtitleLine(1500, 1500), SubtitleLine(3000, 1500), SubtitleLine(4500, 1500)])
  ]

  const LetiAndMochi: seq<Section> := [
    Section("leti-intro", 4000, [SubtitleLine(0, 3000), SubtitleLine(3000, 500)]),
    Section("mochi-reveal", 4000, [SubtitleLine(0, 1500)])
  ]

  /** Mochi cuts in twice; the first glitch cut has no subtitles. */
  const Interruption: seq<Section> := [
    Section("leti-interrupted", 3000, [SubtitleLine(0, 2500)]),
    Section("mochi-glitch", 2000, []),
    Section("leti-comeback", 2000, [SubtitleLine(0, 1500)]),
    Section("mochi-glitch-2", 5000, [SubtitleLine(0, 2000), SubtitleLine(2000, 1500), SubtitleLine(3500, 1500)])
  ]

  const Loop: seq<Section> := [
    Section("loop-zoom", 4000, [SubtitleLine(2000, 2000)])
  ]

  /** `SECTIONS`, in story order. */
  const Sections: seq<Section> := Opening + StarryAndRus + MatanAndDemi + LetiAndMochi + Interruption + Loop

  /** `SECTIONS.map((s) => Math.round(s.durationSec * FPS))`. */
  function SectionFrames(ss: seq<Section>): (r: seq<int>)
    ensures |r| == |ss|
  {
    seq(|ss|, i requires 0 <= i < |ss| => FramesAt24(ss[i].durMs))
  }

  /** `LETI_VIDEO_DURATION`: the frames of all sections together. */
  function VideoDuration(ss: seq<Section>): int {
    Sum(SectionFrames(ss))
  }

  /** Each section's frame count is JavaScript's `Math.round` of its
      duration times 24, and is never negative for a non-negative
      duration. */
  lemma SectionFramesAreJsRound(ss: seq<Section>, i: nat)
    requires i < |ss|
    ensures SectionFrames(ss)[i] == JsRound(ExactFrames(ss[i].durMs))
    ensures ss[i].durMs >= 0 ==> SectionFrames(ss)[i] >= 0
  {
    FramesAt24IsJsRound(ss[i].durMs);
  }

  lemma SectionFramesAppend(a: seq<Section>, b: seq<Section>)
    ensures SectionFrames(a + b) == SectionFrames(a) + SectionFrames(b)
    ensures VideoDuration(a + b) == VideoDuration(a) + VideoDuration(b)
  {
    assert SectionFrames(a + b) == SectionFrames(a) + SectionFrames(b);
    SumAppend(SectionFrames(a), SectionFrames(b));
  }

  lemma OpeningFrames()
    ensures |Opening| == 3 && VideoDuration(Opening) == 456
  {
    assert SectionFrames(Opening) == [192, 96, 168];
  }

  lemma StarryAndRusFrames()
    ensures |StarryAndRus| == 4 && VideoDuration(StarryAndRus) == 384
  {
    assert SectionFrames(StarryAndRus) == [72, 144, 72, 96];
  }

  lemma MatanAndDemiFrames()
    ensures |MatanAndDemi| == 4 && VideoDuration(MatanAndDemi) == 408
  {
    assert SectionFrames(MatanAndDemi) == [72, 120, 72, 144];
  }

  lemma LetiAndMochiFrames()
    ensures |LetiAndMochi| == 2 && VideoDuration(LetiAndMochi) == 192
  {
    assert SectionFrames(LetiAndMochi) == [96, 96];
  }

  lemma InterruptionFrames()
    ensures |Interruption| == 4 && VideoDuration(Interruption) == 288
  {
    assert SectionFrames(Interruption) == [72, 48, 48, 120];
  }

  lemma LoopFrames()
    ensures |Loop| == 1 && VideoDuration(Loop) == 96
  {
    assert SectionFrames(Loop) == [96];
  }

  /** Eighteen sections of 76 seconds: 1824 frames. */
  lemma LetiVideoDuration()
    ensures |Sections| == 18 && VideoDuration(Sections) == 1824
  {
    OpeningFrames();
    StarryAndRusFrames();
    MatanAndDemiFrames();
    LetiAndMochiFrames();
    InterruptionFrames();
    LoopFrames();
    var a := Opening + StarryAndRus;
    var b := a + MatanAndDemi;
    var c := b + LetiAndMochi;
    var d := c + Interruption;
    SectionFramesAppend(Opening, StarryAndRus);
    SectionFramesAppend(a, MatanAndDemi);
    SectionFramesAppend(b, LetiAndMochi);
    SectionFramesAppend(c, Interruption);
    SectionFramesAppend(d, Loop);
  }

  /** The props of one `<Sequence>` and of the `SectionCard` inside it. */
  datatype SequenceProps = SequenceProps(key: string, from: int, durationInFrames: int, sectionStartFrame: int)

  /** The composition's loop: each section's Sequence starts at the
      running frame counter, lasts the section's frames, and hands its
      start to the card as `sectionStartFrame`. */
  method LetiAISelvesVideo(sections: seq<Section>) returns (sequences: seq<SequenceProps>)
    ensures |sequences| == |sections|
    ensures forall i :: 0 <= i < |sections| ==>
      sequences[i] == SequenceProps(sections[i].id, Starts(SectionFrames(sections))[i],
                                    SectionFrames(sections)[i], Starts(SectionFrames(sections))[i])
  {
    var sectionFrames := SectionFrames(sections);
    var currentFrame := 0;
    sequences := [];
    var i := 0;
    while i < |sections|
      invariant 0 <= i <= |sections|
      invariant currentFrame == Sum(sectionFrames[..i])
      invariant |sequences| == i
      invariant forall k :: 0 <= k < i ==>
        sequences[k] == SequenceProps(sections[k].id, Starts(sectionFrames)[k], sectionFrames[k], Starts(sectionFrames)[k])
    {
      var startFrame := currentFrame;
      var duration := sectionFrames[i];
      currentFrame := currentFrame + duration;
      SumTake(sectionFrames, i);
      sequences := sequences + [SequenceProps(sections[i].id, startFrame, duration, startFrame)];
      i := i + 1;
    }
  }

  /** The sections of the video are contiguous: the first starts at frame
      0, each starts where the one before ends, the last ends at
      `LETI_VIDEO_DURATION`, and every frame of the video shows exactly one
      section. */
  lemma SectionsContiguous(f: int)
    requires 0 <= f < VideoDuration(Sections)
    ensures Starts(SectionFrames(Sections))[0] == 0
    ensures forall i :: 0 <= i < 17 ==>
      Starts(SectionFrames(Sections))[i] + SectionFrames(Sections)[i] == Starts(SectionFrames(Sections))[i + 1]
    ensures Starts(SectionFrames(Sections))[17] + SectionFrames(Sections)[17] == 1824
    ensures exists i :: Active(SectionFrames(Sections), i, f)
    ensures forall i, j :: Active(SectionFrames(Sections), i, f) && Active(SectionFrames(Sections), j, f) ==> i == j
  {
    var fr := SectionFrames(Sections);
    LetiVideoDuration();
    Tiling(fr);
    assert NonNegative(fr) by {
      forall i | 0 <= i < |fr| ensures fr[i] >= 0 {
        assert Sections[i].durMs >= 0 by { DurationsNonNegative(i); }
      }
    }
    ActiveExists(fr, f);
    forall i, j | Active(fr, i, f) && Active(fr, j, f) ensures i == j {
      ActiveUnique(fr, i, j, f);
    }
  }

  lemma DurationsNonNegative(i: nat)
    requires i < |Sections|
    ensures Sections[i].durMs >= 0
  {
  }

  /** `Subtitle`'s window: `startFrame = sectionStartFrame +
      Math.round(line.startSec * FPS)` and `endFrame = startFrame +
      Math.round(line.durationSec * FPS)`. */
  function SubtitleStart(line: SubtitleLine, sectionStartFrame: int): int {
    sectionStartFrame + FramesAt24(line.startMs)
  }

  function SubtitleEnd(line: SubtitleLine, sectionStartFrame: int): int {
    SubtitleStart(line, sectionStartFrame) + FramesAt24(line.durMs)
  }

  /** `Subtitle` renders its text unless `frame < startFrame || frame >= endFrame`. */
  predicate SubtitleRenders(line: SubtitleLine, sectionStartFrame: int, frame: int) {
    !(frame < SubtitleStart(line, sectionStartFrame) || frame >= SubtitleEnd(line, sectionStartFrame))
  }

  /** The subtitle's window is half open: it renders from its rounded start
      up to, but not including, its rounded start plus its rounded
      duration. */
  lemma SubtitleWindow(line: SubtitleLine, sectionStartFrame: int, frame: int)
    ensures SubtitleRenders(line, sectionStartFrame, frame) <==>
      var start := sectionStartFrame + JsRound(ExactFrames(line.startMs));
      start <= frame < start + JsRound(ExactFrames(line.durMs))
  {
    FramesAt24IsJsRound(line.startMs);
    FramesAt24IsJsRound(line.durMs);
  }

  /** What `useCurrentFrame()` returns inside `<Sequence from={from}
      durationInFrames={dur}>` at frame `g` of the video: nothing while the
      Sequence's children are not mounted, and otherwise the frame counted
      from the Sequence's start. */
  function SequenceFrame(from: int, dur: int, g: int): (r: Option<int>)
    ensures r.Some? <==> from <= g < from + dur
    ensures r.Some? ==> 0 <= r.value < dur && from + r.value == g
  {
    if from <= g < from + dur then Some(g - from) else None
  }

  /** Subtitle `j` of section `i` as the composition is written: its
      Sequence hands it the absolute `sectionStartFrame`, but its frame is
      counted from the Sequence's start. */
  predicate ShownAsWritten(ss: seq<Section>, i: nat, j: nat, g: int)
    requires i < |ss| && j < |ss[i].subtitles|
  {
    var fr := SectionFrames(ss);
    match SequenceFrame(Starts(fr)[i], fr[i], g)
    case None => false
    case Some(local) => SubtitleRenders(ss[i].subtitles[j], Starts(fr)[i], local)
  }

  /** As written, a section that starts no earlier than its own length (in
      this video, every section after the first) never shows a subtitle
      with a non-negative offset: its frame never reaches the window. */
  lemma LaterSubtitlesHiddenAsWritten(ss: seq<Section>, i: nat, j: nat, g: int)
    requires i < |ss| && j < |ss[i].subtitles| && ss[i].subtitles[j].startMs >= 0
    requires Starts(SectionFrames(ss))[i] >= SectionFrames(ss)[i]
    ensures !ShownAsWritten(ss, i, j, g)
  {
  }

  /** The first subtitle of "anthony-intro", due at 8 s, never appears as
      the composition is written. */
  lemma AnthonyIntroNeverSubtitledAsWritten(g: int)
    ensures !ShownAsWritten(Sections, 1, 0, g)
  {
    assert Sections[..2] == Opening[..2];
    var fr := SectionFrames(Sections);
    assert fr[0] == 192 && fr[1] == 96;
    assert fr[..1] == [192];
    assert Sum(fr[..1]) == 192;
    assert Starts(fr)[1] == 192;
    LaterSubtitlesHiddenAsWritten(Sections, 1, 0, g);
  }

  /** Subtitle `j` of section `i` with its window counted, like its frame,
      from the start of its Sequence: `sectionStartFrame` 0. */
  predicate Shown(ss: seq<Section>, i: nat, j: nat, g: int)
    requires i < |ss| && j < |ss[i].subtitles|
  {
    var fr := SectionFrames(ss);
    match SequenceFrame(Starts(fr)[i], fr[i], g)
    case None => false
    case Some(local) => SubtitleRenders(ss[i].subtitles[j], 0, local)
  }

  /** A subtitle that lies within its section is shown exactly in the
      absolute window of the video: from the section's start plus the
      line's rounded start, for the line's rounded duration. */
  lemma ShownWindow(ss: seq<Section>, i: nat, j: nat, g: int)
    requires i < |ss| && j < |ss[i].subtitles|
    requires var line := ss[i].subtitles[j];
      line.startMs >= 0 && line.durMs >= 0 && SubtitleEnd(line, 0) <= SectionFrames(ss)[i]
    ensures Shown(ss, i, j, g) <==>
      var line, start := ss[i].subtitles[j], Starts(SectionFrames(ss))[i];
      start + JsRound(ExactFrames(line.startMs)) <= g < start + JsRound(ExactFrames(line.startMs)) + JsRound(ExactFrames(line.durMs))
  {
    var line := ss[i].subtitles[j];
    FramesAt24IsJsRound(line.startMs);
    FramesAt24IsJsRound(line.durMs);
  }

  /** Counted from its Sequence, the first subtitle of "anthony-intro"
      appears at frame 192, the first frame of its section. */
  lemma AnthonyIntroSubtitled()
    ensures Shown(Sections, 1, 0, 192)
  {
    assert Sections[..2] == Opening[..2];
    var fr := SectionFrames(Sections);
    assert fr[0] == 192 && fr[1] == 96;
    assert fr[..1] == [192];
    assert Sum(fr[..1]) == 192;
    assert Starts(fr)[1] == 192;
  }

  /** As written, subtitle `j` of section `i` shows at video frame `g`
      exactly when `g` falls in the section's Sequence and the frame
      counted from the Sequence's start lies in the window offset by the
      section's absolute start: the start is counted twice. */
  lemma ShownAsWrittenWindow(ss: seq<Section>, i: nat, j: nat, g: int)
    requires i < |ss| && j < |ss[i].subtitles|
    ensures ShownAsWritten(ss, i, j, g) <==>
      var line, start, len := ss[i].subtitles[j], Starts(SectionFrames(ss))[i], SectionFrames(ss)[i];
      && start <= g < start + len
      && start + JsRound(ExactFrames(line.startMs)) <= g - start
      && g - start < start + JsRound(ExactFrames(line.startMs)) + JsRound(ExactFrames(line.durMs))
  {
    var line := ss[i].subtitles[j];
    FramesAt24IsJsRound(line.startMs);
    FramesAt24IsJsRound(line.durMs);
  }

  /** Counted from its Sequence, subtitle `j` of section `i` shows at video
      frame `g` exactly when `g` falls in the section's Sequence and in the
      line's absolute window. */
  lemma ShownWhileMounted(ss: seq<Section>, i: nat, j: nat, g: int)
    requires i < |ss| && j < |ss[i].subtitles|
    ensures Shown(ss, i, j, g) <==>
      var line, start, len := ss[i].subtitles[j], Starts(SectionFrames(ss))[i], SectionFrames(ss)[i];
      && start <= g < start + len
      && start + JsRound(ExactFrames(line.startMs)) <= g
      && g < start + JsRound(ExactFrames(line.startMs)) + JsRound(ExactFrames(line.durMs))
  {
    var line := ss[i].subtitles[j];
    FramesAt24IsJsRound(line.startMs);
    FramesAt24IsJsRound(line.durMs);
  }

  /** The indices of the lines `SectionCard` overlays at video frame `g`,
      as the composition is written. */
  function VisibleLines(ss: seq<Section>, i: nat, g: int): (r: set<nat>)
    requires i < |ss|
    ensures forall j: nat :: j in r <==>
      && j < |ss[i].subtitles|
      && var line, start, len := ss[i].subtitles[j], Starts(SectionFrames(ss))[i], SectionFrames(ss)[i];
         && start <= g < start + len
         && start + JsRound(ExactFrames(line.startMs)) <= g - start
         && g - start < start + JsRound(ExactFrames(line.startMs)) + JsRound(ExactFrames(line.durMs))
  {
    assert forall j: nat | j < |ss[i].subtitles| :: ShownAsWritten(ss, i, j, g) <==>
      var line, start, len := ss[i].subtitles[j], Starts(SectionFrames(ss))[i], SectionFrames(ss)[i];
      && start <= g < start + len
      && start + JsRound(ExactFrames(line.startMs)) <= g - start
      && g - start < start + JsRound(ExactFrames(line.startMs)) + JsRound(ExactFrames(line.durMs))
    by {
      forall j: nat | j < |ss[i].subtitles| {
        ShownAsWrittenWindow(ss, i, j, g);
      }
    }
    set j: nat | j < |ss[i].subtitles| && ShownAsWritten(ss, i, j, g)
  }

  /** The lines section `i` overlays at video frame `g` with each window
      counted from the section's own first frame. */
  function IntendedVisibleLines(ss: seq<Section>, i: nat, g: int): (r: set<nat>)
    requires i < |ss|
    ensures forall j: nat :: j in r <==>
      && j < |ss[i].subtitles|
      && var line, start, len := ss[i].subtitles[j], Starts(SectionFrames(ss))[i], SectionFrames(ss)[i];
         && start <= g < start + len
         && start + JsRound(ExactFrames(line.startMs)) <= g
         && g < start + JsRound(ExactFrames(line.startMs)) + JsRound(ExactFrames(line.durMs))
  {
    assert forall j: nat | j < |ss[i].subtitles| :: Shown(ss, i, j, g) <==>
      var line, start, len := ss[i].subtitles[j], Starts(SectionFrames(ss))[i], SectionFrames(ss)[i];
      && start <= g < start + len
      && start + JsRound(ExactFrames(line.startMs)) <= g
      && g < start + JsRound(ExactFrames(line.startMs)) + JsRound(ExactFrames(line.durMs))
    by {
      forall j: nat | j < |ss[i].subtitles| {
        ShownWhileMounted(ss, i, j, g);
      }
    }
    set j: nat | j < |ss[i].subtitles| && Shown(ss, i, j, g)
  }

  /** As written, a section that starts no earlier than its own length
      overlays nothing at any frame, when no line has a negative offset. */
  lemma LaterSectionSilentAsWritten(ss: seq<Section>, i: nat, g: int)
    requires i < |ss| && Starts(SectionFrames(ss))[i] >= SectionFrames(ss)[i]
    requires forall j :: 0 <= j < |ss[i].subtitles| ==> ss[i].subtitles[j].startMs >= 0
    ensures VisibleLines(ss, i, g) == {}
  {
    forall j: nat | j < |ss[i].subtitles|
      ensures !ShownAsWritten(ss, i, j, g)
    {
      LaterSubtitlesHiddenAsWritten(ss, i, j, g);
    }
  }

  /** The first section starts at frame 0, so for it the written and the
      intended overlays agree. */
  lemma FirstSectionUnaffected(ss: seq<Section>, g: int)
    requires |ss| > 0
    ensures VisibleLines(ss, 0, g) == IntendedVisibleLines(ss, 0, g)
  {
    Tiling(SectionFrames(ss));
  }

  /** In this video every section after the first overlays nothing, at any
      frame, as the composition is written. */
  lemma OnlyIntroSubtitledAsWritten(i: nat, g: int)
    requires 1 <= i < |Sections|
    ensures VisibleLines(Sections, i, g) == {}
  {
    var fr := SectionFrames(Sections);
    assert Sections[..2] == Opening[..2];
    assert fr[0] == 192;
    assert fr[..1] == [192];
    assert Sum(fr[..1]) == 192;
    assert NonNegative(fr[1..i]) by {
      forall k | 0 <= k < |fr[1..i]| ensures fr[1..i][k] >= 0 {
        DurationsNonNegative(k + 1);
      }
    }
    StartsGap(fr, 1, i);
    SumNonNegative(fr[1..i]);
    DurationAtMostIntro(i);
    forall j | 0 <= j < |Sections[i].subtitles| ensures Sections[i].subtitles[j].startMs >= 0 {
      SubtitleOffsetsNonNegative(i, j);
    }
    LaterSectionSilentAsWritten(Sections, i, g);
  }

  /** No section is longer than the 8-second intro, 192 frames. */
  lemma DurationAtMostIntro(i: nat)
    requires i < |Sections|
    ensures Sections[i].durMs <= 8000 && SectionFrames(Sections)[i] <= 192
  {
  }

  lemma SubtitleOffsetsNonNegative(i: nat, j: nat)
    requires i < |Sections| && j < |Sections[i].subtitles|
    ensures Sections[i].subtitles[j].startMs >= 0
  {
  }

  /** A section without subtitles overlays nothing, at any frame, either
      way, yet keeps its place and length on the timeline. */
  lemma EmptySectionSilent(ss: seq<Section>, i: nat, g: int)
    requires i < |ss| && ss[i].subtitles == []
    ensures VisibleLines(ss, i, g) == {} && IntendedVisibleLines(ss, i, g) == {}
    ensures Active(SectionFrames(ss), i, g) <==>
      Starts(SectionFrames(ss))[i] <= g < Starts(SectionFrames(ss))[i] + FramesAt24(ss[i].durMs)
  {
  }

  /** "mochi-glitch" is the section without subtitles: two seconds, 48
      frames, of the video. */
  lemma MochiGlitch()
    ensures Sections[14].id == "mochi-glitch" && Sections[14].subtitles == []
    ensures SectionFrames(Sections)[14] == 48
  {
    assert |Opening + StarryAndRus + MatanAndDemi + LetiAndMochi| == 13;
  }
}
