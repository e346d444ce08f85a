/** The storyboard both export scripts share: an ordered list of sections,
    each with a duration and timed captions, laid end to end at 24 frames
    per second. Everything the exporters emit is derived from the running
    offsets defined here. */
module Storyboard {
  import opened Rounding
  import opened Seqs

  /** FPS and TIMEBASE in both scripts. */
  const FPS: int := 24

  /** A caption: start and duration relative to its section, in whole
      milliseconds (every time in both storyboards is a multiple of 0.1 s). */
  datatype Caption = Caption(start: int, dur: int, text: string)

  /** A section, its duration in milliseconds; `title` holds the script's
      `label` (a reserved word here). */
  datatype Section = Section(id: string, title: string, dur: int, subs: seq<Caption>)

  /** `sec_to_frames(s) = int(round(s * FPS))` for a time of `ms`
      milliseconds: the frame count less than half a frame away (lemma
      Rounding.FramesAt24IsPythonRound shows it is Python's `round`). */
  function SecToFrames(ms: int): (r: int)
    ensures -125 < 2 * (3 * ms - 125 * r) < 125
  {
    FramesAt24(ms)
  }

  /** Sum of the section durations in milliseconds. */
  function TotalMillis(ss: seq<Section>): int {
    if |ss| == 0 then 0 else ss[0].dur + TotalMillis(ss[1..])
  }

  /** Sum of the per-section frame counts, each rounded on its own. */
  function TotalFrames(ss: seq<Section>): int {
    if |ss| == 0 then 0 else SecToFrames(ss[0].dur) + TotalFrames(ss[1..])
  }

  /** Number of captions over all sections. */
  function CaptionCount(ss: seq<Section>): nat {
    if |ss| == 0 then 0 else |ss[0].subs| + CaptionCount(ss[1..])
  }

  lemma {:induction false} TotalsSnoc(ss: seq<Section>, s: Section)
    ensures TotalMillis(ss + [s]) == TotalMillis(ss) + s.dur
    ensures TotalFrames(ss + [s]) == TotalFrames(ss) + SecToFrames(s.dur)
    ensures CaptionCount(ss + [s]) == CaptionCount(ss) + |s.subs|
  {
    if |ss| > 0 {
      ConsAppend(ss, [s]);
      TotalsSnoc(ss[1..], s);
    }
  }

  /** A storyboard's figures: sections, milliseconds, frames and captions. */
  datatype Totals = Totals(sections: int, millis: int, frames: int, captions: int)

  function TotalsOf(ss: seq<Section>): Totals {
    Totals(|ss|, TotalMillis(ss), TotalFrames(ss), CaptionCount(ss))
  }

  /** Rounding every section on its own drifts from the exact frame count
      of the whole by at most half a frame per section: 2 * (exact - frames)
      lies within +-|ss| frames, strictly once there is a section. */
  lemma {:induction false} FramesDrift(ss: seq<Section>)
    ensures -125 * |ss| <= 2 * (3 * TotalMillis(ss) - 125 * TotalFrames(ss)) <= 125 * |ss|
    ensures |ss| > 0 ==> -125 * |ss| < 2 * (3 * TotalMillis(ss) - 125 * TotalFrames(ss)) < 125 * |ss|
  {
    if |ss| > 0 {
      FramesDrift(ss[1..]);
    }
  }

  /** The totals of two storyboards played one after the other add up. */
  lemma {:induction false} TotalsAppend(a: seq<Section>, b: seq<Section>)
    ensures TotalMillis(a + b) == TotalMillis(a) + TotalMillis(b)
    ensures TotalFrames(a + b) == TotalFrames(a) + TotalFrames(b)
    ensures CaptionCount(a + b) == CaptionCount(a) + CaptionCount(b)
  {
    if |a| == 0 {
      EmptyAppend(a, b);
    } else {
      ConsAppend(a, b);
      TotalsAppend(a[1..], b);
    }
  }

  /** The same for a storyboard in six and in eight parts. */
  lemma TotalsOfSix(a: seq<Section>, b: seq<Section>, c: seq<Section>, d: seq<Section>, e: seq<Section>, f: seq<Section>)
    ensures TotalMillis(a + b + c + d + e + f) == TotalMillis(a) + TotalMillis(b) + TotalMillis(c) + TotalMillis(d) + TotalMillis(e) + TotalMillis(f)
    ensures TotalFrames(a + b + c + d + e + f) == TotalFrames(a) + TotalFrames(b) + TotalFrames(c) + TotalFrames(d) + TotalFrames(e) + TotalFrames(f)
    ensures CaptionCount(a + b + c + d + e + f) == CaptionCount(a) + CaptionCount(b) + CaptionCount(c) + CaptionCount(d) + CaptionCount(e) + CaptionCount(f)
  {
    TotalsAppend(a, b);
    TotalsAppend(a + b, c);
    TotalsAppend(a + b + c, d);
    TotalsAppend(a + b + c + d, e);
    TotalsAppend(a + b + c + d + e, f);
  }

  lemma TotalsOfEight(a: seq<Section>, b: seq<Section>, c: seq<Section>, d: seq<Section>,
                      e: seq<Section>, f: seq<Section>, g: seq<Section>, h: seq<Section>)
    ensures var all := a + b + c + d + e + f + g + h;
      && TotalMillis(all) == TotalMillis(a) + TotalMillis(b) + TotalMillis(c) + TotalMillis(d)
                           + TotalMillis(e) + TotalMillis(f) + TotalMillis(g) + TotalMillis(h)
      && TotalFrames(all) == TotalFrames(a) + TotalFrames(b) + TotalFrames(c) + TotalFrames(d)
                           + TotalFrames(e) + TotalFrames(f) + TotalFrames(g) + TotalFrames(h)
      && CaptionCount(all) == CaptionCount(a) + CaptionCount(b) + CaptionCount(c) + CaptionCount(d)
                            + CaptionCount(e) + CaptionCount(f) + CaptionCount(g) + CaptionCount(h)
  {
    TotalsOfSix(a, b, c, d, e, f);
    TotalsAppend(a + b + c + d + e + f, g);
    TotalsAppend(a + b + c + d + e + f + g, h);
  }

  /** A caption together with the absolute start of its section, in milliseconds
      (the subtitle file's running offset) and in frames (the project
      file's running offset). */
  datatype Placed = Placed(sectionMs: int, sectionFrame: int, caption: Caption) {
    /** Absolute caption start and end in milliseconds. */
    function StartMs(): int { sectionMs + caption.start }
    function EndMs(): int { StartMs() + caption.dur }
    /** Absolute caption start frame and length in frames. */
    function StartFrame(): int { sectionFrame + SecToFrames(caption.start) }
    function Frames(): int { SecToFrames(caption.dur) }
  }

  function PlaceCaptions(subs: seq<Caption>, ms: int, frame: int): (r: seq<Placed>)
  {
    seq(|subs|, j requires 0 <= j < |subs| => Placed(ms, frame, subs[j]))
  }

  lemma PlaceCaptionsSnoc(subs: seq<Caption>, j: nat, ms: int, frame: int)
    requires j < |subs|
    ensures PlaceCaptions(subs[..j + 1], ms, frame) == PlaceCaptions(subs[..j], ms, frame) + [Placed(ms, frame, subs[j])]
  {
    var a := PlaceCaptions(subs[..j + 1], ms, frame);
    var b := PlaceCaptions(subs[..j], ms, frame) + [Placed(ms, frame, subs[j])];
    assert |a| == |b|;
    forall k | 0 <= k < |a| ensures a[k] == b[k] {
      assert subs[..j + 1][k] == subs[k];
    }
  }

  /** The captions of `ss` in section-then-caption order, the sections laid
      out from offset (`ms`, `frame`). */
  function PlaceAll(ss: seq<Section>, ms: int, frame: int): seq<Placed> {
    if |ss| == 0 then []
    else PlaceCaptions(ss[0].subs, ms, frame) + PlaceAll(ss[1..], ms + ss[0].dur, frame + SecToFrames(ss[0].dur))
  }

  /** The timeline from offset 0. */
  function Placements(ss: seq<Section>): seq<Placed> {
    PlaceAll(ss, 0, 0)
  }

  /** Laying out one more section appends its captions at the offset the
      earlier sections reach, whether or not it has any. */
  lemma PlaceAllSnoc(ss: seq<Section>, s: Section, ms: int, frame: int)
    ensures PlaceAll(ss + [s], ms, frame)
         == PlaceAll(ss, ms, frame) + PlaceCaptions(s.subs, ms + TotalMillis(ss), frame + TotalFrames(ss))
  {
    var ms', frame' := ms + TotalMillis(ss), frame + TotalFrames(ss);
    PlaceAllSplit(ss, [s], ms, frame, ms', frame');
    assert PlaceAll([s], ms', frame') == PlaceCaptions(s.subs, ms', frame') + PlaceAll([], ms' + s.dur, frame' + SecToFrames(s.dur));
  }

  /** The caption timeline has one entry per caption, and caption `j` of
      section `i` sits right after the captions of the earlier sections,
      offset by the earlier sections' total duration. */
  lemma {:induction false} PlaceAllAt(ss: seq<Section>, ms: int, frame: int, i: nat, j: nat)
    requires i < |ss| && j < |ss[i].subs|
    ensures |PlaceAll(ss, ms, frame)| == CaptionCount(ss)
    ensures CaptionCount(ss[..i]) + j < CaptionCount(ss)
    ensures PlaceAll(ss, ms, frame)[CaptionCount(ss[..i]) + j]
         == Placed(ms + TotalMillis(ss[..i]), frame + TotalFrames(ss[..i]), ss[i].subs[j])
  {
    PlaceAllLength(ss, ms, frame);
    if i == 0 {
      assert ss[..0] == [];
    } else {
      var rest := ss[1..];
      assert ss[..i] == [ss[0]] + rest[..i - 1];
      assert ss[..i][1..] == rest[..i - 1];
      PlaceAllAt(rest, ms + ss[0].dur, frame + SecToFrames(ss[0].dur), i - 1, j);
    }
  }

  lemma {:induction false} PlaceAllLength(ss: seq<Section>, ms: int, frame: int)
    ensures |PlaceAll(ss, ms, frame)| == CaptionCount(ss)
  {
    if |ss| > 0 {
      PlaceAllLength(ss[1..], ms + ss[0].dur, frame + SecToFrames(ss[0].dur));
    }
  }

  /** The same for the timeline from offset 0. */
  lemma PlacementAt(ss: seq<Section>, i: nat, j: nat)
    requires i < |ss| && j < |ss[i].subs|
    ensures |Placements(ss)| == CaptionCount(ss)
    ensures CaptionCount(ss[..i]) + j < CaptionCount(ss)
    ensures Placements(ss)[CaptionCount(ss[..i]) + j]
         == Placed(TotalMillis(ss[..i]), TotalFrames(ss[..i]), ss[i].subs[j])
  {
    PlaceAllAt(ss, 0, 0, i, j);
  }

  /** A section without captions adds nothing to the caption timeline but
      still moves the offsets of every later section by its duration. */
  lemma EmptySectionStillAdvances(ss: seq<Section>, s: Section, rest: seq<Section>)
    requires s.subs == []
    ensures Placements(ss + [s] + rest) == Placements(ss) + PlaceAll(rest, TotalMillis(ss) + s.dur, TotalFrames(ss) + SecToFrames(s.dur))
  {
    TotalsSnoc(ss, s);
    PlaceAllSnoc(ss, s, 0, 0);
    PlaceAllSplit(ss + [s], rest, 0, 0, TotalMillis(ss) + s.dur, TotalFrames(ss) + SecToFrames(s.dur));
    EmptyAppend(PlaceCaptions(s.subs, TotalMillis(ss), TotalFrames(ss)), Placements(ss));
  }

  /** Laying out `a + b` is laying out `a`, then `b` from where `a` ends. */
  lemma {:induction false} PlaceAllSplit(a: seq<Section>, b: seq<Section>, ms: int, frame: int, endMs: int, endFrame: int)
    requires endMs == ms + TotalMillis(a) && endFrame == frame + TotalFrames(a)
    ensures PlaceAll(a + b, ms, frame) == PlaceAll(a, ms, frame) + PlaceAll(b, endMs, endFrame)
  {
    if |a| == 0 {
      EmptyAppend(a, b);
      EmptyAppend(PlaceAll(a, ms, frame), PlaceAll(b, endMs, endFrame));
    } else {
      var ms', frame' := ms + a[0].dur, frame + SecToFrames(a[0].dur);
      var head, rest := PlaceCaptions(a[0].subs, ms, frame), a[1..];
      ConsAppend(a, b);
      assert PlaceAll(a + b, ms, frame) == head + PlaceAll(rest + b, ms', frame');
      PlaceAllSplit(rest, b, ms', frame', endMs, endFrame);
      Assoc(head, PlaceAll(rest, ms', frame'), PlaceAll(b, endMs, endFrame));
    }
  }
}
