/** `generate_srt` of scripts/gen-premiere-package.py: one subtitle cue per
    caption, numbered from 1, with absolute `HH:MM:SS,mmm` timestamps. */
module PremiereSrt {
  import opened Wrappers
  import opened Decimal
  import opened Text
  import opened Seqs
  import opened Storyboard

  /** The four timestamp fields the script computes. */
  datatype Timestamp = Timestamp(h: int, m: int, s: int, ms: int)

  predicate InRange(ts: Timestamp) {
    0 <= ts.m < 60 && 0 <= ts.s < 60 && 0 <= ts.ms < 1000
  }

  /** The timestamp as a count of whole milliseconds. */
  function Millis(ts: Timestamp): int {
    ts.h * 3600000 + ts.m * 60000 + ts.s * 1000 + ts.ms
  }

  /** `t // 3600`, `(t % 3600) // 60`, `t % 60` and `(t % 1) * 1000`, each
      truncated by `int(...)`, as the script computes them from a time of
      `t` seconds, with Python's float `x % m` written out as
      `x - m * floor(x / m)`: the time in whole hours, minutes, seconds and
      milliseconds, the milliseconds truncated rather than rounded. */
  function ScriptTimestamp(t: real): (ts: Timestamp)
    ensures InRange(ts)
    ensures Millis(ts) == (t * 1000.0).Floor
  {
    var h := (t / 3600.0).Floor;
    var m := ((t - 3600.0 * (t / 3600.0).Floor as real) / 60.0).Floor;
    var s := (t - 60.0 * (t / 60.0).Floor as real).Floor;
    var ms := ((t - t.Floor as real) * 1000.0).Floor;
    assert (t / 60.0).Floor == 60 * h + m;
    assert s == t.Floor - 60 * (t / 60.0).Floor;
    assert ms == (t * 1000.0).Floor - 1000 * t.Floor;
    Timestamp(h, m, s, ms)
  }

  /** The same four fields for a time of `n` whole milliseconds: the
      milliseconds past the second, then the seconds past the minute, the
      minutes past the hour and the hours. */
  function FromMillis(n: int): Timestamp {
    Timestamp(n / 1000 / 60 / 60, n / 1000 / 60 % 60, n / 1000 % 60, n % 1000)
  }

  /** The fields are in range and add up to `n` again. */
  lemma FromMillisFacts(n: int)
    ensures InRange(FromMillis(n)) && Millis(FromMillis(n)) == n
  {
    var secs := n / 1000;
    var mins := secs / 60;
    assert n == 1000 * secs + n % 1000;
    assert secs == 60 * mins + secs % 60;
    assert mins == 60 * (mins / 60) + mins % 60;
  }

  /** In-range fields are determined by the milliseconds they add up to. */
  lemma MillisInjective(a: Timestamp, b: Timestamp)
    requires InRange(a) && InRange(b) && Millis(a) == Millis(b)
    ensures a == b
  {
    var x := 60 * (60 * a.h + a.m) + a.s;
    var y := 60 * (60 * b.h + b.m) + b.s;
    assert 1000 * x + a.ms == 1000 * y + b.ms;
    assert x == y;
    assert 60 * (60 * a.h + a.m) + a.s == 60 * (60 * b.h + b.m) + b.s;
    assert 60 * a.h + a.m == 60 * b.h + b.m;
  }

  /** For a time of `n` milliseconds, the fields the script computes one by
      one from the seconds are those of FromMillis. */
  lemma ScriptTimestampAtMillis(n: int)
    ensures ScriptTimestamp(n as real / 1000.0) == FromMillis(n)
  {
    var t := n as real / 1000.0;
    assert t * 1000.0 == n as real;
    FromMillisFacts(n);
    MillisInjective(ScriptTimestamp(t), FromMillis(n));
  }

  /** `f"{h:02d}:{m:02d}:{s:02d},{ms:03d}"`. */
  function FormatTimestamp(ts: Timestamp): string {
    ZeroPadded(ts.h, 2) + ":" + ZeroPadded(ts.m, 2) + ":" + ZeroPadded(ts.s, 2) + "," + ZeroPadded(ts.ms, 3)
  }

  /** Reads a timestamp back: the hours are everything before the fixed
      ten-character tail ":MM:SS,mmm". */
  function ParseTimestamp(str: string): Option<Timestamp> {
    if |str| < 11 then None
    else
      var n := |str|;
      var h := ParseInt(str[..n - 10]);
      var m := ParseInt(str[n - 9..n - 7]);
      var s := ParseInt(str[n - 6..n - 4]);
      var ms := ParseInt(str[n - 3..]);
      if str[n - 10] == ':' && str[n - 7] == ':' && str[n - 4] == ','
        && h.Some? && m.Some? && s.Some? && ms.Some?
        && IsDigits(str[n - 9..n - 7]) && IsDigits(str[n - 6..n - 4]) && IsDigits(str[n - 3..])
      then Some(Timestamp(h.value, m.value, s.value, ms.value))
      else None
  }

  lemma PaddedWidth(n: int, width: nat)
    requires 0 <= n && 1 <= width && n < Pow10(width)
    ensures |ZeroPadded(n, width)| == width
    ensures IsDigits(ZeroPadded(n, width))
  {
    NatDigitsLength(n, width);
    NatDigitsFacts(n);
    ZeroPaddedFacts(n, width);
    PaddedDigitsFacts(n, width - |NatDigits(n)|);
    assert ZeroPadded(n, width) == Repeat('0', width - |NatDigits(n)|) + NatDigits(n);
  }

  /** Reading a formatted timestamp gives back its fields. */
  lemma TimestampRoundTrip(ts: Timestamp)
    requires InRange(ts)
    ensures ParseTimestamp(FormatTimestamp(ts)) == Some(ts)
  {
    assert Pow10(2) == 100 && Pow10(3) == 1000;
    PaddedWidth(ts.m, 2);
    PaddedWidth(ts.s, 2);
    PaddedWidth(ts.ms, 3);
    ZeroPaddedFacts(ts.h, 2);
    ZeroPaddedRoundTrip(ts.h, 2);
    ZeroPaddedRoundTrip(ts.m, 2);
    ZeroPaddedRoundTrip(ts.s, 2);
    ZeroPaddedRoundTrip(ts.ms, 3);
    ParseFields(ZeroPadded(ts.h, 2), ZeroPadded(ts.m, 2), ZeroPadded(ts.s, 2), ZeroPadded(ts.ms, 3), ts);
  }

  /** Four fields laid out as `h:mm:ss,mmm`, each reading as its value,
      read back as the timestamp. */
  lemma ParseFields(h: string, m: string, s: string, ms: string, ts: Timestamp)
    requires |h| >= 1 && |m| == 2 && |s| == 2 && |ms| == 3
    requires IsDigits(m) && IsDigits(s) && IsDigits(ms)
    requires ParseInt(h) == Some(ts.h) && ParseInt(m) == Some(ts.m)
    requires ParseInt(s) == Some(ts.s) && ParseInt(ms) == Some(ts.ms)
    ensures ParseTimestamp(h + ":" + m + ":" + s + "," + ms) == Some(ts)
  {
    TimestampSlices(h, m, s, ms);
  }

  /** Where the four fields sit in `h:mm:ss,mmm`. */
  lemma TimestampSlices(h: string, m: string, s: string, ms: string)
    requires |h| >= 1 && |m| == 2 && |s| == 2 && |ms| == 3
    ensures var str := h + ":" + m + ":" + s + "," + ms;
      var n := |str|;
      && n == |h| + 10
      && str[..n - 10] == h && str[n - 10] == ':'
      && str[n - 9..n - 7] == m && str[n - 7] == ':'
      && str[n - 6..n - 4] == s && str[n - 4] == ','
      && str[n - 3..] == ms
  {
  }

  /** The timestamp the file shows for a time of `n` milliseconds. */
  function ShowMillis(n: int): string {
    FormatTimestamp(FromMillis(n))
  }

  /** Reading the shown timestamp back gives the milliseconds again. */
  lemma ShowMillisRoundTrip(n: int)
    ensures ParseTimestamp(ShowMillis(n)).Some?
    ensures Millis(ParseTimestamp(ShowMillis(n)).value) == n
  {
    FromMillisFacts(n);
    TimestampRoundTrip(FromMillis(n));
  }

  /** A subtitle cue: its number, its start and end in milliseconds from the
      beginning of the video, and its text. */
  datatype Cue = Cue(index: int, start: int, end: int, text: string)

  /** The cue written for caption `p` when it is number `k`: from the
      caption's absolute start to its start plus its duration. */
  function CueOf(k: int, p: Placed): Cue {
    Cue(k, p.StartMs(), p.EndMs(), p.caption.text)
  }

  /** The cues for `ps`, numbered from `first`. */
  function Cues(ps: seq<Placed>, first: int): (cs: seq<Cue>)
    ensures |cs| == |ps|
    ensures forall q :: 0 <= q < |ps| ==> cs[q] == CueOf(first + q, ps[q])
  {
    seq(|ps|, q requires 0 <= q < |ps| => CueOf(first + q, ps[q]))
  }

  /** The four lines the script appends for a cue: the number, the timing
      line `start --> end`, the text verbatim and an empty line. */
  function CueLines(c: Cue): seq<string> {
    [IntStr(c.index), ShowMillis(c.start) + " --> " + ShowMillis(c.end), c.text, ""]
  }

  /** The lines of a subtitle file holding `cs`, in order. */
  function Render(cs: seq<Cue>): seq<string> {
    if |cs| == 0 then [] else CueLines(cs[0]) + Render(cs[1..])
  }

  /** The lines `generate_srt` writes for the storyboard `ss`. */
  function SrtLines(ss: seq<Section>): seq<string> {
    Render(Cues(Placements(ss), 1))
  }

  lemma {:induction false} RenderAppend(a: seq<Cue>, b: seq<Cue>)
    ensures Render(a + b) == Render(a) + Render(b)
  {
    if |a| == 0 {
      EmptyAppend(a, b);
      EmptyAppend(Render(a), Render(b));
    } else {
      ConsAppend(a, b);
      RenderAppend(a[1..], b);
      Assoc(CueLines(a[0]), Render(a[1..]), Render(b));
    }
  }

  lemma RenderSnoc(cs: seq<Cue>, c: Cue)
    ensures Render(cs + [c]) == Render(cs) + CueLines(c)
  {
    RenderAppend(cs, [c]);
    assert Render([c]) == CueLines(c) + Render([]);
  }

  /** The cues of one section's captions, the section starting `offset`
      milliseconds in and its first caption numbered `k`. */
  function SectionCues(subs: seq<Caption>, offset: int, k: int): (cs: seq<Cue>)
    ensures |cs| == |subs|
    ensures forall j :: 0 <= j < |subs| ==> cs[j] == CueOf(k + j, Placed(offset, 0, subs[j]))
  {
    seq(|subs|, j requires 0 <= j < |subs| => CueOf(k + j, Placed(offset, 0, subs[j])))
  }

  lemma SectionCuesSnoc(subs: seq<Caption>, j: nat, offset: int, k: int)
    requires j < |subs|
    ensures SectionCues(subs[..j + 1], offset, k) == SectionCues(subs[..j], offset, k) + [CueOf(k + j, Placed(offset, 0, subs[j]))]
  {
    var a := SectionCues(subs[..j + 1], offset, k);
    var b := SectionCues(subs[..j], offset, k) + [CueOf(k + j, Placed(offset, 0, subs[j]))];
    forall q | 0 <= q < |a| ensures a[q] == b[q] {
      assert subs[..j + 1][q] == subs[q];
    }
  }

  /** The cues of a laid-out section do not depend on its frame offset. */
  lemma PlacedSectionCues(subs: seq<Caption>, offset: int, frame: int, k: int)
    ensures Cues(PlaceCaptions(subs, offset, frame), k) == SectionCues(subs, offset, k)
  {
  }

  lemma CuesAppend(a: seq<Placed>, b: seq<Placed>, first: int, next: int)
    requires next == first + |a|
    ensures Cues(a + b, first) == Cues(a, first) + Cues(b, next)
  {
    var x := Cues(a + b, first);
    var y := Cues(a, first) + Cues(b, next);
    forall q | 0 <= q < |x| ensures x[q] == y[q] {
      if q < |a| {
        assert (a + b)[q] == a[q];
      } else {
        assert (a + b)[q] == b[q - |a|];
      }
    }
  }

  /** One more section appends its captions' cues, numbered after the
      earlier sections' captions and offset by their total duration. */
  lemma CuesSectionSnoc(ss: seq<Section>, s: Section)
    ensures Cues(Placements(ss + [s]), 1)
         == Cues(Placements(ss), 1) + SectionCues(s.subs, TotalMillis(ss), CaptionCount(ss) + 1)
  {
    var placed := PlaceCaptions(s.subs, TotalMillis(ss), TotalFrames(ss));
    PlaceAllSnoc(ss, s, 0, 0);
    PlaceAllLength(ss, 0, 0);
    CuesAppend(Placements(ss), placed, 1, CaptionCount(ss) + 1);
    PlacedSectionCues(s.subs, TotalMillis(ss), TotalFrames(ss), CaptionCount(ss) + 1);
  }

  /** The lines the loop body appends are those of the cue it stands for. */
  lemma SrtStep(cs: seq<Cue>, c: Cue, st: Timestamp, en: Timestamp)
    requires FromMillis(c.start) == st && FromMillis(c.end) == en
    ensures Render(cs) + [IntStr(c.index), FormatTimestamp(st) + " --> " + FormatTimestamp(en), c.text, ""] == Render(cs + [c])
  {
    RenderSnoc(cs, c);
  }

  /** The inner loop of `generate_srt`: one section's captions, each placed
      at `timeline_offset` plus its start, numbered on from `sub_idx`; the
      timestamp fields of the start and end are those of FromMillis, which
      ScriptTimestampAtMillis shows equal to the script's own formulas. */
  method AppendSectionCues(lines0: seq<string>, subIdx0: int, timelineOffset: int, subs: seq<Caption>)
    returns (lines: seq<string>, subIdx: int)
    ensures lines == lines0 + Render(SectionCues(subs, timelineOffset, subIdx0))
    ensures subIdx == subIdx0 + |subs|
  {
    lines := lines0;
    subIdx := subIdx0;
    ghost var cs: seq<Cue> := [];
    for j := 0 to |subs|
      invariant cs == SectionCues(subs[..j], timelineOffset, subIdx0)
      invariant lines == lines0 + Render(cs)
      invariant subIdx == subIdx0 + j
    {
      var c := subs[j];
      var absStart := timelineOffset + c.start;
      var absEnd := absStart + c.dur;
      var st := FromMillis(absStart);
      var en := FromMillis(absEnd);
      ghost var cue := Cue(subIdx, absStart, absEnd, c.text);
      assert cue == CueOf(subIdx0 + j, Placed(timelineOffset, 0, c));
      SectionCuesSnoc(subs, j, timelineOffset, subIdx0);
      SrtStep(cs, cue, st, en);
      Assoc(lines0, Render(cs), [IntStr(subIdx), FormatTimestamp(st) + " --> " + FormatTimestamp(en), c.text, ""]);
      lines := lines + [IntStr(subIdx), FormatTimestamp(st) + " --> " + FormatTimestamp(en), c.text, ""];
      cs := cs + [cue];
      subIdx := subIdx + 1;
    }
    assert subs[..|subs|] == subs;
  }

  /** `generate_srt`: walks the sections, advancing `timeline_offset` by
      every section's duration and `sub_idx` by every caption, appending
      four lines per caption; returns the lines, the file text
      `"\n".join(lines)` and the count it reports, `sub_idx - 1`. */
  method GenerateSrt(sections: seq<Section>) returns (lines: seq<string>, text: string, count: int)
    ensures lines == SrtLines(sections)
    ensures text == JoinLines(lines)
    ensures count == CaptionCount(sections)
  {
    var timelineOffset := 0;
    var subIdx := 1;
    lines := [];
    for i := 0 to |sections|
      invariant timelineOffset == TotalMillis(sections[..i])
      invariant subIdx == CaptionCount(sections[..i]) + 1
      invariant lines == SrtLines(sections[..i])
    {
      var s := sections[i];
      ghost var before := Cues(Placements(sections[..i]), 1);
      ghost var added := SectionCues(s.subs, timelineOffset, subIdx);
      lines, subIdx := AppendSectionCues(lines, subIdx, timelineOffset, s.subs);
      TakeSnoc(sections, i);
      CuesSectionSnoc(sections[..i], s);
      RenderAppend(before, added);
      TotalsSnoc(sections[..i], s);
      timelineOffset := timelineOffset + s.dur;
    }
    assert sections[..|sections|] == sections;
    text := JoinLines(lines);
    count := subIdx - 1;
  }

  /** Reads a four-line cue block back. */
  function ParseCue(block: seq<string>): Option<Cue> {
    if |block| != 4 || block[3] != "" then None
    else
      match (ParseInt(block[0]), FirstIndex(block[1], ' '))
      case (Some(k), Some(sp)) =>
        var line := block[1];
        if sp + 5 <= |line| && line[sp..sp + 5] == " --> " then
          match (ParseTimestamp(line[..sp]), ParseTimestamp(line[sp + 5..]))
          case (Some(a), Some(b)) => Some(Cue(k, Millis(a), Millis(b), block[2]))
          case _ => None
        else None
      case _ => None
  }

  /** Reads the lines of a subtitle file back, four per cue. */
  function ParseSrt(lines: seq<string>): Option<seq<Cue>>
    decreases |lines|
  {
    if |lines| == 0 then Some([])
    else if |lines| < 4 then None
    else
      match (ParseCue(lines[..4]), ParseSrt(lines[4..]))
      case (Some(c), Some(rest)) => Some([c] + rest)
      case _ => None
  }

  lemma NoSpaceInPadded(n: int, width: nat)
    ensures ' ' !in ZeroPadded(n, width)
  {
    ZeroPaddedFacts(n, width);
    var r := ZeroPadded(n, width);
    forall i | 0 <= i < |r| ensures r[i] != ' ' {
    }
  }

  lemma NoSpaceInTimestamp(ts: Timestamp)
    ensures ' ' !in FormatTimestamp(ts)
  {
    NoSpaceInPadded(ts.h, 2);
    NoSpaceInPadded(ts.m, 2);
    NoSpaceInPadded(ts.s, 2);
    NoSpaceInPadded(ts.ms, 3);
  }

  /** Where the first space and the arrow sit in "a --> b". */
  lemma TimingSplit(a: string, b: string)
    requires ' ' !in a
    ensures var line := a + " --> " + b;
      && FirstIndex(line, ' ') == Some(|a|)
      && |a| + 5 <= |line| && line[|a|..|a| + 5] == " --> "
      && line[..|a|] == a && line[|a| + 5..] == b
  {
    var line := a + " --> " + b;
    assert line[|a|] == ' ';
    assert line[..|a|] == a;
    assert line[|a|..|a| + 5] == " --> ";
    assert line[|a| + 5..] == b;
  }

  /** Reading a cue's four lines back gives the cue. */
  lemma CueRoundTrip(c: Cue)
    ensures ParseCue(CueLines(c)) == Some(c)
  {
    var a := ShowMillis(c.start);
    var b := ShowMillis(c.end);
    IntStrRoundTrip(c.index);
    NoSpaceInTimestamp(FromMillis(c.start));
    TimingSplit(a, b);
    ShowMillisRoundTrip(c.start);
    ShowMillisRoundTrip(c.end);
  }

  /** Reading a rendered subtitle file back gives its cues. */
  lemma {:induction false} SrtRoundTrip(cs: seq<Cue>)
    ensures ParseSrt(Render(cs)) == Some(cs)
  {
    if |cs| > 0 {
      var lines := Render(cs);
      AppendSlices(CueLines(cs[0]), Render(cs[1..]));
      CueRoundTrip(cs[0]);
      SrtRoundTrip(cs[1..]);
      HeadTail(cs);
    }
  }

  /** Every file `generate_srt` writes reads back as its cues. */
  lemma GeneratedSrtRoundTrip(ss: seq<Section>)
    ensures ParseSrt(SrtLines(ss)) == Some(Cues(Placements(ss), 1))
  {
    SrtRoundTrip(Cues(Placements(ss), 1));
  }

  /** Cue `q` of the file, for caption `j` of section `i`: it is numbered
      `q + 1` where `q` counts the captions of the earlier sections plus
      `j`, starts at the earlier sections' total duration plus the
      caption's start, and ends a caption duration later. */
  lemma CueFor(ss: seq<Section>, i: nat, j: nat)
    requires i < |ss| && j < |ss[i].subs|
    ensures var q := CaptionCount(ss[..i]) + j;
      var c := ss[i].subs[j];
      var cs := Cues(Placements(ss), 1);
      && |cs| == CaptionCount(ss)
      && q < |cs|
      && cs[q] == Cue(q + 1, TotalMillis(ss[..i]) + c.start, TotalMillis(ss[..i]) + c.start + c.dur, c.text)
  {
    PlacementAt(ss, i, j);
  }
}
