/** "Mochi hired": a terminal that types three lines, a loading bar that
    completes, then four more scenes, back to back at 24 fps. */
module MochiHired {
  import opened Wrappers
  import opened Decimal
  import opened Schedule

  /** `Math.floor((frame - startFrame) * 1.5)`: how many characters the
      typewriter has typed, one and a half per frame. */
  function CharsToShow(frame: int, startFrame: int): (r: int)
    ensures 2 * r <= 3 * (frame - startFrame) < 2 * r + 2
  {
    (3 * (frame - startFrame)) / 2
  }

  /** `text.substring(0, Math.max(0, charsToShow))`: JavaScript's
      `substring` clamps its end to the length of the text. */
  function DisplayText(text: string, frame: int, startFrame: int): (r: string)
    ensures |r| <= |text| && r == text[..|r|]
    ensures var c := CharsToShow(frame, startFrame);
      |r| == if c <= 0 then 0 else if c < |text| then c else |text|
  {
    var end := Max(0, CharsToShow(frame, startFrame));
    text[..if end < |text| then end else |text|]
  }

  function Max(a: int, b: int): int {
    if a < b then b else a
  }

  /** `frame >= startFrame && (frame - startFrame) % 8 < 4`; the second
      operand is only reached for a non-negative difference, where
      JavaScript's `%` agrees with Dafny's. */
  predicate ShowCursor(frame: int, startFrame: int) {
    frame >= startFrame && (frame - startFrame) % 8 < 4
  }

  /** The line `TypewriterText` renders: "> ", the typed text, and the
      block cursor while it blinks on and the text is not yet complete. */
  function TypewriterLine(text: string, startFrame: int, frame: int): string {
    "> " + DisplayText(text, frame, startFrame)
      + (if ShowCursor(frame, startFrame) && CharsToShow(frame, startFrame) < |text| then "█" else "")
  }

  /** Nothing is typed at or before the start frame; from the next frame on
      a non-empty text shows at least its first character. */
  lemma NothingBeforeStart(text: string, frame: int, startFrame: int)
    ensures frame <= startFrame ==> DisplayText(text, frame, startFrame) == ""
    ensures frame > startFrame && |text| > 0 ==> |DisplayText(text, frame, startFrame)| >= 1
  {
  }

  /** The typed text only grows: a later frame shows an extension of what
      an earlier frame showed. */
  lemma TypingGrows(text: string, f1: int, f2: int, startFrame: int)
    requires f1 <= f2
    ensures var a, b := DisplayText(text, f1, startFrame), DisplayText(text, f2, startFrame);
      |a| <= |b| && a == b[..|a|]
  {
    var a, b := DisplayText(text, f1, startFrame), DisplayText(text, f2, startFrame);
    assert CharsToShow(f1, startFrame) <= CharsToShow(f2, startFrame);
    assert a == text[..|a|] && b == text[..|b|];
  }

  /** The whole text is shown from `startFrame + ⌈2·|text|/3⌉` on. */
  lemma TypingCompletes(text: string, frame: int, startFrame: int)
    requires 3 * (frame - startFrame) >= 2 * |text|
    ensures DisplayText(text, frame, startFrame) == text
  {
    assert text[..|text|] == text;
  }

  /** The rendered line is "> " and the typed text, followed by one cursor
      character exactly when the frame is not before the start, falls in
      the first half of an eight-frame blink cycle, and the text is not
      complete. */
  lemma CursorRule(text: string, startFrame: int, frame: int)
    ensures var line, d := TypewriterLine(text, startFrame, frame), DisplayText(text, frame, startFrame);
      var cursor := frame >= startFrame && (frame - startFrame) % 8 < 4 && CharsToShow(frame, startFrame) < |text|;
      && line[..2 + |d|] == "> " + d
      && |line| == 2 + |d| + (if cursor then 1 else 0)
      && (cursor ==> line[|line| - 1] == '█')
  {
  }

  /** The cursor blinks with a period of eight frames, and never shows
      once the whole text is typed. */
  lemma CursorBlinks(text: string, startFrame: int, frame: int)
    requires frame >= startFrame
    ensures ShowCursor(frame + 8, startFrame) == ShowCursor(frame, startFrame)
    ensures CharsToShow(frame, startFrame) >= |text| ==>
      TypewriterLine(text, startFrame, frame) == "> " + text
  {
    assert (frame + 8 - startFrame) % 8 == (frame - startFrame) % 8;
    if CharsToShow(frame, startFrame) >= |text| {
      assert text[..|text|] == text;
    }
  }

  const TerminalLine1 := "$ pika --hire new_talent"
  const TerminalLine2 := "searching database..."
  const TerminalLine3 := "MATCH FOUND: mochi.exe ✓"

  /** In the terminal scene the second line mounts at frame 25 and the
      third at frame 50; each line is fully typed before the next one
      mounts, and the third before the scene's 84 frames end. */
  lemma TerminalLinesFinish()
    ensures DisplayText(TerminalLine1, 25, 0) == TerminalLine1
    ensures DisplayText(TerminalLine2, 50, 25) == TerminalLine2
    ensures DisplayText(TerminalLine3, 83, 50) == TerminalLine3
  {
    assert |TerminalLine1| == 24 && |TerminalLine2| == 21 && |TerminalLine3| == 24;
    TypingCompletes(TerminalLine1, 25, 0);
    TypingCompletes(TerminalLine2, 50, 25);
    TypingCompletes(TerminalLine3, 83, 50);
  }

  /** `showComplete = frame >= 44`. */
  predicate ShowComplete(frame: int) {
    frame >= 44
  }

  /** `flash = frame >= 44 && frame < 47 ? 1 : 0`, as a truth value. */
  predicate Flash(frame: int) {
    frame >= 44 && frame < 47
  }

  function LoadingTitle(frame: int): string {
    if ShowComplete(frame) then "MOCHI.EXE LOADED" else "LOADING MOCHI.EXE"
  }

  /** The text under the bar. The eased progress comes from Remotion's
      `interpolate` and an easing curve and is a parameter here; before
      completion the text is `Math.floor(progress)`, padded to two digits
      with "0", then "%". */
  function PercentText(frame: int, progress: real): string {
    if ShowComplete(frame) then "100% COMPLETE"
    else PadStart(IntStr(progress.Floor), 2, '0') + "%"
  }

  /** The scene completes at frame 44 and stays complete; the flash lasts
      frames 44 to 46 and only happens once complete; the title and the
      percentage both switch to their completed text exactly then. */
  lemma LoadingThresholds(frame: int, progress: real)
    ensures Flash(frame) ==> ShowComplete(frame)
    ensures Flash(frame) <==> 44 <= frame <= 46
    ensures ShowComplete(frame) <==> LoadingTitle(frame) == "MOCHI.EXE LOADED"
    ensures ShowComplete(frame) <==> PercentText(frame, progress) == "100% COMPLETE"
  {
    if !ShowComplete(frame) {
      var t := PercentText(frame, progress);
      assert t[|t| - 1] == '%';
      assert "100% COMPLETE"[12] == 'E';
      assert "LOADING MOCHI.EXE"[0] != "MOCHI.EXE LOADED"[0];
    }
  }

  /** Before completion, the percentage reads back as the floor of the
      progress, is at least two digits wide, and has a leading "0" below
      10. */
  lemma PercentPadded(frame: int, progress: real)
    requires !ShowComplete(frame) && 0.0 <= progress
    ensures var t := PercentText(frame, progress);
      && |t| >= 3 && t[|t| - 1] == '%'
      && ParseInt(t[..|t| - 1]) == Some(progress.Floor)
      && (progress.Floor < 10 ==> |t| == 3 && t[0] == '0')
  {
    var n := progress.Floor;
    var d := IntStr(n);
    NatDigitsFacts(n);
    ZeroPaddedFacts(n, 2);
    ZeroPaddedRoundTrip(n, 2);
    var t := PercentText(frame, progress);
    assert PadStart(d, 2, '0') == ZeroPadded(n, 2);
    assert t[..|t| - 1] == ZeroPadded(n, 2);
    if n < 10 {
      PadStartFacts(d, 2, '0');
    }
  }

  /** A visual scene of `MochiHired` and its `<Sequence>`. */
  datatype Scene = Scene(name: string, from: int, durationInFrames: int)

  const Scenes: seq<Scene> := [
    Scene("TerminalLoadScene", 0, 84),
    Scene("LoadingBarScene", 84, 84),
    Scene("GlitchRevealScene", 168, 84),
    Scene("StatsCardScene", 252, 84),
    Scene("LetsCookScene", 336, 48),
    Scene("PikaEndCard", 384, 48)
  ]

  function SceneDurations(scenes: seq<Scene>): (r: seq<int>)
    ensures |r| == |scenes|
  {
    seq(|scenes|, i requires 0 <= i < |scenes| => scenes[i].durationInFrames)
  }

  /** The six scenes are laid back to back from frame 0, each `from` being
      the sum of the durations before it, and end at frame 432, the length
      registered for the composition in src/index.tsx. */
  lemma ScenesBackToBack()
    ensures |Scenes| == 6
    ensures forall i :: 0 <= i < 6 ==> Scenes[i].from == Starts(SceneDurations(Scenes))[i]
    ensures Sum(SceneDurations(Scenes)) == 432
  {
    var d := SceneDurations(Scenes);
    assert d == [84, 84, 84, 84, 48, 48];
    assert Sum([84, 84, 84, 84, 48, 48]) == 432;
    Tiling(d);
    assert Starts(d)[5] + 48 == 432;
    assert forall i :: 0 <= i < 5 ==> Starts(d)[i] + d[i] == Starts(d)[i + 1];
  }

  /** The "ding" cue at frame 128 falls on the loading scene's first
      complete frame: 84 + 44. */
  lemma DingOnLoaded()
    ensures ShowComplete(128 - Scenes[1].from) && !ShowComplete(127 - Scenes[1].from)
  {
  }
}
