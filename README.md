# AI Selves timeline model

This project models, in Dafny, how the video repository turns storyboards
into timelines. It proves properties of that model.

The repository has two halves.

- **Premiere export scripts.** `scripts/generate-prproj-xml.py` and
  `scripts/gen-premiere-package.py` take a storyboard: a list of sections,
  each with a duration and timed captions. They lay the sections end to end
  at 24 frames per second and write a Final Cut Pro XML (`xmeml` version 5)
  timeline for Premiere. The timeline has a picture track of clips, each
  with a marker, and a caption track of text generators. The package script
  also writes an SRT subtitle file and a list of ffmpeg placeholder jobs. It
  chooses the long (v1) or tight (v2) storyboard from its argument.
- **Remotion compositions.** The compositions in `src/` place `Sequence`s
  with running frame counters:
  - `LetiAISelvesVideo`: sections with subtitle overlays;
  - `AISelvesComplete`: nine shots;
  - `PikaAISelfDemo`: a chat with an image slot;
  - `NyxLockScreen`: stacked notifications that arrive every 18 frames;
  - `MochiHired`: typewriter lines, a loading bar and six scenes.

Modules:

| module | file | models |
|---|---|---|
| `Rounding` | rounding.dfy | Python `round` (ties to even) and JS `Math.round` (ties up) on exact values; seconds to frames at 24 fps on whole milliseconds |
| `Storyboard` | storyboard.dfy | sections, captions, `sec_to_frames`, running totals, caption placement |
| `Xmeml` | xmeml.dfy | the XML element tree both scripts build; a schema decoder as its inverse; the declaration fix-up |
| `FcpTimeline` | fcp_timeline.dfy | the picture and caption tracks both scripts build, as loops proved against views of the storyboard |
| `PremiereSrt` | premiere_srt.dfy | the SRT generator, its timestamp formula and an SRT parser as its inverse |
| `PrprojXml` | prproj_xml.dfy | `generate-prproj-xml.py`: its storyboard, `build_xml` and its summary |
| `PremierePackage` | premiere_package.dfy | `gen-premiere-package.py`: both storyboards, version choice, placeholders, SRT, XML |
| `Schedule` | schedule.dfy | back-to-back durations: the running counter of the compositions |
| `LetiVideo`, `AISelvesComplete`, `PikaDemo`, `NyxLockScreen`, `MochiHired` | one file each | the compositions |
| `Decimal`, `Text`, `Seqs`, `Wrappers` | | `str(int)`, zero padding, string helpers, `Option` |

Times are whole milliseconds. Every time in the storyboards is a multiple
of 0.1 s. `Rounding.FramesAt24` computes `round(ms * 24 / 1000)` in integer
arithmetic. Lemmas show it equals both Python's `round` and JS's
`Math.round` of the exact value, because no tie can occur at millisecond
resolution.

Each loop (the track builders, the SRT generator, the composition counters,
the notification scan) is a `method`. Its `ensures` ties the result to a
function of the input. The lemmas then prove the source's promises about
that function: tiling, round trips, distinct ids, and concrete totals
such as 1824, 1616, 646 and 432 frames, which `src/index.tsx` registers.

The XML pretty printer (`minidom`) is a function parameter `prettyPrint`.
The model proves what the scripts do to its output: they replace its first
line when that line is an XML declaration.

`generate_xml` in `gen-premiere-package.py` always names the project "AI
Selves Leti v2" and the sequence "AI Selves Leti — 40s Cut", even for v1.
The model keeps those names.

## Model

| member | source | states |
|---|---|---|
| `Rounding.RoundHalfEven` | scripts/gen-premiere-package.py:172-173 | Python `round`: the integer at most half away, and an even one on a tie |
| `Rounding.RoundHalfEvenUnique` | scripts/gen-premiere-package.py:172-173 | any integer meeting that rule is `round`'s result |
| `Rounding.JsRound` | src/LetiAISelvesVideo.tsx:224 | JS `Math.round`: the integer n with n - 0.5 <= x < n + 0.5 |
| `Rounding.RoundingsDifferOnTie` | src/LetiAISelvesVideo.tsx:224 | the two roundings differ on a tie: 12.5 gives 12 in Python and 13 in JS |
| `Rounding.FramesAt24` | scripts/generate-prproj-xml.py:90-91 | the frame count for a millisecond time lies strictly less than half a frame from the exact value |
| `Rounding.FramesAt24Nearest` | scripts/generate-prproj-xml.py:90-91 | the same bound stated on the exact real frame value |
| `Rounding.FramesAt24IsPythonRound` | scripts/generate-prproj-xml.py:90-91 | integer frames equal `int(round(s * 24))` for every millisecond time |
| `Rounding.FramesAt24IsJsRound` | src/LetiAISelvesVideo.tsx:224 | integer frames equal `Math.round(durationSec * 24)` for every millisecond time |
| `Rounding.FramesAt24WholeSeconds` | scripts/gen-premiere-package.py:172-173 | a whole number of seconds gives exactly 24 frames per second |
| `Storyboard.SecToFrames` | scripts/gen-premiere-package.py:172-173 | `sec_to_frames` is within half a frame of the exact value |
| `Storyboard.TotalsSnoc` | scripts/generate-prproj-xml.py:102 | adding a section adds its milliseconds, its frames and its caption count to the totals |
| `Storyboard.TotalsAppend` | scripts/generate-prproj-xml.py:234 | totals of two storyboards put together are the sums of their totals |
| `Storyboard.FramesDrift` | scripts/generate-prproj-xml.py:234 | the sum of rounded frames drifts from the exact total by at most half a frame per section |
| `Storyboard.PlaceAllSnoc` | scripts/generate-prproj-xml.py:164-214 | a new last section places its captions at the running millisecond and frame offsets |
| `Storyboard.PlacementAt` | scripts/generate-prproj-xml.py:167-172 | caption j of section i sits at global index CaptionCount(earlier)+j, offset by the earlier sections' totals |
| `Storyboard.EmptySectionStillAdvances` | scripts/gen-premiere-package.py:222 | a section with no captions emits nothing but still moves the offsets on by its own duration |
| `Decimal.NatDigitsFacts` | scripts/generate-prproj-xml.py:122 | `str(n)` of a natural is digits with no leading zero and parses back to n |
| `Decimal.IntStrRoundTrip` | scripts/generate-prproj-xml.py:122 | `str(n)` of any integer parses back to n |
| `Decimal.ParseInt` | scripts/generate-prproj-xml.py:122 | the decoder accepts exactly digit strings, with or without a leading minus sign |
| `Decimal.ZeroPaddedFacts` | scripts/gen-premiere-package.py:217 | the `{:02d}` and `{:03d}` formats have the given width unless the number is longer, using digits and '-' only |
| `Decimal.ZeroPaddedRoundTrip` | scripts/gen-premiere-package.py:217 | a zero-padded number parses back to itself |
| `Decimal.PadStartFacts` | src/MochiHired.tsx:143 | `padStart` keeps the string as a suffix and fills the front with the pad character up to the width |
| `Text.Take` | scripts/gen-premiere-package.py:311 | `text[:50]` is the prefix of length min(50, length) |
| `Text.SplitLines` | scripts/generate-prproj-xml.py:221 | `split("\n")` gives at least one piece and no piece contains a newline |
| `Text.JoinSplit` | scripts/generate-prproj-xml.py:221-225 | joining the split lines with newlines rebuilds the string |
| `Text.AfterFirst` | scripts/gen-premiere-package.py:181 | `split("-", 1)[1]`: the text after the first separator, or none exactly when there is no separator |
| `Text.ReplaceChar` | scripts/gen-premiere-package.py:181 | `replace("-", " ")` maps each character on its own and keeps the length |
| `Text.Upper` | scripts/gen-premiere-package.py:181 | `upper()` maps each character on its own and keeps the length |
| `Xmeml.LeafIntRoundTrip` | scripts/generate-prproj-xml.py:122 | a numeric leaf element decodes back to its number |
| `Xmeml.IdNumberRoundTrip` | scripts/generate-prproj-xml.py:120 | an id attribute of the form prefix + number decodes back to the number |
| `Xmeml.IdsDistinct` | scripts/gen-premiere-package.py:252-253 | different numbers give different id strings |
| `Xmeml.TimingRoundTrip` | scripts/generate-prproj-xml.py:121-131 | the name, duration, rate, start, end, in and out children decode back to name, frames and start |
| `Xmeml.FileRoundTrip` | scripts/gen-premiere-package.py:269-284 | a `file` element decodes back to its number, name, duration and optional `pathurl` |
| `Xmeml.MarkerRoundTrip` | scripts/generate-prproj-xml.py:148-154 | a `marker` element decodes back to its name and comment |
| `Xmeml.ClipRoundTrip` | scripts/gen-premiere-package.py:255-291 | a `clipitem` decodes back to the clip it was built from |
| `Xmeml.EffectRoundTrip` | scripts/gen-premiere-package.py:323-343 | the Text effect with its font and size parameters decodes back to its text |
| `Xmeml.GenRoundTrip` | scripts/gen-premiere-package.py:310-343 | a `generatoritem` decodes back to its caption view, with the name being the first 50 characters |
| `Xmeml.ClipsRoundTrip` | scripts/generate-prproj-xml.py:117-157 | a list of clip elements decodes back to its clips |
| `Xmeml.GensRoundTrip` | scripts/generate-prproj-xml.py:167-212 | a list of generator elements decodes back to its captions |
| `Xmeml.DocumentRoundTrip` | scripts/generate-prproj-xml.py:95-112 | the whole `xmeml` document decodes back to project name, sequence name, duration, clips and captions |
| `Xmeml.ReplaceDeclarationSpec` | scripts/gen-premiere-package.py:353-355 | the fix-up replaces the first line exactly when it starts with `<?xml`, and keeps everything after it |
| `Xmeml.ReplaceDeclarationIdempotent` | scripts/gen-premiere-package.py:353-355 | applying the fix-up twice gives the same text as once |
| `Xmeml.FixDeclarationSpec` | scripts/generate-prproj-xml.py:220-225 | the fix-up with the UTF-8 declaration: first-line replacement and idempotence |
| `FcpTimeline.PictureClipsTile` | scripts/generate-prproj-xml.py:114-157 | clips are numbered 1..n, the first starts at 0, each starts where the one before ends, and the last ends at the sequence duration |
| `FcpTimeline.PictureClipNames` | scripts/gen-premiere-package.py:256-291 | clip name and marker comment are the label and the marker name is the id; file name is the label, or `<id>.mp4` with `pathurl` `placeholders/<id>.mp4` |
| `FcpTimeline.ClipIdsDistinct` | scripts/gen-premiere-package.py:252-253 | no two clips share a `clip-` or a `file-` id |
| `FcpTimeline.GenFor` | scripts/generate-prproj-xml.py:167-185 | caption j of section i becomes generator number CaptionCount(earlier)+j+1 at section start plus `sec_to_frames(start)` |
| `FcpTimeline.GenIdsDistinct` | scripts/generate-prproj-xml.py:174 | no two generators share a `sub-` id |
| `FcpTimeline.TimelineDocumentDecodes` | scripts/generate-prproj-xml.py:93-214 | the document built from a storyboard decodes to its clips, its captions and its total frames |
| `FcpTimeline.PictureTrack` | scripts/generate-prproj-xml.py:114-157 | the clip loop yields the clip elements of the storyboard and ends with `timeline_pos` at the total frames |
| `FcpTimeline.AppendSectionGens` | scripts/generate-prproj-xml.py:170-212 | the inner loop appends the section's generators and advances the id by its caption count |
| `FcpTimeline.CaptionTrack` | scripts/generate-prproj-xml.py:159-214 | the outer caption loop yields the generator elements of the storyboard |
| `FcpTimeline.BuildDocument` | scripts/generate-prproj-xml.py:93-214 | the element tree built is the storyboard's timeline document |
| `PremiereSrt.ScriptTimestamp` | scripts/gen-premiere-package.py:206-214 | the script's hour, minute, second and millisecond fields are in range and add up to the time truncated to milliseconds |
| `PremiereSrt.FromMillisFacts` | scripts/gen-premiere-package.py:206-214 | the integer split of a millisecond count is in range and adds back up to it |
| `PremiereSrt.MillisInjective` | scripts/gen-premiere-package.py:206-214 | two in-range timestamps with the same total are equal |
| `PremiereSrt.ScriptTimestampAtMillis` | scripts/gen-premiere-package.py:206-214 | on a whole-millisecond time the script's float formula equals the integer split |
| `PremiereSrt.TimestampRoundTrip` | scripts/gen-premiere-package.py:217 | `HH:MM:SS,mmm` of an in-range timestamp parses back to it |
| `PremiereSrt.ShowMillisRoundTrip` | scripts/gen-premiere-package.py:217 | a printed millisecond time parses back to the same total |
| `PremiereSrt.RenderAppend` | scripts/gen-premiere-package.py:216-219 | the lines of two cue lists together are the lines of each in turn |
| `PremiereSrt.AppendSectionCues` | scripts/gen-premiere-package.py:202-220 | the inner loop appends four lines per caption of the section and advances the index by its caption count |
| `PremiereSrt.GenerateSrt` | scripts/gen-premiere-package.py:194-226 | the lines are the storyboard's rendered cues, the file is their newline join, and the printed count is the number of captions |
| `PremiereSrt.CueRoundTrip` | scripts/gen-premiere-package.py:216-219 | the four lines of a cue parse back to that cue |
| `PremiereSrt.SrtRoundTrip` | scripts/gen-premiere-package.py:216-225 | the rendered lines of any cue list parse back to the list |
| `PremiereSrt.GeneratedSrtRoundTrip` | scripts/gen-premiere-package.py:194-226 | the SRT of a storyboard parses back to its placed cues |
| `PremiereSrt.CueFor` | scripts/gen-premiere-package.py:201-222 | caption j of section i is cue CaptionCount(earlier)+j+1, from section start + start to section start + start + duration |
| `PrprojXml.SectionsTotals` | scripts/generate-prproj-xml.py:11-88 | the storyboard has 19 sections, lasts 40 s, or 960 frames, and has 30 captions |
| `PrprojXml.MochiGlitchSilent` | scripts/generate-prproj-xml.py:76 | the 16th section (index 15), `mochi-glitch`, has no captions |
| `PrprojXml.BuildXml` | scripts/generate-prproj-xml.py:93-225 | the tree is the labelled timeline of the storyboard, and the text is the pretty-printed tree with its declaration fixed |
| `PrprojXml.SummaryMatchesDocument` | scripts/generate-prproj-xml.py:232-234 | the printed section count and total frames equal what the written document holds, and the last clip ends at the sequence duration |
| `PremierePackage.V1Totals` | scripts/gen-premiere-package.py:15-90 | v1 has 18 sections, lasts 76 s, or 1824 frames, and has 39 captions |
| `PremierePackage.V2Totals` | scripts/gen-premiere-package.py:93-161 | v2 has 19 sections, lasts 40 s, or 960 frames, and has 30 captions |
| `PremierePackage.SelectVersion` | scripts/gen-premiere-package.py:164-170 | v1 is chosen exactly when the first argument is `v1` |
| `PremierePackage.VersionDefaults` | scripts/gen-premiere-package.py:164-170 | with no argument, or any other argument, v2 is chosen; the two output directories differ |
| `PremierePackage.PlaceholderLabelSpec` | scripts/gen-premiere-package.py:181 | the label is the text after the first '-', with '-' turned into spaces and letters into upper case |
| `PremierePackage.PlaceholderLabelFails` | scripts/gen-premiere-package.py:181 | the label fails (`IndexError`) exactly when the id has no '-' |
| `PremierePackage.Jobs` | scripts/gen-premiere-package.py:180-189 | one ffmpeg job per section: output `<ph_dir>/<id>.mp4`, the section's duration and its label |
| `PremierePackage.GeneratePlaceholders` | scripts/gen-premiere-package.py:175-192 | the jobs for every section, or the first section whose id has no '-' together with the jobs already issued before it |
| `PremierePackage.PlaceholdersLinked` | scripts/gen-premiere-package.py:278 | each clip's relative `pathurl`, taken from the output directory, is the file the placeholder job writes |
| `PremierePackage.GenerateXml` | scripts/gen-premiere-package.py:228-360 | the tree is the placeholder timeline of the sections; the text is its fixed pretty print; the printed clip and frame counts |
| `PremierePackage.GeneratePackage` | scripts/gen-premiere-package.py:362-385 | the package is placeholders, SRT and XML in that order; it is absent if a placeholder label fails |
| `PremierePackage.CutsLabelled` | scripts/gen-premiere-package.py:15-161 | every id of both storyboards contains a '-', so no placeholder label fails |
| `PremierePackage.NumberedAppend` | scripts/gen-premiere-package.py:15-161 | ids numbered `NN-` stay so when storyboard groups are put together |
| `PremierePackage.NumberedLabelled` | scripts/gen-premiere-package.py:181 | a storyboard whose ids are numbered `NN-` has a label for every section |
| `PremierePackage.PackageOfLabelled` | scripts/gen-premiere-package.py:362-385 | a labelled storyboard always gives a package with one placeholder run per section and the storyboard's section count, caption count and total length in its summary |
| `PremierePackage.V1Package` | scripts/gen-premiere-package.py:362-385 | the v1 run finishes, with 18 placeholder runs, 39 captions and a 76 s total |
| `PremierePackage.V2Package` | scripts/gen-premiere-package.py:362-385 | the v2 run finishes, with 19 placeholder runs, 30 captions and a 40 s total |
| `PremierePackage.Run` | scripts/gen-premiere-package.py:163-170 | the package written is the one for the version chosen from the arguments, in that version's directory; it is always present, and its summary is 18 sections, 39 captions and 76 s for v1, 19, 30 and 40 s for v2 |
| `Schedule.SumAppend` | src/LetiAISelvesVideo.tsx:225 | the sum of two duration lists put together is the sum of the sums |
| `Schedule.SumTake` | src/AISelvesComplete.tsx:39 | one more step of the running counter adds that entry's duration |
| `Schedule.Tiling` | src/AISelvesComplete.tsx:31-49 | the first entry starts at 0, each starts where the previous ends, and the last ends at the total |
| `Schedule.StartsGap` | src/AISelvesComplete.tsx:38-39 | two starts are apart by the sum of the durations between them |
| `Schedule.StartsIncrease` | src/AISelvesComplete.tsx:38-39 | with positive durations an entry ends no later than any later entry starts |
| `Schedule.ActiveUnique` | src/LetiAISelvesVideo.tsx:355 | with non-negative durations at most one sequence is on screen at any frame |
| `Schedule.ActiveExists` | src/LetiAISelvesVideo.tsx:355 | with non-negative durations every frame before the total has a sequence on screen |
| `LetiVideo.SectionFramesAreJsRound` | src/LetiAISelvesVideo.tsx:224 | each section's frames are `Math.round(durationSec * 24)`, and not negative for a non-negative duration |
| `LetiVideo.SectionFramesAppend` | src/LetiAISelvesVideo.tsx:224-225 | frames and duration of two section lists put together are the concatenation and the sum |
| `LetiVideo.LetiVideoDuration` | src/LetiAISelvesVideo.tsx:39-225 | 18 sections and `LETI_VIDEO_DURATION` = 1824 frames |
| `LetiVideo.LetiAISelvesVideo` | src/LetiAISelvesVideo.tsx:344-359 | sequence i has key id, `from` and `sectionStartFrame` equal to the sum of the earlier sections' frames, and its own rounded duration |
| `LetiVideo.SectionsContiguous` | src/LetiAISelvesVideo.tsx:345-359 | the 18 sequences start at 0, are contiguous and end at frame 1824; every frame of the video shows exactly one section |
| `LetiVideo.SubtitleWindow` | src/LetiAISelvesVideo.tsx:232-236 | the subtitle renders exactly for frames in the half-open window from start to start plus duration |
| `LetiVideo.SequenceFrame` | src/LetiAISelvesVideo.tsx:355 | a `Sequence` child sees frame g - from, and only while from <= g < from + duration |
| `LetiVideo.LaterSubtitlesHiddenAsWritten` | src/LetiAISelvesVideo.tsx:233-236 | as written, a subtitle never renders in a section that starts at least its own length into the video |
| `LetiVideo.AnthonyIntroNeverSubtitledAsWritten` | src/LetiAISelvesVideo.tsx:356 | the first `anthony-intro` subtitle is never shown at any frame as written |
| `LetiVideo.ShownWindow` | src/LetiAISelvesVideo.tsx:233-236 | with the window taken from the section's own frame, a subtitle that fits its section shows exactly over its absolute window |
| `LetiVideo.AnthonyIntroSubtitled` | src/LetiAISelvesVideo.tsx:233-236 | corrected, the first `anthony-intro` subtitle shows at frame 192 |
| `LetiVideo.ShownAsWrittenWindow` | src/LetiAISelvesVideo.tsx:233-236 | as written, a subtitle shows at absolute frame g exactly while its section is mounted and g minus the section start lies in the window offset by the section start, i.e. the start is counted twice |
| `LetiVideo.ShownWhileMounted` | src/LetiAISelvesVideo.tsx:233-236 | corrected, a subtitle shows at absolute frame g exactly while its section is mounted and g lies in the window offset once by the section start |
| `LetiVideo.VisibleLines` | src/LetiAISelvesVideo.tsx:336-338 | as written, the subtitle lines a section renders at absolute frame g are exactly those whose doubly offset window holds g while the section is mounted |
| `LetiVideo.IntendedVisibleLines` | src/LetiAISelvesVideo.tsx:336-338 | corrected, the lines a section renders at absolute frame g are exactly those whose singly offset window holds g while the section is mounted |
| `LetiVideo.LaterSectionSilentAsWritten` | src/LetiAISelvesVideo.tsx:233-236 | as written, a section that starts at least its own length into the video renders no subtitle line at any frame |
| `LetiVideo.FirstSectionUnaffected` | src/LetiAISelvesVideo.tsx:233-236 | the first section starts at frame 0, so as written and corrected render the same lines there |
| `LetiVideo.OnlyIntroSubtitledAsWritten` | src/LetiAISelvesVideo.tsx:39-225 | as written, every section after `intro` renders no subtitle line at any frame, since each starts at frame 192 or later and lasts at most 192 frames |
| `LetiVideo.EmptySectionSilent` | src/LetiAISelvesVideo.tsx:186-191 | a section without subtitles renders no line, as written or corrected, yet is still on screen for its whole rounded duration |
| `LetiVideo.MochiGlitch` | src/LetiAISelvesVideo.tsx:186-191 | the 15th section (index 14), `mochi-glitch`, has no subtitles and lasts 48 frames |
| `AISelvesComplete.ShotsTotal` | src/AISelvesComplete.tsx:16-29 | nine shots and `TOTAL_DURATION` = 1616 frames |
| `AISelvesComplete.AISelvesCompleteSequences` | src/AISelvesComplete.tsx:31-49 | sequence i has key i, the shot's component and duration, and `from` = sum of the earlier durations |
| `AISelvesComplete.ShotsBackToBack` | src/AISelvesComplete.tsx:31-49 | shots start at 0, follow each other without gap or overlap, end at `TOTAL_DURATION`, and start in strictly increasing order when positive |
| `AISelvesComplete.EndCardAtTheEnd` | src/AISelvesComplete.tsx:25 | the end card starts at 1544 and ends at 1616 |
| `PikaDemo.ChatDurationIsItems` | src/PikaAISelfDemo.tsx:41-42 | `CHAT_DURATION` is the sum of typing, first message, image and remaining messages |
| `PikaDemo.ChatLayer` | src/PikaAISelfDemo.tsx:201-218 | typing at 0, first message at 36, image after it; message k+1 starts at the running counter; the counter ends at `CHAT_DURATION` |
| `PikaDemo.ChatBackToBack` | src/PikaAISelfDemo.tsx:201-218 | chat items follow each other without gap, the last ends at `CHAT_DURATION`, and message starts strictly increase when durations are positive |
| `PikaDemo.ChatFigures` | src/PikaAISelfDemo.tsx:29-42 | `CHAT_DURATION` = 526 and the image slot starts at 115 |
| `PikaDemo.DemoBackToBack` | src/PikaAISelfDemo.tsx:351-375 | title, chat and end card start back to back; with the real messages the end card ends at 646 |
| `NyxLockScreen.VisibleCount` | src/NyxLockScreen.tsx:156-160 | message i is visible exactly when its appear frame 30 + 18i has been reached |
| `NyxLockScreen.Visible` | src/NyxLockScreen.tsx:154-161 | the visible list is the first count messages, each with its appear frame and index |
| `NyxLockScreen.Displayed` | src/NyxLockScreen.tsx:163-164 | `slice(-8)` keeps the last min(length, 8) entries |
| `NyxLockScreen.NyxLockScreen` | src/NyxLockScreen.tsx:151-347 | the loop's label is the count label of the visible count, and the cards are those of the last eight visible messages |
| `NyxLockScreen.CardsStacked` | src/NyxLockScreen.tsx:47-53 | at most 8 cards; the newest sits at top 440 and each older one 100 below it, within 440..1140; keys are consecutive message indices |
| `NyxLockScreen.CountLabelReadsBack` | src/NyxLockScreen.tsx:316-332 | no label for zero messages; otherwise the label starts with the count and ends in 's' exactly when it is more than one |
| `NyxLockScreen.Arrivals` | src/NyxLockScreen.tsx:7-25 | 14 messages: none at frame 29, one at 30, 13 at 263, all 14 at 264, where 8 cards show starting with message 6 |
| `NyxLockScreen.OneNotification` | src/NyxLockScreen.tsx:332 | for one visible message the label's text is "1 Notification"; the model keeps the text node, which CSS `textTransform: 'uppercase'` (line 328) shows in capitals |
| `NyxLockScreen.FourteenNotifications` | src/NyxLockScreen.tsx:332 | for fourteen the label's text is "14 Notifications", shown in capitals by the same CSS |
| `MochiHired.CharsToShow` | src/MochiHired.tsx:56 | `floor((frame - start) * 1.5)` as exact floor bounds |
| `MochiHired.DisplayText` | src/MochiHired.tsx:57 | the shown text is a prefix of the line, of length clamped between 0 and the line's length |
| `MochiHired.NothingBeforeStart` | src/MochiHired.tsx:56-57 | nothing is shown up to the start frame, and at least one character right after it |
| `MochiHired.TypingGrows` | src/MochiHired.tsx:56-57 | the shown text only grows: an earlier frame shows a prefix of a later one |
| `MochiHired.TypingCompletes` | src/MochiHired.tsx:56-57 | once 1.5 chars per frame cover the line the whole line is shown |
| `MochiHired.CursorRule` | src/MochiHired.tsx:58-62 | the line is "> " and the shown text, plus the block cursor exactly while blinking on and typing |
| `MochiHired.CursorBlinks` | src/MochiHired.tsx:58-62 | the cursor repeats every 8 frames, and a finished line has no cursor |
| `MochiHired.TerminalLinesFinish` | src/MochiHired.tsx:81-83 | each terminal line is fully typed before the next starts, the last before the scene ends at 84 |
| `MochiHired.LoadingThresholds` | src/MochiHired.tsx:97-143 | the flash is frames 44 to 46 and only while complete; title and percent switch exactly at 44 |
| `MochiHired.PercentPadded` | src/MochiHired.tsx:143 | before completion the percent text is the floored progress padded to two digits and '%' |
| `MochiHired.ScenesBackToBack` | src/MochiHired.tsx:307-399 | six scenes start back to back and last 432 frames together |
| `MochiHired.DingOnLoaded` | src/MochiHired.tsx:340-343 | the ding at 128 is the first frame that shows "MOCHI.EXE LOADED" |

## Left out

- File system, `ffmpeg`, `shutil`, `os.listdir` and every `print` beyond the counts the scripts report. Placeholder generation yields the ffmpeg job list, not the files it writes.
- `ET.tostring` and `minidom`'s serialisation: the element tree is a value, and the pretty printer is the parameter `prettyPrint`. In-place `SubElement` updates and node identity are not modelled.
- Floating point: every time is whole milliseconds and totals are exact.
- PremiereSrt.ScriptTimestamp: computes `(t % 1) * 1000` on exact reals. With IEEE doubles that product can fall just below an integer, and `int()` then prints one millisecond less. This happens on the shipped v2 storyboard: the second caption of `06-montage-starry` starts at 13.6 s, and `int((13.6 % 1) * 1000)` is 599 in doubles, so the script writes `00:00:13,599` where `PremiereSrt.GenerateSrt` gives `00:00:13,600`. The SRT model is therefore not byte-exact for such times.
- Text.Upper: models Python `upper()` on the ASCII letters only; non-ASCII letters are left unchanged. Every storyboard id is ASCII.
- Summary prints in `scripts/gen-premiere-package.py:383-393` (seconds printed as Python floats, the directory listing) are not modelled. The copy of the directed script at lines 377-381 is not modelled either.
- The Remotion runtime: the current frame is a parameter. `Sequence` offsets are modelled by `LetiVideo.SequenceFrame`.
- `interpolate`, `spring`, easing curves and the bullet-time bezier: rendering values only. The loading bar's progress is a parameter of `MochiHired.PercentText`.
- Styles, colours, fonts and layout. The Leti sections' labels, notes, subtitle texts and styles are left out; only ids, durations and subtitle timing are kept. The Pika message texts are left out too.
- `MESSAGE_DURATION` in `src/PikaAISelfDemo.tsx:24` is declared but never used, and is not modelled.
- The component identities in `AISelvesComplete` are kept as names; the shots' own files are rendering-only.
- `src/index.tsx` only registers the compositions. It is not modelled; its durations (1616, 646, 432, 1824) are the totals proved above.
- The other files under `src/` are rendering-only and are not part of this model.

## Findings

| source | as written | input that shows it | evidently intended | confidence | as-written member | corrected member |
|---|---|---|---|---|---|---|
| src/LetiAISelvesVideo.tsx:233-236 | `Subtitle` compares `useCurrentFrame()`, which inside the section's `Sequence` (line 355) counts from the section start, with a window offset by the absolute `sectionStartFrame` | the second section (index 1), `anthony-intro`, its subtitle 0, at any frame g: the section runs over frames 192..287, so the local frame is 0..95, but the window is 192..263 | the window is measured from the section's own first frame, so the subtitle shows over absolute frames 192..263 | high for every section after the first, which starts at least its own length in; not executed | `LetiVideo.AnthonyIntroNeverSubtitledAsWritten` | `LetiVideo.AnthonyIntroSubtitled` |
