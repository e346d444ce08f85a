/** scripts/gen-premiere-package.py: builds a Premiere package for one of
    two cuts of the Leti storyboard, chosen on the command line: a black
    placeholder video per section under `placeholders/`, an SRT subtitle
    file, and an FCP XML document whose clips point at the placeholders. */
module PremierePackage {
  import opened Wrappers
  import opened Rounding
  import opened Text
  import opened Storyboard
  import opened Xmeml
  import opened FcpTimeline
  import opened PremiereSrt

  // SECTIONS_V1, the full 76-second cut, times in milliseconds.

  /** Leti's introduction (8 s). */
  const V1Intro: seq<Section> := [
    Section("01-intro", "INTRO — Leti to camera", 8000, [
      Caption(0, 2500, "You're not gonna believe this but —"),
      Caption(2500, 2500, "our company used our own product, AI Selves,"),
      Caption(5000, 1500, "to push the actual product."),
      Caption(7000, 1000, "Let me explain.")
    ])
  ]

  /** Anthony and Theo (11 s). */
  const V1Anthony: seq<Section> := [
    Section("02-anthony-intro", "ANTHONY — Real photo + title", 4000, [
      Caption(0, 3000, "This is Anthony, our head of partnerships."),
      Caption(3000, 1000, "And this is Theo.")
    ]),
    Section("03-theo-reveal", "THEO — Avatar reveal + ding SFX", 7000, [
      Caption(0, 1500, "(his AI Self)"),
      Caption(1500, 2500, "Theo monitors our brand mentions in real time —"),
      Caption(4000, 2000, "and helped Anthony evaluate partnership opportunities"),
      Caption(6000, 1000, "around the clock for the launch.")
    ])
  ]

  /** Starry and Momo (9 s). */
  const V1Starry: seq<Section> := [
    Section("04-starry-intro", "STARRY — Real photo + title", 3000, [
      Caption(0, 2000, "Starry, our product manager —"),
      Caption(2000, 1000, "uses Momo.")
    ]),
    Section("05-momo-reveal", "MOMO — Avatar reveal + ding SFX", 6000, [
      Caption(0, 1000, "(her AI Self)"),
      Caption(1000, 800, "CUTE."),
      Caption(1800, 2200, "Momo handles Linear tasks across all departments —"),
      Caption(4000, 2000, "and even goes on Zoom calls when Starry doesn't feel like it!")
    ])
  ]

  /** Rus and Russ (7 s). */
  const V1Rus: seq<Section> := [
    Section("06-rus-intro", "RUS — Real photo + title", 3000, [
      Caption(0, 2000, "Rus, our head of design —"),
      Caption(2000, 1000, "uses Russ.")
    ]),
    Section("07-russ-reveal", "RUSS — Avatar reveal + ding SFX", 4000, [
      Caption(0, 1000, "(his AI Self)"),
      Caption(1000, 1500, "Russ goes over design issues"),
      Caption(2500, 1500, "and communicates them to the design team.")
    ])
  ]

  /** Matan and Raccoon 2.0 (8 s). */
  const V1Matan: seq<Section> := [
    Section("08-matan-intro", "MATAN — Real photo + title", 3000, [
      Caption(0, 2500, "And this is Matan, our Creative Director.")
    ]),
    Section("09-raccoon-reveal", "RACCOON 2.0 — Avatar reveal + ding SFX", 5000, [
      Caption(0, 1500, "His Raccoon 2.0 — (his AI Self)"),
      Caption(1500, 1500, "helps Matan bridge the gap between"),
      Caption(3000, 2000, "our researchers and our Creative team.")
    ])
  ]

  /** Demi and Semi (9 s). */
  const V1Demi: seq<Section> := [
    Section("10-demi-intro", "DEMI — Real photo + title", 3000, [
      Caption(0, 3000, "Oh, and all of them report up to our CEO, Demi Guo.")
    ]),
    Section("11-semi-reveal", "SEMI — Avatar reveal + ding SFX", 6000, [
      Caption(0, 1500, "Well… not exactly."),
      Caption(1500, 1500, "They report to Semi — (her AI Self)"),
      Caption(3000, 1500, "and Semi reports back to her."),
      Caption(4500, 1500, "Because Demi is waaaay too busy.")
    ])
  ]

  /** The ending, first part: Leti interrupted by Mochi (13 s). */
  const V1EndingInterrupted: seq<Section> := [
    Section("12-leti-intro", "LETI — To camera (THE ENDING)", 4000, [
      Caption(0, 3000, "And me? I'm Leti, and I usually make videos, buuuut—"),
      Caption(3000, 500, "[MEOW]")
    ]),
    Section("13-mochi-reveal", "MOCHI — Hard cut, smashing keyboard", 4000, [
      Caption(0, 1500, "(my AI Self)")
    ]),
    Section("14-leti-interrupted", "LETI — Offscreen annoyed", 3000, [
      Caption(0, 2500, "Mochi— ffs, I'm in the middle of introducing yo—")
    ]),
    Section("15-mochi-glitch", "MOCHI — Glitch cut, looking annoyed", 2000, [])
  ]

  /** The ending, second part: the comeback and the loop (11 s). */
  const V1EndingLoop: seq<Section> := [
    Section("16-leti-comeback", "LETI — Tries to recover", 2000, [
      Caption(0, 1500, "Anyways, I'm—")
    ]),
    Section("17-mochi-glitch-2", "MOCHI — Glitch, looking at camera", 5000, [
      Caption(0, 2000, "What?? What do you need from me—"),
      Caption(2000, 1500, "oh. Oh! You're done editing the video?"),
      Caption(3500, 1500, "Ok ok lemme check it out.")
    ]),
    Section("18-loop-zoom", "ZOOM INTO SCREEN → LOOP", 4000, [
      Caption(2000, 2000, "\"You're not gonna believe this but—\"")
    ])
  ]

  const SectionsV1: seq<Section> :=
    V1Intro + V1Anthony + V1Starry + V1Rus + V1Matan + V1Demi + V1EndingInterrupted + V1EndingLoop

  // SECTIONS_V2, the tight 40-second cut.

  /** The hook (5 s). */
  const V2Hook: seq<Section> := [
    Section("01-hook", "HOOK — Text card or to camera", 4000, [
      Caption(0, 2500, "You're not gonna believe this but —"),
      Caption(2500, 1500, "our company used our own product, AI Selves, to push the actual product.")
    ]),
    Section("02-explain", "LET ME EXPLAIN — Beat", 1000, [
      Caption(0, 1000, "Let me explain.")
    ])
  ]

  /** Anthony and Theo (8 s). */
  const V2AnthonyTheo: seq<Section> := [
    Section("03-anthony", "ANTHONY — Photo + title", 2000, [
      Caption(0, 1500, "This is Anthony, our head of partnerships."),
      Caption(1500, 500, "And this is Theo.")
    ]),
    Section("04-theo", "THEO — Avatar + ding + (his AI Self)", 2000, [
      Caption(0, 500, "(his AI Self)"),
      Caption(500, 1500, "Theo monitors brand mentions in real time")
    ]),
    Section("05-theo-work", "THEO WORK — Scanning UI + Slack", 4000, [
      Caption(0, 2000, "and helped Anthony evaluate partnerships around the clock"),
      Caption(2000, 2000, "for the launch.")
    ])
  ]

  /** The rapid montage (4 s). */
  const V2RapidMontage: seq<Section> := [
    Section("06-montage-starry", "RAPID — Starry → Momo + ding", 1300, [
      Caption(0, 600, "Starry — Momo"),
      Caption(600, 700, "(her AI Self)")
    ]),
    Section("07-montage-rus", "RAPID — Rus → Russ + ding", 1300, [
      Caption(0, 600, "Rus — Russ"),
      Caption(600, 700, "(his AI Self)")
    ]),
    Section("08-montage-matan", "RAPID — Matan → Raccoon 2.0 + ding", 1400, [
      Caption(0, 600, "Matan — Raccoon 2.0"),
      Caption(600, 800, "(his AI Self)")
    ])
  ]

  /** Demi and Semi (7 s). */
  const V2DemiSemi: seq<Section> := [
    Section("09-demi", "DEMI — Photo + CEO title", 2000, [
      Caption(0, 2000, "Oh, and all of them report up to our CEO, Demi Guo.")
    ]),
    Section("10-not-exactly", "BEAT — Well not exactly", 1500, [
      Caption(0, 1500, "Well… not exactly.")
    ]),
    Section("11-semi", "SEMI — Avatar + ding + (her AI Self)", 1500, [
      Caption(0, 1000, "They report to Semi —"),
      Caption(0, 1000, "(her AI Self)")
    ]),
    Section("12-demi-busy", "DEMI BUSY — Calendar + punchline", 2000, [
      Caption(0, 1000, "and Semi reports back to her."),
      Caption(1000, 1000, "Because Demi is waaaay too busy.")
    ])
  ]

  /** The ending, first part: Leti interrupted by Mochi (9 s). */
  const V2EndingInterrupted: seq<Section> := [
    Section("13-leti-intro", "LETI — To camera normal intro", 3000, [
      Caption(0, 2500, "And me? I'm Leti, and I usually make videos, buuuut—"),
      Caption(2500, 500, "[MEOW]")
    ]),
    Section("14-mochi-reveal", "MOCHI — Hard cut smashing keyboard", 3000, [
      Caption(0, 1500, "(my AI Self)")
    ]),
    Section("15-leti-annoyed", "LETI OFFSCREEN — ffs introducing yo—", 2000, [
      Caption(0, 2000, "Mochi— ffs, I'm in the middle of introducing yo—")
    ]),
    Section("16-mochi-glitch", "GLITCH — Mochi stares annoyed", 1000, [])
  ]

  /** The ending, second part: the comeback and the loop (7 s). */
  const V2EndingLoop: seq<Section> := [
    Section("17-leti-comeback", "LETI — Anyways I'm—", 1500, [
      Caption(0, 1000, "Anyways, I'm—")
    ]),
    Section("18-mochi-done", "MOCHI — oh you're done editing?", 3500, [
      Caption(0, 1500, "What?? What do you need from me—"),
      Caption(1500, 1000, "oh. Oh! You're done editing the video?"),
      Caption(2500, 1000, "Ok ok lemme check it out.")
    ]),
    Section("19-loop-zoom", "ZOOM INTO SCREEN → LOOP", 2000, [
      Caption(1000, 1000, "\"You're not gonna believe this but—\"")
    ])
  ]

  const SectionsV2: seq<Section> :=
    V2Hook + V2AnthonyTheo + V2RapidMontage + V2DemiSemi + V2EndingInterrupted + V2EndingLoop

  lemma V1IntroTotals()
    ensures TotalsOf(V1Intro) == Totals(1, 8000, 192, 4)
    ensures Numbered(V1Intro)
  {
  }

  lemma V1AnthonyTotals()
    ensures TotalsOf(V1Anthony) == Totals(2, 11000, 264, 6)
    ensures Numbered(V1Anthony)
  {
  }

  lemma V1StarryTotals()
    ensures TotalsOf(V1Starry) == Totals(2, 9000, 216, 6)
    ensures Numbered(V1Starry)
  {
  }

  lemma V1RusTotals()
    ensures TotalsOf(V1Rus) == Totals(2, 7000, 168, 5)
    ensures Numbered(V1Rus)
  {
  }

  lemma V1MatanTotals()
    ensures TotalsOf(V1Matan) == Totals(2, 8000, 192, 4)
    ensures Numbered(V1Matan)
  {
  }

  lemma V1DemiTotals()
    ensures TotalsOf(V1Demi) == Totals(2, 9000, 216, 5)
    ensures Numbered(V1Demi)
  {
  }

  lemma V1EndingInterruptedTotals()
    ensures TotalsOf(V1EndingInterrupted) == Totals(4, 13000, 312, 4)
    ensures Numbered(V1EndingInterrupted)
  {
  }

  lemma V1EndingLoopTotals()
    ensures TotalsOf(V1EndingLoop) == Totals(3, 11000, 264, 5)
    ensures Numbered(V1EndingLoop)
  {
  }

  /** The full cut: 18 sections, 76 seconds, 1824 frames, 39 captions; its
      frame count is its duration's, so rounding each section on its own
      loses nothing. */
  lemma V1Totals()
    ensures TotalsOf(SectionsV1) == Totals(18, 76000, 1824, 39)
  {
    V1IntroTotals();
    V1AnthonyTotals();
    V1StarryTotals();
    V1RusTotals();
    V1MatanTotals();
    V1DemiTotals();
    V1EndingInterruptedTotals();
    V1EndingLoopTotals();
    TotalsOfEight(V1Intro, V1Anthony, V1Starry, V1Rus, V1Matan, V1Demi, V1EndingInterrupted, V1EndingLoop);
  }

  lemma V2HookTotals()
    ensures TotalsOf(V2Hook) == Totals(2, 5000, 120, 3)
    ensures Numbered(V2Hook)
  {
  }

  lemma V2AnthonyTheoTotals()
    ensures TotalsOf(V2AnthonyTheo) == Totals(3, 8000, 192, 6)
    ensures Numbered(V2AnthonyTheo)
  {
  }

  lemma V2RapidMontageTotals()
    ensures TotalsOf(V2RapidMontage) == Totals(3, 4000, 96, 6)
    ensures Numbered(V2RapidMontage)
  {
  }

  lemma V2DemiSemiTotals()
    ensures TotalsOf(V2DemiSemi) == Totals(4, 7000, 168, 6)
    ensures Numbered(V2DemiSemi)
  {
  }

  lemma V2EndingInterruptedTotals()
    ensures TotalsOf(V2EndingInterrupted) == Totals(4, 9000, 216, 4)
    ensures Numbered(V2EndingInterrupted)
  {
  }

  lemma V2EndingLoopTotals()
    ensures TotalsOf(V2EndingLoop) == Totals(3, 7000, 168, 5)
    ensures Numbered(V2EndingLoop)
  {
  }

  /** The tight cut: 19 sections, 40 seconds, 960 frames, 30 captions, the
      length the XML's sequence name announces. */
  lemma V2Totals()
    ensures TotalsOf(SectionsV2) == Totals(19, 40000, 960, 30)
  {
    V2HookTotals();
    V2AnthonyTheoTotals();
    V2RapidMontageTotals();
    V2DemiSemiTotals();
    V2EndingInterruptedTotals();
    V2EndingLoopTotals();
    TotalsOfSix(V2Hook, V2AnthonyTheo, V2RapidMontage, V2DemiSemi, V2EndingInterrupted, V2EndingLoop);
  }

  // ---- Choosing the cut ----

  datatype Version = V1 | V2

  /** `version = sys.argv[1] if len(sys.argv) > 1 else "v2"`; only the exact
      argument `v1` selects the full cut, anything else the tight one. */
  function SelectVersion(argv: seq<string>): (v: Version)
    ensures v == V1 <==> |argv| > 1 && argv[1] == "v1"
  {
    var version := if |argv| > 1 then argv[1] else "v2";
    if version == "v1" then V1 else V2
  }

  function OutputDir(v: Version): string {
    if v == V1 then "premiere/ai-selves-leti-v1" else "premiere/ai-selves-leti-v2"
  }

  function SectionsOf(v: Version): seq<Section> {
    if v == V1 then SectionsV1 else SectionsV2
  }

  /** Without an argument the script builds the tight cut; each cut has its
      own output directory. */
  lemma VersionDefaults(script: string, arg: string)
    ensures SelectVersion([script]) == V2
    ensures SelectVersion([script, arg]) == (if arg == "v1" then V1 else V2)
    ensures OutputDir(V1) != OutputDir(V2)
  {
    assert OutputDir(V1)[25] != OutputDir(V2)[25];
  }

  // ---- Placeholders ----

  /** The caption drawn on a placeholder: the id after its first `-`, each
      further `-` a space, in capitals (`s["id"].split("-", 1)[1]
      .replace("-", " ").upper()`); None where the id has no `-` and
      Python raises IndexError. */
  function PlaceholderLabel(id: string): Option<string> {
    match AfterFirst(id, '-')
    case None => None
    case Some(rest) => Some(Upper(ReplaceChar(rest, '-', ' ')))
  }

  /** The label, character by character: after the first `-` at `k`, every
      `-` becomes a space and every lower-case ASCII letter its capital. */
  lemma PlaceholderLabelSpec(id: string, k: nat)
    requires k < |id| && id[k] == '-' && '-' !in id[..k]
    ensures PlaceholderLabel(id).Some?
    ensures var l := PlaceholderLabel(id).value;
      && |l| == |id| - k - 1
      && (forall i :: 0 <= i < |l| ==> l[i] == if id[k + 1 + i] == '-' then ' ' else UpperChar(id[k + 1 + i]))
      && '-' !in l
      && (forall i :: 0 <= i < |l| ==> !('a' <= l[i] <= 'z'))
  {
    var l := PlaceholderLabel(id).value;
    assert l == Upper(ReplaceChar(id[k + 1..], '-', ' '));
  }

  /** An id without `-` stops the script. */
  lemma PlaceholderLabelFails(id: string)
    ensures PlaceholderLabel(id).None? <==> '-' !in id
  {
  }

  /** `os.path.join(a, b)`: `b` alone when it is absolute, otherwise `a`
      and `b` with one `/` between them unless `a` is empty or already ends
      with one. */
  function PathJoin(a: string, b: string): string {
    if |b| > 0 && b[0] == '/' then b
    else if |a| == 0 || a[|a| - 1] == '/' then a + b
    else a + "/" + b
  }

  /** One ffmpeg run: a black 1920x1080 video at 24 fps lasting the
      section, its label `text` drawn in the middle, written to `outfile`. */
  datatype Job = Job(outfile: string, text: string, durMs: int)

  predicate Labelled(ss: seq<Section>) {
    forall i :: 0 <= i < |ss| ==> '-' in ss[i].id
  }

  /** Ids numbered `NN-…`: a `-` third. */
  predicate Numbered(ss: seq<Section>) {
    forall i :: 0 <= i < |ss| ==> |ss[i].id| > 2 && ss[i].id[2] == '-'
  }

  lemma NumberedAppend(a: seq<Section>, b: seq<Section>)
    requires Numbered(a) && Numbered(b)
    ensures Numbered(a + b)
  {
    forall i | 0 <= i < |a + b| ensures |(a + b)[i].id| > 2 && (a + b)[i].id[2] == '-' {
      if i >= |a| {
        assert (a + b)[i] == b[i - |a|];
      }
    }
  }

  /** Every id of both cuts is numbered `NN-…`, so no placeholder label
      fails. */
  lemma CutsLabelled()
    ensures Labelled(SectionsV1) && Labelled(SectionsV2)
  {
    V1Numbered();
    V2Numbered();
    NumberedLabelled(SectionsV1);
    NumberedLabelled(SectionsV2);
  }

  lemma V1Numbered()
    ensures Numbered(SectionsV1)
  {
    V1IntroTotals(); V1AnthonyTotals(); V1StarryTotals(); V1RusTotals();
    V1MatanTotals(); V1DemiTotals(); V1EndingInterruptedTotals(); V1EndingLoopTotals();
    var a := V1Intro + V1Anthony;
    NumberedAppend(V1Intro, V1Anthony);
    NumberedAppend(a, V1Starry);
    a := a + V1Starry;
    NumberedAppend(a, V1Rus);
    a := a + V1Rus;
    NumberedAppend(a, V1Matan);
    a := a + V1Matan;
    NumberedAppend(a, V1Demi);
    a := a + V1Demi;
    NumberedAppend(a, V1EndingInterrupted);
    a := a + V1EndingInterrupted;
    NumberedAppend(a, V1EndingLoop);
  }

  lemma V2Numbered()
    ensures Numbered(SectionsV2)
  {
    V2HookTotals(); V2AnthonyTheoTotals(); V2RapidMontageTotals();
    V2DemiSemiTotals(); V2EndingInterruptedTotals(); V2EndingLoopTotals();
    var b := V2Hook + V2AnthonyTheo;
    NumberedAppend(V2Hook, V2AnthonyTheo);
    NumberedAppend(b, V2RapidMontage);
    b := b + V2RapidMontage;
    NumberedAppend(b, V2DemiSemi);
    b := b + V2DemiSemi;
    NumberedAppend(b, V2EndingInterrupted);
    b := b + V2EndingInterrupted;
    NumberedAppend(b, V2EndingLoop);
  }

  lemma NumberedLabelled(ss: seq<Section>)
    requires Numbered(ss)
    ensures Labelled(ss)
  {
    forall i | 0 <= i < |ss| ensures '-' in ss[i].id {
      assert ss[i].id[2] == '-';
    }
  }

  /** The runs for `ss`, in order, into `phDir`. */
  function Jobs(phDir: string, ss: seq<Section>): (js: seq<Job>)
    requires Labelled(ss)
    ensures |js| == |ss|
    ensures forall i :: 0 <= i < |ss| ==> js[i].outfile == PathJoin(phDir, PlaceholderFile(ss[i].id))
    ensures forall i :: 0 <= i < |ss| ==> js[i].durMs == ss[i].dur && Some(js[i].text) == PlaceholderLabel(ss[i].id)
  {
    seq(|ss|, i requires 0 <= i < |ss| => Job(PathJoin(phDir, PlaceholderFile(ss[i].id)), PlaceholderLabel(ss[i].id).value, ss[i].dur))
  }

  /** `generate_placeholders`: one run per section, in order, into
      `out_dir/placeholders`. The script stops with IndexError at the first
      section whose id has no `-`, after the runs before it; `failedAt`
      says where. */
  method GeneratePlaceholders(outDir: string, sections: seq<Section>)
    returns (phDir: string, jobs: seq<Job>, failedAt: Option<nat>)
    ensures phDir == PathJoin(outDir, "placeholders")
    ensures failedAt.None? <==> Labelled(sections)
    ensures failedAt.None? ==> jobs == Jobs(phDir, sections)
    ensures failedAt.Some? ==>
      && failedAt.value < |sections|
      && '-' !in sections[failedAt.value].id
      && Labelled(sections[..failedAt.value])
      && jobs == Jobs(phDir, sections[..failedAt.value])
  {
    phDir := PathJoin(outDir, "placeholders");
    jobs := [];
    var i := 0;
    while i < |sections|
      invariant 0 <= i <= |sections|
      invariant Labelled(sections[..i])
      invariant jobs == Jobs(phDir, sections[..i])
    {
      var s := sections[i];
      var text := PlaceholderLabel(s.id);
      if text.None? {
        failedAt := Some(i);
        return;
      }
      jobs := jobs + [Job(PathJoin(phDir, PlaceholderFile(s.id)), text.value, s.dur)];
      assert sections[..i + 1] == sections[..i] + [s];
      i := i + 1;
    }
    assert sections[..i] == sections;
    failedAt := None;
  }

  /** Every placeholder is where the XML looks for it: the `pathurl` of
      clip `i`, taken relative to the package directory, is the file the
      `i`-th run writes. */
  lemma PlaceholdersLinked(outDir: string, ss: seq<Section>, i: nat)
    requires Labelled(ss) && i < |ss|
    requires |ss[i].id| == 0 || ss[i].id[0] != '/'
    ensures var clip := PictureClips(ss, Placeholder)[i];
      && clip.pathUrl.Some?
      && PathJoin(outDir, clip.pathUrl.value)
         == Jobs(PathJoin(outDir, "placeholders"), ss)[i].outfile
  {
    var f := PlaceholderFile(ss[i].id);
    assert f[0] != '/';
    JoinNested(outDir, "placeholders", f);
    assert "placeholders" + "/" == "placeholders/";
    assert ("placeholders" + "/") + f == "placeholders" + "/" + f;
    assert PictureClips(ss, Placeholder)[i].pathUrl == Some(PlaceholderPath(ss[i].id));
  }

  /** Joining `dir` and `sub`, then `f`, is joining `dir` and `sub/f`, for
      relative `sub` and `f` where `sub` does not end with `/`. */
  lemma JoinNested(dir: string, sub: string, f: string)
    requires |sub| > 0 && sub[0] != '/' && sub[|sub| - 1] != '/'
    requires |f| > 0 && f[0] != '/'
    ensures PathJoin(PathJoin(dir, sub), f) == PathJoin(dir, sub + "/" + f)
  {
    var d := PathJoin(dir, sub);
    assert d[|d| - 1] == sub[|sub| - 1];
    assert (sub + "/" + f)[0] == sub[0];
    if |dir| == 0 || dir[|dir| - 1] == '/' {
      assert d + "/" + f == dir + (sub + "/" + f);
    } else {
      assert d + "/" + f == dir + "/" + (sub + "/" + f);
    }
  }

  // ---- The XML ----

  /** The names written into the XML, the same for both cuts. */
  const XmlProjectName: string := "AI Selves Leti v2"
  const XmlSequenceName: string := "AI Selves Leti — 40s Cut"

  /** `generate_xml`: the tree with every clip's file a placeholder, pretty
      printed by `prettyPrint` (not modelled) with the declaration fixed;
      `clipCount` and `frames` are the figures it reports. */
  method GenerateXml(sections: seq<Section>, prettyPrint: Element -> string)
    returns (root: Element, content: string, clipCount: int, frames: int)
    ensures root == TimelineDocument(XmlProjectName, XmlSequenceName, sections, Placeholder)
    ensures content == FixDeclaration(prettyPrint(root))
    ensures clipCount == |sections| && frames == TotalFrames(sections)
  {
    root := BuildDocument(XmlProjectName, XmlSequenceName, sections, Placeholder);
    content := FixDeclaration(prettyPrint(root));
    clipCount := |sections|;
    frames := TotalFrames(sections);
  }

  // ---- The package ----

  /** What `main` produces: the output directory, the placeholder runs, the
      subtitle file and the number it reports, the XML text, and the
      closing summary's section count and total duration. */
  datatype Package = Package(outDir: string, jobs: seq<Job>, srt: string, subtitles: int,
                             xml: string, sections: int, totalMs: int)

  /** What `main` writes for the storyboard `ss` into `outDir`, or None
      when the placeholder step stops with IndexError. */
  function PackageOf(outDir: string, ss: seq<Section>, prettyPrint: Element -> string): Option<Package> {
    if !Labelled(ss) then None
    else
      var xml := FixDeclaration(prettyPrint(TimelineDocument(XmlProjectName, XmlSequenceName, ss, Placeholder)));
      Some(Package(outDir, Jobs(PathJoin(outDir, "placeholders"), ss), JoinLines(SrtLines(ss)), CaptionCount(ss),
                   xml, |ss|, TotalMillis(ss)))
  }

  /** The steps of `main` after the output directory is cleaned:
      placeholders, subtitles, then the XML, then the summary. */
  method GeneratePackage(outDir: string, sections: seq<Section>, prettyPrint: Element -> string)
    returns (pkg: Option<Package>)
    ensures pkg == PackageOf(outDir, sections, prettyPrint)
  {
    var _, jobs, failedAt := GeneratePlaceholders(outDir, sections);
    if failedAt.Some? {
      return None;
    }
    var _, srt, count := GenerateSrt(sections);
    var _, xml, _, _ := GenerateXml(sections, prettyPrint);
    pkg := Some(Package(outDir, jobs, srt, count, xml, |sections|, TotalMillis(sections)));
  }

  /** A labelled storyboard always yields a package, whose summary
      figures are those of the storyboard and with one run per section. */
  lemma PackageOfLabelled(outDir: string, ss: seq<Section>, prettyPrint: Element -> string)
    requires Labelled(ss)
    ensures var p := PackageOf(outDir, ss, prettyPrint);
      && p.Some? && p.value.outDir == outDir && |p.value.jobs| == |ss|
      && p.value.sections == |ss| && p.value.subtitles == CaptionCount(ss) && p.value.totalMs == TotalMillis(ss)
  {
  }

  /** The full cut finishes, with 18 sections, 39 captions and 76 seconds. */
  lemma V1Package(prettyPrint: Element -> string)
    ensures var p := PackageOf(OutputDir(V1), SectionsV1, prettyPrint);
      && p.Some? && p.value.outDir == OutputDir(V1)
      && p.value.sections == 18 && p.value.subtitles == 39 && p.value.totalMs == 76000 && |p.value.jobs| == 18
  {
    CutsLabelled();
    V1Totals();
    PackageOfLabelled(OutputDir(V1), SectionsV1, prettyPrint);
  }

  /** The tight cut finishes, with 19 sections, 30 captions and 40 seconds. */
  lemma V2Package(prettyPrint: Element -> string)
    ensures var p := PackageOf(OutputDir(V2), SectionsV2, prettyPrint);
      && p.Some? && p.value.outDir == OutputDir(V2)
      && p.value.sections == 19 && p.value.subtitles == 30 && p.value.totalMs == 40000 && |p.value.jobs| == 19
  {
    CutsLabelled();
    V2Totals();
    PackageOfLabelled(OutputDir(V2), SectionsV2, prettyPrint);
  }

  /** The script run with the command line `argv`: the cut it selects,
      into that cut's directory; on the shipped storyboards it always
      finishes, with the summary that cut reports. */
  method Run(argv: seq<string>, prettyPrint: Element -> string) returns (pkg: Option<Package>)
    ensures pkg == PackageOf(OutputDir(SelectVersion(argv)), SectionsOf(SelectVersion(argv)), prettyPrint)
    ensures pkg.Some? && pkg.value.outDir == OutputDir(SelectVersion(argv))
    ensures SelectVersion(argv) == V1 ==>
      pkg.value.sections == 18 && pkg.value.subtitles == 39 && pkg.value.totalMs == 76000 && |pkg.value.jobs| == 18
    ensures SelectVersion(argv) == V2 ==>
      pkg.value.sections == 19 && pkg.value.subtitles == 30 && pkg.value.totalMs == 40000 && |pkg.value.jobs| == 19
  {
    var v := SelectVersion(argv);
    if v == V1 {
      V1Package(prettyPrint);
      pkg := GeneratePackage(OutputDir(V1), SectionsV1, prettyPrint);
    } else {
      V2Package(prettyPrint);
      pkg := GeneratePackage(OutputDir(V2), SectionsV2, prettyPrint);
    }
  }
}
