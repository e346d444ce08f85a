/** scripts/generate-prproj-xml.py: writes the Leti storyboard (19
    sections, 40 s) as an FCP XML document for Premiere, every clip a
    placeholder named after its section's label, every caption a Text
    generator. */
module PrprojXml {
  import opened Storyboard
  import opened Xmeml
  import opened FcpTimeline

  // The storyboard `SECTIONS`, times in milliseconds, written in the
  // script's commented groups.

  /** HOOK (5 s). */
  const Hook: seq<Section> := [
    Section("hook", "HOOK — Text card or to camera", 4000, [
      Caption(0, 2500, "You're not gonna believe this but —"),
      Caption(2500, 1500, "our company used our own product, AI Selves, to push the actual product.")
    ]),
    Section("explain", "LET ME EXPLAIN — Beat", 1000, [
      Caption(0, 1000, "Let me explain.")
    ])
  ]
  /** ANTHONY + THEO, the full intro (8 s). */
  const AnthonyTheo: seq<Section> := [
    Section("anthony", "ANTHONY — Photo + title (Head of Partnerships)", 2000, [
      Caption(0, 1500, "This is Anthony, our head of partnerships."),
      Caption(1500, 500, "And this is Theo.")
    ]),
    Section("theo", "THEO — Avatar + ding + (his AI Self)", 2000, [
      Caption(0, 500, "(his AI Self)"),
      Caption(500, 1500, "Theo monitors brand mentions in real time")
    ]),
    Section("theo-work", "THEO WORK — Scanning UI + Slack", 4000, [
      Caption(0, 2000, "and helped Anthony evaluate partnerships around the clock"),
      Caption(2000, 2000, "for the launch.")
    ])
  ]
  /** RAPID MONTAGE: Starry/Momo, Rus/Russ, Matan/Raccoon (4 s). */
  const RapidMontage: seq<Section> := [
    Section("montage-starry", "RAPID — Starry photo → Momo avatar + ding", 1300, [
      Caption(0, 600, "Starry — Momo"),
      Caption(600, 700, "(her AI Self)")
    ]),
    Section("montage-rus", "RAPID — Rus photo → Russ avatar + ding", 1300, [
      Caption(0, 600, "Rus — Russ"),
      Caption(600, 700, "(his AI Self)")
    ]),
    Section("montage-matan", "RAPID — Matan photo → Raccoon 2.0 avatar + ding", 1400, [
      Caption(0, 600, "Matan — Raccoon 2.0"),
      Caption(600, 800, "(his AI Self)")
    ])
  ]
  /** DEMI + SEMI, the hierarchy punchline (7 s). */
  const DemiSemi: seq<Section> := [
    Section("demi", "DEMI — Photo + CEO title", 2000, [
      Caption(0, 2000, "Oh, and all of them report up to our CEO, Demi Guo.")
    ]),
    Section("not-exactly", "BEAT — 'Well… not exactly.'", 1500, [
      Caption(0, 1500, "Well… not exactly.")
    ]),
    Section("semi", "SEMI — Avatar + ding + (her AI Self)", 1500, [
      Caption(0, 1000, "They report to Semi —"),
      Caption(0, 1000, "(her AI Self)")
    ]),
    Section("demi-busy", "DEMI BUSY — Calendar + punchline", 2000, [
      Caption(0, 1000, "and Semi reports back to her."),
      Caption(1000, 1000, "Because Demi is waaaay too busy.")
    ])
  ]
  /** THE ENDING (16 s), first part: Leti's introduction, interrupted by
      Mochi (9 s). */
  const EndingInterrupted: seq<Section> := [
    Section("leti-intro", "LETI — To camera, normal intro", 3000, [
      Caption(0, 2500, "And me? I'm Leti, and I usually make videos, buuuut—"),
      Caption(2500, 500, "[MEOW]")
    ]),
    Section("mochi-reveal", "MOCHI — Hard cut, smashing keyboard, 2 monitors", 3000, [
      Caption(0, 1500, "(my AI Self)")
    ]),
    Section("leti-annoyed", "LETI OFFSCREEN — 'ffs I'm in the middle of introducing yo—'", 2000, [
      Caption(0, 2000, "Mochi— ffs, I'm in the middle of introducing yo—")
    ]),
    Section("mochi-glitch", "GLITCH — Mochi stares at camera annoyed", 1000, [])
  ]
  /** THE ENDING, second part: the comeback and the loop (7 s). */
  const EndingLoop: seq<Section> := [
    Section("leti-comeback", "LETI — 'Anyways, I'm—' (gets cut off again)", 1500, [
      Caption(0, 1000, "Anyways, I'm—")
    ]),
    Section("mochi-done", "MOCHI GLITCH — Leti: 'oh you're done?'", 3500, [
      Caption(0, 1500, "What?? What do you need from me—"),
      Caption(1500, 1000, "oh. Oh! You're done editing the video?"),
      Caption(2500, 1000, "Ok ok lemme check it out.")
    ]),
    Section("loop-zoom", "ZOOM INTO MOCHI SCREEN → LOOP ∞", 2000, [
      Caption(1000, 1000, "\"You're not gonna believe this but—\"")
    ])
  ]
  const Sections: seq<Section> :=
    Hook + AnthonyTheo + RapidMontage + DemiSemi + EndingInterrupted + EndingLoop

  const ProjectName: string := "Leti AI Selves Video"
  const SequenceName: string := "Leti AI Selves — Main"

  lemma HookTotals()
    ensures TotalsOf(Hook) == Totals(2, 5000, 120, 3)
  {
  }

  lemma AnthonyTheoTotals()
    ensures TotalsOf(AnthonyTheo) == Totals(3, 8000, 192, 6)
  {
  }

  lemma RapidMontageTotals()
    ensures TotalsOf(RapidMontage) == Totals(3, 4000, 96, 6)
  {
  }

  lemma DemiSemiTotals()
    ensures TotalsOf(DemiSemi) == Totals(4, 7000, 168, 6)
  {
  }

  lemma EndingInterruptedTotals()
    ensures TotalsOf(EndingInterrupted) == Totals(4, 9000, 216, 4)
    ensures EndingInterrupted[3].id == "mochi-glitch" && EndingInterrupted[3].subs == []
  {
  }

  lemma EndingLoopTotals()
    ensures TotalsOf(EndingLoop) == Totals(3, 7000, 168, 5)
  {
  }

  /** THE ENDING lasts the 16 s its heading says. */
  lemma EndingTotals()
    ensures TotalsOf(EndingInterrupted + EndingLoop) == Totals(7, 16000, 384, 9)
  {
    EndingInterruptedTotals();
    EndingLoopTotals();
    TotalsAppend(EndingInterrupted, EndingLoop);
  }

  /** The storyboard's totals, each group lasting what its heading says:
      19 sections, 40 seconds, 960 frames and 30 captions. Rounding each
      section on its own loses nothing: 960 frames is 40 s at 24 fps. */
  lemma SectionsTotals()
    ensures TotalsOf(Sections) == Totals(19, 40000, 960, 30)
  {
    HookTotals();
    AnthonyTheoTotals();
    RapidMontageTotals();
    DemiSemiTotals();
    EndingInterruptedTotals();
    EndingLoopTotals();
    TotalsOfSix(Hook, AnthonyTheo, RapidMontage, DemiSemi, EndingInterrupted, EndingLoop);
  }

  /** The sixteenth section, `mochi-glitch`, has no captions. */
  lemma MochiGlitchSilent()
    ensures Sections[15].id == "mochi-glitch" && Sections[15].subs == []
  {
    EndingInterruptedTotals();
    assert |Hook + AnthonyTheo + RapidMontage + DemiSemi| == 12;
  }

  /** `build_xml`: builds the tree with the clip files named after their
      labels, hands it to `prettyPrint` (ElementTree's serialisation and
      minidom's pretty-printer, not modelled) and applies the declaration
      fix-up to the result. */
  method BuildXml(prettyPrint: Element -> string) returns (root: Element, content: string)
    ensures root == TimelineDocument(ProjectName, SequenceName, Sections, LabelName)
    ensures content == FixDeclaration(prettyPrint(root))
  {
    root := BuildDocument(ProjectName, SequenceName, Sections, LabelName);
    content := FixDeclaration(prettyPrint(root));
  }

  /** The printed summary agrees with the document: the section count is
      the number of clips, the frame count the sequence duration and the
      end of the last clip; there is one generator per caption. */
  lemma SummaryMatchesDocument(ss: seq<Section>)
    ensures var d := DecodeDocument(TimelineDocument(ProjectName, SequenceName, ss, LabelName));
      && d.Some?
      && d.value.duration == TotalsOf(ss).frames
      && |d.value.clips| == TotalsOf(ss).sections
      && |d.value.gens| == TotalsOf(ss).captions
      && (|ss| > 0 ==> d.value.clips[|ss| - 1].start + d.value.clips[|ss| - 1].frames == d.value.duration)
  {
    TimelineDocumentDecodes(ProjectName, SequenceName, ss, LabelName);
    PictureClipsTile(ss, LabelName);
    PlaceAllLength(ss, 0, 0);
  }
}
