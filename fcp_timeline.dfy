/** The timeline both export scripts write as FCP XML: one picture clip per
    section laid end to end from frame 0, and one Text generator per caption
    on a second track, each at its section's start frame plus its own
    rounded start. The two scripts run the same loops and differ only in
    how a clip names its file and in the project and sequence names. */
module FcpTimeline {
  import opened Wrappers
  import opened Decimal
  import opened Seqs
  import opened Storyboard
  import opened Xmeml

  /** How a clip's `<file>` is named. */
  datatype FileNaming =
    | LabelName   // the file is named after the section's label and has no path
    | Placeholder // the file is `{id}.mp4` at `placeholders/{id}.mp4`

  /** The placeholder video rendered for a section. */
  function PlaceholderFile(id: string): string {
    id + ".mp4"
  }

  /** The `pathurl` of a section's placeholder, relative to the package. */
  function PlaceholderPath(id: string): string {
    "placeholders/" + PlaceholderFile(id)
  }

  /** The clip for section `s`, number `k`, starting at frame `start`: named
      after the label, as long as the section's rounded frame count, its
      marker named after the section id with the label as comment. */
  function ClipOf(naming: FileNaming, k: int, s: Section, start: int): ClipView {
    var fileName := if naming == LabelName then s.title else PlaceholderFile(s.id);
    var path := if naming == LabelName then None else Some(PlaceholderPath(s.id));
    ClipView(k, s.title, SecToFrames(s.dur), start, fileName, path, s.id, s.title)
  }

  /** The picture track: clip `i` is number `i + 1` and starts at the sum of
      the earlier sections' frame counts. */
  function PictureClips(ss: seq<Section>, naming: FileNaming): seq<ClipView> {
    seq(|ss|, i requires 0 <= i < |ss| => ClipOf(naming, i + 1, ss[i], TotalFrames(ss[..i])))
  }

  lemma PictureClipsSnoc(ss: seq<Section>, naming: FileNaming, i: nat)
    requires i < |ss|
    ensures PictureClips(ss[..i + 1], naming) == PictureClips(ss[..i], naming) + [ClipOf(naming, i + 1, ss[i], TotalFrames(ss[..i]))]
  {
    var a := PictureClips(ss[..i + 1], naming);
    var b := PictureClips(ss[..i], naming) + [ClipOf(naming, i + 1, ss[i], TotalFrames(ss[..i]))];
    forall j | 0 <= j < i + 1 ensures a[j] == b[j] {
      TakeTake(ss, i + 1, j);
      if j < i {
        TakeTake(ss, i, j);
      }
    }
  }

  /** Clip `i + 1` starts where clip `i` ends. */
  lemma ClipsAdjacent(ss: seq<Section>, naming: FileNaming, i: nat)
    requires i + 1 < |ss|
    ensures var cs := PictureClips(ss, naming);
      cs[i].start + cs[i].frames == cs[i + 1].start
  {
    TakeSnoc(ss, i);
    TotalsSnoc(ss[..i], ss[i]);
  }

  /** The last clip ends at the sequence duration. */
  lemma LastClipEnd(ss: seq<Section>, naming: FileNaming)
    requires |ss| > 0
    ensures var cs := PictureClips(ss, naming);
      cs[|ss| - 1].start + cs[|ss| - 1].frames == TotalFrames(ss)
  {
    var n := |ss| - 1;
    TakeSnoc(ss, n);
    TotalsSnoc(ss[..n], ss[n]);
    assert ss[..n + 1] == ss;
  }

  /** The clips tile the track: the first starts at frame 0, each is
      numbered in order and lasts its section's frame count, each starts
      where the one before it ends, and the last ends at the sequence
      duration. */
  lemma PictureClipsTile(ss: seq<Section>, naming: FileNaming)
    ensures var cs := PictureClips(ss, naming);
      && |cs| == |ss|
      && (|ss| > 0 ==> cs[0].start == 0)
      && (forall i :: 0 <= i < |ss| ==> cs[i].number == i + 1 && cs[i].frames == SecToFrames(ss[i].dur))
      && (forall i :: 0 <= i < |ss| - 1 ==> cs[i].start + cs[i].frames == cs[i + 1].start)
      && (|ss| > 0 ==> cs[|ss| - 1].start + cs[|ss| - 1].frames == TotalFrames(ss))
  {
    var cs := PictureClips(ss, naming);
    if |ss| > 0 {
      assert ss[..0] == [];
      LastClipEnd(ss, naming);
    }
    forall i | 0 <= i < |ss| - 1 ensures cs[i].start + cs[i].frames == cs[i + 1].start {
      ClipsAdjacent(ss, naming, i);
    }
  }

  /** Every clip carries its section: its name and marker comment are the
      label, its marker name the id, and its file named as `naming` says. */
  lemma PictureClipNames(ss: seq<Section>, naming: FileNaming, i: nat)
    requires i < |ss|
    ensures var c := PictureClips(ss, naming)[i];
      && c.name == ss[i].title && c.markerComment == ss[i].title && c.markerName == ss[i].id
      && (naming == LabelName ==> c.fileName == ss[i].title && c.pathUrl == None)
      && (naming == Placeholder ==>
            c.fileName == ss[i].id + ".mp4" && c.pathUrl == Some("placeholders/" + ss[i].id + ".mp4"))
  {
    assert "placeholders/" + (ss[i].id + ".mp4") == "placeholders/" + ss[i].id + ".mp4";
  }

  /** No two clips share an id. */
  lemma ClipIdsDistinct(ss: seq<Section>, naming: FileNaming, i: nat, j: nat)
    requires i < j < |ss|
    ensures var cs := PictureClips(ss, naming);
      "clip-" + IntStr(cs[i].number) != "clip-" + IntStr(cs[j].number)
      && "file-" + IntStr(cs[i].number) != "file-" + IntStr(cs[j].number)
  {
    var cs := PictureClips(ss, naming);
    assert cs[i].number == i + 1 && cs[j].number == j + 1;
    IdsDistinct("clip-", cs[i].number, cs[j].number);
    IdsDistinct("file-", cs[i].number, cs[j].number);
  }

  /** The generator for caption `p` when it is number `k`: its text, its
      rounded duration, and its section's start frame plus its rounded start. */
  function GenOf(k: int, p: Placed): GenView {
    GenView(k, p.caption.text, p.Frames(), p.StartFrame())
  }

  /** The generators for `ps`, numbered from `first`. */
  function Gens(ps: seq<Placed>, first: int): (gs: seq<GenView>)
    ensures |gs| == |ps|
    ensures forall q :: 0 <= q < |ps| ==> gs[q] == GenOf(first + q, ps[q])
  {
    seq(|ps|, q requires 0 <= q < |ps| => GenOf(first + q, ps[q]))
  }

  /** The caption track: every caption in section-then-caption order,
      numbered from 1. */
  function CaptionGens(ss: seq<Section>): seq<GenView> {
    Gens(Placements(ss), 1)
  }

  /** Generator `q`, for caption `j` of section `i`: numbered `q + 1` where
      `q` counts the captions before it, with the caption's text, its
      rounded duration, and a start at the earlier sections' frame total
      plus its own rounded start. */
  lemma GenFor(ss: seq<Section>, i: nat, j: nat)
    requires i < |ss| && j < |ss[i].subs|
    ensures var q := CaptionCount(ss[..i]) + j;
      var c := ss[i].subs[j];
      var gs := CaptionGens(ss);
      && |gs| == CaptionCount(ss)
      && q < |gs|
      && gs[q] == GenView(q + 1, c.text, SecToFrames(c.dur), TotalFrames(ss[..i]) + SecToFrames(c.start))
  {
    PlacementAt(ss, i, j);
  }

  /** No two generators share an id. */
  lemma GenIdsDistinct(ss: seq<Section>, p: nat, q: nat)
    requires p < q < CaptionCount(ss)
    ensures |CaptionGens(ss)| == CaptionCount(ss)
    ensures "sub-" + IntStr(CaptionGens(ss)[p].number) != "sub-" + IntStr(CaptionGens(ss)[q].number)
  {
    PlaceAllLength(ss, 0, 0);
    IdsDistinct("sub-", p + 1, q + 1);
  }

  /** One section's generators, the section starting at frame `offset` and
      its first caption numbered `k`. */
  function SectionGens(subs: seq<Caption>, offset: int, k: int): (gs: seq<GenView>)
    ensures |gs| == |subs|
    ensures forall j :: 0 <= j < |subs| ==> gs[j] == GenOf(k + j, Placed(0, offset, subs[j]))
  {
    seq(|subs|, j requires 0 <= j < |subs| => GenOf(k + j, Placed(0, offset, subs[j])))
  }

  lemma SectionGensSnoc(subs: seq<Caption>, j: nat, offset: int, k: int)
    requires j < |subs|
    ensures SectionGens(subs[..j + 1], offset, k) == SectionGens(subs[..j], offset, k) + [GenOf(k + j, Placed(0, offset, subs[j]))]
  {
    var a := SectionGens(subs[..j + 1], offset, k);
    var b := SectionGens(subs[..j], offset, k) + [GenOf(k + j, Placed(0, offset, subs[j]))];
    forall q | 0 <= q < |a| ensures a[q] == b[q] {
      assert subs[..j + 1][q] == subs[q];
    }
  }

  /** The generators of a laid-out section do not depend on its offset in
      milliseconds. */
  lemma PlacedSectionGens(subs: seq<Caption>, ms: int, frame: int, k: int)
    ensures Gens(PlaceCaptions(subs, ms, frame), k) == SectionGens(subs, frame, k)
  {
  }

  lemma GensAppend(a: seq<Placed>, b: seq<Placed>, first: int, next: int)
    requires next == first + |a|
    ensures Gens(a + b, first) == Gens(a, first) + Gens(b, next)
  {
    var x := Gens(a + b, first);
    var y := Gens(a, first) + Gens(b, next);
    forall q | 0 <= q < |x| ensures x[q] == y[q] {
      if q < |a| {
        assert (a + b)[q] == a[q];
      } else {
        assert (a + b)[q] == b[q - |a|];
      }
    }
  }

  /** One more section appends its captions' generators, numbered after the
      earlier captions and offset by the earlier sections' frame total. */
  lemma GensSectionSnoc(ss: seq<Section>, s: Section)
    ensures CaptionGens(ss + [s]) == CaptionGens(ss) + SectionGens(s.subs, TotalFrames(ss), CaptionCount(ss) + 1)
  {
    var placed := PlaceCaptions(s.subs, TotalMillis(ss), TotalFrames(ss));
    PlaceAllSnoc(ss, s, 0, 0);
    PlaceAllLength(ss, 0, 0);
    GensAppend(Placements(ss), placed, 1, CaptionCount(ss) + 1);
    PlacedSectionGens(s.subs, TotalMillis(ss), TotalFrames(ss), CaptionCount(ss) + 1);
  }

  lemma ClipElementsAppend(a: seq<ClipView>, b: seq<ClipView>)
    ensures ClipElements(a + b) == ClipElements(a) + ClipElements(b)
  {
  }

  lemma GenElementsAppend(a: seq<GenView>, b: seq<GenView>)
    ensures GenElements(a + b) == GenElements(a) + GenElements(b)
  {
  }

  /** The whole document for `ss`: the sequence lasts the sum of the
      sections' frame counts, then the picture and caption tracks. */
  function TimelineDocument(projectName: string, sequenceName: string, ss: seq<Section>, naming: FileNaming): Element {
    Document(projectName, sequenceName, TotalFrames(ss),
             ClipElements(PictureClips(ss, naming)), GenElements(CaptionGens(ss)))
  }

  /** Reading the document back gives its names, the sequence duration, and
      exactly the picture clips and captions of the storyboard, in order. */
  lemma TimelineDocumentDecodes(projectName: string, sequenceName: string, ss: seq<Section>, naming: FileNaming)
    ensures DecodeDocument(TimelineDocument(projectName, sequenceName, ss, naming))
         == Some(DocView(projectName, sequenceName, TotalFrames(ss), PictureClips(ss, naming), CaptionGens(ss)))
  {
    DocumentRoundTrip(projectName, sequenceName, TotalFrames(ss), PictureClips(ss, naming), CaptionGens(ss));
  }

  /** The picture-track loop: for each section, a clip numbered from 1 at
      `timeline_pos`, then `timeline_pos` advances by the section's frames. */
  method PictureTrack(sections: seq<Section>, naming: FileNaming) returns (clips: seq<Element>, timelinePos: int)
    ensures clips == ClipElements(PictureClips(sections, naming))
    ensures timelinePos == TotalFrames(sections)
  {
    clips := [];
    timelinePos := 0;
    for i := 0 to |sections|
      invariant clips == ClipElements(PictureClips(sections[..i], naming))
      invariant timelinePos == TotalFrames(sections[..i])
    {
      var s := sections[i];
      var durFrames := SecToFrames(s.dur);
      var c := ClipOf(naming, i + 1, s, timelinePos);
      PictureClipsSnoc(sections, naming, i);
      ClipElementsAppend(PictureClips(sections[..i], naming), [c]);
      clips := clips + [ClipElement(c)];
      TakeSnoc(sections, i);
      TotalsSnoc(sections[..i], s);
      timelinePos := timelinePos + durFrames;
    }
    assert sections[..|sections|] == sections;
  }

  /** The inner caption loop: one section's captions, each starting at
      `section_start` plus its rounded start and numbered on from `sub_id`. */
  method AppendSectionGens(gens0: seq<Element>, subId0: int, sectionStart: int, subs: seq<Caption>)
    returns (gens: seq<Element>, subId: int)
    ensures gens == gens0 + GenElements(SectionGens(subs, sectionStart, subId0))
    ensures subId == subId0 + |subs|
  {
    gens := gens0;
    subId := subId0;
    for j := 0 to |subs|
      invariant gens == gens0 + GenElements(SectionGens(subs[..j], sectionStart, subId0))
      invariant subId == subId0 + j
    {
      var c := subs[j];
      var subStart := sectionStart + SecToFrames(c.start);
      var subDur := SecToFrames(c.dur);
      var g := GenView(subId, c.text, subDur, subStart);
      assert g == GenOf(subId0 + j, Placed(0, sectionStart, c));
      SectionGensSnoc(subs, j, sectionStart, subId0);
      GenElementsAppend(SectionGens(subs[..j], sectionStart, subId0), [g]);
      Assoc(gens0, GenElements(SectionGens(subs[..j], sectionStart, subId0)), [GenElement(g)]);
      gens := gens + [GenElement(g)];
      subId := subId + 1;
    }
    assert subs[..|subs|] == subs;
  }

  /** The caption-track loop: `timeline_pos` walks the sections by their
      frame counts and `sub_id` counts captions from 1. */
  method CaptionTrack(sections: seq<Section>) returns (gens: seq<Element>)
    ensures gens == GenElements(CaptionGens(sections))
  {
    var timelinePos := 0;
    var subId := 1;
    gens := [];
    for i := 0 to |sections|
      invariant timelinePos == TotalFrames(sections[..i])
      invariant subId == CaptionCount(sections[..i]) + 1
      invariant gens == GenElements(CaptionGens(sections[..i]))
    {
      var s := sections[i];
      ghost var added := SectionGens(s.subs, timelinePos, subId);
      gens, subId := AppendSectionGens(gens, subId, timelinePos, s.subs);
      TakeSnoc(sections, i);
      GensSectionSnoc(sections[..i], s);
      GenElementsAppend(CaptionGens(sections[..i]), added);
      TotalsSnoc(sections[..i], s);
      timelinePos := timelinePos + SecToFrames(s.dur);
    }
    assert sections[..|sections|] == sections;
  }

  /** Builds the whole tree: root, project name, sequence name and
      duration, the picture track, then the caption track. */
  method BuildDocument(projectName: string, sequenceName: string, sections: seq<Section>, naming: FileNaming)
    returns (root: Element)
    ensures root == TimelineDocument(projectName, sequenceName, sections, naming)
  {
    var clips, _ := PictureTrack(sections, naming);
    var gens := CaptionTrack(sections);
    root := Document(projectName, sequenceName, TotalFrames(sections), clips, gens);
  }
}
