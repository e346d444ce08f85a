/** The FCP XML (xmeml version 5) element tree both export scripts build
    with ElementTree: elements with a tag, attributes, optional text and
    children. A picture clip and a caption generator are each described by
    a small record (ClipView, GenView); the encoders build exactly the
    elements the scripts build, and the decoders read the records back, so
    a decoder applied to an encoder's output returns the record. */
module Xmeml {
  import opened Wrappers
  import opened Decimal
  import opened Text
  import opened Seqs

  /** An ElementTree element: `tag`, `attrib` in insertion order, `text`
      (None until assigned) and the sub-elements in order. */
  datatype Element = Element(tag: string, attrs: seq<(string, string)>, text: Option<string>, children: seq<Element>)

  /** `ET.SubElement(parent, tag).text = text`. */
  function Leaf(tag: string, text: string): Element {
    Element(tag, [], Some(text), [])
  }

  /** An element holding only sub-elements. */
  function Node(tag: string, children: seq<Element>): Element {
    Element(tag, [], None, children)
  }

  /** `<rate><timebase>24</timebase><ntsc>FALSE</ntsc></rate>`, written under
      the sequence, every clip, every file and every generator. */
  function Rate(): Element {
    Node("rate", [Leaf("timebase", "24"), Leaf("ntsc", "FALSE")])
  }

  /** A file's media description: 1920 by 1080 video. */
  function Media(): Element {
    Node("media", [Node("video", [Node("samplecharacteristics", [Leaf("width", "1920"), Leaf("height", "1080")])])])
  }

  /** The text of a leaf element with tag `tag`. */
  function LeafText(e: Element, tag: string): Option<string> {
    if e.tag == tag && |e.attrs| == 0 && e.text.Some? && |e.children| == 0 then Some(e.text.value) else None
  }

  /** The integer a leaf element with tag `tag` holds. */
  function LeafInt(e: Element, tag: string): Option<int> {
    match LeafText(e, tag)
    case Some(t) => ParseInt(t)
    case None => None
  }

  lemma LeafTextRoundTrip(tag: string, text: string)
    ensures LeafText(Leaf(tag, text), tag) == Some(text)
  {
  }

  lemma LeafIntRoundTrip(tag: string, n: int)
    ensures LeafInt(Leaf(tag, IntStr(n)), tag) == Some(n)
  {
    IntStrRoundTrip(n);
  }

  /** The number in an `id` attribute `prefix + str(k)`, when that is the
      element's only attribute. */
  function IdNumber(attrs: seq<(string, string)>, prefix: string): Option<int> {
    if |attrs| == 1 && attrs[0].0 == "id" && StartsWith(attrs[0].1, prefix)
    then ParseInt(attrs[0].1[|prefix|..])
    else None
  }

  lemma IdNumberRoundTrip(prefix: string, k: int)
    ensures IdNumber([("id", prefix + IntStr(k))], prefix) == Some(k)
  {
    var v := prefix + IntStr(k);
    assert v[..|prefix|] == prefix && v[|prefix|..] == IntStr(k);
    IntStrRoundTrip(k);
  }

  /** Distinct numbers give distinct ids: `clip-1`, `clip-2`, ... never
      repeat. */
  lemma IdsDistinct(prefix: string, k: int, l: int)
    requires k != l
    ensures prefix + IntStr(k) != prefix + IntStr(l)
  {
    IdNumberRoundTrip(prefix, k);
    IdNumberRoundTrip(prefix, l);
  }

  // ---------------------------------------------------------------- clips

  /** What a picture clip says: its number `k` (ids `clip-k` and `file-k`),
      name, length and start in frames, the name and optional `pathurl` of
      its file, and the name and comment of its marker. */
  datatype ClipView = ClipView(number: int, name: string, frames: int, start: int,
                               fileName: string, pathUrl: Option<string>,
                               markerName: string, markerComment: string)

  /** The clip's `<file id="file-k">`: name, duration, rate, the path when
      there is one, and the media description. */
  function FileElement(c: ClipView): Element {
    var path := match c.pathUrl case Some(u) => [Leaf("pathurl", u)] case None => [];
    Element("file", [("id", "file-" + IntStr(c.number))], None,
      [Leaf("name", c.fileName), Leaf("duration", IntStr(c.frames)), Rate()] + path + [Media()])
  }

  /** The marker every clip carries: in "0", out "-1". */
  function MarkerElement(name: string, comment: string): Element {
    Node("marker", [Leaf("name", name), Leaf("comment", comment), Leaf("in", "0"), Leaf("out", "-1")])
  }

  /** `<clipitem id="clip-k">`: name, duration, rate, start, end = start +
      duration, in = 0, out = duration, then the file and the marker. */
  function ClipElement(c: ClipView): Element {
    Element("clipitem", [("id", "clip-" + IntStr(c.number))], None,
      Timing(c.name, c.frames, c.start) + [FileElement(c), MarkerElement(c.markerName, c.markerComment)])
  }

  /** The seven timing children a clip and a generator both start with:
      name, duration, rate, start, end = start + duration, in = 0, out =
      duration. */
  function Timing(name: string, frames: int, start: int): seq<Element> {
    [Leaf("name", name), Leaf("duration", IntStr(frames)), Rate(),
     Leaf("start", IntStr(start)), Leaf("end", IntStr(start + frames)),
     Leaf("in", "0"), Leaf("out", IntStr(frames))]
  }

  /** Reads the name, duration and start from the seven timing children;
      None unless they have Timing's shape with end = start + duration and
      out = duration. */
  function DecodeTiming(ch: seq<Element>): Option<(string, int, int)>
    requires |ch| == 7
  {
    var name := LeafText(ch[0], "name");
    var frames := LeafInt(ch[1], "duration");
    var start := LeafInt(ch[3], "start");
    var end := LeafInt(ch[4], "end");
    var out := LeafInt(ch[6], "out");
    if name.Some? && frames.Some? && start.Some? && end.Some? && out.Some?
      && ch[2] == Rate() && ch[5] == Leaf("in", "0")
      && end.value == start.value + frames.value && out.value == frames.value
    then Some((name.value, frames.value, start.value))
    else None
  }

  lemma TimingRoundTrip(name: string, frames: int, start: int)
    ensures DecodeTiming(Timing(name, frames, start)) == Some((name, frames, start))
  {
    var t := Timing(name, frames, start);
    assert LeafText(t[0], "name") == Some(name);
    assert LeafInt(t[1], "duration") == Some(frames) by { LeafIntRoundTrip("duration", frames); }
    assert LeafInt(t[3], "start") == Some(start) by { LeafIntRoundTrip("start", start); }
    assert LeafInt(t[4], "end") == Some(start + frames) by { LeafIntRoundTrip("end", start + frames); }
    assert LeafInt(t[6], "out") == Some(frames) by { LeafIntRoundTrip("out", frames); }
    DecodeTimingOf(t, name, frames, start);
  }

  /** DecodeTiming accepts seven elements whose leaves read as a name, a
      duration and a start, with the rate, `in` 0, and a consistent end
      and out. */
  lemma DecodeTimingOf(ch: seq<Element>, name: string, frames: int, start: int)
    requires |ch| == 7
    requires LeafText(ch[0], "name") == Some(name) && LeafInt(ch[1], "duration") == Some(frames)
    requires ch[2] == Rate() && LeafInt(ch[3], "start") == Some(start)
    requires LeafInt(ch[4], "end") == Some(start + frames) && ch[5] == Leaf("in", "0")
    requires LeafInt(ch[6], "out") == Some(frames)
    ensures DecodeTiming(ch) == Some((name, frames, start))
  {
  }

  /** What a file element says: number, name, duration and path. */
  datatype FileView = FileView(number: int, name: string, frames: int, pathUrl: Option<string>)

  function DecodeFile(e: Element): Option<FileView> {
    var ch := e.children;
    var k := IdNumber(e.attrs, "file-");
    if e.tag != "file" || e.text.Some? || k.None? || !(4 <= |ch| <= 5) then None
    else
      var name := LeafText(ch[0], "name");
      var frames := LeafInt(ch[1], "duration");
      var path := if |ch| == 5 then LeafText(ch[3], "pathurl") else None;
      if name.Some? && frames.Some? && ch[2] == Rate() && ch[|ch| - 1] == Media()
        && (|ch| == 5 ==> path.Some?)
      then Some(FileView(k.value, name.value, frames.value, path))
      else None
  }

  function DecodeMarker(e: Element): Option<(string, string)> {
    var ch := e.children;
    if e.tag != "marker" || |e.attrs| != 0 || e.text.Some? || |ch| != 4 then None
    else
      var name := LeafText(ch[0], "name");
      var comment := LeafText(ch[1], "comment");
      if name.Some? && comment.Some? && ch[2] == Leaf("in", "0") && ch[3] == Leaf("out", "-1")
      then Some((name.value, comment.value))
      else None
  }

  /** Reads a clip back; None unless the element has exactly the shape
      ClipElement builds and its numbers agree (end = start + duration,
      out = duration, the file's number and duration match the clip's). */
  function DecodeClip(e: Element): Option<ClipView> {
    var ch := e.children;
    var k := IdNumber(e.attrs, "clip-");
    if e.tag != "clipitem" || e.text.Some? || k.None? || |ch| != 9 then None
    else
      match (DecodeTiming(ch[..7]), DecodeFile(ch[7]), DecodeMarker(ch[8]))
      case (Some((name, frames, start)), Some(file), Some((markerName, markerComment))) =>
        if file.number == k.value && file.frames == frames
        then Some(ClipView(k.value, name, frames, start, file.name, file.pathUrl, markerName, markerComment))
        else None
      case _ => None
  }

  lemma FileRoundTrip(c: ClipView)
    ensures DecodeFile(FileElement(c)) == Some(FileView(c.number, c.fileName, c.frames, c.pathUrl))
  {
    IdNumberRoundTrip("file-", c.number);
    LeafIntRoundTrip("duration", c.frames);
  }

  lemma MarkerRoundTrip(name: string, comment: string)
    ensures DecodeMarker(MarkerElement(name, comment)) == Some((name, comment))
  {
  }

  /** Decoding a clip element gives back the clip it was built from. */
  lemma ClipRoundTrip(c: ClipView)
    ensures DecodeClip(ClipElement(c)) == Some(c)
  {
    var rest := [FileElement(c), MarkerElement(c.markerName, c.markerComment)];
    IdNumberRoundTrip("clip-", c.number);
    TimingRoundTrip(c.name, c.frames, c.start);
    AppendSlices(Timing(c.name, c.frames, c.start), rest);
    FileRoundTrip(c);
    MarkerRoundTrip(c.markerName, c.markerComment);
  }

  // ------------------------------------------------------------ captions

  /** What a caption generator says: its number `k` (id `sub-k`), full
      text, length and start in frames. */
  datatype GenView = GenView(number: int, text: string, frames: int, start: int)

  /** `<parameter>` with its id, display name and value. */
  function Param(id: string, name: string, value: string): Element {
    Node("parameter", [Leaf("parameterid", id), Leaf("name", name), Leaf("value", value)])
  }

  /** The Text generator effect: the full text in the "str" parameter, font
      "SF Pro", size "42". */
  function Effect(text: string): Element {
    Node("effect", [Leaf("name", "Text"), Leaf("effectid", "Text"), Leaf("effectcategory", "Text"),
                    Leaf("effecttype", "generator"), Leaf("mediatype", "video"),
                    Param("str", "Text", text), Param("font", "Font", "SF Pro"), Param("fontsize", "Font Size", "42")])
  }

  /** `<generatoritem id="sub-k">`: the name is the first 50 characters of
      the text, then duration, rate, start, end = start + duration, in = 0,
      out = duration and the effect. */
  function GenElement(g: GenView): Element {
    Element("generatoritem", [("id", "sub-" + IntStr(g.number))], None,
      Timing(Take(g.text, 50), g.frames, g.start) + [Effect(g.text)])
  }

  /** The text an effect element carries, when it has Effect's shape. */
  function DecodeEffect(e: Element): Option<string> {
    var ch := e.children;
    if e.tag != "effect" || |e.attrs| != 0 || e.text.Some? || |ch| != 8 then None
    else
      var p := ch[5];
      if p.tag == "parameter" && |p.attrs| == 0 && p.text.None? && |p.children| == 3
        && p.children[0] == Leaf("parameterid", "str") && p.children[1] == Leaf("name", "Text")
        && LeafText(p.children[2], "value").Some?
      then
        var text := LeafText(p.children[2], "value").value;
        if ch == Effect(text).children then Some(text) else None
      else None
  }

  /** Reads a generator back; None unless it has GenElement's shape, its
      numbers agree and its name is the first 50 characters of its text. */
  function DecodeGen(e: Element): Option<GenView> {
    var ch := e.children;
    var k := IdNumber(e.attrs, "sub-");
    if e.tag != "generatoritem" || e.text.Some? || k.None? || |ch| != 8 then None
    else
      match (DecodeTiming(ch[..7]), DecodeEffect(ch[7]))
      case (Some((name, frames, start)), Some(text)) =>
        if name == Take(text, 50) then Some(GenView(k.value, text, frames, start)) else None
      case _ => None
  }

  lemma EffectRoundTrip(text: string)
    ensures DecodeEffect(Effect(text)) == Some(text)
  {
  }

  /** Decoding a generator element gives back the caption it was built
      from, the full text included although the name is cut to 50. */
  lemma GenRoundTrip(g: GenView)
    ensures DecodeGen(GenElement(g)) == Some(g)
  {
    IdNumberRoundTrip("sub-", g.number);
    TimingRoundTrip(Take(g.text, 50), g.frames, g.start);
    AppendSlices(Timing(Take(g.text, 50), g.frames, g.start), [Effect(g.text)]);
    EffectRoundTrip(g.text);
  }

  // ------------------------------------------------------------ document

  function ClipElements(cs: seq<ClipView>): (es: seq<Element>)
    ensures |es| == |cs| && forall i :: 0 <= i < |cs| ==> es[i] == ClipElement(cs[i])
  {
    seq(|cs|, i requires 0 <= i < |cs| => ClipElement(cs[i]))
  }

  function GenElements(gs: seq<GenView>): (es: seq<Element>)
    ensures |es| == |gs| && forall i :: 0 <= i < |gs| ==> es[i] == GenElement(gs[i])
  {
    seq(|gs|, i requires 0 <= i < |gs| => GenElement(gs[i]))
  }

  /** The two tracks under `<video>`: the clips, then `enabled` TRUE,
      `locked` FALSE and the generators. */
  function Tracks(clips: seq<Element>, gens: seq<Element>): seq<Element> {
    [Node("track", clips), Node("track", [Leaf("enabled", "TRUE"), Leaf("locked", "FALSE")] + gens)]
  }

  /** `<sequence>`: name, duration, rate, and media / video holding
      `video` (the tracks). */
  function Sequence(name: string, duration: int, video: seq<Element>): Element {
    Node("sequence", [Leaf("name", name), Leaf("duration", IntStr(duration)), Rate(),
                      Node("media", [Node("video", video)])])
  }

  /** `<xmeml version="5">` / project (name) / children / the sequence. */
  function Project(projectName: string, sequence: Element): Element {
    Element("xmeml", [("version", "5")], None, [
      Node("project", [Leaf("name", projectName), Node("children", [sequence])])])
  }

  /** The whole tree both scripts write. */
  function Document(projectName: string, sequenceName: string, duration: int,
                    clips: seq<Element>, gens: seq<Element>): Element {
    Project(projectName, Sequence(sequenceName, duration, Tracks(clips, gens)))
  }

  function DecodeClips(es: seq<Element>): (r: Option<seq<ClipView>>)
    ensures r.Some? ==> |r.value| == |es|
  {
    if |es| == 0 then Some([])
    else
      match (DecodeClip(es[0]), DecodeClips(es[1..]))
      case (Some(c), Some(rest)) => Some([c] + rest)
      case _ => None
  }

  function DecodeGens(es: seq<Element>): (r: Option<seq<GenView>>)
    ensures r.Some? ==> |r.value| == |es|
  {
    if |es| == 0 then Some([])
    else
      match (DecodeGen(es[0]), DecodeGens(es[1..]))
      case (Some(g), Some(rest)) => Some([g] + rest)
      case _ => None
  }

  lemma {:induction false} ClipsRoundTrip(cs: seq<ClipView>)
    ensures DecodeClips(ClipElements(cs)) == Some(cs)
  {
    if |cs| > 0 {
      var es := ClipElements(cs);
      assert es[1..] == ClipElements(cs[1..]);
      ClipRoundTrip(cs[0]);
      ClipsRoundTrip(cs[1..]);
      HeadTail(cs);
    }
  }

  lemma {:induction false} GensRoundTrip(gs: seq<GenView>)
    ensures DecodeGens(GenElements(gs)) == Some(gs)
  {
    if |gs| > 0 {
      var es := GenElements(gs);
      assert es[1..] == GenElements(gs[1..]);
      GenRoundTrip(gs[0]);
      GensRoundTrip(gs[1..]);
      HeadTail(gs);
    }
  }

  /** Everything the tree says about the timeline. */
  datatype DocView = DocView(projectName: string, sequenceName: string, duration: int,
                             clips: seq<ClipView>, gens: seq<GenView>)

  /** The element holding only `children`, or None. */
  function Children(e: Element, tag: string): Option<seq<Element>> {
    if e.tag == tag && |e.attrs| == 0 && e.text.None? then Some(e.children) else None
  }

  /** The caption track's children: `enabled` TRUE, `locked` FALSE, then
      the generators. */
  function DecodeCaptionTrack(t: seq<Element>): Option<seq<GenView>> {
    if |t| >= 2 && t[0] == Leaf("enabled", "TRUE") && t[1] == Leaf("locked", "FALSE")
    then DecodeGens(t[2..])
    else None
  }

  /** The two tracks under `<video>`: the clips, then the captions. */
  function DecodeTracks(video: seq<Element>): Option<(seq<ClipView>, seq<GenView>)> {
    if |video| != 2 then None
    else
      match (Children(video[0], "track"), Children(video[1], "track"))
      case (Some(t1), Some(t2)) =>
        (match (DecodeClips(t1), DecodeCaptionTrack(t2))
         case (Some(cs), Some(gs)) => Some((cs, gs))
         case _ => None)
      case _ => None
  }

  /** `<sequence>`: its name, its duration and what its video holds. */
  function DecodeSequence(e: Element): Option<(string, int, seq<Element>)> {
    match Children(e, "sequence")
    case Some(ch) =>
      if |ch| == 4 && ch[2] == Rate() && Children(ch[3], "media").Some? && |ch[3].children| == 1
      then
        match (LeafText(ch[0], "name"), LeafInt(ch[1], "duration"), Children(ch[3].children[0], "video"))
        case (Some(name), Some(d), Some(video)) => Some((name, d, video))
        case _ => None
      else None
    case None => None
  }

  /** The project name and the sequence under the root. */
  function DecodeProject(e: Element): Option<(string, Element)> {
    if e.tag == "xmeml" && e.attrs == [("version", "5")] && e.text.None? && |e.children| == 1
    then
      match Children(e.children[0], "project")
      case Some(p) =>
        if |p| == 2 && LeafText(p[0], "name").Some? && Children(p[1], "children").Some? && |p[1].children| == 1
        then Some((LeafText(p[0], "name").value, p[1].children[0]))
        else None
      case None => None
    else None
  }

  /** Reads the whole tree back; None unless it has Document's shape. */
  function DecodeDocument(e: Element): Option<DocView> {
    match DecodeProject(e)
    case None => None
    case Some((project, sq)) =>
      match DecodeSequence(sq)
      case None => None
      case Some((name, d, video)) =>
        match DecodeTracks(video)
        case None => None
        case Some((cs, gs)) => Some(DocView(project, name, d, cs, gs))
  }

  lemma CaptionTrackRoundTrip(gs: seq<GenView>)
    ensures DecodeCaptionTrack([Leaf("enabled", "TRUE"), Leaf("locked", "FALSE")] + GenElements(gs)) == Some(gs)
  {
    AppendSlices([Leaf("enabled", "TRUE"), Leaf("locked", "FALSE")], GenElements(gs));
    GensRoundTrip(gs);
  }

  lemma TracksRoundTrip(cs: seq<ClipView>, gs: seq<GenView>)
    ensures DecodeTracks(Tracks(ClipElements(cs), GenElements(gs))) == Some((cs, gs))
  {
    ClipsRoundTrip(cs);
    CaptionTrackRoundTrip(gs);
  }

  lemma SequenceRoundTrip(name: string, duration: int, video: seq<Element>)
    ensures DecodeSequence(Sequence(name, duration, video)) == Some((name, duration, video))
  {
    LeafIntRoundTrip("duration", duration);
  }

  lemma ProjectRoundTrip(projectName: string, sequence: Element)
    ensures DecodeProject(Project(projectName, sequence)) == Some((projectName, sequence))
  {
  }

  /** Decoding the document gives back its names, its duration and every
      clip and caption it was built from, in order. */
  lemma DocumentRoundTrip(projectName: string, sequenceName: string, duration: int,
                          cs: seq<ClipView>, gs: seq<GenView>)
    ensures DecodeDocument(Document(projectName, sequenceName, duration, ClipElements(cs), GenElements(gs)))
         == Some(DocView(projectName, sequenceName, duration, cs, gs))
  {
    var tracks := Tracks(ClipElements(cs), GenElements(gs));
    var sq := Sequence(sequenceName, duration, tracks);
    ProjectRoundTrip(projectName, sq);
    SequenceRoundTrip(sequenceName, duration, tracks);
    TracksRoundTrip(cs, gs);
  }

  // ------------------------------------------------- declaration fix-up

  /** The declaration both scripts put on the first line. */
  const Declaration: string := "<?xml" + " version=\"1.0\" encoding=\"UTF-8\"?>"

  /** After pretty-printing: split into lines, replace the first line with
      `decl` when it starts with `<?xml`, join again. */
  function ReplaceDeclaration(pretty: string, decl: string): string {
    var lines := SplitLines(pretty);
    JoinLines(if StartsWith(lines[0], "<?xml") then lines[0 := decl] else lines)
  }

  /** The fix-up both scripts apply to the pretty-printed document. */
  function FixDeclaration(pretty: string): string {
    ReplaceDeclaration(pretty, Declaration)
  }

  /** The first line is the text before the first newline. */
  lemma FirstLine(s: string)
    ensures |SplitLines(s)[0]| <= |s| && s[..|SplitLines(s)[0]|] == SplitLines(s)[0]
    ensures |SplitLines(s)[0]| < |s| ==> s[|SplitLines(s)[0]|] == '\n'
  {
  }

  /** The fix-up swaps a first line starting with `<?xml` for `decl` and
      keeps every other character; any other text comes back as it was. */
  lemma ReplaceDeclarationSpec(pretty: string, decl: string)
    ensures var first := SplitLines(pretty)[0];
      ReplaceDeclaration(pretty, decl) == if StartsWith(first, "<?xml") then decl + pretty[|first|..] else pretty
  {
    var lines := SplitLines(pretty);
    JoinSplit(pretty);
    if StartsWith(lines[0], "<?xml") {
      JoinReplaceFirst(lines, decl);
    }
  }

  /** A line without newlines followed by the end of the text or a newline
      is the first line. */
  lemma FirstLineOf(d: string, t: string)
    requires '\n' !in d
    requires |t| == 0 || t[0] == '\n'
    ensures SplitLines(d + t)[0] == d
  {
    assert (d + t)[..|d|] == d;
  }

  /** Replacing with a line that starts with `<?xml` and has no newline
      twice is replacing once. */
  lemma ReplaceDeclarationIdempotent(pretty: string, decl: string)
    requires '\n' !in decl && StartsWith(decl, "<?xml")
    ensures ReplaceDeclaration(ReplaceDeclaration(pretty, decl), decl) == ReplaceDeclaration(pretty, decl)
  {
    var first := SplitLines(pretty)[0];
    ReplaceDeclarationSpec(pretty, decl);
    if StartsWith(first, "<?xml") {
      FirstLine(pretty);
      var t := pretty[|first|..];
      FirstLineOf(decl, t);
      ReplaceDeclarationSpec(decl + t, decl);
      AppendSlices(decl, t);
    }
  }

  lemma DeclarationShape()
    ensures '\n' !in Declaration && StartsWith(Declaration, "<?xml")
  {
    AppendSlices("<?xml", " version=\"1.0\" encoding=\"UTF-8\"?>");
  }

  /** FixDeclaration changes at most the first line and is idempotent. */
  lemma FixDeclarationSpec(pretty: string)
    ensures var first := SplitLines(pretty)[0];
      FixDeclaration(pretty) == if StartsWith(first, "<?xml") then Declaration + pretty[|first|..] else pretty
    ensures FixDeclaration(FixDeclaration(pretty)) == FixDeclaration(pretty)
  {
    ReplaceDeclarationSpec(pretty, Declaration);
    DeclarationShape();
    ReplaceDeclarationIdempotent(pretty, Declaration);
  }
}
