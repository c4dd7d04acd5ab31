/**
 The attachment marker: how a message names its files, and how the files that travel
 as native blocks are taken out of that list again.
 */
module Media {
  import opened Wrappers
  import opened Texts

  const MARKER := "[[AION_FILES]]"

  const MAX_MEDIA_BLOCK_BYTES := 5 * 1024 * 1024

  // ---------------------------------------------------------------- text

  /** Where a line ends: the first newline, or the end of the text. */
  function LineEnd(s: string): (i: nat)
    ensures i <= |s|
    ensures i < |s| ==> s[i] == '\n'
    ensures '\n' !in s[..i]
  {
    if s == "" || s[0] == '\n' then 0 else
    assert forall k :: 0 <= k < LineEnd(s[1..]) ==> s[1 + k] == s[1..][k];
    1 + LineEnd(s[1..])
  }

  /** Lines end at a newline, or at a carriage return and a newline. */
  function Lines(s: string): seq<string>
    decreases |s|
  {
    if s == "" then [] else
    var i := LineEnd(s);
    if i == |s| then [s]
    else [if i > 0 && s[i-1] == '\r' then s[..i-1] else s[..i]] + Lines(s[i+1..])
  }

  /** The non-empty trimmed lines. */
  function FileLines(lines: seq<string>): seq<string> {
    if lines == [] then [] else
    (if Trim(lines[0]) == "" then [] else [Trim(lines[0])]) + FileLines(lines[1..])
  }

  predicate OccursAt(s: string, i: int) {
    0 <= i <= |s| - |MARKER| && s[i..i+|MARKER|] == MARKER
  }

  predicate HasMarker(s: string) {
    exists i :: 0 <= i <= |s| && OccursAt(s, i)
  }

  /** The last place the marker starts at, among the first `n`. */
  function LastMarkerBefore(s: string, n: nat): (r: Option<nat>)
    ensures r.Some? ==> r.value < n && OccursAt(s, r.value) && forall i :: r.value < i < n ==> !OccursAt(s, i)
    ensures r.None? ==> forall i :: 0 <= i < n ==> !OccursAt(s, i)
  {
    if n == 0 then None
    else if OccursAt(s, n - 1) then Some(n - 1)
    else LastMarkerBefore(s, n - 1)
  }

  // ---------------------------------------------------------------- printer and parser

  function Join(paths: seq<string>): string {
    if paths == [] then "" else if |paths| == 1 then paths[0] else paths[0] + "\n" + Join(paths[1..])
  }

  function AppendMarker(text: string, paths: seq<string>): string {
    if paths == [] then text else text + "\n\n" + MARKER + "\n" + Join(paths)
  }

  function StripMarker(content: string, files: seq<string>): string {
    match LastMarkerBefore(content, |content| + 1)
    case None => content
    case Some(i) =>
      if FileLines(Lines(content[i + |MARKER|..])) == files then
        var text := content[..i];
        if |text| >= 2 && text[|text|-2..] == "\n\n" then text[..|text|-2] else text
      else content
  }

  /** The block is the marker on a line of its own behind an empty one, and then each path on the next line. */
  lemma {:induction false} BlockLayout(text: string, paths: seq<string>, path: string)
    ensures AppendMarker(text, []) == text
    ensures AppendMarker(text, paths + [path]) ==
            (if paths == [] then text + "\n\n[[AION_FILES]]" else AppendMarker(text, paths)) + "\n" + path
  {
    JoinSnoc(paths, path);
  }

  lemma {:induction false} JoinSnoc(paths: seq<string>, path: string)
    ensures Join(paths + [path]) == (if paths == [] then "" else Join(paths) + "\n") + path
  {
    if |paths| > 1 {
      JoinSnoc(paths[1..], path);
      assert (paths + [path])[1..] == paths[1..] + [path];
    }
  }

  /** A path the marker block can carry. */
  predicate IsCarried(path: string) {
    path != "" && Trim(path) == path && '\n' !in path && !HasMarker(path)
  }

  predicate AllCarried(paths: seq<string>) {
    forall k :: 0 <= k < |paths| ==> IsCarried(paths[k])
  }

  // ---------------------------------------------------------------- reading the block back

  lemma {:induction false} LineEndIs(s: string, i: nat)
    requires i <= |s| && '\n' !in s[..i] && (i < |s| ==> s[i] == '\n')
    ensures LineEnd(s) == i
  {
    if i > 0 {
      assert s[..i][0] == s[0];
      assert s[1..][..i-1] == s[..i][1..];
      LineEndIs(s[1..], i - 1);
    }
  }

  lemma FirstLine(line: string, rest: string)
    requires '\n' !in line && (line != "" ==> line[|line|-1] != '\r')
    ensures Lines(line + "\n" + rest) == [line] + Lines(rest)
  {
    var s := line + "\n" + rest;
    assert s[..|line|] == line && s[|line|+1..] == rest;
    LineEndIs(s, |line|);
  }

  lemma {:induction false} JoinedLines(paths: seq<string>)
    requires AllCarried(paths)
    ensures FileLines(Lines(Join(paths))) == paths
  {
    if paths != [] {
      var p := paths[0];
      assert IsCarried(p) && paths == [p] + paths[1..];
      TrimKeepsSharpEnds(p);
      assert !IsSpace(p[|p|-1]);
      if |paths| == 1 {
        assert p[..|p|] == p;
        LineEndIs(p, |p|);
        OneFileLine(p);
      } else {
        FirstLine(p, Join(paths[1..]));
        JoinedLines(paths[1..]);
        assert ([p] + Lines(Join(paths[1..])))[1..] == Lines(Join(paths[1..]));
      }
    }
  }

  lemma OneFileLine(p: string)
    requires p != "" && Trim(p) == p
    ensures FileLines([p]) == [p]
  {
    assert [p][1..] == [];
  }

  lemma BlockLines(paths: seq<string>)
    requires AllCarried(paths)
    ensures FileLines(Lines("\n" + Join(paths))) == paths
  {
    hide Join;
    JoinedLines(paths);
    FirstLine("", Join(paths));
    assert "" + "\n" + Join(paths) == "\n" + Join(paths);
    assert ([""] + Lines(Join(paths)))[1..] == Lines(Join(paths));
  }

  /** The marker neither overlaps itself nor contains a newline. */
  lemma MarkerShape()
    ensures |MARKER| == 14 && MARKER[0] == '[' && MARKER[1] == '['
    ensures forall k :: 0 <= k < 14 ==> MARKER[k] != '\n' && (2 <= k ==> MARKER[k] != '[')
  {
  }

  lemma Mismatch(s: string, i: nat, k: nat)
    requires k < |MARKER| && i + k < |s| && s[i + k] != MARKER[k]
    ensures !OccursAt(s, i)
  {
    if i + |MARKER| <= |s| {
      assert s[i..i+|MARKER|][k] == s[i+k];
    }
  }

  lemma OccursInPart(s: string, from: nat, to: nat, i: nat)
    requires from <= i && i + |MARKER| <= to <= |s|
    ensures OccursAt(s, i) <==> OccursAt(s[from..to], i - from)
  {
    var part, m := s[from..to], |MARKER|;
    var a, b := part[i-from..i-from+m], s[i..i+m];
    assert forall k :: 0 <= k < m ==> a[k] == b[k];
  }

  lemma PartHasNoMarker(s: string, from: nat, to: nat)
    requires from <= to <= |s| && !HasMarker(s)
    ensures !HasMarker(s[from..to])
  {
    forall i | 0 <= i && i + |MARKER| <= to - from
      ensures !OccursAt(s[from..to], i)
    {
      OccursInPart(s, from, to, from + i);
    }
  }

  lemma NoMarkerAcrossLines(p: string, rest: string, i: nat)
    requires '\n' !in p && !HasMarker(p) && !HasMarker(rest)
    ensures !OccursAt(p + "\n" + rest, i)
  {
    MarkerShape();
    var s := p + "\n" + rest;
    ThreeParts(p, "\n", rest);
    if i + 14 <= |p| {
      OccursInPart(s, 0, |p|, i);
      assert s[0..|p|] == p;
    } else if i <= |p| {
      Mismatch(s, i, |p| - i);
    } else if i + 14 <= |s| {
      OccursInPart(s, |p| + 1, |s|, i);
      assert s[|p|+1..|s|] == rest;
    }
  }

  lemma {:induction false} NoMarkerInJoin(paths: seq<string>)
    requires AllCarried(paths)
    ensures !HasMarker(Join(paths))
  {
    hide OccursAt;
    if |paths| == 0 {
      NoMarkerInNothing();
    } else if |paths| == 1 {
      assert IsCarried(paths[0]);
    } else {
      assert IsCarried(paths[0]);
      NoMarkerInJoin(paths[1..]);
      forall i: nat
        ensures !OccursAt(Join(paths), i)
      {
        NoMarkerAcrossLines(paths[0], Join(paths[1..]), i);
      }
    }
  }

  lemma NoMarkerInNothing()
    ensures !HasMarker("")
  {
    MarkerShape();
  }

  lemma AppendedShape(text: string, paths: seq<string>)
    requires paths != []
    ensures var content, at := AppendMarker(text, paths), |text| + 2;
            && |content| == at + 15 + |Join(paths)|
            && content[..at] == text + "\n\n" && content[at..at+14] == MARKER
            && content[at+14..] == "\n" + Join(paths) && content[at+15..] == Join(paths)
  {
    hide Join;
    MarkerShape();
    var block := "\n" + Join(paths);
    assert AppendMarker(text, paths) == (text + "\n\n") + MARKER + block;
    ThreeParts(text + "\n\n", MARKER, block);
    ThreeParts(text + "\n\n" + MARKER, "\n", Join(paths));
    assert text + "\n\n" + MARKER + "\n" + Join(paths) == (text + "\n\n") + MARKER + block;
  }

  lemma ThreeParts(a: string, b: string, c: string)
    ensures var s := a + b + c;
            s[..|a|] == a && s[|a|..|a|+|b|] == b && s[|a|+|b|..] == c
  {
  }

  lemma AppendedMarkerIsLast(text: string, paths: seq<string>, i: nat)
    requires paths != [] && AllCarried(paths) && i > |text| + 2
    ensures !OccursAt(AppendMarker(text, paths), i)
  {
    hide AppendMarker, Join;
    MarkerShape();
    AppendedShape(text, paths);
    var at, content := |text| + 2, AppendMarker(text, paths);
    if i < at + 14 {
      var k := if i == at + 1 then 1 else 0;
      assert content[at..at+14][i+k-at] == content[i+k];
      Mismatch(content, i, k);
    } else if i == at + 14 {
      assert content[at+14..][0] == content[i];
      Mismatch(content, i, 0);
    } else if i + 14 <= |content| {
      OccursInPart(content, at + 15, |content|, i);
      assert content[at+15..|content|] == content[at+15..];
      NoMarkerInJoin(paths);
    }
  }

  lemma LastMarkerIs(s: string, n: nat, at: nat)
    requires at < n && OccursAt(s, at) && forall i :: at < i < n ==> !OccursAt(s, i)
    ensures LastMarkerBefore(s, n) == Some(at)
  {
  }

  /**
   Round trip: for any text at all, even one that contains the marker, stripping what
   was appended gives the text back.
   */
  lemma RoundTrip(text: string, paths: seq<string>)
    requires paths != [] && AllCarried(paths)
    ensures StripMarker(AppendMarker(text, paths), paths) == text
  {
    hide AppendMarker, Join, Lines, FileLines;
    var content, at := AppendMarker(text, paths), |text| + 2;
    MarkerShape();
    AppendedShape(text, paths);
    BlockLines(paths);
    forall i | at < i < |content| + 1
      ensures !OccursAt(content, i)
    {
      AppendedMarkerIsLast(text, paths, i);
    }
    LastMarkerIs(content, |content| + 1, at);
    assert content[..at][|text|..] == "\n\n";
  }

  // ---------------------------------------------------------------- and nothing less will do

  lemma {:induction false} LinesAreClean(s: string)
    requires !HasMarker(s)
    ensures forall k :: 0 <= k < |Lines(s)| ==> '\n' !in Lines(s)[k] && !HasMarker(Lines(s)[k])
    decreases |s|
  {
    hide HasMarker;
    if s != "" {
      var i := LineEnd(s);
      if i < |s| {
        PartHasNoMarker(s, i + 1, |s|);
        assert s[i+1..|s|] == s[i+1..];
        PartHasNoMarker(s, 0, i);
        assert s[0..i] == s[..i];
        if i > 0 {
          PartHasNoMarker(s, 0, i - 1);
          assert s[0..i-1] == s[..i-1] == s[..i][..i-1];
        }
        LinesAreClean(s[i+1..]);
      } else {
        assert s[..i] == s;
      }
    }
  }

  lemma TrimIsPart(s: string)
    requires '\n' !in s && !HasMarker(s)
    ensures '\n' !in Trim(s) && !HasMarker(Trim(s))
  {
    hide HasMarker, TrimStart, TrimEnd;
    var u := TrimStart(s);
    var t, n := TrimEnd(u), |s| - |u|;
    assert t == u[..|t|] && u == s[n..] && t == s[n..n+|t|];
    PartHasNoMarker(s, n, n + |t|);
  }

  lemma {:induction false} FileLinesAreCarried(lines: seq<string>)
    requires forall k :: 0 <= k < |lines| ==> '\n' !in lines[k] && !HasMarker(lines[k])
    ensures AllCarried(FileLines(lines))
  {
    hide HasMarker, Trim;
    if lines != [] {
      FileLinesAreCarried(lines[1..]);
      TrimIsPart(lines[0]);
      TrimIsTrimmed(lines[0]);
    }
  }

  lemma OccursAfter(s: string, from: nat, i: nat)
    requires from + i <= |s|
    ensures OccursAt(s[from..|s|], i) <==> OccursAt(s, from + i)
  {
    if from + i + |MARKER| <= |s| {
      OccursInPart(s, from, |s|, from + i);
    }
  }

  lemma AfterLastMarker(s: string, at: nat)
    requires LastMarkerBefore(s, |s| + 1) == Some(at)
    ensures !HasMarker(s[at + |MARKER|..])
  {
    hide LastMarkerBefore;
    var from := at + |MARKER|;
    assert s[from..|s|] == s[from..];
    forall i | 0 <= i <= |s| - from ensures !OccursAt(s[from..|s|], i) {
      OccursAfter(s, from, i);
    }
  }

  lemma StrippedWasCarried(content: string, files: seq<string>)
    requires |StripMarker(content, files)| < |content|
    ensures AllCarried(files)
  {
    hide HasMarker, Lines, FileLines, IsCarried, AllCarried;
    var at := LastMarkerBefore(content, |content| + 1).value;
    AfterLastMarker(content, at);
    LinesAreClean(content[at + |MARKER|..]);
    FileLinesAreCarried(Lines(content[at + |MARKER|..]));
  }

  /** The round trip works exactly for the paths the block can carry. */
  lemma RoundTripExactly(text: string, paths: seq<string>)
    requires paths != []
    ensures StripMarker(AppendMarker(text, paths), paths) == text <==> AllCarried(paths)
  {
    hide StripMarker, AllCarried, Join;
    if StripMarker(AppendMarker(text, paths), paths) == text {
      StrippedWasCarried(AppendMarker(text, paths), paths);
    }
    if AllCarried(paths) {
      RoundTrip(text, paths);
    }
  }

  // ---------------------------------------------------------------- partition

  datatype MediaKind = Image | Audio

  datatype Mime = Mime(top: string, sub: string)

  datatype Caps = Caps(image: bool, audio: bool)

  datatype Attachment = Attachment(path: string, mime: Mime, kind: MediaKind)

  /** What the machine knows about a path: its guessed type, and its size when it is a readable file. */
  datatype Disk = Disk(mime: string -> Option<Mime>, size: string -> Option<nat>)

  function Classify(disk: Disk, caps: Caps, path: string): (a: Option<Attachment>)
    ensures a.Some? ==> a.value.path == path
  {
    var mime := disk.mime(path);
    if mime.None? then None else
    var kind := if mime.value.top == "image" && caps.image && mime.value.sub != "svg" then Some(Image)
                else if mime.value.top == "audio" && caps.audio then Some(Audio)
                else None;
    var size := disk.size(path);
    if kind.Some? && size.Some? && size.value <= MAX_MEDIA_BLOCK_BYTES
    then Some(Attachment(path, mime.value, kind.value)) else None
  }

  datatype Partition = Partition(content: string, pathFiles: seq<string>, media: seq<Attachment>)

  function PathFiles(disk: Disk, caps: Caps, files: seq<string>): seq<string> {
    if files == [] then [] else
    var last := files[|files|-1];
    PathFiles(disk, caps, files[..|files|-1]) + if Classify(disk, caps, last).None? then [last] else []
  }

  function MediaFiles(disk: Disk, caps: Caps, files: seq<string>): seq<Attachment> {
    if files == [] then [] else
    var last := files[|files|-1];
    MediaFiles(disk, caps, files[..|files|-1])
    + if Classify(disk, caps, last).Some? then [Classify(disk, caps, last).value] else []
  }

  function Partitioned(disk: Disk, content: string, files: seq<string>, caps: Caps): Partition {
    var paths, media := PathFiles(disk, caps, files), MediaFiles(disk, caps, files);
    Partition(if media == [] then content else AppendMarker(StripMarker(content, files), paths), paths, media)
  }

  method PartitionMedia(disk: Disk, content: string, files: seq<string>, caps: Caps) returns (p: Partition)
    ensures p == Partitioned(disk, content, files, caps)
  {
    if files == [] || caps == Caps(false, false) {
      NoCapabilitiesNoMedia(disk, files);
      return Partition(content, files, []);
    }
    var pathFiles: seq<string>, media: seq<Attachment> := [], [];
    var k := 0;
    while k < |files|
      invariant k <= |files|
      invariant pathFiles == PathFiles(disk, caps, files[..k]) && media == MediaFiles(disk, caps, files[..k])
    {
      assert files[..k+1][..k] == files[..k];
      var attachment := Classify(disk, caps, files[k]);
      match attachment {
        case Some(a) => media := media + [a];
        case None => pathFiles := pathFiles + [files[k]];
      }
      k := k + 1;
    }
    assert files[..k] == files;
    p := Partition(if media == [] then content else AppendMarker(StripMarker(content, files), pathFiles), pathFiles, media);
  }

  lemma {:induction false} NoCapabilitiesNoMedia(disk: Disk, files: seq<string>)
    ensures PathFiles(disk, Caps(false, false), files) == files && MediaFiles(disk, Caps(false, false), files) == []
  {
    if files != [] {
      NoCapabilitiesNoMedia(disk, files[..|files|-1]);
      assert files == files[..|files|-1] + [files[|files|-1]];
    }
  }

  /** A file goes as a native block: an image other than SVG or a sound, for a taker of such, readable and small enough. */
  predicate Travels(disk: Disk, caps: Caps, path: string) {
    && disk.mime(path).Some? && disk.size(path).Some? && disk.size(path).value <= 5_242_880
    && ((disk.mime(path).value.top == "image" && disk.mime(path).value.sub != "svg" && caps.image)
        || (disk.mime(path).value.top == "audio" && caps.audio))
  }

  lemma ClassifyMeans(disk: Disk, caps: Caps, path: string)
    ensures var a := Classify(disk, caps, path);
            if Travels(disk, caps, path)
            then a == Some(Attachment(path, disk.mime(path).value, if disk.mime(path).value.top == "image" then Image else Audio))
            else a == None
  {
  }

  /** The positions of the files that travel, or of those that do not. */
  function Positions(disk: Disk, caps: Caps, files: seq<string>, travelling: bool): seq<nat> {
    if files == [] then [] else
    var n := |files| - 1;
    Positions(disk, caps, files[..n], travelling) + if Travels(disk, caps, files[n]) == travelling then [n] else []
  }

  predicate Increasing(s: seq<nat>) {
    forall j, k :: 0 <= j < k < |s| ==> s[j] < s[k]
  }

  lemma {:induction false} PositionsMean(disk: Disk, caps: Caps, files: seq<string>, travelling: bool)
    ensures var at := Positions(disk, caps, files, travelling);
            && Increasing(at) && (forall j :: 0 <= j < |at| ==> at[j] < |files|)
            && (forall k :: 0 <= k < |files| ==> (k in at <==> Travels(disk, caps, files[k]) == travelling))
  {
    hide Travels;
    if files != [] {
      var init := files[..|files|-1];
      PositionsMean(disk, caps, init, travelling);
      assert forall k :: 0 <= k < |init| ==> init[k] == files[k];
    }
  }

  lemma {:induction false} PathsAreThere(disk: Disk, caps: Caps, files: seq<string>)
    ensures var stay, paths := Positions(disk, caps, files, false), PathFiles(disk, caps, files);
            |stay| == |paths| && forall j :: 0 <= j < |stay| ==> stay[j] < |files| && paths[j] == files[stay[j]]
  {
    if files != [] {
      ClassifyMeans(disk, caps, files[|files|-1]);
      hide Classify, Travels;
      PathsAreThere(disk, caps, files[..|files|-1]);
    }
  }

  /** The block a travelling file becomes. */
  function BlockOf(disk: Disk, path: string): Attachment
    requires disk.mime(path).Some?
  {
    Attachment(path, disk.mime(path).value, if disk.mime(path).value.top == "image" then Image else Audio)
  }

  lemma {:induction false} MediaAreThere(disk: Disk, caps: Caps, files: seq<string>)
    ensures var go, media := Positions(disk, caps, files, true), MediaFiles(disk, caps, files);
            |go| == |media| && forall j :: 0 <= j < |go| ==>
              go[j] < |files| && disk.mime(files[go[j]]).Some? && media[j] == BlockOf(disk, files[go[j]])
  {
    if files != [] {
      var last := files[|files|-1];
      ClassifyMeans(disk, caps, last);
      assert Travels(disk, caps, last) ==> disk.mime(last).Some? && Classify(disk, caps, last) == Some(BlockOf(disk, last));
      hide Classify, Travels, BlockOf;
      MediaAreThere(disk, caps, files[..|files|-1]);
    }
  }

  /**
   The files that travel become the media, under their own type, and the others stay paths;
   both lists keep the order of the files, and every file is in exactly one of them.
   */
  lemma PartitionIsComplete(disk: Disk, caps: Caps, files: seq<string>)
    ensures var stay, paths := Positions(disk, caps, files, false), PathFiles(disk, caps, files);
            && |stay| == |paths| && Increasing(stay)
            && (forall j :: 0 <= j < |stay| ==> stay[j] < |files| && paths[j] == files[stay[j]])
    ensures var go, media := Positions(disk, caps, files, true), MediaFiles(disk, caps, files);
            && |go| == |media| && Increasing(go)
            && (forall j :: 0 <= j < |go| ==>
                  go[j] < |files| && disk.mime(files[go[j]]).Some? && media[j] == BlockOf(disk, files[go[j]]))
    ensures forall k :: 0 <= k < |files| ==>
              && (k in Positions(disk, caps, files, true) <==> Travels(disk, caps, files[k]))
              && (k in Positions(disk, caps, files, false) <==> !Travels(disk, caps, files[k]))
  {
    hide *;
    PathsAreThere(disk, caps, files);
    MediaAreThere(disk, caps, files);
    PositionsMean(disk, caps, files, true);
    PositionsMean(disk, caps, files, false);
  }

  lemma {:induction false} PathsStayPaths(disk: Disk, caps: Caps, files: seq<string>)
    ensures PathFiles(disk, caps, PathFiles(disk, caps, files)) == PathFiles(disk, caps, files)
    ensures MediaFiles(disk, caps, PathFiles(disk, caps, files)) == []
  {
    if files != [] {
      var init, last := files[..|files|-1], files[|files|-1];
      PathsStayPaths(disk, caps, init);
      if Classify(disk, caps, last).None? {
        var paths := PathFiles(disk, caps, files);
        assert paths[..|paths|-1] == PathFiles(disk, caps, init);
      } else {
        assert PathFiles(disk, caps, files) == PathFiles(disk, caps, init);
      }
    }
  }

  /**
   A message that names its files in the marker block keeps its text and names exactly
   the path files afterwards, and a second pass over it changes nothing.
   */
  lemma PartitionOfMessage(disk: Disk, text: string, files: seq<string>, caps: Caps)
    requires files != [] && AllCarried(files)
    ensures var p := Partitioned(disk, AppendMarker(text, files), files, caps);
            && p.content == AppendMarker(text, p.pathFiles)
            && Partitioned(disk, p.content, p.pathFiles, caps) == p.(media := [])
  {
    RoundTrip(text, files);
    AllPathsWhenNoMedia(disk, caps, files);
    PathsStayPaths(disk, caps, files);
  }

  lemma {:induction false} AllPathsWhenNoMedia(disk: Disk, caps: Caps, files: seq<string>)
    ensures MediaFiles(disk, caps, files) == [] ==> PathFiles(disk, caps, files) == files
  {
    if files != [] {
      AllPathsWhenNoMedia(disk, caps, files[..|files|-1]);
      assert files == files[..|files|-1] + [files[|files|-1]];
    }
  }
}
