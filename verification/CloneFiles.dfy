/** The clone the coding loop works on: what the planner is shown of it, and which of its writes land. */
module CloneFiles {
  import opened Options
  import opened Text
  import opened RepoPaths
  import opened PlannerBlocks

  const MAX_READ_FILE := 4_000
  const MAX_TOTAL_READ := 12_000
  const TRUNCATED: string := "\n... [truncated at 4000 chars]"

  type Files = map<string, string>

  // ---------------------------------------------------------------------------------------------
  // The clone
  // ---------------------------------------------------------------------------------------------

  /** A segment the jail's reader refuses although the writer takes it. */
  ghost predicate Aliased(path: string) {
    exists p :: p in RawSegments(path) && TrimDots(p) != p
  }

  /** `split_components`, on a POSIX system. */
  function Components(target: string): Option<seq<string>> {
    if '\0' in target then None
    else if target in ["", "."] then Some([])
    else if target[0] == '/' || "\\\\" <= target then None
    else if Contains(target, "\\\\?\\") || Contains(target, "\\\\.\\") then None
    else if exists p :: p in RawSegments(target) && BadComponent(p) then None
    else Some(RawSegments(target))
  }

  /** The symbolic links of the clone: where they stand, and where a canonical path lands once they are
      followed -- nowhere if that leaves the clone.  The loop makes no links, so they stay as they are. */
  datatype Links = Links(linked: set<string>, land: string -> Option<string>)

  /** A directory on the way is a link. */
  predicate ThroughParts(links: Links, parts: seq<string>) {
    exists n :: 0 < n < |parts| && Join("/", parts[..n]) in links.linked
  }

  predicate Through(links: Links, path: string) {
    ThroughParts(links, RawSegments(path))
  }

  predicate Direct(links: Links, path: string) {
    !Through(links, path) && path !in links.linked
  }

  /** A path without links lands where it says. */
  ghost predicate Sound(links: Links) {
    forall path :: Canonical(path) == Some(path) && Direct(links, path) ==> links.land(path) == Some(path)
  }

  /** A directory that is not empty, or the clone itself, whose name is empty. */
  predicate IsDir(links: Links, files: Files, name: string) {
    name == "" || exists k :: k in files.Keys + links.linked && name + "/" <= k
  }

  /** The reader follows no link: a linked directory on the way is an error, a link at the end is itself
      what is found. */
  predicate Stat(links: Links, files: Files, path: string) {
    match Components(path)
    case None => false
    case Some(parts) => parts == [] || StatAt(links, files, parts)
  }

  predicate StatAt(links: Links, files: Files, parts: seq<string>) {
    var name := Join("/", parts);
    !ThroughParts(links, parts) && (name in files || name in links.linked || IsDir(links, files, name))
  }

  function Read(links: Links, files: Files, unreadable: string -> bool, path: string): Option<string> {
    match Components(path)
    case None => None
    case Some(parts) => if parts == [] then None else ReadAt(links, files, unreadable, parts)
  }

  function ReadAt(links: Links, files: Files, unreadable: string -> bool, parts: seq<string>): Option<string> {
    var name := Join("/", parts);
    if !ThroughParts(links, parts) && name !in links.linked && name in files && !unreadable(files[name])
    then Some(files[name]) else None
  }

  // ---------------------------------------------------------------------------------------------
  // Where a write goes
  // ---------------------------------------------------------------------------------------------

  function Target(links: Links, path: string): Option<string> {
    match Canonical(path)
    case None => None
    case Some(canonical) => links.land(canonical)
  }

  function Landed(links: Links, path: string): string {
    match Target(links, path)
    case None => path
    case Some(landed) => landed
  }

  function Landings(links: Links, paths: set<string>): set<string> {
    set path | path in paths :: Landed(links, path)
  }

  /** The path checks of the writer: canonical, no segment that could open `.git`, and landing inside the
      clone but not in its `.git`. */
  predicate Landable(u: Unicode, links: Links, path: string) {
    && Target(links, path).Some?
    && !Jailed(u, path)
    && Split(Target(links, path).value, '/')[0] != ".git"
  }

  /** There is a directory where the file should be, or a file where a directory should be. */
  predicate Conflict(links: Links, files: Files, name: string) {
    IsDir(links, files, name) || exists k :: k in files && k + "/" <= name
  }

  /** What the file system does to the writes of one iteration: the paths it does not open, and, of those it
      opens, the ones whose write fails half-way, with the content that is left then. */
  datatype Faults = Faults(refused: set<string>, torn: map<string, string>)

  /** The writer opens the file, and with that empties it. */
  predicate Opens(u: Unicode, links: Links, files: Files, faults: Faults, path: string) {
    Landable(u, links, path) && !Conflict(links, files, Landed(links, path)) && path !in faults.refused
  }

  /** What a write leaves in a file that was opened. */
  function Left(faults: Faults, b: Block): string {
    if b.path in faults.torn then faults.torn[b.path] else b.body
  }

  lemma {:induction false} SegmentNext(split: seq<string>, i: nat)
    requires i < |split|
    ensures Kept(split[..i + 1]) == Kept(split[..i]) + if split[i] in ["", "."] then [] else [split[i]]
  {
    assert split[..i + 1][..i] == split[..i];
  }

  predicate BadComponent(raw: string) {
    raw == ".." || ':' in raw || TrimDots(raw) != raw
  }

  method CheckComponents(split: seq<string>) returns (comps: Option<seq<string>>)
    ensures comps == if exists p :: p in Kept(split) && BadComponent(p) then None else Some(Kept(split))
  {
    var parts: seq<string> := [];
    for i := 0 to |split|
      invariant parts == Kept(split[..i])
      invariant forall p :: p in parts ==> !BadComponent(p)
    {
      SegmentNext(split, i);
      if split[i] !in ["", "."] {
        if split[i] == ".." || ':' in split[i] || TrimDots(split[i]) != split[i] {
          KeptHas(split, i);
          return None;
        }
        parts := parts + [split[i]];
      }
    }
    assert split[..|split|] == split;
    comps := Some(parts);
  }

  lemma {:induction false} KeptHas(split: seq<string>, i: nat)
    requires i < |split| && split[i] !in ["", "."]
    ensures split[i] in Kept(split)
  {
    SegmentNext(split, i);
    KeptAppend(split[..i + 1], split[i + 1..]);
    assert split == split[..i + 1] + split[i + 1..];
  }

  /** `split_components`. */
  method SplitComponents(target: string) returns (comps: Option<seq<string>>)
    ensures comps == Components(target)
  {
    if '\0' in target {
      return None;
    }
    if target == "" || target == "." {
      return Some([]);
    }
    if target[0] == '/' || "\\\\" <= target || Contains(target, "\\\\?\\") || Contains(target, "\\\\.\\") {
      return None;
    }
    comps := CheckComponents(Split(Slashes(target), '/'));
  }

  /** The clone's worktree. */
  class Workspace {
    var files: Files
    const links: Links

    constructor (files: Files, links: Links)
      ensures this.files == files && this.links == links
    {
      this.files := files;
      this.links := links;
    }

    /** A path the writer could take is read exactly when its file is there and no link, no segment of it is
        a link or ends in a dot or a space, and the content is within the reader's limits. */
    method ReadFile(unreadable: string -> bool, path: string) returns (content: Option<string>)
      ensures content == Read(links, files, unreadable, path)
      ensures Canonical(path) == Some(path) ==>
                (content.Some? <==> path in files && Direct(links, path) && !Aliased(path) && !unreadable(files[path]))
      ensures Canonical(path) == Some(path) && content.Some? ==> content.value == files[path]
    {
      if Canonical(path) == Some(path) {
        ReadOfCanonical(links, files, unreadable, path);
      }
      var comps := SplitComponents(path);
      if comps.None? || comps.value == [] {
        return None;
      }
      content := ReadAt(links, files, unreadable, comps.value);
    }

    /** A path the writer could take is found exactly when something -- a file, a directory or a link -- is
        there, no directory on the way is a link, and no segment ends in a dot or a space. */
    method StatFile(path: string) returns (found: bool)
      ensures found == Stat(links, files, path)
      ensures Canonical(path) == Some(path) ==>
                (found <==> && (path in files || path in links.linked || IsDir(links, files, path))
                            && !Through(links, path) && !Aliased(path))
    {
      if Canonical(path) == Some(path) {
        StatOfCanonical(links, files, path);
      }
      var comps := SplitComponents(path);
      if comps.None? {
        return false;
      }
      found := comps.value == [] || StatAt(links, files, comps.value);
    }

    /** A write changes at most the file the path lands on: to the content if it succeeds, to what is left if
        it fails half-way, not at all if it is refused.  It returns where it landed. */
    method WriteFile(u: Unicode, path: string, content: string, faults: Faults) returns (target: Option<string>)
      modifies this`files
      ensures target.Some? <==> Opens(u, links, old(files), faults, path) && path !in faults.torn
      ensures target.Some? ==> target.value == Landed(links, path)
      ensures files == if Opens(u, links, old(files), faults, path)
                       then old(files)[Landed(links, path) := Left(faults, Block(path, content))]
                       else old(files)
    {
      if !Landable(u, links, path) {
        return None;
      }
      var landed := Landed(links, path);
      if Conflict(links, files, landed) || path in faults.refused {
        return None;
      }
      if path in faults.torn {
        files := files[landed := faults.torn[path]];
        return None;
      }
      files := files[landed := content];
      target := Some(landed);
    }
  }

  // ---------------------------------------------------------------------------------------------
  // Showing existing files
  // ---------------------------------------------------------------------------------------------

  /** One entry of the block of existing files: whole, cut off, or left out for want of room. */
  datatype Piece = Whole(path: string, content: string) | Cut(path: string, content: string) | Omitted(path: string)

  /** The characters of content in the block. */
  function Total(pieces: seq<Piece>): nat {
    if pieces == [] then 0
    else
      var last := pieces[|pieces| - 1];
      Total(pieces[..|pieces| - 1]) + if last.Omitted? then 0 else |last.content|
  }

  function PieceFor(path: string, content: string, total: nat): Piece {
    var cut := |content| > MAX_READ_FILE;
    var text := if cut then content[..MAX_READ_FILE] + TRUNCATED else content;
    if total + |text| > MAX_TOTAL_READ then Omitted(path)
    else if cut then Cut(path, text)
    else Whole(path, text)
  }

  function AddPiece(pieces: seq<Piece>, path: string, read: Option<string>): seq<Piece> {
    match read
    case None => pieces
    case Some(content) => pieces + [PieceFor(path, content, Total(pieces))]
  }

  /** The entries for the declared paths, in order; a path that cannot be read gets none. */
  function Render(links: Links, files: Files, unreadable: string -> bool, paths: seq<string>): seq<Piece> {
    if paths == [] then []
    else
      var n := |paths| - 1;
      AddPiece(Render(links, files, unreadable, paths[..n]), paths[n], Read(links, files, unreadable, paths[n]))
  }

  /** The name a declared path is compared under. */
  function Key(path: string): string {
    match Canonical(path)
    case Some(canonical) => canonical
    case None => path
  }

  /** The paths shown in full. */
  function Shown(pieces: seq<Piece>): set<string> {
    if pieces == [] then {}
    else
      var n := |pieces| - 1;
      Shown(pieces[..n]) + if pieces[n].Whole? then {Key(pieces[n].path)} else {}
  }

  /** One more entry. */
  lemma {:induction false} OnePiece(pieces: seq<Piece>, piece: Piece)
    ensures Total([]) == 0
    ensures Total(pieces + [piece]) == Total(pieces) + if piece.Omitted? then 0 else |piece.content|
    ensures Shown([]) == {}
    ensures Shown(pieces + [piece]) == Shown(pieces) + if piece.Whole? then {Key(piece.path)} else {}
  {
    assert (pieces + [piece])[..|pieces|] == pieces;
  }

  method RenderFile(path: string, read: string, total: nat) returns (piece: Piece)
    ensures piece == PieceFor(path, read, total)
  {
    var content := read;
    var truncated := |content| > MAX_READ_FILE;
    if truncated {
      content := content[..MAX_READ_FILE] + TRUNCATED;
    }
    if total + |content| > MAX_TOTAL_READ {
      return Omitted(path);
    }
    piece := if truncated then Cut(path, content) else Whole(path, content);
  }

  method RenderNext(tools: Workspace, unreadable: string -> bool, path: string,
                    pieces: seq<Piece>, keys: set<string>, soFar: nat)
    returns (rendered: seq<Piece>, shown: set<string>, total: nat)
    requires keys == Shown(pieces) && soFar == Total(pieces)
    ensures rendered == AddPiece(pieces, path, Read(tools.links, tools.files, unreadable, path))
    ensures shown == Shown(rendered) && total == Total(rendered)
  {
    rendered, shown, total := pieces, keys, soFar;
    var read := tools.ReadFile(unreadable, path);
    if read.Some? {
      var piece := RenderFile(path, read.value, total);
      OnePiece(rendered, piece);
      rendered := rendered + [piece];
      total := total + if piece.Omitted? then 0 else |piece.content|;
      if piece.Whole? {
        shown := shown + {Key(path)};
      }
    }
  }

  method RenderExistingFiles(unreadable: string -> bool, paths: seq<string>, tools: Workspace)
    returns (rendered: seq<Piece>, shown: set<string>)
    ensures rendered == Render(tools.links, tools.files, unreadable, paths)
    ensures shown == Shown(rendered)
  {
    rendered, shown := [], {};
    var total := 0;
    for i := 0 to |paths|
      invariant rendered == Render(tools.links, tools.files, unreadable, paths[..i])
      invariant shown == Shown(rendered) && total == Total(rendered)
    {
      assert paths[..i + 1][..i] == paths[..i];
      rendered, shown, total := RenderNext(tools, unreadable, paths[i], rendered, shown, total);
    }
    assert paths[..|paths|] == paths;
  }

  /** An entry that shows the whole file a key stands for. */
  ghost predicate IsWhole(links: Links, files: Files, unreadable: string -> bool, piece: Piece, key: string) {
    && piece.Whole? && key == Key(piece.path) && |piece.content| <= MAX_READ_FILE
    && Read(links, files, unreadable, piece.path) == Some(piece.content)
  }

  ghost predicate HasWhole(links: Links, files: Files, unreadable: string -> bool, pieces: seq<Piece>, key: string) {
    exists i :: 0 <= i < |pieces| && IsWhole(links, files, unreadable, pieces[i], key)
  }

  lemma {:induction false} HasWholeNext(links: Links, files: Files, unreadable: string -> bool, pieces: seq<Piece>, piece: Piece, key: string)
    requires HasWhole(links, files, unreadable, pieces, key) || IsWhole(links, files, unreadable, piece, key)
    ensures HasWhole(links, files, unreadable, pieces + [piece], key)
  {
    if HasWhole(links, files, unreadable, pieces, key) {
      var i :| 0 <= i < |pieces| && IsWhole(links, files, unreadable, pieces[i], key);
      assert (pieces + [piece])[i] == pieces[i];
    } else {
      assert (pieces + [piece])[|pieces|] == piece;
    }
  }

  lemma {:induction false} PieceFits(links: Links, files: Files, unreadable: string -> bool, path: string, content: string, total: nat)
    requires total <= MAX_TOTAL_READ && Read(links, files, unreadable, path) == Some(content)
    ensures var piece := PieceFor(path, content, total);
            && total + (if piece.Omitted? then 0 else |piece.content|) <= MAX_TOTAL_READ
            && piece.path == path
            && (piece.Whole? ==> IsWhole(links, files, unreadable, piece, Key(path)))
  {
  }

  lemma {:induction false} ShownNext(links: Links, files: Files, unreadable: string -> bool, pieces: seq<Piece>, path: string)
    requires Total(pieces) <= MAX_TOTAL_READ
    requires forall key :: key in Shown(pieces) ==> HasWhole(links, files, unreadable, pieces, key)
    ensures var more := AddPiece(pieces, path, Read(links, files, unreadable, path));
            && Total(more) <= MAX_TOTAL_READ
            && forall key :: key in Shown(more) ==> HasWhole(links, files, unreadable, more, key)
  {
    var read := Read(links, files, unreadable, path);
    if read.Some? {
      var piece := PieceFor(path, read.value, Total(pieces));
      PieceFits(links, files, unreadable, path, read.value, Total(pieces));
      OnePiece(pieces, piece);
      forall key | key in Shown(pieces + [piece])
        ensures HasWhole(links, files, unreadable, pieces + [piece], key)
      {
        HasWholeNext(links, files, unreadable, pieces, piece, key);
      }
    }
  }

  /** Everything shown fits the budget, and a path counts as shown only when its whole current content,
      at most 4000 characters, stands in the block. */
  lemma {:induction false} ShownInFull(links: Links, files: Files, unreadable: string -> bool, paths: seq<string>)
    ensures Total(Render(links, files, unreadable, paths)) <= MAX_TOTAL_READ
    ensures forall key :: key in Shown(Render(links, files, unreadable, paths)) ==>
              HasWhole(links, files, unreadable, Render(links, files, unreadable, paths), key)
  {
    if paths != [] {
      var n := |paths| - 1;
      ShownInFull(links, files, unreadable, paths[..n]);
      ShownNext(links, files, unreadable, Render(links, files, unreadable, paths[..n]), paths[n]);
    }
  }

  /** What the block has for a file with this content when `total` characters have been spent: all of it, its
      first 4000 characters and a mark, or only its name, whichever the 12000 characters leave room for. */
  ghost predicate PieceIs(piece: Piece, path: string, content: string, total: nat) {
    var mark := "\n... [truncated at 4000 chars]";
    if |content| <= 4000 then piece == if total + |content| <= 12000 then Whole(path, content) else Omitted(path)
    else piece == if total + 4000 + |mark| <= 12000 then Cut(path, content[..4000] + mark) else Omitted(path)
  }

  /** The block, entry by entry: one for each declared path that can be read, in the order declared. */
  lemma {:induction false} RenderIsExact(links: Links, files: Files, unreadable: string -> bool, paths: seq<string>, path: string)
    ensures var block, read := Render(links, files, unreadable, paths), Read(links, files, unreadable, path);
            var more := Render(links, files, unreadable, paths + [path]);
            && Render(links, files, unreadable, []) == []
            && (read.None? ==> more == block)
            && (read.Some? ==> |more| == |block| + 1 && more[..|block|] == block && PieceIs(more[|block|], path, read.value, Total(block)))
  {
    assert (paths + [path])[..|paths|] == paths;
  }

  /** A file the planner sees whole: declared under this key, readable, at most 4000 characters long, and within
      the 12000 after what was shown before it. */
  ghost predicate FitsAt(links: Links, files: Files, unreadable: string -> bool, paths: seq<string>, key: string, i: nat) {
    && i < |paths| && Key(paths[i]) == key
    && var read := Read(links, files, unreadable, paths[i]);
    read.Some? && |read.value| <= 4000 && Total(Render(links, files, unreadable, paths[..i])) + |read.value| <= 12000
  }

  /** Exactly those files count as shown. */
  lemma {:induction false} ShownExactly(links: Links, files: Files, unreadable: string -> bool, paths: seq<string>, key: string)
    ensures key in Shown(Render(links, files, unreadable, paths)) <==> exists i :: FitsAt(links, files, unreadable, paths, key, i)
  {
    if paths != [] {
      var n := |paths| - 1;
      ShownExactly(links, files, unreadable, paths[..n], key);
      ShownLast(links, files, unreadable, paths[..n], paths[n], key);
      assert paths[..n] + [paths[n]] == paths;
      FitsFront(links, files, unreadable, paths, key);
    }
  }

  lemma {:induction false} ShownLast(links: Links, files: Files, unreadable: string -> bool, paths: seq<string>, path: string, key: string)
    ensures key in Shown(Render(links, files, unreadable, paths + [path])) <==>
            key in Shown(Render(links, files, unreadable, paths)) || FitsAt(links, files, unreadable, paths + [path], key, |paths|)
  {
    var block, read := Render(links, files, unreadable, paths), Read(links, files, unreadable, path);
    assert (paths + [path])[..|paths|] == paths;
    if read.Some? {
      OnePiece(block, PieceFor(path, read.value, Total(block)));
    }
  }

  lemma {:induction false} FitsFront(links: Links, files: Files, unreadable: string -> bool, paths: seq<string>, key: string)
    requires paths != []
    ensures var n := |paths| - 1;
            (exists i :: FitsAt(links, files, unreadable, paths, key, i)) <==>
            (exists i :: FitsAt(links, files, unreadable, paths[..n], key, i)) || FitsAt(links, files, unreadable, paths, key, n)
  {
    var n := |paths| - 1;
    forall i: nat | i < n
      ensures FitsAt(links, files, unreadable, paths[..n], key, i) <==> FitsAt(links, files, unreadable, paths, key, i)
    {
      assert paths[..n][..i] == paths[..i];
    }
    if i: nat :| FitsAt(links, files, unreadable, paths[..n], key, i) {
      assert FitsAt(links, files, unreadable, paths, key, i);
    }
    if i: nat :| FitsAt(links, files, unreadable, paths, key, i) && i < n {
      assert FitsAt(links, files, unreadable, paths[..n], key, i);
    }
  }

  // ---------------------------------------------------------------------------------------------
  // Writing
  // ---------------------------------------------------------------------------------------------

  function Paths(blocks: seq<Block>): (paths: seq<string>)
    ensures |paths| == |blocks| && forall i :: 0 <= i < |paths| ==> paths[i] == blocks[i].path
  {
    if blocks == [] then [] else Paths(blocks[..|blocks| - 1]) + [blocks[|blocks| - 1].path]
  }

  /** The blocks of one answer: no two for the same path, and each path the one its write lands on, if any. */
  ghost predicate WellFormed(blocks: seq<Block>) {
    && (forall i, j :: 0 <= i < j < |blocks| ==> blocks[i].path != blocks[j].path)
    && (forall i :: 0 <= i < |blocks| ==> LandsOnItself(blocks[i].path))
  }

  predicate LandsOnItself(path: string) {
    Canonical(path).Some? ==> Canonical(path).value == path
  }

  lemma {:induction false} ResolvedLandsOnItself(raw: string)
    ensures LandsOnItself(Resolve(raw))
  {
    if Canonical(Strip(raw)).Some? {
      CanonicalForm(Strip(raw));
    }
  }

  lemma {:induction false} ParsedWellFormed(u: Unicode, text: string)
    requires Parse(u, text).Files?
    ensures WellFormed(Parse(u, text).files)
  {
    var found, entries := Matches(Normalize(text)), Proposed(text);
    forall i | 0 <= i < |entries|
      ensures LandsOnItself(entries[i].path)
    {
      ResolvedLandsOnItself(found[i].path);
    }
    var ds := Destinations(u, entries);
    forall i, j | 0 <= i < j < |entries|
      ensures entries[i].path != entries[j].path
    {
      assert ds[i] != ds[j];
    }
  }

  /** Whether a write reaches the file: nothing the reader can see is replaced unless it was shown or is the
      loop's own, and the writer opens it. */
  predicate Touches(u: Unicode, links: Links, files: Files, known: set<string>, faults: Faults, path: string) {
    (path in known || !Stat(links, files, path)) && Opens(u, links, files, faults, path)
  }

  /** The clone after some writes, the paths written to, and those whose write succeeded. */
  datatype Writes = Writes(files: Files, touched: seq<string>, written: seq<string>)

  function WriteOne(u: Unicode, links: Links, known: set<string>, faults: Faults, w: Writes, b: Block): Writes {
    if Touches(u, links, w.files, known, faults, b.path) then
      Writes(w.files[Landed(links, b.path) := Left(faults, b)], w.touched + [b.path],
             if b.path in faults.torn then w.written else w.written + [b.path])
    else w
  }

  /** The write phase: block by block, each judged on the clone as the earlier ones left it. */
  function WriteAll(u: Unicode, links: Links, files: Files, known: set<string>, faults: Faults, blocks: seq<Block>): Writes {
    if blocks == [] then Writes(files, [], [])
    else
      var n := |blocks| - 1;
      WriteOne(u, links, known, faults, WriteAll(u, links, files, known, faults, blocks[..n]), blocks[n])
  }

  ghost function AsSet(paths: seq<string>): set<string> {
    set path | path in paths
  }

  /** The files of the clone are those of before, but for some. */
  ghost predicate ChangedOnly(files: Files, now: Files, names: set<string>) {
    && now.Keys == files.Keys + names
    && forall name :: name in files && name !in names ==> now[name] == files[name]
  }

  /** What the write phase guarantees, whatever order and links do. */
  ghost predicate WritesKeep(u: Unicode, links: Links, files: Files, known: set<string>, faults: Faults, paths: seq<string>,
                             w: Writes) {
    && (forall path :: path in w.touched ==> path in paths && Touches(u, links, files, known, faults, path))
    && AsSet(w.written) == AsSet(w.touched) - faults.torn.Keys
    && ChangedOnly(files, w.files, Landings(links, AsSet(w.touched)))
    && |w.written| <= |paths| && (|w.written| == |paths| ==> w.written == w.touched == paths)
    && |w.written| <= |w.touched| <= |paths|
  }

  lemma {:induction false} IsDirGrows(links: Links, files: Files, now: Files, name: string)
    requires files.Keys <= now.Keys && IsDir(links, files, name)
    ensures IsDir(links, now, name)
  {
    if name != "" {
      var k :| k in files.Keys + links.linked && name + "/" <= k;
      assert k in now.Keys + links.linked;
    }
  }

  lemma {:induction false} StatGrows(links: Links, files: Files, now: Files, path: string)
    requires files.Keys <= now.Keys && Stat(links, files, path)
    ensures Stat(links, now, path)
  {
    var parts := Components(path).value;
    if parts != [] && IsDir(links, files, Join("/", parts)) {
      IsDirGrows(links, files, now, Join("/", parts));
    }
  }

  lemma {:induction false} ConflictGrows(links: Links, files: Files, now: Files, name: string)
    requires files.Keys <= now.Keys && Conflict(links, files, name)
    ensures Conflict(links, now, name)
  {
    if IsDir(links, files, name) {
      IsDirGrows(links, files, now, name);
    } else {
      var k :| k in files && k + "/" <= name;
      assert k in now;
    }
  }

  lemma {:induction false} OneMoreTouched(links: Links, faults: Faults, w: Writes, b: Block)
    ensures AsSet(w.touched + [b.path]) == AsSet(w.touched) + {b.path}
    ensures AsSet(w.written + [b.path]) == AsSet(w.written) + {b.path}
    ensures Landings(links, AsSet(w.touched + [b.path])) == Landings(links, AsSet(w.touched)) + {Landed(links, b.path)}
  {
    assert AsSet(w.touched + [b.path]) == AsSet(w.touched) + {b.path};
    var all := Landings(links, AsSet(w.touched) + {b.path});
    assert all == Landings(links, AsSet(w.touched)) + {Landed(links, b.path)};
  }

  lemma {:induction false} ChangedOneMore(files: Files, now: Files, names: set<string>, name: string, content: string)
    requires ChangedOnly(files, now, names)
    ensures ChangedOnly(files, now[name := content], names + {name})
  {
  }

  lemma {:induction false} WriteOneKeeps(u: Unicode, links: Links, files: Files, known: set<string>, faults: Faults,
                                         paths: seq<string>, w: Writes, b: Block)
    requires WritesKeep(u, links, files, known, faults, paths, w)
    ensures WritesKeep(u, links, files, known, faults, paths + [b.path], WriteOne(u, links, known, faults, w, b))
  {
    if Touches(u, links, w.files, known, faults, b.path) {
      OneMoreTouched(links, faults, w, b);
      ChangedOneMore(files, w.files, Landings(links, AsSet(w.touched)), Landed(links, b.path), Left(faults, b));
      if Stat(links, files, b.path) {
        StatGrows(links, files, w.files, b.path);
      }
      if Conflict(links, files, Landed(links, b.path)) {
        ConflictGrows(links, files, w.files, Landed(links, b.path));
      }
    }
  }

  /** Whatever the order and the links do: a path written to was proposed and would have been written to on
      the clone as it was at the start; the successful ones are those without a fault; and only the files those
      paths land on change. */
  lemma {:induction false} WriteAllKeeps(u: Unicode, links: Links, files: Files, known: set<string>, faults: Faults,
                                         blocks: seq<Block>)
    ensures WritesKeep(u, links, files, known, faults, Paths(blocks), WriteAll(u, links, files, known, faults, blocks))
  {
    if blocks == [] {
      assert Landings(links, AsSet([])) == {};
    } else {
      var n := |blocks| - 1;
      WriteAllKeeps(u, links, files, known, faults, blocks[..n]);
      WriteOneKeeps(u, links, files, known, faults, Paths(blocks[..n]),
                    WriteAll(u, links, files, known, faults, blocks[..n]), blocks[n]);
    }
  }

  /** No file of the clone is inside another. */
  ghost predicate IsTree(files: Files) {
    forall a, b :: a in files && b in files ==> !(a + "/" <= b)
  }

  /** Writing keeps it that way. */
  lemma {:induction false} WriteAllKeepsTree(u: Unicode, links: Links, files: Files, known: set<string>, faults: Faults,
                                             blocks: seq<Block>)
    requires IsTree(files)
    ensures IsTree(WriteAll(u, links, files, known, faults, blocks).files)
  {
    if blocks != [] {
      WriteAllKeepsTree(u, links, files, known, faults, blocks[..|blocks| - 1]);
      var w := WriteAll(u, links, files, known, faults, blocks[..|blocks| - 1]);
      WriteOneKeepsTree(u, links, known, faults, w, blocks[|blocks| - 1]);
    }
  }

  lemma {:induction false} WriteOneKeepsTree(u: Unicode, links: Links, known: set<string>, faults: Faults, w: Writes, b: Block)
    requires IsTree(w.files)
    ensures IsTree(WriteOne(u, links, known, faults, w, b).files)
  {
    var name := Landed(links, b.path);
    if Touches(u, links, w.files, known, faults, b.path) {
      assert !Conflict(links, w.files, name);
      assert forall k :: k in w.files ==> k in w.files.Keys + links.linked;
    }
  }

  lemma {:induction false} SegmentsOfCanonical(path: string)
    requires Canonical(path) == Some(path)
    ensures Join("/", RawSegments(path)) == path && '\\' !in path
  {
    SegmentsWithout(path, '\\');
    JoinWithout("/", RawSegments(path), '\\');
  }

  lemma {:induction false} NoSuchPattern(s: string, pattern: string)
    requires pattern != "" && pattern[0] !in s
    ensures !Contains(s, pattern)
  {
  }

  lemma {:induction false} NoDevicePrefix(path: string)
    requires '\\' !in path && path != ""
    ensures !("\\\\" <= path) && !Contains(path, "\\\\?\\") && !Contains(path, "\\\\.\\")
  {
    NoSuchPattern(path, "\\\\?\\");
    NoSuchPattern(path, "\\\\.\\");
    assert path[0] in path;
  }

  lemma {:induction false} PlainCanonical(path: string)
    requires Canonical(path) == Some(path)
    ensures '\0' !in path && path !in ["", "."] && path[0] != '/'
  {
    NoSegments();
    ReplaceAt(path, 0);
  }

  lemma {:induction false} SegmentsAreNames(path: string)
    requires Canonical(path).Some?
    ensures RawSegments(path) != [] && forall p :: p in RawSegments(path) ==> p != ".." && ':' !in p
  {
  }

  lemma {:induction false} ComponentsOfCanonical(path: string)
    requires Canonical(path) == Some(path)
    ensures Components(path) == if Aliased(path) then None else Some(RawSegments(path))
    ensures RawSegments(path) != [] && Join("/", RawSegments(path)) == path
  {
    PlainCanonical(path);
    SegmentsAreNames(path);
    SegmentsOfCanonical(path);
    NoDevicePrefix(path);
  }

  lemma {:induction false} ReadOfCanonical(links: Links, files: Files, unreadable: string -> bool, path: string)
    requires Canonical(path) == Some(path)
    ensures var content := Read(links, files, unreadable, path);
            && (content.Some? <==> path in files && Direct(links, path) && !Aliased(path) && !unreadable(files[path]))
            && (content.Some? ==> content.value == files[path])
  {
    ComponentsOfCanonical(path);
  }

  /** The reader's view of a path the writer would take: it sees what is there, except that it calls missing
      what it does not look for -- behind a linked directory, or with a segment that ends in a dot or a
      space. */
  lemma {:induction false} StatOfCanonical(links: Links, files: Files, path: string)
    requires Canonical(path) == Some(path)
    ensures Stat(links, files, path) <==>
            && (path in files || path in links.linked || IsDir(links, files, path))
            && !Through(links, path) && !Aliased(path)
  {
    ComponentsOfCanonical(path);
  }

  /** What the reader refuses: NUL, absolute and device paths, and any segment that is `..`, names a drive or
      ends in a dot or a space; of anything else it keeps the segments. */
  lemma {:induction false} ComponentsAre(target: string)
    ensures Components(target).Some? <==>
            && '\0' !in target
            && (target in ["", "."] ||
                (&& target[0] != '/' && !("\\\\" <= target)
                 && !Contains(target, "\\\\?\\") && !Contains(target, "\\\\.\\")
                 && forall p :: p in RawSegments(target) ==> p != ".." && ':' !in p && (p != "" ==> p[|p| - 1] !in ". ")))
    ensures Components(target).Some? ==> Components(target).value == if target in ["", "."] then [] else RawSegments(target)
  {
    forall p: string
      ensures TrimDots(p) == p <==> p == "" || p[|p| - 1] !in ". "
    {
      TrimsItsEnd(p);
    }
  }

  lemma {:induction false} TrimsItsEnd(p: string)
    ensures TrimDots(p) == p <==> p == "" || p[|p| - 1] !in ". "
  {
    if p != "" && p[|p| - 1] in ". " {
      TrimIsPrefix(p[..|p| - 1]);
    }
  }

  /** A path is behind a link exactly when it continues a linked name. */
  lemma {:induction false} ThroughIsBelow(links: Links, path: string)
    requires Canonical(path) == Some(path)
    ensures Through(links, path) <==> exists d :: d in links.linked && d + "/" <= path
  {
    SegmentsOfCanonical(path);
    if Through(links, path) {
      var parts := RawSegments(path);
      var n :| 0 < n < |parts| && Join("/", parts[..n]) in links.linked;
      assert parts == parts[..n] + parts[n..];
      JoinOfParts(parts[..n], parts[n..]);
    }
    if d :| d in links.linked && d + "/" <= path {
      BelowIsThrough(links, path, d);
    }
  }

  lemma {:induction false} SplitOfCanonical(path: string)
    requires Canonical(path) == Some(path)
    ensures Split(path, '/') == RawSegments(path) && |RawSegments(path)| > 0
  {
    SegmentsOfCanonical(path);
    SegmentsAreNames(path);
    SplitParts(Slashes(path), '/');
    KeptAreParts(Split(Slashes(path), '/'));
    SplitJoin(RawSegments(path), '/');
  }

  lemma {:induction false} BelowIsThrough(links: Links, path: string, d: string)
    requires Canonical(path) == Some(path) && d in links.linked && d + "/" <= path
    ensures Through(links, path)
  {
    var rest, front := path[|d| + 1..], Split(d, '/');
    assert path == d + ['/'] + rest;
    SplitOfCanonical(path);
    SplitAppend(d, '/', rest);
    SplitParts(d, '/');
    assert RawSegments(path)[..|front|] == front;
    assert Join("/", RawSegments(path)[..|front|]) in links.linked;
  }

  /** The entry of this path, with this content and nothing cut off. */
  ghost predicate ShowsWhole(pieces: seq<Piece>, path: string, content: string) {
    exists i :: 0 <= i < |pieces| && pieces[i].Whole? && Key(pieces[i].path) == path && pieces[i].content == content
  }

  /** Whatever spelling a file was declared by, reading it reads the file its key names. */
  lemma {:induction false} ReadByKey(links: Links, files: Files, unreadable: string -> bool, declared: string, key: string)
    requires key == Key(declared) && Canonical(key) == Some(key) && Read(links, files, unreadable, declared).Some?
    ensures key in files && files[key] == Read(links, files, unreadable, declared).value && Direct(links, key)
  {
    CanonicalForm(declared);
  }

  /** A writable path counted as shown is a file of the clone, reached by no link, and its own entry holds its
      whole content. */
  lemma {:induction false} ShownIsCurrent(links: Links, files: Files, unreadable: string -> bool, paths: seq<string>, path: string)
    requires path in Shown(Render(links, files, unreadable, paths)) && Canonical(path) == Some(path)
    ensures path in files && |files[path]| <= MAX_READ_FILE && Direct(links, path)
    ensures ShowsWhole(Render(links, files, unreadable, paths), path, files[path])
  {
    ShownInFull(links, files, unreadable, paths);
    var pieces := Render(links, files, unreadable, paths);
    var i :| 0 <= i < |pieces| && IsWhole(links, files, unreadable, pieces[i], path);
    ReadByKey(links, files, unreadable, pieces[i].path, path);
  }

  // ---------------------------------------------------------------------------------------------
  // What is written
  // ---------------------------------------------------------------------------------------------

  /** Each block in turn: it is written to exactly when the reader does not see its path, or the path was shown
      or written before, and the writer takes the path, finds no directory in the way and can open the file;
      then the file on which it lands holds its content, or what a failure left, and the path is reported unless
      it failed. */
  lemma {:induction false} BlockByBlock(u: Unicode, links: Links, files: Files, known: set<string>, faults: Faults,
                                        blocks: seq<Block>, i: nat)
    requires i < |blocks|
    ensures var w, w' := WriteAll(u, links, files, known, faults, blocks[..i]), WriteAll(u, links, files, known, faults, blocks[..i + 1]);
            var path, name := blocks[i].path, Landed(links, blocks[i].path);
            if (path in known || !Stat(links, w.files, path)) && Landable(u, links, path) && !Conflict(links, w.files, name) &&
               path !in faults.refused
            then
              && w'.touched == w.touched + [path]
              && w'.files == w.files[name := if path in faults.torn then faults.torn[path] else blocks[i].body]
              && w'.written == w.written + (if path in faults.torn then [] else [path])
            else w' == w
  {
    WriteAllNext(u, links, files, known, faults, blocks, i);
    var w := WriteAll(u, links, files, known, faults, blocks[..i]);
    assert w.written + [] == w.written;
  }

  lemma {:induction false} LandsWhereItSays(links: Links, path: string)
    requires Sound(links) && Canonical(path) == Some(path) && Direct(links, path)
    ensures Landed(links, path) == path
  {
  }

  /** Neither is the other, nor inside it. */
  ghost predicate Apart(a: string, b: string) {
    a != b && !(a + "/" <= b) && !(b + "/" <= a)
  }

  /** Blocks that could each be written alone and land apart from each other. */
  ghost predicate Independent(u: Unicode, links: Links, files: Files, known: set<string>, faults: Faults, blocks: seq<Block>) {
    && (forall i :: 0 <= i < |blocks| ==>
          && Canonical(blocks[i].path) == Some(blocks[i].path) && blocks[i].path !in faults.torn
          && Touches(u, links, files, known, faults, blocks[i].path))
    && (forall i, j :: 0 <= i < j < |blocks| ==> Apart(Landed(links, blocks[i].path), Landed(links, blocks[j].path)))
  }

  lemma {:induction false} StatApart(links: Links, files: Files, path: string, name: string, content: string)
    requires Sound(links) && Canonical(path) == Some(path) && Apart(name, Landed(links, path)) && !Stat(links, files, path)
    ensures !Stat(links, files[name := content], path)
  {
    StatOfCanonical(links, files, path);
    StatOfCanonical(links, files[name := content], path);
    if Stat(links, files[name := content], path) {
      LandsWhereItSays(links, path);
      DirApart(links, files, path, name, content);
    }
  }

  lemma {:induction false} DirApart(links: Links, files: Files, dir: string, name: string, content: string)
    requires Apart(name, dir) && !IsDir(links, files, dir)
    ensures !IsDir(links, files[name := content], dir)
  {
    var keys := files[name := content].Keys + links.linked;
    forall k | k in keys
      ensures !(dir + "/" <= k)
    {
      assert k == name || k in files.Keys + links.linked;
    }
  }

  lemma {:induction false} ConflictApart(links: Links, files: Files, other: string, name: string, content: string)
    requires Apart(name, other) && !Conflict(links, files, other)
    ensures !Conflict(links, files[name := content], other)
  {
    DirApart(links, files, other, name, content);
    assert forall k :: k in files[name := content] ==> k == name || k in files;
  }

  lemma {:induction false} TouchesApart(u: Unicode, links: Links, files: Files, known: set<string>, faults: Faults, path: string,
                                        name: string, content: string)
    requires Sound(links) && Canonical(path) == Some(path) && Apart(name, Landed(links, path))
    requires Touches(u, links, files, known, faults, path)
    ensures Touches(u, links, files[name := content], known, faults, path)
  {
    ConflictApart(links, files, Landed(links, path), name, content);
    if path !in known {
      StatApart(links, files, path, name, content);
    }
  }

  /** What the clone holds after all of them. */
  ghost predicate AllLanded(links: Links, files: Files, blocks: seq<Block>, w: Writes) {
    && w.touched == w.written == Paths(blocks)
    && Stand(links, w.files, blocks)
    && ChangedOnly(files, w.files, Landings(links, AsSet(Paths(blocks))))
  }

  /** What later blocks need stays as it was. */
  ghost predicate StillOpen(u: Unicode, links: Links, now: Files, known: set<string>, faults: Faults, blocks: seq<Block>, i: nat) {
    forall j :: i <= j < |blocks| ==> Touches(u, links, now, known, faults, blocks[j].path)
  }

  lemma {:induction false} PathsNext(done: seq<Block>, b: Block)
    ensures Paths(done + [b]) == Paths(done) + [b.path]
  {
    assert (done + [b])[..|done|] == done;
  }

  /** Each block's content stands where its path lands. */
  ghost predicate Stand(links: Links, now: Files, blocks: seq<Block>) {
    forall b :: b in blocks ==> Landed(links, b.path) in now && now[Landed(links, b.path)] == b.body
  }

  lemma {:induction false} OneMoreStands(links: Links, now: Files, done: seq<Block>, b: Block)
    requires Stand(links, now, done)
    requires forall c :: c in done ==> Landed(links, c.path) != Landed(links, b.path)
    ensures Stand(links, now[Landed(links, b.path) := b.body], done + [b])
  {
  }

  lemma {:induction false} OneMoreLands(links: Links, files: Files, done: seq<Block>, w: Writes, b: Block)
    requires AllLanded(links, files, done, w)
    requires forall c :: c in done ==> Landed(links, c.path) != Landed(links, b.path)
    ensures AllLanded(links, files, done + [b],
                      Writes(w.files[Landed(links, b.path) := b.body], w.touched + [b.path], w.written + [b.path]))
  {
    PathsNext(done, b);
    OneMoreTouched(links, Faults({}, map[]), w, b);
    ChangedOneMore(files, w.files, Landings(links, AsSet(w.touched)), Landed(links, b.path), b.body);
    OneMoreStands(links, w.files, done, b);
  }

  lemma {:induction false} NextIsOpen(u: Unicode, links: Links, files: Files, known: set<string>, faults: Faults, now: Files,
                                      blocks: seq<Block>, i: nat)
    requires Sound(links) && Independent(u, links, files, known, faults, blocks) && i < |blocks|
    requires StillOpen(u, links, now, known, faults, blocks, i)
    ensures StillOpen(u, links, now[Landed(links, blocks[i].path) := blocks[i].body], known, faults, blocks, i + 1)
  {
    forall j | i + 1 <= j < |blocks|
      ensures Touches(u, links, now[Landed(links, blocks[i].path) := blocks[i].body], known, faults, blocks[j].path)
    {
      TouchesApart(u, links, now, known, faults, blocks[j].path, Landed(links, blocks[i].path), blocks[i].body);
    }
  }

  /** A block whose turn it is, and which can be written. */
  lemma {:induction false} OpenIsWritten(u: Unicode, links: Links, files: Files, known: set<string>, faults: Faults, done: seq<Block>,
                                         w: Writes, b: Block)
    requires w == WriteAll(u, links, files, known, faults, done)
    requires Touches(u, links, w.files, known, faults, b.path) && b.path !in faults.torn
    ensures WriteAll(u, links, files, known, faults, done + [b]) ==
            Writes(w.files[Landed(links, b.path) := b.body], w.touched + [b.path], w.written + [b.path])
  {
    assert (done + [b])[..|done|] == done;
  }

  /** The clone and the reports after some blocks. */
  ghost predicate HaveLanded(u: Unicode, links: Links, files: Files, known: set<string>, faults: Faults, done: seq<Block>, w: Writes) {
    w == WriteAll(u, links, files, known, faults, done) && AllLanded(links, files, done, w)
  }

  lemma {:induction false} LandStep(u: Unicode, links: Links, files: Files, known: set<string>, faults: Faults, done: seq<Block>,
                                    w: Writes, b: Block)
    requires HaveLanded(u, links, files, known, faults, done, w)
    requires Touches(u, links, w.files, known, faults, b.path) && b.path !in faults.torn
    requires forall c :: c in done ==> Landed(links, c.path) != Landed(links, b.path)
    ensures HaveLanded(u, links, files, known, faults, done + [b],
                       Writes(w.files[Landed(links, b.path) := b.body], w.touched + [b.path], w.written + [b.path]))
  {
    OpenIsWritten(u, links, files, known, faults, done, w, b);
    OneMoreLands(links, files, done, w, b);
  }

  lemma {:induction false} LandsApart(u: Unicode, links: Links, files: Files, known: set<string>, faults: Faults, blocks: seq<Block>, i: nat)
    requires Independent(u, links, files, known, faults, blocks) && i < |blocks|
    ensures blocks[i].path !in faults.torn && blocks[..i + 1] == blocks[..i] + [blocks[i]]
    ensures forall c :: c in blocks[..i] ==> Landed(links, c.path) != Landed(links, blocks[i].path)
  {
  }

  lemma {:induction false} LandNext(u: Unicode, links: Links, files: Files, known: set<string>, faults: Faults, blocks: seq<Block>,
                                    i: nat, w: Writes) returns (next: Writes)
    requires Sound(links) && Independent(u, links, files, known, faults, blocks) && i < |blocks|
    requires HaveLanded(u, links, files, known, faults, blocks[..i], w) && StillOpen(u, links, w.files, known, faults, blocks, i)
    ensures HaveLanded(u, links, files, known, faults, blocks[..i + 1], next) && StillOpen(u, links, next.files, known, faults, blocks, i + 1)
  {
    next := Writes(w.files[Landed(links, blocks[i].path) := blocks[i].body], w.touched + [blocks[i].path], w.written + [blocks[i].path]);
    NextIsOpen(u, links, files, known, faults, w.files, blocks, i);
    LandsApart(u, links, files, known, faults, blocks, i);
    LandStep(u, links, files, known, faults, blocks[..i], w, blocks[i]);
  }

  lemma {:induction false} LandFrom(u: Unicode, links: Links, files: Files, known: set<string>, faults: Faults, blocks: seq<Block>, i: nat, w: Writes)
    requires Sound(links) && Independent(u, links, files, known, faults, blocks) && i <= |blocks|
    requires HaveLanded(u, links, files, known, faults, blocks[..i], w) && StillOpen(u, links, w.files, known, faults, blocks, i)
    ensures AllLanded(links, files, blocks, WriteAll(u, links, files, known, faults, blocks))
    decreases |blocks| - i
  {
    if i == |blocks| {
      assert blocks[..i] == blocks;
    } else {
      var next := LandNext(u, links, files, known, faults, blocks, i, w);
      LandFrom(u, links, files, known, faults, blocks, i + 1, next);
    }
  }

  /** Independent blocks all land, each with its content, whatever their number, and nothing else changes. */
  lemma {:induction false} IndependentBlocksLand(u: Unicode, links: Links, files: Files, known: set<string>, faults: Faults, blocks: seq<Block>)
    requires Sound(links) && Independent(u, links, files, known, faults, blocks)
    ensures AllLanded(links, files, blocks, WriteAll(u, links, files, known, faults, blocks))
  {
    assert Landings(links, AsSet([])) == {} && AsSet(Paths([])) == {};
    assert blocks[..0] == [];
    LandFrom(u, links, files, known, faults, blocks, 0, Writes(files, [], []));
  }

  /** One block of an answer; `w` is what the blocks before it did. */
  method WriteBlock(u: Unicode, tools: Workspace, shown: set<string>, ever: set<string>, faults: Faults, b: Block, ghost w: Writes)
    returns (ok: bool)
    requires w.files == tools.files
    modifies tools`files
    ensures ok <==> Touches(u, tools.links, old(tools.files), shown + ever, faults, b.path) && b.path !in faults.torn
    ensures var w' := WriteOne(u, tools.links, shown + ever, faults, w, b);
            tools.files == w'.files && w'.written == if ok then w.written + [b.path] else w.written
  {
    if b.path !in shown && b.path !in ever {
      var exists' := tools.StatFile(b.path);
      if exists' {
        return false;
      }
    }
    var target := tools.WriteFile(u, b.path, b.body, faults);
    ok := target.Some?;
  }

  lemma {:induction false} WriteAllNext(u: Unicode, links: Links, files: Files, known: set<string>, faults: Faults,
                                        blocks: seq<Block>, i: nat)
    requires i < |blocks|
    ensures WriteAll(u, links, files, known, faults, blocks[..i + 1]) ==
            WriteOne(u, links, known, faults, WriteAll(u, links, files, known, faults, blocks[..i]), blocks[i])
  {
    assert blocks[..i + 1][..i] == blocks[..i];
  }

  /** The write phase; where the writes landed is not kept. */
  method WriteBlocks(u: Unicode, tools: Workspace, shown: set<string>, ever: set<string>, faults: Faults, blocks: seq<Block>)
    returns (written: seq<string>, failed: bool)
    modifies tools`files
    ensures var w := WriteAll(u, tools.links, old(tools.files), shown + ever, faults, blocks);
            tools.files == w.files && written == w.written
    ensures failed <==> |written| < |blocks|
  {
    written, failed := [], false;
    ghost var start, known := tools.files, shown + ever;
    ghost var w := Writes(start, [], []);
    for i := 0 to |blocks|
      invariant w == WriteAll(u, tools.links, start, known, faults, blocks[..i])
      invariant tools.files == w.files && written == w.written
      invariant |written| <= i && (failed <==> |written| < i)
    {
      WriteAllNext(u, tools.links, start, known, faults, blocks, i);
      var ok := WriteBlock(u, tools, shown, ever, faults, blocks[i], w);
      w := WriteOne(u, tools.links, known, faults, w, blocks[i]);
      if ok {
        written := written + [blocks[i].path];
      } else {
        failed := true;
      }
    }
    assert blocks[..|blocks|] == blocks;
  }
}
