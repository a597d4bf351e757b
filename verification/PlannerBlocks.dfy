/** The planner's answer format: file blocks inside free prose, found by a lazy regular expression. */
module PlannerBlocks {
  import opened Options
  import opened Text
  import opened RepoPaths

  const HEADER: string := "=== FILE "
  const HEADER_END: string := " ===\n"
  const BLOCK_END: string := "\n=== END FILE ==="

  datatype Block = Block(path: string, body: string)

  /** What the planner's answer is read as; two blocks for one destination are an error. */
  datatype Parsed = Duplicate | Files(files: seq<Block>)

  /** The text of one block. */
  function Written(b: Block): (s: string)
    ensures |s| == |HEADER| + |b.path| + |HEADER_END| + |b.body| + |BLOCK_END|
  {
    HEADER + b.path + HEADER_END + b.body + BLOCK_END
  }

  /** The regular expression: some text at the front of `s` is a block with a non-empty one-line path. */
  ghost predicate Fits(s: string, b: Block) {
    b.path != "" && '\n' !in b.path && Written(b) <= s
  }

  /** The lazy match at the front of `s`: the path ends at the first line end, the body at the first end
      marker after it. */
  function MatchAt(s: string): Option<Block> {
    if HEADER <= s then MatchHeader(s[|HEADER|..]) else None
  }

  function MatchHeader(rest: string): Option<Block> {
    match PathAt(rest)
    case Some(path) => MatchBody(path, rest[|path| + |HEADER_END|..])
    case None => None
  }

  /** The path of a header line: what stands before its closing marker. */
  function PathAt(rest: string): (path: Option<string>)
    ensures path.Some? ==> |path.value| + |HEADER_END| <= |rest|
  {
    var eol := Find(rest, "\n");
    if 0 <= eol < |rest| && EndsWith(rest[..eol + 1], HEADER_END) && eol + 1 > |HEADER_END| then
      Some(rest[..eol + 1 - |HEADER_END|])
    else None
  }

  function MatchBody(path: string, rest: string): Option<Block> {
    var end := Find(rest, BLOCK_END);
    if end >= 0 then Some(Block(path, rest[..end])) else None
  }

  /** `finditer`: the matches from left to right, none overlapping. */
  function Matches(s: string): seq<Block>
    decreases |s|
  {
    if s == "" then []
    else
      var found := MatchAt(s);
      if found.Some? && |Written(found.value)| <= |s| then [found.value] + Matches(s[|Written(found.value)|..])
      else Matches(s[1..])
  }

  /** `replace("\r\n", "\n")`. */
  function Normalize(s: string): string {
    if s == "" then ""
    else if s[0] == '\r' && |s| > 1 && s[1] == '\n' then ['\n'] + Normalize(s[2..])
    else [s[0]] + Normalize(s[1..])
  }

  /** The path a block is filed under: the one its write lands on, or the raw one for the writer to refuse. */
  function Resolve(raw: string): string {
    var path := Strip(raw);
    match Canonical(path)
    case Some(canonical) => canonical
    case None => path
  }

  function Destination(u: Unicode, path: string): string {
    Join("/", Segments(u, path))
  }

  function Entry(m: Block): Block {
    m.(path := Resolve(m.path))
  }

  function Entries(found: seq<Block>): (entries: seq<Block>)
    ensures |entries| == |found|
    ensures forall i :: 0 <= i < |found| ==> entries[i] == Entry(found[i])
  {
    if found == [] then [] else Entries(found[..|found| - 1]) + [Entry(found[|found| - 1])]
  }

  /** The entries of an answer, one per match. */
  function Proposed(text: string): seq<Block> {
    Entries(Matches(Normalize(text)))
  }

  function Destinations(u: Unicode, entries: seq<Block>): (ds: seq<string>)
    ensures |ds| == |entries|
    ensures forall i :: 0 <= i < |ds| ==> ds[i] == Destination(u, entries[i].path)
  {
    if entries == [] then []
    else Destinations(u, entries[..|entries| - 1]) + [Destination(u, entries[|entries| - 1].path)]
  }

  ghost predicate Repeats(ds: seq<string>) {
    exists i, j :: 0 <= i < j < |ds| && ds[i] == ds[j]
  }

  /** Two blocks are for one destination. */
  ghost predicate Collide(u: Unicode, entries: seq<Block>) {
    Repeats(Destinations(u, entries))
  }

  /** `_parse_file_blocks`. */
  ghost function Parse(u: Unicode, text: string): Parsed {
    if Collide(u, Proposed(text)) then Duplicate else Files(Proposed(text))
  }

  lemma {:induction false} RepeatsMore(ds: seq<string>, d: string)
    ensures Repeats(ds + [d]) <==> Repeats(ds) || d in ds
  {
    assert forall i :: 0 <= i < |ds| ==> (ds + [d])[i] == ds[i];
    assert (ds + [d])[|ds|] == d;
    if Repeats(ds + [d]) {
      var i, j :| 0 <= i < j < |ds + [d]| && (ds + [d])[i] == (ds + [d])[j];
      assert j < |ds| ==> ds[i] == ds[j];
    }
    if Repeats(ds) {
      var i, j :| 0 <= i < j < |ds| && ds[i] == ds[j];
      assert (ds + [d])[i] == (ds + [d])[j];
    }
  }

  lemma {:induction false} OneMore(u: Unicode, entries: seq<Block>, b: Block)
    ensures Destinations(u, entries + [b]) == Destinations(u, entries) + [Destination(u, b.path)]
    ensures Collide(u, entries + [b]) <==>
            Collide(u, entries) || Destination(u, b.path) in Destinations(u, entries)
  {
    assert (entries + [b])[..|entries|] == entries;
    RepeatsMore(Destinations(u, entries), Destination(u, b.path));
  }

  lemma {:induction false} EarlyCollision(u: Unicode, entries: seq<Block>, n: nat)
    requires n <= |entries| && Collide(u, entries[..n])
    ensures Collide(u, entries)
  {
    var early, ds := Destinations(u, entries[..n]), Destinations(u, entries);
    assert forall i :: 0 <= i < n ==> early[i] == ds[i];
  }

  lemma {:induction false} NextDestinations(u: Unicode, entries: seq<Block>, b: Block)
    ensures forall d :: d in Destinations(u, entries + [b]) <==>
              d in Destinations(u, entries) || d == Destination(u, b.path)
  {
    OneMore(u, entries, b);
    var ds, d := Destinations(u, entries), Destination(u, b.path);
    assert forall x :: x in ds + [d] <==> x in ds || x == d;
  }

  lemma {:induction false} NextEntry(u: Unicode, entries: seq<Block>, i: nat)
    requires i < |entries|
    ensures entries[..i + 1] == entries[..i] + [entries[i]]
    ensures forall d :: d in Destinations(u, entries[..i + 1]) <==>
              d in Destinations(u, entries[..i]) || d == Destination(u, entries[i].path)
    ensures if Destination(u, entries[i].path) in Destinations(u, entries[..i]) then Collide(u, entries)
            else Collide(u, entries[..i + 1]) <==> Collide(u, entries[..i])
  {
    assert entries[..i + 1] == entries[..i] + [entries[i]];
    NextDestinations(u, entries[..i], entries[i]);
    OneMore(u, entries[..i], entries[i]);
    if Collide(u, entries[..i + 1]) {
      EarlyCollision(u, entries, i + 1);
    }
  }

  method ParseFileBlocks(u: Unicode, text: string) returns (parsed: Parsed)
    ensures parsed == Parse(u, text)
  {
    var found := Matches(Normalize(text));
    ghost var entries := Entries(found);
    var blocks: seq<Block> := [];
    var destinations: map<string, string> := map[];
    for i := 0 to |found|
      invariant blocks == entries[..i]
      invariant forall d :: d in destinations <==> d in Destinations(u, blocks)
      invariant !Collide(u, blocks)
    {
      var path := Resolve(found[i].path);
      var destination := FsEquivPath(u, path);
      NextEntry(u, entries, i);
      if destination in destinations {
        return Duplicate;
      }
      destinations := destinations[destination := path];
      blocks := blocks + [Block(path, found[i].body)];
    }
    assert entries[..|found|] == entries;
    parsed := Files(blocks);
  }

  // ---------------------------------------------------------------------------------------------
  // The matcher finds what the regular expression asks for
  // ---------------------------------------------------------------------------------------------

  lemma {:induction false} FindAtMost(s: string, pattern: string, k: nat)
    requires k <= |s| && pattern <= s[k..]
    ensures 0 <= Find(s, pattern) <= k
  {
  }

  lemma {:induction false} LineEnd(path: string, rest: string)
    requires '\n' !in path
    ensures Find(path + HEADER_END + rest, "\n") == |path| + |HEADER_END| - 1
  {
    var s, k := path + HEADER_END + rest, |path| + |HEADER_END| - 1;
    assert s[k] == '\n';
    assert "\n" <= s[k..];
    FindAtMost(s, "\n", k);
    var found := Find(s, "\n");
    assert s[found..][0] == s[found];
    assert forall i :: 0 <= i < |path| ==> s[i] == path[i] && path[i] in path;
  }

  lemma {:induction false} PathRead(path: string, rest: string)
    requires path != "" && '\n' !in path
    ensures PathAt(path + HEADER_END + rest) == Some(path)
  {
    LineEnd(path, rest);
    var s := path + HEADER_END + rest;
    var eol := Find(s, "\n");
    assert s[..eol + 1] == path + HEADER_END;
    assert s[..eol + 1][|path|..] == HEADER_END;
    assert s[..|path|] == path;
  }

  lemma {:induction false} HeaderRead(path: string, rest: string)
    requires path != "" && '\n' !in path
    ensures MatchHeader(path + HEADER_END + rest) == MatchBody(path, rest)
  {
    PathRead(path, rest);
    assert (path + HEADER_END + rest)[|path| + |HEADER_END|..] == rest;
  }

  lemma {:induction false} BlockSplits(s: string, b: Block)
    requires Written(b) <= s
    ensures HEADER <= s
    ensures exists tail :: s[|HEADER|..] == b.path + HEADER_END + (b.body + BLOCK_END + tail) && tail == s[|Written(b)|..]
  {
    var tail := s[|Written(b)|..];
    assert s == Written(b) + tail;
    assert s == HEADER + (b.path + HEADER_END + (b.body + BLOCK_END + tail));
  }

  lemma {:induction false} FirstEnd(path: string, body: string, tail: string)
    ensures var m := MatchBody(path, body + BLOCK_END + tail);
            m.Some? && m.value.path == path && |m.value.body| <= |body|
  {
    var rest := body + BLOCK_END + tail;
    assert rest[|body|..] == BLOCK_END + tail;
    FindAtMost(rest, BLOCK_END, |body|);
  }

  /** Whatever fits, the match is there, has the same path, and the shortest body. */
  lemma {:induction false} MatchIsLazy(s: string, b: Block)
    requires Fits(s, b)
    ensures MatchAt(s).Some? && MatchAt(s).value.path == b.path && |MatchAt(s).value.body| <= |b.body|
  {
    BlockSplits(s, b);
    var tail := s[|Written(b)|..];
    HeaderRead(b.path, b.body + BLOCK_END + tail);
    FirstEnd(b.path, b.body, tail);
  }

  lemma {:induction false} FoundAt(s: string, k: nat, pattern: string)
    requires k <= |s| && pattern <= s[k..]
    ensures s[..k] + pattern <= s
  {
    assert s == s[..k] + s[k..];
  }

  lemma {:induction false} BodyFits(path: string, rest: string)
    requires MatchBody(path, rest).Some?
    ensures var b := MatchBody(path, rest).value;
            b.path == path && b.body + BLOCK_END <= rest
  {
    FoundAt(rest, Find(rest, BLOCK_END), BLOCK_END);
  }

  lemma {:induction false} PrefixUnder(h: string, x: string, r: string)
    requires x <= r
    ensures h + x <= h + r
  {
  }

  lemma {:induction false} NoneBefore(s: string, n: nat)
    requires n <= |s| && (Find(s, "\n") < 0 || n <= Find(s, "\n"))
    ensures '\n' !in s[..n]
  {
    forall i | 0 <= i < n
      ensures s[i] != '\n'
    {
      assert s[i..][0] == s[i];
    }
  }

  lemma {:induction false} EndOfLine(s: string, n: nat, ending: string)
    requires n <= |s| && EndsWith(s[..n], ending)
    ensures s[..n - |ending|] + ending <= s
  {
    var line := s[..n];
    assert line == line[..n - |ending|] + ending;
    assert line[..n - |ending|] == s[..n - |ending|];
  }

  lemma {:induction false} PathFits(rest: string)
    requires PathAt(rest).Some?
    ensures var path := PathAt(rest).value; path != "" && '\n' !in path && path + HEADER_END <= rest
  {
    var eol := Find(rest, "\n");
    NoneBefore(rest, eol + 1 - |HEADER_END|);
    EndOfLine(rest, eol + 1, HEADER_END);
  }

  lemma {:induction false} Extended(s: string, front: string, x: string)
    requires front <= s && x <= s[|front|..]
    ensures front + x <= s
  {
  }

  lemma {:induction false} HeaderFits(rest: string)
    requires MatchHeader(rest).Some?
    ensures var b := MatchHeader(rest).value;
            b.path != "" && '\n' !in b.path && b.path + HEADER_END + (b.body + BLOCK_END) <= rest
  {
    PathFits(rest);
    var path := PathAt(rest).value;
    BodyFits(path, rest[|path| + |HEADER_END|..]);
    Extended(rest, path + HEADER_END, MatchHeader(rest).value.body + BLOCK_END);
  }

  lemma {:induction false} Regroup(a: string, b: string, c: string, d: string, e: string)
    ensures a + b + c + d + e == a + (b + c + (d + e))
  {
  }

  lemma {:induction false} MatchFits(s: string)
    requires MatchAt(s).Some?
    ensures Fits(s, MatchAt(s).value)
  {
    var rest := s[|HEADER|..];
    HeaderFits(rest);
    var b := MatchHeader(rest).value;
    Regroup(HEADER, b.path, HEADER_END, b.body, BLOCK_END);
    PrefixUnder(HEADER, b.path + HEADER_END + (b.body + BLOCK_END), rest);
    assert s == HEADER + rest;
  }

  /** The matcher is the lazy regular expression: it finds a block exactly when one fits, and the one it
      finds fits, with the only possible path and the shortest possible body. */
  lemma {:induction false} MatcherIsTheExpression(s: string)
    ensures MatchAt(s).Some? <==> exists b :: Fits(s, b)
    ensures MatchAt(s).Some? ==> Fits(s, MatchAt(s).value)
    ensures forall b :: Fits(s, b) ==>
              MatchAt(s).Some? && MatchAt(s).value.path == b.path && |MatchAt(s).value.body| <= |b.body|
  {
    if MatchAt(s).Some? {
      MatchFits(s);
    }
    forall b | Fits(s, b)
      ensures MatchAt(s).Some? && MatchAt(s).value.path == b.path && |MatchAt(s).value.body| <= |b.body|
    {
      MatchIsLazy(s, b);
    }
  }

  // ---------------------------------------------------------------------------------------------
  // Printing and reading back
  // ---------------------------------------------------------------------------------------------

  /** Blocks with prose before each of them and after the last. */
  function Print(prose: seq<string>, blocks: seq<Block>, closing: string): string
    requires |prose| == |blocks|
  {
    if blocks == [] then closing
    else prose[0] + (Written(blocks[0]) + Print(prose[1..], blocks[1..], closing))
  }

  ghost predicate BorderFree(p: string) {
    p != "" && forall k :: 0 < k < |p| ==> !(p[k..] <= p)
  }

  lemma {:induction false} MarkersAreBorderFree()
    ensures BorderFree(HEADER) && BorderFree(BLOCK_END)
  {
    forall k | 0 < k < |HEADER|
      ensures !(HEADER[k..] <= HEADER)
    {
      assert HEADER[k..][0] == HEADER[k];
      assert HEADER[k..][|HEADER| - k - 1] == HEADER[|HEADER| - 1] == ' ';
      assert HEADER[|HEADER| - k - 1] == ' ' ==> k == 5;
    }
    forall k | 0 < k < |BLOCK_END|
      ensures !(BLOCK_END[k..] <= BLOCK_END)
    {
      assert BLOCK_END[k..][0] == BLOCK_END[k] != '\n';
    }
  }

  /** No marker starts in a text without one and runs over into a text that begins with one. */
  lemma {:induction false} NoStraddle(left: string, p: string, rest: string, j: nat)
    requires BorderFree(p) && !Contains(left, p) && (rest == "" || p <= rest) && j < |left|
    ensures !(p <= (left + rest)[j..])
  {
    var n := |left| - j;
    assert (left + rest)[j..] == left[j..] + rest;
    assert !(p <= left[j..]);
    assert n < |p| ==> !(p[n..] <= p);
  }

  lemma {:induction false} MarkerFound(left: string, p: string, right: string)
    requires BorderFree(p) && !Contains(left, p)
    ensures Find(left + (p + right), p) == |left|
  {
    var s := left + (p + right);
    assert s[|left|..] == p + right;
    FindAtMost(s, p, |left|);
    if Find(s, p) < |left| {
      NoStraddle(left, p, p + right, Find(s, p));
    }
  }

  /** The blocks the format can carry. */
  ghost predicate Printable(b: Block) {
    && b.path != "" && '\n' !in b.path && '\r' !in b.path && Resolve(b.path) == b.path
    && '\r' !in b.body && !Contains(b.body, BLOCK_END)
  }

  ghost predicate Prose(s: string) {
    '\r' !in s && !Contains(s, HEADER)
  }

  lemma {:induction false} WholeBody(path: string, body: string, rest: string)
    requires !Contains(body, BLOCK_END)
    ensures MatchBody(path, body + BLOCK_END + rest) == Some(Block(path, body))
  {
    var s := body + BLOCK_END + rest;
    MarkersAreBorderFree();
    assert s == body + (BLOCK_END + rest);
    MarkerFound(body, BLOCK_END, rest);
    assert s[..|body|] == body;
  }

  lemma {:induction false} WrittenIsMatched(b: Block, rest: string)
    requires b.path != "" && '\n' !in b.path && !Contains(b.body, BLOCK_END)
    ensures MatchAt(Written(b) + rest) == Some(b)
  {
    var s := Written(b) + rest;
    BlockSplits(s, b);
    assert s[|Written(b)|..] == rest;
    HeaderRead(b.path, b.body + BLOCK_END + rest);
    WholeBody(b.path, b.body, rest);
  }

  lemma {:induction false} WrittenMatches(b: Block, rest: string)
    requires b.path != "" && '\n' !in b.path && !Contains(b.body, BLOCK_END)
    ensures Matches(Written(b) + rest) == [b] + Matches(rest)
  {
    WrittenIsMatched(b, rest);
    assert (Written(b) + rest)[|Written(b)|..] == rest;
  }

  lemma {:induction false} SkipProse(prose: string, rest: string)
    requires forall j :: 0 <= j < |prose| ==> !(HEADER <= (prose + rest)[j..])
    ensures Matches(prose + rest) == Matches(rest)
  {
    if prose == "" {
      assert prose + rest == rest;
    } else {
      var s := prose + rest;
      assert !(HEADER <= s[0..]) && s[0..] == s;
      assert s[1..] == prose[1..] + rest;
      forall j | 0 <= j < |prose[1..]|
        ensures !(HEADER <= (prose[1..] + rest)[j..])
      {
        assert s[j + 1..] == s[1..][j..];
      }
      SkipProse(prose[1..], rest);
    }
  }

  lemma {:induction false} ProseIsSkipped(prose: string, rest: string)
    requires Prose(prose) && (rest == "" || HEADER <= rest)
    ensures Matches(prose + rest) == Matches(rest)
  {
    MarkersAreBorderFree();
    forall j | 0 <= j < |prose|
      ensures !(HEADER <= (prose + rest)[j..])
    {
      NoStraddle(prose, HEADER, rest, j);
    }
    SkipProse(prose, rest);
  }

  lemma {:induction false} PrintedMatches(prose: seq<string>, blocks: seq<Block>, closing: string)
    requires |prose| == |blocks| && Prose(closing)
    requires forall p :: p in prose ==> Prose(p)
    requires forall b :: b in blocks ==> Printable(b)
    ensures Matches(Print(prose, blocks, closing)) == blocks
  {
    if blocks == [] {
      ProseIsSkipped(closing, "");
      assert closing + "" == closing;
    } else {
      assert blocks[0] in blocks && prose[0] in prose;
      var rest := Print(prose[1..], blocks[1..], closing);
      PrintedMatches(prose[1..], blocks[1..], closing);
      WrittenMatches(blocks[0], rest);
      var tail := Written(blocks[0]) + rest;
      BlockSplits(tail, blocks[0]);
      ProseIsSkipped(prose[0], tail);
      assert [blocks[0]] + blocks[1..] == blocks;
    }
  }

  lemma {:induction false} NothingToNormalize(s: string)
    requires '\r' !in s
    ensures Normalize(s) == s
  {
    if s != "" {
      NothingToNormalize(s[1..]);
      assert [s[0]] + s[1..] == s;
    }
  }

  lemma {:induction false} WrittenHasNoCr(b: Block)
    requires '\r' !in b.path && '\r' !in b.body
    ensures '\r' !in Written(b)
  {
    assert '\r' !in HEADER && '\r' !in HEADER_END && '\r' !in BLOCK_END;
    assert Written(b) == HEADER + b.path + HEADER_END + b.body + BLOCK_END;
  }

  lemma {:induction false} PrintHasNoCr(prose: seq<string>, blocks: seq<Block>, closing: string)
    requires |prose| == |blocks| && Prose(closing)
    requires forall p :: p in prose ==> Prose(p)
    requires forall b :: b in blocks ==> Printable(b)
    ensures '\r' !in Print(prose, blocks, closing)
  {
    if blocks != [] {
      assert blocks[0] in blocks && prose[0] in prose;
      PrintHasNoCr(prose[1..], blocks[1..], closing);
      WrittenHasNoCr(blocks[0]);
    }
  }

  /** Reading undoes printing: any blocks with pairwise different destinations, whatever prose stands
      around them, come back the same and in the same order; any two for one destination are refused. */
  lemma {:induction false} RoundTrip(u: Unicode, prose: seq<string>, blocks: seq<Block>, closing: string)
    requires |prose| == |blocks| && Prose(closing)
    requires forall p :: p in prose ==> Prose(p)
    requires forall b :: b in blocks ==> Printable(b)
    ensures Parse(u, Print(prose, blocks, closing)) == if Collide(u, blocks) then Duplicate else Files(blocks)
  {
    PrintedMatches(prose, blocks, closing);
    PrintHasNoCr(prose, blocks, closing);
    NothingToNormalize(Print(prose, blocks, closing));
    forall i | 0 <= i < |blocks|
      ensures Entry(blocks[i]) == blocks[i]
    {
      assert blocks[i] in blocks;
    }
    assert Entries(blocks) == blocks;
  }

  function ToCrlf(s: string): string {
    if s == "" then "" else (if s[0] == '\n' then "\r\n" else [s[0]]) + ToCrlf(s[1..])
  }

  lemma {:induction false} CrlfNormalizes(s: string)
    requires '\r' !in s
    ensures Normalize(ToCrlf(s)) == s
  {
    if s != "" {
      CrlfNormalizes(s[1..]);
      var rest := ToCrlf(s[1..]);
      assert [s[0]] + s[1..] == s;
      if s[0] == '\n' {
        assert ToCrlf(s)[2..] == rest;
      } else {
        assert ToCrlf(s)[1..] == rest && ToCrlf(s)[0] == s[0];
      }
    }
  }

  /** Line endings do not matter. */
  lemma {:induction false} LineEndingsAgree(u: Unicode, text: string)
    requires '\r' !in text
    ensures Parse(u, ToCrlf(text)) == Parse(u, text)
  {
    CrlfNormalizes(text);
    NothingToNormalize(text);
  }

  // ---------------------------------------------------------------------------------------------
  // Which paths an answer can name
  // ---------------------------------------------------------------------------------------------

  /** A path an answer can name, so that it lands there: canonical, on one line. */
  predicate Nameable(path: string) {
    Canonical(path) == Some(path) && '\n' !in path
  }

  /** A spelling of a path that survives the stripping of the header line, whatever the path begins and ends
      with. */
  function Spelled(path: string): string {
    "." + "/" + path + "/" + "."
  }

  /** An answer that names this path. */
  function Naming(path: string, body: string): string {
    Written(Block(Spelled(path), body))
  }

  lemma {:induction false} SpelledSegments(path: string)
    ensures RawSegments(Spelled(path)) == RawSegments(path)
  {
    NoSegments();
    SegmentsAcross("." + "/" + path, ".");
    SegmentsAcross(".", path);
  }

  lemma {:induction false} SpelledIsStripped(path: string)
    ensures Strip(Spelled(path)) == Spelled(path)
  {
    var s := Spelled(path);
    assert s[0] == '.' && s[|s| - 1] == '.';
  }

  lemma {:induction false} SpelledResolves(path: string)
    requires Canonical(path) == Some(path)
    ensures Resolve(Spelled(path)) == path
  {
    var s := Spelled(path);
    SpelledSegments(path);
    SpelledIsStripped(path);
    ReplaceAt(s, 0);
    assert s[0] == '.' && '\0' !in s;
  }

  ghost predicate NoLineEnds(s: string) {
    forall i :: 0 <= i < |s| - 1 ==> !(s[i] == '\r' && s[i + 1] == '\n')
  }

  lemma {:induction false} KeepsItsForm(s: string)
    requires NoLineEnds(s)
    ensures Normalize(s) == s
  {
    if s != "" {
      KeepsItsForm(s[1..]);
      assert [s[0]] + s[1..] == s;
    }
  }

  lemma {:induction false} NoLineEndsAround(a: string, path: string, c: string)
    requires '\r' !in a && '\n' !in path && '\r' !in c && c != "" && c[0] != '\n'
    ensures NoLineEnds(a + path + c)
  {
    var s := a + path + c;
    forall i | 0 <= i < |a|
      ensures s[i] != '\r'
    {
      assert s[i] == a[i] && a[i] in a;
    }
    forall i | |a| + |path| <= i < |s|
      ensures s[i] != '\r'
    {
      assert s[i] == c[i - |a| - |path|] && c[i - |a| - |path|] in c;
    }
    forall j | |a| < j <= |a| + |path|
      ensures s[j] != '\n'
    {
      assert s[j] == if j < |a| + |path| then path[j - |a|] else c[0];
    }
  }

  lemma {:induction false} NamingKeepsItsForm(path: string, body: string)
    requires '\n' !in path && '\r' !in body
    ensures Normalize(Naming(path, body)) == Naming(path, body)
  {
    var rest := HEADER_END + body + BLOCK_END;
    assert '\r' !in HEADER && '\r' !in HEADER_END && '\r' !in BLOCK_END;
    assert Naming(path, body) == HEADER + Spelled(path) + rest;
    NoLineEndsAround(HEADER, Spelled(path), rest);
    KeepsItsForm(Naming(path, body));
  }

  lemma {:induction false} NamingMatches(path: string, body: string)
    requires '\n' !in path && !Contains(body, BLOCK_END)
    ensures Matches(Naming(path, body)) == [Block(Spelled(path), body)]
  {
    var b := Block(Spelled(path), body);
    WrittenMatches(b, "");
    assert Written(b) + "" == Written(b);
  }

  /** Every such path is named by some answer. */
  lemma {:induction false} NamingParses(u: Unicode, path: string, body: string)
    requires Nameable(path) && '\r' !in body && !Contains(body, BLOCK_END)
    ensures Parse(u, Naming(path, body)) == Files([Block(path, body)])
  {
    NamingKeepsItsForm(path, body);
    NamingMatches(path, body);
    SpelledResolves(path);
    var b := Block(Spelled(path), body);
    assert Entries([b]) == [Entry(b)];
    assert |Destinations(u, [Entry(b)])| == 1;
  }

  lemma {:induction false} MatchesAreOneLine(s: string)
    ensures forall m :: m in Matches(s) ==> '\n' !in m.path
    decreases |s|
  {
    if s != "" {
      var found := MatchAt(s);
      if found.Some? && |Written(found.value)| <= |s| {
        MatchFits(s);
        MatchesAreOneLine(s[|Written(found.value)|..]);
      } else {
        MatchesAreOneLine(s[1..]);
      }
    }
  }

  lemma {:induction false} ResolveWithout(raw: string, x: char)
    requires x !in raw && x != '/'
    ensures x !in Resolve(raw)
  {
    StripWithout(raw, x);
    SegmentsWithout(Strip(raw), x);
    JoinWithout("/", RawSegments(Strip(raw)), x);
  }

  /** ... and every canonical path an answer names is one of them. */
  lemma {:induction false} ParsedIsNameable(u: Unicode, text: string, b: Block)
    requires Parse(u, text).Files? && b in Parse(u, text).files && Canonical(b.path) == Some(b.path)
    ensures Nameable(b.path)
  {
    var found := Matches(Normalize(text));
    MatchesAreOneLine(Normalize(text));
    var i :| 0 <= i < |Proposed(text)| && Proposed(text)[i] == b;
    assert found[i] in found;
    ResolveWithout(found[i].path, '\n');
  }
}
