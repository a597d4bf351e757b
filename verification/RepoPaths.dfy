/** Repository-relative paths: the canonical form a write lands on, and the name-equivalence used by the
    protected-path gate. */
module RepoPaths {
  import opened Options
  import opened Text

  /** The Unicode tables: the formatting characters (category Cf) and full case folding, which works
      character by character. */
  datatype Unicode = Unicode(isFormat: char -> bool, fold: char -> string)

  /** No character folds to something with a slash in it. */
  ghost predicate Foldable(u: Unicode) {
    forall c :: c != '/' ==> '/' !in u.fold(c)
  }

  function Slashes(path: string): string {
    Replace(path, '\\', '/')
  }

  /** `part.rstrip(". ")`. */
  function TrimDots(part: string): string {
    if part != "" && part[|part| - 1] in ". " then TrimDots(part[..|part| - 1]) else part
  }

  function FoldVisible(u: Unicode, s: string): string {
    if s == "" then "" else (if u.isFormat(s[0]) then "" else u.fold(s[0])) + FoldVisible(u, s[1..])
  }

  function CleanSegment(u: Unicode, part: string): string {
    FoldVisible(u, TrimDots(part))
  }

  /** The segments of a path: neither empty nor `.`. */
  function Kept(parts: seq<string>): seq<string> {
    if parts == [] then []
    else
      var n := |parts| - 1;
      Kept(parts[..n]) + if parts[n] in ["", "."] then [] else [parts[n]]
  }

  function CleanAll(u: Unicode, parts: seq<string>): seq<string> {
    if parts == [] then [] else CleanAll(u, parts[..|parts| - 1]) + [CleanSegment(u, parts[|parts| - 1])]
  }

  function RawSegments(path: string): seq<string> {
    Kept(Split(Slashes(path), '/'))
  }

  function Segments(u: Unicode, path: string): seq<string> {
    CleanAll(u, RawSegments(path))
  }

  lemma {:induction false} CleanAppend(u: Unicode, parts: seq<string>, p: string)
    ensures CleanAll(u, parts + [p]) == CleanAll(u, parts) + [CleanSegment(u, p)]
  {
    assert (parts + [p])[..|parts|] == parts;
  }

  lemma {:induction false} EquivStep(u: Unicode, split: seq<string>, i: nat)
    requires i < |split|
    ensures CleanAll(u, Kept(split[..i + 1])) ==
            CleanAll(u, Kept(split[..i])) + if split[i] in ["", "."] then [] else [CleanSegment(u, split[i])]
  {
    assert split[..i + 1][..i] == split[..i];
    var kept := Kept(split[..i]);
    if split[i] in ["", "."] {
      assert kept + [] == kept;
    } else {
      CleanAppend(u, kept, split[i]);
    }
  }

  /** `_fs_equiv_path`. */
  method FsEquivPath(u: Unicode, path: string) returns (equiv: string)
    ensures equiv == Join("/", Segments(u, path))
  {
    var split := Split(Slashes(path), '/');
    var parts: seq<string> := [];
    for i := 0 to |split|
      invariant parts == CleanAll(u, Kept(split[..i]))
    {
      EquivStep(u, split, i);
      if split[i] !in ["", "."] {
        parts := parts + [CleanSegment(u, split[i])];
      }
    }
    assert split[..|split|] == split;
    equiv := Join("/", parts);
  }

  /** `canonical_repo_path`.  An absolute Windows path starts with a slash once normalised or has a
      drive, which the test for `:` refuses. */
  function Canonical(target: string): Option<string> {
    if target == "" || '\0' in target then None
    else
      var normalized := Slashes(target);
      var parts := RawSegments(target);
      if normalized[0] in "/-" then None
      else if parts == [] || (exists p :: p in parts && (p == ".." || ':' in p)) then None
      else Some(Join("/", parts))
  }

  // ---------------------------------------------------------------------------------------------
  // The protected-path gate
  // ---------------------------------------------------------------------------------------------

  predicate IsDirPattern(pattern: string) {
    pattern != "" && pattern[|pattern| - 1] == '/'
  }

  function TrimSlashes(s: string): string {
    if IsDirPattern(s) then TrimSlashes(s[..|s| - 1]) else s
  }

  /** The string tests of the gate, for one pattern. */
  predicate StringMatch(pathN: string, prefN: string, dir: bool) {
    && pathN != "" && prefN != ""
    && (pathN == prefN || if dir then prefN + "/" <= pathN else EndsWith(pathN, "/" + prefN))
  }

  predicate EndsWith<T(==)>(s: seq<T>, suffix: seq<T>) {
    |suffix| <= |s| && s[|s| - |suffix|..] == suffix
  }

  /** What the gate is for: a directory pattern protects everything below it, a file pattern protects
      the file of that name anywhere, segment by segment. */
  ghost predicate Protects(u: Unicode, pattern: string, path: string) {
    var segs, pat := Segments(u, path), Segments(u, pattern);
    && Names(segs) && Names(pat)
    && if IsDirPattern(pattern) then pat <= segs else EndsWith(segs, pat)
  }

  /** Something is left of the path after cleaning. */
  ghost predicate Names(segs: seq<string>) {
    segs != [] && segs != [""]
  }

  /** The pattern as the gate compares it. */
  function PatternN(u: Unicode, pattern: string): string {
    Join("/", Segments(u, if IsDirPattern(pattern) then TrimSlashes(pattern) else pattern))
  }

  method MatchesPattern(u: Unicode, pathN: string, pattern: string) returns (matches: bool)
    requires pathN != ""
    ensures matches <==> StringMatch(pathN, PatternN(u, pattern), IsDirPattern(pattern))
  {
    var isDir := IsDirPattern(pattern);
    var prefN := FsEquivPath(u, if isDir then TrimSlashes(pattern) else pattern);
    if prefN == "" {
      return false;
    }
    if isDir {
      matches := pathN == prefN || prefN + "/" <= pathN;
    } else {
      matches := pathN == prefN || EndsWith(pathN, "/" + prefN);
    }
  }

  method MatchesProtectedPath(u: Unicode, path: string, patterns: seq<string>) returns (matches: bool)
    requires Foldable(u)
    ensures matches <==> exists p :: p in patterns && Protects(u, p, path)
  {
    var pathN := FsEquivPath(u, path);
    if pathN == "" {
      JoinEmpty(Segments(u, path));
      return false;
    }
    for i := 0 to |patterns|
      invariant forall j :: 0 <= j < i ==> !Protects(u, patterns[j], path)
    {
      var found := MatchesPattern(u, pathN, patterns[i]);
      GateIsSegmentTest(u, path, patterns[i]);
      if found {
        return true;
      }
    }
    matches := false;
  }

  // ---------------------------------------------------------------------------------------------

  lemma {:induction false} ReplaceAt(s: string, i: nat)
    requires i < |s|
    ensures Slashes(s)[i] == if s[i] == '\\' then '/' else s[i]
  {
    if i > 0 {
      ReplaceAt(s[1..], i - 1);
    }
  }

  lemma {:induction false} KeptAppend(a: seq<string>, b: seq<string>)
    ensures Kept(a + b) == Kept(a) + Kept(b)
  {
    if b == [] {
      assert a + b == a;
    } else {
      var n := |b| - 1;
      assert (a + b)[..|a| + n] == a + b[..n];
      KeptAppend(a, b[..n]);
    }
  }

  lemma {:induction false} FoldHasNoSlash(u: Unicode, s: string)
    requires Foldable(u) && '/' !in s
    ensures '/' !in FoldVisible(u, s)
  {
    if s != "" {
      FoldHasNoSlash(u, s[1..]);
    }
  }

  lemma {:induction false} TrimIsPrefix(s: string)
    ensures TrimDots(s) <= s
  {
    if s != "" && s[|s| - 1] in ". " {
      TrimIsPrefix(s[..|s| - 1]);
    }
  }

  lemma {:induction false} CleanHaveNoSlash(u: Unicode, parts: seq<string>)
    requires Foldable(u) && forall p :: p in parts ==> '/' !in p
    ensures forall p :: p in CleanAll(u, parts) ==> '/' !in p
  {
    if parts != [] {
      var n := |parts| - 1;
      assert forall p :: p in parts[..n] ==> p in parts;
      CleanHaveNoSlash(u, parts[..n]);
      assert '/' !in parts[n];
      TrimIsPrefix(parts[n]);
      FoldHasNoSlash(u, TrimDots(parts[n]));
    }
  }

  lemma {:induction false} KeptAreParts(parts: seq<string>)
    ensures forall p :: p in Kept(parts) ==> p in parts && p !in ["", "."]
  {
    if parts != [] {
      var n := |parts| - 1;
      KeptAreParts(parts[..n]);
      assert forall p :: p in parts[..n] ==> p in parts;
    }
  }

  lemma {:induction false} SegmentsHaveNoSlash(u: Unicode, path: string)
    requires Foldable(u)
    ensures forall p :: p in Segments(u, path) ==> '/' !in p
  {
    SplitParts(Slashes(path), '/');
    KeptAreParts(Split(Slashes(path), '/'));
    CleanHaveNoSlash(u, RawSegments(path));
  }

  lemma {:induction false} JoinEmpty(segs: seq<string>)
    ensures Join("/", segs) == "" <==> !Names(segs)
  {
  }

  lemma {:induction false} SlashesAppend(a: string, b: string)
    ensures Slashes(a + b) == Slashes(a) + Slashes(b)
  {
    forall i | 0 <= i < |a + b|
      ensures Slashes(a + b)[i] == (Slashes(a) + Slashes(b))[i]
    {
      ReplaceAt(a + b, i);
      if i < |a| {
        ReplaceAt(a, i);
      } else {
        ReplaceAt(b, i - |a|);
      }
    }
  }

  /** A separator between two paths separates their segments. */
  lemma {:induction false} SegmentsAcross(a: string, b: string)
    ensures RawSegments(a + "/" + b) == RawSegments(a) + RawSegments(b)
  {
    SlashesAppend(a + "/", b);
    SlashesAppend(a, "/");
    assert Slashes("/") == "/";
    SplitAppend(Slashes(a), '/', Slashes(b));
    KeptAppend(Split(Slashes(a), '/'), Split(Slashes(b), '/'));
  }

  lemma {:induction false} TrimSlashesKeeps(s: string)
    ensures RawSegments(TrimSlashes(s)) == RawSegments(s)
  {
    if IsDirPattern(s) {
      var rest := s[..|s| - 1];
      TrimSlashesKeeps(rest);
      SegmentsAcross(rest, "");
      assert s == rest + "/" + "";
      assert RawSegments("") == [] by {
        assert Split("", '/') == [""];
        assert [""][..0] == [];
      }
    }
  }

  ghost predicate Plain(segs: seq<string>) {
    Names(segs) && forall p :: p in segs ==> '/' !in p
  }

  lemma {:induction false} SameJoinSameSegments(a: seq<string>, b: seq<string>)
    requires Plain(a) && Plain(b) && Join("/", a) == Join("/", b)
    ensures a == b
  {
    SplitJoin(a, '/');
    SplitJoin(b, '/');
  }

  lemma {:induction false} SplitOfPrefix(s: string, p: string, segs: seq<string>, pat: seq<string>)
    requires Split(s, '/') == segs && Split(p, '/') == pat && p + "/" <= s
    ensures pat <= segs
  {
    var rest := s[|p| + 1..];
    assert s == p + ['/'] + rest;
    SplitAppend(p, '/', rest);
  }

  lemma {:induction false} SplitOfSuffix(s: string, p: string, segs: seq<string>, pat: seq<string>)
    requires Split(s, '/') == segs && Split(p, '/') == pat && EndsWith(s, "/" + p)
    ensures EndsWith(segs, pat)
  {
    var left := s[..|s| - |p| - 1];
    assert s == left + ['/'] + p;
    SplitAppend(left, '/', p);
  }

  lemma {:induction false} PrefixOfJoin(segs: seq<string>, pat: seq<string>)
    requires Plain(segs) && Plain(pat) && Join("/", pat) + "/" <= Join("/", segs)
    ensures pat <= segs
  {
    SplitJoin(segs, '/');
    SplitJoin(pat, '/');
    SplitOfPrefix(Join("/", segs), Join("/", pat), segs, pat);
  }

  lemma {:induction false} SuffixOfJoin(segs: seq<string>, pat: seq<string>)
    requires Plain(segs) && Plain(pat) && EndsWith(Join("/", segs), "/" + Join("/", pat))
    ensures EndsWith(segs, pat)
  {
    SplitJoin(segs, '/');
    SplitJoin(pat, '/');
    SplitOfSuffix(Join("/", segs), Join("/", pat), segs, pat);
  }

  lemma {:induction false} Concatenated(s: string, l: string, r: string)
    requires s == l + "/" + r
    ensures l + "/" <= s && EndsWith(s, "/" + r)
  {
    assert s == (l + "/") + r == l + ("/" + r);
  }

  lemma {:induction false} JoinOfParts(front: seq<string>, back: seq<string>)
    requires front != [] && back != []
    ensures Join("/", front) + "/" <= Join("/", front + back)
    ensures EndsWith(Join("/", front + back), "/" + Join("/", back))
  {
    JoinAppend("/", front, back);
    Concatenated(Join("/", front + back), Join("/", front), Join("/", back));
  }

  lemma {:induction false} DirTestIsPrefix(segs: seq<string>, pat: seq<string>)
    requires Plain(segs) && Plain(pat)
    ensures StringMatch(Join("/", segs), Join("/", pat), true) <==> pat <= segs
  {
    JoinEmpty(segs);
    JoinEmpty(pat);
    if pat <= segs {
      var rest := segs[|pat|..];
      assert segs == pat + rest;
      if rest != [] {
        JoinOfParts(pat, rest);
      }
      assert rest == [] ==> segs == pat;
    } else if Join("/", segs) == Join("/", pat) {
      SameJoinSameSegments(segs, pat);
    } else if Join("/", pat) + "/" <= Join("/", segs) {
      PrefixOfJoin(segs, pat);
    }
  }

  lemma {:induction false} FileTestIsSuffix(segs: seq<string>, pat: seq<string>)
    requires Plain(segs) && Plain(pat)
    ensures StringMatch(Join("/", segs), Join("/", pat), false) <==> EndsWith(segs, pat)
  {
    JoinEmpty(segs);
    JoinEmpty(pat);
    if EndsWith(segs, pat) {
      var rest := segs[..|segs| - |pat|];
      assert segs == rest + pat;
      if rest != [] {
        JoinOfParts(rest, pat);
      }
      assert rest == [] ==> segs == pat;
    } else if Join("/", segs) == Join("/", pat) {
      SameJoinSameSegments(segs, pat);
    } else if EndsWith(Join("/", segs), "/" + Join("/", pat)) {
      SuffixOfJoin(segs, pat);
    }
  }

  /** The gate's string tests are segment tests, for every path and every pattern. */
  lemma {:induction false} GateIsSegmentTest(u: Unicode, path: string, pattern: string)
    requires Foldable(u)
    ensures Protects(u, pattern, path) <==>
            StringMatch(Join("/", Segments(u, path)), PatternN(u, pattern), IsDirPattern(pattern))
  {
    var segs, pat := Segments(u, path), Segments(u, pattern);
    TrimSlashesKeeps(pattern);
    JoinEmpty(segs);
    JoinEmpty(pat);
    if Names(segs) && Names(pat) {
      SegmentsHaveNoSlash(u, path);
      SegmentsHaveNoSlash(u, pattern);
      if IsDirPattern(pattern) {
        DirTestIsPrefix(segs, pat);
      } else {
        FileTestIsSuffix(segs, pat);
      }
    }
  }

  // ---------------------------------------------------------------------------------------------
  // Spellings that never change the verdict
  // ---------------------------------------------------------------------------------------------

  /** Two spellings of one segment: the letters fold alike, and trailing dots and spaces may differ. */
  ghost predicate SameName(u: Unicode, a: string, b: string) {
    CleanSegment(u, a) == CleanSegment(u, b)
  }

  lemma {:induction false} TrailingDots(u: Unicode, part: string, dots: string)
    requires forall c :: c in dots ==> c in ". "
    ensures SameName(u, part + dots, part)
  {
    if dots == "" {
      assert part + dots == part;
    } else {
      var n := |dots| - 1;
      assert (part + dots)[..|part| + n] == part + dots[..n];
      assert dots[n] in dots;
      assert forall c :: c in dots[..n] ==> c in dots;
      TrailingDots(u, part, dots[..n]);
    }
  }

  /** Letter by letter the same up to case: equal folding, and the same characters are dots or spaces. */
  ghost predicate SameLetters(u: Unicode, a: string, b: string) {
    |a| == |b| && forall i :: 0 <= i < |a| ==>
      u.fold(a[i]) == u.fold(b[i]) && u.isFormat(a[i]) == u.isFormat(b[i]) && (a[i] in ". " <==> b[i] in ". ")
  }

  lemma {:induction false} SameLettersSameFold(u: Unicode, a: string, b: string)
    requires SameLetters(u, a, b)
    ensures FoldVisible(u, a) == FoldVisible(u, b)
  {
    if a != "" {
      SameLettersSameFold(u, a[1..], b[1..]);
    }
  }

  lemma {:induction false} LetterCase(u: Unicode, a: string, b: string)
    requires SameLetters(u, a, b)
    ensures SameName(u, a, b)
  {
    if a != "" && a[|a| - 1] in ". " {
      LetterCase(u, a[..|a| - 1], b[..|b| - 1]);
    } else {
      SameLettersSameFold(u, a, b);
    }
  }

  lemma {:induction false} FoldAppends(u: Unicode, a: string, b: string)
    ensures FoldVisible(u, a + b) == FoldVisible(u, a) + FoldVisible(u, b)
  {
    if a == "" {
      assert a + b == b;
    } else {
      assert (a + b)[1..] == a[1..] + b;
      FoldAppends(u, a[1..], b);
    }
  }

  /** A segment is compared by what is left of it without the dots and spaces at its end, character by
      character: nothing of a formatting character, the folding of any other. */
  lemma {:induction false} CleanIsExact(u: Unicode, name: string, c: char, dots: string)
    requires c !in ". " && forall d :: d in dots ==> d in ". "
    ensures CleanSegment(u, name + [c] + dots) == FoldVisible(u, name) + if u.isFormat(c) then "" else u.fold(c)
    ensures CleanSegment(u, dots) == "" && FoldVisible(u, "") == ""
  {
    TrailingDots(u, name + [c], dots);
    TrailingDots(u, "", dots);
    assert "" + dots == dots;
    assert TrimDots(name + [c]) == name + [c];
    FoldAppends(u, name, [c]);
    assert [c][1..] == "";
    assert FoldVisible(u, [c]) == (if u.isFormat(c) then "" else u.fold(c)) + FoldVisible(u, "");
  }

  /** A name with nothing to fold, nothing hidden and no dot or space at its end. */
  ghost predicate Ordinary(u: Unicode, name: string) {
    && (forall c :: c in name ==> !u.isFormat(c) && u.fold(c) == [c])
    && (name != "" ==> name[|name| - 1] !in ". ")
  }

  lemma {:induction false} OrdinaryFold(u: Unicode, name: string)
    requires forall c :: c in name ==> !u.isFormat(c) && u.fold(c) == [c]
    ensures FoldVisible(u, name) == name
  {
    if name != "" {
      OrdinaryFold(u, name[1..]);
      assert name[0] in name && [name[0]] + name[1..] == name;
    }
  }

  /** Ordinary names stand for themselves, so no two are taken for one. */
  lemma {:induction false} OrdinaryNamesDiffer(u: Unicode, a: string, b: string)
    requires Ordinary(u, a) && Ordinary(u, b)
    ensures CleanSegment(u, a) == a
    ensures SameName(u, a, b) <==> a == b
  {
    OrdinaryFold(u, a);
    OrdinaryFold(u, b);
  }

  lemma {:induction false} SpellingsClean(u: Unicode, a: seq<string>, b: seq<string>)
    requires |a| == |b| && forall i :: 0 <= i < |a| ==> SameName(u, a[i], b[i])
    ensures CleanAll(u, a) == CleanAll(u, b)
  {
    if a != [] {
      SpellingsClean(u, a[..|a| - 1], b[..|b| - 1]);
    }
  }

  /** Two paths whose segments are spelled alike get the same verdict against every pattern: letter case
      and trailing dots and spaces never matter. */
  lemma {:induction false} AliasesShareVerdict(u: Unicode, pattern: string, p: string, q: string)
    requires |RawSegments(p)| == |RawSegments(q)|
    requires forall i :: 0 <= i < |RawSegments(p)| ==> SameName(u, RawSegments(p)[i], RawSegments(q)[i])
    ensures Protects(u, pattern, p) <==> Protects(u, pattern, q)
  {
    SpellingsClean(u, RawSegments(p), RawSegments(q));
  }

  lemma {:induction false} NoSegments()
    ensures RawSegments("") == [] && RawSegments(".") == []
  {
    SplitPlain(".", '/');
    SplitPlain("", '/');
    assert ["."][..0] == [] && [""][..0] == [];
  }

  lemma {:induction false} BackslashesVanish(a: string)
    ensures RawSegments(Slashes(a)) == RawSegments(a)
  {
    forall i | 0 <= i < |a|
      ensures Slashes(Slashes(a))[i] == Slashes(a)[i]
    {
      ReplaceAt(a, i);
      ReplaceAt(Slashes(a), i);
    }
    assert Slashes(Slashes(a)) == Slashes(a);
  }

  /** An empty segment or a `.` between two parts of a path leaves the segments as they are. */
  lemma {:induction false} PunctuationVanishes(a: string, dot: string, b: string)
    requires dot in ["", "."]
    ensures RawSegments(a + "/" + dot + "/" + b) == RawSegments(a + "/" + b)
  {
    NoSegments();
    SegmentsAcross(a, b);
    SegmentsAcross(a, dot);
    SegmentsAcross(a + "/" + dot, b);
  }

  // ---------------------------------------------------------------------------------------------
  // Canonical paths
  // ---------------------------------------------------------------------------------------------

  lemma {:induction false} KeptAll(parts: seq<string>)
    requires forall i :: 0 <= i < |parts| ==> parts[i] !in ["", "."]
    ensures Kept(parts) == parts
  {
    if parts != [] {
      KeptAll(parts[..|parts| - 1]);
    }
  }

  lemma {:induction false} SegmentsWithout(path: string, x: char)
    requires x == '\\' || (x !in path && x != '/')
    ensures forall p :: p in RawSegments(path) ==> x !in p
  {
    ReplaceRemoves(path, '\\', '/');
    SplitWithout(Slashes(path), '/', x);
    KeptAreParts(Split(Slashes(path), '/'));
  }

  lemma {:induction false} RejoinedSegments(path: string)
    requires RawSegments(path) != []
    ensures var q := Join("/", RawSegments(path));
            && RawSegments(path)[0] != "" && q != "" && q[0] == RawSegments(path)[0][0] && q[0] != '/'
            && RawSegments(q) == RawSegments(path) && Slashes(q) == q
  {
    var parts := RawSegments(path);
    var q := Join("/", parts);
    SplitParts(Slashes(path), '/');
    KeptAreParts(Split(Slashes(path), '/'));
    SegmentsWithout(path, '\\');
    JoinWithout("/", parts, '\\');
    ReplaceRemoves(q, '\\', '/');
    SplitJoin(parts, '/');
    KeptAll(parts);
    assert parts[0] in parts && parts[0] != "";
    assert parts[0][0] in parts[0];
  }

  /** The canonical form has the segments of the path it stands for, so the gate judges both alike; and
      it is canonical itself exactly when the first segment of the path does not start with a dash.  When
      it does, an empty or `.` segment stood before it, and the writer refuses what is left. */
  lemma {:induction false} CanonicalForm(target: string)
    requires Canonical(target).Some?
    ensures var q, segs := Canonical(target).value, RawSegments(target);
            && RawSegments(q) == segs
            && q != "" && segs != [] && segs[0] != ""
            && Canonical(q) == if segs[0][0] == '-' then None else Some(q)
  {
    RejoinedSegments(target);
    SegmentsWithout(target, '\0');
    JoinWithout("/", RawSegments(target), '\0');
  }

  /** A name that is one segment of a path, as it stands. */
  predicate PlainName(name: string) {
    name !in ["", ".", ".."] && '/' !in name && '\\' !in name && ':' !in name && '\0' !in name
  }

  lemma {:induction false} OneSegment(name: string)
    requires PlainName(name)
    ensures RawSegments(name) == [name] && Slashes(name) == name
  {
    ReplaceRemoves(name, '\\', '/');
    SplitPlain(name, '/');
    KeptAll([name]);
  }

  lemma {:induction false} DottedSegment(name: string)
    requires PlainName(name)
    ensures RawSegments("." + "/" + name) == [name]
  {
    OneSegment(name);
    NoSegments();
    SegmentsAcross(".", name);
  }

  lemma {:induction false} DashedIsRefused(name: string)
    requires PlainName(name) && name[0] == '-'
    ensures Canonical(name) == None
  {
    OneSegment(name);
  }

  lemma {:induction false} DottedIsCanonical(name: string)
    requires PlainName(name)
    ensures Canonical("." + "/" + name) == Some(name)
  {
    var target := "." + "/" + name;
    DottedSegment(name);
    ReplaceAt(target, 0);
    assert target[0] == '.' && target != "" && '\0' !in target;
    assert Join("/", [name]) == name;
  }

  /** Such a path: `./-x` is accepted, and its canonical form `-x` is not. */
  lemma {:induction false} DashComesForward()
    ensures Canonical("./-x") == Some("-x") && Canonical("-x") == None
  {
    DottedIsCanonical("-x");
    DashedIsRefused("-x");
    assert "." + "/" + "-x" == "./-x";
  }

  lemma {:induction false} NamesSurvive(parts: seq<string>)
    requires parts != [] && forall p :: p in parts ==> PlainName(p)
    ensures RawSegments(Join("/", parts)) == parts
  {
    assert parts[0] in parts;
    if |parts| == 1 {
      OneSegment(parts[0]);
    } else {
      assert forall p :: p in parts[1..] ==> p in parts;
      NamesSurvive(parts[1..]);
      OneSegment(parts[0]);
      SegmentsAcross(parts[0], Join("/", parts[1..]));
      assert [parts[0]] + parts[1..] == parts;
    }
  }

  lemma {:induction false} FirstCharacter(parts: seq<string>)
    requires parts != [] && parts[0] != ""
    ensures Join("/", parts) != "" && Join("/", parts)[0] == parts[0][0]
  {
  }

  /** Every list of names is a canonical path, however long, if the first does not start with a dash. */
  lemma {:induction false} NamesAreCanonical(parts: seq<string>)
    requires parts != [] && parts[0] != "" && parts[0][0] != '-' && forall p :: p in parts ==> PlainName(p)
    ensures Canonical(Join("/", parts)) == Some(Join("/", parts))
  {
    var path := Join("/", parts);
    NamesSurvive(parts);
    FirstCharacter(parts);
    ReplaceAt(path, 0);
    assert parts[0] in parts && parts[0][0] in parts[0];
    JoinWithout("/", parts, '\0');
  }

  // ---------------------------------------------------------------------------------------------
  // The clone's own metadata
  // ---------------------------------------------------------------------------------------------

  /** An NTFS short name of `.git`: `git~` and digits, with or without the dot, in any letter case (as a
      regular expression that ignores case sees it, to which both Turkish letters are an `i`). */
  predicate IsShortGit(name: string) {
    var rest := if name != "" && name[0] == '.' then name[1..] else name;
    && |rest| > 4
    && rest[0] in "gG" && rest[1] in "iI\U{130}\U{131}" && rest[2] in "tT" && rest[3] == '~'
    && forall i :: 4 <= i < |rest| ==> '0' <= rest[i] <= '9'
  }

  /** `_is_dotgit_name`. */
  predicate IsDotGit(u: Unicode, part: string) {
    CleanSegment(u, part) == ".git" || IsShortGit(CleanSegment(u, part))
  }

  /** A segment of the path could open the clone's `.git` directory. */
  predicate Jailed(u: Unicode, path: string) {
    exists part :: part in RawSegments(path) && IsDotGit(u, part)
  }

  /** Lower-case letters, digits, the dot and the tilde are visible and fold to themselves. */
  ghost predicate PlainAscii(u: Unicode) {
    forall c :: 'a' <= c <= 'z' || '0' <= c <= '9' || c == '.' || c == '~' ==> !u.isFormat(c) && u.fold(c) == [c]
  }

  ghost predicate AsciiName(name: string) {
    && (forall i :: 0 <= i < |name| ==> 'a' <= name[i] <= 'z' || '0' <= name[i] <= '9' || name[i] == '.' || name[i] == '~')
    && name != "" && name[|name| - 1] !in ". "
  }

  lemma {:induction false} AsciiCleans(u: Unicode, name: string)
    requires PlainAscii(u) && AsciiName(name)
    ensures CleanSegment(u, name) == name
  {
    OrdinaryNamesDiffer(u, name, name);
  }

  /** However it is spelled -- letter case, dots and spaces at the end -- a segment that means `.git` is in the
      jail ... */
  lemma {:induction false} GitIsJailed(u: Unicode, part: string, dots: string)
    requires PlainAscii(u) && SameLetters(u, part, ".git") && forall d :: d in dots ==> d in ". "
    ensures IsDotGit(u, part + dots)
  {
    TrailingDots(u, part, dots);
    LetterCase(u, part, ".git");
    AsciiCleans(u, ".git");
  }

  ghost predicate Digits(s: string) {
    s != "" && forall i :: 0 <= i < |s| ==> '0' <= s[i] <= '9'
  }

  /** A short name spelled out. */
  ghost predicate SpellsShortGit(name: string, dot: string, g: char, i: char, t: char, digits: string) {
    && name == dot + [g, i, t, '~'] + digits
    && dot in {"", "."} && g in {'g', 'G'} && i in {'i', 'I', '\U{130}', '\U{131}'} && t in {'t', 'T'} && Digits(digits)
  }

  lemma {:induction false} AfterTheTilde(rest: string)
    requires |rest| > 4 && rest[3] == '~' && forall i :: 4 <= i < |rest| ==> '0' <= rest[i] <= '9'
    ensures Digits(rest[4..]) && rest == [rest[0], rest[1], rest[2], '~'] + rest[4..]
  {
    assert forall i :: 0 <= i < |rest[4..]| ==> rest[4..][i] == rest[i + 4];
  }

  lemma {:induction false} ShortGitSpelled(name: string, rest: string, dot: string) returns (digits: string)
    requires IsShortGit(name) && name == dot + rest && dot == if name != "" && name[0] == '.' then "." else ""
    ensures |rest| > 4 && SpellsShortGit(name, dot, rest[0], rest[1], rest[2], digits)
  {
    assert rest == if dot == "." then name[1..] else name;
    AfterTheTilde(rest);
    digits := rest[4..];
  }

  lemma {:induction false} LettersAndDigits(rest: string, front: string, digits: string)
    requires rest == front + digits && |front| == 4 && Digits(digits)
    ensures |rest| > 4 && rest[..4] == front && forall k :: 4 <= k < |rest| ==> '0' <= rest[k] <= '9'
  {
    assert forall k :: 4 <= k < |rest| ==> rest[k] == digits[k - 4];
  }

  lemma {:induction false} SpelledIsShortGit(name: string, dot: string, g: char, i: char, t: char, digits: string)
    requires SpellsShortGit(name, dot, g, i, t, digits)
    ensures IsShortGit(name)
  {
    var rest := [g, i, t, '~'] + digits;
    LettersAndDigits(rest, [g, i, t, '~'], digits);
    assert name == dot + rest && rest[0] == g && rest[1] == i && rest[2] == t && rest[3] == '~';
    assert rest == if name[0] == '.' then name[1..] else name;
  }

  /** The short names are these and no other. */
  lemma {:induction false} ShortGitIs(name: string)
    ensures IsShortGit(name) <==> exists dot, g, i, t, digits :: SpellsShortGit(name, dot, g, i, t, digits)
  {
    if IsShortGit(name) {
      var dot := if name != "" && name[0] == '.' then "." else "";
      var rest := name[|dot|..];
      var digits := ShortGitSpelled(name, rest, dot);
    }
    if dot, g, i, t, digits :| SpellsShortGit(name, dot, g, i, t, digits) {
      SpelledIsShortGit(name, dot, g, i, t, digits);
    }
  }

  /** ... and so is each of its short names; names that only begin like it are not. */
  lemma {:induction false} ShortGitIsJailed(u: Unicode, digits: string)
    requires PlainAscii(u) && digits != "" && forall i :: 0 <= i < |digits| ==> '0' <= digits[i] <= '9'
    ensures IsDotGit(u, "git~" + digits) && IsDotGit(u, ".git~" + digits)
  {
    var name, dotted := "git~" + digits, ".git~" + digits;
    assert name[|name| - 1] == digits[|digits| - 1] && dotted[|dotted| - 1] == digits[|digits| - 1];
    AsciiCleans(u, name);
    AsciiCleans(u, dotted);
    assert dotted[1..] == name;
  }

  lemma {:induction false} GitignoreIsFree(u: Unicode)
    requires PlainAscii(u)
    ensures !IsDotGit(u, ".gitignore") && !IsDotGit(u, ".github")
  {
    AsciiCleans(u, ".gitignore");
    AsciiCleans(u, ".github");
    assert ".gitignore"[1..][3] == 'i' && ".github"[1..][3] == 'h';
  }

  /** No spelling gets past the jail: paths whose segments are spelled alike are in it together. */
  lemma {:induction false} AliasesShareJail(u: Unicode, p: string, q: string)
    requires |RawSegments(p)| == |RawSegments(q)|
    requires forall i :: 0 <= i < |RawSegments(p)| ==> SameName(u, RawSegments(p)[i], RawSegments(q)[i])
    ensures Jailed(u, p) <==> Jailed(u, q)
  {
    var a, b := RawSegments(p), RawSegments(q);
    forall i | 0 <= i < |a|
      ensures IsDotGit(u, a[i]) <==> IsDotGit(u, b[i])
    {
      assert SameName(u, a[i], b[i]);
    }
    assert Jailed(u, p) <==> exists i :: 0 <= i < |a| && IsDotGit(u, a[i]);
    assert Jailed(u, q) <==> exists i :: 0 <= i < |b| && IsDotGit(u, b[i]);
  }
}
