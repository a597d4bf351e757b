/** Which paths the coding loop can write to, and which of them it can overwrite unseen. */
module LoopReach {
  import opened Options
  import opened Text
  import opened RepoPaths
  import opened PlannerBlocks
  import opened CloneFiles
  import opened CodingLoop

  // ---------------------------------------------------------------------------------------------
  // Within reach
  // ---------------------------------------------------------------------------------------------

  /** A path the writer takes in a clone of links only. */
  predicate Writable(u: Unicode, links: Links, path: string) {
    Nameable(path) && Landable(u, links, path) && !IsDir(links, map[], Landed(links, path))
  }

  /** The reader calls such a path missing, whatever is there. */
  ghost predicate Unseen(links: Links, path: string) {
    Aliased(path) || Through(links, path)
  }

  /** A path the loop can write to: one the writer takes, whose name is not protected, and which is not a link
      the reader sees. */
  ghost predicate Reachable(u: Unicode, links: Links, patterns: seq<string>, path: string) {
    && Writable(u, links, path) && !ProtectedBy(u, patterns, path)
    && (path !in links.linked || Unseen(links, path))
  }

  ghost predicate AllReachable(u: Unicode, p: Policy, paths: set<string>) {
    forall path :: path in paths ==> Reachable(u, p.links, p.protectedPaths, path)
  }

  lemma {:induction false} SeenLinkIsNotTouched(u: Unicode, p: Policy, s: State, faults: Faults, path: string)
    requires Canonical(path) == Some(path) && path in p.links.linked && !Unseen(p.links, path)
    requires Touches(u, p.links, s.files, Shown(Render(p.links, s.files, p.unreadable, p.readPaths)) + s.ever, faults, path)
    ensures path in s.ever
  {
    StatOfCanonical(p.links, s.files, path);
    if path in Shown(Render(p.links, s.files, p.unreadable, p.readPaths)) {
      ShownIsCurrent(p.links, s.files, p.unreadable, p.readPaths, path);
    }
  }

  lemma {:induction false} OpenedIsNoDirectory(u: Unicode, links: Links, files: Files, faults: Faults, path: string)
    requires Opens(u, links, files, faults, path)
    ensures Landable(u, links, path) && !IsDir(links, map[], Landed(links, path))
  {
    if Conflict(links, map[], Landed(links, path)) {
      ConflictGrows(links, map[], files, Landed(links, path));
    }
  }

  lemma {:induction false} TouchedIsReachable(u: Unicode, p: Policy, s: State, turn: Turn, path: string)
    requires AllReachable(u, p, s.ever) && path in StepOf(u, p, s, turn).touched
    ensures Reachable(u, p.links, p.protectedPaths, path)
  {
    StepKeeps(u, p, s, turn);
    StepWrites(u, p, s, turn, path);
    OpenedIsNoDirectory(u, p.links, s.files, turn.faults, path);
    if path in p.links.linked && !Unseen(p.links, path) {
      SeenLinkIsNotTouched(u, p, s, turn.faults, path);
    }
  }

  lemma {:induction false} StepStaysInReach(u: Unicode, p: Policy, next: Stepper, s: State, turn: Turn)
    requires IsLoop(u, p, next) && AllReachable(u, p, s.ever)
    ensures AllReachable(u, p, AsSet(next(s, turn).touched)) && AllReachable(u, p, next(s, turn).after.ever)
  {
    assert next(s, turn) == StepOf(u, p, s, turn);
    forall path | path in next(s, turn).touched
      ensures Reachable(u, p.links, p.protectedPaths, path)
    {
      TouchedIsReachable(u, p, s, turn, path);
    }
    StepKeeps(u, p, s, turn);
  }

  lemma {:induction false} RunStaysInReach(u: Unicode, p: Policy, next: Stepper, s: State, turns: seq<Turn>, i: nat)
    requires IsLoop(u, p, next) && AllReachable(u, p, s.ever) && i < |Trace(next, s, turns)|
    ensures AllReachable(u, p, AsSet(Trace(next, s, turns)[i].touched))
    decreases |turns|
  {
    StepStaysInReach(u, p, next, s, turns[0]);
    if i > 0 {
      RunStaysInReach(u, p, next, next(s, turns[0]).after, turns[1..], i - 1);
    }
  }

  // ---------------------------------------------------------------------------------------------
  // A run of one write
  // ---------------------------------------------------------------------------------------------

  /** No gate but the protected paths, and nothing shown. */
  function Guarded(links: Links, patterns: seq<string>): Policy {
    Policy(_ => false, _ => 0, _ => false, patterns, None, [], links)
  }

  /** What happens to a block whose write reaches the file. */
  ghost predicate OneBlockStep(links: Links, s: State, b: Block, faults: Faults, step: Step) {
    && step.before == s && step.shown == {} && step.touched == [b.path]
    && step.changed == (if b.path in faults.torn then [] else [b.path])
    && step.after == State(s.files[Landed(links, b.path) := Left(faults, b)], s.ever + AsSet(step.changed))
    && (step.gates == [] <==> b.path !in faults.torn)
  }

  /** A turn that proposes one block, and whose checks pass. */
  function Proposing(b: Block, faults: Faults): Turn {
    Turn(Naming(b.path, b.body), faults, _ => true)
  }

  ghost predicate Proposable(b: Block) {
    Nameable(b.path) && b.body in ["", "x"]
  }

  lemma {:induction false} OneWrite(u: Unicode, links: Links, s: State, b: Block, faults: Faults)
    requires Touches(u, links, s.files, s.ever, faults, b.path)
    ensures WriteAll(u, links, s.files, {} + s.ever, faults, [b]) ==
            Writes(s.files[Landed(links, b.path) := Left(faults, b)], [b.path], if b.path in faults.torn then [] else [b.path])
  {
    assert [b][..0] == [] && {} + s.ever == s.ever;
    assert WriteAll(u, links, s.files, s.ever, faults, []) == Writes(s.files, [], []);
  }

  lemma {:induction false} OneConcludes(u: Unicode, links: Links, s: State, b: Block, faults: Faults)
    requires Touches(u, links, s.files, s.ever, faults, b.path)
    ensures OneBlockStep(links, s, b, faults,
                         Conclude(u, links, s, [b], false, {}, Flags(false, false, false), Proposing(b, faults)))
  {
    OneWrite(u, links, s, b, faults);
  }

  lemma {:induction false} ShortBody(body: string)
    requires body in ["", "x"]
    ensures '\r' !in body && !Contains(body, BLOCK_END)
  {
    assert |body| <= 1;
  }

  lemma {:induction false} NoFlags(u: Unicode, links: Links, patterns: seq<string>, b: Block)
    requires !ProtectedBy(u, patterns, b.path)
    ensures FlagsOf(u, Guarded(links, patterns), [b]) == Flags(false, false, false)
  {
    var p := Guarded(links, patterns);
    assert !HasCritical(p, [b]) && !OverBudget(p, [b]);
    assert Paths([b]) == [b.path] && !OutOfScope(u, patterns, [b.path]);
  }

  lemma {:induction false} OneBlock(u: Unicode, links: Links, patterns: seq<string>, s: State, b: Block, faults: Faults)
    requires Proposable(b) && !ProtectedBy(u, patterns, b.path) && Touches(u, links, s.files, s.ever, faults, b.path)
    ensures OneBlockStep(links, s, b, faults, StepOf(u, Guarded(links, patterns), s, Proposing(b, faults)))
  {
    ShortBody(b.body);
    NamingParses(u, b.path, b.body);
    NoFlags(u, links, patterns, b);
    assert Shown(Render(links, s.files, Guarded(links, patterns).unreadable, [])) == {};
    OneConcludes(u, links, s, b, faults);
  }

  /** A clone in which there is nothing but, where the reader is blind, the file to be written. */
  ghost predicate Bare(links: Links, files: Files, path: string) {
    files == map[] || (files.Keys == {Landed(links, path)} && Unseen(links, path))
  }

  lemma {:induction false} NoConflict(links: Links, files: Files, name: string)
    requires !IsDir(links, map[], name) && files.Keys <= {name}
    ensures !Conflict(links, files, name)
  {
    var none: Files := map[];
    forall k | k in files.Keys + links.linked
      ensures !(name + "/" <= k)
    {
      assert k == name || k in none.Keys + links.linked;
    }
  }

  lemma {:induction false} ReachableIsTouched(u: Unicode, links: Links, patterns: seq<string>, files: Files, faults: Faults, path: string)
    requires Sound(links) && Reachable(u, links, patterns, path) && Bare(links, files, path) && path !in faults.refused
    ensures Touches(u, links, files, {}, faults, path)
  {
    NoConflict(links, files, Landed(links, path));
    StatOfCanonical(links, files, path);
    if !Unseen(links, path) {
      LandsWhereItSays(links, path);
    }
  }

  /** Every path within reach is written to in some run, torn or whole. */
  lemma {:induction false} SingleWrite(u: Unicode, links: Links, patterns: seq<string>, files: Files, b: Block, faults: Faults)
    returns (next: Stepper, turns: seq<Turn>, step: Step)
    requires Sound(links) && Reachable(u, links, patterns, b.path) && Bare(links, files, b.path)
    requires b.body in ["", "x"] && b.path !in faults.refused
    ensures IsLoop(u, Guarded(links, patterns), next) && turns == [Proposing(b, faults)]
    ensures Trace(next, State(files, {}), turns) == [step]
    ensures step == StepOf(u, Guarded(links, patterns), State(files, {}), Proposing(b, faults))
    ensures OneBlockStep(links, State(files, {}), b, faults, step)
  {
    var p, s, turn := Guarded(links, patterns), State(files, {}), Proposing(b, faults);
    next := LoopOf(u, p);
    turns := [turn];
    step := next(s, turn);
    ReachableIsTouched(u, links, patterns, files, faults, b.path);
    OneBlock(u, links, patterns, s, b, faults);
    assert step == StepOf(u, p, s, turn);
    OneStep(next, s, turn);
  }

  const NO_FAULTS := Faults({}, map[])

  /** A run of the loop in a clone with these links, under these protected paths. */
  ghost predicate IsRun(u: Unicode, links: Links, patterns: seq<string>, p: Policy, next: Stepper) {
    IsLoop(u, p, next) && p.links == links && p.protectedPaths == patterns
  }

  /** Some run writes to this path. */
  ghost predicate CanWrite(u: Unicode, links: Links, patterns: seq<string>, path: string) {
    exists p, next: Stepper, files, turns, i ::
      IsRun(u, links, patterns, p, next) && 0 <= i < |Trace(next, State(files, {}), turns)| &&
      path in Trace(next, State(files, {}), turns)[i].touched
  }

  /** The exact reach of the loop: whatever the planner answers, the clone holds and the file system does, the
      paths it can write to are these and no other. */
  lemma {:induction false} ReachIsExact(u: Unicode, links: Links, patterns: seq<string>, path: string)
    requires Sound(links)
    ensures CanWrite(u, links, patterns, path) <==> Reachable(u, links, patterns, path)
  {
    if CanWrite(u, links, patterns, path) {
      var p, next: Stepper, files, turns, i :|
        IsRun(u, links, patterns, p, next) && 0 <= i < |Trace(next, State(files, {}), turns)| &&
        path in Trace(next, State(files, {}), turns)[i].touched;
      RunStaysInReach(u, p, next, State(files, {}), turns, i);
      assert path in AsSet(Trace(next, State(files, {}), turns)[i].touched);
    }
    if Reachable(u, links, patterns, path) {
      var files: Files := map[];
      var next, turns, step := SingleWrite(u, links, patterns, files, Block(path, ""), NO_FAULTS);
      assert path in Trace(next, State(files, {}), turns)[0].touched;
      assert IsRun(u, links, patterns, Guarded(links, patterns), next);
    }
  }

  // ---------------------------------------------------------------------------------------------
  // Blind overwrites
  // ---------------------------------------------------------------------------------------------

  /** The loop may replace the file a path lands on: it was not there, the loop wrote the path itself, or the
      path's own entry in the same iteration's prompt holds the file's whole content. */
  ghost predicate Sighted(p: Policy, step: Step, path: string) {
    var name := Landed(p.links, path);
    || name !in step.before.files
    || path in step.before.ever
    || (path in step.shown && |step.before.files[name]| <= MAX_READ_FILE &&
        ShowsWhole(Render(p.links, step.before.files, p.unreadable, p.readPaths), path, step.before.files[name]))
  }

  lemma {:induction false} SightedStep(u: Unicode, p: Policy, s: State, turn: Turn, path: string)
    requires Sound(p.links) && path in StepOf(u, p, s, turn).touched && !Unseen(p.links, path)
    ensures Sighted(p, StepOf(u, p, s, turn), path)
  {
    StepKeeps(u, p, s, turn);
    StepWrites(u, p, s, turn, path);
    StatOfCanonical(p.links, s.files, path);
    if path in StepOf(u, p, s, turn).shown {
      ShownIsCurrent(p.links, s.files, p.unreadable, p.readPaths, path);
      LandsWhereItSays(p.links, path);
    } else if path !in s.ever {
      LandsWhereItSays(p.links, path);
    }
  }

  /** No blind overwrite, in any run, of any path the reader can see -- not even by a write that fails
      half-way. */
  lemma {:induction false} NoBlindOverwrite(u: Unicode, p: Policy, next: Stepper, s: State, turns: seq<Turn>, i: nat, path: string)
    requires Sound(p.links) && IsLoop(u, p, next) && !Unseen(p.links, path)
    requires i < |Trace(next, s, turns)| && path in Trace(next, s, turns)[i].touched
    ensures Sighted(p, Trace(next, s, turns)[i], path)
  {
    StartsWhereItIs(u, p, next);
    TraceChains(next, s, turns);
    SightedStep(u, p, Trace(next, s, turns)[i].before, turns[i], path);
  }

  lemma {:induction false} OutsideGit(name: string)
    requires Split(name, '/')[0] != ".git"
    ensures name != ".git" && !(".git/" <= name)
  {
    if name == ".git" {
      SplitPlain(name, '/');
    } else if ".git/" <= name {
      FirstPart(name, ".git", name[5..]);
    }
  }

  lemma {:induction false} FirstPart(path: string, name: string, rest: string)
    requires path == name + "/" + rest && '/' !in name
    ensures Split(path, '/')[0] == name
  {
    assert path == name + ['/'] + rest;
    SplitPrefix(name, '/', rest);
  }

  /** The jail holds in every run: a path that is written to has no segment that could open `.git`, lands inside
      the clone, and does not land in the clone's own `.git`. */
  lemma {:induction false} JailHolds(u: Unicode, p: Policy, next: Stepper, s: State, turns: seq<Turn>, i: nat, path: string)
    requires IsLoop(u, p, next) && i < |Trace(next, s, turns)| && path in Trace(next, s, turns)[i].touched
    ensures forall part :: part in RawSegments(path) ==> !IsDotGit(u, part)
    ensures Canonical(path) == Some(path) && p.links.land(path) == Some(Landed(p.links, path))
    ensures Landed(p.links, path) != ".git" && !(".git/" <= Landed(p.links, path))
  {
    var before := Trace(next, s, turns)[i].before;
    StartsWhereItIs(u, p, next);
    TraceChains(next, s, turns);
    assert next(before, turns[i]) == StepOf(u, p, before, turns[i]);
    StepKeeps(u, p, before, turns[i]);
    StepWrites(u, p, before, turns[i], path);
    OutsideGit(Landed(p.links, path));
  }

  ghost predicate NeverBlind(u: Unicode, links: Links, patterns: seq<string>, path: string) {
    forall p, next: Stepper, files, turns, i ::
      IsRun(u, links, patterns, p, next) && 0 <= i < |Trace(next, State(files, {}), turns)| &&
      path in Trace(next, State(files, {}), turns)[i].touched ==>
        Sighted(p, Trace(next, State(files, {}), turns)[i], path)
  }

  lemma {:induction false} BlindRun(u: Unicode, links: Links, patterns: seq<string>, path: string)
    requires Sound(links) && Reachable(u, links, patterns, path) && Unseen(links, path)
    ensures !NeverBlind(u, links, patterns, path)
  {
    var p, files: Files := Guarded(links, patterns), map[Landed(links, path) := "old"];
    var next, turns, step := SingleWrite(u, links, patterns, files, Block(path, ""), NO_FAULTS);
    assert path in Trace(next, State(files, {}), turns)[0].touched;
    assert !Sighted(p, step, path);
    assert IsRun(u, links, patterns, p, next);
  }

  lemma {:induction false} AlwaysSighted(u: Unicode, links: Links, patterns: seq<string>, path: string)
    requires Sound(links) && (!Reachable(u, links, patterns, path) || !Unseen(links, path))
    ensures NeverBlind(u, links, patterns, path)
  {
    forall p, next: Stepper, files, turns, i |
      IsRun(u, links, patterns, p, next) && 0 <= i < |Trace(next, State(files, {}), turns)| &&
      path in Trace(next, State(files, {}), turns)[i].touched
      ensures Sighted(p, Trace(next, State(files, {}), turns)[i], path)
    {
      RunStaysInReach(u, p, next, State(files, {}), turns, i);
      assert path in AsSet(Trace(next, State(files, {}), turns)[i].touched);
      NoBlindOverwrite(u, p, next, State(files, {}), turns, i, path);
    }
  }

  /** The exact condition, for every path and every set of links.  A path with a segment that ends in a dot or
      a space, or behind a linked directory, can be overwritten blindly -- the reader calls it missing, the
      writer replaces it -- if the writer takes it and its name is not protected; no other path can. */
  lemma {:induction false} BlindIffUnseen(u: Unicode, links: Links, patterns: seq<string>, path: string)
    requires Sound(links)
    ensures NeverBlind(u, links, patterns, path) <==>
            !(Unseen(links, path) && Writable(u, links, path) && !ProtectedBy(u, patterns, path))
  {
    if Unseen(links, path) && Writable(u, links, path) && !ProtectedBy(u, patterns, path) {
      BlindRun(u, links, patterns, path);
    } else {
      AlwaysSighted(u, links, patterns, path);
    }
  }

  // ---------------------------------------------------------------------------------------------
  // Examples
  // ---------------------------------------------------------------------------------------------

  /** The letters of the examples are visible and fold to themselves. */
  ghost predicate PlainLetters(u: Unicode) {
    forall c :: 'a' <= c <= 't' ==> !u.isFormat(c) && u.fold(c) == [c]
  }

  /** A clone without links. */
  const NO_LINKS := Links({}, path => Some(path))

  /** A clone in which `d` is a link to the directory `t` beside it. */
  const DETOUR := Links({"d"}, path => if path == "d" then Some("t") else if "d/" <= path then Some("t" + path[1..]) else Some(path))

  lemma {:induction false} LetterCleans(u: Unicode, c: char, dots: string)
    requires PlainLetters(u) && 'a' <= c <= 't' && dots in ["", "."]
    ensures CleanSegment(u, [c] + dots) == [c] && !IsDotGit(u, [c] + dots)
  {
    TrailingDots(u, [c], dots);
    assert [c][1..] == "" && TrimDots([c]) == [c];
    assert FoldVisible(u, [c]) == u.fold(c) + FoldVisible(u, "") == [c];
  }

  lemma {:induction false} LetterIsName(c: char, dots: string)
    requires 'a' <= c <= 't' && dots in ["", "."]
    ensures PlainName([c] + dots) && '\n' !in [c] + dots && RawSegments([c] + dots) == [[c] + dots]
  {
    assert ([c] + dots)[0] == c;
    OneSegment([c] + dots);
  }

  lemma {:induction false} LetterIsNameable(c: char, dots: string)
    requires 'a' <= c <= 't' && dots in ["", "."]
    ensures Nameable([c] + dots)
  {
    var name := [c] + dots;
    LetterIsName(c, dots);
    OneSegment(name);
    assert Join("/", [name]) == name;
  }

  lemma {:induction false} LetterIsWritable(u: Unicode, c: char, dots: string)
    requires PlainLetters(u) && 'a' <= c <= 't' && dots in ["", "."]
    ensures Writable(u, NO_LINKS, [c] + dots) && Landed(NO_LINKS, [c] + dots) == [c] + dots
  {
    var name := [c] + dots;
    LetterIsNameable(c, dots);
    LetterIsName(c, dots);
    LetterCleans(u, c, dots);
    SplitPlain(name, '/');
  }

  lemma {:induction false} NoLinksAreSound()
    ensures Sound(NO_LINKS)
  {
  }

  /** Such a path, in a clone without links: `a.`. */
  lemma {:induction false} TrailingDotIsBlind(u: Unicode)
    requires PlainLetters(u)
    ensures !NeverBlind(u, NO_LINKS, [], "a.")
  {
    assert ['a'] + "." == "a.";
    LetterIsWritable(u, 'a', ".");
    LetterIsName('a', ".");
    assert TrimDots("a.") != "a." && "a." in RawSegments("a.");
    NoLinksAreSound();
    BlindIffUnseen(u, NO_LINKS, [], "a.");
  }

  lemma {:induction false} OnlySegment(path: string, name: string)
    requires Canonical(path) == Some(path) && RawSegments(path) == [name]
    ensures path == name
  {
  }

  lemma {:induction false} BelowTheLink(path: string)
    requires Canonical(path) == Some(path) && "d/" <= path
    ensures Through(DETOUR, path)
  {
    var rest := path[2..];
    assert path == "d" + "/" + rest && ['d'] + "" == "d";
    SegmentsAcross("d", rest);
    LetterIsName('d', "");
    var parts := RawSegments(path);
    if |parts| == 1 {
      OnlySegment(path, "d");
      assert false;
    }
    assert parts[..1] == ["d"] && Join("/", parts[..1]) == "d";
  }

  lemma {:induction false} DetourIsSound()
    ensures Sound(DETOUR)
  {
    forall path | Canonical(path) == Some(path) && Direct(DETOUR, path)
      ensures DETOUR.land(path) == Some(path)
    {
      if "d/" <= path {
        BelowTheLink(path);
      }
    }
  }

  lemma {:induction false} TwoNames(a: string, b: string)
    requires PlainName(a) && PlainName(b) && a[0] != '-'
    ensures var path := a + "/" + b;
            Canonical(path) == Some(path) && RawSegments(path) == [a, b]
  {
    var path := a + "/" + b;
    OneSegment(a);
    OneSegment(b);
    SegmentsAcross(a, b);
    assert [a] + [b] == [a, b] && Join("/", [a, b]) == path;
    ReplaceAt(path, 0);
    assert path[0] == a[0] && a[0] in a;
  }

  lemma {:induction false} CleanPair(u: Unicode, a: string, b: string)
    ensures CleanAll(u, [a, b]) == [CleanSegment(u, a), CleanSegment(u, b)]
  {
    CleanAppend(u, [], a);
    CleanAppend(u, [a], b);
    assert [] + [a] == [a] && [a] + [b] == [a, b];
    assert CleanAll(u, []) == [];
  }

  lemma {:induction false} TwoLetters(u: Unicode, c: char, d: char)
    requires PlainLetters(u) && 'a' <= c <= 't' && 'a' <= d <= 't'
    ensures var path := [c] + "/" + [d];
            Nameable(path) && RawSegments(path) == [[c], [d]] && !Jailed(u, path) && Segments(u, path) == [[c], [d]]
  {
    assert [c] + "" == [c] && [d] + "" == [d];
    LetterIsName(c, "");
    LetterIsName(d, "");
    LetterCleans(u, c, "");
    LetterCleans(u, d, "");
    TwoNames([c], [d]);
    CleanPair(u, [c], [d]);
  }

  lemma {:induction false} BehindTheLink(u: Unicode)
    requires PlainLetters(u)
    ensures Writable(u, DETOUR, "d/a") && Landed(DETOUR, "d/a") == "t/a" && Unseen(DETOUR, "d/a")
  {
    assert ['d'] + "/" + ['a'] == "d/a" && "d/a"[1..] == "/a" && "t" + "/a" == "t/a";
    TwoLetters(u, 'd', 'a');
    BelowTheLink("d/a");
    FirstPart("t/a", "t", "a");
  }

  /** ... and such a path behind a linked directory: `d/a`, which replaces `t/a`. */
  lemma {:induction false} ThroughLinkIsBlind(u: Unicode)
    requires PlainLetters(u)
    ensures !NeverBlind(u, DETOUR, [], "d/a")
  {
    BehindTheLink(u);
    DetourIsSound();
    BlindIffUnseen(u, DETOUR, [], "d/a");
  }
}
