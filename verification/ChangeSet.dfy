/** What a run of the coding loop changed, when it counts as accepted, and the decision that commits it. */
module ChangeSet {
  import opened Options
  import opened Text
  import opened RepoPaths
  import opened PlannerBlocks
  import opened CloneFiles
  import opened CodingLoop
  import opened LoopReach

  // ---------------------------------------------------------------------------------------------
  // `RealRepoLoopResult.changed_files`
  // ---------------------------------------------------------------------------------------------

  predicate InQuarantine(it: Iteration) {
    CriticalFinding in it.gates || OutOfScopeWrite in it.gates || WriteBudgetExceeded in it.gates
  }

  /** Everything the iterations outside quarantine wrote, in order. */
  function AllWritten(its: seq<Iteration>): seq<string> {
    if its == [] then []
    else
      var front, last := AllWritten(its[..|its| - 1]), its[|its| - 1];
      if InQuarantine(last) then front else front + last.changed
  }

  /** A list without its repetitions, each path where it comes first. */
  function FirstWrites(paths: seq<string>): seq<string> {
    if paths == [] then []
    else
      var front, last := FirstWrites(paths[..|paths| - 1]), paths[|paths| - 1];
      if last in front then front else front + [last]
  }

  lemma {:induction false} FirstWritesAre(paths: seq<string>)
    ensures forall x :: x in FirstWrites(paths) <==> x in paths
    ensures forall i, j :: 0 <= i < j < |FirstWrites(paths)| ==> FirstWrites(paths)[i] != FirstWrites(paths)[j]
  {
    if paths != [] {
      var n := |paths| - 1;
      FirstWritesAre(paths[..n]);
      assert forall x :: x in paths <==> x in paths[..n] || x == paths[n];
    }
  }

  lemma {:induction false} FirstNext(paths: seq<string>, x: string)
    ensures FirstWrites(paths + [x]) == if x in FirstWrites(paths) then FirstWrites(paths) else FirstWrites(paths) + [x]
  {
    assert (paths + [x])[..|paths|] == paths;
  }

  /** Later iterations only add to the end. */
  lemma {:induction false} FirstWritesGrow(paths: seq<string>, more: seq<string>)
    ensures FirstWrites(paths) <= FirstWrites(paths + more)
  {
    if more == [] {
      assert paths + more == paths;
    } else {
      var n := |more| - 1;
      var front := paths + more[..n];
      FirstWritesGrow(paths, more[..n]);
      FirstNext(front, more[n]);
      assert front + [more[n]] == paths + more;
    }
  }

  method AddPaths(seen: seq<string>, ghost before: seq<string>, paths: seq<string>) returns (all: seq<string>)
    requires seen == FirstWrites(before)
    ensures all == FirstWrites(before + paths)
  {
    all := seen;
    assert before + paths[..0] == before;
    for j := 0 to |paths|
      invariant all == FirstWrites(before + paths[..j])
    {
      FirstNext(before + paths[..j], paths[j]);
      assert (before + paths[..j]) + [paths[j]] == before + paths[..j + 1];
      if paths[j] !in all {
        all := all + [paths[j]];
      }
    }
    assert paths[..|paths|] == paths;
  }

  method ChangedFiles(iterations: seq<Iteration>) returns (seen: seq<string>)
    ensures seen == FirstWrites(AllWritten(iterations))
  {
    seen := [];
    for i := 0 to |iterations|
      invariant seen == FirstWrites(AllWritten(iterations[..i]))
    {
      assert iterations[..i + 1][..i] == iterations[..i];
      if !InQuarantine(iterations[i]) {
        seen := AddPaths(seen, AllWritten(iterations[..i]), iterations[i].changed);
      }
    }
    assert iterations[..|iterations|] == iterations;
  }

  // ---------------------------------------------------------------------------------------------
  // What the run did and what it reports
  // ---------------------------------------------------------------------------------------------

  /** The paths whose write succeeded in some steps. */
  ghost function WrittenBy(t: seq<Step>): set<string> {
    if t == [] then {} else AsSet(t[0].changed) + WrittenBy(t[1..])
  }

  /** The paths written to in some steps, successfully or not. */
  ghost function TouchedBy(t: seq<Step>): set<string> {
    if t == [] then {} else AsSet(t[0].touched) + TouchedBy(t[1..])
  }

  /** The paths whose write may fail half-way in some turns. */
  ghost function Torn(turns: seq<Turn>): set<string> {
    if turns == [] then {} else turns[0].faults.torn.Keys + Torn(turns[1..])
  }

  lemma {:induction false} WrittenByIs(t: seq<Step>)
    ensures forall path :: path in WrittenBy(t) <==> exists i :: 0 <= i < |t| && path in t[i].changed
  {
    if t != [] {
      WrittenByIs(t[1..]);
      assert forall i :: 0 < i < |t| ==> t[1..][i - 1] == t[i];
    }
  }

  lemma {:induction false} AllWrittenIs(its: seq<Iteration>)
    ensures forall path :: path in AllWritten(its) <==>
              exists i :: 0 <= i < |its| && !InQuarantine(its[i]) && path in its[i].changed
  {
    if its != [] {
      AllWrittenIs(its[..|its| - 1]);
    }
  }

  lemma {:induction false} LandingsAdd(links: Links, xs: set<string>, ys: set<string>)
    ensures Landings(links, xs + ys) == Landings(links, xs) + Landings(links, ys)
  {
    var all := Landings(links, xs + ys);
    assert all == Landings(links, xs) + Landings(links, ys);
  }

  lemma {:induction false} ChangedTwice(a: Files, b: Files, c: Files, xs: set<string>, ys: set<string>)
    requires ChangedOnly(a, b, xs) && ChangedOnly(b, c, ys)
    ensures ChangedOnly(a, c, xs + ys)
  {
  }

  /** An iteration reported as quarantined left the clone alone. */
  ghost predicate Idle(step: Step) {
    InQuarantine(Iteration(step.changed, step.gates)) ==>
      step.touched == [] && step.changed == [] && step.after.files == step.before.files
  }

  /** One step of the loop: what it keeps, the paths it writes to and those ever written are within reach, and
      a quarantined iteration does nothing. */
  ghost predicate Proper(u: Unicode, p: Policy, s: State, turn: Turn, step: Step) {
    && Keeps(u, p.links, s, turn, step) && Idle(step)
    && AllReachable(u, p, AsSet(step.touched)) && AllReachable(u, p, step.after.ever)
  }

  lemma {:induction false} GatesOfQuarantine(changed: seq<string>, verified: Option<bool>, failed: bool, flags: Flags)
    ensures InQuarantine(Iteration(changed, Decide(changed, verified, failed, flags))) <==> flags.Quarantine()
  {
  }

  lemma {:induction false} ConcludeIsIdle(u: Unicode, links: Links, s: State, blocks: seq<Block>, duplicate: bool,
                                          shown: set<string>, flags: Flags, turn: Turn)
    ensures Idle(Conclude(u, links, s, blocks, duplicate, shown, flags, turn))
  {
    var step := Conclude(u, links, s, blocks, duplicate, shown, flags, turn);
    if flags.Quarantine() {
      QuarantineIsIdle(u, links, s, blocks, duplicate, shown, flags, turn);
    } else {
      GatesOfQuarantine(step.changed, step.verified, duplicate || |step.changed| < |blocks|, flags);
    }
  }

  lemma {:induction false} StepIsIdle(u: Unicode, p: Policy, s: State, turn: Turn)
    ensures Idle(StepOf(u, p, s, turn))
  {
    var blocks := BlocksOf(u, turn.answer);
    ConcludeIsIdle(u, p.links, s, blocks, Parse(u, turn.answer).Duplicate?,
                   Shown(Render(p.links, s.files, p.unreadable, p.readPaths)), FlagsOf(u, p, blocks), turn);
  }

  lemma {:induction false} ProperStep(u: Unicode, p: Policy, next: Stepper, s: State, turn: Turn)
    requires IsLoop(u, p, next) && AllReachable(u, p, s.ever)
    ensures Proper(u, p, s, turn, next(s, turn))
  {
    assert next(s, turn) == StepOf(u, p, s, turn);
    StepKeeps(u, p, s, turn);
    StepStaysInReach(u, p, next, s, turn);
    StepIsIdle(u, p, s, turn);
  }

  /** The same for the steps of a run together. */
  ghost predicate ProperRun(u: Unicode, p: Policy, s: State, torn: set<string>, t: seq<Step>) {
    && t != []
    && t[|t| - 1].after.ever == s.ever + WrittenBy(t)
    && TouchedBy(t) - torn <= WrittenBy(t) <= TouchedBy(t)
    && ChangedOnly(s.files, t[|t| - 1].after.files, Landings(p.links, TouchedBy(t)))
    && AllReachable(u, p, TouchedBy(t))
    && forall i :: 0 <= i < |t| ==> Idle(t[i])
  }

  lemma {:induction false} ByOne(step: Step)
    ensures WrittenBy([step]) == AsSet(step.changed) && TouchedBy([step]) == AsSet(step.touched)
  {
    assert [step][1..] == [] && WrittenBy([]) == {} && TouchedBy([]) == {};
    assert WrittenBy([step]) == AsSet(step.changed) + WrittenBy([step][1..]);
    assert TouchedBy([step]) == AsSet(step.touched) + TouchedBy([step][1..]);
  }

  lemma {:induction false} ProperAlone(u: Unicode, p: Policy, s: State, turn: Turn, torn: set<string>, step: Step)
    requires Proper(u, p, s, turn, step) && turn.faults.torn.Keys <= torn
    ensures ProperRun(u, p, s, torn, [step])
  {
    ByOne(step);
  }

  lemma {:induction false} ByMore(step: Step, rest: seq<Step>)
    ensures WrittenBy([step] + rest) == AsSet(step.changed) + WrittenBy(rest)
    ensures TouchedBy([step] + rest) == AsSet(step.touched) + TouchedBy(rest)
  {
    assert ([step] + rest)[1..] == rest;
  }

  lemma {:induction false} TornBefore(touched: set<string>, torn: set<string>, laterTouched: set<string>,
                                      laterTorn: set<string>, laterWritten: set<string>)
    requires laterTouched - laterTorn <= laterWritten <= laterTouched
    ensures var written := (touched - torn) + laterWritten;
            (touched + laterTouched) - (torn + laterTorn) <= written <= touched + laterTouched
  {
  }

  lemma {:induction false} FilesBefore(p: Policy, s: State, step: Step, rest: seq<Step>)
    requires ChangedOnly(s.files, step.after.files, Landings(p.links, AsSet(step.touched))) && rest != []
    requires ChangedOnly(step.after.files, rest[|rest| - 1].after.files, Landings(p.links, TouchedBy(rest)))
    ensures ChangedOnly(s.files, rest[|rest| - 1].after.files, Landings(p.links, AsSet(step.touched) + TouchedBy(rest)))
  {
    LandingsAdd(p.links, AsSet(step.touched), TouchedBy(rest));
    ChangedTwice(s.files, step.after.files, rest[|rest| - 1].after.files, Landings(p.links, AsSet(step.touched)),
                 Landings(p.links, TouchedBy(rest)));
  }

  lemma {:induction false} ProperBefore(u: Unicode, p: Policy, s: State, turn: Turn, torn: set<string>, step: Step, rest: seq<Step>)
    requires Proper(u, p, s, turn, step) && ProperRun(u, p, step.after, torn, rest)
    ensures ProperRun(u, p, s, turn.faults.torn.Keys + torn, [step] + rest)
  {
    var t := [step] + rest;
    ByMore(step, rest);
    assert t[|t| - 1] == rest[|rest| - 1];
    assert forall i :: 0 < i < |t| ==> t[i] == rest[i - 1];
    TornBefore(AsSet(step.touched), turn.faults.torn.Keys, TouchedBy(rest), torn, WrittenBy(rest));
    FilesBefore(p, s, step, rest);
  }

  lemma {:induction false} RunChanges(u: Unicode, p: Policy, next: Stepper, s: State, turns: seq<Turn>)
    requires IsLoop(u, p, next) && turns != [] && AllReachable(u, p, s.ever)
    ensures ProperRun(u, p, s, Torn(turns), Trace(next, s, turns))
    decreases |turns|
  {
    var step := next(s, turns[0]);
    ProperStep(u, p, next, s, turns[0]);
    if step.gates == [] || turns[1..] == [] {
      ProperAlone(u, p, s, turns[0], Torn(turns), step);
      assert [step] + [] == [step];
    } else {
      RunChanges(u, p, next, step.after, turns[1..]);
      ProperBefore(u, p, s, turns[0], Torn(turns[1..]), step, Trace(next, step.after, turns[1..]));
    }
  }

  /** The change set a run records. */
  ghost function Recorded(t: seq<Step>): seq<string> {
    FirstWrites(AllWritten(Iterations(t)))
  }

  ghost function Reported(t: seq<Step>): set<string> {
    AsSet(Recorded(t))
  }

  lemma {:induction false} ReportedIsWritten(t: seq<Step>)
    requires forall i :: 0 <= i < |t| ==> Idle(t[i])
    ensures forall path :: path in Recorded(t) <==> path in WrittenBy(t)
  {
    var its := Iterations(t);
    FirstWritesAre(AllWritten(its));
    AllWrittenIs(its);
    WrittenByIs(t);
    forall path | path in WrittenBy(t)
      ensures path in AllWritten(its)
    {
      var i :| 0 <= i < |t| && path in t[i].changed;
      assert its[i].changed == t[i].changed && !InQuarantine(its[i]);
    }
  }

  lemma {:induction false} ReportedIsWrittenBy(t: seq<Step>)
    requires forall i :: 0 <= i < |t| ==> Idle(t[i])
    ensures Reported(t) == WrittenBy(t)
  {
    ReportedIsWritten(t);
    assert forall path :: path in Reported(t) <==> path in WrittenBy(t);
  }

  /** The clone a run leaves differs from the first in where the paths written to land, all within reach. */
  ghost predicate ChangedWithin(u: Unicode, p: Policy, files: Files, t: seq<Step>) {
    && t != []
    && ChangedOnly(files, t[|t| - 1].after.files, Landings(p.links, TouchedBy(t)))
    && AllReachable(u, p, TouchedBy(t))
  }

  lemma {:induction false} RunReport(u: Unicode, p: Policy, files: Files, torn: set<string>, t: seq<Step>)
    requires ProperRun(u, p, State(files, {}), torn, t)
    ensures ChangedWithin(u, p, files, t)
    ensures Reported(t) == WrittenBy(t) == t[|t| - 1].after.ever
    ensures TouchedBy(t) - torn <= Reported(t) <= TouchedBy(t)
    ensures forall i :: 0 <= i < |t| ==> Idle(t[i])
  {
    ReportedIsWrittenBy(t);
  }

  /** Over every run: the reported change set is exactly the set of paths whose write succeeded; the paths
      written to are within the reach of the loop, and only the files on which they land change; those not
      reported are paths whose write may fail half-way; and a quarantined iteration left the clone alone. */
  lemma {:induction false} ExactChangeSet(u: Unicode, p: Policy, next: Stepper, files: Files, turns: seq<Turn>)
    requires IsLoop(u, p, next) && turns != []
    ensures var t := Trace(next, State(files, {}), turns);
            && ChangedWithin(u, p, files, t)
            && Reported(t) == t[|t| - 1].after.ever
            && (forall path :: path in Reported(t) <==> exists i :: 0 <= i < |t| && path in t[i].changed)
            && TouchedBy(t) - Torn(turns) <= Reported(t) <= TouchedBy(t)
            && (forall i :: 0 <= i < |t| ==> Idle(t[i]))
  {
    var t := Trace(next, State(files, {}), turns);
    RunChanges(u, p, next, State(files, {}), turns);
    RunReport(u, p, files, Torn(turns), t);
    WrittenByIs(t);
  }

  // ---------------------------------------------------------------------------------------------
  // When the report is exact
  // ---------------------------------------------------------------------------------------------

  /** A run leaves a clone that differs from the initial one in the reported paths only. */
  ghost predicate Exact(next: Stepper, files: Files, turns: seq<Turn>) {
    var t := Trace(next, State(files, {}), turns);
    t != [] && ChangedOnly(files, t[|t| - 1].after.files, Reported(t))
  }

  /** Only the writes to these paths may fail half-way. */
  ghost predicate TornWithin(turns: seq<Turn>, may: iset<string>) {
    forall path :: path in Torn(turns) ==> path in may
  }

  ghost predicate ExactWithin(u: Unicode, links: Links, patterns: seq<string>, may: iset<string>) {
    forall p, next: Stepper, files, turns ::
      IsRun(u, links, patterns, p, next) && turns != [] && TornWithin(turns, may) ==> Exact(next, files, turns)
  }

  /** Every path within reach lands where it says, and its write never fails half-way. */
  ghost predicate PlainAndWhole(u: Unicode, links: Links, patterns: seq<string>, may: iset<string>) {
    forall path :: Reachable(u, links, patterns, path) ==> Landed(links, path) == path && path !in may
  }

  lemma {:induction false} LandingsOnThemselves(links: Links, paths: set<string>)
    requires forall path :: path in paths ==> Landed(links, path) == path
    ensures Landings(links, paths) == paths
  {
    var all := Landings(links, paths);
    forall path | path in paths
      ensures path in all
    {
      assert Landed(links, path) in all;
    }
    assert all == paths;
  }

  lemma {:induction false} PlainRunIsExact(u: Unicode, links: Links, patterns: seq<string>, may: iset<string>,
                                           p: Policy, next: Stepper, files: Files, turns: seq<Turn>)
    requires PlainAndWhole(u, links, patterns, may)
    requires IsRun(u, links, patterns, p, next) && turns != [] && TornWithin(turns, may)
    ensures Exact(next, files, turns)
  {
    var t := Trace(next, State(files, {}), turns);
    ExactChangeSet(u, p, next, files, turns);
    LandingsOnThemselves(links, TouchedBy(t));
    assert TouchedBy(t) == Reported(t);
  }

  lemma {:induction false} ReportOfOne(step: Step)
    requires Idle(step) && |step.changed| <= 1
    ensures Recorded([step]) == step.changed
  {
    var its := Iterations([step]);
    assert its == [Iteration(step.changed, step.gates)];
    assert its[..0] == [] && AllWritten([]) == [];
    assert AllWritten(its) == step.changed;
    if |step.changed| == 1 {
      assert step.changed[..0] == [] && FirstWrites([]) == [];
      assert step.changed == [step.changed[0]];
    }
  }

  /** The clone a run leaves, and what it says about it. */
  ghost predicate Leaves(next: Stepper, turns: seq<Turn>, files: Files, recorded: seq<string>, accepted: bool) {
    var t := Trace(next, State(map[], {}), turns);
    t != [] && t[|t| - 1].after.files == files && Recorded(t) == recorded && accepted == (t[|t| - 1].gates == [])
  }

  lemma {:induction false} LeavesOne(next: Stepper, turns: seq<Turn>, step: Step)
    requires Trace(next, State(map[], {}), turns) == [step] && Idle(step) && |step.changed| <= 1
    ensures Leaves(next, turns, step.after.files, step.changed, step.gates == [])
  {
    ReportOfOne(step);
  }

  lemma {:induction false} TornOfOne(turn: Turn)
    ensures Torn([turn]) == turn.faults.torn.Keys
  {
    assert [turn][1..] == [] && Torn([]) == {};
  }

  /** A single write to a path within reach: what it leaves, and what is reported of it. */
  lemma {:induction false} SingleReport(u: Unicode, links: Links, patterns: seq<string>, path: string, faults: Faults)
    returns (next: Stepper, turns: seq<Turn>)
    requires Sound(links) && Reachable(u, links, patterns, path) && path !in faults.refused
    ensures IsRun(u, links, patterns, Guarded(links, patterns), next) && turns != [] && Torn(turns) == faults.torn.Keys
    ensures var torn := path in faults.torn;
            Leaves(next, turns, map[Landed(links, path) := Left(faults, Block(path, ""))], if torn then [] else [path], !torn)
  {
    var step;
    var b, files: Files := Block(path, ""), map[];
    next, turns, step := SingleWrite(u, links, patterns, files, b, faults);
    StepIsIdle(u, Guarded(links, patterns), State(files, {}), Proposing(b, faults));
    TornOfOne(Proposing(b, faults));
    LeavesOne(next, turns, step);
  }

  lemma {:induction false} NotExact(u: Unicode, links: Links, patterns: seq<string>, may: iset<string>, path: string)
    requires Sound(links) && Reachable(u, links, patterns, path) && (Landed(links, path) != path || path in may)
    ensures !ExactWithin(u, links, patterns, may)
  {
    var faults := if path in may then Faults({}, map[path := ""]) else NO_FAULTS;
    var next, turns := SingleReport(u, links, patterns, path, faults);
    var files: Files := map[];
    var t := Trace(next, State(files, {}), turns);
    assert Landed(links, path) in t[|t| - 1].after.files;
    assert !Exact(next, files, turns) && TornWithin(turns, may);
  }

  /** The exact condition, for every set of links and every set of paths whose writes may fail half-way: the
      report is exact in every run if and only if every path within reach lands where it says and is not among
      them. */
  lemma {:induction false} ExactIffPlainAndWhole(u: Unicode, links: Links, patterns: seq<string>, may: iset<string>)
    requires Sound(links)
    ensures ExactWithin(u, links, patterns, may) <==> PlainAndWhole(u, links, patterns, may)
  {
    if PlainAndWhole(u, links, patterns, may) {
      forall p, next: Stepper, files, turns |
        IsRun(u, links, patterns, p, next) && turns != [] && TornWithin(turns, may)
        ensures Exact(next, files, turns)
      {
        PlainRunIsExact(u, links, patterns, may, p, next, files, turns);
      }
    } else {
      var path :| Reachable(u, links, patterns, path) && (Landed(links, path) != path || path in may);
      NotExact(u, links, patterns, may, path);
    }
  }

  lemma {:induction false} LetterIsReachable(u: Unicode, c: char)
    requires PlainLetters(u) && 'a' <= c <= 't'
    ensures Reachable(u, NO_LINKS, [], [c]) && Landed(NO_LINKS, [c]) == [c]
  {
    assert [c] + "" == [c];
    LetterIsWritable(u, c, "");
  }

  lemma {:induction false} OtherLetterIsTouched(u: Unicode, c: char, d: char)
    requires PlainLetters(u) && 'a' <= c <= 't' && 'a' <= d <= 't' && c != d
    ensures Touches(u, NO_LINKS, map[[c] := ""], {}, NO_FAULTS, [d])
  {
    LetterIsReachable(u, d);
    StatOfCanonical(NO_LINKS, map[[c] := ""], [d]);
  }

  /** A file torn by the one write of a first iteration, and a second iteration that is accepted. */
  lemma {:induction false} TornThenAccepted(u: Unicode, next: Stepper, torn: Faults)
    requires PlainLetters(u) && IsLoop(u, Guarded(NO_LINKS, []), next) && torn == Faults({}, map["a" := ""])
    ensures var t0 := next(State(map[], {}), Proposing(Block("a", "x"), torn));
            var t1 := next(t0.after, Proposing(Block("b", "x"), NO_FAULTS));
            && t0.gates != [] && t0.changed == [] && t1.gates == [] && t1.changed == ["b"]
            && "a" in t1.after.files
  {
    var s, s1, p := State(map[], {}), State(map["a" := ""], {}), Guarded(NO_LINKS, []);
    LetterIsReachable(u, 'a');
    LetterIsReachable(u, 'b');
    NoLinksAreSound();
    ReachableIsTouched(u, NO_LINKS, [], s.files, torn, "a");
    OneBlock(u, NO_LINKS, [], s, Block("a", "x"), torn);
    assert next(s, Proposing(Block("a", "x"), torn)) == StepOf(u, p, s, Proposing(Block("a", "x"), torn));
    assert {} + AsSet([]) == {};
    OtherLetterIsTouched(u, 'a', 'b');
    OneBlock(u, NO_LINKS, [], s1, Block("b", "x"), NO_FAULTS);
    assert next(s1, Proposing(Block("b", "x"), NO_FAULTS)) == StepOf(u, p, s1, Proposing(Block("b", "x"), NO_FAULTS));
  }

  /** A run that is accepted while a file it does not report is left torn in the clone the checks judged. */
  lemma {:induction false} TornWriteIsUnreported(u: Unicode) returns (next: Stepper, turns: seq<Turn>)
    requires PlainLetters(u)
    ensures IsLoop(u, Guarded(NO_LINKS, []), next) && turns != []
    ensures var t := Trace(next, State(map[], {}), turns);
            && t != [] && t[|t| - 1].gates == []
            && "a" in t[|t| - 1].after.files && "a" !in Reported(t)
    ensures !Exact(next, map[], turns)
  {
    var torn, s := Faults({}, map["a" := ""]), State(map[], {});
    next := LoopOf(u, Guarded(NO_LINKS, []));
    turns := [Proposing(Block("a", "x"), torn), Proposing(Block("b", "x"), NO_FAULTS)];
    TornThenAccepted(u, next, torn);
    TwoSteps(next, s, turns[0], turns[1]);
    ExactChangeSet(u, Guarded(NO_LINKS, []), next, map[], turns);
    var t := Trace(next, s, turns);
    assert "a" !in t[0].changed && "a" !in t[1].changed;
  }

  // ---------------------------------------------------------------------------------------------
  // When the protected files are safe
  // ---------------------------------------------------------------------------------------------

  ghost predicate Untouched(files: Files, now: Files, name: string) {
    && (name in files <==> name in now)
    && (name in files && name in now ==> files[name] == now[name])
  }

  /** A run leaves every protected file of the clone as it was. */
  ghost predicate InScope(u: Unicode, patterns: seq<string>, next: Stepper, files: Files, turns: seq<Turn>) {
    var t := Trace(next, State(files, {}), turns);
    t != [] && forall name :: ProtectedBy(u, patterns, name) ==> Untouched(files, t[|t| - 1].after.files, name)
  }

  ghost predicate AlwaysInScope(u: Unicode, links: Links, patterns: seq<string>) {
    forall p, next: Stepper, files, turns ::
      IsRun(u, links, patterns, p, next) && turns != [] ==> InScope(u, patterns, next, files, turns)
  }

  /** No path within reach lands on a protected file. */
  ghost predicate LandsInScope(u: Unicode, links: Links, patterns: seq<string>) {
    forall path :: Reachable(u, links, patterns, path) ==> !ProtectedBy(u, patterns, Landed(links, path))
  }

  lemma {:induction false} NotLandedOn(u: Unicode, links: Links, patterns: seq<string>, paths: set<string>, name: string)
    requires LandsInScope(u, links, patterns) && ProtectedBy(u, patterns, name)
    requires forall path :: path in paths ==> Reachable(u, links, patterns, path)
    ensures name !in Landings(links, paths)
  {
  }

  lemma {:induction false} NotChanged(files: Files, now: Files, names: set<string>, name: string)
    requires ChangedOnly(files, now, names) && name !in names
    ensures Untouched(files, now, name)
  {
  }

  lemma {:induction false} LandingInScope(u: Unicode, links: Links, patterns: seq<string>,
                                          p: Policy, next: Stepper, files: Files, turns: seq<Turn>)
    requires LandsInScope(u, links, patterns) && IsRun(u, links, patterns, p, next) && turns != []
    ensures InScope(u, patterns, next, files, turns)
  {
    var t := Trace(next, State(files, {}), turns);
    ExactChangeSet(u, p, next, files, turns);
    forall name | ProtectedBy(u, patterns, name)
      ensures Untouched(files, t[|t| - 1].after.files, name)
    {
      NotLandedOn(u, links, patterns, TouchedBy(t), name);
      NotChanged(files, t[|t| - 1].after.files, Landings(links, TouchedBy(t)), name);
    }
  }

  /** The exact condition: the protected files are safe in every run if and only if no link leads from a path
      within reach to one of them.  The gate judges the path as declared, the write goes where it lands. */
  lemma {:induction false} ScopeIffLandsInScope(u: Unicode, links: Links, patterns: seq<string>)
    requires Sound(links)
    ensures AlwaysInScope(u, links, patterns) <==> LandsInScope(u, links, patterns)
  {
    if LandsInScope(u, links, patterns) {
      forall p, next: Stepper, files, turns | IsRun(u, links, patterns, p, next) && turns != []
        ensures InScope(u, patterns, next, files, turns)
      {
        LandingInScope(u, links, patterns, p, next, files, turns);
      }
    } else {
      var path :| Reachable(u, links, patterns, path) && ProtectedBy(u, patterns, Landed(links, path));
      var next, turns := SingleReport(u, links, patterns, path, NO_FAULTS);
      var files: Files := map[];
      assert Landed(links, path) in Trace(next, State(files, {}), turns)[|Trace(next, State(files, {}), turns)| - 1].after.files;
      assert !InScope(u, patterns, next, files, turns);
    }
  }

  /** Over every run: only the last iteration can be accepted, and then it proposed something, every block
      was written, nothing was quarantined, and the checks passed on the very clone the run leaves. */
  lemma {:induction false} AcceptedMeansVerified(u: Unicode, p: Policy, next: Stepper, files: Files, turns: seq<Turn>, i: nat)
    requires IsLoop(u, p, next) && i < |Trace(next, State(files, {}), turns)|
    ensures var t := Trace(next, State(files, {}), turns);
            t[i].gates == [] ==>
            && i == |t| - 1 && i < |turns|
            && turns[i].passes(t[|t| - 1].after.files)
            && t[i].blocks != [] && t[i].changed == Paths(t[i].blocks)
            && !FlagsOf(u, p, t[i].blocks).Quarantine()
  {
    StartsWhereItIs(u, p, next);
    TraceChains(next, State(files, {}), turns);
    AcceptedStep(u, p, Trace(next, State(files, {}), turns)[i].before, turns[i]);
  }

  // ---------------------------------------------------------------------------------------------
  // `finalize_real_repo_change`
  // ---------------------------------------------------------------------------------------------

  /** Where the paths of a list land: what `add` hands to git. */
  function Staged(links: Links, paths: seq<string>): (staged: seq<string>)
    ensures |staged| == |paths| && forall i :: 0 <= i < |paths| ==> staged[i] == Landed(links, paths[i])
  {
    if paths == [] then [] else Staged(links, paths[..|paths| - 1]) + [Landed(links, paths[|paths| - 1])]
  }

  /** Whether the three git commands succeed. */
  datatype Git = Git(checkout: bool, add: bool, commit: bool)

  datatype Finalized =
    BadDecision | Rejected | ManifestMismatch | ProtectedPaths(paths: seq<string>) | GitFailed | Committed(staged: seq<string>)

  ghost predicate Stageable(u: Unicode, links: Links, paths: seq<string>) {
    paths != [] && forall path :: path in paths ==> Landable(u, links, path)
  }

  /** `add`: every path is checked, as for a write, before anything is staged. */
  method Add(u: Unicode, links: Links, paths: seq<string>, succeeds: bool) returns (staged: Option<seq<string>>)
    ensures staged.Some? <==> Stageable(u, links, paths) && succeeds
    ensures staged.Some? ==> staged.value == Staged(links, paths)
  {
    if paths == [] {
      return None;
    }
    var validated: seq<string> := [];
    for i := 0 to |paths|
      invariant validated == Staged(links, paths[..i])
      invariant forall path :: path in paths[..i] ==> Landable(u, links, path)
    {
      assert paths[..i + 1][..i] == paths[..i];
      if !Landable(u, links, paths[i]) {
        return None;
      }
      validated := validated + [Landed(links, paths[i])];
    }
    assert paths[..|paths|] == paths;
    staged := if succeeds then Some(validated) else None;
  }

  /** The gates of the decision are passed. */
  ghost predicate Approved(u: Unicode, decision: string, changed: seq<string>, patterns: seq<string>, manifestHolds: bool) {
    decision == "approve" && manifestHolds && !OutOfScope(u, patterns, changed)
  }

  /** The human decision, on the change set as recorded and the policy in force now. */
  method FinalizeRealRepoChange(u: Unicode, links: Links, decision: string, changed: seq<string>, patterns: seq<string>,
                                manifestHolds: bool, git: Git)
    returns (f: Finalized)
    requires Foldable(u)
    ensures f.BadDecision? <==> decision !in ["approve", "reject"]
    ensures f.Rejected? <==> decision == "reject"
    ensures f.ManifestMismatch? <==> decision == "approve" && !manifestHolds
    ensures f.ProtectedPaths? <==> decision == "approve" && manifestHolds && OutOfScope(u, patterns, changed)
    ensures f.ProtectedPaths? ==>
              forall path :: path in f.paths <==> path in changed && ProtectedBy(u, patterns, path)
    ensures f.Committed? <==> && Approved(u, decision, changed, patterns, manifestHolds)
                              && git.checkout && Stageable(u, links, changed) && git.add && git.commit
    ensures f.Committed? ==> f.staged == Staged(links, changed)
  {
    if decision !in ["approve", "reject"] {
      return BadDecision;
    }
    if decision == "reject" {
      return Rejected;
    }
    if !manifestHolds {
      return ManifestMismatch;
    }
    var outOfScope := ProtectedOnes(u, patterns, changed);
    if outOfScope != [] {
      assert outOfScope[0] in outOfScope;
      return ProtectedPaths(outOfScope);
    }
    if !git.checkout {
      return GitFailed;
    }
    var staged := Add(u, links, changed, git.add);
    if staged.None? || !git.commit {
      return GitFailed;
    }
    f := Committed(staged.value);
  }

  /** Under the policy of the run the gates of the decision never fire, and every recorded path can be staged. */
  lemma {:induction false} FinalizeAgrees(u: Unicode, p: Policy, next: Stepper, files: Files, turns: seq<Turn>)
    requires IsLoop(u, p, next) && turns != []
    ensures var changed := Recorded(Trace(next, State(files, {}), turns));
            && !OutOfScope(u, p.protectedPaths, changed)
            && (changed != [] ==> Stageable(u, p.links, changed))
  {
    var t := Trace(next, State(files, {}), turns);
    ExactChangeSet(u, p, next, files, turns);
    assert forall path :: path in Recorded(t) ==> path in Reported(t);
  }

  /** What the approval of an accepted run commits holds no protected file. */
  ghost predicate CommitsInScope(u: Unicode, links: Links, patterns: seq<string>, next: Stepper, files: Files, turns: seq<Turn>) {
    var t := Trace(next, State(files, {}), turns);
    t != [] && t[|t| - 1].gates == [] ==> !OutOfScope(u, patterns, Staged(links, Recorded(t)))
  }

  ghost predicate AlwaysCommitsInScope(u: Unicode, links: Links, patterns: seq<string>) {
    forall p, next: Stepper, files, turns ::
      IsRun(u, links, patterns, p, next) && turns != [] ==> CommitsInScope(u, links, patterns, next, files, turns)
  }

  lemma {:induction false} StagedInScope(u: Unicode, links: Links, patterns: seq<string>,
                                         p: Policy, next: Stepper, files: Files, turns: seq<Turn>)
    requires LandsInScope(u, links, patterns) && IsRun(u, links, patterns, p, next) && turns != []
    ensures CommitsInScope(u, links, patterns, next, files, turns)
  {
    var t := Trace(next, State(files, {}), turns);
    ExactChangeSet(u, p, next, files, turns);
    assert forall path :: path in Recorded(t) ==> path in Reported(t);
  }

  /** The exact condition for the commit is the same, although the decision has a gate of its own. */
  lemma {:induction false} CommitIffLandsInScope(u: Unicode, links: Links, patterns: seq<string>)
    requires Sound(links)
    ensures AlwaysCommitsInScope(u, links, patterns) <==> LandsInScope(u, links, patterns)
  {
    if LandsInScope(u, links, patterns) {
      forall p, next: Stepper, files, turns | IsRun(u, links, patterns, p, next) && turns != []
        ensures CommitsInScope(u, links, patterns, next, files, turns)
      {
        StagedInScope(u, links, patterns, p, next, files, turns);
      }
    } else {
      var path :| Reachable(u, links, patterns, path) && ProtectedBy(u, patterns, Landed(links, path));
      var next, turns := SingleReport(u, links, patterns, path, NO_FAULTS);
      var files: Files := map[];
      assert Staged(links, Recorded(Trace(next, State(files, {}), turns)))[0] == Landed(links, path);
      assert !CommitsInScope(u, links, patterns, next, files, turns);
    }
  }

  lemma {:induction false} TopDirectory(u: Unicode)
    requires PlainLetters(u)
    ensures Segments(u, "t/") == ["t"]
  {
    assert ['t'] + "" == "t" && "t" + "/" + "" == "t/";
    NoSegments();
    SegmentsAcross("t", "");
    LetterIsName('t', "");
    LetterCleans(u, 't', "");
    CleanAppend(u, [], "t");
    assert [] + ["t"] == ["t"];
  }

  lemma {:induction false} FirstOfPair(x: string, y: string, name: string)
    requires name != ""
    ensures Names([name]) && Names([x, y]) && ([name] <= [x, y] <==> x == name)
  {
    assert [name][0] == name && [x, y][0] == x && |[x, y]| == 2;
    if x == name {
      assert [x, y][..1] == [name];
    }
  }

  lemma {:induction false} InTopDirectory(u: Unicode, path: string, x: string, y: string)
    requires Segments(u, path) == [x, y] && Segments(u, "t/") == ["t"]
    ensures ProtectedBy(u, ["t/"], path) <==> x == "t"
  {
    FirstOfPair(x, y, "t");
    assert IsDirPattern("t/") && "t/" in ["t/"];
    assert Protects(u, "t/", path) <==> x == "t";
  }

  lemma {:induction false} OnlyTheTargetIsProtected(u: Unicode)
    requires PlainLetters(u)
    ensures ProtectedBy(u, ["t/"], "t/a") && !ProtectedBy(u, ["t/"], "d/a")
  {
    assert ['t'] + "/" + ['a'] == "t/a" && ['d'] + "/" + ['a'] == "d/a";
    TopDirectory(u);
    TwoLetters(u, 't', 'a');
    TwoLetters(u, 'd', 'a');
    InTopDirectory(u, "t/a", "t", "a");
    InTopDirectory(u, "d/a", "d", "a");
  }

  lemma {:induction false} DetourIsReachable(u: Unicode)
    requires PlainLetters(u)
    ensures Sound(DETOUR) && Reachable(u, DETOUR, ["t/"], "d/a")
    ensures Landed(DETOUR, "d/a") == "t/a" && ProtectedBy(u, ["t/"], "t/a")
  {
    BehindTheLink(u);
    OnlyTheTargetIsProtected(u);
    DetourIsSound();
  }

  lemma {:induction false} StagedAlone(u: Unicode, links: Links, patterns: seq<string>, path: string)
    requires Reachable(u, links, patterns, path)
    ensures !OutOfScope(u, patterns, [path]) && Stageable(u, links, [path]) && Staged(links, [path]) == [Landed(links, path)]
  {
    assert Staged(links, [path])[0] == Landed(links, path);
  }

  /** Such a run: `d` is a link to `t`, `t/` is protected; the loop writes `d/a`, is accepted, reports `d/a`,
      neither gate fires, and what is staged is the protected `t/a`. */
  lemma {:induction false} ProtectedFileIsCommitted(u: Unicode) returns (next: Stepper, turns: seq<Turn>)
    requires PlainLetters(u)
    ensures IsRun(u, DETOUR, ["t/"], Guarded(DETOUR, ["t/"]), next) && turns != []
    ensures Leaves(next, turns, map["t/a" := ""], ["d/a"], true)
    ensures !OutOfScope(u, ["t/"], ["d/a"]) && Stageable(u, DETOUR, ["d/a"])
    ensures Staged(DETOUR, ["d/a"]) == ["t/a"] && ProtectedBy(u, ["t/"], "t/a")
  {
    var links, patterns, path := DETOUR, ["t/"], "d/a";
    DetourIsReachable(u);
    StagedAlone(u, links, patterns, path);
    next, turns := SingleReport(u, links, patterns, path, NO_FAULTS);
  }
}
