/** The coding loop over a clone: take the planner's blocks, gate them, write them, verify, and iterate. */
module CodingLoop {
  import opened Options
  import opened Text
  import opened RepoPaths
  import opened PlannerBlocks
  import opened CloneFiles

  const MAX_ITERATIONS := 25

  /** The settings of a run, the oracles it consults -- the scanners, the encoder, the reader's limits -- and
      the links of its clone. */
  datatype Policy = Policy(critical: string -> bool, bytes: string -> nat, unreadable: string -> bool,
                           protectedPaths: seq<string>, budget: Option<nat>, readPaths: seq<string>, links: Links)

  /** What the outside does in one iteration: the planner's answer, the faults of the file system, and the
      checks, whose verdict depends on the clone they find. */
  datatype Turn = Turn(answer: string, faults: Faults, passes: Files -> bool)

  datatype Gate =
    NoFilesChanged | FileWriteFailed | CriticalFinding | OutOfScopeWrite | WriteBudgetExceeded | VerificationFailed

  datatype Iteration = Iteration(changed: seq<string>, gates: seq<Gate>)

  // ---------------------------------------------------------------------------------------------
  // Gates
  // ---------------------------------------------------------------------------------------------

  ghost predicate ProtectedBy(u: Unicode, patterns: seq<string>, path: string) {
    exists pattern :: pattern in patterns && Protects(u, pattern, path)
  }

  ghost predicate HasCritical(p: Policy, blocks: seq<Block>) {
    exists b :: b in blocks && p.critical(b.body)
  }

  ghost predicate OutOfScope(u: Unicode, patterns: seq<string>, paths: seq<string>) {
    exists path :: path in paths && ProtectedBy(u, patterns, path)
  }

  function TotalBytes(bytes: string -> nat, blocks: seq<Block>): nat {
    if blocks == [] then 0
    else TotalBytes(bytes, blocks[..|blocks| - 1]) + bytes(blocks[|blocks| - 1].body)
  }

  predicate OverBudget(p: Policy, blocks: seq<Block>) {
    p.budget.Some? && TotalBytes(p.bytes, blocks) > p.budget.value
  }

  /** The three reasons to write nothing of an answer at all. */
  datatype Flags = Flags(critical: bool, outOfScope: bool, overBudget: bool) {
    predicate Quarantine() {
      critical || outOfScope || overBudget
    }
  }

  ghost function FlagsOf(u: Unicode, p: Policy, blocks: seq<Block>): Flags {
    Flags(HasCritical(p, blocks), OutOfScope(u, p.protectedPaths, Paths(blocks)), OverBudget(p, blocks))
  }

  /** `decide_real_repo_candidate`: the gates that reject; none means accepted. */
  function Decide(changed: seq<string>, verification: Option<bool>,
                  failed: bool, flags: Flags): (gates: seq<Gate>)
    ensures gates == [] <==> changed != [] && !failed && !flags.Quarantine() && verification != Some(false)
  {
    (if changed == [] && !flags.Quarantine() then [NoFilesChanged] else [])
    + (if failed then [FileWriteFailed] else [])
    + (if flags.critical then [CriticalFinding] else [])
    + (if flags.outOfScope then [OutOfScopeWrite] else [])
    + (if flags.overBudget then [WriteBudgetExceeded] else [])
    + (if verification == Some(false) then [VerificationFailed] else [])
  }

  /** On its own the decision would accept a candidate nobody verified. */
  lemma {:induction false} DecideAloneAcceptsUnverified()
    ensures Decide(["a.py"], None, false, Flags(false, false, false)) == []
  {
  }

  method ScanBlocks(p: Policy, blocks: seq<Block>) returns (critical: bool, total: nat)
    ensures critical <==> HasCritical(p, blocks)
    ensures total == TotalBytes(p.bytes, blocks)
  {
    critical, total := false, 0;
    for i := 0 to |blocks|
      invariant critical <==> exists j :: 0 <= j < i && p.critical(blocks[j].body)
      invariant total == TotalBytes(p.bytes, blocks[..i])
    {
      critical := critical || p.critical(blocks[i].body);
      assert blocks[..i + 1][..i] == blocks[..i];
      total := total + p.bytes(blocks[i].body);
    }
    assert blocks[..|blocks|] == blocks;
  }

  /** The paths under protection among some. */
  method ProtectedOnes(u: Unicode, patterns: seq<string>, paths: seq<string>) returns (hits: seq<string>)
    requires Foldable(u)
    ensures forall path :: path in hits <==> path in paths && ProtectedBy(u, patterns, path)
  {
    hits := [];
    for i := 0 to |paths|
      invariant forall path :: path in hits <==> path in paths[..i] && ProtectedBy(u, patterns, path)
    {
      var hit := MatchesProtectedPath(u, paths[i], patterns);
      assert forall path :: path in paths[..i + 1] <==> path in paths[..i] || path == paths[i];
      if hit {
        hits := hits + [paths[i]];
      }
    }
    assert paths[..|paths|] == paths;
  }

  method CheckBlocks(u: Unicode, p: Policy, blocks: seq<Block>) returns (flags: Flags)
    requires Foldable(u)
    ensures flags == FlagsOf(u, p, blocks)
  {
    var critical, total := ScanBlocks(p, blocks);
    var hits := ProtectedOnes(u, p.protectedPaths, Paths(blocks));
    assert hits != [] ==> hits[0] in hits;
    flags := Flags(critical, hits != [], p.budget.Some? && total > p.budget.value);
  }

  // ---------------------------------------------------------------------------------------------
  // One iteration
  // ---------------------------------------------------------------------------------------------

  /** The clone and the paths this loop has written. */
  datatype State = State(files: Files, ever: set<string>)

  /** An iteration with what it started from, what it had to do with, and what it left.  The paths written
      to are `touched`; those whose write succeeded are `changed`. */
  datatype Step = Step(before: State, blocks: seq<Block>, shown: set<string>, touched: seq<string>,
                       changed: seq<string>, gates: seq<Gate>, verified: Option<bool>, after: State)

  /** The rest of an iteration, once the answer is read and judged: what lands, whether the checks run,
      and the decision. */
  function Conclude(u: Unicode, links: Links, s: State, blocks: seq<Block>, duplicate: bool, shown: set<string>,
                    flags: Flags, turn: Turn): Step {
    StepFrom(s, blocks, duplicate, shown, flags, turn,
             if flags.Quarantine() then Writes(s.files, [], [])
             else WriteAll(u, links, s.files, shown + s.ever, turn.faults, blocks))
  }

  function StepFrom(s: State, blocks: seq<Block>, duplicate: bool, shown: set<string>, flags: Flags, turn: Turn,
                    w: Writes): Step {
    var failed := duplicate || (!flags.Quarantine() && |w.written| < |blocks|);
    var verified := if w.written != [] && !failed then Some(turn.passes(w.files)) else None;
    Step(s, blocks, shown, w.touched, w.written, Decide(w.written, verified, failed, flags), verified,
         State(w.files, s.ever + set path | path in w.written))
  }

  /** The blocks an answer proposes; an answer with two for one destination proposes none. */
  ghost function BlocksOf(u: Unicode, answer: string): seq<Block> {
    if Parse(u, answer).Files? then Parse(u, answer).files else []
  }

  ghost function StepOf(u: Unicode, p: Policy, s: State, turn: Turn): Step {
    var blocks := BlocksOf(u, turn.answer);
    Conclude(u, p.links, s, blocks, Parse(u, turn.answer).Duplicate?,
             Shown(Render(p.links, s.files, p.unreadable, p.readPaths)), FlagsOf(u, p, blocks), turn)
  }

  method ReadAnswer(u: Unicode, answer: string) returns (blocks: seq<Block>, duplicate: bool)
    ensures duplicate == Parse(u, answer).Duplicate?
    ensures blocks == BlocksOf(u, answer) && WellFormed(blocks)
  {
    var parsed := ParseFileBlocks(u, answer);
    match parsed
    case Duplicate => blocks, duplicate := [], true;
    case Files(files) =>
      ParsedWellFormed(u, answer);
      blocks, duplicate := files, false;
  }

  method Finish(u: Unicode, tools: Workspace, ever: set<string>, blocks: seq<Block>, duplicate: bool, shown: set<string>,
                flags: Flags, turn: Turn)
    returns (iteration: Iteration, ever': set<string>)
    modifies tools`files
    ensures var step := Conclude(u, tools.links, State(old(tools.files), ever), blocks, duplicate, shown, flags, turn);
            && iteration == Iteration(step.changed, step.gates)
            && State(tools.files, ever') == step.after
  {
    var written: seq<string> := [];
    var failed := duplicate;
    if !flags.Quarantine() {
      var refusals;
      written, refusals := WriteBlocks(u, tools, shown, ever, turn.faults, blocks);
      failed := failed || refusals;
    }
    ever' := ever + set path | path in written;
    var verification := None;
    if written != [] && !failed && !flags.Quarantine() {
      verification := Some(turn.passes(tools.files));
    }
    iteration := Iteration(written, Decide(written, verification, failed, flags));
  }

  type Stepper = (State, Turn) -> Step

  /** The steps of a run under a policy are those of the loop: `next` is a name for `StepOf` at this policy.
      There is exactly one such function for every policy. */
  ghost predicate IsLoop(u: Unicode, p: Policy, next: Stepper) {
    forall s, turn {:trigger StepOf(u, p, s, turn)} :: next(s, turn) == StepOf(u, p, s, turn)
  }

  lemma {:induction false} LoopOf(u: Unicode, p: Policy) returns (next: Stepper)
    ensures IsLoop(u, p, next)
  {
    next := (s, turn) => StepOf(u, p, s, turn);
  }

  /** One pass of the loop. */
  method Iterate(u: Unicode, p: Policy, ghost next: Stepper, tools: Workspace, ever: set<string>, turn: Turn)
    returns (iteration: Iteration, ever': set<string>)
    requires Foldable(u) && IsLoop(u, p, next) && tools.links == p.links
    modifies tools`files
    ensures var step := next(State(old(tools.files), ever), turn);
            && iteration == Iteration(step.changed, step.gates)
            && State(tools.files, ever') == step.after
  {
    ghost var step := StepOf(u, p, State(tools.files, ever), turn);
    var _, shown := RenderExistingFiles(p.unreadable, p.readPaths, tools);
    var blocks, duplicate := ReadAnswer(u, turn.answer);
    var flags := CheckBlocks(u, p, blocks);
    iteration, ever' := Finish(u, tools, ever, blocks, duplicate, shown, flags, turn);
  }

  // ---------------------------------------------------------------------------------------------
  // The loop
  // ---------------------------------------------------------------------------------------------

  /** The steps of a run: until one is accepted or the turns are used up. */
  ghost function Trace(next: Stepper, s: State, turns: seq<Turn>): seq<Step>
    decreases |turns|
  {
    if turns == [] then []
    else
      var step := next(s, turns[0]);
      [step] + if step.gates == [] then [] else Trace(next, step.after, turns[1..])
  }

  ghost function Iterations(steps: seq<Step>): (iterations: seq<Iteration>)
    ensures |iterations| == |steps|
    ensures forall i :: 0 <= i < |steps| ==> iterations[i] == Iteration(steps[i].changed, steps[i].gates)
  {
    if steps == [] then []
    else
      var last := steps[|steps| - 1];
      Iterations(steps[..|steps| - 1]) + [Iteration(last.changed, last.gates)]
  }

  /** What the caller asks for, as far as it is checked up front. */
  datatype Request = Request(writesAllowed: bool, reason: string, confirm: bool, instruction: string,
                             maxIterations: int, maxTokens: int, checks: nat)

  predicate Permitted(r: Request) {
    r.writesAllowed && Strip(r.reason) != "" && r.confirm
  }

  predicate Valid(r: Request) {
    Strip(r.instruction) != "" && 0 < r.maxIterations <= MAX_ITERATIONS && r.maxTokens > 0 && r.checks > 0
  }

  datatype Outcome = Refused | Invalid | Finished(accepted: bool, iterations: seq<Iteration>)

  /** The loop has made some steps, none accepted, and stands at a state the rest of the run starts from. */
  ghost predicate Reached(next: Stepper, init: State, turns: seq<Turn>, steps: seq<Step>, now: State) {
    && |steps| <= |turns|
    && Trace(next, init, turns) == steps + Trace(next, now, turns[|steps|..])
    && (steps != [] ==> steps[|steps| - 1].gates != [] && steps[|steps| - 1].after == now)
  }

  lemma {:induction false} OneIteration(steps: seq<Step>, step: Step)
    ensures Iterations(steps + [step]) == Iterations(steps) + [Iteration(step.changed, step.gates)]
  {
    assert (steps + [step])[..|steps|] == steps;
  }

  /** The rest of a run after one more step. */
  ghost function RestOf(next: Stepper, step: Step, turns: seq<Turn>): seq<Step> {
    if step.gates == [] then [] else Trace(next, step.after, turns)
  }

  lemma {:induction false} TraceStep(next: Stepper, s: State, turns: seq<Turn>, i: nat)
    requires i < |turns|
    ensures Trace(next, s, turns[i..]) == [next(s, turns[i])] + RestOf(next, next(s, turns[i]), turns[i + 1..])
  {
    assert turns[i..][1..] == turns[i + 1..];
  }

  lemma {:induction false} Shift<T>(all: seq<T>, front: seq<T>, x: T, rest: seq<T>)
    requires all == front + ([x] + rest)
    ensures all == (front + [x]) + rest && (rest == [] ==> all == front + [x])
  {
  }

  lemma {:induction false} Advance(next: Stepper, init: State, turns: seq<Turn>, steps: seq<Step>, now: State, step: Step)
    requires Reached(next, init, turns, steps, now) && |steps| < |turns| && step == next(now, turns[|steps|])
    ensures if step.gates == [] then Trace(next, init, turns) == steps + [step]
            else Reached(next, init, turns, steps + [step], step.after)
  {
    TraceStep(next, now, turns, |steps|);
    Shift(Trace(next, init, turns), steps, step, RestOf(next, step, turns[|steps| + 1..]));
  }

  /** The outcome of a run: its iterations, whether the last was accepted, and the clone it leaves. */
  ghost predicate Ran(next: Stepper, files: Files, turns: seq<Turn>,
                      accepted: bool, iterations: seq<Iteration>, now: Files) {
    var steps := Trace(next, State(files, {}), turns);
    && steps != []
    && iterations == Iterations(steps)
    && accepted == (steps[|steps| - 1].gates == [])
    && now == steps[|steps| - 1].after.files
  }

  lemma {:induction false} Exhausted(next: Stepper, files: Files, turns: seq<Turn>, steps: seq<Step>, now: State)
    requires Reached(next, State(files, {}), turns, steps, now) && |steps| == |turns| && turns != []
    ensures Ran(next, files, turns, false, Iterations(steps), now.files)
  {
    assert Trace(next, now, turns[|steps|..]) == [];
    assert steps + [] == steps;
  }

  method RunIterations(u: Unicode, p: Policy, ghost next: Stepper, tools: Workspace, turns: seq<Turn>)
    returns (accepted: bool, iterations: seq<Iteration>)
    requires Foldable(u) && IsLoop(u, p, next) && tools.links == p.links && turns != []
    modifies tools`files
    ensures Ran(next, old(tools.files), turns, accepted, iterations, tools.files)
  {
    iterations := [];
    var ever: set<string> := {};
    ghost var files := tools.files;
    ghost var steps: seq<Step> := [];
    assert Reached(next, State(files, {}), turns, steps, State(tools.files, ever)) by {
      assert turns[0..] == turns;
    }
    for i := 0 to |turns|
      invariant |steps| == i && iterations == Iterations(steps)
      invariant Reached(next, State(files, {}), turns, steps, State(tools.files, ever))
    {
      ghost var now := State(tools.files, ever);
      ghost var step := next(now, turns[i]);
      var iteration;
      iteration, ever := Iterate(u, p, next, tools, ever, turns[i]);
      Advance(next, State(files, {}), turns, steps, now, step);
      OneIteration(steps, step);
      iterations, steps := iterations + [iteration], steps + [step];
      if iteration.gates == [] {
        return true, iterations;
      }
    }
    Exhausted(next, files, turns, steps, State(tools.files, ever));
    accepted := false;
  }

  /** `run_real_repo_loop`: the turns stand for the outside, one for each iteration it is given. */
  method RunRealRepoLoop(u: Unicode, r: Request, p: Policy, ghost next: Stepper, tools: Workspace, turns: seq<Turn>)
    returns (o: Outcome)
    requires Foldable(u) && IsLoop(u, p, next) && tools.links == p.links
    requires r.maxIterations > 0 ==> |turns| == r.maxIterations
    modifies tools`files
    ensures o.Refused? <==> !(r.writesAllowed && Strip(r.reason) != "" && r.confirm)
    ensures o.Invalid? <==> && r.writesAllowed && Strip(r.reason) != "" && r.confirm
                            && !(Strip(r.instruction) != "" && 1 <= r.maxIterations <= 25 && r.maxTokens > 0 && r.checks > 0)
    ensures !o.Finished? ==> tools.files == old(tools.files)
    ensures o.Finished? ==> Ran(next, old(tools.files), turns, o.accepted, o.iterations, tools.files)
  {
    if !Permitted(r) {
      return Refused;
    }
    if !Valid(r) {
      return Invalid;
    }
    var accepted, iterations := RunIterations(u, p, next, tools, turns);
    o := Finished(accepted, iterations);
  }

  // ---------------------------------------------------------------------------------------------
  // What one iteration does
  // ---------------------------------------------------------------------------------------------

  /** What one iteration keeps. */
  ghost predicate Keeps(u: Unicode, links: Links, s: State, turn: Turn, step: Step) {
    && step.before == s
    && (forall path :: path in step.touched ==>
          path in Paths(step.blocks) && Touches(u, links, s.files, step.shown + s.ever, turn.faults, path))
    && AsSet(step.changed) == AsSet(step.touched) - turn.faults.torn.Keys
    && step.after.ever == s.ever + AsSet(step.changed)
    && ChangedOnly(s.files, step.after.files, Landings(links, AsSet(step.touched)))
  }

  lemma {:induction false} ConcludeKeeps(u: Unicode, links: Links, s: State, blocks: seq<Block>, duplicate: bool,
                                         shown: set<string>, flags: Flags, turn: Turn)
    ensures Keeps(u, links, s, turn, Conclude(u, links, s, blocks, duplicate, shown, flags, turn))
  {
    if flags.Quarantine() {
      assert Landings(links, AsSet([])) == {};
    } else {
      WriteAllKeeps(u, links, s.files, shown + s.ever, turn.faults, blocks);
    }
  }

  /** An iteration starts where it is told to.  The paths it writes to, successfully or not, are proposed and
      passed the writer's checks, each replacing only what the reader does not see, what was shown, or what
      the loop wrote before; the paths ever written grow by the successful ones; and only the files on which
      the paths written to land change. */
  lemma {:induction false} StepKeeps(u: Unicode, p: Policy, s: State, turn: Turn)
    ensures Keeps(u, p.links, s, turn, StepOf(u, p, s, turn))
  {
    var blocks := BlocksOf(u, turn.answer);
    ConcludeKeeps(u, p.links, s, blocks, Parse(u, turn.answer).Duplicate?,
                  Shown(Render(p.links, s.files, p.unreadable, p.readPaths)), FlagsOf(u, p, blocks), turn);
  }

  lemma {:induction false} InPaths(blocks: seq<Block>, path: string) returns (b: Block)
    requires path in Paths(blocks)
    ensures b in blocks && b.path == path
  {
    var i :| 0 <= i < |blocks| && Paths(blocks)[i] == path;
    b := blocks[i];
  }

  lemma {:induction false} ProposedIsNameable(u: Unicode, answer: string, path: string)
    requires path in Paths(BlocksOf(u, answer)) && Canonical(path).Some?
    ensures Nameable(path)
  {
    var b := InPaths(BlocksOf(u, answer), path);
    ParsedWellFormed(u, answer);
    ParsedIsNameable(u, answer, b);
  }

  lemma {:induction false} QuarantineIsIdle(u: Unicode, links: Links, s: State, blocks: seq<Block>, duplicate: bool,
                                            shown: set<string>, flags: Flags, turn: Turn)
    requires flags.Quarantine()
    ensures var step := Conclude(u, links, s, blocks, duplicate, shown, flags, turn);
            step.touched == [] && step.changed == [] && step.after.files == s.files
  {
  }

  /** The names an iteration writes to are names an answer can give, and none is protected. */
  lemma {:induction false} StepWrites(u: Unicode, p: Policy, s: State, turn: Turn, path: string)
    requires path in StepOf(u, p, s, turn).touched
    ensures Nameable(path) && !ProtectedBy(u, p.protectedPaths, path)
  {
    var blocks := BlocksOf(u, turn.answer);
    StepKeeps(u, p, s, turn);
    ProposedIsNameable(u, turn.answer, path);
    if FlagsOf(u, p, blocks).Quarantine() {
      QuarantineIsIdle(u, p.links, s, blocks, Parse(u, turn.answer).Duplicate?,
                       Shown(Render(p.links, s.files, p.unreadable, p.readPaths)), FlagsOf(u, p, blocks), turn);
    }
  }

  lemma {:induction false} ConcludeAccepts(u: Unicode, links: Links, s: State, blocks: seq<Block>, duplicate: bool,
                                           shown: set<string>, flags: Flags, turn: Turn)
    ensures var step := Conclude(u, links, s, blocks, duplicate, shown, flags, turn);
            step.gates == [] <==>
            && !duplicate && blocks != [] && !flags.Quarantine()
            && step.changed == Paths(blocks) && turn.passes(step.after.files)
  {
    if !flags.Quarantine() {
      WriteAllKeeps(u, links, s.files, shown + s.ever, turn.faults, blocks);
    }
  }

  /** Accepted means: the answer parsed and proposed something, nothing was quarantined, every block was
      written, and the checks passed on the clone as those writes left it. */
  lemma {:induction false} AcceptedStep(u: Unicode, p: Policy, s: State, turn: Turn)
    ensures var step := StepOf(u, p, s, turn);
            step.gates == [] <==>
            && Parse(u, turn.answer).Files? && step.blocks != []
            && !FlagsOf(u, p, step.blocks).Quarantine()
            && step.changed == Paths(step.blocks)
            && turn.passes(step.after.files)
  {
    var blocks := BlocksOf(u, turn.answer);
    ConcludeAccepts(u, p.links, s, blocks, Parse(u, turn.answer).Duplicate?,
                    Shown(Render(p.links, s.files, p.unreadable, p.readPaths)), FlagsOf(u, p, blocks), turn);
  }

  // ---------------------------------------------------------------------------------------------
  // When each gate fires
  // ---------------------------------------------------------------------------------------------

  /** The weight of the proposed contents: nothing weighs nothing, and each content weighs what it has in
      bytes, wherever it stands. */
  lemma {:induction false} WeightAdds(bytes: string -> nat, front: seq<Block>, b: Block, back: seq<Block>)
    ensures TotalBytes(bytes, []) == 0
    ensures TotalBytes(bytes, front + [b] + back) == TotalBytes(bytes, front + back) + bytes(b.body)
    decreases |back|
  {
    if back == [] {
      assert front + [b] + back == front + [b] && (front + [b])[..|front|] == front && front + back == front;
    } else {
      var n := |back| - 1;
      WeightAdds(bytes, front, b, back[..n]);
      assert (front + [b] + back)[..|front| + 1 + n] == front + [b] + back[..n];
      assert (front + back)[..|front| + n] == front + back[..n];
    }
  }

  /** The three reasons to write nothing, as a policy states them: a critical content, a protected path, more
      bytes than the budget. */
  ghost predicate Critical(p: Policy, blocks: seq<Block>) {
    exists i :: 0 <= i < |blocks| && p.critical(blocks[i].body)
  }

  ghost predicate Protected(u: Unicode, p: Policy, blocks: seq<Block>) {
    exists i, pattern :: 0 <= i < |blocks| && pattern in p.protectedPaths && Protects(u, pattern, blocks[i].path)
  }

  ghost predicate TooHeavy(p: Policy, blocks: seq<Block>) {
    match p.budget
    case None => false
    case Some(most) => TotalBytes(p.bytes, blocks) > most
  }

  lemma {:induction false} FlagsAreExact(u: Unicode, p: Policy, blocks: seq<Block>)
    ensures FlagsOf(u, p, blocks) == Flags(Critical(p, blocks), Protected(u, p, blocks), TooHeavy(p, blocks))
  {
    var flags := FlagsOf(u, p, blocks);
    if flags.critical {
      var b :| b in blocks && p.critical(b.body);
      var i :| 0 <= i < |blocks| && blocks[i] == b;
      assert p.critical(blocks[i].body);
    }
    if Protected(u, p, blocks) {
      var i, pattern :| 0 <= i < |blocks| && pattern in p.protectedPaths && Protects(u, pattern, blocks[i].path);
      assert Paths(blocks)[i] in Paths(blocks);
      assert ProtectedBy(u, p.protectedPaths, Paths(blocks)[i]);
    }
    if flags.outOfScope {
      OutOfScopeIsProtected(u, p, blocks);
    }
  }

  lemma {:induction false} OutOfScopeIsProtected(u: Unicode, p: Policy, blocks: seq<Block>)
    requires OutOfScope(u, p.protectedPaths, Paths(blocks))
    ensures Protected(u, p, blocks)
  {
    var path :| path in Paths(blocks) && ProtectedBy(u, p.protectedPaths, path);
    var i :| 0 <= i < |blocks| && Paths(blocks)[i] == path;
    var pattern :| pattern in p.protectedPaths && Protects(u, pattern, path);
    assert Protects(u, pattern, blocks[i].path);
  }

  /** The checks have their say: something was written, and everything that was proposed. */
  ghost predicate Judged(u: Unicode, step: Step, turn: Turn) {
    Parse(u, turn.answer).Files? && step.blocks != [] && step.changed == Paths(step.blocks)
  }

  /** The gates of an iteration, one by one. */
  ghost predicate GatesFire(u: Unicode, p: Policy, turn: Turn, step: Step) {
    var critical, guarded, heavy := Critical(p, step.blocks), Protected(u, p, step.blocks), TooHeavy(p, step.blocks);
    var quarantine := critical || guarded || heavy;
    && (CriticalFinding in step.gates <==> critical)
    && (OutOfScopeWrite in step.gates <==> guarded)
    && (WriteBudgetExceeded in step.gates <==> heavy)
    && (quarantine ==> step.touched == [] && step.changed == [] && step.after == step.before && step.verified.None?)
    && (NoFilesChanged in step.gates <==> !quarantine && step.changed == [])
    && (FileWriteFailed in step.gates <==>
          Parse(u, turn.answer).Duplicate? || (!quarantine && step.changed != Paths(step.blocks)))
    && (VerificationFailed in step.gates <==> Judged(u, step, turn) && !turn.passes(step.after.files))
    && (step.verified.Some? <==> Judged(u, step, turn))
  }

  lemma {:induction false} QuarantineGates(changed: seq<string>, verification: Option<bool>, failed: bool, flags: Flags)
    ensures var gates := Decide(changed, verification, failed, flags);
            && (CriticalFinding in gates <==> flags.critical)
            && (OutOfScopeWrite in gates <==> flags.outOfScope)
            && (WriteBudgetExceeded in gates <==> flags.overBudget)
  {
  }

  lemma {:induction false} FileGates(changed: seq<string>, verification: Option<bool>, failed: bool, flags: Flags)
    ensures var gates := Decide(changed, verification, failed, flags);
            && (NoFilesChanged in gates <==> changed == [] && !flags.Quarantine())
            && (FileWriteFailed in gates <==> failed)
  {
  }

  lemma {:induction false} VerificationGate(changed: seq<string>, verification: Option<bool>, failed: bool, flags: Flags)
    ensures VerificationFailed in Decide(changed, verification, failed, flags) <==> verification == Some(false)
  {
  }

  lemma {:induction false} QuarantineFires(u: Unicode, links: Links, s: State, blocks: seq<Block>, duplicate: bool,
                                           shown: set<string>, flags: Flags, turn: Turn)
    requires flags.Quarantine()
    ensures var step := Conclude(u, links, s, blocks, duplicate, shown, flags, turn);
            step.after == s && step.verified.None? && step.gates == Decide([], None, duplicate, flags)
  {
    assert s.ever + (set path | path in []) == s.ever;
  }

  lemma {:induction false} WritingFires(u: Unicode, links: Links, s: State, blocks: seq<Block>, duplicate: bool,
                                        shown: set<string>, flags: Flags, turn: Turn)
    requires !flags.Quarantine() && (duplicate ==> blocks == [])
    ensures var step := Conclude(u, links, s, blocks, duplicate, shown, flags, turn);
            var failed := duplicate || step.changed != Paths(blocks);
            && step.gates == Decide(step.changed, step.verified, failed, flags)
            && step.verified == (if blocks != [] && !failed then Some(turn.passes(step.after.files)) else None)
  {
    WriteAllKeeps(u, links, s.files, shown + s.ever, turn.faults, blocks);
  }

  /** Every gate fires exactly when its reason is there, in every iteration.  A critical content, a protected
      path or too many bytes keep everything from being written; a write that fails or two blocks for one
      destination are a failure; and the checks run exactly when everything proposed was written. */
  lemma {:induction false} GatesAreExact(u: Unicode, p: Policy, s: State, turn: Turn)
    ensures GatesFire(u, p, turn, StepOf(u, p, s, turn))
  {
    var blocks, duplicate := BlocksOf(u, turn.answer), Parse(u, turn.answer).Duplicate?;
    var shown, flags := Shown(Render(p.links, s.files, p.unreadable, p.readPaths)), FlagsOf(u, p, blocks);
    var step := StepOf(u, p, s, turn);
    FlagsAreExact(u, p, blocks);
    if flags.Quarantine() {
      QuarantineIsIdle(u, p.links, s, blocks, duplicate, shown, flags, turn);
      QuarantineFires(u, p.links, s, blocks, duplicate, shown, flags, turn);
      QuarantineGates([], None, duplicate, flags);
      FileGates([], None, duplicate, flags);
      VerificationGate([], None, duplicate, flags);
      StepKeeps(u, p, s, turn);
    } else {
      WritingFires(u, p.links, s, blocks, duplicate, shown, flags, turn);
      QuarantineGates(step.changed, step.verified, duplicate || step.changed != Paths(blocks), flags);
      FileGates(step.changed, step.verified, duplicate || step.changed != Paths(blocks), flags);
      VerificationGate(step.changed, step.verified, duplicate || step.changed != Paths(blocks), flags);
    }
  }

  /** A good answer gets through: parsed, without anything that quarantines it, its blocks independent and none
      of their writes failing, all of it is written as proposed, and it is accepted if and only if the checks
      pass on the clone with it. */
  lemma {:induction false} GoodAnswerIsWritten(u: Unicode, p: Policy, s: State, turn: Turn)
    requires Sound(p.links) && Parse(u, turn.answer).Files?
    requires var step := StepOf(u, p, s, turn);
             && step.blocks != [] && !Critical(p, step.blocks) && !Protected(u, p, step.blocks) && !TooHeavy(p, step.blocks)
             && Independent(u, p.links, s.files, step.shown + s.ever, turn.faults, step.blocks)
    ensures var step := StepOf(u, p, s, turn);
            && AllLanded(p.links, s.files, step.blocks, Writes(step.after.files, step.touched, step.changed))
            && step.after.ever == s.ever + AsSet(Paths(step.blocks))
            && (step.gates == [] <==> turn.passes(step.after.files))
  {
    var step := StepOf(u, p, s, turn);
    FlagsAreExact(u, p, step.blocks);
    IndependentBlocksLand(u, p.links, s.files, step.shown + s.ever, turn.faults, step.blocks);
    AcceptedStep(u, p, s, turn);
    StepKeeps(u, p, s, turn);
    assert step.changed == Paths(step.blocks);
  }

  // ---------------------------------------------------------------------------------------------
  // How the steps of a run hang together
  // ---------------------------------------------------------------------------------------------

  /** Each step starts where the one before it ended, only the last can be accepted, and a run goes on until
      one is or the turns are used up. */
  lemma {:induction false} TraceChains(next: Stepper, s: State, turns: seq<Turn>)
    requires forall s', turn :: next(s', turn).before == s'
    ensures var t := Trace(next, s, turns);
            && |t| <= |turns| && (t == [] <==> turns == [])
            && (t != [] ==> t[0].before == s)
            && (forall i :: 0 <= i < |t| ==> t[i] == next(t[i].before, turns[i]))
            && (forall i :: 0 < i < |t| ==> t[i].before == t[i - 1].after)
            && (forall i :: 0 <= i < |t| - 1 ==> t[i].gates != [])
            && (|t| < |turns| ==> t != [] && t[|t| - 1].gates == [])
    decreases |turns|
  {
    if turns != [] {
      TraceChains(next, next(s, turns[0]).after, turns[1..]);
    }
  }

  lemma {:induction false} StartsWhereItIs(u: Unicode, p: Policy, next: Stepper)
    requires IsLoop(u, p, next)
    ensures forall s, turn :: next(s, turn).before == s
  {
    forall s, turn
      ensures next(s, turn).before == s
    {
      assert next(s, turn) == StepOf(u, p, s, turn);
      StepKeeps(u, p, s, turn);
    }
  }

  lemma {:induction false} TwoSteps(next: Stepper, s: State, first: Turn, second: Turn)
    requires next(s, first).gates != []
    ensures Trace(next, s, [first, second]) == [next(s, first), next(next(s, first).after, second)]
  {
    var s1 := next(s, first).after;
    assert [first, second][1..] == [second] && [second][1..] == [];
    assert Trace(next, s1, [second]) == [next(s1, second)];
  }

  lemma {:induction false} OneStep(next: Stepper, s: State, turn: Turn)
    ensures Trace(next, s, [turn]) == [next(s, turn)]
  {
    assert [turn][1..] == [];
    assert [next(s, turn)] + [] == [next(s, turn)];
  }
}
