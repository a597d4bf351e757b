/** The write planner and executor: every gate checked twice, the command rebuilt, one attempt. */
module PrWriter {
  import opened Options
  import opened Text

  /** The live configuration; `armed` is the shipped execution flag and the absence of the kill switch. */
  datatype Config = Config(enabled: bool, writeMode: bool, writesEnabled: bool, repo: string, armed: bool,
                           branchOk: string -> bool)

  /** `number` is there when the caller's value is an integer. */
  datatype Params = Params(number: Option<string>, head: string, base: string, title: string, body: string)

  datatype Plan = Plan(op: string, repo: string, reason: string, params: Params, wouldRun: Option<seq<string>>)

  datatype Gate =
    Enabled | Mode | WritesEnabled | Reason | Confirm | ExecutionEnabled | ExecutableOp | RepoMatch | PlanIntegrity

  datatype Verdict = Pass | Refuse(gate: Gate) | Unknown

  datatype Planned = PlanReady(plan: Plan) | PlanRefused(gate: Gate) | PlanFailed

  /** What `gh` does when it is started: it may or may not have created the pull request. */
  datatype Ending = TimedOut(effect: bool) | Exited(code: int, stdout: string, effect: bool)

  datatype Gh = Gh(binary: Option<string>, ending: Ending)

  datatype Outcome = Refused(gate: Gate) | Failed | Indeterminate | Executed(stdout: string)

  /** The outcome of an execution and the command that was started, if one was. */
  datatype Execution = Execution(outcome: Outcome, ran: Option<seq<string>>)

  const WRITE_OPS: set<string> := {"pr_comment", "issue_comment", "pr_create"}

  /** `_require_gates`. */
  function RequireGates(cfg: Config, op: string, reason: string, confirm: bool): Verdict {
    if !cfg.enabled then Refuse(Enabled)
    else if op !in WRITE_OPS then Unknown
    else if !cfg.writeMode then Refuse(Mode)
    else if !cfg.writesEnabled then Refuse(WritesEnabled)
    else if Strip(reason) == "" then Refuse(Reason)
    else if !confirm then Refuse(Confirm)
    else Pass
  }

  /** `_build_write_argv`. */
  function BuildArgv(cfg: Config, op: string, params: Params, gh: string): Option<seq<string>> {
    match op
    case "pr_comment" =>
      if params.number.None? then None
      else Some([gh, "pr", "comment", params.number.value, "--repo", cfg.repo, "--body", params.body])
    case "issue_comment" =>
      if params.number.None? then None
      else Some([gh, "issue", "comment", params.number.value, "--repo", cfg.repo, "--body", params.body])
    case "pr_create" =>
      if !cfg.branchOk(params.head) then None
      else Some([gh, "pr", "create", "--repo", cfg.repo, "--head", params.head, "--base", params.base,
                 "--title", params.title, "--body", params.body, "--draft"])
    case _ => None
  }

  function PlanWrite(cfg: Config, op: string, reason: string, confirm: bool, params: Params): Planned {
    match RequireGates(cfg, op, reason, confirm)
    case Refuse(gate) => PlanRefused(gate)
    case Unknown => PlanFailed
    case Pass =>
      match BuildArgv(cfg, op, params, "gh")
      case None => PlanFailed
      case Some(argv) => PlanReady(Plan(op, cfg.repo, reason, params, Some(argv)))
  }

  function Tail(argv: seq<string>): seq<string> {
    if argv == [] then [] else argv[1..]
  }

  /** `execute_write`. */
  function ExecuteWrite(plan: Plan, cfg: Config, confirm: bool, gh: Gh): Execution {
    if !cfg.armed then Execution(Refused(ExecutionEnabled), None)
    else
      match RequireGates(cfg, plan.op, plan.reason, confirm)
      case Refuse(gate) => Execution(Refused(gate), None)
      case Unknown => Execution(Failed, None)
      case Pass =>
        if plan.op != "pr_create" then Execution(Refused(ExecutableOp), None)
        else if plan.repo != cfg.repo then Execution(Refused(RepoMatch), None)
        else
          match BuildArgv(cfg, plan.op, plan.params, "gh")
          case None => Execution(Failed, None)
          case Some(argv) =>
            if plan.wouldRun.Some? && Tail(plan.wouldRun.value) != Tail(argv) then
              Execution(Refused(PlanIntegrity), None)
            else if gh.binary.None? then Execution(Failed, None)
            else Execution(Attempt(gh.ending), Some([gh.binary.value] + argv[1..]))
  }

  /** The one attempt: a timeout is neither success nor failure. */
  function Attempt(ending: Ending): Outcome {
    match ending
    case TimedOut(_) => Indeterminate
    case Exited(code, stdout, _) => if code != 0 then Failed else Executed(Strip(stdout))
  }

  /** All that has to hold before anything is started. */
  ghost predicate Cleared(plan: Plan, cfg: Config, confirm: bool) {
    && cfg.armed && cfg.enabled && cfg.writeMode && cfg.writesEnabled
    && Strip(plan.reason) != "" && confirm
    && plan.op == "pr_create" && plan.repo == cfg.repo && cfg.branchOk(plan.params.head)
  }

  /** The command a cleared plan stands for: a draft pull request in the configured repository. */
  function DraftPr(binary: string, cfg: Config, params: Params): seq<string> {
    [binary, "pr", "create", "--repo", cfg.repo, "--head", params.head, "--base", params.base,
     "--title", params.title, "--body", params.body, "--draft"]
  }

  /** The same command, whatever program is to run it. */
  ghost predicate SameCommand(a: seq<string>, b: seq<string>) {
    a != [] && b != [] && a[1..] == b[1..]
  }

  /** Something is started exactly when every gate passes on the live configuration and the plan's own
      command, if it carries one, is the rebuilt one; and what is started is the rebuilt command, whatever
      the plan says. */
  lemma {:induction false} OnlyTheRebuiltCommandRuns(plan: Plan, cfg: Config, confirm: bool, gh: Gh)
    ensures var e := ExecuteWrite(plan, cfg, confirm, gh);
            && (e.ran.Some? <==>
                && Cleared(plan, cfg, confirm) && gh.binary.Some?
                && (plan.wouldRun.Some? ==> SameCommand(plan.wouldRun.value, DraftPr("gh", cfg, plan.params))))
            && (e.ran.Some? ==> e.ran.value == DraftPr(gh.binary.value, cfg, plan.params) && e.outcome == Attempt(gh.ending))
            && (e.outcome.Indeterminate? || e.outcome.Executed? ==> e.ran.Some?)
  {
    if Cleared(plan, cfg, confirm) {
      assert BuildArgv(cfg, "pr_create", plan.params, "gh") == Some(DraftPr("gh", cfg, plan.params));
      if gh.binary.Some? {
        assert [gh.binary.value] + DraftPr("gh", cfg, plan.params)[1..] == DraftPr(gh.binary.value, cfg, plan.params);
      }
    }
  }

  /** The first gate that is not passed, in the order they are tried: the layer, then for a known operation
      the mode, the write flag, the reason and the confirmation. */
  ghost predicate StoppedAt(cfg: Config, op: string, reason: string, confirm: bool, gate: Gate) {
    match gate
    case Enabled => !cfg.enabled
    case Mode => cfg.enabled && op in WRITE_OPS && !cfg.writeMode
    case WritesEnabled => cfg.enabled && op in WRITE_OPS && cfg.writeMode && !cfg.writesEnabled
    case Reason => cfg.enabled && op in WRITE_OPS && cfg.writeMode && cfg.writesEnabled && Strip(reason) == ""
    case Confirm => cfg.enabled && op in WRITE_OPS && cfg.writeMode && cfg.writesEnabled && Strip(reason) != "" && !confirm
    case _ => false
  }

  /** The command of each operation; commenting needs a number, a pull request a branch name in order. */
  ghost predicate Commands(cfg: Config, op: string, params: Params, argv: seq<string>) {
    match op
    case "pr_comment" =>
      params.number.Some? && argv == ["gh", "pr", "comment", params.number.value, "--repo", cfg.repo, "--body", params.body]
    case "issue_comment" =>
      params.number.Some? && argv == ["gh", "issue", "comment", params.number.value, "--repo", cfg.repo, "--body", params.body]
    case "pr_create" => cfg.branchOk(params.head) && argv == DraftPr("gh", cfg, params)
    case _ => false
  }

  /** A plan is refused exactly at the first gate that is not passed, is ready exactly when all are and the
      operation has a command, and then carries that command and the live repository. */
  lemma {:induction false} PlanIsExact(cfg: Config, op: string, reason: string, confirm: bool, params: Params)
    ensures var planned := PlanWrite(cfg, op, reason, confirm, params);
            && (forall gate :: planned == PlanRefused(gate) <==> StoppedAt(cfg, op, reason, confirm, gate))
            && (planned.PlanReady? <==>
                && cfg.enabled && cfg.writeMode && cfg.writesEnabled && Strip(reason) != "" && confirm
                && exists argv :: Commands(cfg, op, params, argv))
            && (planned.PlanReady? ==>
                  && planned.plan.wouldRun.Some? && Commands(cfg, op, params, planned.plan.wouldRun.value)
                  && planned.plan == Plan(op, cfg.repo, reason, params, planned.plan.wouldRun))
  {
    var planned := PlanWrite(cfg, op, reason, confirm, params);
    if planned.PlanReady? {
      assert Commands(cfg, op, params, planned.plan.wouldRun.value);
    }
  }

  /** The executor refuses exactly at the first of its gates that is not passed: the execution flag, those of
      the planner again, the one operation it executes, the repository, and the plan's own command. */
  lemma {:induction false} ExecutorGates(plan: Plan, cfg: Config, confirm: bool, gh: Gh, gate: Gate)
    ensures var past := forall g :: !StoppedAt(cfg, plan.op, plan.reason, confirm, g);
            ExecuteWrite(plan, cfg, confirm, gh).outcome == Refused(gate) <==>
            match gate
            case ExecutionEnabled => !cfg.armed
            case ExecutableOp => cfg.armed && past && plan.op in WRITE_OPS && plan.op != "pr_create"
            case RepoMatch => cfg.armed && past && plan.op == "pr_create" && plan.repo != cfg.repo
            case PlanIntegrity =>
              && cfg.armed && past && plan.op == "pr_create" && plan.repo == cfg.repo && cfg.branchOk(plan.params.head)
              && plan.wouldRun.Some? && !SameCommand(plan.wouldRun.value, DraftPr("gh", cfg, plan.params))
            case _ => cfg.armed && StoppedAt(cfg, plan.op, plan.reason, confirm, gate)
  {
    var v := RequireGates(cfg, plan.op, plan.reason, confirm);
    if v.Refuse? {
      assert StoppedAt(cfg, plan.op, plan.reason, confirm, v.gate);
    }
    assert plan.op == "pr_create" && cfg.branchOk(plan.params.head) ==>
             BuildArgv(cfg, plan.op, plan.params, "gh") == Some(DraftPr("gh", cfg, plan.params));
  }

  /** A plan made under the same configuration passes the integrity gates of the executor. */
  lemma {:induction false} PlanThenExecute(cfg: Config, reason: string, confirm: bool, params: Params, gh: Gh)
    requires PlanWrite(cfg, "pr_create", reason, confirm, params).PlanReady?
    ensures var plan := PlanWrite(cfg, "pr_create", reason, confirm, params).plan;
            var e := ExecuteWrite(plan, cfg, confirm, gh);
            && (e.outcome.Refused? <==> !cfg.armed)
            && (e.ran.Some? <==> cfg.armed && gh.binary.Some?)
  {
    var plan := PlanWrite(cfg, "pr_create", reason, confirm, params).plan;
    OnlyTheRebuiltCommandRuns(plan, cfg, confirm, gh);
  }
}
