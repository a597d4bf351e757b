/** The life of one real-repo run: the persisted record, and the commands that move it. */
module RunLifecycle {
  import opened Options
  import opened Text
  import opened PrWriter

  datatype Status = Running | Pending | Approved | Rejected | Exhausted | FailedRun | Discarded

  /** The record on disk; an empty URL is no URL. */
  datatype Record = Record(status: Status, branch: string, message: string, pushed: bool, prUrl: string)

  const INDETERMINATE: string := "INDETERMINATE"

  /** The record and the facts it is about: whether the process that runs the loop is alive, the clone is
      on disk, an approved commit exists, the branch is on origin, and how many pull requests were opened. */
  datatype World = World(record: Option<Record>, live: bool, clone: bool, committed: bool, remote: bool, prs: nat)

  const FRESH: World := World(None, false, false, false, false, 0)

  /** How the loop ended. */
  datatype LoopEnd = Accepted(branch: string, message: string) | NothingAccepted | LoopError

  /** How a commit or a push ended; a failure may still have had its effect. */
  datatype Effort = Succeeded | Unsuccessful(effect: bool)

  /** What publishing needs from outside. */
  datatype Publishing = Publishing(cfg: Config, reason: string, confirm: bool, gh: Gh)

  datatype Command =
    | StartRun
    | FinishRun(end: LoopEnd)
    | Killed
    | Decide(approve: bool, push: bool, publish: bool, p: Publishing, attach: bool, commit: Effort, pushed: Effort)
    | Push(attach: bool, pushed: Effort)
    | Publish(p: Publishing, attach: bool)
    | Discard(attach: bool)

  // ---------------------------------------------------------------------------------------------
  // Guards
  // ---------------------------------------------------------------------------------------------

  predicate PendingDecision(r: Record) {
    r.status == Pending
  }

  predicate ApprovedForPush(r: Record) {
    r.status == Approved && !r.pushed
  }

  predicate PushedForPublish(r: Record) {
    r.status == Approved && r.pushed && r.prUrl == ""
  }

  /** The flag checks of the decide command. */
  predicate FlagsFit(approve: bool, push: bool, publish: bool, p: Publishing) {
    && (publish ==> push)
    && (publish ==> Strip(p.reason) != "" && p.confirm)
    && (push || publish ==> approve)
  }

  function PrParams(r: Record): Params {
    Params(None, r.branch, "main", r.message, "Automated real-repo-run candidate")
  }

  // ---------------------------------------------------------------------------------------------
  // What each command does
  // ---------------------------------------------------------------------------------------------

  function Execute(r: Record, p: Publishing): Execution {
    match PlanWrite(p.cfg, "pr_create", p.reason, p.confirm, PrParams(r))
    case PlanReady(plan) => ExecuteWrite(plan, p.cfg, p.confirm, p.gh)
    case PlanRefused(gate) => Execution(PrWriter.Refused(gate), None)
    case PlanFailed => Execution(Failed, None)
  }

  /** Whether a pull request came into being. */
  predicate OpensPr(r: Record, p: Publishing) {
    Execute(r, p).ran.Some? && p.gh.ending.effect
  }

  /** `_publish_record`: the URL, or a mark that nobody knows. */
  function AfterPublish(w: World, p: Publishing): World
    requires w.record.Some?
  {
    var r := w.record.value;
    var url := match Execute(r, p).outcome
               case Executed(stdout) => stdout
               case Indeterminate => INDETERMINATE
               case _ => r.prUrl;
    w.(record := Some(r.(prUrl := url)), prs := w.prs + if OpensPr(r, p) then 1 else 0)
  }

  /** `_push_record`. */
  function AfterPush(w: World, pushed: Effort): World
    requires w.record.Some?
  {
    match pushed
    case Succeeded => w.(record := Some(w.record.value.(pushed := true)), remote := true)
    case Unsuccessful(effect) => w.(remote := w.remote || effect)
  }

  function AfterDecide(w: World, c: Command): World
    requires c.Decide? && w.record.Some?
  {
    var r := w.record.value;
    if !FlagsFit(c.approve, c.push, c.publish, c.p) || !PendingDecision(r) || !c.attach || !w.clone then w
    else if !c.approve then w.(record := Some(r.(status := Rejected)), clone := false)
    else if c.commit.Unsuccessful? then w.(committed := w.committed || c.commit.effect)
    else
      var approved := w.(record := Some(r.(status := Approved)), committed := true);
      if !c.push then approved
      else
        var escalated := AfterPush(approved, c.pushed);
        if c.pushed.Succeeded? && c.publish then AfterPublish(escalated, c.p) else escalated
  }

  function AfterFinish(w: World, end: LoopEnd): World
    requires w.record.Some?
  {
    match end
    case Accepted(branch, message) =>
      w.(record := Some(Record(Pending, branch, message, false, "")), live := false)
    case NothingAccepted => w.(record := Some(Record(Exhausted, "", "", false, "")), live := false, clone := false)
    case LoopError => w.(record := Some(Record(FailedRun, "", "", false, "")), live := false, clone := false)
  }

  function Apply(w: World, c: Command): World {
    match c
    case StartRun =>
      if w.record.None? then w.(record := Some(Record(Running, "", "", false, "")), live := true, clone := true) else w
    case FinishRun(end) => if w.live && w.record.Some? then AfterFinish(w, end) else w
    case Killed => w.(live := false)
    case Decide(_, _, _, _, _, _, _) => if w.record.Some? then AfterDecide(w, c) else w
    case Push(attach, pushed) =>
      if w.record.Some? && ApprovedForPush(w.record.value) && attach && w.clone then AfterPush(w, pushed) else w
    case Publish(p, attach) =>
      if p.confirm && w.record.Some? && PushedForPublish(w.record.value) && attach && w.clone then AfterPublish(w, p)
      else w
    case Discard(attach) =>
      if w.record.None? || w.record.value.status == Pending || (w.clone && !attach) then w
      else w.(record := Some(w.record.value.(status := Discarded)), clone := false)
  }

  /** The world after some commands. */
  function After(cmds: seq<Command>): World {
    if cmds == [] then FRESH else Apply(After(cmds[..|cmds| - 1]), cmds[|cmds| - 1])
  }

  // ---------------------------------------------------------------------------------------------
  // The commands as they work on the record
  // ---------------------------------------------------------------------------------------------

  class RunStore {
    var record: Option<Record>
    var live: bool
    var clone: bool
    var committed: bool
    var remote: bool
    var prs: nat

    ghost function State(): World
      reads this
    {
      World(record, live, clone, committed, remote, prs)
    }

    constructor ()
      ensures State() == FRESH
    {
      record, live, clone, committed, remote, prs := None, false, false, false, false, 0;
    }

    method Start()
      modifies this
      ensures State() == Apply(old(State()), StartRun)
    {
      if record.None? {
        live, clone := true, true;
        record := Some(Record(Running, "", "", false, ""));
      }
    }

    method Finish(end: LoopEnd)
      modifies this
      ensures State() == Apply(old(State()), FinishRun(end))
    {
      if live && record.Some? {
        live := false;
        match end
        case Accepted(branch, message) =>
          record := Some(Record(Pending, branch, message, false, ""));
        case NothingAccepted =>
          clone := false;
          record := Some(Record(Exhausted, "", "", false, ""));
        case LoopError =>
          record := Some(Record(FailedRun, "", "", false, ""));
          clone := false;
      }
    }

    method PushRecord(outcome: Effort) returns (ok: bool)
      requires record.Some?
      modifies this
      ensures State() == AfterPush(old(State()), outcome)
      ensures ok == outcome.Succeeded?
    {
      if outcome.Unsuccessful? {
        remote := remote || outcome.effect;
        return false;
      }
      remote := true;
      record := Some(record.value.(pushed := true));
      ok := true;
    }

    method PublishRecord(p: Publishing)
      requires record.Some?
      modifies this
      ensures State() == AfterPublish(old(State()), p)
    {
      var e := Execute(record.value, p);
      if e.ran.Some? && p.gh.ending.effect {
        prs := prs + 1;
      }
      match e.outcome
      case Executed(stdout) => record := Some(record.value.(prUrl := stdout));
      case Indeterminate => record := Some(record.value.(prUrl := INDETERMINATE));
      case _ =>
    }

    method DecideRun(c: Command)
      requires c.Decide?
      modifies this
      ensures State() == Apply(old(State()), c)
    {
      if (c.publish && !c.push) || (c.publish && !(Strip(c.p.reason) != "" && c.p.confirm)) {
        return;
      }
      if (c.push || c.publish) && !c.approve {
        return;
      }
      if record.None? || !PendingDecision(record.value) || !c.attach || !clone {
        return;
      }
      if !c.approve {
        clone := false;
        record := Some(record.value.(status := Rejected));
        return;
      }
      if c.commit.Unsuccessful? {
        committed := committed || c.commit.effect;
        return;
      }
      committed := true;
      record := Some(record.value.(status := Approved));
      if c.push {
        var ok := PushRecord(c.pushed);
        if ok && c.publish {
          PublishRecord(c.p);
        }
      }
    }

    method PushRun(attach: bool, outcome: Effort)
      modifies this
      ensures State() == Apply(old(State()), Push(attach, outcome))
    {
      if record.Some? && ApprovedForPush(record.value) && attach && clone {
        var _ := PushRecord(outcome);
      }
    }

    method PublishRun(p: Publishing, attach: bool)
      modifies this
      ensures State() == Apply(old(State()), Publish(p, attach))
    {
      if !p.confirm {
        return;
      }
      if record.Some? && PushedForPublish(record.value) && attach && clone {
        PublishRecord(p);
      }
    }

    method DiscardRun(attach: bool)
      modifies this
      ensures State() == Apply(old(State()), Discard(attach))
    {
      if record.None? || record.value.status == Pending {
        return;
      }
      if clone {
        if !attach {
          return;
        }
        clone := false;
      }
      record := Some(record.value.(status := Discarded));
    }
  }

  // ---------------------------------------------------------------------------------------------
  // What every command keeps
  // ---------------------------------------------------------------------------------------------

  /** The record tells the truth: a URL only on a pushed run, a push only of an approved commit that is on
      origin, and nothing of the kind on a run still undecided. */
  ghost predicate Truthful(w: World) {
    w.record.Some? ==>
      var r := w.record.value;
      && (r.prUrl != "" ==> r.pushed)
      && (r.pushed ==> w.committed && w.remote && r.status in {Approved, Discarded})
      && (r.status == Approved ==> w.committed)
      && (w.live ==> r.status in {Running, Discarded} && !r.pushed)
  }

  lemma {:induction false} KeepsTruth(w: World, c: Command)
    requires Truthful(w) && (w.record.None? ==> !w.live)
    ensures Truthful(Apply(w, c)) && (Apply(w, c).record.None? ==> !Apply(w, c).live)
  {
  }

  /** Over every sequence of commands: a pull-request URL means a pushed branch, and that means an approved
      commit. */
  lemma {:induction false} UrlMeansPushedMeansApproved(cmds: seq<Command>)
    ensures Truthful(After(cmds)) && (After(cmds).record.None? ==> !After(cmds).live)
  {
    if cmds != [] {
      var n := |cmds| - 1;
      UrlMeansPushedMeansApproved(cmds[..n]);
      KeepsTruth(After(cmds[..n]), cmds[n]);
    }
  }

  // ---------------------------------------------------------------------------------------------
  // What changes a run, and what each change has behind it
  // ---------------------------------------------------------------------------------------------

  /** The human decision takes effect: a waiting candidate, whose clone can be attached, and flags that fit:
      publishing needs a push, a reason and a confirmation, and both need an approval. */
  ghost predicate Decides(w: World, c: Command) {
    && c.Decide?
    && (c.publish ==> c.push && Strip(c.p.reason) != "" && c.p.confirm) && (c.push ==> c.approve)
    && w.record.Some? && w.record.value.status == Pending && c.attach && w.clone
  }

  ghost predicate Rejects(w: World, c: Command) {
    Decides(w, c) && !c.approve
  }

  ghost predicate Approves(w: World, c: Command) {
    Decides(w, c) && c.approve && c.commit.Succeeded?
  }

  /** A commit comes into being, whether or not git reports it. */
  ghost predicate CommitLands(w: World, c: Command) {
    Decides(w, c) && c.approve && (c.commit.Succeeded? || c.commit.effect)
  }

  /** The branch is sent to origin: by the push command, for an approved run that was not pushed, or by the
      decision itself. */
  ghost predicate Sends(w: World, c: Command) {
    || (Approves(w, c) && c.push)
    || (c.Push? && w.record.Some? && w.record.value.status == Approved && !w.record.value.pushed && c.attach && w.clone)
  }

  ghost predicate PushLands(w: World, c: Command) {
    Sends(w, c) && (c.pushed.Succeeded? || c.pushed.effect)
  }

  ghost predicate PushSucceeds(w: World, c: Command) {
    Sends(w, c) && c.pushed.Succeeded?
  }

  /** A pull request is asked for: by the publish command, for an approved and pushed run without one, or by
      the decision itself once its push has succeeded. */
  ghost predicate Asks(w: World, c: Command) {
    || (Approves(w, c) && c.push && c.pushed.Succeeded? && c.publish)
    || (c.Publish? && c.p.confirm && w.record.Some? && w.record.value.status == Approved && w.record.value.pushed
        && w.record.value.prUrl == "" && c.attach && w.clone)
  }

  /** `gh` is started for it. */
  ghost predicate Starts(w: World, c: Command) {
    && Asks(w, c)
    && c.p.cfg.armed && c.p.cfg.enabled && c.p.cfg.writeMode && c.p.cfg.writesEnabled
    && Strip(c.p.reason) != "" && c.p.confirm && c.p.cfg.branchOk(w.record.value.branch) && c.p.gh.binary.Some?
  }

  ghost predicate PrLands(w: World, c: Command) {
    Starts(w, c) && c.p.gh.ending.effect
  }

  ghost predicate Discards(w: World, c: Command) {
    c.Discard? && w.record.Some? && w.record.value.status != Pending && (w.clone ==> c.attach)
  }

  ghost predicate Reports(w: World, c: Command) {
    c.FinishRun? && w.live && w.record.Some?
  }

  /** The state a command moves the run to, if it moves it. */
  ghost function Moved(w: World, c: Command): Option<Status> {
    if c.StartRun? && w.record.None? then Some(Running)
    else if Reports(w, c) then
      match c.end
      case Accepted(_, _) => Some(Pending)
      case NothingAccepted => Some(Exhausted)
      case LoopError => Some(FailedRun)
    else if Rejects(w, c) then Some(Rejected)
    else if Approves(w, c) then Some(Approved)
    else if Discards(w, c) then Some(Discarded)
    else None
  }

  /** The URL a command leaves on the record: what `gh` printed, the mark of a timeout, or what was there. */
  ghost function UrlAfter(w: World, c: Command): string
    requires w.record.Some?
  {
    if Reports(w, c) then ""
    else if Starts(w, c) && c.p.gh.ending.TimedOut? then INDETERMINATE
    else if Starts(w, c) && c.p.gh.ending.code == 0 then Strip(c.p.gh.ending.stdout)
    else w.record.value.prUrl
  }

  /** What publishing does: `gh` is started exactly when every gate of the writer passes, on the draft pull
      request of this record, and the attempt ends as `gh` does. */
  lemma {:induction false} ExecuteStarts(r: Record, p: Publishing)
    ensures var e := Execute(r, p);
            && (e.ran.Some? <==>
                && p.cfg.armed && p.cfg.enabled && p.cfg.writeMode && p.cfg.writesEnabled
                && Strip(p.reason) != "" && p.confirm && p.cfg.branchOk(r.branch) && p.gh.binary.Some?)
            && (e.ran.Some? ==>
                  && e.ran.value == [p.gh.binary.value, "pr", "create", "--repo", p.cfg.repo, "--head", r.branch, "--base", "main",
                                     "--title", r.message, "--body", "Automated real-repo-run candidate", "--draft"]
                  && e.outcome == Attempt(p.gh.ending))
            && (e.ran.None? ==> !e.outcome.Executed? && !e.outcome.Indeterminate?)
  {
    var planned := PlanWrite(p.cfg, "pr_create", p.reason, p.confirm, PrParams(r));
    if planned.PlanReady? {
      PlanThenExecute(p.cfg, p.reason, p.confirm, PrParams(r), p.gh);
      OnlyTheRebuiltCommandRuns(planned.plan, p.cfg, p.confirm, p.gh);
    }
  }

  lemma {:induction false} PublishIs(w: World, p: Publishing)
    requires w.record.Some?
    ensures var w', e := AfterPublish(w, p), Execute(w.record.value, p);
            && w' == w.(record := w'.record, prs := w'.prs)
            && w'.prs == w.prs + (if e.ran.Some? && p.gh.ending.effect then 1 else 0)
            && w'.record == Some(w.record.value.(prUrl :=
                 if e.ran.Some? && p.gh.ending.TimedOut? then INDETERMINATE
                 else if e.ran.Some? && p.gh.ending.code == 0 then Strip(p.gh.ending.stdout)
                 else w.record.value.prUrl))
  {
    ExecuteStarts(w.record.value, p);
  }

  /** What the commands do to the facts, each with its one cause. */
  ghost predicate Caused(w: World, c: Command, w': World) {
    && (w'.record.Some? <==> w.record.Some? || Moved(w, c).Some?)
    && (w'.committed <==> w.committed || CommitLands(w, c))
    && (w'.remote <==> w.remote || PushLands(w, c))
    && w'.prs == w.prs + (if PrLands(w, c) then 1 else 0)
    && (w'.live <==> Moved(w, c) == Some(Running) || (w.live && !c.FinishRun? && !c.Killed?))
    && (w'.clone <==> || Moved(w, c) == Some(Running)
                      || (w.clone && Moved(w, c) !in {Some(Rejected), Some(Exhausted), Some(FailedRun), Some(Discarded)}))
  }

  /** What they do to the record. */
  ghost predicate Recorded(w: World, c: Command, w': World)
    requires w.record.Some? && w'.record.Some?
  {
    var r, r' := w.record.value, w'.record.value;
    && r'.status == (if Moved(w, c).Some? then Moved(w, c).value else r.status)
    && (if Reports(w, c) then
          (c.end.Accepted? ==> r'.branch == c.end.branch && r'.message == c.end.message)
        else r'.branch == r.branch && r'.message == r.message)
    && (r'.pushed <==> !Reports(w, c) && (r.pushed || PushSucceeds(w, c)))
    && r'.prUrl == UrlAfter(w, c)
  }

  ghost predicate Exactly(w: World, c: Command) {
    && Caused(w, c, Apply(w, c))
    && (w.record.Some? ==> Recorded(w, c, Apply(w, c)))
    && (w.record.None? && Apply(w, c).record.Some? ==> Apply(w, c).record.value == Record(Running, "", "", false, ""))
  }

  lemma {:induction false} PlainDecisionIsExact(w: World, c: Command)
    requires c.Decide? && !Approves(w, c)
    ensures Exactly(w, c)
  {
  }

  lemma {:induction false} QuietApprovalIsExact(w: World, c: Command)
    requires Approves(w, c) && !(c.push && c.pushed.Succeeded? && c.publish)
    ensures Exactly(w, c)
  {
  }

  lemma {:induction false} PublishingApprovalIsExact(w: World, c: Command)
    requires Approves(w, c) && c.push && c.pushed.Succeeded? && c.publish
    ensures Exactly(w, c)
  {
    var r := w.record.value.(status := Approved, pushed := true);
    var pushed := w.(record := Some(r), committed := true, remote := true);
    assert Apply(w, c) == AfterPublish(pushed, c.p);
    ExecuteStarts(r, c.p);
    PublishIs(pushed, c.p);
  }

  lemma {:induction false} DecideIsExact(w: World, c: Command)
    requires c.Decide?
    ensures Exactly(w, c)
  {
    if !Approves(w, c) {
      PlainDecisionIsExact(w, c);
    } else if c.push && c.pushed.Succeeded? && c.publish {
      PublishingApprovalIsExact(w, c);
    } else {
      QuietApprovalIsExact(w, c);
    }
  }

  lemma {:induction false} PublishIsExact(w: World, c: Command)
    requires c.Publish? && (w.record.None? ==> !w.live)
    ensures Exactly(w, c)
  {
    if Asks(w, c) {
      ExecuteStarts(w.record.value, c.p);
      PublishIs(w, c.p);
    }
  }

  lemma {:induction false} LoopIsExact(w: World, c: Command)
    requires c.StartRun? || c.FinishRun? || c.Killed?
    requires w.record.None? ==> !w.live
    ensures Exactly(w, c)
  {
  }

  lemma {:induction false} PushIsExact(w: World, c: Command)
    requires c.Push? || c.Discard?
    ensures Exactly(w, c)
  {
  }

  /** Every command of every sequence changes exactly what it has a cause for. */
  lemma {:induction false} CommandIsExact(cmds: seq<Command>, c: Command)
    ensures Exactly(After(cmds), c)
  {
    UrlMeansPushedMeansApproved(cmds);
    match c
    case Decide(_, _, _, _, _, _, _) => DecideIsExact(After(cmds), c);
    case Publish(_, _) => PublishIsExact(After(cmds), c);
    case Push(_, _) | Discard(_) => PushIsExact(After(cmds), c);
    case _ => LoopIsExact(After(cmds), c);
  }

  /** A human rejection: the run is rejected, its clone is gone, and nothing is committed, sent or opened. */
  lemma {:induction false} RejectionRejects(w: World, c: Command)
    requires Rejects(w, c)
    ensures Apply(w, c) == w.(record := Some(w.record.value.(status := Rejected)), clone := false)
  {
  }

  /** Some command of a sequence, given in this situation. */
  ghost predicate Happened(cmds: seq<Command>, what: (World, Command) -> bool) {
    exists i :: 0 <= i < |cmds| && what(After(cmds[..i]), cmds[i])
  }

  ghost function Count(cmds: seq<Command>, what: (World, Command) -> bool): nat {
    if cmds == [] then 0
    else
      var n := |cmds| - 1;
      Count(cmds[..n], what) + if what(After(cmds[..n]), cmds[n]) then 1 else 0
  }

  lemma {:induction false} HappenedNext(cmds: seq<Command>, what: (World, Command) -> bool)
    requires cmds != []
    ensures var n := |cmds| - 1;
            Happened(cmds, what) <==> Happened(cmds[..n], what) || what(After(cmds[..n]), cmds[n])
  {
    var n := |cmds| - 1;
    assert forall i :: 0 <= i <= n ==> cmds[..n][..i] == cmds[..i];
    if Happened(cmds[..n], what) {
      var i :| 0 <= i < n && what(After(cmds[..n][..i]), cmds[..n][i]);
      assert what(After(cmds[..i]), cmds[i]);
    }
  }

  /** Over every sequence of commands: a commit exists exactly when an approval made one, the branch is on
      origin exactly when a push of an approved run sent it, and the pull requests are exactly those that `gh`
      opened when it was started for an approved and pushed run. */
  lemma {:induction false} EveryEffectHasItsCause(cmds: seq<Command>)
    ensures After(cmds).committed <==> Happened(cmds, CommitLands)
    ensures After(cmds).remote <==> Happened(cmds, PushLands)
    ensures After(cmds).prs == Count(cmds, PrLands)
  {
    if cmds != [] {
      var n := |cmds| - 1;
      EveryEffectHasItsCause(cmds[..n]);
      CommandIsExact(cmds[..n], cmds[n]);
      HappenedNext(cmds, CommitLands);
      HappenedNext(cmds, PushLands);
    }
  }

  ghost function MovedAt(cmds: seq<Command>, i: nat): Option<Status>
    requires i < |cmds|
  {
    Moved(After(cmds[..i]), cmds[i])
  }

  /** The command at `i` moved the run to this state, and none since moved it on. */
  ghost predicate LastMove(cmds: seq<Command>, i: nat, status: Status) {
    && i < |cmds| && MovedAt(cmds, i) == Some(status)
    && forall j :: i < j < |cmds| ==> MovedAt(cmds, j).None?
  }

  lemma {:induction false} MovedAtFront(cmds: seq<Command>, i: nat)
    requires i < |cmds| - 1
    ensures MovedAt(cmds[..|cmds| - 1], i) == MovedAt(cmds, i)
  {
    assert cmds[..|cmds| - 1][..i] == cmds[..i];
  }

  lemma {:induction false} LastMoveNext(cmds: seq<Command>, i: nat, status: Status)
    requires cmds != [] && MovedAt(cmds, |cmds| - 1).None? && LastMove(cmds[..|cmds| - 1], i, status)
    ensures LastMove(cmds, i, status)
  {
    MovedAtFront(cmds, i);
    forall j | i < j < |cmds| - 1
      ensures MovedAt(cmds, j).None?
    {
      MovedAtFront(cmds, j);
      assert MovedAt(cmds[..|cmds| - 1], j).None?;
    }
  }

  /** Over every sequence of commands: the recorded state is the one the last moving command moved the run to.
      In particular a run is approved only by an approval whose commit succeeded, and rejected only by a
      rejection. */
  lemma {:induction false} StatusIsTheLastMove(cmds: seq<Command>) returns (i: nat)
    requires After(cmds).record.Some?
    ensures LastMove(cmds, i, After(cmds).record.value.status)
    ensures After(cmds).record.value.status == Approved ==> Approves(After(cmds[..i]), cmds[i])
    ensures After(cmds).record.value.status == Rejected ==> Rejects(After(cmds[..i]), cmds[i])
  {
    var n := |cmds| - 1;
    CommandIsExact(cmds[..n], cmds[n]);
    if MovedAt(cmds, n).Some? {
      i := n;
    } else {
      i := StatusIsTheLastMove(cmds[..n]);
      LastMoveNext(cmds, i, After(cmds).record.value.status);
    }
  }

  /** The report of an accepted loop, with its branch and message. */
  ghost predicate Proposed(cmds: seq<Command>, i: nat, branch: string, message: string) {
    i < |cmds| && Reports(After(cmds[..i]), cmds[i]) && cmds[i].end == Accepted(branch, message)
  }

  lemma {:induction false} ProposedNext(cmds: seq<Command>, i: nat, branch: string, message: string)
    requires cmds != [] && Proposed(cmds[..|cmds| - 1], i, branch, message)
    ensures Proposed(cmds, i, branch, message)
  {
    assert cmds[..|cmds| - 1][..i] == cmds[..i];
  }

  /** Over every sequence of commands: what waits for a decision, was approved or was pushed is the branch and
      the message of a candidate the loop accepted. */
  lemma {:induction false} CandidateIsTheAccepted(cmds: seq<Command>) returns (i: nat)
    requires After(cmds).record.Some? && After(cmds).record.value.status in {Pending, Approved, Rejected}
    ensures Proposed(cmds, i, After(cmds).record.value.branch, After(cmds).record.value.message)
  {
    var n := |cmds| - 1;
    var w := After(cmds[..n]);
    CommandIsExact(cmds[..n], cmds[n]);
    if Reports(w, cmds[n]) {
      i := n;
    } else {
      i := CandidateIsTheAccepted(cmds[..n]);
      ProposedNext(cmds, i, w.record.value.branch, w.record.value.message);
    }
  }

  // ---------------------------------------------------------------------------------------------
  // The documented states
  // ---------------------------------------------------------------------------------------------

  /** The arrows of the documented life of a run. */
  predicate Arrow(a: Status, b: Status) {
    match a
    case Running => b in {Pending, Exhausted, FailedRun, Discarded}
    case Pending => b in {Approved, Rejected}
    case Discarded => false
    case _ => b == Discarded
  }

  /** One command keeps the status, sets the first one, or follows an arrow. */
  ghost predicate Follows(w: World, w': World) {
    match w.record
    case None => w'.record.Some? ==> w'.record.value.status == Running
    case Some(r) => w'.record.Some? && (r.status == w'.record.value.status || Arrow(r.status, w'.record.value.status))
  }

  /** A run whose loop still works although it was discarded. */
  ghost predicate DiscardedAlive(w: World) {
    w.live && w.record.Some? && w.record.value.status == Discarded
  }

  /** Over every sequence of commands, the next one follows the documented states exactly unless it lets the
      loop of a discarded run report back. */
  lemma {:induction false} StatusFollowsArrows(cmds: seq<Command>, c: Command)
    ensures Follows(After(cmds), Apply(After(cmds), c)) <==> !(DiscardedAlive(After(cmds)) && c.FinishRun?)
  {
    UrlMeansPushedMeansApproved(cmds);
  }

  /** The commands never discard a run whose loop is alive. */
  ghost predicate Patient(cmds: seq<Command>) {
    forall i :: 0 <= i < |cmds| ==> cmds[i].Discard? ==> !After(cmds[..i]).live
  }

  ghost predicate Settled(w: World) {
    && !DiscardedAlive(w)
    && (w.live ==> w.clone)
    && (w.record.Some? && w.record.value.status == Pending ==> w.clone)
  }

  lemma {:induction false} KeepsSettled(w: World, c: Command)
    requires Truthful(w) && Settled(w) && (c.Discard? ==> !w.live) && (w.record.None? ==> !w.live)
    ensures Settled(Apply(w, c))
  {
  }

  /** Discarding leaves a candidate that waits for its decision alone. */
  ghost predicate PendingKept(w: World, c: Command, w': World) {
    c.Discard? && w.record.Some? && w.record.value.status == Pending ==> w' == w
  }

  lemma {:induction false} StepBefore(cmds: seq<Command>, i: nat)
    requires i < |cmds|
    ensures After(cmds[..i + 1]) == Apply(After(cmds[..i]), cmds[i])
  {
    assert cmds[..i + 1][..i] == cmds[..i];
  }

  lemma {:induction false} PatientPrefixSettled(cmds: seq<Command>, i: nat)
    requires Patient(cmds) && i <= |cmds|
    ensures Settled(After(cmds[..i]))
  {
    if i > 0 {
      PatientPrefixSettled(cmds, i - 1);
      UrlMeansPushedMeansApproved(cmds[..i - 1]);
      StepBefore(cmds, i - 1);
      KeepsSettled(After(cmds[..i - 1]), cmds[i - 1]);
    }
  }

  /** When no live run is discarded, every command follows the documented states, a candidate that waits for
      its decision still has its clone, and discarding it changes nothing. */
  lemma {:induction false} PatientRunsFollow(cmds: seq<Command>, i: nat)
    requires Patient(cmds) && i < |cmds|
    ensures Settled(After(cmds[..i])) && Settled(After(cmds[..i + 1]))
    ensures Follows(After(cmds[..i]), After(cmds[..i + 1]))
    ensures PendingKept(After(cmds[..i]), cmds[i], After(cmds[..i + 1]))
  {
    PatientPrefixSettled(cmds, i);
    PatientPrefixSettled(cmds, i + 1);
    StepBefore(cmds, i);
    StatusFollowsArrows(cmds[..i], cmds[i]);
  }

  /** Discarding a run whose loop is alive breaks both: the record comes back from `discarded`, with a
      candidate whose clone is gone. */
  lemma {:induction false} DiscardWhileRunning()
    ensures var cmds := [StartRun, Discard(true), FinishRun(Accepted("agent/x", "m"))];
            && !Follows(After(cmds[..2]), After(cmds))
            && After(cmds).record == Some(Record(Pending, "agent/x", "m", false, "")) && !After(cmds).clone
  {
    var cmds := [StartRun, Discard(true), FinishRun(Accepted("agent/x", "m"))];
    assert cmds[..2] == [StartRun, Discard(true)];
    assert [StartRun, Discard(true)][..1] == [StartRun] && [StartRun][..0] == [];
    assert After([StartRun]) == Apply(FRESH, StartRun);
  }

  // ---------------------------------------------------------------------------------------------
  // At most one pull request
  // ---------------------------------------------------------------------------------------------

  /** `gh` reports what it did: on success it prints something, and a failure opened nothing.  A timeout may
      have gone either way. */
  predicate Honest(gh: Gh) {
    match gh.ending
    case TimedOut(_) => true
    case Exited(code, stdout, effect) => effect ==> code == 0 && Strip(stdout) != ""
  }

  function GhOf(c: Command): Option<Gh> {
    match c
    case Decide(_, _, _, p, _, _, _) => Some(p.gh)
    case Publish(p, _) => Some(p.gh)
    case _ => None
  }

  ghost predicate AllHonest(cmds: seq<Command>) {
    forall i :: 0 <= i < |cmds| ==> GhOf(cmds[i]).Some? ==> Honest(GhOf(cmds[i]).value)
  }

  /** Every pull request there is, is on the record. */
  ghost predicate Accounted(w: World) {
    && w.prs <= 1
    && (w.record.None? ==> w.prs == 0)
    && (w.record.Some? && w.record.value.prUrl == "" ==> w.prs == 0)
  }

  lemma {:induction false} EffectLeavesUrl(r: Record, p: Publishing)
    requires Honest(p.gh) && OpensPr(r, p)
    ensures Execute(r, p).outcome.Indeterminate? ||
            (Execute(r, p).outcome.Executed? && Execute(r, p).outcome.stdout != "")
  {
    var plan := PlanWrite(p.cfg, "pr_create", p.reason, p.confirm, PrParams(r)).plan;
    OnlyTheRebuiltCommandRuns(plan, p.cfg, p.confirm, p.gh);
  }

  lemma {:induction false} PublishAccounts(w: World, p: Publishing)
    requires w.record.Some? && w.record.value.prUrl == "" && w.prs == 0 && Honest(p.gh)
    ensures Accounted(AfterPublish(w, p))
  {
    if OpensPr(w.record.value, p) {
      EffectLeavesUrl(w.record.value, p);
    }
  }

  lemma {:induction false} DecideAccounts(w: World, c: Command)
    requires c.Decide? && w.record.Some? && Accounted(w) && Truthful(w) && Honest(c.p.gh)
    ensures Accounted(AfterDecide(w, c))
  {
    var r := w.record.value;
    if FlagsFit(c.approve, c.push, c.publish, c.p) && PendingDecision(r) && c.attach && w.clone &&
       c.approve && c.commit.Succeeded? && c.push && c.pushed.Succeeded? && c.publish {
      PublishAccounts(AfterPush(w.(record := Some(r.(status := Approved)), committed := true), c.pushed), c.p);
    }
  }

  lemma {:induction false} KeepsAccount(w: World, c: Command)
    requires Truthful(w) && Accounted(w) && (GhOf(c).Some? ==> Honest(GhOf(c).value))
    ensures Accounted(Apply(w, c))
  {
    match c
    case Decide(_, _, _, _, _, _, _) =>
      if w.record.Some? {
        DecideAccounts(w, c);
      }
    case Publish(p, attach) =>
      if p.confirm && w.record.Some? && PushedForPublish(w.record.value) && attach && w.clone {
        PublishAccounts(w, p);
      }
    case _ =>
  }

  /** At most one pull request is ever opened for a run, whatever commands are given, retried or timed out,
      as long as `gh` is honest. */
  lemma {:induction false} AtMostOnePr(cmds: seq<Command>)
    requires AllHonest(cmds)
    ensures Accounted(After(cmds))
  {
    if cmds != [] {
      var n := |cmds| - 1;
      AtMostOnePr(cmds[..n]);
      UrlMeansPushedMeansApproved(cmds[..n]);
      KeepsAccount(After(cmds[..n]), cmds[n]);
    }
  }

  /** Every use of `gh` in the commands ends in the same way. */
  ghost predicate AllEnd(cmds: seq<Command>, gh: Gh) {
    forall i :: 0 <= i < |cmds| ==> GhOf(cmds[i]).Some? ==> GhOf(cmds[i]).value == gh
  }

  ghost predicate NeverTwo(gh: Gh) {
    forall cmds :: AllEnd(cmds, gh) ==> After(cmds).prs <= 1
  }

  lemma {:induction false} OneByOne(cmds: seq<Command>, c: Command)
    ensures After(cmds + [c]) == Apply(After(cmds), c)
  {
    assert (cmds + [c])[..|cmds|] == cmds;
  }

  /** An executor with all gates open. */
  function Open(gh: Gh): Publishing {
    Publishing(Config(true, true, true, "o/r", true, _ => true), "why", true, gh)
  }

  /** A run that was approved and pushed. */
  function PushedRun(gh: Gh): seq<Command> {
    [StartRun, FinishRun(Accepted("agent/x", "m")), Decide(true, true, false, Open(gh), true, Succeeded, Succeeded)]
  }

  lemma {:induction false} StartedRunIs()
    ensures After([StartRun]) == World(Some(Record(Running, "", "", false, "")), true, true, false, false, 0)
  {
    assert [StartRun][..0] == [];
    assert After([StartRun]) == Apply(After([]), StartRun);
  }

  lemma {:induction false} AcceptedRunIs(branch: string, message: string)
    ensures After([StartRun, FinishRun(Accepted(branch, message))]) ==
            World(Some(Record(Pending, branch, message, false, "")), false, true, false, false, 0)
  {
    var f := FinishRun(Accepted(branch, message));
    StartedRunIs();
    OneByOne([StartRun], f);
    assert [StartRun] + [f] == [StartRun, f];
  }

  lemma {:induction false} PushedRunIs(gh: Gh)
    ensures After(PushedRun(gh)) == World(Some(Record(Approved, "agent/x", "m", true, "")), false, true, true, true, 0)
  {
    var accepted := [StartRun, FinishRun(Accepted("agent/x", "m"))];
    var d := Decide(true, true, false, Open(gh), true, Succeeded, Succeeded);
    AcceptedRunIs("agent/x", "m");
    OneByOne(accepted, d);
    assert accepted + [d] == PushedRun(gh);
  }

  lemma {:induction false} OpenRuns(gh: Gh, r: Record)
    requires gh.binary.Some?
    ensures Execute(r, Open(gh)).ran.Some? && Execute(r, Open(gh)).outcome == Attempt(gh.ending)
  {
    assert Strip("why") == "why";
    assert PlanWrite(Open(gh).cfg, "pr_create", "why", true, PrParams(r)).PlanReady?;
    PlanThenExecute(Open(gh).cfg, "why", true, PrParams(r), gh);
    var plan := PlanWrite(Open(gh).cfg, "pr_create", "why", true, PrParams(r)).plan;
    OnlyTheRebuiltCommandRuns(plan, Open(gh).cfg, true, gh);
  }

  lemma {:induction false} DishonestTwice(gh: Gh)
    requires gh.binary.Some? && !Honest(gh)
    ensures !NeverTwo(gh)
  {
    var once := PushedRun(gh) + [Publish(Open(gh), true)];
    var twice := once + [Publish(Open(gh), true)];
    var w := After(PushedRun(gh));
    PushedRunIs(gh);
    OpenRuns(gh, w.record.value);
    OneByOne(PushedRun(gh), Publish(Open(gh), true));
    assert After(once) == w.(prs := 1);
    OneByOne(once, Publish(Open(gh), true));
    assert After(twice).prs == 2;
    assert AllEnd(twice, gh);
  }

  lemma {:induction false} HonestNeverTwo(gh: Gh)
    requires Honest(gh)
    ensures NeverTwo(gh)
  {
    forall cmds | AllEnd(cmds, gh)
      ensures After(cmds).prs <= 1
    {
      AtMostOnePr(cmds);
    }
  }

  /** The exact condition: a way for an installed `gh` to end is safe to repeat in any life of a run exactly
      when it is honest -- in particular every timeout is. */
  lemma {:induction false} OnePrIffHonest(gh: Gh)
    requires gh.binary.Some?
    ensures NeverTwo(gh) <==> Honest(gh)
  {
    if Honest(gh) {
      HonestNeverTwo(gh);
    } else {
      DishonestTwice(gh);
    }
  }
}
