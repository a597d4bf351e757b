# A model of CyClaw's governed core

CyClaw answers queries over a local knowledge base through a guarded graph, lets a planner edit a cloned
repository under quarantine gates, keeps a skills registry that several processes may update, and writes
an audit log. This project models the parts of it whose correctness depends on many steps together, and
proves what they keep over every input, every interleaving or every run. `dafny verify dfyconfig.toml`
checks all of it.

| file | models |
|---|---|
| `RegistryProtocol.dfy` | the cross-process lock of the skills registry and the apply transaction, as interleaved file-system steps of any number of processes with a crash possible before every step (`agentic/registry.py`) |
| `QueryGraph.dfy` | the twelve nodes, the routers, the edge maps, the client construction and the pause decision as a state machine (`graph.py`, `gate.py`) |
| `ContextPrompts.dfy` | the context block and the three prompt assemblies with their character arithmetic (`graph.py`) |
| `RepoPaths.dfy` | canonical paths and the protected-path gate (`agentic/real_repo_loop.py`, `agentic/deepagent_github/repo_workspace.py`) |
| `PlannerBlocks.dfy` | the planner's answer format: regular expression, parser, printer (`agentic/real_repo_loop.py`) |
| `CloneFiles.dfy`, `CodingLoop.dfy` | the coding loop over a persistent clone with symbolic links, and its gates (`agentic/real_repo_loop.py`, `agentic/deepagent_github/repo_workspace.py`, `agentic/fsconnect/pathsafe.py`) |
| `LoopReach.dfy`, `ChangeSet.dfy` | the paths whole runs can write to and overwrite unseen, the reported change set, the protected files, and the decision that commits (`agentic/real_repo_loop.py`) |
| `PrWriter.dfy`, `RunLifecycle.dfy` | the gated single-attempt publisher and the run record moved by the run, decide, push, publish and discard commands (`agentic/writer.py`, `agentic/cli.py`, `agentic/real_repo_run_store.py`) |
| `RateLimitAudit.dfy` | the capped throttle in front of the rate-limit audit lines (`gate.py`) |
| `HashChain.dfy` | the audit bundle's hash chain (`docs/CyClaw Audit Bundle Export Script.py`) |
| `AuditMetrics.dfy` | the fused audit pass (`metrics.py`) |
| `Text.dfy`, `Options.dfy` | string operations and optional values |

The outside world — models, `gh`, `git`, the scanners, the hash, the clock, file-system failures — appears
as parameters over which the theorems quantify.

Every lemma carries `{:induction false}`: nothing rests on automatic induction, each induction is written out.

## Where the code does not do what is expected of it

Seven expected properties are false of the code. Each has a concrete input or run that shows it and the exact
condition under which the property holds.

- **The lock is not safe against a slow but live owner.** The comments at `agentic/registry.py:99-112` say a
  reclaimer never takes a lock from a live owner. The age is taken before the token is read: if a live owner
  keeps the lock for more than 60 seconds and hands it over between those two calls, the reclaimer finds no
  token in the *new* owner's young lock, removes it, and two processes apply at once (`SlowOwnerRace`).
  Mutual exclusion holds over all runs whose processes hold the lock for at most `h` seconds if and only if
  `h <= 60` (`ExclusionIffPrompt`).
- **An update can be lost.** The same race goes on: both processes read the file, both replace it, and of two
  completed applies the file knows one (`LostUpdateRace`). No run whose processes hold the lock for at most
  `h` seconds loses an update if and only if `h <= 60` (`NoLostUpdateIffPrompt`).
- **A blind overwrite is possible.** The loop asks the jail's reader whether a path exists before it lets the
  planner replace it, and takes any refusal for "does not exist" (`agentic/real_repo_loop.py:955-958`). The
  reader refuses two kinds of path the writer accepts: those with a segment that ends in a dot or a space
  (`agentic/fsconnect/pathsafe.py:641-642`) and those behind a linked directory (line 866 of the same file).
  So `a.` can be overwritten unseen (`TrailingDotIsBlind`), and so can `t/a`, when `d` is a link to `t`, under
  the name `d/a` (`ThroughLinkIsBlind`). A path is never overwritten blindly, in any run, if and only if it is
  of neither kind, or the writer does not take it, or its name is protected (`BlindIffUnseen`).
- **A protected file can be changed and committed.** Both gates judge a path by its declared name
  (`agentic/real_repo_loop.py:935-937`, `1175-1177`), while the writer follows links and its answer, the name of
  the file it changed, is thrown away (line 970). The comment at
  `agentic/deepagent_github/repo_workspace.py:524-540` promises the opposite. With `d` linked to `t` and `t/` protected, an accepted
  run reports `d/a`, no gate fires, and `t/a` is committed (`ProtectedFileIsCommitted`). The protected files
  are safe in every run, and so is every commit, if and only if no path within reach of the loop lands on one
  of them (`ScopeIffLandsInScope`, `CommitIffLandsInScope`).
- **The change set is not always what changed.** It names the path as declared, not the file behind a link;
  and it misses a write that fails half-way: `write_text` empties the file first, so it is changed, the path
  is not reported, and a later iteration can be accepted with the torn file in the clone its checks judged
  (`TornWriteIsUnreported`). For every set of links and every set of paths whose writes may fail half-way, the
  report is exact in every run if and only if every path within reach lands where it says and is not one of
  them (`ExactIffPlainAndWhole`).
- **Discarding a live run breaks the documented states.** `real-repo-run-discard` accepts a run in state
  `running`; when its loop is still alive it later reports back and the record leaves `discarded`
  (`DiscardWhileRunning`). A command leaves the documented states if and only if it is such a report
  (`StatusFollowsArrows`).
- **A canonical path is not always canonical.** `./-x` is accepted and becomes `-x`, which the writer refuses
  (`DashComesForward`). The canonical form of a path is canonical itself if and only if the first segment of
  the path does not start with a dash (`CanonicalForm`). The refusal is safe, so nothing else depends on it.

Three more remarks on code and documentation. `agentic/real_repo_run_store.py:24-26` says rejected clones are
retained; the decide command deletes them, and the model follows the code. `decide_real_repo_candidate`
accepts an unverified candidate when called on its own (`DecideAloneAcceptsUnverified`); only the loop's
structure rules that out. SHA-256 (section 6.2 of FIPS 180-4) cannot be injective with a fixed output length,
so tamper evidence is stated as a reduction that names the two colliding strings.

## Model

| member | source | states |
|---|---|---|
| `RegistryProtocol.LockStep` | agentic/registry.py:129-233 | every step of every process, with any failure or crash, keeps the lock invariant: one holder, whose token is its own or not yet written; one reclaimer, who owns the guard; only unheld locks are removed; a pending reclaim decision is about a signed lock |
| `RegistryProtocol.LockRun` | agentic/registry.py:129-233 | the invariant over whole runs |
| `RegistryProtocol.MutualExclusion` | agentic/registry.py:96-233 | for any number of processes and every interleaving under the stated premises, at most one process is in the apply section, at most one reclaims, and a reclaimer never removes a lock that a live process holds |
| `RegistryProtocol.PromptIsAdmissible` | agentic/registry.py:52-54 | processes that hold the lock no longer than the staleness age only produce runs that meet the premises |
| `RegistryProtocol.SlowOwnerRace` | agentic/registry.py:129-182 | for every hold longer than 60 seconds, a run of three processes that ends with two in the apply section, or, if they go on, with a lost update, although the token-less premise holds throughout |
| `RegistryProtocol.ExclusionIffPrompt` | agentic/registry.py:96-182 | mutual exclusion over all runs with holds of at most h seconds if and only if h is at most 60 |
| `RegistryProtocol.LeftoverGuardOnlyBlocksReclaim` | agentic/registry.py:125-182 | after a reclaimer died with the guard, in every further run nobody reclaims and an orphaned lock stays as it is, while a free lock can still be taken |
| `RegistryProtocol.DecisionIsExact` | agentic/registry.py:96-112 | a lock found is removed exactly when it was more than 60 seconds old and nobody alive has signed it; otherwise the reclaimer gives up |
| `RegistryProtocol.StaleLockIsReclaimed` | agentic/registry.py:129-182 | from every state with a lock older than 60 seconds that is unsigned or signed by a dead process, a free guard and an idle process, nine successful calls of that process are a run and put it in the apply section with the lock signed by it |
| `RegistryProtocol.NextApplyGoesThrough` | agentic/registry.py:185-233 | whatever a crash left behind, with the guard free, the file readable and the lock free or abandoned for 60 seconds, the next apply has a run that installs its request on the file as it is and leaves the lock free |
| `RegistryProtocol.ApplyCompletes` | agentic/registry.py:531-564 | from the apply section with the lock signed: the file holds the old registry and the request, the lock is free, nothing else changed |
| `RegistryProtocol.FailedApplyChangesNothing` | agentic/registry.py:275-298 | a failing read, stage or replace, or a malformed registry, leaves file and lock as they are and leads to the release |
| `RegistryProtocol.FailedReclaimGivesUp` | agentic/registry.py:150-182 | a reclaim call that fails changes nothing and leads to giving the guard back |
| `RegistryProtocol.GuardGivenBack` | agentic/registry.py:176-182 | giving the guard back frees it and leaves the lock alone |
| `RegistryProtocol.FailedCallChangesNothing` | agentic/registry.py:129-229 | no failing call changes lock, guard or file |
| `RegistryProtocol.SignedDirectoryStays` | agentic/registry.py:164-229 | a lock directory with a token in it is not removed |
| `RegistryProtocol.UnlinkIsExact` | agentic/registry.py:164-229 | taking the token away makes the lock young again, if there was one |
| `RegistryProtocol.ForeignLockIsLeft` | agentic/registry.py:216-229 | a lock signed by somebody else is not released |
| `RegistryProtocol.FileCarriesAll` | agentic/registry.py:531-564 | applying requests one after the other loses none: version, numbered history and latest skill of each name |
| `RegistryProtocol.DataRun` | agentic/registry.py:531-564 | over every run the file is the completed applies on the initial file, and staged data was built from the file as it is now |
| `RegistryProtocol.NoLostUpdate` | agentic/registry.py:531-564 | over every run under the stated premises the version grew by the number of completed replaces, the appended history is consecutive, and each skill is the one its latest apply installed; a malformed file is never written |
| `RegistryProtocol.LostUpdateRace` | agentic/registry.py:129-182 | for every hold longer than 60 seconds, a run that keeps every documented premise and completes two applies of which the file knows one |
| `RegistryProtocol.NoLostUpdateIffPrompt` | agentic/registry.py:531-564 | no run with holds of at most h seconds loses an update if and only if h is at most 60 |
| `QueryGraph.StepAdvances` | graph.py:921-1043 | from every reachable node and state the router's label is in the edge map and what is known at the next node holds |
| `QueryGraph.RunCompletes` | graph.py:1099-1196 | from every reachable node the rest of the run ends at the audit node within its bound and makes only permitted calls |
| `QueryGraph.Convergence` | graph.py:1099-1196 | every run starts at retrieve, executes at most seven nodes, passes the audit node exactly once and last, never meets a missing label; the local node only on high scores, the offline node only on low ones |
| `QueryGraph.ExternalCallSafety` | graph.py:513-673 | a provider is called only if the hit was judged low, the user confirmed, it was selected, its client exists, it has its key, its hook allowed and its host is trusted; nobody else is called; the audit event is online_escalated |
| `QueryGraph.InputRailCoverage` | graph.py:343-373 | a blocking input rail keeps every run from the local model on whichever edge; without a wrapper at most one call in total |
| `QueryGraph.PauseIsExact` | gate.py:992-1043 | the response asks for confirmation exactly when the query was judged low and the user said nothing; then nothing was called and the event is the pause |
| `QueryGraph.RetrievalErrorReported` | graph.py:274-312 | a retrieval failure is in the final state and the audit event on every path |
| `QueryGraph.RunIsExact` | graph.py:1099-1196 | for every environment and query the whole run in closed form: the way it takes, the nodes on it, the one call it makes, about which documents and how often, and the model, sources, error, flags and audit event it leaves |
| `QueryGraph.HighScoreIsAnswered` | graph.py:411-492 | an unblocked high-score query with a trusted local host is answered by one local call about the retrieved documents, with an error exactly when retrieval or generation failed |
| `QueryGraph.DeclinedIsAnsweredOffline` | graph.py:700-785 | a low query whose user declined is answered by one offline call, with an error exactly when retrieval or generation failed |
| `QueryGraph.ConfirmedIsEscalated` | graph.py:513-673 | a confirmed low query goes to the selected usable provider whose hook allows and whose host is trusted, in one call with what may be forwarded, and the audit event says so |
| `QueryGraph.PromptWithinBound` | graph.py:436-456 | the prompt of any call stays within its bound |
| `QueryGraph.PromptsBounded` | graph.py:569-631 | every prompt of every run is within its bound and made from that run's retrieval; where forwarding is off it is the query line cut to the cap and carries no document |
| `QueryGraph.SourcesAreThePrompts` | graph.py:660-664 | for every model call of every run the text sent is that call's template, with the soul or the neutral identity at its head, around the context block rendered from exactly the sources the run reports, unless the output rail blocked the answer |
| `ContextPrompts.ConsiderChunk` | graph.py:180-210 | the verdict on one chunk |
| `ContextPrompts.FormatContextChunks` | graph.py:157-211 | the rendering loop computes the specified block and document list |
| `ContextPrompts.ContextBlock` | graph.py:157-211 | the block never exceeds its budget, is the join of source line and shown text of the reported documents, and those are the first candidates that fit, with only the last clipped, and exactly to the budget |
| `ContextPrompts.LocalFramingIsExact` | graph.py:125-137 | the reserved 351 characters are the exact framing of the local template |
| `ContextPrompts.OfflineFramingIsExact` | graph.py:125-137 | the reserved 325 characters are the exact framing of the offline template |
| `ContextPrompts.NoContextIsShorter` | graph.py:729-755 | the template without context fits the same reserve |
| `ContextPrompts.LocalPromptBound` | graph.py:436-456 | the local prompt is at most three characters per token, or fixed text plus framing plus 800 |
| `ContextPrompts.OfflinePromptBound` | graph.py:729-755 | the same for the offline prompt, with and without context |
| `ContextPrompts.LocalContextIsExact` | graph.py:436-441 | the local context holds the first of the five best documents that fit what three characters per token leave beside soul, query and 351 fixed characters, or the floor of 800 |
| `ContextPrompts.OfflineContextIsExact` | graph.py:735-745 | the same for the offline prompt with its 325 fixed characters and the neutral identity |
| `ContextPrompts.LocalTemplateFrames` | graph.py:443-452 | the local prompt is soul, query, a fixed text, the context inside the tag, a fixed text |
| `ContextPrompts.OfflineTemplateFrames` | graph.py:746-755 | soul, identity, query, a fixed text, the context inside the tag, a fixed text |
| `ContextPrompts.NoContextTemplateFrames` | graph.py:756-762 | soul, identity, query, a fixed text |
| `ContextPrompts.FitPrompt` | graph.py:598-631 | the budgeted reassembly |
| `ContextPrompts.BuildExternalPrompt` | graph.py:569-631 | the assembly and the cost guard compute the specified prompt and documents |
| `ContextPrompts.ExternalPromptCapped` | graph.py:590-631 | a positive cap is never exceeded |
| `ContextPrompts.ExternalPromptComplete` | graph.py:569-631 | a prompt within the cap goes out complete; a longer one is reassembled complete around the context that framing and query leave room for, with exactly the documents in it reported; where they leave none, the clipped query line goes out and no document is reported |
| `RepoPaths.FsEquivPath` | agentic/real_repo_loop.py:416-435 | the loop computes the join of the cleaned segments |
| `RepoPaths.MatchesPattern` | agentic/real_repo_loop.py:453-462 | the string tests for one pattern |
| `RepoPaths.MatchesProtectedPath` | agentic/real_repo_loop.py:438-463 | the gate fires if and only if some pattern protects the path segment by segment |
| `RepoPaths.GateIsSegmentTest` | agentic/real_repo_loop.py:453-462 | for all paths and patterns the prefix and suffix tests on strings are list-prefix and list-suffix on segments |
| `RepoPaths.TrailingDots` | agentic/real_repo_loop.py:432 | trailing dots and spaces never change a name |
| `RepoPaths.LetterCase` | agentic/real_repo_loop.py:433-434 | spellings that fold alike are one name |
| `RepoPaths.CleanIsExact` | agentic/real_repo_loop.py:432-434 | a segment is compared by the folding of each of its visible characters up to the dots and spaces at its end |
| `RepoPaths.OrdinaryNamesDiffer` | agentic/real_repo_loop.py:432-434 | two names with nothing to fold, hide or trim are taken for one only if they are equal |
| `RepoPaths.AliasesShareVerdict` | agentic/real_repo_loop.py:416-463 | paths spelled alike segment by segment get the same verdict from every pattern |
| `RepoPaths.BackslashesVanish` | agentic/real_repo_loop.py:427 | backslashes and slashes separate alike |
| `RepoPaths.PunctuationVanishes` | agentic/real_repo_loop.py:430-431 | empty and dot segments vanish |
| `RepoPaths.CanonicalForm` | agentic/deepagent_github/repo_workspace.py:108-140 | the canonical form has the segments of its path, and is canonical itself if and only if the first segment of the path does not start with a dash |
| `RepoPaths.NamesAreCanonical` | agentic/deepagent_github/repo_workspace.py:99-140 | every list of names, however long, whose first has no leading dash is a canonical path |
| `RepoPaths.GitIsJailed` | agentic/deepagent_github/repo_workspace.py:143-169 | every spelling of `.git` in letter case, trailing dots and spaces is in the jail |
| `RepoPaths.ShortGitIsJailed` | agentic/deepagent_github/repo_workspace.py:143-169 | every short name of `.git` is in the jail |
| `RepoPaths.ShortGitIs` | agentic/deepagent_github/repo_workspace.py:105 | the short names are an optional dot, the letters in any case, a tilde and digits, and nothing else |
| `RepoPaths.GitignoreIsFree` | agentic/deepagent_github/repo_workspace.py:143-169 | `.gitignore` and `.github` are not |
| `RepoPaths.DashComesForward` | agentic/deepagent_github/repo_workspace.py:135-140 | the path `./-x` is accepted and its canonical form `-x` is not |
| `RepoPaths.AliasesShareJail` | agentic/deepagent_github/repo_workspace.py:143-169 | paths spelled alike segment by segment are inside or outside the .git jail together |
| `PlannerBlocks.MatcherIsTheExpression` | agentic/real_repo_loop.py:164-167 | the matcher finds a block exactly when the expression fits at this place, with the only possible path and the shortest possible body |
| `PlannerBlocks.ParseFileBlocks` | agentic/real_repo_loop.py:466-521 | the parsing loop returns the entry of every match, or the duplicate error exactly when two destinations coincide |
| `PlannerBlocks.PrintedMatches` | agentic/real_repo_loop.py:164-167 | matching a printed text gives the printed blocks, whatever header-free prose surrounds them |
| `PlannerBlocks.RoundTrip` | agentic/real_repo_loop.py:466-521 | parsing a printed answer returns the same blocks in order, or the duplicate error if two have one destination |
| `PlannerBlocks.LineEndingsAgree` | agentic/real_repo_loop.py:474-493 | LF and CRLF forms of a text parse alike |
| `PlannerBlocks.NamingParses` | agentic/real_repo_loop.py:474-493 | every canonical path on one line, whatever it begins and ends with, is named by some answer |
| `PlannerBlocks.ParsedIsNameable` | agentic/real_repo_loop.py:497-520 | every canonical path an answer names is on one line |
| `CloneFiles.Workspace.constructor` | agentic/deepagent_github/repo_workspace.py:279-295 | a clone with its files and links |
| `CloneFiles.SplitComponents` | agentic/fsconnect/pathsafe.py:614-644 | the component loop returns the kept segments, or the error exactly when one of them or the whole target is refused |
| `CloneFiles.Workspace.ReadFile` | agentic/deepagent_github/repo_workspace.py:591-605 | a path the writer could take is read exactly when its file is there, neither it nor a directory on the way is a link, no segment ends in a dot or a space and the content is within the limits, and then it is that file's content |
| `CloneFiles.Workspace.StatFile` | agentic/deepagent_github/repo_workspace.py:620-631 | a path the writer could take is found exactly when a file, a directory or a link is there, no directory on the way is a link and no segment ends in a dot or a space |
| `CloneFiles.Workspace.WriteFile` | agentic/deepagent_github/repo_workspace.py:668-711 | a write changes at most the file on which the path lands once links are followed: to the content, to what a half-way failure leaves, or, refused by the path checks, the .git jail or the file system, not at all; it returns where it landed |
| `Text.ContainsIs` | agentic/fsconnect/pathsafe.py:614-644 | a text contains a pattern if and only if the pattern stands somewhere in it |
| `CloneFiles.ComponentsAre` | agentic/fsconnect/pathsafe.py:614-644 | refused are exactly NUL, absolute and device paths and any segment that is `..`, names a drive or ends in a dot or a space; of anything else the segments are kept |
| `CloneFiles.ThroughIsBelow` | agentic/fsconnect/pathsafe.py:853-880 | a canonical path is behind a linked directory exactly when it continues a linked name |
| `CloneFiles.StatOfCanonical` | agentic/fsconnect/pathsafe.py:958-981 | the reader sees a writable path if and only if a file, a directory or a link is there, no directory on the way is a link, and no segment ends in a dot or a space |
| `CloneFiles.RenderFile` | agentic/real_repo_loop.py:342-351 | one entry: whole, cut at 4000 characters, or omitted |
| `CloneFiles.RenderExistingFiles` | agentic/real_repo_loop.py:289-352 | the rendering loop computes the specified entries and the paths shown in full |
| `CloneFiles.ShownInFull` | agentic/real_repo_loop.py:289-352 | rendered contents total at most 12000 characters, and each shown path has an entry with its whole current content of at most 4000 |
| `CloneFiles.ShownIsCurrent` | agentic/real_repo_loop.py:349-351 | a writable path counted as shown is a file of the clone reached by no link, and its own entry in the prompt holds its exact content |
| `CloneFiles.RenderIsExact` | agentic/real_repo_loop.py:289-352 | one entry for each declared path that can be read, in order: whole up to 4000 characters, else its first 4000 and the mark, or only its name when the 12000 are spent |
| `CloneFiles.ShownExactly` | agentic/real_repo_loop.py:289-352 | a path counts as shown if and only if it was declared, could be read, has at most 4000 characters and fits the 12000 after what was shown before it |
| `CloneFiles.OnePiece` | agentic/real_repo_loop.py:342-351 | what an entry adds to the total and to the paths shown |
| `CloneFiles.ParsedWellFormed` | agentic/real_repo_loop.py:497-520 | parsed blocks have distinct paths, each the one its write lands on |
| `CloneFiles.WriteBlock` | agentic/real_repo_loop.py:944-975 | one proposed write reaches the file exactly when it is allowed and opened, and succeeds exactly when it is then not torn |
| `CloneFiles.WriteBlocks` | agentic/real_repo_loop.py:943-976 | the write loop leaves the clone and reports the successes that writing the blocks one after the other gives, each judged on the clone as the earlier ones left it, and fails exactly when it reports fewer than proposed |
| `CloneFiles.WriteAllKeeps` | agentic/real_repo_loop.py:943-976 | whatever the order and the links do, a path written to was proposed and would have been written to on the clone as it was at the start; the successes are the paths without a fault; only the files on which the paths land change |
| `CloneFiles.WriteAllKeepsTree` | agentic/deepagent_github/repo_workspace.py:692-704 | no order of writes puts a file inside a file |
| `CloneFiles.BlockByBlock` | agentic/real_repo_loop.py:943-976 | each block in turn is written exactly when the reader does not see its path or it was shown or written before, and the writer takes it, nothing is in the way and the file opens; then the file it lands on holds its content, or what a failure left, and it is reported unless it failed |
| `CloneFiles.IndependentBlocksLand` | agentic/real_repo_loop.py:943-976 | any number of blocks that could each be written alone and land apart are all written, each with its content, and nothing else changes |
| `CodingLoop.Decide` | agentic/real_repo_loop.py:533-579 | accepted if and only if files changed, nothing failed, nothing is quarantined and verification did not fail |
| `CodingLoop.ScanBlocks` | agentic/real_repo_loop.py:917-938 | critical if and only if some proposed content is; total bytes |
| `CodingLoop.ProtectedOnes` | agentic/real_repo_loop.py:935-937 | exactly the protected paths among the proposed |
| `CodingLoop.CheckBlocks` | agentic/real_repo_loop.py:917-941 | the three quarantine flags, whose reasons FlagsAreExact spells out |
| `CodingLoop.ReadAnswer` | agentic/real_repo_loop.py:879-884 | the proposed blocks, none after a duplicate |
| `CodingLoop.Finish` | agentic/real_repo_loop.py:943-1006 | writing, verifying the clone as the writes left it, and deciding |
| `CodingLoop.Iterate` | agentic/real_repo_loop.py:847-1006 | one pass of the loop computes the specified step |
| `CodingLoop.RunIterations` | agentic/real_repo_loop.py:844-1060 | the loop's iterations, verdict and clone are those of the specified trace |
| `CodingLoop.RunRealRepoLoop` | agentic/real_repo_loop.py:823-1060 | refused without write permission, reason or confirmation; invalid without instruction, one to 25 iterations, tokens or checks; then nothing is written; otherwise the run |
| `CodingLoop.StepWrites` | agentic/real_repo_loop.py:929-976 | every path an iteration writes to is one an answer can name and is unprotected as named |
| `CodingLoop.StepKeeps` | agentic/real_repo_loop.py:943-988 | the paths an iteration writes to passed the writer's checks and are invisible to the reader, shown or the loop's own; the clone changes only where they land; the successful ones, and no other, join the paths ever written |
| `CodingLoop.AcceptedStep` | agentic/real_repo_loop.py:978-1006 | accepted if and only if the answer parsed, proposed something, was not quarantined, every block was written and the checks passed on the clone as those writes left it |
| `CodingLoop.WeightAdds` | agentic/real_repo_loop.py:938 | no content weighs nothing, and one more block anywhere adds the bytes of its content |
| `CodingLoop.FlagsAreExact` | agentic/real_repo_loop.py:928-941 | critical exactly if some content is, out of scope exactly if some pattern protects some proposed path, over budget exactly if there is a budget and the contents weigh more |
| `CodingLoop.GatesAreExact` | agentic/real_repo_loop.py:533-579 | every gate of every iteration fires exactly when its reason is there; a quarantined iteration, over budget included, touches nothing, changes no file and runs no check; the checks run exactly when everything proposed was written |
| `CodingLoop.GoodAnswerIsWritten` | agentic/real_repo_loop.py:943-1006 | an answer with nothing to quarantine it, whose blocks are independent and whose writes do not fail, is written in full as proposed and accepted if and only if the checks pass on the result |
| `CodingLoop.TraceChains` | agentic/real_repo_loop.py:844-1060 | each step starts where the one before ended; only the last can be accepted; a run goes on until one is or the iterations are used up |
| `LoopReach.ReachIsExact` | agentic/real_repo_loop.py:844-1060 | for every set of links and protected paths: some run writes to a path if and only if an answer can name it, it lands inside the clone, outside `.git` and not on a directory that holds links, no segment could open `.git`, its name is not protected, and it is not a link the reader sees |
| `LoopReach.SingleWrite` | agentic/real_repo_loop.py:844-1060 | every such path is written to, torn or whole, by a run of one iteration, whose clone, report and verdict are given |
| `LoopReach.NoBlindOverwrite` | agentic/real_repo_loop.py:945-968 | over every run, a write, even one that fails half-way, to a path without a segment ending in a dot or a space and not behind a linked directory goes to an absent file, to one the loop wrote, or to one whose own entry in that iteration's prompt holds its whole content |
| `LoopReach.JailHolds` | agentic/deepagent_github/repo_workspace.py:471-521 | over every run a path written to has no segment that could open .git, lands inside the clone, and neither is nor is below its .git |
| `LoopReach.BlindIffUnseen` | agentic/real_repo_loop.py:955-968 | for every path, set of links and protected paths: the path is overwritten blindly in some run if and only if a segment of it ends in a dot or a space or a directory on its way is a link, and the writer takes it, and its name is not protected |
| `LoopReach.TrailingDotIsBlind` | agentic/fsconnect/pathsafe.py:641-642 | in a clone without links the path `a.` can be overwritten blindly |
| `LoopReach.ThroughLinkIsBlind` | agentic/fsconnect/pathsafe.py:865-873 | in a clone where `d` is a link to `t` the path `d/a` can be overwritten blindly |
| `ChangeSet.ChangedFiles` | agentic/real_repo_loop.py:614-645 | the nested loops list what unquarantined iterations wrote, without repetitions, in first-write order |
| `ChangeSet.FirstWritesAre` | agentic/real_repo_loop.py:639-645 | the list has the same members as the writes and no path twice |
| `ChangeSet.FirstWritesGrow` | agentic/real_repo_loop.py:639-645 | later iterations only add to the end of the list |
| `ChangeSet.ExactChangeSet` | agentic/real_repo_loop.py:614-645 | over every run the reported set is exactly the paths whose write succeeded; the paths written to are within reach, only the files on which they land change, and the unreported ones are among those whose write may fail half-way; a quarantined iteration left the clone alone |
| `ChangeSet.TornWriteIsUnreported` | agentic/deepagent_github/repo_workspace.py:699-704 | a run that is accepted while a file it does not report was left torn in the clone the checks judged |
| `ChangeSet.ExactIffPlainAndWhole` | agentic/real_repo_loop.py:614-645 | for every set of links, protected paths and paths whose writes may fail half-way: the clone differs in the reported paths only, in every run, if and only if every path within reach lands where it says and is not one of them |
| `ChangeSet.ScopeIffLandsInScope` | agentic/real_repo_loop.py:929-943 | for every set of links and protected paths: the protected files are unchanged in every run if and only if no path within reach lands on a protected file |
| `ChangeSet.AcceptedMeansVerified` | agentic/real_repo_loop.py:978-1030 | over every run only the last iteration can be accepted, and then every block was written, nothing quarantined, and the checks passed on the very files the run leaves |
| `ChangeSet.FinalizeRealRepoChange` | agentic/real_repo_loop.py:1121-1213 | the outcome of the human decision, case by case, with exactly the protected paths named; committed if and only if every gate passes, every path can be staged and git does not fail, and then what is staged is where each path lands |
| `ChangeSet.Add` | agentic/deepagent_github/repo_workspace.py:713-721 | staging validates every path as a write does and hands git the names on which they land |
| `ChangeSet.FinalizeAgrees` | agentic/real_repo_loop.py:1175-1195 | under the run's own policy the protected-path gate of the decision, which judges declared names, never fires, and the recorded paths pass the path checks of staging |
| `ChangeSet.CommitIffLandsInScope` | agentic/real_repo_loop.py:1175-1196 | for every set of links and protected paths: what the approval of an accepted run stages is never protected, in any run, if and only if no path within reach lands on a protected file |
| `ChangeSet.ProtectedFileIsCommitted` | agentic/real_repo_loop.py:970 | an accepted run that reports `d/a`, passes both gates, and has the protected `t/a` staged, where `d` is a link to `t` |
| `PrWriter.OnlyTheRebuiltCommandRuns` | agentic/writer.py:298-443 | a command is started if and only if every gate passes on the live configuration and the plan's command is the rebuilt one; what is started is the rebuilt draft pull request in the configured repository |
| `PrWriter.PlanThenExecute` | agentic/writer.py:256-295 | a plan made under the same configuration fails no integrity gate |
| `PrWriter.PlanIsExact` | agentic/writer.py:256-295 | a plan is refused exactly at the first gate not passed, is ready exactly when all are and the operation has a command, and carries that command and the live repository |
| `PrWriter.ExecutorGates` | agentic/writer.py:298-395 | the executor refuses exactly at the first of its gates that is not passed |
| `RunLifecycle.RunStore.constructor` | agentic/real_repo_run_store.py:75-103 | no record, nothing done |
| `RunLifecycle.RunStore.Start` | agentic/cli.py:862-866 | the running record and the clone |
| `RunLifecycle.RunStore.Finish` | agentic/cli.py:909-987 | the three ends of a loop and their records |
| `RunLifecycle.RunStore.PushRecord` | agentic/cli.py:1069-1100 | the record says pushed exactly after a successful push |
| `RunLifecycle.RunStore.PublishRecord` | agentic/cli.py:1103-1149 | the URL, the indeterminate mark, or nothing; and whether a pull request came into being |
| `RunLifecycle.RunStore.DecideRun` | agentic/cli.py:1174-1296 | the decide command with its escalations computes the specified step, which CommandIsExact spells out |
| `RunLifecycle.RunStore.PushRun` | agentic/cli.py:1347-1375 | the push command |
| `RunLifecycle.RunStore.PublishRun` | agentic/cli.py:1378-1415 | the publish command |
| `RunLifecycle.RunStore.DiscardRun` | agentic/cli.py:1418-1474 | the discard command |
| `RunLifecycle.UrlMeansPushedMeansApproved` | agentic/real_repo_run_store.py:157-224 | over every command sequence with arbitrary failures, a URL implies pushed, pushed implies an approved commit that is on origin |
| `RunLifecycle.RejectionRejects` | agentic/cli.py:1224-1261 | a rejection that takes effect makes the run rejected, deletes its clone, and commits, sends and opens nothing |
| `RunLifecycle.CommandIsExact` | agentic/cli.py:862-1474 | after every command sequence, every command changes state, branch, message, pushed mark, URL, clone, commit, origin and pull requests exactly as far as it has a cause to, each cause spelled out on the flags, the record and the outcomes of git and gh |
| `RunLifecycle.ExecuteStarts` | agentic/writer.py:298-443 | publishing starts gh exactly when every gate passes, with the draft pull request of the recorded branch and message |
| `RunLifecycle.EveryEffectHasItsCause` | agentic/cli.py:1069-1296 | over every command sequence a commit exists if and only if an approval made one, the branch is on origin if and only if a push of an approved run sent it, and the pull requests are as many as gh opened when started for an approved and pushed run |
| `RunLifecycle.StatusIsTheLastMove` | agentic/real_repo_run_store.py:14-22 | over every command sequence the state is the one the last moving command moved to; approved only by an approval whose commit succeeded, rejected only by a rejection |
| `RunLifecycle.CandidateIsTheAccepted` | agentic/cli.py:945-975 | over every command sequence the branch and message of a pending, approved or rejected run are those of a candidate the loop accepted |
| `RunLifecycle.StatusFollowsArrows` | agentic/real_repo_run_store.py:14-22 | over every command sequence the next command follows the documented states if and only if it is not the report of a discarded live run |
| `RunLifecycle.PatientRunsFollow` | agentic/real_repo_run_store.py:14-22 | when no live run is discarded every command follows the documented states and a candidate that waits for its decision has its clone, and discarding it changes nothing |
| `RunLifecycle.DiscardWhileRunning` | agentic/cli.py:1458-1474 | the run that leaves `discarded`, with a candidate whose clone is gone |
| `RunLifecycle.AtMostOnePr` | agentic/cli.py:1103-1149 | over every command sequence with an honest `gh`, timeouts included, at most one pull request is opened, and it is on the record |
| `RunLifecycle.OnePrIffHonest` | agentic/writer.py:416-443 | a way for `gh` to end is safe in every command sequence if and only if it is a timeout, opened nothing, or succeeded and printed something |
| `RateLimitAudit.KeepFrom` | gate.py:277-279 | the entries not older than the cutoff, in order |
| `RateLimitAudit.FindOldest` | gate.py:282-284 | the first entry with the smallest time |
| `RateLimitAudit.EvictOldest` | gate.py:280-286 | the table without its oldest entries |
| `RateLimitAudit.Trim` | gate.py:280-286 | the table without its overflow |
| `RateLimitAudit.Cap` | gate.py:276-286 | the capping step |
| `RateLimitAudit.Throttle.constructor` | gate.py:262-263 | the empty table |
| `RateLimitAudit.Throttle.ShouldAudit` | gate.py:266-287 | the answer and the whole new table |
| `RateLimitAudit.TableInvariant` | gate.py:262-287 | over every run at most 1024 entries, one per address, each from an audited call |
| `RateLimitAudit.Pigeonhole` | gate.py:266-287 | an address audited twice within one window implies at least 1024 distinct other addresses audited between the two times |
| `RateLimitAudit.OncePerWindow` | gate.py:266-287 | while no call finds more than 1024 addresses due strictly within the window, the capped table answers exactly like one that never forgets |
| `RateLimitAudit.EvictedAsksAgain` | gate.py:280-286 | at the first call that finds more, the evicted address, asking again at once, is audited although it is not due |
| `RateLimitAudit.OncePerWindowIffRoomy` | gate.py:266-287 | the capped table answers like one that never forgets, whoever asks after any of the calls, if and only if no call finds more than 1024 addresses due strictly within the window |
| `HashChain.BuildHashChain` | docs/CyClaw Audit Bundle Export Script.py:71-88 | the text of the chain, whose entries EntryHashesBody states on the bodies of the lines |
| `HashChain.VerifyHashChain` | docs/CyClaw Audit Bundle Export Script.py:91-103 | the verification loop decides the specified relation |
| `HashChain.DropsTheLineEnds` | docs/CyClaw Audit Bundle Export Script.py:84-85 | what is hashed of a line is its body, all of it, whatever number of line ends follows |
| `HashChain.BodyOf` | docs/CyClaw Audit Bundle Export Script.py:84-85 | every line has such a body |
| `HashChain.SomeHashDigests` | docs/CyClaw Audit Bundle Export Script.py:67-69 | there are hashes with such digests, so the theorems about them speak of something |
| `HashChain.EntryHashesBody` | docs/CyClaw Audit Bundle Export Script.py:71-88 | on bodies: the first entry hashes the first body and "0", each later one its body and the entry before |
| `Text.StripPadded` | docs/CyClaw Audit Bundle Export Script.py:93 | stripping takes off all whitespace around a text and nothing else |
| `Text.SpacesAre` | docs/CyClaw Audit Bundle Export Script.py:93 | what counts as whitespace, character by character |
| `HashChain.ChainAt` | docs/CyClaw Audit Bundle Export Script.py:71-88 | each entry hashes its line without line ends and the entry before it |
| `HashChain.OwnChainVerifies` | docs/CyClaw Audit Bundle Export Script.py:71-103 | a log verifies against its own chain if and only if it is not empty |
| `HashChain.SameChainSameLog` | docs/CyClaw Audit Bundle Export Script.py:71-88 | logs with one chain have the same lines, or the returned strings collide |
| `HashChain.TamperEvidence` | docs/CyClaw Audit Bundle Export Script.py:91-103 | two logs that verify against one text have the same bodies, or the returned strings collide |
| `HashChain.ChainsForkAt` | docs/CyClaw Audit Bundle Export Script.py:71-88 | logs whose bodies first differ at k have chains that agree before k and differ at every common index from k on, or the returned strings collide |
| `HashChain.LineEndsDoNotMatter` | docs/CyClaw Audit Bundle Export Script.py:84-85 | logs with the same bodies have the same chain |
| `HashChain.PaddedChainVerifies` | docs/CyClaw Audit Bundle Export Script.py:91-103 | with any whitespace around it, a list of digests verifies if and only if it is the chain |
| `HashChain.TruncationVerifies` | docs/CyClaw Audit Bundle Export Script.py:91-103 | a log and its chain cut off at the same place verify |
| `AuditMetrics.IterEvents` | metrics.py:52-71 | the decoded objects of the file, in order |
| `AuditMetrics.ComputeAuditIntegrity` | metrics.py:309-343 | the three integrity counts |
| `AuditMetrics.ComputeMetrics` | metrics.py:374-512 | the aggregate of the events |
| `AuditMetrics.SummarizeAudit` | metrics.py:515-559 | the fused pass gives what the two passes give, for every file |
| `AuditMetrics.BreakdownsCount` | metrics.py:374-512 | each breakdown counts exactly the labels of its events: names of all, modes of the queries, models of those that name one |
| `AuditMetrics.CountersCount` | metrics.py:374-512 | each plain counter is the number of events with its property, spelled out on their objects |
| `AuditMetrics.FindingsCount` | metrics.py:374-512 | codes, fields, repositories and patterns of the findings, each with its number of occurrences |
| `AuditMetrics.TestsAre` | metrics.py:374-512 | the tests of the aggregation are the spelled-out properties: both query names, either escalation flag or a model name that starts with a provider in any letter case, literal true flags |
| `AuditMetrics.EventsNext` | metrics.py:52-71 | the decoded objects in order and nothing else |
| `AuditMetrics.IntegrityCounts` | metrics.py:309-343 | each integrity count is the number of lines with its fault |
| `AuditMetrics.BreakdownsAddUp` | metrics.py:374-512 | the breakdowns sum to the totals they break down |
| `AuditMetrics.ScoresSummarised` | metrics.py:374-512 | the score accumulators are count, sum, minimum and maximum of the scores |
| `AuditMetrics.AverageBetweenExtremes` | metrics.py:374-512 | whenever a score was seen, the extremes are scores and the average lies between them |

## Left out

- Premises of the lock: `mkdir`, `rmdir` and `os.replace` are atomic, `_pid_alive` is exact, nobody deletes the directories by hand; `RegistryProtocol` is a state machine over these calls rather than a class, because its point is the interleaving.
- Threads of one process sharing a registry object, skill validation, injection scanning and scoring in the registry.
- Premises of the clone: a case-sensitive POSIX file system; where links stand and where they lead is a parameter, of which the exact conditions assume only that a path without links lands on itself; the loop and the checks make no links, and the checks leave the worktree as they find it; the directories of the clone can be opened, so `stat` fails for no other reason; an empty directory is among the paths the file system may refuse.
- Verification of a candidate is a verdict on the files of the clone; the sandboxed executor, the acceptance manifest and the disposable-copy proof are oracles.
- The planner's prompt around the existing-file block and the markers around its entries, feedback texts and the unslop probe; every answer is allowed at every iteration, so no theorem depends on them.
- CodingLoop.RunRealRepoLoop: takes the answers, faults and checks of the whole run as a sequence, which covers every planner that adapts to its prompts, and the step function as a ghost parameter that `IsLoop` fixes and `LoopOf` provides.
- Commands of the run life are atomic except the run itself, saves succeed, and no process is killed between an effect and its save; commands that stop before they read the record (configuration missing or layer disabled) change nothing.
- The pull-request body, the branch-name pattern and argument parsing are parameters or fixed texts.
- The order of equal counts in the printed breakdowns, floating-point rounding of scores (reals are used), and the spend report of `metrics.py`.
- AuditMetrics.ScoresSummarised: scores are exact reals, so rounding in sums and averages is not captured.
- Retrieval, embeddings, model clients, personality and memory of the query graph; collaborators raise only what the nodes catch.
- HTTP handlers, middleware, cookies, TLS, index-build bookkeeping, configuration validation, zip handling and log purging.
