/** The query graph: twelve nodes, four routers on five conditional edges, and everything a run can
    do between a query and its audit event.

    The collaborators (retriever, models, rails, hooks, endpoint checks) are the fields of an
    environment: whatever they answer in a run is fixed there, so a statement about every environment
    is a statement about everything they may do. */
module QueryGraph {
  import opened Options
  import Text
  import opened ContextPrompts

  datatype Node =
    | Retrieve | RouteByScore | GuardrailInput | GuardrailOutput | LocalLlm | UserGate
    | HookGrok | HookClaude | GrokFallback | ClaudeFallback | OfflineBestEffort | AuditLogger
    | End

  /** What a router returns; the edge map of its node turns it into the next node. */
  datatype Label = ToLocalLlm | ToUserGate | ToOffline | ToAudit | ToHookGrok | ToHookClaude | ToGrok | ToClaude

  datatype Provider = LocalModel | Grok | Claude

  /** `answer_model`.  `Nobody` is the empty string of the pause. */
  datatype Model = Nobody | Local | External(provider: Provider) | OfflineModel | GuardrailBlocked | HookDenied | ExternalUnavailable

  datatype Hit = Hit(doc: Doc, score: real, semantic: Option<real>)

  datatype Retrieval = RetrievalError(message: string) | Hits(hits: seq<Hit>)

  /** An optional rail: it may be absent, raise, let the text pass or block it. */
  datatype Rail = NoRail | Raises | Passes | Blocks(message: string)

  /** The optional wrapper around `generate`: how often it calls the client, and whether it then raises. */
  datatype Wrapper = NoWrapper | Returns(calls: nat, error: Option<string>) | Fails(calls: nat)

  /** A provider as configured: mode, literal enablement, key, hook, destination, prompt settings. */
  datatype Online = Online(
    enabledTrue: bool, keySet: bool, hookAllows: bool, hostTrusted: bool, sendContext: bool, maxChars: int)

  datatype Env = Env(
    hybrid: bool, grok: Online, claude: Online,
    retrieval: Retrieval, minScore: real, minSemantic: Option<real>,
    inputRail: Rail, outputRail: Rail, wrapper: Wrapper,
    localTrusted: bool, generateError: Option<string>,
    maxTokens: int, soul: Option<string>, tag: string)

  datatype Input = Input(query: string, confirmed: Option<bool>, provider: Option<string>)

  datatype AuditEvent = AuditEvent(
    pause: bool, onlineEscalated: bool, modelUsed: Option<Model>, blocked: bool, degraded: bool, hookDenied: bool,
    error: Option<string>)

  /** The state the nodes update; `None` is a key that has not been set. */
  datatype State = State(
    docs: seq<Doc>, top: real, needsConfirm: Option<bool>, model: Option<Model>, sources: seq<Doc>,
    blocked: bool, degraded: bool, hookDenied: bool, error: Option<string>, event: Option<AuditEvent>)

  /** One call of a client's `generate`: whom, and which of the prompts over which documents. */
  datatype Call = LocalCall(docs: seq<Doc>) | OfflineCall(docs: seq<Doc>) | ExternalCall(provider: Provider, docs: seq<Doc>)

  function Callee(c: Call): Provider {
    if c.ExternalCall? then c.provider else LocalModel
  }

  // ---------------------------------------------------------------------------------------------
  // Clients
  // ---------------------------------------------------------------------------------------------

  function Settings(env: Env, p: Provider): Online
    requires p != LocalModel
  {
    if p == Grok then env.grok else env.claude
  }

  /** The gateway builds a client only in hybrid mode and for a provider enabled with a literal true. */
  predicate HasClient(env: Env, p: Provider) {
    p != LocalModel && env.hybrid && Settings(env, p).enabledTrue
  }

  /** The client exists and its API key is set. */
  predicate Usable(env: Env, p: Provider) {
    HasClient(env, p) && Settings(env, p).keySet
  }

  /** `state["online_provider"] or "grok"`. */
  function Selected(input: Input): string {
    if input.provider.Some? && input.provider.value != "" then input.provider.value else "grok"
  }

  function ProviderName(p: Provider): string {
    match p
    case LocalModel => "local"
    case Grok => "grok"
    case Claude => "claude"
  }

  // ---------------------------------------------------------------------------------------------
  // Nodes
  // ---------------------------------------------------------------------------------------------

  const START := State([], 0.0, None, None, [], false, false, false, None, None)

  function RetrieveNode(env: Env, s: State): State {
    match env.retrieval
    case RetrievalError(message) => s.(docs := [], top := 0.0, error := Some(message))
    case Hits(hits) =>
      s.(docs := seq(|hits|, i requires 0 <= i < |hits| => hits[i].doc), top := if hits == [] then 0.0 else hits[0].score)
  }

  /** The semantic floor applies to the first hit, when both the floor and its semantic score are numbers. */
  predicate BelowFloor(env: Env) {
    && env.minSemantic.Some? && env.retrieval.Hits? && env.retrieval.hits != []
    && env.retrieval.hits[0].semantic.Some?
    && env.retrieval.hits[0].semantic.value < env.minSemantic.value
  }

  function RouteByScoreNode(env: Env, s: State): State {
    s.(needsConfirm := Some(s.top < env.minScore || BelowFloor(env)))
  }

  function GuardrailInputNode(env: Env, s: State): State {
    match env.inputRail
    case NoRail | Passes => s
    case Raises => s.(degraded := true)
    case Blocks(_) => s.(model := Some(GuardrailBlocked), sources := [], blocked := true)
  }

  function GuardrailOutputNode(env: Env, s: State): State {
    if env.outputRail.NoRail? || s.model != Some(Local) then s
    else
      match env.outputRail
      case Raises => s.(degraded := true)
      case Blocks(_) => s.(sources := [], blocked := true)
      case _ => s
  }

  function UserGateNode(input: Input, s: State): State {
    if input.confirmed.None? then s.(model := Some(Nobody), needsConfirm := Some(true)) else s
  }

  function HookNode(env: Env, p: Provider, s: State): State
    requires p != LocalModel
  {
    if Settings(env, p).hookAllows then s.(hookDenied := false)
    else s.(model := Some(HookDenied), sources := [], error := Some("hook"), hookDenied := true)
  }

  function Repeat(c: Call, n: nat): (cs: seq<Call>)
    ensures |cs| == n && forall x :: x in cs ==> x == c
  {
    if n == 0 then [] else [c] + Repeat(c, n - 1)
  }

  /** `_generate_or_error`: a wrapper that raises is followed by one plain call. */
  function Generate(env: Env, c: Call): (r: (seq<Call>, Option<string>))
    ensures forall x :: x in r.0 ==> x == c
    ensures env.wrapper.NoWrapper? ==> |r.0| == 1
  {
    match env.wrapper
    case NoWrapper => ([c], env.generateError)
    case Returns(calls, error) => (Repeat(c, calls), error)
    case Fails(calls) => (Repeat(c, calls) + [c], env.generateError)
  }

  /** An answering node sets an answer and sources, may set an error, and touches nothing else. */
  predicate AnswersWith(s: State, s': State, model: Model) {
    && s' == s.(model := Some(model), sources := s'.sources, error := s'.error)
    && (s.error.Some? ==> s'.error.Some?)
  }

  /** The calls a node made are all this one; without a wrapper there is at most one. */
  predicate OnlyCall(env: Env, calls: seq<Call>, c: Call) {
    (forall x :: x in calls ==> x == c) && (env.wrapper.NoWrapper? ==> |calls| <= 1)
  }

  /** An answer; the error key is only set by a failure. */
  function Answered(s: State, model: Model, sources: seq<Doc>, error: Option<string>): (s': State)
    ensures AnswersWith(s, s', model)
  {
    s.(model := Some(model), sources := sources, error := if error.Some? then error else s.error)
  }

  function GenerateAnswer(env: Env, s: State, model: Model, c: Call, included: seq<Doc>): (r: (State, seq<Call>))
    ensures AnswersWith(s, r.0, model) && OnlyCall(env, r.1, c) && r.0.sources == included
  {
    var (calls, error) := Generate(env, c);
    (Answered(s, model, included, error), calls)
  }

  /** The documents in the prompt of a call. */
  function SourcesOf(env: Env, input: Input, c: Call): seq<Doc> {
    match c
    case LocalCall(docs) => LocalContext(env.maxTokens, env.soul, input.query, docs).1
    case OfflineCall(docs) => OfflineContext(env.maxTokens, env.soul, input.query, docs).1
    case ExternalCall(p, docs) =>
      if p == LocalModel then []
      else ExternalPrompt(Settings(env, p).sendContext, input.query, env.tag, docs, Settings(env, p).maxChars).1
  }

  function LocalNode(env: Env, input: Input, s: State): (r: (State, seq<Call>))
    ensures AnswersWith(s, r.0, Local)
    ensures OnlyCall(env, r.1, LocalCall(s.docs))
    ensures r.1 != [] ==> r.0.sources == SourcesOf(env, input, LocalCall(s.docs))
    ensures r.1 != [] ==> env.localTrusted
  {
    if !env.localTrusted then (Answered(s, Local, [], Some("trust")), [])
    else GenerateAnswer(env, s, Local, LocalCall(s.docs), SourcesOf(env, input, LocalCall(s.docs)))
  }

  function OfflineNode(env: Env, input: Input, s: State): (r: (State, seq<Call>))
    ensures AnswersWith(s, r.0, OfflineModel)
    ensures OnlyCall(env, r.1, OfflineCall(s.docs))
    ensures r.1 != [] ==> r.0.sources == SourcesOf(env, input, OfflineCall(s.docs))
    ensures r.1 != [] ==> env.localTrusted
  {
    if !env.localTrusted then (Answered(s, OfflineModel, [], Some("trust")), [])
    else GenerateAnswer(env, s, OfflineModel, OfflineCall(s.docs), SourcesOf(env, input, OfflineCall(s.docs)))
  }

  function FallbackNode(env: Env, input: Input, p: Provider, s: State): (r: (State, seq<Call>))
    requires p != LocalModel
    ensures AnswersWith(s, r.0, if HasClient(env, p) then External(p) else ExternalUnavailable)
  {
    var cfg := Settings(env, p);
    if !HasClient(env, p) then (Answered(s, ExternalUnavailable, [], None), [])
    else if input.confirmed == Some(false) || !cfg.hostTrusted then (Answered(s, External(p), [], Some("trust")), [])
    else
      var docs := if cfg.sendContext then s.docs else [];
      GenerateAnswer(env, s, External(p), ExternalCall(p, docs), SourcesOf(env, input, ExternalCall(p, docs)))
  }

  /** `answer_model` is set and not empty. */
  predicate HasAnswer(s: State) {
    s.model.Some? && s.model != Some(Nobody)
  }

  function AuditNode(s: State): State {
    s.(event := Some(AuditEvent(!HasAnswer(s), s.model.Some? && s.model.value.External?, s.model,
                                s.blocked, s.degraded, s.hookDenied, s.error)))
  }

  function Visit(env: Env, input: Input, n: Node, s: State): (State, seq<Call>)
    requires n != End
  {
    match n
    case Retrieve => (RetrieveNode(env, s), [])
    case RouteByScore => (RouteByScoreNode(env, s), [])
    case GuardrailInput => (GuardrailInputNode(env, s), [])
    case GuardrailOutput => (GuardrailOutputNode(env, s), [])
    case LocalLlm => LocalNode(env, input, s)
    case UserGate => (UserGateNode(input, s), [])
    case HookGrok => (HookNode(env, Grok, s), [])
    case HookClaude => (HookNode(env, Claude, s), [])
    case GrokFallback => FallbackNode(env, input, Grok, s)
    case ClaudeFallback => FallbackNode(env, input, Claude, s)
    case OfflineBestEffort => OfflineNode(env, input, s)
    case AuditLogger => (AuditNode(s), [])
  }

  // ---------------------------------------------------------------------------------------------
  // Routers and edges
  // ---------------------------------------------------------------------------------------------

  predicate IsTrue(b: Option<bool>) {
    b == Some(true)
  }

  function ScoreRouter(s: State): Label {
    if IsTrue(s.needsConfirm) then ToUserGate else ToLocalLlm
  }

  function GuardrailRouter(s: State): Label {
    if s.blocked then ToAudit
    else if IsTrue(s.needsConfirm) then ToOffline
    else ToLocalLlm
  }

  function HookRouter(input: Input, s: State): Label {
    if s.hookDenied then ToAudit
    else if Selected(input) == "grok" then ToGrok
    else ToClaude
  }

  function UserGateRouter(env: Env, input: Input): Label {
    if input.confirmed.None? then ToAudit
    else if !input.confirmed.value then ToOffline
    else if Selected(input) == "claude" && Usable(env, Claude) then ToHookClaude
    else if Selected(input) == "grok" && Usable(env, Grok) then ToHookGrok
    else ToOffline
  }

  /** The edge maps given to `add_conditional_edges`. */
  function EdgeMap(n: Node): map<Label, Node> {
    match n
    case RouteByScore => map[ToLocalLlm := GuardrailInput, ToUserGate := UserGate]
    case GuardrailInput => map[ToLocalLlm := LocalLlm, ToOffline := OfflineBestEffort, ToAudit := AuditLogger]
    case UserGate => map[ToHookGrok := HookGrok, ToHookClaude := HookClaude, ToOffline := GuardrailInput, ToAudit := AuditLogger]
    case HookGrok => map[ToGrok := GrokFallback, ToAudit := AuditLogger]
    case HookClaude => map[ToClaude := ClaudeFallback, ToAudit := AuditLogger]
    case _ => map[]
  }

  function Follow(n: Node, to: Label): Option<Node> {
    if to in EdgeMap(n) then Some(EdgeMap(n)[to]) else None
  }

  /** The next node, or `None` when a router's label is missing from its edge map. */
  function Next(env: Env, input: Input, n: Node, s: State): Option<Node>
    requires n != End
  {
    match n
    case Retrieve => Some(RouteByScore)
    case RouteByScore => Follow(n, ScoreRouter(s))
    case GuardrailInput => Follow(n, GuardrailRouter(s))
    case UserGate => Follow(n, UserGateRouter(env, input))
    case HookGrok | HookClaude => Follow(n, HookRouter(input, s))
    case LocalLlm | GrokFallback | ClaudeFallback | OfflineBestEffort => Some(GuardrailOutput)
    case GuardrailOutput => Some(AuditLogger)
    case AuditLogger => Some(End)
  }

  /** The longest way from a node to the end. */
  function Rank(n: Node): nat {
    match n
    case Retrieve => 7
    case RouteByScore => 6
    case UserGate => 5
    case GuardrailInput | HookGrok | HookClaude => 4
    case LocalLlm | OfflineBestEffort | GrokFallback | ClaudeFallback => 3
    case GuardrailOutput => 2
    case AuditLogger => 1
    case End => 0
  }

  /** `routed` is false when the run died on a missing label. */
  datatype Trace = Trace(final: State, nodes: seq<Node>, calls: seq<Call>, routed: bool)

  function RunFrom(env: Env, input: Input, n: Node, s: State): Trace
    decreases Rank(n)
  {
    if n == End then Trace(s, [], [], true)
    else
      var (s', calls) := Visit(env, input, n, s);
      var next := Next(env, input, n, s');
      if next.None? then Trace(s', [n], calls, false)
      else
        var rest := RunFrom(env, input, next.value, s');
        Trace(rest.final, [n] + rest.nodes, calls + rest.calls, rest.routed)
  }

  function Run(env: Env, input: Input): Trace {
    RunFrom(env, input, Retrieve, START)
  }

  // ---------------------------------------------------------------------------------------------
  // What holds when a run reaches a node
  // ---------------------------------------------------------------------------------------------

  /** The routing verdict on what the retriever found: nothing found scores zero; a hit is low by its score,
      or by its semantic score where there is one and a floor for it.  A low hit needs the user. */
  predicate JudgedLow(env: Env) {
    match env.retrieval
    case RetrievalError(_) => 0.0 < env.minScore
    case Hits(hits) =>
      if hits == [] then 0.0 < env.minScore
      else
        || hits[0].score < env.minScore
        || (env.minSemantic.Some? && hits[0].semantic.Some? && hits[0].semantic.value < env.minSemantic.value)
  }

  predicate Answering(n: Node) {
    n in {LocalLlm, OfflineBestEffort, GrokFallback, ClaudeFallback}
  }

  /** The user confirmed, and this provider is selected and usable. */
  predicate Chosen(env: Env, input: Input, p: Provider) {
    JudgedLow(env) && input.confirmed == Some(true) && Selected(input) == ProviderName(p) && Usable(env, p)
  }

  function RetrievedDocs(env: Env): seq<Doc> {
    RetrieveNode(env, START).docs
  }

  ghost predicate Reached(env: Env, input: Input, n: Node, s: State) {
    var low := JudgedLow(env);
    && (n == Retrieve ==> s == START)
    && (n != Retrieve ==>
          && s.docs == RetrievedDocs(env)
          && (env.retrieval.RetrievalError? ==> s.error.Some?))
    && (n == RouteByScore ==> s.needsConfirm.None? && (s.top < env.minScore || BelowFloor(env) <==> low))
    && (n !in {Retrieve, RouteByScore} ==> s.needsConfirm == Some(low))
    && (n !in {GuardrailOutput, AuditLogger, End} ==> s.model.None? && !s.blocked)
    && (n == UserGate ==> low)
    && (n == HookGrok ==> Chosen(env, input, Grok))
    && (n == HookClaude ==> Chosen(env, input, Claude))
    && (n == GrokFallback ==> Chosen(env, input, Grok) && env.grok.hookAllows)
    && (n == ClaudeFallback ==> Chosen(env, input, Claude) && env.claude.hookAllows)
    && (n == GuardrailInput && low ==> input.confirmed.Some?)
    && (n == LocalLlm ==> !low && !env.inputRail.Blocks?)
    && (n == OfflineBestEffort ==> low && input.confirmed.Some? && !env.inputRail.Blocks?)
    && (n == GuardrailOutput ==> HasAnswer(s) && (low ==> input.confirmed.Some?))
    && (n in {AuditLogger, End} ==> s.model.Some? && (HasAnswer(s) <==> !(low && input.confirmed.None?)))
    && (n == End <==> s.event.Some?)
    && (n == End ==> s.event.value == AuditNode(s).event.value)
  }

  ghost predicate Advances(env: Env, input: Input, n: Node, s: State)
    requires n != End
  {
    var s' := Visit(env, input, n, s).0;
    var next := Next(env, input, n, s');
    next.Some? && Reached(env, input, next.value, s')
  }

  lemma {:induction false} RetrieveAdvances(env: Env, input: Input, n: Node, s: State)
    requires n in {Retrieve, RouteByScore} && Reached(env, input, n, s)
    ensures Advances(env, input, n, s)
  {
  }

  lemma {:induction false} UserGateAdvances(env: Env, input: Input, n: Node, s: State)
    requires n == UserGate && Reached(env, input, n, s)
    ensures Advances(env, input, n, s)
  {
  }

  lemma {:induction false} RailAdvances(env: Env, input: Input, n: Node, s: State)
    requires n == GuardrailInput && Reached(env, input, n, s)
    ensures Advances(env, input, n, s)
  {
  }

  lemma {:induction false} HookGrokAdvances(env: Env, input: Input, n: Node, s: State)
    requires n == HookGrok && Reached(env, input, n, s)
    ensures Advances(env, input, n, s)
  {
  }

  lemma {:induction false} HookClaudeAdvances(env: Env, input: Input, n: Node, s: State)
    requires n == HookClaude && Reached(env, input, n, s)
    ensures Advances(env, input, n, s)
  {
  }

  lemma {:induction false} LocalAdvances(env: Env, input: Input, n: Node, s: State)
    requires n == LocalLlm && Reached(env, input, n, s)
    ensures Advances(env, input, n, s)
  {
  }

  lemma {:induction false} OfflineAdvances(env: Env, input: Input, n: Node, s: State)
    requires n == OfflineBestEffort && Reached(env, input, n, s)
    ensures Advances(env, input, n, s)
  {
  }

  lemma {:induction false} FallbackAdvances(env: Env, input: Input, n: Node, s: State)
    requires n in {GrokFallback, ClaudeFallback} && Reached(env, input, n, s)
    ensures Advances(env, input, n, s)
  {
  }

  lemma {:induction false} OutputAdvances(env: Env, input: Input, n: Node, s: State)
    requires n == GuardrailOutput && Reached(env, input, n, s)
    ensures Advances(env, input, n, s)
  {
  }

  lemma {:induction false} AuditKeeps(s: State)
    ensures var s' := AuditNode(s); s' == s.(event := s'.event) && s'.event.Some? && AuditNode(s').event == s'.event
  {
  }

  lemma {:induction false} AuditAdvances(env: Env, input: Input, n: Node, s: State)
    requires n == AuditLogger && Reached(env, input, n, s)
    ensures Advances(env, input, n, s)
  {
    AuditKeeps(s);
    assert Visit(env, input, n, s).0 == AuditNode(s) && Next(env, input, n, AuditNode(s)) == Some(End);
  }

  /** Every step of every run stays on the edge maps and keeps what is known at its node. */
  lemma {:induction false} StepAdvances(env: Env, input: Input, n: Node, s: State)
    requires n != End && Reached(env, input, n, s)
    ensures Advances(env, input, n, s)
  {
    match n
    case Retrieve | RouteByScore => RetrieveAdvances(env, input, n, s);
    case UserGate => UserGateAdvances(env, input, n, s);
    case GuardrailInput => RailAdvances(env, input, n, s);
    case HookGrok => HookGrokAdvances(env, input, n, s);
    case HookClaude => HookClaudeAdvances(env, input, n, s);
    case LocalLlm => LocalAdvances(env, input, n, s);
    case OfflineBestEffort => OfflineAdvances(env, input, n, s);
    case GrokFallback | ClaudeFallback => FallbackAdvances(env, input, n, s);
    case GuardrailOutput => OutputAdvances(env, input, n, s);
    case AuditLogger => AuditAdvances(env, input, n, s);
  }

  // ---------------------------------------------------------------------------------------------
  // What may be called
  // ---------------------------------------------------------------------------------------------

  /** Everything that must hold for a call of `generate` to be made. */
  ghost predicate Permitted(env: Env, input: Input, c: Call) {
    var docs := RetrievedDocs(env);
    match c
    case LocalCall(used) =>
      !env.inputRail.Blocks? && env.localTrusted && !JudgedLow(env) && used == docs
    case OfflineCall(used) =>
      !env.inputRail.Blocks? && env.localTrusted && JudgedLow(env) && input.confirmed.Some? && used == docs
    case ExternalCall(p, used) =>
      && p != LocalModel && Chosen(env, input, p)
      && Settings(env, p).hookAllows && Settings(env, p).hostTrusted
      && used == if Settings(env, p).sendContext then docs else []
  }

  /** The calls of one part of a run: all permitted, all the same, at most one without a wrapper. */
  ghost predicate CallsPermitted(env: Env, input: Input, calls: seq<Call>) {
    && (forall c :: c in calls ==> Permitted(env, input, c))
    && (forall c, d :: c in calls && d in calls ==> c == d)
    && (env.wrapper.NoWrapper? ==> |calls| <= 1)
  }

  lemma {:induction false} LocalVisitCalls(env: Env, input: Input, s: State)
    requires Reached(env, input, LocalLlm, s)
    ensures CallsPermitted(env, input, LocalNode(env, input, s).1)
    ensures forall c :: c in LocalNode(env, input, s).1 ==>
              Callee(c) == LocalModel && LocalNode(env, input, s).0.sources == SourcesOf(env, input, c)
  {
  }

  lemma {:induction false} OfflineVisitCalls(env: Env, input: Input, s: State)
    requires Reached(env, input, OfflineBestEffort, s)
    ensures CallsPermitted(env, input, OfflineNode(env, input, s).1)
    ensures forall c :: c in OfflineNode(env, input, s).1 ==>
              Callee(c) == LocalModel && OfflineNode(env, input, s).0.sources == SourcesOf(env, input, c)
  {
  }

  lemma {:induction false} FallbackVisitCalls(env: Env, input: Input, n: Node, s: State)
    requires n in {GrokFallback, ClaudeFallback} && Reached(env, input, n, s)
    ensures CallsPermitted(env, input, Visit(env, input, n, s).1)
    ensures Visit(env, input, n, s).0.model == Some(External(if n == GrokFallback then Grok else Claude))
    ensures forall c :: c in Visit(env, input, n, s).1 ==> Visit(env, input, n, s).0.sources == SourcesOf(env, input, c)
  {
  }

  /** The way from a node to the end. */
  ghost predicate Converges(env: Env, n: Node, nodes: seq<Node>) {
    && |nodes| <= Rank(n)
    && (n != End ==> nodes != [] && nodes[0] == n && nodes[|nodes| - 1] == AuditLogger)
    && (forall i :: 0 <= i < |nodes| - 1 ==> nodes[i] != AuditLogger)
    && (LocalLlm in nodes ==> !JudgedLow(env))
    && (OfflineBestEffort in nodes ==> JudgedLow(env))
  }

  /** What the rest of a run does, seen from one of its nodes. */
  ghost predicate Completes(env: Env, input: Input, n: Node, s: State, t: Trace) {
    && t.routed
    && Converges(env, n, t.nodes)
    && Reached(env, input, End, t.final)
    && CallsPermitted(env, input, t.calls)
    && (Rank(n) <= 2 ==> t.calls == [] && t.final.model == s.model && (t.final.sources == s.sources || t.final.blocked))
    && (Rank(n) <= 2 && s.blocked ==> t.final.blocked)
    && (forall c :: c in t.calls && Callee(c) != LocalModel ==> t.final.model.Some? && t.final.model.value.External?)
    && (forall c :: c in t.calls ==> t.final.sources == SourcesOf(env, input, c) || t.final.blocked)
  }

  /** What one step contributes. */
  ghost predicate Contributes(env: Env, input: Input, n: Node, s: State, s': State, m: Node, calls: seq<Call>) {
    && n != End && Rank(m) < Rank(n) && (n == AuditLogger <==> m == End)
    && CallsPermitted(env, input, calls)
    && (calls != [] ==> m == GuardrailOutput)
    && (Rank(n) <= 2 ==> calls == [] && s'.model == s.model && (s'.sources == s.sources || s'.blocked))
    && (Rank(n) <= 2 && s.blocked ==> s'.blocked)
    && (forall c :: c in calls && Callee(c) != LocalModel ==> s'.model.Some? && s'.model.value.External?)
    && (forall c :: c in calls ==> s'.sources == SourcesOf(env, input, c))
  }

  ghost predicate StepContributes(env: Env, input: Input, n: Node, s: State)
    requires n != End
  {
    var (s', calls) := Visit(env, input, n, s);
    var next := Next(env, input, n, s');
    next.Some? ==> Contributes(env, input, n, s, s', next.value, calls)
  }

  lemma {:induction false} QuietContributes(env: Env, input: Input, n: Node, s: State)
    requires n != End && !Answering(n)
    ensures StepContributes(env, input, n, s)
  {
  }

  lemma {:induction false} LocalContributes(env: Env, input: Input, s: State)
    requires Reached(env, input, LocalLlm, s)
    ensures StepContributes(env, input, LocalLlm, s)
  {
    LocalVisitCalls(env, input, s);
  }

  lemma {:induction false} OfflineContributes(env: Env, input: Input, s: State)
    requires Reached(env, input, OfflineBestEffort, s)
    ensures StepContributes(env, input, OfflineBestEffort, s)
  {
    OfflineVisitCalls(env, input, s);
  }

  lemma {:induction false} FallbackContributes(env: Env, input: Input, n: Node, s: State)
    requires n in {GrokFallback, ClaudeFallback} && Reached(env, input, n, s)
    ensures StepContributes(env, input, n, s)
  {
    FallbackVisitCalls(env, input, n, s);
  }

  lemma {:induction false} EveryStepContributes(env: Env, input: Input, n: Node, s: State)
    requires n != End && Reached(env, input, n, s)
    ensures StepContributes(env, input, n, s)
  {
    match n
    case LocalLlm => LocalContributes(env, input, s);
    case OfflineBestEffort => OfflineContributes(env, input, s);
    case GrokFallback | ClaudeFallback => FallbackContributes(env, input, n, s);
    case _ => QuietContributes(env, input, n, s);
  }

  lemma {:induction false} PrependNode(env: Env, n: Node, m: Node, nodes: seq<Node>)
    requires Rank(m) < Rank(n) && (n == AuditLogger <==> m == End) && Converges(env, m, nodes)
    requires (n == LocalLlm ==> !JudgedLow(env)) && (n == OfflineBestEffort ==> JudgedLow(env))
    ensures Converges(env, n, [n] + nodes)
  {
  }

  lemma {:induction false} Prepend(env: Env, input: Input, n: Node, s: State, s': State, m: Node, calls: seq<Call>, rest: Trace)
    requires Reached(env, input, n, s) && Contributes(env, input, n, s, s', m, calls) && Completes(env, input, m, s', rest)
    ensures Completes(env, input, n, s, Trace(rest.final, [n] + rest.nodes, calls + rest.calls, rest.routed))
  {
    PrependNode(env, n, m, rest.nodes);
    assert if calls == [] then calls + rest.calls == rest.calls else calls + rest.calls == calls;
  }

  lemma {:induction false} OneMoreStep(env: Env, input: Input, n: Node, s: State)
    requires n != End && Reached(env, input, n, s) && Advances(env, input, n, s)
    requires var s' := Visit(env, input, n, s).0;
             var m := Next(env, input, n, s').value;
             Rank(m) < Rank(n) && Completes(env, input, m, s', RunFrom(env, input, m, s'))
    ensures Completes(env, input, n, s, RunFrom(env, input, n, s))
  {
    var (s', calls) := Visit(env, input, n, s);
    var m := Next(env, input, n, s').value;
    EveryStepContributes(env, input, n, s);
    Prepend(env, input, n, s, s', m, calls, RunFrom(env, input, m, s'));
  }

  lemma {:induction false} RunCompletes(env: Env, input: Input, n: Node, s: State)
    requires Reached(env, input, n, s)
    ensures Completes(env, input, n, s, RunFrom(env, input, n, s))
    decreases Rank(n)
  {
    if n != End {
      StepAdvances(env, input, n, s);
      EveryStepContributes(env, input, n, s);
      var s' := Visit(env, input, n, s).0;
      RunCompletes(env, input, Next(env, input, n, s').value, s');
      OneMoreStep(env, input, n, s);
    }
  }

  // ---------------------------------------------------------------------------------------------
  // The guarantees, over every run
  // ---------------------------------------------------------------------------------------------

  /** Every run starts at retrieve, executes at most seven nodes, passes the audit node exactly once and
      last, and no router ever returns a label its edge map does not have.  The local node only answers
      high-score queries and the offline node only low-score ones. */
  lemma {:induction false} Convergence(env: Env, input: Input)
    ensures var t := Run(env, input);
            && t.routed
            && 0 < |t.nodes| <= 7 && t.nodes[0] == Retrieve && t.nodes[|t.nodes| - 1] == AuditLogger
            && (forall i :: 0 <= i < |t.nodes| - 1 ==> t.nodes[i] != AuditLogger)
            && t.final.event.Some?
            && (LocalLlm in t.nodes ==> !JudgedLow(env)) && (OfflineBestEffort in t.nodes ==> JudgedLow(env))
  {
    RunCompletes(env, input, Retrieve, START);
  }

  /** A provider is called only when the hit was judged low, the user confirmed, this provider was
      selected, its client exists -- hence hybrid mode and literal enablement -- and has its key, its
      hook allowed the call and its destination is trusted; then nobody else is called in the run, and
      the audit event says so. */
  lemma {:induction false} ExternalCallSafety(env: Env, input: Input, c: Call)
    requires c in Run(env, input).calls && Callee(c) != LocalModel
    ensures JudgedLow(env) && input.confirmed == Some(true) && Selected(input) == ProviderName(Callee(c))
    ensures env.hybrid && Settings(env, Callee(c)).enabledTrue && Settings(env, Callee(c)).keySet
    ensures Settings(env, Callee(c)).hookAllows && Settings(env, Callee(c)).hostTrusted
    ensures forall d :: d in Run(env, input).calls ==> d == c
    ensures Run(env, input).final.event.Some? && Run(env, input).final.event.value.onlineEscalated
  {
    RunCompletes(env, input, Retrieve, START);
    assert Permitted(env, input, c);
  }

  /** A blocking input rail keeps every query from the local model, whichever edge it arrived by; and
      without a wrapper a run calls at most one model at most once. */
  lemma {:induction false} InputRailCoverage(env: Env, input: Input)
    ensures env.inputRail.Blocks? ==> forall c :: c in Run(env, input).calls ==> Callee(c) != LocalModel
    ensures env.wrapper.NoWrapper? ==> |Run(env, input).calls| <= 1
  {
    RunCompletes(env, input, Retrieve, START);
    assert forall c :: c in Run(env, input).calls ==> Permitted(env, input, c);
  }

  /** `needs_confirm` in the HTTP response: the flag is never cleared, so the empty answer decides. */
  predicate AsksUser(s: State) {
    IsTrue(s.needsConfirm) && !HasAnswer(s)
  }

  /** The response asks the user exactly when the query was judged low and the user has not said
      anything yet; nothing has been called then, and the audit event is the pause. */
  lemma {:induction false} PauseIsExact(env: Env, input: Input)
    ensures var t := Run(env, input);
            && (AsksUser(t.final) <==> JudgedLow(env) && input.confirmed.None?)
            && (AsksUser(t.final) ==> t.calls == [])
            && t.final.event.Some? && (AsksUser(t.final) <==> t.final.event.value.pause)
  {
    RunCompletes(env, input, Retrieve, START);
    var t := Run(env, input);
    assert t.calls == [] || Permitted(env, input, t.calls[0]);
  }

  /** A failed retrieval is reported on every path, in the response and in the audit event. */
  lemma {:induction false} RetrievalErrorReported(env: Env, input: Input)
    requires env.retrieval.RetrievalError?
    ensures var final := Run(env, input).final;
            final.error.Some? && final.event.Some? && final.event.value.error == final.error
  {
    RunCompletes(env, input, Retrieve, START);
  }

  // ---------------------------------------------------------------------------------------------
  // The whole run, from what is given
  // ---------------------------------------------------------------------------------------------

  /** Who deals with a query. */
  datatype Way = Paused | Railed | ByLocal | ByOffline | Denied(asked: Provider) | ByProvider(asked: Provider)

  /** The provider a confirmed low query goes to, if it can: Grok unless Claude is named, in hybrid mode, with
      literal enablement and a key. */
  ghost function Escalates(env: Env, input: Input): Option<Provider> {
    if input.confirmed != Some(true) || !env.hybrid then None
    else if input.provider == Some("claude") && env.claude.enabledTrue && env.claude.keySet then Some(Claude)
    else if input.provider in {None, Some(""), Some("grok")} && env.grok.enabledTrue && env.grok.keySet then Some(Grok)
    else None
  }

  ghost function WayOf(env: Env, input: Input): Way {
    if JudgedLow(env) && input.confirmed.None? then Paused
    else if JudgedLow(env) && Escalates(env, input) == Some(Claude) then
      if env.claude.hookAllows then ByProvider(Claude) else Denied(Claude)
    else if JudgedLow(env) && Escalates(env, input) == Some(Grok) then
      if env.grok.hookAllows then ByProvider(Grok) else Denied(Grok)
    else if env.inputRail.Blocks? then Railed
    else if JudgedLow(env) then ByOffline
    else ByLocal
  }

  /** The nodes of each way, after the score is judged and, on a low one, the user was asked. */
  ghost function Ending(way: Way): seq<Node> {
    match way
    case Paused => [AuditLogger]
    case Railed => [GuardrailInput, AuditLogger]
    case ByLocal => [GuardrailInput, LocalLlm, GuardrailOutput, AuditLogger]
    case ByOffline => [GuardrailInput, OfflineBestEffort, GuardrailOutput, AuditLogger]
    case Denied(p) => [if p == Grok then HookGrok else HookClaude, AuditLogger]
    case ByProvider(p) =>
      [if p == Grok then HookGrok else HookClaude, if p == Grok then GrokFallback else ClaudeFallback, GuardrailOutput, AuditLogger]
  }

  ghost function NodesOf(env: Env, way: Way): seq<Node> {
    if JudgedLow(env) then [Retrieve, RouteByScore, UserGate] + Ending(way) else [Retrieve, RouteByScore] + Ending(way)
  }

  /** The documents of the retrieval, none if it failed. */
  ghost predicate Retrieved(env: Env, docs: seq<Doc>) {
    match env.retrieval
    case RetrievalError(_) => docs == []
    case Hits(hits) => |docs| == |hits| && forall i :: 0 <= i < |hits| ==> docs[i] == hits[i].doc
  }

  /** The one call of a way, if it makes any: its destination has to be trusted. */
  ghost function CallOf(env: Env, way: Way, docs: seq<Doc>): Option<Call> {
    match way
    case ByLocal => if env.localTrusted then Some(LocalCall(docs)) else None
    case ByOffline => if env.localTrusted then Some(OfflineCall(docs)) else None
    case ByProvider(p) =>
      var cfg := if p == Grok then env.grok else env.claude;
      if cfg.hostTrusted then Some(ExternalCall(p, if cfg.sendContext then docs else [])) else None
    case _ => None
  }

  /** How often it is made. */
  ghost function Times(env: Env): nat {
    match env.wrapper
    case NoWrapper => 1
    case Returns(calls, _) => calls
    case Fails(calls) => calls + 1
  }

  /** The error of the answer, if there is one. */
  ghost function CallError(env: Env): Option<string> {
    if env.wrapper.Returns? then env.wrapper.error else env.generateError
  }

  ghost function ModelOf(way: Way): Model {
    match way
    case Paused => Nobody
    case Railed => GuardrailBlocked
    case ByLocal => Local
    case ByOffline => OfflineModel
    case Denied(_) => HookDenied
    case ByProvider(p) => External(p)
  }

  /** The error a run ends with: that of the answer or of a refusal, or else that of the retrieval. */
  ghost function ErrorOf(env: Env, way: Way, call: Option<Call>): Option<string> {
    var earlier := if env.retrieval.RetrievalError? then Some(env.retrieval.message) else None;
    if way.Denied? then Some("hook")
    else if way.ByLocal? || way.ByOffline? || way.ByProvider? then
      if call.None? then Some("trust") else if CallError(env).Some? then CallError(env) else earlier
    else earlier
  }

  /** Whether the output rail looks at the answer: only at one of the local model on its own way. */
  ghost predicate OutputBlocked(env: Env, way: Way) {
    way.ByLocal? && env.outputRail.Blocks?
  }

  ghost predicate RailDegraded(env: Env, way: Way) {
    || ((way.Railed? || way.ByLocal? || way.ByOffline?) && env.inputRail.Raises?)
    || (way.ByLocal? && env.outputRail.Raises?)
  }

  /** The calls of a run and what it leaves, said of its environment alone. */
  ghost predicate Leaves(env: Env, input: Input, way: Way, docs: seq<Doc>, calls: seq<Call>, final: State) {
    var call := CallOf(env, way, docs);
    && calls == (if call.Some? then Repeat(call.value, Times(env)) else [])
    && final.docs == docs
    && final.needsConfirm == Some(JudgedLow(env))
    && final.model == Some(ModelOf(way))
    && final.sources == (if call.Some? && !OutputBlocked(env, way) then SourcesOf(env, input, call.value) else [])
    && final.error == ErrorOf(env, way, call)
    && final.blocked == (way.Railed? || OutputBlocked(env, way))
    && final.degraded == RailDegraded(env, way)
    && final.hookDenied == way.Denied?
    && final.event == Some(AuditEvent(way.Paused?, way.ByProvider?, Some(ModelOf(way)), final.blocked, final.degraded,
                                      way.Denied?, final.error))
  }

  /** From this node on, a run takes these nodes and leaves that. */
  ghost predicate Ends(env: Env, input: Input, way: Way, docs: seq<Doc>, n: Node, s: State, nodes: seq<Node>) {
    var t := RunFrom(env, input, n, s);
    t.routed && t.nodes == nodes && Leaves(env, input, way, docs, t.calls, t.final)
  }

  /** A quiet step. */
  ghost predicate Steps(env: Env, input: Input, n: Node, s: State, m: Node, s': State) {
    n != End && Visit(env, input, n, s) == (s', []) && Next(env, input, n, s') == Some(m)
  }

  lemma {:induction false} OnwardRun(env: Env, input: Input, n: Node, s: State, m: Node, s': State)
    requires Steps(env, input, n, s, m, s')
    ensures var rest := RunFrom(env, input, m, s');
            RunFrom(env, input, n, s) == Trace(rest.final, [n] + rest.nodes, rest.calls, rest.routed)
  {
    var rest := RunFrom(env, input, m, s');
    assert [] + rest.calls == rest.calls;
  }

  lemma {:induction false} Onward(env: Env, input: Input, way: Way, docs: seq<Doc>, n: Node, s: State, m: Node, s': State,
                                  nodes: seq<Node>, all: seq<Node>)
    requires Steps(env, input, n, s, m, s') && Ends(env, input, way, docs, m, s', nodes) && all == [n] + nodes
    ensures Ends(env, input, way, docs, n, s, all)
  {
    OnwardRun(env, input, n, s, m, s');
  }

  lemma {:induction false} FromAudit(env: Env, input: Input, s: State)
    ensures RunFrom(env, input, AuditLogger, s) == Trace(AuditNode(s), [AuditLogger], [], true)
  {
    assert RunFrom(env, input, End, AuditNode(s)) == Trace(AuditNode(s), [], [], true);
  }

  lemma {:induction false} FromOutput(env: Env, input: Input, s: State)
    ensures RunFrom(env, input, GuardrailOutput, s) ==
            Trace(AuditNode(GuardrailOutputNode(env, s)), [GuardrailOutput, AuditLogger], [], true)
  {
    FromAudit(env, input, GuardrailOutputNode(env, s));
    assert [GuardrailOutput] + [AuditLogger] == [GuardrailOutput, AuditLogger];
  }

  lemma {:induction false} FromAnswer(env: Env, input: Input, n: Node, s: State)
    requires Answering(n)
    ensures var (s', calls) := Visit(env, input, n, s);
            RunFrom(env, input, n, s) == Trace(AuditNode(GuardrailOutputNode(env, s')), [n, GuardrailOutput, AuditLogger], calls, true)
  {
    var (s', calls) := Visit(env, input, n, s);
    FromOutput(env, input, s');
    assert [n] + [GuardrailOutput, AuditLogger] == [n, GuardrailOutput, AuditLogger];
    assert calls + [] == calls;
  }

  /** The state of a run whose score is judged and whose answer is still open. */
  ghost predicate Open(env: Env, docs: seq<Doc>, s: State) {
    && s.docs == docs && s.needsConfirm == Some(JudgedLow(env)) && s.model.None? && s.sources == []
    && !s.blocked && !s.degraded && !s.hookDenied && s.event.None?
    && s.error == (if env.retrieval.RetrievalError? then Some(env.retrieval.message) else None)
  }

  lemma {:induction false} GeneratesAsOften(env: Env, c: Call)
    ensures Generate(env, c) == (Repeat(c, Times(env)), CallError(env))
  {
    match env.wrapper
    case NoWrapper => assert Repeat(c, 1) == [c] + Repeat(c, 0) == [c];
    case Returns(_, _) =>
    case Fails(calls) => RepeatMore(c, calls);
  }

  lemma {:induction false} RepeatMore(c: Call, n: nat)
    ensures Repeat(c, n) + [c] == Repeat(c, n + 1)
  {
    if n > 0 {
      RepeatMore(c, n - 1);
      assert Repeat(c, n) + [c] == [c] + (Repeat(c, n - 1) + [c]);
    } else {
      assert Repeat(c, 1) == [c] + Repeat(c, 0);
    }
  }

  lemma {:induction false} LocalAnswers(env: Env, input: Input, docs: seq<Doc>, s: State)
    requires Open(env, docs, s.(degraded := false))
    ensures var call := CallOf(env, ByLocal, docs);
            LocalNode(env, input, s) ==
              (s.(model := Some(Local), sources := if call.Some? then SourcesOf(env, input, call.value) else [],
                  error := ErrorOf(env, ByLocal, call)),
               if call.Some? then Repeat(call.value, Times(env)) else [])
  {
    GeneratesAsOften(env, LocalCall(docs));
  }

  lemma {:induction false} LocalEnds(env: Env, input: Input, docs: seq<Doc>, s: State)
    requires !JudgedLow(env) && Open(env, docs, s.(degraded := false)) && s.degraded == env.inputRail.Raises?
    ensures Ends(env, input, ByLocal, docs, LocalLlm, s, [LocalLlm, GuardrailOutput, AuditLogger])
  {
    LocalAnswers(env, input, docs, s);
    FromAnswer(env, input, LocalLlm, s);
  }

  lemma {:induction false} OfflineEnds(env: Env, input: Input, docs: seq<Doc>, s: State)
    requires JudgedLow(env) && Open(env, docs, s.(degraded := false)) && s.degraded == env.inputRail.Raises?
    ensures Ends(env, input, ByOffline, docs, OfflineBestEffort, s, [OfflineBestEffort, GuardrailOutput, AuditLogger])
  {
    GeneratesAsOften(env, OfflineCall(docs));
    FromAnswer(env, input, OfflineBestEffort, s);
  }

  lemma {:induction false} ProviderAnswers(env: Env, input: Input, p: Provider, docs: seq<Doc>, s: State)
    requires p != LocalModel && JudgedLow(env) && Open(env, docs, s) && HasClient(env, p) && input.confirmed == Some(true)
    ensures var way := ByProvider(p);
            var call := CallOf(env, way, docs);
            FallbackNode(env, input, p, s) ==
              (s.(model := Some(External(p)), sources := if call.Some? then SourcesOf(env, input, call.value) else [],
                  error := ErrorOf(env, way, call)),
               if call.Some? then Repeat(call.value, Times(env)) else [])
  {
    GeneratesAsOften(env, ExternalCall(p, if Settings(env, p).sendContext then docs else []));
  }

  lemma {:induction false} ProviderEnds(env: Env, input: Input, p: Provider, docs: seq<Doc>, s: State)
    requires p != LocalModel && JudgedLow(env) && Open(env, docs, s) && HasClient(env, p) && input.confirmed == Some(true)
    ensures var n := if p == Grok then GrokFallback else ClaudeFallback;
            Ends(env, input, ByProvider(p), docs, n, s, [n, GuardrailOutput, AuditLogger])
  {
    var n := if p == Grok then GrokFallback else ClaudeFallback;
    ProviderAnswers(env, input, p, docs, s);
    FromAnswer(env, input, n, s);
    assert Visit(env, input, n, s) == FallbackNode(env, input, p, s);
  }

  lemma {:induction false} RailBlocks(env: Env, input: Input, docs: seq<Doc>, s: State) returns (s': State)
    requires Open(env, docs, s) && env.inputRail.Blocks?
    ensures Steps(env, input, GuardrailInput, s, AuditLogger, s')
    ensures Ends(env, input, Railed, docs, AuditLogger, s', [AuditLogger])
  {
    s' := s.(model := Some(GuardrailBlocked), sources := [], blocked := true);
    FromAudit(env, input, s');
  }

  lemma {:induction false} RailedEnds(env: Env, input: Input, docs: seq<Doc>, s: State)
    requires Open(env, docs, s) && env.inputRail.Blocks?
    ensures Ends(env, input, Railed, docs, GuardrailInput, s, Ending(Railed))
  {
    var s' := RailBlocks(env, input, docs, s);
    Onward(env, input, Railed, docs, GuardrailInput, s, AuditLogger, s', [AuditLogger], Ending(Railed));
  }

  lemma {:induction false} RailLetsPass(env: Env, input: Input, docs: seq<Doc>, s: State)
    requires Open(env, docs, s) && !env.inputRail.Blocks?
    ensures var s' := s.(degraded := env.inputRail.Raises?);
            && Open(env, docs, s'.(degraded := false))
            && Steps(env, input, GuardrailInput, s, if JudgedLow(env) then OfflineBestEffort else LocalLlm, s')
  {
  }

  lemma {:induction false} EndingsAre(p: Provider)
    ensures Ending(ByOffline) == [GuardrailInput] + [OfflineBestEffort, GuardrailOutput, AuditLogger]
    ensures Ending(ByLocal) == [GuardrailInput] + [LocalLlm, GuardrailOutput, AuditLogger]
    ensures Ending(ByProvider(p)) == [if p == Grok then HookGrok else HookClaude]
                                     + [if p == Grok then GrokFallback else ClaudeFallback, GuardrailOutput, AuditLogger]
  {
  }

  lemma {:induction false} RailToOffline(env: Env, input: Input, docs: seq<Doc>, s: State)
    requires Open(env, docs, s) && !env.inputRail.Blocks? && JudgedLow(env)
    ensures Ends(env, input, ByOffline, docs, GuardrailInput, s, Ending(ByOffline))
  {
    var s' := s.(degraded := env.inputRail.Raises?);
    RailLetsPass(env, input, docs, s);
    OfflineEnds(env, input, docs, s');
    EndingsAre(Grok);
    Onward(env, input, ByOffline, docs, GuardrailInput, s, OfflineBestEffort, s', [OfflineBestEffort, GuardrailOutput, AuditLogger],
           Ending(ByOffline));
  }

  lemma {:induction false} RailToLocal(env: Env, input: Input, docs: seq<Doc>, s: State)
    requires Open(env, docs, s) && !env.inputRail.Blocks? && !JudgedLow(env)
    ensures Ends(env, input, ByLocal, docs, GuardrailInput, s, Ending(ByLocal))
  {
    var s' := s.(degraded := env.inputRail.Raises?);
    RailLetsPass(env, input, docs, s);
    LocalEnds(env, input, docs, s');
    EndingsAre(Grok);
    Onward(env, input, ByLocal, docs, GuardrailInput, s, LocalLlm, s', [LocalLlm, GuardrailOutput, AuditLogger], Ending(ByLocal));
  }

  /** From the input rail on. */
  lemma {:induction false} RailEnds(env: Env, input: Input, docs: seq<Doc>, s: State)
    requires Open(env, docs, s)
    ensures var way := if env.inputRail.Blocks? then Railed else if JudgedLow(env) then ByOffline else ByLocal;
            Ends(env, input, way, docs, GuardrailInput, s, Ending(way))
  {
    if env.inputRail.Blocks? {
      RailedEnds(env, input, docs, s);
    } else if JudgedLow(env) {
      RailToOffline(env, input, docs, s);
    } else {
      RailToLocal(env, input, docs, s);
    }
  }

  lemma {:induction false} HookRefuses(env: Env, input: Input, p: Provider, docs: seq<Doc>, s: State) returns (s': State)
    requires p != LocalModel && Open(env, docs, s) && !Settings(env, p).hookAllows
    ensures Steps(env, input, if p == Grok then HookGrok else HookClaude, s, AuditLogger, s')
    ensures Ends(env, input, Denied(p), docs, AuditLogger, s', [AuditLogger])
  {
    s' := s.(model := Some(HookDenied), sources := [], error := Some("hook"), hookDenied := true);
    FromAudit(env, input, s');
  }

  lemma {:induction false} HookDenies(env: Env, input: Input, p: Provider, docs: seq<Doc>, s: State)
    requires p != LocalModel && Open(env, docs, s) && !Settings(env, p).hookAllows
    ensures Ends(env, input, Denied(p), docs, if p == Grok then HookGrok else HookClaude, s, Ending(Denied(p)))
  {
    var s' := HookRefuses(env, input, p, docs, s);
    Onward(env, input, Denied(p), docs, if p == Grok then HookGrok else HookClaude, s, AuditLogger, s', [AuditLogger],
           Ending(Denied(p)));
  }

  lemma {:induction false} HookLetsPass(env: Env, input: Input, p: Provider, docs: seq<Doc>, s: State)
    requires p != LocalModel && Open(env, docs, s) && Escalates(env, input) == Some(p) && Settings(env, p).hookAllows
    ensures Steps(env, input, if p == Grok then HookGrok else HookClaude, s, if p == Grok then GrokFallback else ClaudeFallback, s)
  {
  }

  lemma {:induction false} HookPasses(env: Env, input: Input, p: Provider, docs: seq<Doc>, s: State)
    requires p != LocalModel && JudgedLow(env) && Open(env, docs, s) && Escalates(env, input) == Some(p) && Settings(env, p).hookAllows
    ensures Ends(env, input, ByProvider(p), docs, if p == Grok then HookGrok else HookClaude, s, Ending(ByProvider(p)))
  {
    var n, m := if p == Grok then HookGrok else HookClaude, if p == Grok then GrokFallback else ClaudeFallback;
    HookLetsPass(env, input, p, docs, s);
    ProviderEnds(env, input, p, docs, s);
    EndingsAre(p);
    Onward(env, input, ByProvider(p), docs, n, s, m, s, [m, GuardrailOutput, AuditLogger], Ending(ByProvider(p)));
  }

  /** From a hook on. */
  lemma {:induction false} HookEnds(env: Env, input: Input, p: Provider, docs: seq<Doc>, s: State)
    requires p != LocalModel && JudgedLow(env) && Open(env, docs, s) && Escalates(env, input) == Some(p)
    ensures var way := if Settings(env, p).hookAllows then ByProvider(p) else Denied(p);
            Ends(env, input, way, docs, if p == Grok then HookGrok else HookClaude, s, Ending(way))
  {
    if Settings(env, p).hookAllows {
      HookPasses(env, input, p, docs, s);
    } else {
      HookDenies(env, input, p, docs, s);
    }
  }

  lemma {:induction false} GatePauses(env: Env, input: Input, docs: seq<Doc>, s: State) returns (s': State)
    requires JudgedLow(env) && Open(env, docs, s) && input.confirmed.None?
    ensures Steps(env, input, UserGate, s, AuditLogger, s')
    ensures Ends(env, input, Paused, docs, AuditLogger, s', [AuditLogger])
  {
    s' := s.(model := Some(Nobody), needsConfirm := Some(true));
    FromAudit(env, input, s');
  }

  lemma {:induction false} PauseEnds(env: Env, input: Input, docs: seq<Doc>, s: State)
    requires JudgedLow(env) && Open(env, docs, s) && input.confirmed.None?
    ensures Ends(env, input, Paused, docs, UserGate, s, [UserGate] + Ending(Paused))
  {
    var s' := GatePauses(env, input, docs, s);
    Onward(env, input, Paused, docs, UserGate, s, AuditLogger, s', Ending(Paused), [UserGate] + Ending(Paused));
  }

  /** Where the user gate sends an answered query. */
  lemma {:induction false} GateRoutes(env: Env, input: Input, s: State)
    requires input.confirmed.Some?
    ensures Steps(env, input, UserGate, s,
              match Escalates(env, input)
              case None => GuardrailInput
              case Some(p) => if p == Grok then HookGrok else HookClaude, s)
  {
  }

  lemma {:induction false} GateToRail(env: Env, input: Input, docs: seq<Doc>, s: State)
    requires JudgedLow(env) && Open(env, docs, s) && input.confirmed.Some? && Escalates(env, input).None?
    ensures Ends(env, input, WayOf(env, input), docs, UserGate, s, [UserGate] + Ending(WayOf(env, input)))
  {
    var way := WayOf(env, input);
    GateRoutes(env, input, s);
    RailEnds(env, input, docs, s);
    Onward(env, input, way, docs, UserGate, s, GuardrailInput, s, Ending(way), [UserGate] + Ending(way));
  }

  lemma {:induction false} GateToHook(env: Env, input: Input, p: Provider, docs: seq<Doc>, s: State)
    requires JudgedLow(env) && Open(env, docs, s) && Escalates(env, input) == Some(p)
    ensures Ends(env, input, WayOf(env, input), docs, UserGate, s, [UserGate] + Ending(WayOf(env, input)))
  {
    var way := WayOf(env, input);
    GateRoutes(env, input, s);
    HookEnds(env, input, p, docs, s);
    Onward(env, input, way, docs, UserGate, s, if p == Grok then HookGrok else HookClaude, s, Ending(way), [UserGate] + Ending(way));
  }

  /** From the user gate on. */
  lemma {:induction false} GateEnds(env: Env, input: Input, docs: seq<Doc>, s: State)
    requires JudgedLow(env) && Open(env, docs, s)
    ensures Ends(env, input, WayOf(env, input), docs, UserGate, s, [UserGate] + Ending(WayOf(env, input)))
  {
    if input.confirmed.None? {
      PauseEnds(env, input, docs, s);
    } else {
      match Escalates(env, input)
      case None => GateToRail(env, input, docs, s);
      case Some(p) => GateToHook(env, input, p, docs, s);
    }
  }

  lemma {:induction false} BeginsOpen(env: Env) returns (docs: seq<Doc>, s: State)
    ensures s == RouteByScoreNode(env, RetrieveNode(env, START))
    ensures Retrieved(env, docs) && Open(env, docs, s)
  {
    s := RouteByScoreNode(env, RetrieveNode(env, START));
    docs := s.docs;
  }

  lemma {:induction false} ScoreRoutes(env: Env, input: Input, docs: seq<Doc>, s1: State)
    requires Open(env, docs, RouteByScoreNode(env, s1))
    ensures Steps(env, input, RouteByScore, s1, if JudgedLow(env) then UserGate else GuardrailInput, RouteByScoreNode(env, s1))
  {
  }

  /** The rest of a run once the score is judged. */
  lemma {:induction false} JudgedEnds(env: Env, input: Input, docs: seq<Doc>, s1: State)
    requires Open(env, docs, RouteByScoreNode(env, s1))
    ensures var way := WayOf(env, input);
            Ends(env, input, way, docs, RouteByScore, s1,
                 [RouteByScore] + if JudgedLow(env) then [UserGate] + Ending(way) else Ending(way))
  {
    var way, s := WayOf(env, input), RouteByScoreNode(env, s1);
    ScoreRoutes(env, input, docs, s1);
    if JudgedLow(env) {
      var rest := [UserGate] + Ending(way);
      GateEnds(env, input, docs, s);
      Onward(env, input, way, docs, RouteByScore, s1, UserGate, s, rest, [RouteByScore] + rest);
    } else {
      RailEnds(env, input, docs, s);
      Onward(env, input, way, docs, RouteByScore, s1, GuardrailInput, s, Ending(way), [RouteByScore] + Ending(way));
    }
  }

  lemma {:induction false} NodesAre(rest: seq<Node>)
    ensures [Retrieve] + ([RouteByScore] + rest) == [Retrieve, RouteByScore] + rest
    ensures [Retrieve] + ([RouteByScore] + ([UserGate] + rest)) == [Retrieve, RouteByScore, UserGate] + rest
  {
  }

  lemma {:induction false} RetrieveStep(env: Env, input: Input)
    ensures Steps(env, input, Retrieve, START, RouteByScore, RetrieveNode(env, START))
  {
  }

  lemma {:induction false} RunEnds(env: Env, input: Input) returns (docs: seq<Doc>)
    ensures Retrieved(env, docs)
    ensures Ends(env, input, WayOf(env, input), docs, Retrieve, START, NodesOf(env, WayOf(env, input)))
  {
    var s;
    var way := WayOf(env, input);
    docs, s := BeginsOpen(env);
    JudgedEnds(env, input, docs, RetrieveNode(env, START));
    RetrieveStep(env, input);
    NodesAre(Ending(way));
    Onward(env, input, way, docs, Retrieve, START, RouteByScore, RetrieveNode(env, START),
           [RouteByScore] + (if JudgedLow(env) then [UserGate] + Ending(way) else Ending(way)), NodesOf(env, way));
  }

  /** The whole graph in one statement: for every environment and every query, the nodes a run visits, the
      calls it makes -- whom, about which documents, how often -- and the answer, sources, error, flags and audit
      event it leaves are those of its way. */
  lemma {:induction false} RunIsExact(env: Env, input: Input)
    ensures var t, way := Run(env, input), WayOf(env, input);
            && t.routed && t.nodes == NodesOf(env, way)
            && Retrieved(env, t.final.docs) && Leaves(env, input, way, t.final.docs, t.calls, t.final)
  {
    var docs := RunEnds(env, input);
  }

  /** An ordinary query is answered: judged high, past the rail, the local host trusted, the local model is
      called once about what was retrieved, and the answer has an error exactly when retrieval or generation
      failed. */
  lemma {:induction false} HighScoreIsAnswered(env: Env, input: Input)
    requires env.wrapper.NoWrapper? && !JudgedLow(env) && !env.inputRail.Blocks? && env.localTrusted
    ensures var t := Run(env, input);
            && t.calls == [LocalCall(RetrievedDocs(env))] && t.final.model == Some(Local)
            && (t.final.error.Some? <==> env.retrieval.RetrievalError? || env.generateError.Some?)
            && (!env.outputRail.Blocks? ==> t.final.sources == SourcesOf(env, input, LocalCall(RetrievedDocs(env))))
  {
    RunIsExact(env, input);
    OneCall(env, input, LocalCall(RetrievedDocs(env)));
  }

  /** A low query whose user declines is answered as well as it can be, on this machine. */
  lemma {:induction false} DeclinedIsAnsweredOffline(env: Env, input: Input)
    requires env.wrapper.NoWrapper? && JudgedLow(env) && input.confirmed == Some(false) && !env.inputRail.Blocks? && env.localTrusted
    ensures var t := Run(env, input);
            && t.calls == [OfflineCall(RetrievedDocs(env))] && t.final.model == Some(OfflineModel)
            && (t.final.error.Some? <==> env.retrieval.RetrievalError? || env.generateError.Some?)
            && t.final.sources == SourcesOf(env, input, OfflineCall(RetrievedDocs(env)))
  {
    RunIsExact(env, input);
    OneCall(env, input, OfflineCall(RetrievedDocs(env)));
  }

  lemma {:induction false} ChosenWay(env: Env, input: Input, p: Provider)
    requires p != LocalModel && Chosen(env, input, p) && Settings(env, p).hookAllows
    ensures WayOf(env, input) == ByProvider(p)
  {
  }

  /** A low query the user confirmed goes to the provider it is for, if that one is usable, its hook allows it
      and its destination is trusted. */
  lemma {:induction false} ConfirmedIsEscalated(env: Env, input: Input, p: Provider)
    requires env.wrapper.NoWrapper? && p != LocalModel && Chosen(env, input, p)
    requires Settings(env, p).hookAllows && Settings(env, p).hostTrusted
    ensures var t, call := Run(env, input), ExternalCall(p, if Settings(env, p).sendContext then RetrievedDocs(env) else []);
            && t.calls == [call] && t.final.model == Some(External(p)) && t.final.event.Some? && t.final.event.value.onlineEscalated
            && (t.final.error.Some? <==> env.retrieval.RetrievalError? || env.generateError.Some?)
            && t.final.sources == SourcesOf(env, input, call)
  {
    RunIsExact(env, input);
    ChosenWay(env, input, p);
    OneCall(env, input, ExternalCall(p, if Settings(env, p).sendContext then RetrievedDocs(env) else []));
  }

  lemma {:induction false} OneCall(env: Env, input: Input, c: Call)
    requires env.wrapper.NoWrapper? && Retrieved(env, Run(env, input).final.docs)
    ensures Run(env, input).final.docs == RetrievedDocs(env)
    ensures Repeat(c, Times(env)) == [c]
  {
    DocsAre(env, Run(env, input).final.docs);
    OnceIs(c);
  }

  lemma {:induction false} DocsAre(env: Env, docs: seq<Doc>)
    requires Retrieved(env, docs)
    ensures docs == RetrievedDocs(env)
  {
  }

  lemma {:induction false} OnceIs(c: Call)
    ensures Repeat(c, 1) == [c]
  {
    assert Repeat(c, 0) == [];
  }

  /** The prompt a call sends. */
  function PromptText(env: Env, input: Input, c: Call): string
    requires c.ExternalCall? ==> c.provider != LocalModel
  {
    match c
    case LocalCall(docs) => LocalPrompt(env.maxTokens, env.soul, input.query, env.tag, docs)
    case OfflineCall(docs) => OfflinePrompt(env.maxTokens, env.soul, input.query, env.tag, docs)
    case ExternalCall(p, docs) =>
      var cfg := Settings(env, p);
      ExternalPrompt(cfg.sendContext, input.query, env.tag, docs, cfg.maxChars).0
  }

  /** The longest prompt a call may send: an external one its cap, if there is one; a local one the
      configured window, or the fixed text plus the context floor. */
  ghost predicate WithinBound(env: Env, input: Input, c: Call, length: nat)
    requires c.ExternalCall? ==> c.provider != LocalModel
  {
    var fixed := |Preamble(env.soul)| + |input.query| + MIN_CONTEXT_CHARS;
    match c
    case LocalCall(_) => length <= Max(CHARS_PER_TOKEN * env.maxTokens, fixed + LOCAL_FRAMING_CHARS)
    case OfflineCall(_) => length <= Max(CHARS_PER_TOKEN * env.maxTokens, fixed + |Identity(env.soul)| + OFFLINE_FRAMING_CHARS)
    case ExternalCall(p, _) => Settings(env, p).maxChars > 0 ==> length <= Settings(env, p).maxChars
  }

  lemma {:induction false} LocalWithinBound(env: Env, input: Input, docs: seq<Doc>)
    requires |env.tag| == 12
    ensures WithinBound(env, input, LocalCall(docs), |PromptText(env, input, LocalCall(docs))|)
  {
    LocalPromptBound(env.maxTokens, env.soul, input.query, env.tag, docs);
  }

  lemma {:induction false} OfflineWithinBound(env: Env, input: Input, docs: seq<Doc>)
    requires |env.tag| == 12
    ensures WithinBound(env, input, OfflineCall(docs), |PromptText(env, input, OfflineCall(docs))|)
  {
    OfflinePromptBound(env.maxTokens, env.soul, input.query, env.tag, docs);
  }

  lemma {:induction false} ExternalWithinBound(env: Env, input: Input, p: Provider, docs: seq<Doc>)
    requires p != LocalModel
    ensures WithinBound(env, input, ExternalCall(p, docs), |PromptText(env, input, ExternalCall(p, docs))|)
  {
    var cfg := Settings(env, p);
    if cfg.maxChars > 0 {
      ExternalPromptCapped(cfg.sendContext, input.query, env.tag, docs, cfg.maxChars);
    }
  }

  lemma {:induction false} PromptWithinBound(env: Env, input: Input, c: Call)
    requires |env.tag| == 12 && (c.ExternalCall? ==> c.provider != LocalModel)
    ensures WithinBound(env, input, c, |PromptText(env, input, c)|)
  {
    match c
    case LocalCall(docs) => LocalWithinBound(env, input, docs);
    case OfflineCall(docs) => OfflineWithinBound(env, input, docs);
    case ExternalCall(p, docs) => ExternalWithinBound(env, input, p, docs);
  }

  /** Every prompt that leaves the graph in any run is bounded, and is made from the documents of that
      run's retrieval; where forwarding is off it is the query line, cut to the cap, and nothing else. */
  lemma {:induction false} PromptsBounded(env: Env, input: Input, c: Call)
    requires |env.tag| == 12 && c in Run(env, input).calls
    ensures c.ExternalCall? ==> c.provider != LocalModel
    ensures WithinBound(env, input, c, |PromptText(env, input, c)|)
    ensures c.ExternalCall? && !Settings(env, c.provider).sendContext ==>
              c.docs == [] && PromptText(env, input, c) == QueryOnly(env, input, c.provider)
    ensures !(c.ExternalCall? && !Settings(env, c.provider).sendContext) ==> c.docs == RetrievedDocs(env)
  {
    RunCompletes(env, input, Retrieve, START);
    assert Permitted(env, input, c);
    PromptWithinBound(env, input, c);
    if c.ExternalCall? && !Settings(env, c.provider).sendContext {
      ExternalPromptWithoutContext(input.query, env.tag, c.docs, Settings(env, c.provider).maxChars);
    }
  }

  /** The query line, cut to a provider's cap if there is one. */
  function QueryOnly(env: Env, input: Input, p: Provider): string
    requires p != LocalModel
  {
    var maxChars := Settings(env, p).maxChars;
    if maxChars > 0 then Clip(QueryLine(input.query), maxChars) else QueryLine(input.query)
  }

  ghost function Sections(sources: seq<Doc>, cap: Option<nat>): string {
    Text.Join(SECTION_SEP, Rendered(sources, cap))
  }

  /** The prompt is the template of its call around exactly these documents, headers and texts. */
  ghost predicate Tells(env: Env, input: Input, c: Call, prompt: string, sources: seq<Doc>)
    requires c.ExternalCall? ==> c.provider != LocalModel
  {
    match c
    case LocalCall(_) =>
      prompt == LocalTemplate(SoulText(env.soul), input.query, env.tag, Sections(sources, None))
    case OfflineCall(docs) =>
      if docs == [] then
        sources == [] && prompt == NoContextTemplate(SoulText(env.soul), Persona(env.soul), input.query)
      else
        prompt == OfflineTemplate(SoulText(env.soul), Persona(env.soul), input.query, env.tag, Sections(sources, None))
    case ExternalCall(p, _) =>
      var cfg := Settings(env, p);
      var roomy := cfg.maxChars <= 0 || cfg.maxChars > |Assemble(true, input.query, env.tag, "")|;
      || (cfg.sendContext && prompt == Assemble(true, input.query, env.tag, Sections(sources, EXTERNAL_CHAR_CAP)))
      || (!(cfg.sendContext && roomy) && sources == [] && prompt == QueryOnly(env, input, p))
  }

  lemma {:induction false} LocalTells(env: Env, input: Input, docs: seq<Doc>)
    ensures Tells(env, input, LocalCall(docs), PromptText(env, input, LocalCall(docs)), SourcesOf(env, input, LocalCall(docs)))
  {
    BudgetIsRoom(env.maxTokens, env.soul, input.query, 0);
    LocalContextIsExact(env.maxTokens, env.soul, input.query, docs);
  }

  lemma {:induction false} OfflineTells(env: Env, input: Input, docs: seq<Doc>)
    ensures Tells(env, input, OfflineCall(docs), PromptText(env, input, OfflineCall(docs)), SourcesOf(env, input, OfflineCall(docs)))
  {
    BudgetIsRoom(env.maxTokens, env.soul, input.query, 0);
    OfflineContextIsExact(env.maxTokens, env.soul, input.query, docs);
  }

  lemma {:induction false} ExternalTells(env: Env, input: Input, p: Provider, docs: seq<Doc>)
    requires p != LocalModel && (!Settings(env, p).sendContext ==> docs == [])
    ensures Tells(env, input, ExternalCall(p, docs), PromptText(env, input, ExternalCall(p, docs)),
                  SourcesOf(env, input, ExternalCall(p, docs)))
  {
    var cfg := Settings(env, p);
    if cfg.sendContext {
      ExternalPromptComplete(input.query, env.tag, docs, cfg.maxChars);
    } else {
      ExternalPromptWithoutContext(input.query, env.tag, docs, cfg.maxChars);
    }
  }

  /** In every run that called a model, the prompt it sent is the template of that call around exactly the
      documents the run reports as its sources, unless the output rail blocked the answer. */
  lemma {:induction false} SourcesAreThePrompts(env: Env, input: Input, c: Call)
    requires c in Run(env, input).calls
    ensures c.ExternalCall? ==> c.provider != LocalModel
    ensures Run(env, input).final.blocked ||
            Tells(env, input, c, PromptText(env, input, c), Run(env, input).final.sources)
  {
    RunCompletes(env, input, Retrieve, START);
    assert Permitted(env, input, c);
    match c
    case LocalCall(docs) => LocalTells(env, input, docs);
    case OfflineCall(docs) => OfflineTells(env, input, docs);
    case ExternalCall(p, docs) => ExternalTells(env, input, p, docs);
  }
}
