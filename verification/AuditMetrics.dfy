/** The audit summary: counters over the audit log, and the single pass that replaces two. */
module AuditMetrics {
  import opened Options

  /** A decoded JSON value, as far as the summary tells values apart. */
  datatype Json =
    | Null
    | Bool(b: bool)
    | Num(r: real)
    | NonFinite
    | Str(s: string)
    | Arr(items: seq<Json>)
    | Obj(empty: bool)

  type Event = map<string, Json>

  /** A line of the file after `strip` and `json.loads` have been tried on it. */
  datatype Line = Blank | Unparsable | NonObject | Object(event: Event)

  type Counter = map<string, nat>

  function Get(e: Event, key: string): Json {
    if key in e then e[key] else Null
  }

  predicate Truthy(v: Json) {
    match v
    case Null => false
    case Bool(b) => b
    case Num(r) => r != 0.0
    case NonFinite => true
    case Str(s) => s != ""
    case Arr(items) => items != []
    case Obj(empty) => !empty
  }

  function BucketKey(v: Json): string {
    if v.Str? then v.s else "unknown"
  }

  function Bump(c: Counter, key: string): Counter {
    c[key := Tally(c, key) + 1]
  }

  function Tally(c: Counter, key: string): nat {
    if key in c then c[key] else 0
  }

  predicate IsRag(e: Event) {
    Get(e, "event") in {Str("rag_query"), Str("mcp_rag_query")}
  }

  predicate IsInjection(e: Event) {
    Get(e, "event") == Str("agentic_context_injection_finding")
  }

  /** Lower-casing as far as it can produce the two provider names: the ASCII letters and the Kelvin sign. */
  function LowerChar(c: char): char {
    if 'A' <= c <= 'Z' then (c as int + 32) as char else if c == '\U{212a}' then 'k' else c
  }

  predicate StartsLower(s: string, prefix: string) {
    |prefix| <= |s| && forall i :: 0 <= i < |prefix| ==> LowerChar(s[i]) == prefix[i]
  }

  predicate IsEscalated(e: Event) {
    || Get(e, "online_escalated") == Bool(true)
    || Get(e, "user_confirmed_online") == Bool(true)
    || (Get(e, "model_used").Str? && (StartsLower(Get(e, "model_used").s, "grok") || StartsLower(Get(e, "model_used").s, "claude")))
  }

  predicate IsBlocked(e: Event) {
    Get(e, "guardrail_blocked") == Bool(true)
  }

  predicate IsDegraded(e: Event) {
    Get(e, "guardrail_degraded") == Bool(true)
  }

  function EventLabel(e: Event): string {
    BucketKey(Get(e, "event"))
  }

  function ModeLabel(e: Event): string {
    BucketKey(if Truthy(Get(e, "retrieval_mode")) then Get(e, "retrieval_mode") else Get(e, "mode"))
  }

  predicate NamesModel(e: Event) {
    Get(e, "model_used").Str? && Get(e, "model_used").s != ""
  }

  datatype Scores = Scores(sum: real, n: nat, min: Option<real>, max: Option<real>)

  datatype Findings = Findings(total: nat, codes: Counter, fields: Counter, repos: Counter, patterns: Counter)

  datatype Metrics = Metrics(
    total: nat, events: Counter, ragCount: nat, scores: Scores, modes: Counter, models: Counter,
    escalated: nat, blocked: nat, degraded: nat, findings: Findings)

  datatype Integrity = Integrity(malformed: nat, rawQuery: nat, missingHash: nat)

  const NO_SCORES := Scores(0.0, 0, None, None)
  const NO_FINDINGS := Findings(0, map[], map[], map[], map[])
  const NO_METRICS := Metrics(0, map[], 0, NO_SCORES, map[], map[], 0, 0, 0, NO_FINDINGS)
  const NO_ISSUES := Integrity(0, 0, 0)

  function One(b: bool): nat {
    if b then 1 else 0
  }

  function AddScore(sc: Scores, v: Json): Scores {
    if v.Num? then
      Scores(sc.sum + v.r, sc.n + 1,
             if sc.min.None? || v.r < sc.min.value then Some(v.r) else sc.min,
             if sc.max.None? || v.r > sc.max.value then Some(v.r) else sc.max)
    else sc
  }

  function AddPatterns(c: Counter, items: seq<Json>): Counter {
    if items == [] then c else Bump(AddPatterns(c, items[..|items| - 1]), BucketKey(items[|items| - 1]))
  }

  function AddFinding(f: Findings, e: Event): Findings {
    Findings(f.total + 1, Bump(f.codes, BucketKey(Get(e, "code"))), Bump(f.fields, BucketKey(Get(e, "field"))),
             Bump(f.repos, BucketKey(Get(e, "repo"))),
             if Get(e, "patterns").Arr? then AddPatterns(f.patterns, Get(e, "patterns").items) else f.patterns)
  }

  /** One turn of the aggregation loop. */
  function AddEvent(m: Metrics, e: Event): Metrics {
    Metrics(
      m.total + 1,
      Bump(m.events, EventLabel(e)),
      m.ragCount + One(IsRag(e)),
      if IsRag(e) then AddScore(m.scores, Get(e, "top_score")) else m.scores,
      if IsRag(e) then Bump(m.modes, ModeLabel(e)) else m.modes,
      if IsRag(e) && NamesModel(e) then Bump(m.models, Get(e, "model_used").s) else m.models,
      m.escalated + One(IsEscalated(e)),
      m.blocked + One(IsBlocked(e)),
      m.degraded + One(IsDegraded(e)),
      if IsInjection(e) then AddFinding(m.findings, e) else m.findings)
  }

  function MetricsOf(events: seq<Event>): Metrics {
    if events == [] then NO_METRICS else AddEvent(MetricsOf(events[..|events| - 1]), events[|events| - 1])
  }

  function Inspect(s: Integrity, l: Line): Integrity {
    match l
    case Blank => s
    case Unparsable | NonObject => s.(malformed := s.malformed + 1)
    case Object(e) =>
      Integrity(s.malformed, s.rawQuery + One("query" in e), s.missingHash + One(IsRag(e) && "query_hash" !in e))
  }

  function IntegrityOf(lines: seq<Line>): Integrity {
    if lines == [] then NO_ISSUES else Inspect(IntegrityOf(lines[..|lines| - 1]), lines[|lines| - 1])
  }

  function EventsOf(lines: seq<Line>): seq<Event> {
    if lines == [] then []
    else EventsOf(lines[..|lines| - 1]) + if lines[|lines| - 1].Object? then [lines[|lines| - 1].event] else []
  }

  // ---------------------------------------------------------------------------------------------
  // The passes
  // ---------------------------------------------------------------------------------------------

  method IterEvents(file: Option<seq<Line>>) returns (events: seq<Event>)
    ensures file.None? ==> events == []
    ensures file.Some? ==> events == EventsOf(file.value)
  {
    events := [];
    if file.None? {
      return;
    }
    var lines := file.value;
    for i := 0 to |lines|
      invariant events == EventsOf(lines[..i])
    {
      assert lines[..i + 1][..i] == lines[..i];
      if lines[i].Object? {
        events := events + [lines[i].event];
      }
    }
    assert lines[..|lines|] == lines;
  }

  method ComputeAuditIntegrity(file: Option<seq<Line>>) returns (stats: Integrity)
    ensures file.None? ==> stats == NO_ISSUES
    ensures file.Some? ==> stats == IntegrityOf(file.value)
  {
    stats := NO_ISSUES;
    if file.None? {
      return;
    }
    var lines := file.value;
    for i := 0 to |lines|
      invariant stats == IntegrityOf(lines[..i])
    {
      assert lines[..i + 1][..i] == lines[..i];
      stats := InspectLine(stats, lines[i]);
    }
    assert lines[..|lines|] == lines;
  }

  method InspectLine(before: Integrity, l: Line) returns (stats: Integrity)
    ensures stats == Inspect(before, l)
  {
    stats := before;
    if l.Blank? {
      return;
    }
    if !l.Object? {
      stats := stats.(malformed := stats.malformed + 1);
      return;
    }
    if "query" in l.event {
      stats := stats.(rawQuery := stats.rawQuery + 1);
    }
    if IsRag(l.event) && "query_hash" !in l.event {
      stats := stats.(missingHash := stats.missingHash + 1);
    }
  }

  method ComputeMetrics(events: seq<Event>) returns (m: Metrics)
    ensures m == MetricsOf(events)
  {
    m := NO_METRICS;
    for i := 0 to |events|
      invariant m == MetricsOf(events[..i])
    {
      assert events[..i + 1][..i] == events[..i];
      m := AddEvent(m, events[i]);
    }
    assert events[..|events|] == events;
  }

  lemma {:induction false} MetricsAppend(events: seq<Event>, e: Event)
    ensures MetricsOf(events + [e]) == AddEvent(MetricsOf(events), e)
  {
    assert (events + [e])[..|events|] == events;
  }

  /** The fused pass: one walk over the lines feeds the aggregation and counts the integrity issues.
      It gives what `ComputeMetrics` over `IterEvents` and `ComputeAuditIntegrity` give separately. */
  method SummarizeAudit(file: Option<seq<Line>>) returns (m: Metrics, stats: Integrity)
    ensures file.None? ==> m == NO_METRICS && stats == NO_ISSUES
    ensures file.Some? ==> m == MetricsOf(EventsOf(file.value)) && stats == IntegrityOf(file.value)
  {
    m, stats := NO_METRICS, NO_ISSUES;
    if file.None? {
      return;
    }
    var lines := file.value;
    for i := 0 to |lines|
      invariant m == MetricsOf(EventsOf(lines[..i])) && stats == IntegrityOf(lines[..i])
    {
      assert lines[..i + 1][..i] == lines[..i];
      stats := InspectLine(stats, lines[i]);
      if lines[i].Object? {
        assert EventsOf(lines[..i + 1]) == EventsOf(lines[..i]) + [lines[i].event];
        MetricsAppend(EventsOf(lines[..i]), lines[i].event);
        m := AddEvent(m, lines[i].event);
      } else {
        assert EventsOf(lines[..i + 1]) == EventsOf(lines[..i]);
      }
    }
    assert lines[..|lines|] == lines;
  }

  // ---------------------------------------------------------------------------------------------
  // What the counters mean
  // ---------------------------------------------------------------------------------------------

  /** What the log says of an event, read off its object: a label is the string under a key, or "unknown". */
  ghost function Label(e: Event, key: string): string {
    if key in e && e[key].Str? then e[key].s else "unknown"
  }

  ghost predicate Has(e: Event, key: string, value: Json) {
    key in e && e[key] == value
  }

  ghost predicate Query(e: Event) {
    Has(e, "event", Str("rag_query")) || Has(e, "event", Str("mcp_rag_query"))
  }

  ghost predicate Finding(e: Event) {
    Has(e, "event", Str("agentic_context_injection_finding"))
  }

  ghost predicate Blocked(e: Event) {
    Has(e, "guardrail_blocked", Bool(true))
  }

  ghost predicate Degraded(e: Event) {
    Has(e, "guardrail_degraded", Bool(true))
  }

  /** A letter and its lower-case form; the Kelvin sign is a k. */
  ghost predicate Lowers(c: char, lower: char) {
    (c == lower && !('A' <= c <= 'Z')) || ('A' <= c <= 'Z' && c as int + 32 == lower as int) || (c == '\U{212a}' && lower == 'k')
  }

  ghost predicate Names(model: string, provider: string) {
    |provider| <= |model| && forall i :: 0 <= i < |provider| ==> Lowers(model[i], provider[i])
  }

  /** An event counts as escalated by either flag, or by a model whose name starts with that of a provider. */
  ghost predicate Escalated(e: Event) {
    || Has(e, "online_escalated", Bool(true)) || Has(e, "user_confirmed_online", Bool(true))
    || ("model_used" in e && e["model_used"].Str? && (Names(e["model_used"].s, "grok") || Names(e["model_used"].s, "claude")))
  }

  /** A value that is there and neither null, false, zero nor empty. */
  ghost predicate Given(e: Event, key: string) {
    key in e && e[key] !in {Null, Bool(false), Num(0.0), Str(""), Arr([]), Obj(true)}
  }

  /** The labels the breakdowns are about, one per event they apply to: of all events their names, of the
      queries their modes, of those that name a model the models. */
  ghost function EventLabels(events: seq<Event>): seq<string> {
    if events == [] then [] else EventLabels(events[..|events| - 1]) + [Label(events[|events| - 1], "event")]
  }

  ghost function ModeLabels(events: seq<Event>): seq<string> {
    if events == [] then []
    else
      var e := events[|events| - 1];
      ModeLabels(events[..|events| - 1])
      + if Query(e) then [Label(e, if Given(e, "retrieval_mode") then "retrieval_mode" else "mode")] else []
  }

  ghost function ModelLabels(events: seq<Event>): seq<string> {
    if events == [] then []
    else
      var e := events[|events| - 1];
      ModelLabels(events[..|events| - 1])
      + if Query(e) && "model_used" in e && e["model_used"].Str? && e["model_used"].s != "" then [e["model_used"].s] else []
  }

  /** Of the findings, what they say under a key, and all the patterns they list. */
  ghost function FindingLabels(events: seq<Event>, key: string): seq<string> {
    if events == [] then []
    else
      var e := events[|events| - 1];
      FindingLabels(events[..|events| - 1], key) + if Finding(e) then [Label(e, key)] else []
  }

  ghost function ItemLabels(items: seq<Json>): seq<string> {
    if items == [] then []
    else ItemLabels(items[..|items| - 1]) + [if items[|items| - 1].Str? then items[|items| - 1].s else "unknown"]
  }

  ghost function PatternLabels(events: seq<Event>): seq<string> {
    if events == [] then []
    else
      var e := events[|events| - 1];
      PatternLabels(events[..|events| - 1])
      + if Finding(e) && "patterns" in e && e["patterns"].Arr? then ItemLabels(e["patterns"].items) else []
  }

  lemma {:induction false} NamesAre(model: string)
    ensures StartsLower(model, "grok") <==> Names(model, "grok")
    ensures StartsLower(model, "claude") <==> Names(model, "claude")
  {
    assert forall c: char, d: char :: 'a' <= d <= 'z' ==> (LowerChar(c) == d <==> Lowers(c, d));
  }

  /** The tests of the aggregation are these. */
  lemma {:induction false} TestsAre(e: Event)
    ensures (IsRag(e) <==> Query(e)) && (IsInjection(e) <==> Finding(e))
    ensures (IsBlocked(e) <==> Blocked(e)) && (IsDegraded(e) <==> Degraded(e))
    ensures IsEscalated(e) <==> Escalated(e)
  {
    if Get(e, "model_used").Str? {
      NamesAre(Get(e, "model_used").s);
    }
  }

  /** ... and so are its labels. */
  lemma {:induction false} LabelsAre(e: Event, key: string)
    ensures BucketKey(Get(e, key)) == Label(e, key)
    ensures Truthy(Get(e, key)) <==> Given(e, key)
  {
  }

  /** The counter holds exactly the labels, each with its number of occurrences. */
  ghost predicate Tallies(c: Counter, labels: seq<string>) {
    forall k :: Tally(c, k) == multiset(labels)[k] && (k in c <==> k in labels)
  }

  lemma {:induction false} TallyBump(c: Counter, labels: seq<string>, k: string)
    requires Tallies(c, labels)
    ensures Tallies(Bump(c, k), labels + [k])
  {
    assert multiset(labels + [k]) == multiset(labels) + multiset{k};
  }

  /** The sum of all the counts of a counter. */
  ghost function Total(c: Counter): nat {
    if c == map[] then 0
    else
      var k :| k in c;
      c[k] + Total(c - {k})
  }

  lemma {:induction false} TotalWithout(c: Counter, k: string)
    requires k in c
    ensures Total(c) == c[k] + Total(c - {k})
    decreases |c|
  {
    var j :| j in c && Total(c) == c[j] + Total(c - {j});
    if j != k {
      TotalWithout(c - {j}, k);
      TotalWithout(c - {k}, j);
      assert c - {j} - {k} == c - {k} - {j};
    }
  }

  lemma {:induction false} BumpTotal(c: Counter, k: string)
    ensures Total(Bump(c, k)) == Total(c) + 1
  {
    TotalWithout(Bump(c, k), k);
    if k in c {
      TotalWithout(c, k);
      assert Bump(c, k) - {k} == c - {k};
    } else {
      assert Bump(c, k) - {k} == c;
    }
  }

  /** The scores the aggregation takes into account, in file order. */
  ghost function ScoreList(events: seq<Event>): seq<real> {
    if events == [] then []
    else
      var n := |events| - 1;
      ScoreList(events[..n])
      + if Query(events[n]) && "top_score" in events[n] && events[n]["top_score"].Num? then [events[n]["top_score"].r] else []
  }

  ghost function Sum(xs: seq<real>): real {
    if xs == [] then 0.0 else Sum(xs[..|xs| - 1]) + xs[|xs| - 1]
  }

  lemma {:induction false} EventsTallied(events: seq<Event>)
    ensures Tallies(MetricsOf(events).events, EventLabels(events))
  {
    if events != [] {
      var n := |events| - 1;
      EventsTallied(events[..n]);
      LabelsAre(events[n], "event");
      TallyBump(MetricsOf(events[..n]).events, EventLabels(events[..n]), EventLabel(events[n]));
    }
  }

  lemma {:induction false} ModesTallied(events: seq<Event>)
    ensures Tallies(MetricsOf(events).modes, ModeLabels(events))
  {
    if events != [] {
      var n := |events| - 1;
      ModesTallied(events[..n]);
      TestsAre(events[n]);
      LabelsAre(events[n], "retrieval_mode");
      LabelsAre(events[n], "mode");
      TallyBump(MetricsOf(events[..n]).modes, ModeLabels(events[..n]), ModeLabel(events[n]));
      assert ModeLabels(events[..n]) + [] == ModeLabels(events[..n]);
    }
  }

  lemma {:induction false} ModelsTallied(events: seq<Event>)
    ensures Tallies(MetricsOf(events).models, ModelLabels(events))
  {
    if events != [] {
      var n := |events| - 1;
      ModelsTallied(events[..n]);
      TestsAre(events[n]);
      TallyBump(MetricsOf(events[..n]).models, ModelLabels(events[..n]), BucketKey(Get(events[n], "model_used")));
      assert ModelLabels(events[..n]) + [] == ModelLabels(events[..n]);
    }
  }

  /** The counter of the findings for a key. */
  ghost function FindingCounter(f: Findings, key: string): Counter {
    match key
    case "code" => f.codes
    case "field" => f.fields
    case _ => f.repos
  }

  lemma {:induction false} FindingsTallied(events: seq<Event>, key: string)
    requires key in {"code", "field", "repo"}
    ensures Tallies(FindingCounter(MetricsOf(events).findings, key), FindingLabels(events, key))
  {
    if events != [] {
      var n := |events| - 1;
      FindingsTallied(events[..n], key);
      TestsAre(events[n]);
      LabelsAre(events[n], key);
      TallyBump(FindingCounter(MetricsOf(events[..n]).findings, key), FindingLabels(events[..n], key), Label(events[n], key));
      assert FindingLabels(events[..n], key) + [] == FindingLabels(events[..n], key);
    }
  }

  lemma {:induction false} LastItem(c: Counter, labels: seq<string>, items: seq<Json>)
    requires items != []
    ensures var n := |items| - 1;
            var k := BucketKey(items[n]);
            && AddPatterns(c, items) == Bump(AddPatterns(c, items[..n]), k)
            && labels + ItemLabels(items) == (labels + ItemLabels(items[..n])) + [k]
  {
  }

  lemma {:induction false} ItemsTallied(c: Counter, labels: seq<string>, items: seq<Json>)
    requires Tallies(c, labels)
    ensures Tallies(AddPatterns(c, items), labels + ItemLabels(items))
  {
    if items == [] {
      assert labels + [] == labels;
    } else {
      var n := |items| - 1;
      var some, said, k := AddPatterns(c, items[..n]), labels + ItemLabels(items[..n]), BucketKey(items[n]);
      ItemsTallied(c, labels, items[..n]);
      LastItem(c, labels, items);
      TallyBump(some, said, k);
    }
  }

  lemma {:induction false} PatternsTallied(events: seq<Event>)
    ensures Tallies(MetricsOf(events).findings.patterns, PatternLabels(events))
  {
    if events != [] {
      var n := |events| - 1;
      PatternsTallied(events[..n]);
      TestsAre(events[n]);
      var before := MetricsOf(events[..n]).findings.patterns;
      if Get(events[n], "patterns").Arr? {
        ItemsTallied(before, PatternLabels(events[..n]), Get(events[n], "patterns").items);
      }
      assert PatternLabels(events[..n]) + [] == PatternLabels(events[..n]);
    }
  }

  /** The breakdowns of the findings count what the findings say, and nothing else. */
  lemma {:induction false} FindingsCount(events: seq<Event>)
    ensures var f := MetricsOf(events).findings;
            && Tallies(f.codes, FindingLabels(events, "code"))
            && Tallies(f.fields, FindingLabels(events, "field"))
            && Tallies(f.repos, FindingLabels(events, "repo"))
            && Tallies(f.patterns, PatternLabels(events))
  {
    FindingsTallied(events, "code");
    FindingsTallied(events, "field");
    FindingsTallied(events, "repo");
    PatternsTallied(events);
  }

  /** Every breakdown counts the labels of the events it is about, and nothing else. */
  lemma {:induction false} BreakdownsCount(events: seq<Event>)
    ensures var m := MetricsOf(events);
            && Tallies(m.events, EventLabels(events))
            && Tallies(m.modes, ModeLabels(events))
            && Tallies(m.models, ModelLabels(events))
  {
    EventsTallied(events);
    ModesTallied(events);
    ModelsTallied(events);
  }

  ghost function Where(events: seq<Event>, p: Event -> bool): set<nat> {
    set i: nat | i < |events| && p(events[i])
  }

  lemma {:induction false} WhereGrows(events: seq<Event>, p: Event -> bool)
    requires events != []
    ensures |Where(events, p)| == |Where(events[..|events| - 1], p)| + One(p(events[|events| - 1]))
  {
    var n := |events| - 1;
    var before := Where(events[..n], p);
    assert Where(events, p) == if p(events[n]) then before + {n} else before;
  }

  lemma {:induction false} CountersUpTo(events: seq<Event>)
    ensures var m := MetricsOf(events);
            && m.total == |events|
            && m.ragCount == |Where(events, Query)|
            && m.escalated == |Where(events, Escalated)|
            && m.blocked == |Where(events, Blocked)|
            && m.degraded == |Where(events, Degraded)|
            && m.findings.total == |Where(events, Finding)|
  {
    if events == [] {
      assert forall p :: Where(events, p) == {};
    } else {
      CountersUpTo(events[..|events| - 1]);
      TestsAre(events[|events| - 1]);
      WhereGrows(events, Query);
      WhereGrows(events, Escalated);
      WhereGrows(events, Blocked);
      WhereGrows(events, Degraded);
      WhereGrows(events, Finding);
    }
  }

  /** Each plain counter is the number of events it is named after: of all, of the queries, of those escalated,
      blocked or degraded, and of the findings. */
  lemma {:induction false} CountersCount(events: seq<Event>)
    ensures var m := MetricsOf(events);
            && m.total == |events|
            && m.ragCount == |set i: nat | i < |events| && Query(events[i])|
            && m.escalated == |set i: nat | i < |events| && Escalated(events[i])|
            && m.blocked == |set i: nat | i < |events| && Blocked(events[i])|
            && m.degraded == |set i: nat | i < |events| && Degraded(events[i])|
            && m.findings.total == |set i: nat | i < |events| && Finding(events[i])|
  {
    CountersUpTo(events);
    assert (set i: nat | i < |events| && Query(events[i])) == Where(events, Query);
    assert (set i: nat | i < |events| && Escalated(events[i])) == Where(events, Escalated);
    assert (set i: nat | i < |events| && Blocked(events[i])) == Where(events, Blocked);
    assert (set i: nat | i < |events| && Degraded(events[i])) == Where(events, Degraded);
    assert (set i: nat | i < |events| && Finding(events[i])) == Where(events, Finding);
  }

  /** The events of a file: the decoded objects, in order, and nothing else. */
  lemma {:induction false} EventsNext(lines: seq<Line>, line: Line)
    ensures EventsOf([]) == []
    ensures EventsOf(lines + [line]) == match line case Object(e) => EventsOf(lines) + [e] case _ => EventsOf(lines)
  {
    assert (lines + [line])[..|lines|] == lines;
    assert EventsOf(lines) + [] == EventsOf(lines);
  }

  ghost predicate Malformed(l: Line) {
    l.Unparsable? || l.NonObject?
  }

  ghost predicate RawQuery(l: Line) {
    l.Object? && "query" in l.event
  }

  ghost predicate Unhashed(l: Line) {
    l.Object? && Query(l.event) && "query_hash" !in l.event
  }

  lemma {:induction false} IntegrityUpTo(lines: seq<Line>)
    ensures var stats := IntegrityOf(lines);
            && stats.malformed == |Faulty(lines, Malformed)|
            && stats.rawQuery == |Faulty(lines, RawQuery)|
            && stats.missingHash == |Faulty(lines, Unhashed)|
  {
    if lines == [] {
      assert forall p :: Faulty(lines, p) == {};
    } else {
      var n := |lines| - 1;
      IntegrityUpTo(lines[..n]);
      if lines[n].Object? {
        TestsAre(lines[n].event);
      }
      LinesGrow(lines, Malformed);
      LinesGrow(lines, RawQuery);
      LinesGrow(lines, Unhashed);
    }
  }

  /** Each integrity count is the number of lines with its fault: no JSON object although not blank, a query in
      the clear, a query event without its hash. */
  lemma {:induction false} IntegrityCounts(lines: seq<Line>)
    ensures var stats := IntegrityOf(lines);
            && stats.malformed == |set i: nat | i < |lines| && Malformed(lines[i])|
            && stats.rawQuery == |set i: nat | i < |lines| && RawQuery(lines[i])|
            && stats.missingHash == |set i: nat | i < |lines| && Unhashed(lines[i])|
  {
    IntegrityUpTo(lines);
    assert (set i: nat | i < |lines| && Malformed(lines[i])) == Faulty(lines, Malformed);
    assert (set i: nat | i < |lines| && RawQuery(lines[i])) == Faulty(lines, RawQuery);
    assert (set i: nat | i < |lines| && Unhashed(lines[i])) == Faulty(lines, Unhashed);
  }

  ghost function Faulty(lines: seq<Line>, p: Line -> bool): set<nat> {
    set i: nat | i < |lines| && p(lines[i])
  }

  lemma {:induction false} LinesGrow(lines: seq<Line>, p: Line -> bool)
    requires lines != []
    ensures var n := |lines| - 1; |Faulty(lines, p)| == |Faulty(lines[..n], p)| + if p(lines[n]) then 1 else 0
  {
    var n := |lines| - 1;
    var before := Faulty(lines[..n], p);
    assert Faulty(lines, p) == if p(lines[n]) then before + {n} else before;
  }

  /** The breakdowns are partitions: of all events, of the queries, of the findings. */
  lemma {:induction false} BreakdownsAddUp(events: seq<Event>)
    ensures var m := MetricsOf(events);
            && Total(m.events) == m.total
            && Total(m.modes) == m.ragCount
            && Total(m.models) <= m.ragCount
            && Total(m.findings.codes) == Total(m.findings.fields) == Total(m.findings.repos) == m.findings.total
  {
    if events != [] {
      var n := |events| - 1;
      BreakdownsAddUp(events[..n]);
      var m, e := MetricsOf(events[..n]), events[n];
      BumpTotal(m.events, EventLabel(e));
      BumpTotal(m.modes, ModeLabel(e));
      BumpTotal(m.models, BucketKey(Get(e, "model_used")));
      BumpTotal(m.findings.codes, BucketKey(Get(e, "code")));
      BumpTotal(m.findings.fields, BucketKey(Get(e, "field")));
      BumpTotal(m.findings.repos, BucketKey(Get(e, "repo")));
    }
  }

  ghost predicate Summarises(sc: Scores, xs: seq<real>) {
    && sc.n == |xs|
    && sc.sum == Sum(xs)
    && (xs == [] ==> sc.min == sc.max == None)
    && (xs != [] ==> sc.min.Some? && sc.max.Some? && sc.min.value in xs && sc.max.value in xs)
    && (forall x :: x in xs ==> sc.min.value <= x <= sc.max.value)
  }

  lemma {:induction false} ScoreAdded(sc: Scores, xs: seq<real>, x: real)
    requires Summarises(sc, xs)
    ensures Summarises(AddScore(sc, Num(x)), xs + [x])
  {
    assert (xs + [x])[..|xs|] == xs;
    assert forall y :: y in xs + [x] <==> y in xs || y == x;
  }

  lemma {:induction false} ScoresSummarised(events: seq<Event>)
    ensures Summarises(MetricsOf(events).scores, ScoreList(events))
  {
    if events != [] {
      var n := |events| - 1;
      ScoresSummarised(events[..n]);
      TestsAre(events[n]);
      var v, xs := Get(events[n], "top_score"), ScoreList(events[..n]);
      assert xs + [] == xs;
      if v.Num? {
        ScoreAdded(MetricsOf(events[..n]).scores, xs, v.r);
      }
    }
  }

  lemma {:induction false} SumBounds(xs: seq<real>, lo: real, hi: real)
    requires forall x :: x in xs ==> lo <= x <= hi
    ensures |xs| as real * lo <= Sum(xs) <= |xs| as real * hi
  {
    if xs != [] {
      var n := |xs| - 1;
      assert forall x :: x in xs[..n] ==> x in xs;
      SumBounds(xs[..n], lo, hi);
      assert xs[n] in xs;
      assert |xs| as real * lo == n as real * lo + lo && |xs| as real * hi == n as real * hi + hi;
    }
  }

  lemma {:induction false} QuotientBetween(sum: real, n: real, lo: real, hi: real)
    requires n > 0.0 && n * lo <= sum <= n * hi
    ensures lo <= sum / n <= hi
  {
    assert sum == n * (sum / n);
  }

  lemma {:induction false} AverageOf(sc: Scores, xs: seq<real>)
    requires Summarises(sc, xs) && xs != []
    ensures sc.min.value <= sc.sum / (sc.n as real) <= sc.max.value
  {
    SumBounds(xs, sc.min.value, sc.max.value);
    QuotientBetween(sc.sum, sc.n as real, sc.min.value, sc.max.value);
  }

  /** Whenever a score was seen, the reported extremes are scores, and the reported average lies
      between them; otherwise none of the three is reported. */
  lemma {:induction false} AverageBetweenExtremes(events: seq<Event>)
    ensures var sc, xs := MetricsOf(events).scores, ScoreList(events);
            && sc.n == |xs|
            && (xs == [] ==> sc.min == sc.max == None)
            && (xs != [] ==>
                  && sc.min.Some? && sc.max.Some? && sc.min.value in xs && sc.max.value in xs
                  && sc.min.value <= sc.sum / (sc.n as real) <= sc.max.value)
  {
    ScoresSummarised(events);
    if ScoreList(events) != [] {
      AverageOf(MetricsOf(events).scores, ScoreList(events));
    }
  }
}
