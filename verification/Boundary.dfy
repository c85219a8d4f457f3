/** tools/capability.py: which capabilities are available, exposed and used. */
module Capability {

  datatype FailureClass = CapabilityNotExposed | ScopeBlock | AuthorizationDenied | EnvironmentFailure

  datatype Suggestion = Fix | Backtrack | TryAlternative

  datatype Phase = AvailablePhase | ExposedPhase | UsedPhase | OutcomePhase

  datatype Outcome = NoOutcome | Success | Failure | Denied | Skipped

  datatype CapabilityRecord = CapabilityRecord(name: string, phase: Phase, available: bool, exposed: bool,
                                               outcome: Outcome)

  datatype FailureRecord = FailureRecord(cls: FailureClass, name: string, action: Suggestion)

  datatype TrackerState = TrackerState(available: set<string>, exposed: set<string>,
                                       records: seq<CapabilityRecord>, failures: seq<FailureRecord>)

  function Fail(t: TrackerState, cls: FailureClass, name: string, action: Suggestion): TrackerState {
    t.(failures := t.failures + [FailureRecord(cls, name, action)])
  }

  function Note(t: TrackerState, r: CapabilityRecord): TrackerState { t.(records := t.records + [r]) }

  function Provide(t: TrackerState, name: string): TrackerState {
    Note(t.(available := t.available + {name}), CapabilityRecord(name, AvailablePhase, true, false, NoOutcome))
  }

  /** Only an available capability can be exposed; anything else is recorded as a failure. */
  function Expose(t: TrackerState, name: string): TrackerState {
    if name in t.available then
      Note(t.(exposed := t.exposed + {name}), CapabilityRecord(name, ExposedPhase, true, true, NoOutcome))
    else
      Note(Fail(t, CapabilityNotExposed, name, Fix), CapabilityRecord(name, ExposedPhase, false, false, Failure))
  }

  /** A use that succeeded, was denied or was skipped is a used record; any other is an outcome record. */
  function PhaseOfUse(outcome: Outcome): Phase {
    if outcome.Success? || outcome.Denied? || outcome.Skipped? then UsedPhase else OutcomePhase
  }

  function Use(t: TrackerState, name: string, outcome: Outcome): TrackerState {
    Note(if name in t.exposed then t else Fail(t, CapabilityNotExposed, name, Backtrack),
         CapabilityRecord(name, PhaseOfUse(outcome), name in t.available, name in t.exposed, outcome))
  }

  class CapabilityTracker {
    var available: set<string>
    var exposed: set<string>
    var records: seq<CapabilityRecord>
    var failures: seq<FailureRecord>

    ghost function State(): TrackerState
      reads this
    {
      TrackerState(available, exposed, records, failures)
    }

    constructor ()
      ensures State() == TrackerState({}, {}, [], [])
    {
      available, exposed, records, failures := {}, {}, [], [];
    }

    method RecordFailure(cls: FailureClass, name: string, action: Suggestion)
      modifies this
      ensures State() == Fail(old(State()), cls, name, action)
    {
      failures := failures + [FailureRecord(cls, name, action)];
    }

    method MarkAvailable(name: string)
      modifies this
      ensures State() == Provide(old(State()), name)
      ensures available == old(available) + {name} && exposed == old(exposed) && failures == old(failures)
    {
      available := available + {name};
      records := records + [CapabilityRecord(name, AvailablePhase, true, false, NoOutcome)];
    }

    method MarkExposed(name: string)
      modifies this
      ensures State() == Expose(old(State()), name)
      ensures available == old(available) && exposed == old(exposed) + if name in available then {name} else {}
      ensures name in available <==> failures == old(failures)
    {
      if name !in available {
        RecordFailure(CapabilityNotExposed, name, Fix);
        records := records + [CapabilityRecord(name, ExposedPhase, false, false, Failure)];
        return;
      }
      exposed := exposed + {name};
      records := records + [CapabilityRecord(name, ExposedPhase, true, true, NoOutcome)];
    }

    method MarkUsed(name: string, outcome: Outcome)
      modifies this
      ensures State() == Use(old(State()), name, outcome)
      ensures available == old(available) && exposed == old(exposed) && (name in exposed <==> failures == old(failures))
    {
      if name !in exposed { RecordFailure(CapabilityNotExposed, name, Backtrack); }
      var phase := if outcome == Success || outcome == Denied || outcome == Skipped then UsedPhase else OutcomePhase;
      records := records + [CapabilityRecord(name, phase, name in available, name in exposed, outcome)];
    }
  }
}

/** tools/contracts.py and tools/execution_boundary.py: two gates in front of the same guard. */
module Boundary {
  import opened Common
  import opened Scope
  import opened Capability

  datatype ToolContract = ToolContract(name: string, purpose: string, sideEffects: string,
                                       authorizationRequired: bool, liveHttpAllowed: bool)

  datatype ActionRequest = ActionRequest(toolName: string, purpose: string, host: string, experimentId: string,
                                         hypothesisId: string, riskTier: string, token: Option<string>,
                                         liveMode: bool, now: real, later: real)

  datatype Reason =
    | UnknownAction | InvalidContract | MissingScope | LiveHttpNotEnabled
    | ScopeBlocked(decision: Decision) | AmbiguousAuthorization | Authorized

  datatype ExecutionDecision = ExecutionDecision(request: ActionRequest, reason: Reason, scope: Option<Decision>)
  {
    predicate Allowed() { reason.Authorized? }
  }

  datatype BoundaryState = BoundaryState(guard: GuardState, contracts: map<string, ToolContract>,
                                         audit: seq<ExecutionDecision>, caps: TrackerState)

  /** The keyword tests of classify_denial_reason, on the reasons the boundary gives. */
  function Classify(r: Reason): FailureClass {
    match r
    case MissingScope | ScopeBlocked(_) => ScopeBlock
    case UnknownAction | InvalidContract => CapabilityNotExposed
    case LiveHttpNotEnabled => EnvironmentFailure
    case _ => AuthorizationDenied
  }

  function TierFor(c: ToolContract, riskTier: string): RiskTier {
    if Lower(riskTier) == "destructive" then Destructive
    else if c.sideEffects in ["write", "state_change"] || Lower(riskTier) == "active_risky" then ActiveRisky
    else ActiveSafe
  }

  /** What the boundary asks the guard: a tool without authorization still needs its host in scope, without token. */
  function Ask(c: ToolContract, q: ActionRequest): Request {
    var action := if q.purpose != "" then q.purpose else c.purpose;
    if c.authorizationRequired then Request(q.host, TierFor(c, q.riskTier), action, q.token, q.now, q.later)
    else Request(q.host, Passive, action, None, q.now, q.later)
  }

  /** The fail-closed checks before the guard is asked. */
  function Refusal(b: BoundaryState, q: ActionRequest): Option<Reason> {
    if Blank(q.toolName) || q.toolName !in b.contracts then Some(UnknownAction)
    else if b.contracts[q.toolName].name == "" then Some(InvalidContract)
    else if Blank(q.host) then Some(MissingScope)
    else if q.liveMode && !b.contracts[q.toolName].liveHttpAllowed then Some(LiveHttpNotEnabled)
    else None
  }

  ghost predicate Allows(b: BoundaryState, q: ActionRequest) {
    Refusal(b, q) == None && Verdict(b.guard, Ask(b.contracts[q.toolName], q)) == Allow
  }

  ghost function Decide(b: BoundaryState, q: ActionRequest): ExecutionDecision {
    if Refusal(b, q).Some? then ExecutionDecision(q, Refusal(b, q).value, None)
    else
      var c := b.contracts[q.toolName];
      var d := Verdict(b.guard, Ask(c, q));
      var reason := if d == Allow then Authorized
                    else if d == RequiresApproval && c.authorizationRequired then AmbiguousAuthorization
                    else ScopeBlocked(d);
      ExecutionDecision(q, reason, Some(d))
  }

  function ToolOrUnknown(name: string): string { if name == "" then "unknown" else name }

  function Track(t: TrackerState, d: ExecutionDecision): TrackerState {
    var tool := d.request.toolName;
    if d.Allowed() then Use(if tool in t.exposed then t else Expose(t, tool), tool, Success)
    else Use(Fail(t, Classify(d.reason), tool, TryAlternative), ToolOrUnknown(tool), Denied)
  }

  ghost function Next(b: BoundaryState, q: ActionRequest): BoundaryState {
    var d := Decide(b, q);
    BoundaryState(if d.scope.Some? then After(b.guard, Ask(b.contracts[q.toolName], q)) else b.guard,
                  b.contracts, b.audit + [d], Track(b.caps, d))
  }

  function Registered(b: BoundaryState, c: ToolContract): BoundaryState {
    if c.name == "" then b
    else b.(contracts := b.contracts[c.name := c], caps := Provide(b.caps, c.name))
  }

  class ExecutionBoundary {
    const guard: ScopeGuard
    const capabilities: CapabilityTracker
    var contracts: map<string, ToolContract>
    var auditLog: seq<ExecutionDecision>

    ghost function State(): BoundaryState
      reads this, guard, capabilities
    {
      BoundaryState(guard.State(), contracts, auditLog, capabilities.State())
    }

    constructor (guard: ScopeGuard, contracts: map<string, ToolContract> := map[])
      ensures this.guard == guard && fresh(capabilities)
      ensures State() == BoundaryState(guard.State(), contracts, [], TrackerState({}, {}, [], []))
    {
      this.guard, this.contracts, auditLog := guard, contracts, [];
      capabilities := new CapabilityTracker();
    }

    /** False stands for the ValueError on a contract without a name. */
    method Register(c: ToolContract) returns (ok: bool)
      modifies this, capabilities
      ensures ok == (c.name != "")
      ensures State() == Registered(old(State()), c)
    {
      if c.name == "" { return false; }
      contracts := contracts[c.name := c];
      capabilities.MarkAvailable(c.name);
      return true;
    }

    method Refuse(d: ExecutionDecision)
      requires !d.Allowed()
      modifies this, capabilities
      ensures auditLog == old(auditLog) + [d] && contracts == old(contracts)
      ensures capabilities.State() == Track(old(capabilities.State()), d)
    {
      auditLog := auditLog + [d];
      capabilities.RecordFailure(Classify(d.reason), d.request.toolName, TryAlternative);
      capabilities.MarkUsed(ToolOrUnknown(d.request.toolName), Denied);
    }

    method RequestExecution(q: ActionRequest) returns (d: ExecutionDecision)
      modifies this, guard, capabilities
      ensures d == Decide(old(State()), q)
      ensures State() == Next(old(State()), q)
    {
      if Blank(q.toolName) || q.toolName !in contracts {
        d := ExecutionDecision(q, UnknownAction, None);
        Refuse(d);
        return;
      }
      var c := contracts[q.toolName];
      if c.name == "" {
        d := ExecutionDecision(q, InvalidContract, None);
        Refuse(d);
        return;
      }
      if Blank(q.host) {
        d := ExecutionDecision(q, MissingScope, None);
        Refuse(d);
        return;
      }
      if q.liveMode && !c.liveHttpAllowed {
        d := ExecutionDecision(q, LiveHttpNotEnabled, None);
        Refuse(d);
        return;
      }
      var decision := guard.Authorize(Ask(c, q));
      if decision != Allow {
        var reason := if decision == RequiresApproval && c.authorizationRequired then AmbiguousAuthorization
                      else ScopeBlocked(decision);
        d := ExecutionDecision(q, reason, Some(decision));
        Refuse(d);
        return;
      }
      d := ExecutionDecision(q, Authorized, Some(Allow));
      auditLog := auditLog + [d];
      if q.toolName !in capabilities.exposed { capabilities.MarkExposed(q.toolName); }
      capabilities.MarkUsed(q.toolName, Success);
    }
  }

  // ---------------------------------------------------------------- one request, field by field

  /** The tier asked for: destructive on demand only, risky for writes or on demand, safe otherwise, never passive. */
  lemma TierAsked(c: ToolContract, riskTier: string)
    ensures TierFor(c, riskTier) == Destructive <==> Lower(riskTier) == "destructive"
    ensures TierFor(c, riskTier) == ActiveRisky <==>
            Lower(riskTier) != "destructive"
            && (Lower(riskTier) == "active_risky" || c.sideEffects == "write" || c.sideEffects == "state_change")
    ensures TierFor(c, riskTier) != Passive
  {}

  /** Nothing stops the request before the guard is asked. */
  predicate ReachesGuard(b: BoundaryState, q: ActionRequest) {
    !Blank(q.toolName) && q.toolName in b.contracts && b.contracts[q.toolName].name != "" && !Blank(q.host)
    && (!q.liveMode || b.contracts[q.toolName].liveHttpAllowed)
  }

  /** The guard's answer to what the contract and the request amount to. */
  ghost function GuardAnswer(b: BoundaryState, q: ActionRequest): Decision
    requires ReachesGuard(b, q)
  {
    var c := b.contracts[q.toolName];
    Verdict(b.guard, Request(q.host, if c.authorizationRequired then TierFor(c, q.riskTier) else Passive,
                             if q.purpose == "" then c.purpose else q.purpose,
                             if c.authorizationRequired then q.token else None, q.now, q.later))
  }

  /** Each reason with its exact condition, and the guard consulted only past the fail-closed checks. */
  lemma RequestDecided(b: BoundaryState, q: ActionRequest)
    ensures var r, known := Decide(b, q).reason, !Blank(q.toolName) && q.toolName in b.contracts;
            && (r == UnknownAction <==> !known)
            && (r == InvalidContract <==> known && b.contracts[q.toolName].name == "")
            && (r == MissingScope <==> known && b.contracts[q.toolName].name != "" && Blank(q.host))
            && (r == LiveHttpNotEnabled <==>
                  known && b.contracts[q.toolName].name != "" && !Blank(q.host) && q.liveMode
                  && !b.contracts[q.toolName].liveHttpAllowed)
            && (r == Authorized <==> ReachesGuard(b, q) && GuardAnswer(b, q) == Allow)
            && (r == AmbiguousAuthorization <==>
                  ReachesGuard(b, q) && GuardAnswer(b, q) == RequiresApproval && b.contracts[q.toolName].authorizationRequired)
            && (r == ScopeBlocked(Deny) <==> ReachesGuard(b, q) && GuardAnswer(b, q) == Deny)
            && (r == ScopeBlocked(RequiresApproval) <==>
                  ReachesGuard(b, q) && GuardAnswer(b, q) == RequiresApproval
                  && !b.contracts[q.toolName].authorizationRequired)
    ensures Next(b, q).contracts == b.contracts && Next(b, q).audit == b.audit + [Decide(b, q)]
    ensures Decide(b, q).request == q && (Decide(b, q).scope == None <==> !ReachesGuard(b, q))
    ensures !ReachesGuard(b, q) ==> Next(b, q).guard == b.guard
    ensures ReachesGuard(b, q) ==> |Next(b, q).guard.log| == |b.guard.log| + 1
  {}

  /** How the tracker files a denial. */
  lemma DenialsFiled(r: Reason)
    ensures r == MissingScope || r.ScopeBlocked? <==> Classify(r) == ScopeBlock
    ensures r == UnknownAction || r == InvalidContract <==> Classify(r) == CapabilityNotExposed
    ensures r == LiveHttpNotEnabled <==> Classify(r) == EnvironmentFailure
    ensures r == AmbiguousAuthorization ==> Classify(r) == AuthorizationDenied
  {}

  /** One use record per request, and a failure per denial, per unavailable tool and per use without exposure. */
  lemma RequestTracked(b: BoundaryState, q: ActionRequest)
    ensures var t, n, d := b.caps, Next(b, q).caps, Decide(b, q);
            var name := if d.reason == Authorized || q.toolName != "" then q.toolName else "unknown";
            var exposed := name in t.exposed || (d.reason == Authorized && name in t.available);
            && Last(n.records) == CapabilityRecord(name, UsedPhase, name in t.available, exposed,
                                                   if d.reason == Authorized then Success else Denied)
            && |n.records| == |t.records| + (if d.reason == Authorized && q.toolName !in t.exposed then 2 else 1)
            && n.failures == t.failures
                             + When(d.reason != Authorized, FailureRecord(Classify(d.reason), q.toolName, TryAlternative))
                             + When(d.reason == Authorized && !exposed, FailureRecord(CapabilityNotExposed, name, Fix))
                             + When(!exposed, FailureRecord(CapabilityNotExposed, name, Backtrack))
  {}

  // ---------------------------------------------------------------- whole runs

  datatype Op = Register(c: ToolContract) | Execute(q: ActionRequest)

  ghost function Apply(b: BoundaryState, op: Op): BoundaryState {
    match op
    case Register(c) => Registered(b, c)
    case Execute(q) => Next(b, q)
  }

  ghost function Run(b: BoundaryState, ops: seq<Op>): BoundaryState {
    if ops == [] then b else Apply(Run(b, Front(ops)), Last(ops))
  }

  function AllowedTools(audit: seq<ExecutionDecision>): set<string> {
    set d | d in audit && d.Allowed() :: d.request.toolName
  }

  /** A boundary with nothing audited, nothing tracked. */
  ghost predicate Untouched(b: BoundaryState) {
    b.audit == [] && b.caps.available == {} && b.caps.exposed == {}
  }

  lemma AllowedToolsGrow(audit: seq<ExecutionDecision>, d: ExecutionDecision)
    ensures AllowedTools(audit + [d]) == AllowedTools(audit) + if d.Allowed() then {d.request.toolName} else {}
  {
    assert forall e :: e in audit + [d] <==> e in audit || e == d;
    forall n | n in AllowedTools(audit) ensures n in AllowedTools(audit + [d]) {
      var e :| e in audit && e.Allowed() && e.request.toolName == n;
      assert e in audit + [d];
    }
    if d.Allowed() { assert d in audit + [d] && d.request.toolName in AllowedTools(audit + [d]); }
  }

  /** What an allowed request does to the exposed set: the tool joins it exactly when it is available. */
  lemma ExposedAfter(b: BoundaryState, q: ActionRequest)
    ensures var t := Next(b, q).caps;
            && t.available == b.caps.available
            && t.exposed == b.caps.exposed + if Allows(b, q) && q.toolName in b.caps.available then {q.toolName} else {}
  {}

  /** Exposed means "allowed at least once", and implies available. */
  ghost predicate Matched(b: BoundaryState) {
    b.caps.exposed == AllowedTools(b.audit) && b.caps.exposed <= b.caps.available
  }

  /** A request keeps the two sets matched exactly when it is refused or its tool is available. */
  lemma RequestKeepsMatched(b: BoundaryState, q: ActionRequest)
    requires Matched(b)
    ensures Matched(Next(b, q)) <==> (Allows(b, q) ==> q.toolName in b.caps.available)
  {
    AllowedToolsGrow(b.audit, Decide(b, q));
    ExposedAfter(b, q);
    if Allows(b, q) {
      assert Decide(b, q).Allowed() && Decide(b, q).request == q;
      assert q.toolName in AllowedTools(Next(b, q).audit);
    }
  }

  /** Where every contract was registered the two sets stay matched over every run. */
  lemma {:induction false} ExposedIsAllowed(b: BoundaryState, ops: seq<Op>)
    requires Matched(b) && b.contracts.Keys <= b.caps.available
    ensures Matched(Run(b, ops)) && Run(b, ops).contracts.Keys <= Run(b, ops).caps.available
  {
    if ops != [] {
      ExposedIsAllowed(b, Front(ops));
      var before := Run(b, Front(ops));
      match Last(ops)
      case Register(c) =>
      case Execute(q) =>
        RequestKeepsMatched(before, q);
        ExposedAfter(before, q);
    }
  }

  /** A new boundary without preloaded contracts is such a start. */
  lemma NewBoundaryMatched(b: BoundaryState)
    requires Untouched(b) && b.contracts == map[]
    ensures Matched(b) && b.contracts.Keys <= b.caps.available
  {
    assert AllowedTools(b.audit) == {};
  }

  /** With contracts handed to the constructor only one half survives. */
  lemma {:induction false} ExposedWithinAllowed(b: BoundaryState, ops: seq<Op>)
    requires b.caps.exposed <= AllowedTools(b.audit) * b.caps.available
    ensures Run(b, ops).caps.exposed <= AllowedTools(Run(b, ops).audit) * Run(b, ops).caps.available
  {
    if ops != [] {
      ExposedWithinAllowed(b, Front(ops));
      var before := Run(b, Front(ops));
      match Last(ops)
      case Register(c) =>
      case Execute(q) =>
        AllowedToolsGrow(before.audit, Decide(before, q));
        ExposedAfter(before, q);
    }
  }

  /** The run has allowed the tool at a moment when it was available. */
  ghost predicate AllowedWhenAvailable(b: BoundaryState, ops: seq<Op>, tool: string) {
    ops != []
    && (AllowedWhenAvailable(b, Front(ops), tool)
        || (Last(ops).Execute? && Last(ops).q.toolName == tool && Allows(Run(b, Front(ops)), Last(ops).q)
            && tool in Run(b, Front(ops)).caps.available))
  }

  /** Over every run, whatever was preloaded: exposed at the end are the tools allowed at a moment when available. */
  lemma {:induction false} ExposedExactly(b: BoundaryState, ops: seq<Op>, tool: string)
    ensures tool in Run(b, ops).caps.exposed <==> tool in b.caps.exposed || AllowedWhenAvailable(b, ops, tool)
  {
    if ops != [] {
      ExposedExactly(b, Front(ops), tool);
      if Last(ops).Execute? { ExposedAfter(Run(b, Front(ops)), Last(ops).q); }
    }
  }

  lemma {:induction false} AvailableExactly(b: BoundaryState, ops: seq<Op>, tool: string)
    ensures tool in Run(b, ops).caps.available <==>
            tool in b.caps.available || (tool != "" && exists c :: Register(c) in ops && c.name == tool)
  {
    if ops != [] {
      AvailableExactly(b, Front(ops), tool);
      FrontLast(ops);
      match Last(ops)
      case Register(c) => assert Register(c) in ops;
      case Execute(q) => ExposedAfter(Run(b, Front(ops)), q);
    }
  }

  /** A preloaded tool stays hidden, however often it is allowed, as long as nobody registers it as well. */
  lemma {:induction false} PreloadedToolStaysHidden(b: BoundaryState, ops: seq<Op>, tool: string)
    requires tool !in b.caps.available && tool !in b.caps.exposed
    requires forall c :: Register(c) in ops ==> c.name != tool
    ensures tool !in Run(b, ops).caps.exposed
  {
    if ops != [] {
      FrontLast(ops);
      PreloadedToolStaysHidden(b, Front(ops), tool);
      AvailableExactly(b, Front(ops), tool);
      if Last(ops).Execute? { ExposedAfter(Run(b, Front(ops)), Last(ops).q); }
    }
  }

  const PROBE := ToolContract("t", "look", "read", true, false)

  function Probe(name: string): ActionRequest {
    ActionRequest(name, "look", "h", "", "", "active_safe", None, false, 0.0, 0.0)
  }

  /** A guard that allows the host "h", and one contract handed to the constructor. */
  function Preloaded(c: ToolContract): BoundaryState {
    BoundaryState(GuardState([ScopeRule("h", true, ActiveSafe)], 60, map[], map[], []), map[c.name := c], [],
                  TrackerState({}, {}, [], []))
  }

  lemma PreloadedAllows(q: Request, c: ToolContract)
    requires q.host == "h" && TierIndex(q.tier) <= TierIndex(ActiveSafe)
    ensures Verdict(Preloaded(c).guard, q) == Allow
  {
    var g := Preloaded(c).guard;
    LiteralGlobIsEquality("h", "h");
    assert g.rules[0] in g.rules && Glob(g.rules[0].pattern, q.host);
    assert Prune([], q.now) == [];
  }

  /** So the sets do come apart: the very first request of such a boundary is allowed, and its tool is not exposed. */
  lemma PreloadedExample()
    ensures var b, q := Preloaded(PROBE), Probe("t");
            && Untouched(b) && Matched(b) && Allows(b, q) && !Matched(Next(b, q))
            && q.toolName in AllowedTools(Next(b, q).audit) && q.toolName !in Next(b, q).caps.exposed
  {
    var b, q := Preloaded(PROBE), Probe("t");
    assert Lower("active_safe") == "active_safe";
    assert "active_safe"[0] != "destructive"[0] && "active_safe"[7] != "active_risky"[7];
    assert !IsSpace("t"[0]) && !IsSpace("h"[0]);
    PreloadedAllows(Ask(PROBE, q), PROBE);
    RequestKeepsMatched(b, q);
    AllowedToolsGrow(b.audit, Decide(b, q));
    ExposedAfter(b, q);
  }

  function AllowedHosts(audit: seq<ExecutionDecision>): seq<string> {
    if audit == [] then []
    else AllowedHosts(Front(audit)) + if Last(audit).Allowed() then [Last(audit).request.host] else []
  }

  /** Hosts of the guard's own allow entries, in order. */
  function GuardAllows(log: seq<LogEntry>): seq<string> {
    if log == [] then []
    else GuardAllows(Front(log))
         + if Last(log).LogAllow? || Last(log).LogAllowViaApproval? then [Last(log).host] else []
  }

  /** The entries a run adds to the audit and to the guard's log. */
  ghost function NewAudit(b: BoundaryState, ops: seq<Op>): seq<ExecutionDecision>
    requires b.audit <= Run(b, ops).audit
  {
    Run(b, ops).audit[|b.audit|..]
  }

  ghost function NewLog(b: BoundaryState, ops: seq<Op>): seq<LogEntry>
    requires b.guard.log <= Run(b, ops).guard.log
  {
    Run(b, ops).guard.log[|b.guard.log|..]
  }

  lemma {:induction false} TrailsOnlyGrow(b: BoundaryState, ops: seq<Op>)
    ensures b.audit <= Run(b, ops).audit && b.guard.log <= Run(b, ops).guard.log
  {
    if ops != [] { TrailsOnlyGrow(b, Front(ops)); }
  }

  lemma SuffixAppend<T>(start: seq<T>, s: seq<T>, x: T)
    requires start <= s
    ensures start <= s + [x] && (s + [x])[|start|..] == s[|start|..] + [x]
  {}

  /**
   One audit entry per request; and the two audit trails agree: the hosts the boundary lets through are, in
   order and one for one, the hosts the guard itself logs as allowed, from whatever state the run starts.
   */
  lemma {:induction false} AuditMatchesGuardLog(b: BoundaryState, ops: seq<Op>)
    ensures b.audit <= Run(b, ops).audit && b.guard.log <= Run(b, ops).guard.log
    ensures AllowedHosts(NewAudit(b, ops)) == GuardAllows(NewLog(b, ops))
    ensures |NewAudit(b, ops)| == |Requests(ops)|
    ensures forall i :: 0 <= i < |Requests(ops)| ==> NewAudit(b, ops)[i].request == Requests(ops)[i]
  {
    TrailsOnlyGrow(b, ops);
    if ops != [] {
      AuditMatchesGuardLog(b, Front(ops));
      match Last(ops)
      case Register(c) =>
        assert Requests(ops) == Requests(Front(ops));
      case Execute(q) =>
        RequestKeepsTrailsEqual(b, Run(b, Front(ops)), q);
    }
  }

  lemma AllowedHostsAppend(audit: seq<ExecutionDecision>, d: ExecutionDecision)
    ensures AllowedHosts(audit + [d]) == AllowedHosts(audit) + if d.Allowed() then [d.request.host] else []
  {
    FrontAppend(audit, d);
  }

  lemma GuardAllowsAppend(log: seq<LogEntry>, e: LogEntry)
    ensures GuardAllows(log + [e]) == GuardAllows(log) + if e.LogAllow? || e.LogAllowViaApproval? then [e.host] else []
  {
    FrontAppend(log, e);
  }

  /** One more entry on each side. */
  lemma TrailsGrow(audit: seq<ExecutionDecision>, log: seq<LogEntry>, d: ExecutionDecision, e: LogEntry)
    requires AllowedHosts(audit) == GuardAllows(log)
    requires d.Allowed() <==> e.LogAllow? || e.LogAllowViaApproval?
    requires d.Allowed() ==> e.host == d.request.host
    ensures AllowedHosts(audit + [d]) == GuardAllows(log + [e])
  {
    AllowedHostsAppend(audit, d);
    GuardAllowsAppend(log, e);
  }

  lemma RequestKeepsTrailsEqual(start: BoundaryState, b: BoundaryState, q: ActionRequest)
    requires start.audit <= b.audit && start.guard.log <= b.guard.log
    requires AllowedHosts(b.audit[|start.audit|..]) == GuardAllows(b.guard.log[|start.guard.log|..])
    ensures var n := Next(b, q);
            && start.audit <= n.audit && start.guard.log <= n.guard.log
            && n.audit[|start.audit|..] == b.audit[|start.audit|..] + [Decide(b, q)]
            && AllowedHosts(n.audit[|start.audit|..]) == GuardAllows(n.guard.log[|start.guard.log|..])
  {
    var d := Decide(b, q);
    SuffixAppend(start.audit, b.audit, d);
    if d.scope.Some? {
      var ask := Ask(b.contracts[q.toolName], q);
      SuffixAppend(start.guard.log, b.guard.log, Entry(b.guard, ask));
      EntryTellsVerdict(b.guard, ask);
      TrailsGrow(b.audit[|start.audit|..], b.guard.log[|start.guard.log|..], d, Entry(b.guard, ask));
    } else {
      AllowedHostsAppend(b.audit[|start.audit|..], d);
    }
  }

  function Requests(ops: seq<Op>): seq<ActionRequest> {
    if ops == [] then [] else Requests(Front(ops)) + if Last(ops).Execute? then [Last(ops).q] else []
  }

  // ---------------------------------------------------------------- authorize_tool against the boundary

  datatype ToolVerdict = ToolAllowed | ToolLiveHttp | ToolMissingScope | ToolScope(d: Decision) | ToolNeedsAuthorization

  function ToolAsk(c: ToolContract, host: string, action: string, now: real, later: real): Request {
    Request(host, if c.sideEffects == "read" then ActiveSafe else ActiveRisky, action, None, now, later)
  }

  /** The only effect is the guard's. */
  method AuthorizeTool(c: ToolContract, guard: ScopeGuard, host: string, action: string, live: bool,
                       now: real, later: real) returns (v: ToolVerdict)
    modifies guard
    ensures v.ToolAllowed? <==> ToolAllows(old(guard.State()), c, host, action, live, now, later)
    ensures v == ToolLiveHttp <==> live && !c.liveHttpAllowed
    ensures v == ToolMissingScope <==> v != ToolLiveHttp && Blank(host)
    ensures v == ToolNeedsAuthorization <==> !(live && !c.liveHttpAllowed) && !Blank(host) && !c.authorizationRequired
    ensures v.ToolScope? <==> !(live && !c.liveHttpAllowed) && !Blank(host) && c.authorizationRequired
                              && Verdict(old(guard.State()), ToolAsk(c, host, action, now, later)) != Allow
    ensures v.ToolScope? ==> v.d == Verdict(old(guard.State()), ToolAsk(c, host, action, now, later)) != Allow
    ensures guard.State() == if v.ToolAllowed? || v.ToolScope?
                             then After(old(guard.State()), ToolAsk(c, host, action, now, later))
                             else old(guard.State())
  {
    if live && !c.liveHttpAllowed { return ToolLiveHttp; }
    if Blank(host) { return ToolMissingScope; }
    if c.authorizationRequired {
      var d := guard.Authorize(ToolAsk(c, host, action, now, later));
      if d != Allow { return ToolScope(d); }
      return ToolAllowed;
    }
    return ToolNeedsAuthorization;
  }

  ghost predicate ToolAllows(g: GuardState, c: ToolContract, host: string, action: string, live: bool,
                             now: real, later: real)
  {
    (live ==> c.liveHttpAllowed) && !Blank(host) && c.authorizationRequired
    && Verdict(g, ToolAsk(c, host, action, now, later)) == Allow
  }

  /** The boundary request with the same contract, host, mode and clock, and the default tier. */
  ghost predicate SameQuestion(b: BoundaryState, c: ToolContract, q: ActionRequest) {
    q.toolName == c.name && c.name in b.contracts && b.contracts[c.name] == c && q.riskTier == "active_safe"
  }

  /**
   Whatever authorize_tool allows, the boundary allows too, except for one family: a contract whose
   name is all white space, which register accepts and request_execution then refuses.
   */
  lemma ToolWithinBoundary(b: BoundaryState, c: ToolContract, q: ActionRequest)
    requires SameQuestion(b, c, q) && ToolAllows(b.guard, c, q.host, q.purpose, q.liveMode, q.now, q.later)
    ensures Allows(b, q) <==> !Blank(c.name)
  {
    assert Lower("active_safe") == "active_safe";
    assert TierIndex(TierFor(c, q.riskTier)) <= TierIndex(ToolAsk(c, q.host, q.purpose, q.now, q.later).tier) by {
      assert "active_safe"[0] != "destructive"[0];
      assert "active_safe"[7] != "active_risky"[7];
    }
  }

  /** The family is not empty: a registered contract named by one blank. */
  lemma BlankNameExample()
    ensures var c, q := PROBE.(name := " "), Probe(" ");
            var b := Registered(Preloaded(PROBE), c);
            && c.name != "" && SameQuestion(b, c, q) && ToolAllows(b.guard, c, q.host, q.purpose, q.liveMode, q.now, q.later)
            && !Allows(b, q)
  {
    var c, q := PROBE.(name := " "), Probe(" ");
    PreloadedAllows(ToolAsk(c, q.host, q.purpose, q.now, q.later), PROBE);
    assert !IsSpace("h"[0]);
    assert forall i :: 0 <= i < |" "| ==> IsSpace(" "[i]);
  }

  /** How much more the boundary allows: tools without authorization, and other side effects at the safe tier. */
  lemma BoundaryBeyondTool(b: BoundaryState, c: ToolContract, q: ActionRequest)
    requires SameQuestion(b, c, q) && q.token == None && Allows(b, q)
    ensures ToolAllows(b.guard, c, q.host, q.purpose, q.liveMode, q.now, q.later) <==>
            c.authorizationRequired
            && (c.sideEffects in ["read", "write", "state_change"] || Covers(b.guard.rules, q.host, ActiveRisky))
  {
    assert Lower("active_safe") == "active_safe";
    assert "active_safe"[0] != "destructive"[0];
    assert "active_safe"[7] != "active_risky"[7];
  }
}
