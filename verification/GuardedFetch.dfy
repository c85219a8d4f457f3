/**
 ledger/state_tree.py (the budget circuit breaker) and orchestrator/engagement.py
 (`_guarded_fetch`: authorize, then spend, then fetch).
 */
module Ledger {
  datatype Row = Row(tokensSpent: int, callsSpent: int, tokenBudget: int, callBudget: int)

  /** The cap a scope gets that never had a budget set. */
  const DEFAULT_ROW := Row(0, 0, 200_000, 500)

  function RowOf(budget: map<string, Row>, key: string): Row {
    if key in budget then budget[key] else DEFAULT_ROW
  }

  function Charge(r: Row, tokens: int, calls: int): Row {
    r.(tokensSpent := r.tokensSpent + tokens, callsSpent := r.callsSpent + calls)
  }

  predicate Within(r: Row) { r.tokensSpent <= r.tokenBudget && r.callsSpent <= r.callBudget }

  class ExecutionLedger {
    var budget: map<string, Row>

    constructor ()
      ensures budget == map[]
    {
      budget := map[];
    }

    /** An upsert: what was already spent survives a new budget. */
    method SetBudget(key: string, tokenBudget: int, callBudget: int)
      modifies this
      ensures budget.Keys == old(budget).Keys + {key}
      ensures budget[key].tokenBudget == tokenBudget && budget[key].callBudget == callBudget
      ensures key in old(budget) ==> budget[key].tokensSpent == old(budget)[key].tokensSpent
                                     && budget[key].callsSpent == old(budget)[key].callsSpent
      ensures key !in old(budget) ==> budget[key].tokensSpent == 0 && budget[key].callsSpent == 0
      ensures forall k :: k in old(budget) && k != key ==> budget[k] == old(budget)[k]
    {
      var row := if key in budget then budget[key] else Row(0, 0, tokenBudget, callBudget);
      budget := budget[key := row.(tokenBudget := tokenBudget, callBudget := callBudget)];
    }

    /** Spend is recorded whether or not it fits; the result says whether it did. */
    method Spend(key: string, tokens: int, calls: int) returns (ok: bool)
      modifies this
      ensures budget == old(budget)[key := Charge(RowOf(old(budget), key), tokens, calls)]
      ensures ok == Within(RowOf(budget, key))
      ensures key in budget && (ok <==> budget[key].tokensSpent <= budget[key].tokenBudget
                                        && budget[key].callsSpent <= budget[key].callBudget)
      ensures budget[key] == if key in old(budget)
                             then Row(old(budget)[key].tokensSpent + tokens, old(budget)[key].callsSpent + calls,
                                      old(budget)[key].tokenBudget, old(budget)[key].callBudget)
                             else Row(tokens, calls, 200_000, 500)
    {
      if key !in budget {
        SetBudget(key, 200_000, 500);
        assert budget == old(budget)[key := DEFAULT_ROW];
      }
      var tokensSpent := budget[key].tokensSpent + tokens;
      var callsSpent := budget[key].callsSpent + calls;
      budget := budget[key := budget[key].(tokensSpent := tokensSpent, callsSpent := callsSpent)];
      ok := tokensSpent <= budget[key].tokenBudget && callsSpent <= budget[key].callBudget;
    }
  }
}

module GuardedFetch {
  import opened Common
  import opened Scope
  import opened Ledger
  import Runs = ScopeRuns

  /** One call of _guarded_fetch, with the two clock readings the guard makes. */
  datatype Call = Call(host: string, path: string, tier: RiskTier, now: real, later: real)

  /** A request that went out on the wire. */
  datatype Fetch = Fetch(host: string, path: string, at: real)

  datatype Outcome = Fetched | ViolationDeny | ViolationNeedsApproval | BreakerTripped

  datatype Engagement = Engagement(guard: GuardState, budget: map<string, Row>, wire: seq<Fetch>)

  /** The request the fetch makes to the guard: it never carries an approval token. */
  function Auth(c: Call): Request {
    Request(c.host, c.tier, "http_get:" + c.host + c.path, None, c.now, c.later)
  }

  function Sent(c: Call): Fetch { Fetch(c.host, c.path, c.now) }

  ghost function Result(e: Engagement, key: string, c: Call): Outcome {
    match Verdict(e.guard, Auth(c))
    case Deny => ViolationDeny
    case RequiresApproval => ViolationNeedsApproval
    case Allow => if Within(Charge(RowOf(e.budget, key), 50, 1)) then Fetched else BreakerTripped
  }

  ghost function Step(e: Engagement, key: string, c: Call): Engagement {
    var guard := After(e.guard, Auth(c));
    var r := Result(e, key, c);
    if r.ViolationDeny? || r.ViolationNeedsApproval? then e.(guard := guard)
    else
      Engagement(guard, e.budget[key := Charge(RowOf(e.budget, key), 50, 1)],
                 e.wire + if r.Fetched? then [Sent(c)] else [])
  }

  class Orchestrator {
    const scopeKey: string
    const guard: ScopeGuard
    const ledger: ExecutionLedger
    var wire: seq<Fetch>

    ghost function State(): Engagement
      reads this, guard, ledger
    {
      Engagement(guard.State(), ledger.budget, wire)
    }

    constructor (host: string, guard: ScopeGuard, ledger: ExecutionLedger, tokenBudget: int, callBudget: int)
      modifies ledger
      ensures this.guard == guard && this.ledger == ledger && scopeKey == "target:" + host && wire == []
      ensures RowOf(ledger.budget, scopeKey).tokenBudget == tokenBudget
      ensures RowOf(ledger.budget, scopeKey).callBudget == callBudget
      ensures guard.State() == old(guard.State())
    {
      this.guard, this.ledger, this.scopeKey, wire := guard, ledger, "target:" + host, [];
      new;
      ledger.SetBudget(scopeKey, tokenBudget, callBudget);
    }

    method Fetch(c: Call) returns (r: Outcome)
      modifies this, guard, ledger
      ensures r == Result(old(State()), scopeKey, c)
      ensures State() == Step(old(State()), scopeKey, c)
      ensures r != Fetched ==> wire == old(wire)
      ensures r == Fetched ==> |wire| == |old(wire)| + 1 && old(wire) <= wire
                               && Last(wire).host == c.host && Last(wire).path == c.path && Last(wire).at == c.now
    {
      var decision := guard.Authorize(Auth(c));
      if decision == Deny { return ViolationDeny; }
      if decision == RequiresApproval { return ViolationNeedsApproval; }
      var ok := ledger.Spend(scopeKey, 50, 1);
      if !ok {
        assert wire + [] == wire;
        return BreakerTripped;
      }
      wire := wire + [Sent(c)];
      return Fetched;
    }
  }

  /** Some rule for the host pre-authorizes the very tier of the call. */
  ghost predicate TierCovered(g: GuardState, c: Call) {
    exists r :: r in g.rules && r.allow && Glob(r.pattern, c.host)
                && (c.tier == r.maxTier || c.tier == Passive || r.maxTier == Destructive
                    || (c.tier == ActiveSafe && r.maxTier == ActiveRisky))
  }

  /**
   What one call comes to, by the rules, the recent hits and the row of the scope alone.  No approval helps:
   a call above every rule's tier never reaches the ledger.
   */
  lemma FetchRuleByRule(e: Engagement, key: string, c: Call)
    ensures var hits := if c.host in e.guard.hits then e.guard.hits[c.host] else [];
            var row := if key in e.budget then e.budget[key] else Row(0, 0, 200_000, 500);
            var open := !Runs.ExclusionMatches(e.guard, c.host) && Runs.RuleMatches(e.guard, c.host)
                        && |Runs.Recent(hits, c.now)| < e.guard.limit;
            Result(e, key, c) ==
            if !open then ViolationDeny
            else if !TierCovered(e.guard, c) then ViolationNeedsApproval
            else if row.tokensSpent + 50 <= row.tokenBudget && row.callsSpent + 1 <= row.callBudget then Fetched
            else BreakerTripped
  {
    Runs.VerdictRuleByRule(e.guard, Auth(c));
    assert Runs.Preauthorized(e.guard, Auth(c)) <==> TierCovered(e.guard, c);
  }

  // ---------------------------------------------------------------- whole runs

  ghost function Run(e: Engagement, key: string, calls: seq<Call>): Engagement {
    if calls == [] then e else Step(Run(e, key, Front(calls)), key, Last(calls))
  }

  function Asks(calls: seq<Call>): (ops: seq<Runs.Op>)
    ensures |ops| == |calls|
  {
    seq(|calls|, i requires 0 <= i < |calls| => Runs.Authorize(Auth(calls[i])))
  }

  ghost predicate Clocked(calls: seq<Call>) {
    forall i, j :: 0 <= i < j < |calls| ==> calls[i].now <= calls[j].now
  }

  /** The calls the guard alone would let through, in order: no ledger in sight. */
  ghost function Allowed(g: GuardState, calls: seq<Call>): seq<Fetch> {
    if calls == [] then []
    else
      Allowed(g, Front(calls))
      + if Verdict(Runs.Run(g, Asks(Front(calls))), Auth(Last(calls))) == Allow then [Sent(Last(calls))] else []
  }

  /** How many more fetches of 50 tokens and one call fit into the row. */
  function Capacity(r: Row): nat {
    Max(0, Min(r.callBudget - r.callsSpent, (r.tokenBudget - r.tokensSpent) / 50))
  }

  /** The guard inside an engagement runs as it would alone. */
  lemma {:induction false} GuardRunsAlone(e: Engagement, key: string, calls: seq<Call>)
    ensures Run(e, key, calls).guard == Runs.Run(e.guard, Asks(calls))
  {
    if calls != [] {
      GuardRunsAlone(e, key, Front(calls));
      assert Front(Asks(calls)) == Asks(Front(calls));
    }
  }

  /** What one call adds to an engagement, once the guard's answer is known. */
  function Settle(e: Engagement, key: string, f: Fetch, allow: bool): Engagement {
    if !allow then e
    else
      var row := Charge(RowOf(e.budget, key), 50, 1);
      e.(budget := e.budget[key := row], wire := e.wire + if Within(row) then [f] else [])
  }

  lemma StepSettles(e: Engagement, key: string, c: Call)
    ensures Step(e, key, c) == Settle(e, key, Sent(c), Verdict(e.guard, Auth(c)) == Allow).(guard := After(e.guard, Auth(c)))
  {
    assert e.wire + [] == e.wire;
  }

  /** The wire is `start` and then the first Capacity of `allowed`; all of `allowed` is charged to `row`. */
  predicate Ledgered(e: Engagement, key: string, start: seq<Fetch>, row: Row, allowed: seq<Fetch>) {
    && e.wire == start + allowed[..Min(|allowed|, Capacity(row))]
    && RowOf(e.budget, key) == Charge(row, 50 * |allowed|, |allowed|)
  }

  lemma SettleKeepsLedgered(e: Engagement, key: string, start: seq<Fetch>, row: Row, allowed: seq<Fetch>,
                            f: Fetch, allow: bool)
    requires Ledgered(e, key, start, row, allowed)
    ensures Ledgered(Settle(e, key, f, allow), key, start, row, allowed + if allow then [f] else [])
  {
    var n, cap := |allowed|, Capacity(row);
    if allow {
      assert Within(Charge(row, 50 * (n + 1), n + 1)) <==> n + 1 <= cap;
      if n + 1 <= cap {
        assert (allowed + [f])[..n + 1] == allowed[..n] + [f];
      } else {
        assert (allowed + [f])[..cap] == allowed[..cap];
      }
    } else {
      assert allowed + [] == allowed;
    }
  }

  /**
   Guard and ledger compose without interference: the wire carries exactly the first `Capacity`
   of the calls the guard allows, and every allowed call is charged, also after the breaker trips.
   */
  lemma {:induction false} WireIsAllowedPrefix(e: Engagement, key: string, calls: seq<Call>)
    ensures Ledgered(Run(e, key, calls), key, e.wire, RowOf(e.budget, key), Allowed(e.guard, calls))
  {
    if calls != [] {
      var before := Run(e, key, Front(calls));
      WireIsAllowedPrefix(e, key, Front(calls));
      GuardRunsAlone(e, key, Front(calls));
      StepSettles(before, key, Last(calls));
      SettleKeepsLedgered(before, key, e.wire, RowOf(e.budget, key), Allowed(e.guard, Front(calls)),
                          Sent(Last(calls)), Verdict(before.guard, Auth(Last(calls))) == Allow);
    }
  }

  /** The bound of the circuit breaker: n calls and 50 n tokens fit into what the budget had left. */
  lemma WireBound(e: Engagement, key: string, calls: seq<Call>)
    requires RowOf(e.budget, key).tokensSpent <= RowOf(e.budget, key).tokenBudget
    requires RowOf(e.budget, key).callsSpent <= RowOf(e.budget, key).callBudget
    ensures var n, row := |Run(e, key, calls).wire| - |e.wire|, RowOf(e.budget, key);
            0 <= n && row.callsSpent + n <= row.callBudget && row.tokensSpent + 50 * n <= row.tokenBudget
  {
    WireIsAllowedPrefix(e, key, calls);
  }

  /** Once the breaker has tripped for the scope it stays tripped. */
  lemma BreakerStaysTripped(e: Engagement, key: string, calls: seq<Call>)
    requires !Within(RowOf(e.budget, key))
    ensures Run(e, key, calls).wire == e.wire
    ensures !Within(RowOf(Run(e, key, calls).budget, key))
  {
    WireIsAllowedPrefix(e, key, calls);
    assert Allowed(e.guard, calls)[..0] == [];
  }

  function TimesTo(wire: seq<Fetch>, host: string): seq<real> {
    if wire == [] then []
    else TimesTo(Front(wire), host) + if Last(wire).host == host then [Last(wire).at] else []
  }

  lemma CountInAppend(times: seq<real>, t: real, from: real)
    ensures Runs.CountIn(times + [t], from) == Runs.CountIn(times, from) + if from <= t < from + 60.0 then 1 else 0
  {
    FrontAppend(times, t);
  }

  lemma TimesToAppend(wire: seq<Fetch>, f: Fetch, host: string, from: real)
    ensures Runs.CountIn(TimesTo(wire + [f], host), from)
            == Runs.CountIn(TimesTo(wire, host), from) + if f.host == host && from <= f.at < from + 60.0 then 1 else 0
  {
    FrontAppend(wire, f);
    assert TimesTo(wire, host) + [] == TimesTo(wire, host);
    CountInAppend(TimesTo(wire, host), f.at, from);
  }

  /** One more call: if what is sent to the host is also admitted for it, the counts stay in order. */
  lemma OneMoreCall(sent: seq<Fetch>, past: seq<real>, c: Call, host: string, from: real, sends: bool, admits: bool)
    requires sends && c.host == host ==> admits
    requires Runs.CountIn(TimesTo(sent, host), from) <= Runs.CountIn(past, from)
    ensures Runs.CountIn(TimesTo(sent + if sends then [Sent(c)] else [], host), from)
            <= Runs.CountIn(past + if admits then [c.now] else [], from)
  {
    TimesToAppend(sent, Sent(c), host, from);
    CountInAppend(past, c.now, from);
    assert sent + [] == sent && past + [] == past;
  }

  lemma {:induction false} AllowedWithinAdmitted(g: GuardState, calls: seq<Call>, host: string, from: real)
    ensures Runs.CountIn(TimesTo(Allowed(g, calls), host), from)
            <= Runs.CountIn(Runs.Admitted(g, Asks(calls), host), from)
  {
    if calls != [] {
      AllowedWithinAdmitted(g, Front(calls), host, from);
      var c, ops := Last(calls), Asks(calls);
      assert Front(ops) == Asks(Front(calls)) && Last(ops) == Runs.Authorize(Auth(c));
      var before := Runs.Run(g, Front(ops));
      var sends, admits := Verdict(before, Auth(c)) == Allow, Runs.Admits(before, Last(ops), host);
      if sends { Runs.AllowIsAdmitted(before, Auth(c)); }
      OneMoreCall(Allowed(g, Front(calls)), Runs.Admitted(g, Front(ops), host), c, host, from, sends, admits);
    }
  }

  lemma {:induction false} PrefixCountsLess(wire: seq<Fetch>, k: nat, host: string, from: real)
    requires k <= |wire|
    ensures Runs.CountIn(TimesTo(wire[..k], host), from) <= Runs.CountIn(TimesTo(wire, host), from)
  {
    if k < |wire| {
      PrefixCountsLess(Front(wire), k, host, from);
      assert Front(wire)[..k] == wire[..k];
      CountInAppend(TimesTo(Front(wire), host), Last(wire).at, from);
      assert TimesTo(Front(wire), host) + [] == TimesTo(Front(wire), host);
    } else {
      assert wire[..k] == wire;
    }
  }

  /** The per-host rate bound carries over to the wire. */
  lemma WireRateBound(e: Engagement, key: string, calls: seq<Call>, host: string, from: real)
    requires e.wire == [] && e.guard.hits == map[] && Clocked(calls)
    ensures Runs.CountIn(TimesTo(Run(e, key, calls).wire, host), from) <= Max(e.guard.limit, 0)
  {
    WireIsAllowedPrefix(e, key, calls);
    AllowedRateBound(e.guard, calls, host, from);
    WireCountsLess(Run(e, key, calls).wire, Allowed(e.guard, calls), Capacity(RowOf(e.budget, key)), host, from);
  }

  lemma AllowedRateBound(g: GuardState, calls: seq<Call>, host: string, from: real)
    requires g.hits == map[] && Clocked(calls)
    ensures Runs.CountIn(TimesTo(Allowed(g, calls), host), from) <= Max(g.limit, 0)
  {
    AllowedWithinAdmitted(g, calls, host, from);
    Runs.RateBound(g, Asks(calls), host, from);
  }

  lemma WireCountsLess(wire: seq<Fetch>, allowed: seq<Fetch>, cap: nat, host: string, from: real)
    requires wire == [] + allowed[..Min(|allowed|, cap)]
    ensures Runs.CountIn(TimesTo(wire, host), from) <= Runs.CountIn(TimesTo(allowed, host), from)
  {
    assert wire == allowed[..Min(|allowed|, cap)];
    PrefixCountsLess(allowed, Min(|allowed|, cap), host, from);
  }
}
