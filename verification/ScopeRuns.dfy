/**
 Laws of the guard: how a verdict depends on the rules, and what holds over whole runs of
 authorizations under a non-decreasing clock.
 */
module ScopeRuns {
  import opened Common
  import opened Scope

  // ---------------------------------------------------------------- how the verdict depends on the rules

  /** Only the set of rules matters: permuting or repeating them changes nothing. */
  lemma RuleOrderIrrelevant(g: GuardState, rules: seq<ScopeRule>, q: Request)
    requires Elems(rules) == Elems(g.rules)
    ensures Verdict(g.(rules := rules), q) == Verdict(g, q)
    ensures After(g.(rules := rules), q) == After(g, q).(rules := rules)
  {
    assert forall r :: r in rules <==> r in g.rules by {
      assert forall r :: r in rules <==> r in Elems(rules);
      assert forall r :: r in g.rules <==> r in Elems(g.rules);
    }
  }

  /** A rule inserted anywhere: an exclusion never produces Allow, an allow rule never loses it. */
  lemma InsertedRule(g: GuardState, k: nat, rule: ScopeRule, q: Request)
    requires k <= |g.rules|
    ensures var g' := g.(rules := g.rules[..k] + [rule] + g.rules[k..]);
            && (!rule.allow && Glob(rule.pattern, q.host) ==> Verdict(g', q) == Deny)
            && (!rule.allow && Verdict(g', q) == Allow ==> Verdict(g, q) == Allow)
            && (rule.allow && Verdict(g, q) == Allow ==> Verdict(g', q) == Allow)
  {
    var rules := g.rules[..k] + [rule] + g.rules[k..];
    assert g.rules == g.rules[..k] + g.rules[k..];
    assert forall r :: r in rules <==> r in g.rules || r == rule;
  }

  /** Asking for less risk never loses Allow. */
  lemma LowerTierKeepsAllow(g: GuardState, q: Request, tier: RiskTier)
    requires TierIndex(tier) <= TierIndex(q.tier) && Verdict(g, q) == Allow
    ensures Verdict(g, q.(tier := tier)) == Allow
  {}

  // ---------------------------------------------------------------- what the verdict is, rule by rule

  lemma TiersInOrder(t: RiskTier, u: RiskTier)
    ensures TierIndex(t) <= TierIndex(u) <==>
            t == u || t == Passive || u == Destructive || (t == ActiveSafe && u == ActiveRisky)
  {}

  /** How many of the times are less than 60 seconds old. */
  function Recent(times: seq<real>, now: real): set<nat> {
    set i: nat | i < |times| && now - times[i] < 60.0
  }

  lemma RecentGrows(f: seq<real>, t: real, now: real)
    ensures |Recent(f + [t], now)| == |Recent(f, now)| + if now - t < 60.0 then 1 else 0
  {
    assert forall i: nat :: i in Recent(f + [t], now) <==> i in Recent(f, now) || (i == |f| && now - t < 60.0);
    assert Recent(f + [t], now) == Recent(f, now) + if now - t < 60.0 then {|f|} else {};
  }

  lemma PruneGrows(f: seq<real>, t: real, now: real)
    ensures Prune(f + [t], now) == Prune(f, now) + When(now - t < 60.0, t)
  {
    PruneAppend(f, [t], now);
    assert Prune([t], now) == When(now - t < 60.0, t) + Prune([], now);
  }

  /** Pruning keeps exactly the recent times, each as often as it occurs. */
  lemma {:induction false} PruneKeepsRecent(w: seq<real>, now: real)
    ensures |Prune(w, now)| == |Recent(w, now)|
    ensures forall t :: t in Prune(w, now) <==> t in w && now - t < 60.0
  {
    if w == [] {
      assert Recent(w, now) == {};
    } else {
      FrontLast(w);
      PruneKeepsRecent(Front(w), now);
      RecentGrows(Front(w), Last(w), now);
      PruneGrows(Front(w), Last(w), now);
    }
  }

  /** Some rule that matches the host allows it up to the tier. */
  ghost predicate Preauthorized(g: GuardState, q: Request) {
    exists r :: r in g.rules && r.allow && Glob(r.pattern, q.host)
                && (q.tier == r.maxTier || q.tier == Passive || r.maxTier == Destructive
                    || (q.tier == ActiveSafe && r.maxTier == ActiveRisky))
  }

  /** A stored token of that non-empty id has not expired and its pattern matches the action. */
  predicate LiveToken(g: GuardState, q: Request) {
    match q.token
    case None => false
    case Some(id) =>
      id != "" && id in g.approvals && !(q.later > g.approvals[id].expiresAt) && Glob(g.approvals[id].actionPattern, q.action)
  }

  ghost predicate ExclusionMatches(g: GuardState, host: string) {
    exists r :: r in g.rules && !r.allow && Glob(r.pattern, host)
  }

  ghost predicate RuleMatches(g: GuardState, host: string) { exists r :: r in g.rules && Glob(r.pattern, host) }

  /** The three verdicts and the six audit entries, by rules, recent hits and tokens alone. */
  lemma VerdictRuleByRule(g: GuardState, q: Request)
    ensures var room := |Recent(if q.host in g.hits then g.hits[q.host] else [], q.now)| < g.limit;
            && (Verdict(g, q) == Deny <==> ExclusionMatches(g, q.host) || !RuleMatches(g, q.host) || !room)
            && (Verdict(g, q) == Allow <==>
                  !ExclusionMatches(g, q.host) && RuleMatches(g, q.host) && room && (Preauthorized(g, q) || LiveToken(g, q)))
            && Entry(g, q) ==
               if ExclusionMatches(g, q.host) then LogDeny(q.host, ExplicitExclusion, q.tier)
               else if !RuleMatches(g, q.host) then LogDeny(q.host, NotInScope, q.tier)
               else if !room then LogDeny(q.host, RateLimitExceeded, q.tier)
               else if Preauthorized(g, q) then LogAllow(q.host, q.tier)
               else if LiveToken(g, q) then LogAllowViaApproval(q.host, q.tier, q.token.value)
               else LogRequiresApproval(q.host, q.tier)
  {
    PruneKeepsRecent(Window(g.hits, q.host), q.now);
    CoversRuleByRule(g, q);
    assert ExclusionMatches(g, q.host) <==> Excluded(g.rules, q.host);
    assert !ExclusionMatches(g, q.host) ==> (RuleMatches(g, q.host) <==> InScope(g.rules, q.host));
    assert LiveToken(g, q) <==> Approved(g.approvals, q.token, q.action, q.later);
  }

  lemma CoversRuleByRule(g: GuardState, q: Request)
    ensures Preauthorized(g, q) <==> Covers(g.rules, q.host, q.tier)
  {
    forall r: ScopeRule { TiersInOrder(q.tier, r.maxTier); }
    if r :| r in g.rules && r.allow && Glob(r.pattern, q.host) && TierIndex(q.tier) <= TierIndex(r.maxTier) {
      TiersInOrder(q.tier, r.maxTier);
    }
  }

  // ---------------------------------------------------------------- runs

  /** A grant names the fresh token id and the two clock readings grant_approval makes. */
  datatype Op =
    | Authorize(q: Request)
    | Grant(id: string, grantedBy: string, reason: string, pattern: string, ttl: int, issued: real, started: real)

  function Time(op: Op): real { if op.Authorize? then op.q.now else op.started }

  ghost predicate Clocked(ops: seq<Op>) {
    forall i, j :: 0 <= i < j < |ops| ==> Time(ops[i]) <= Time(ops[j])
  }

  ghost function Apply(g: GuardState, op: Op): GuardState {
    match op
    case Authorize(q) => After(g, q)
    case Grant(id, grantedBy, reason, pattern, ttl, issued, started) =>
      g.(approvals := g.approvals[id := ApprovalToken(grantedBy, reason, issued, started + ttl as real, pattern)],
         log := g.log + [LogGranted(id, reason, pattern)])
  }

  ghost function Run(g: GuardState, ops: seq<Op>): GuardState {
    if ops == [] then g else Apply(Run(g, Front(ops)), Last(ops))
  }

  /** The operation is an authorization of `host` that the rate check lets through. */
  ghost predicate Admits(g: GuardState, op: Op, host: string) {
    op.Authorize? && op.q.host == host && ReachesRateCheck(g, host) && HasRoom(g, host, op.q.now)
  }

  /** The full, never pruned, list of admission times of a host over a run. */
  ghost function Admitted(g: GuardState, ops: seq<Op>, host: string): seq<real> {
    if ops == [] then []
    else
      Admitted(g, Front(ops), host)
      + if Admits(Run(g, Front(ops)), Last(ops), host) then [Time(Last(ops))] else []
  }

  /** How many of the times fall into [from, from + 60). */
  function CountIn(times: seq<real>, from: real): nat {
    if times == [] then 0
    else CountIn(Front(times), from) + if from <= Last(times) < from + 60.0 then 1 else 0
  }

  lemma {:induction false} PruneAppend(a: seq<real>, b: seq<real>, now: real)
    ensures Prune(a + b, now) == Prune(a, now) + Prune(b, now)
  {
    if a == [] {
      assert a + b == b;
    } else {
      assert (a + b)[1..] == a[1..] + b;
      PruneAppend(a[1..], b, now);
    }
  }

  /** Pruning early loses nothing that a later pruning would keep. */
  lemma {:induction false} PruneTwice(w: seq<real>, early: real, late: real)
    requires early <= late
    ensures Prune(Prune(w, early), late) == Prune(w, late)
  {
    if w != [] {
      PruneTwice(w[1..], early, late);
      PruneAppend(if early - w[0] < 60.0 then [w[0]] else [], Prune(w[1..], early), late);
    }
  }

  lemma {:induction false} AdmissionsHappened(g: GuardState, ops: seq<Op>, host: string, t: real)
    requires forall i :: 0 <= i < |ops| ==> Time(ops[i]) <= t
    ensures forall x :: x in Admitted(g, ops, host) ==> x <= t
  {
    if ops != [] { AdmissionsHappened(g, Front(ops), host, t); }
  }

  /**
   The window pruned in place is as good as the full history: seen from any moment after the run,
   both hold the same hits of the last 60 seconds.
   */
  lemma {:induction false} WindowAgreesWithHistory(g: GuardState, ops: seq<Op>, host: string, t: real)
    requires g.hits == map[] && Clocked(ops)
    requires forall i :: 0 <= i < |ops| ==> Time(ops[i]) <= t
    ensures Prune(Window(Run(g, ops).hits, host), t) == Prune(Admitted(g, ops, host), t)
  {
    if ops != [] {
      var before, op := Run(g, Front(ops)), Last(ops);
      WindowAgreesWithHistory(g, Front(ops), host, t);
      if op.Authorize? && op.q.host == host && ReachesRateCheck(before, host) {
        var w := Prune(Window(before.hits, host), op.q.now);
        PruneTwice(Window(before.hits, host), op.q.now, t);
        if HasRoom(before, host, op.q.now) {
          PruneAppend(w, [op.q.now], t);
          PruneAppend(Admitted(g, Front(ops), host), [op.q.now], t);
        } else {
          assert w + [] == w;
          assert Admitted(g, ops, host) == Admitted(g, Front(ops), host);
        }
      } else {
        assert Admitted(g, ops, host) == Admitted(g, Front(ops), host);
      }
    }
  }

  /** Right after a rate check the stored list is exactly the history filtered to the last 60 seconds. */
  lemma StoredListIsRecentHistory(g: GuardState, ops: seq<Op>, host: string)
    requires g.hits == map[] && Clocked(ops) && ops != []
    requires Last(ops).Authorize? && Last(ops).q.host == host && ReachesRateCheck(Run(g, Front(ops)), host)
    ensures Window(Run(g, ops).hits, host) == Prune(Admitted(g, ops, host), Time(Last(ops)))
  {
    var now := Time(Last(ops));
    var before := Run(g, Front(ops));
    WindowAgreesWithHistory(g, ops, host, now);
    var w := Window(before.hits, host);
    PruneTwice(w, now, now);
    PruneAppend(Prune(w, now), [now], now);
    assert Prune(w, now) + [] == Prune(w, now);
  }

  /** The bounded list decides as the unbounded history would: there is room iff the last 60 seconds hold too few admissions. */
  lemma DecidesByHistory(g: GuardState, ops: seq<Op>, q: Request)
    requires g.hits == map[] && Clocked(ops + [Authorize(q)])
    ensures Admits(Run(g, ops), Authorize(q), q.host) <==>
            ReachesRateCheck(g, q.host) && |Prune(Admitted(g, ops, q.host), q.now)| < g.limit
  {
    var all := ops + [Authorize(q)];
    forall i, j | 0 <= i < j < |ops| ensures Time(ops[i]) <= Time(ops[j]) {
      assert all[i] == ops[i] && all[j] == ops[j];
    }
    forall i | 0 <= i < |ops| ensures Time(ops[i]) <= q.now {
      assert all[i] == ops[i] && all[|ops|] == Authorize(q);
    }
    WindowAgreesWithHistory(g, ops, q.host, q.now);
    SettingsFixed(g, ops);
  }

  /** Hits of an interval that reaches up to `now` are all recent at `now`. */
  lemma {:induction false} CountInWithinRecent(times: seq<real>, from: real, now: real)
    requires now < from + 60.0
    ensures CountIn(times, from) <= |Prune(times, now)|
  {
    if times != [] {
      CountInWithinRecent(Front(times), from, now);
      PruneAppend(Front(times), [Last(times)], now);
      FrontLast(times);
    }
  }

  /** Over any run, no 60-second interval holds more admissions of a host than the limit. */
  lemma {:induction false} RateBound(g: GuardState, ops: seq<Op>, host: string, from: real)
    requires g.hits == map[] && Clocked(ops)
    ensures CountIn(Admitted(g, ops, host), from) <= Max(g.limit, 0)
  {
    if ops != [] {
      RateBound(g, Front(ops), host, from);
      var before, op := Run(g, Front(ops)), Last(ops);
      var history := Admitted(g, Front(ops), host);
      if Admits(before, op, host) {
        var now := op.q.now;
        FrontAppend(history, now);
        if from <= now < from + 60.0 {
          CountInWithinRecent(history, from, now);
          WindowAgreesWithHistory(g, Front(ops), host, now);
          SettingsFixed(g, Front(ops));
        }
      } else {
        assert Admitted(g, ops, host) == history;
      }
    }
  }

  /** Rules and limit never change; every authorization and every grant adds exactly one log entry. */
  lemma {:induction false} SettingsFixed(g: GuardState, ops: seq<Op>)
    ensures Run(g, ops).rules == g.rules && Run(g, ops).limit == g.limit
    ensures |Run(g, ops).log| == |g.log| + |ops| && g.log <= Run(g, ops).log
  {
    if ops != [] { SettingsFixed(g, Front(ops)); }
  }

  /** Every Allow of a run is also an admission, so the rate bound covers it. */
  lemma AllowIsAdmitted(g: GuardState, q: Request)
    requires Verdict(g, q) == Allow
    ensures Admits(g, Authorize(q), q.host)
    ensures After(g, q).hits[q.host] == Prune(Window(g.hits, q.host), q.now) + [q.now]
  {}

  // ---------------------------------------------------------------- grant, then authorize

  /** The last grant of a run under a token id. */
  function LastGrant(ops: seq<Op>, id: string): Option<Op> {
    if ops == [] then None
    else if Last(ops).Grant? && Last(ops).id == id then Some(Last(ops))
    else LastGrant(Front(ops), id)
  }

  lemma {:induction false} ApprovalsAreGrants(g: GuardState, ops: seq<Op>, id: string)
    requires g.approvals == map[]
    ensures LastGrant(ops, id).Some? ==> LastGrant(ops, id).value.Grant?
    ensures id in Run(g, ops).approvals <==> LastGrant(ops, id).Some?
    ensures id in Run(g, ops).approvals ==>
              var op := LastGrant(ops, id).value;
              Run(g, ops).approvals[id] == ApprovalToken(op.grantedBy, op.reason, op.issued, op.started + op.ttl as real, op.pattern)
  {
    if ops != [] { ApprovalsAreGrants(g, Front(ops), id); }
  }

  /** The request carries an id under which the run has granted, last of all, a token that is still alive and fits. */
  predicate GrantedInTime(ops: seq<Op>, q: Request) {
    q.token.Some? && q.token.value != ""
    && match LastGrant(ops, q.token.value)
       case Some(Grant(_, _, _, pattern, ttl, _, started)) =>
         q.later <= started + ttl as real && Glob(pattern, q.action)
       case _ => false
  }

  /**
   What an approval is worth, over any run of a new guard: a request above every matching rule's tier, where the
   rate check has room, is allowed exactly by the last grant under its token id, up to the second it expires,
   and only for the actions the grant was made for.
   */
  lemma ApprovalNeedsLiveGrant(g: GuardState, ops: seq<Op>, q: Request)
    requires g.approvals == map[]
    requires ReachesRateCheck(Run(g, ops), q.host) && HasRoom(Run(g, ops), q.host, q.now)
    requires forall r :: r in g.rules && r.allow && Glob(r.pattern, q.host) ==> TierIndex(r.maxTier) < TierIndex(q.tier)
    ensures Verdict(Run(g, ops), q) == (if GrantedInTime(ops, q) then Allow else RequiresApproval)
  {
    SettingsFixed(g, ops);
    if q.token.Some? { ApprovalsAreGrants(g, ops, q.token.value); }
  }
}
