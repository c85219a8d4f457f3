/**
 scope/guard.py: the single authorization choke point.

 `GuardState` is the value of a guard at one moment; the class `ScopeGuard` is the
 object whose fields the source updates in place, each method proved against a function
 of that value.  The whole-run results are lemmas about folds of that function.
 */
module Scope {
  import opened Common

  datatype RiskTier = Passive | ActiveSafe | ActiveRisky | Destructive

  datatype Decision = Allow | Deny | RequiresApproval

  datatype ScopeRule = ScopeRule(pattern: string, allow: bool, maxTier: RiskTier)

  datatype ApprovalToken = ApprovalToken(grantedBy: string, reason: string, issuedAt: real,
                                         expiresAt: real, actionPattern: string)

  datatype DenyReason = ExplicitExclusion | NotInScope | RateLimitExceeded

  datatype LogEntry =
    | LogDeny(host: string, why: DenyReason, tier: RiskTier)
    | LogAllow(host: string, tier: RiskTier)
    | LogAllowViaApproval(host: string, tier: RiskTier, tokenId: string)
    | LogRequiresApproval(host: string, tier: RiskTier)
    | LogGranted(tokenId: string, reason: string, pattern: string)

  /** One call of authorize.  `now` is the clock at the rate check, `later` the clock when a token is inspected. */
  datatype Request = Request(host: string, tier: RiskTier, action: string, token: Option<string>,
                             now: real, later: real)

  datatype GuardState = GuardState(rules: seq<ScopeRule>, limit: int, approvals: map<string, ApprovalToken>,
                                   hits: map<string, seq<real>>, log: seq<LogEntry>)

  // ---------------------------------------------------------------- globs

  /** fnmatch restricted to literals, `*` and `?`. */
  predicate Glob(p: string, s: string)
    decreases |p| + |s|
  {
    if p == "" then s == ""
    else if p[0] == '*' then Glob(p[1..], s) || (s != "" && Glob(p, s[1..]))
    else s != "" && (p[0] == '?' || p[0] == s[0]) && Glob(p[1..], s[1..])
  }

  predicate Literal(p: string) { '*' !in p && '?' !in p }

  lemma {:induction false} LiteralGlobIsEquality(p: string, s: string)
    requires Literal(p)
    ensures Glob(p, s) <==> p == s
  {
    if p != "" && s != "" {
      LiteralGlobIsEquality(p[1..], s[1..]);
      assert p == [p[0]] + p[1..] && s == [s[0]] + s[1..];
    }
  }

  /** A leading star matches exactly when some suffix matches the rest. */
  lemma {:induction false} StarMatchesSuffixes(p: string, s: string)
    ensures Glob("*" + p, s) <==> exists k :: 0 <= k <= |s| && Glob(p, s[k..])
    decreases |s|
  {
    assert ("*" + p)[1..] == p;
    assert s[0..] == s;
    if s != "" {
      StarMatchesSuffixes(p, s[1..]);
      forall k | 0 <= k <= |s[1..]| ensures s[1..][k..] == s[k + 1..] {}
      if Glob("*" + p, s) && !Glob(p, s) {
        var k :| 0 <= k <= |s[1..]| && Glob(p, s[1..][k..]);
        assert Glob(p, s[k + 1..]);
      }
      if k :| 0 <= k <= |s| && Glob(p, s[k..]) {
        if k > 0 {
          assert s[1..][k - 1..] == s[k..];
        }
      }
    } else {
      forall k | 0 <= k <= |s| ensures s[k..] == s {}
    }
  }

  function Concat(parts: seq<string>): string {
    if parts == [] then "" else parts[0] + Concat(parts[1..])
  }

  /** The text cut into one piece per pattern character: any piece for `*`, one character for `?`, itself otherwise. */
  ghost predicate Pieces(p: string, s: string, parts: seq<string>) {
    && |parts| == |p| && Concat(parts) == s
    && forall i :: 0 <= i < |p| ==> p[i] == '*' || (|parts[i]| == 1 && (p[i] == '?' || parts[i] == [p[i]]))
  }

  lemma {:induction false} GlobToPieces(p: string, s: string) returns (parts: seq<string>)
    requires Glob(p, s)
    ensures Pieces(p, s, parts)
    decreases |p| + |s|
  {
    if p == "" {
      parts := [];
    } else if p[0] == '*' && !Glob(p[1..], s) {
      var rest := GlobToPieces(p, s[1..]);
      parts := [[s[0]] + rest[0]] + rest[1..];
      assert parts[1..] == rest[1..] && s == [s[0]] + s[1..];
    } else {
      var first := if p[0] == '*' then "" else [s[0]];
      var rest := GlobToPieces(p[1..], s[|first|..]);
      parts := [first] + rest;
      assert parts[1..] == rest && s == first + s[|first|..];
    }
  }

  lemma {:induction false} PiecesToGlob(p: string, s: string, parts: seq<string>)
    requires Pieces(p, s, parts)
    ensures Glob(p, s)
    decreases |p| + |s|
  {
    if p != "" {
      var rest := Concat(parts[1..]);
      assert s == parts[0] + rest;
      if p[0] == '*' && parts[0] != "" {
        var shorter := [parts[0][1..]] + parts[1..];
        assert shorter[1..] == parts[1..];
        assert s[1..] == parts[0][1..] + rest;
        PiecesToGlob(p, s[1..], shorter);
      } else {
        assert s[|parts[0]|..] == rest;
        PiecesToGlob(p[1..], rest, parts[1..]);
      }
    }
  }

  /** What matching means, without any algorithm. */
  lemma GlobMeansPieces(p: string, s: string)
    ensures Glob(p, s) <==> exists parts :: Pieces(p, s, parts)
  {
    if Glob(p, s) { var _ := GlobToPieces(p, s); }
    if parts :| Pieces(p, s, parts) { PiecesToGlob(p, s, parts); }
  }

  function Dots(s: string): nat {
    if s == "" then 0 else (if s[0] == '.' then 1 else 0) + Dots(s[1..])
  }

  lemma {:induction false} GlobKeepsDots(p: string, s: string)
    requires Glob(p, s)
    ensures Dots(p) <= Dots(s)
    decreases |p| + |s|
  {
    if p != "" {
      if p[0] == '*' {
        if Glob(p[1..], s) { GlobKeepsDots(p[1..], s); } else { GlobKeepsDots(p, s[1..]); }
      } else {
        GlobKeepsDots(p[1..], s[1..]);
      }
    }
  }

  /** "*.d" is never inferred for the bare domain d, whatever d is. */
  lemma NoImplicitWildcard(d: string)
    ensures !Glob("*." + d, d)
  {
    assert ("*." + d)[1..] == "." + d && ("." + d)[1..] == d;
    if Glob("*." + d, d) { GlobKeepsDots("*." + d, d); }
  }

  /** What "*.d" does match, for a literal d: the hosts that end in ".d". */
  lemma WildcardMatchesSubdomains(d: string, host: string)
    requires Literal(d)
    ensures Glob("*." + d, host) <==> exists k :: 0 <= k <= |host| && host[k..] == "." + d
  {
    assert "*." + d == "*" + ("." + d);
    StarMatchesSuffixes("." + d, host);
    forall k | 0 <= k <= |host| ensures Glob("." + d, host[k..]) <==> "." + d == host[k..] {
      LiteralGlobIsEquality("." + d, host[k..]);
    }
  }

  // ---------------------------------------------------------------- what a decision means

  function TierIndex(t: RiskTier): nat {
    match t
    case Passive => 0
    case ActiveSafe => 1
    case ActiveRisky => 2
    case Destructive => 3
  }

  /** The rules that match a host, in the order of the rules, repeated ones repeated. */
  function Matching(rules: seq<ScopeRule>, host: string): seq<ScopeRule> {
    if rules == [] then [] else Matching(Front(rules), host) + When(Glob(Last(rules).pattern, host), Last(rules))
  }

  lemma {:induction false} MatchingMembers(rules: seq<ScopeRule>, host: string, r: ScopeRule)
    ensures r in Matching(rules, host) <==> r in rules && Glob(r.pattern, host)
  {
    if rules != [] {
      FrontLast(rules);
      MatchingMembers(Front(rules), host, r);
    }
  }

  ghost predicate Excluded(rules: seq<ScopeRule>, host: string) {
    exists r :: r in rules && !r.allow && Glob(r.pattern, host)
  }

  ghost predicate InScope(rules: seq<ScopeRule>, host: string) {
    exists r :: r in rules && r.allow && Glob(r.pattern, host)
  }

  /** Some allow rule for the host pre-authorizes the tier. */
  ghost predicate Covers(rules: seq<ScopeRule>, host: string, tier: RiskTier) {
    exists r :: r in rules && r.allow && Glob(r.pattern, host) && TierIndex(tier) <= TierIndex(r.maxTier)
  }

  /** A known, unexpired approval covers the action; the empty token string counts as no token. */
  predicate Approved(approvals: map<string, ApprovalToken>, token: Option<string>, action: string, at: real) {
    token.Some? && token.value != "" && token.value in approvals
    && at <= approvals[token.value].expiresAt
    && Glob(approvals[token.value].actionPattern, action)
  }

  /** The hits of the last 60 seconds. */
  function Prune(window: seq<real>, now: real): seq<real> {
    if window == [] then []
    else (if now - window[0] < 60.0 then [window[0]] else []) + Prune(window[1..], now)
  }

  function Window(hits: map<string, seq<real>>, host: string): seq<real> {
    if host in hits then hits[host] else []
  }

  predicate HasRoom(g: GuardState, host: string, now: real) {
    |Prune(Window(g.hits, host), now)| < g.limit
  }

  ghost predicate ReachesRateCheck(g: GuardState, host: string) {
    !Excluded(g.rules, host) && InScope(g.rules, host)
  }

  ghost function Verdict(g: GuardState, q: Request): Decision {
    if !ReachesRateCheck(g, q.host) || !HasRoom(g, q.host, q.now) then Deny
    else if Covers(g.rules, q.host, q.tier) || Approved(g.approvals, q.token, q.action, q.later) then Allow
    else RequiresApproval
  }

  /** The audit entry that goes with a decision. */
  ghost function Entry(g: GuardState, q: Request): LogEntry {
    if Excluded(g.rules, q.host) then LogDeny(q.host, ExplicitExclusion, q.tier)
    else if !InScope(g.rules, q.host) then LogDeny(q.host, NotInScope, q.tier)
    else if !HasRoom(g, q.host, q.now) then LogDeny(q.host, RateLimitExceeded, q.tier)
    else if Covers(g.rules, q.host, q.tier) then LogAllow(q.host, q.tier)
    else if Approved(g.approvals, q.token, q.action, q.later) then LogAllowViaApproval(q.host, q.tier, q.token.value)
    else LogRequiresApproval(q.host, q.tier)
  }

  /** The audit entry names the host and tells the decision. */
  lemma EntryTellsVerdict(g: GuardState, q: Request)
    ensures Entry(g, q).host == q.host
    ensures Verdict(g, q) == Allow <==> Entry(g, q).LogAllow? || Entry(g, q).LogAllowViaApproval?
    ensures Verdict(g, q) == Deny <==> Entry(g, q).LogDeny?
  {}

  /** A request that reaches the rate check leaves the pruned window behind, with the new hit if there was room. */
  ghost function HitsAfter(g: GuardState, q: Request): map<string, seq<real>> {
    if !ReachesRateCheck(g, q.host) then g.hits
    else g.hits[q.host := Prune(Window(g.hits, q.host), q.now) + (if HasRoom(g, q.host, q.now) then [q.now] else [])]
  }

  ghost function After(g: GuardState, q: Request): GuardState {
    g.(hits := HitsAfter(g, q), log := g.log + [Entry(g, q)])
  }

  // ---------------------------------------------------------------- the object

  class ScopeGuard {
    var rules: seq<ScopeRule>
    var limit: int
    var approvals: map<string, ApprovalToken>
    var hits: map<string, seq<real>>
    var log: seq<LogEntry>

    ghost function State(): GuardState
      reads this
    {
      GuardState(rules, limit, approvals, hits, log)
    }

    constructor (rules: seq<ScopeRule>, limit: int := 60)
      ensures State() == GuardState(rules, limit, map[], map[], [])
    {
      this.rules, this.limit := rules, limit;
      approvals, hits, log := map[], map[], [];
    }

    /** The caller supplies the fresh token id that uuid4 would generate. */
    method GrantApproval(id: string, grantedBy: string, reason: string, actionPattern: string, ttl: int,
                         issued: real, started: real) returns (token: ApprovalToken)
      modifies this
      ensures token == ApprovalToken(grantedBy, reason, issued, started + ttl as real, actionPattern)
      ensures State() == old(State()).(approvals := old(approvals)[id := token],
                                       log := old(log) + [LogGranted(id, reason, actionPattern)])
    {
      token := ApprovalToken(grantedBy, reason, issued, started + ttl as real, actionPattern);
      approvals := approvals[id := token];
      log := log + [LogGranted(id, reason, actionPattern)];
    }

    method MatchingRules(host: string) returns (matches: seq<ScopeRule>)
      ensures matches == Matching(rules, host)
      ensures forall r :: r in matches <==> r in rules && Glob(r.pattern, host)
    {
      matches := [];
      for i := 0 to |rules|
        invariant matches == Matching(rules[..i], host)
      {
        FrontTake(rules, i);
        assert matches + [] == matches;
        var matched := Glob(rules[i].pattern, host);
        if matched { matches := matches + [rules[i]]; }
      }
      assert rules[..|rules|] == rules;
      forall r { MatchingMembers(rules, host, r); }
    }

    method RateCheck(host: string, now: real) returns (ok: bool)
      modifies this`hits
      ensures ok == old(HasRoom(State(), host, now))
      ensures hits == old(hits)[host := Prune(Window(old(hits), host), now) + if ok then [now] else []]
    {
      var window := Window(hits, host);
      window := Prune(window, now);
      hits := hits[host := window];
      if |window| >= limit {
        assert window + [] == window;
        return false;
      }
      hits := hits[host := window + [now]];
      return true;
    }

    method Authorize(q: Request) returns (d: Decision)
      modifies this
      ensures d == Verdict(old(State()), q)
      ensures State() == After(old(State()), q)
    {
      var matches := MatchingRules(q.host);
      if exists r :: r in matches && !r.allow {
        log := log + [LogDeny(q.host, ExplicitExclusion, q.tier)];
        return Deny;
      }
      // No match is an exclusion any more, so the allow rules are all of them.
      if matches == [] {
        log := log + [LogDeny(q.host, NotInScope, q.tier)];
        return Deny;
      }
      assert matches[0] in matches;
      var ok := RateCheck(q.host, q.now);
      if !ok {
        log := log + [LogDeny(q.host, RateLimitExceeded, q.tier)];
        return Deny;
      }
      var best := matches[0];
      for i := 1 to |matches|
        invariant best in matches
        invariant forall j :: 0 <= j < i ==> TierIndex(matches[j].maxTier) <= TierIndex(best.maxTier)
      {
        if TierIndex(matches[i].maxTier) > TierIndex(best.maxTier) { best := matches[i]; }
      }
      if TierIndex(q.tier) <= TierIndex(best.maxTier) {
        log := log + [LogAllow(q.host, q.tier)];
        return Allow;
      }
      if q.token.Some? && q.token.value != "" && q.token.value in approvals {
        var token := approvals[q.token.value];
        if q.later <= token.expiresAt && Glob(token.actionPattern, q.action) {
          log := log + [LogAllowViaApproval(q.host, q.tier, q.token.value)];
          return Allow;
        }
      }
      log := log + [LogRequiresApproval(q.host, q.tier)];
      return RequiresApproval;
    }
  }
}
