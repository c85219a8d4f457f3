/** What the adaptive loop, its designer, JEV and the branch manager guarantee together over whole runs. */
module FollowUps {
  import opened Common
  import opened Research
  import opened Designer
  import opened Adaptive
  import Jev
  import Cov = Coverage
  import BR = Branches

  /** What every step keeps: ids minted once, no fingerprint tried (the loop terminates no branch), a real root. */
  ghost predicate Sane(s: LoopState) {
    && MintedOnce(s.designer)
    && s.branches.tried == {}
    && (s.root != "" ==> BR.Find(s.branches.branches, s.root).Some?)
  }

  /** uuid4 never gives the empty id. */
  predicate Minted(c: Closed) { c.mints.root.id != "" }

  // ---------------------------------------------------------------- membership

  lemma {:induction false} UntriedMembers(es: seq<Experiment>, tried: set<string>, e: Experiment)
    ensures e in Untried(es, tried) <==> e in es && e.id !in tried
  {
    if es != [] {
      UntriedMembers(Front(es), tried, e);
      FrontLast(es);
    }
  }

  lemma {:induction false} CoveringMembers(es: seq<Experiment>, gap: Cov.CoverageGap, e: Experiment)
    requires e in Cov.Covering(es, gap, true)
    ensures e in es
  {
    FrontLast(es);
    if e in Cov.Covering(Front(es), gap, true) { CoveringMembers(Front(es), gap, e); }
  }

  lemma {:induction false} LookupMembers(pool: seq<Experiment>, id: string)
    requires pool != []
    ensures Lookup(pool, id) in pool
    ensures (exists e :: e in pool && e.id == id) ==> Lookup(pool, id).id == id
  {
    if pool[0].id != id && |pool| > 1 {
      LookupMembers(pool[1..], id);
      assert pool == [pool[0]] + pool[1..];
    }
  }

  lemma {:induction false} AlternativesMembers(hs: seq<Hypothesis>, rejected: seq<string>, nullish: bool, h: Hypothesis)
    requires h in Alternatives(hs, rejected, nullish)
    ensures h in hs && h.id !in rejected && (h.status == Open || h.status == Supported)
  {
    FrontLast(hs);
    if h in Alternatives(Front(hs), rejected, nullish) { AlternativesMembers(Front(hs), rejected, nullish, h); }
  }

  lemma AlternativesWithinPlan(c: Closed)
    ensures forall h :: h in AlternativesSorted(c) ==> h in c.plan.hypotheses
  {
    var rejected := RejectedIds(c.plan.hypotheses, c.updates);
    forall h | h in AlternativesSorted(c) ensures h in c.plan.hypotheses {
      AlternativesMembers(c.plan.hypotheses, rejected, h in Alternatives(c.plan.hypotheses, rejected, true), h);
    }
  }

  // ---------------------------------------------------------------- a pool JEV can always choose from

  /** All usable: JEV finds each of them open and picks one with an id. */
  ghost predicate Usable(pool: seq<Experiment>) {
    forall i :: 0 <= i < |pool| ==> pool[i].id != "" && Jev.IsOpen(pool[i])
  }

  lemma UsablePool(pool: seq<Experiment>, hs: seq<Hypothesis>)
    requires pool != [] && Usable(pool)
    ensures Jev.OpenOnes(pool) == pool && CandidateId(pool, hs) != ""
    ensures Lookup(pool, CandidateId(pool, hs)) in pool
    ensures Lookup(pool, CandidateId(pool, hs)).id == CandidateId(pool, hs)
  {
    Jev.AllOpen(pool);
    var best := pool[BestIndex(pool, hs)];
    assert best in pool;
    LookupMembers(pool, best.id);
  }

  lemma CandidatesUsable(n: DesignerState, hs: seq<Hypothesis>, knowledge: bool, es: seq<Experiment>, tried: set<string>)
    requires AllFromPlan(es, n, hs, knowledge)
    ensures Usable(Untried(es, tried))
    ensures forall e :: e in Untried(es, tried) ==> e.id !in tried && FromPlan(e, n, hs, knowledge)
  {
    forall e | e in Untried(es, tried) ensures e.id != "" && Jev.IsOpen(e) && e.id !in tried && FromPlan(e, n, hs, knowledge) {
      UntriedMembers(es, tried, e);
      var i :| 0 <= i < |es| && es[i] == e;
    }
  }

  lemma PoolUsable(candidates: seq<Experiment>, gap: Cov.CoverageGap)
    requires candidates != [] && Usable(candidates)
    ensures CoveragePool(candidates, gap) != [] && Usable(CoveragePool(candidates, gap))
    ensures forall e :: e in CoveragePool(candidates, gap) ==> e in candidates
  {
    var pool := CoveragePool(candidates, gap);
    forall e | e in pool ensures e in candidates {
      if e !in candidates { CoveringMembers(candidates, gap, e); }
    }
    forall i | 0 <= i < |pool| ensures pool[i].id != "" && Jev.IsOpen(pool[i]) {
      assert pool[i] in pool;
      var j :| 0 <= j < |candidates| && candidates[j] == pool[i];
    }
  }

  // ---------------------------------------------------------------- one step

  /**
   What a step may do, from the state `t` in which the experiment that ran is noted as tried: a follow-up is
   an untried experiment of the plan and not the one that ran; the stops for a JEV refusal and for
   re-selecting the same experiment never happen; and a reported backtrack did open a branch.
   */
  ghost predicate GoodStep(t: LoopState, c: Closed, r: StepResult, n: LoopState) {
    && Sane(n) && CacheGrows(t.designer, n.designer) && n.tried == t.tried
    && (r.action == ExecuteFollowup ==>
          r.next.Some? && r.next.value.id !in t.tried && r.next.value.id != c.selected
          && FromPlan(r.next.value, n.designer, c.plan.hypotheses, c.plan.knowledge))
    && r.reason != CoverageJevStop && r.reason != CoverageSameExperimentBlocked && r.reason != JevStop
    && (r.backtracked ==> r.branchId == c.mints.next.id)
  }

  lemma UntriedLeft(es: seq<Experiment>, tried: set<string>)
    ensures Untried(es, tried) != [] <==> exists e :: e in es && e.id !in tried
  {
    var candidates := Untried(es, tried);
    forall e ensures e in candidates <==> e in es && e.id !in tried { UntriedMembers(es, tried, e); }
    if candidates != [] { assert candidates[0] in candidates; }
  }

  /** Whichever half of the candidates JEV is shown, it picks one of the candidates. */
  lemma CoverageChoice(candidates: seq<Experiment>, gap: Cov.CoverageGap, hs: seq<Hypothesis>)
    requires candidates != [] && Usable(candidates)
    ensures var pool := CoveragePool(candidates, gap);
            && Jev.OpenOnes(pool) != [] && CandidateId(pool, hs) != "" && Lookup(pool, CandidateId(pool, hs)) in candidates
            && Lookup(pool, CandidateId(pool, hs)).id != ""
  {
    PoolUsable(candidates, gap);
    UsablePool(CoveragePool(candidates, gap), hs);
  }

  /** The coverage path; it goes on exactly while the experiment of some open hypothesis is untried. */
  lemma CoverageStep(t: LoopState, c: Closed, content: Content)
    requires Sane(t) && (c.selected != "" ==> c.selected in t.tried)
    ensures var r, hs, k := CoverageResult(t, c, content), c.plan.hypotheses, c.plan.knowledge;
            && GoodStep(t, c, r, AfterPlanning(t, hs, k, content))
            && r.action == (if exists e :: e in Portfolio(t.designer, hs, k, content) && e.id !in t.tried
                            then ExecuteFollowup else Stop)
  {
    var hs, k := c.plan.hypotheses, c.plan.knowledge;
    var n, es := AfterPortfolio(t.designer, hs, k, content), Portfolio(t.designer, hs, k, content);
    PortfolioFromPlan(t.designer, hs, k, content);
    CandidatesUsable(n, hs, k, es, t.tried);
    UntriedLeft(es, t.tried);
    if Untried(es, t.tried) != [] { CoverageChoice(Untried(es, t.tried), c.gap, hs); }
  }

  lemma FindPersists(branches: seq<BR.ResearchBranch>, id: string, i: nat)
    requires i < |branches| && branches[i].branchId == id
    ensures BR.Find(branches, id).Some?
  {}

  /** The root branch is there from the first rejection on, and without terminated branches it can always be left. */
  lemma RootStays(t: LoopState, c: Closed)
    requires Sane(t) && Minted(c)
    ensures var r := Rooted(t, c);
            && Sane(r) && r.root != "" && BranchesOff(r, c) && r.tried == t.tried && r.designer == t.designer
  {
    var r := Rooted(t, c);
    var i := if t.root != "" then BR.Find(t.branches.branches, t.root).value else |t.branches.branches|;
    FindPersists(r.branches.branches, r.root, i);
  }

  lemma BacktrackKeepsRoot(r: LoopState, c: Closed)
    requires Sane(r) && r.root != ""
    ensures Sane(AfterBacktrack(r, c)) && AfterBacktrack(r, c).tried == r.tried && AfterBacktrack(r, c).designer == r.designer
  {
    FindPersists(AfterBacktrack(r, c).branches.branches, r.root, BR.Find(r.branches.branches, r.root).value);
  }

  /** The rejection path; alternatives, where there are any, always get a branch of their own. */
  lemma RejectionStep(t: LoopState, c: Closed, content: Content)
    requires Sane(t) && Minted(c) && (c.selected != "" ==> c.selected in t.tried)
    ensures GoodStep(t, c, RejectionResult(t, c, content), RejectionState(t, c, content))
    ensures RejectionResult(t, c, content).backtracked <==> AlternativesSorted(c) != []
  {
    var alternatives, k, r := AlternativesSorted(c), c.plan.knowledge, Rooted(t, c);
    RootStays(t, c);
    if alternatives != [] {
      BacktrackKeepsRoot(r, c);
      var d := AfterPortfolio(r.designer, alternatives, k, content);
      var es := Portfolio(r.designer, alternatives, k, content);
      PortfolioFromPlan(r.designer, alternatives, k, content);
      AlternativesWithinPlan(c);
      FromPlanStays(es, d, d, alternatives, c.plan.hypotheses, k);
      CandidatesUsable(d, c.plan.hypotheses, k, es, r.tried);
      var candidates := Untried(es, r.tried);
      if candidates != [] { UsablePool(candidates, alternatives); }
    }
  }

  lemma PlanOpen(es: seq<Experiment>, d: DesignerState, hs: seq<Hypothesis>, knowledge: bool)
    requires AllFromPlan(es, d, hs, knowledge)
    ensures AllOpen(es)
  {}

  predicate AllOpen(es: seq<Experiment>) { forall i :: 0 <= i < |es| ==> Jev.IsOpen(es[i]) }

  /** One design more, for whatever list the designer made before. */
  lemma FallbackOpen(d: DesignerState, h: Hypothesis, knowledge: bool, content: Content)
    requires MintedOnce(d)
    ensures AllOpen([Designed(d, h, knowledge, content)])
    ensures MintedOnce(AfterDesign(d, h, knowledge, content)) && CacheGrows(d, AfterDesign(d, h, knowledge, content))
  {
    DesignMintsOnce(d, h, knowledge, content);
  }

  lemma CacheGrowsOn(a: DesignerState, b: DesignerState, c: DesignerState)
    requires CacheGrows(a, b) && CacheGrows(b, c)
    ensures CacheGrows(a, c)
  {}

  lemma VariantsOpen(t: LoopState, c: Closed, content: Content)
    requires Sane(t)
    ensures AllOpen(VariantExperiments(t, c, content))
    ensures MintedOnce(VariantState(t, c, content).designer) && CacheGrows(t.designer, VariantState(t, c, content).designer)
  {
    var hs, k := c.plan.hypotheses, c.plan.knowledge;
    var d, es := AfterPortfolio(t.designer, hs, k, content), Portfolio(t.designer, hs, k, content);
    PortfolioFromPlan(t.designer, hs, k, content);
    PlanOpen(es, d, hs, k);
    if hs != [] {
      FallbackOpen(d, hs[0], k, content);
      CacheGrowsOn(t.designer, d, AfterDesign(d, hs[0], k, content));
    }
  }

  /** The variant path touches nothing but the designer. */
  lemma VariantStep(t: LoopState, c: Closed, content: Content)
    requires Sane(t)
    ensures GoodStep(t, c, VariantResult(t, c, content), VariantState(t, c, content))
  {
    VariantsOpen(t, c, content);
    MentionMembers(VariantExperiments(t, c, content), c.segments);
  }

  lemma {:induction false} MentionMembers(es: seq<Experiment>, segments: seq<string>)
    ensures FirstMention(es, segments).Some? ==>
              exists i :: 0 <= i < |es| && es[i] == FirstMention(es, segments).value
  {
    if es != [] {
      MentionMembers(Front(es), segments);
      if FirstMention(Front(es), segments).Some? {
        var i :| 0 <= i < |Front(es)| && Front(es)[i] == FirstMention(Front(es), segments).value;
        assert es[i] == FirstMention(es, segments).value;
      }
    }
  }

  /** Whichever path the step takes. */
  lemma StepFacts(s: LoopState, c: Closed, content: Content)
    requires Sane(s) && Minted(c)
    ensures GoodStep(Noted(s, c), c, Result(s, c, content), Next(s, c, content))
  {
    var t := Noted(s, c);
    if CoverageFailed(c) {
      CoverageStep(t, c, content);
    } else if !c.scopeAllowed {
    } else if WasRejected(c) {
      RejectionStep(t, c, content);
    } else if c.accepted {
      VariantStep(t, c, content);
    }
  }

  // ---------------------------------------------------------------- whole runs

  function Run(s: LoopState, cs: seq<Closed>, content: Content): LoopState {
    if cs == [] then s else Next(Run(s, Front(cs), content), Last(cs), content)
  }

  /** The result of the last step of a run. */
  function LastResult(s: LoopState, cs: seq<Closed>, content: Content): StepResult
    requires cs != []
  {
    Result(Run(s, Front(cs), content), Last(cs), content)
  }

  predicate EndsInFollowup(s: LoopState, cs: seq<Closed>, content: Content) {
    cs != [] && LastResult(s, cs, content).action == ExecuteFollowup
  }

  /** A follow-up that was decided is what the next loop ran.  Nothing is said of the plans. */
  predicate FedBack(s: LoopState, cs: seq<Closed>, content: Content) {
    cs == []
    || (FedBack(s, Front(cs), content) && Minted(Last(cs))
        && (EndsInFollowup(s, Front(cs), content) ==>
              Last(cs).selected == LastResult(s, Front(cs), content).next.value.id))
  }

  function CountFollowups(s: LoopState, cs: seq<Closed>, content: Content): nat {
    if cs == [] then 0
    else CountFollowups(s, Front(cs), content) + if LastResult(s, cs, content).action == ExecuteFollowup then 1 else 0
  }

  /** The cache keys of a plan's hypotheses, whatever their status. */
  function Keys(plan: Plan): set<string> {
    set h | h in plan.hypotheses :: Key(h, plan.knowledge)
  }

  /** Those of the hypotheses that are open at the moment. */
  function OpenKeys(plan: Plan): set<string> {
    set h | h in plan.hypotheses && h.status == Open :: Key(h, plan.knowledge)
  }

  /** The keys that were open in some loop of the run. */
  function EverOpen(cs: seq<Closed>): set<string> {
    if cs == [] then {} else EverOpen(Front(cs)) + OpenKeys(Last(cs).plan)
  }

  /** The keys whose experiment has been tried. */
  function Used(s: LoopState, keys: set<string>): set<string> {
    set k | k in keys && k in s.designer.cache && s.designer.cache[k].id in s.tried
  }

  /** A decided follow-up that has not run yet: its key is still unused. */
  ghost predicate Waiting(s: LoopState, keys: set<string>, id: string) {
    exists k :: k in keys && k in s.designer.cache && s.designer.cache[k].id == id && k !in Used(s, keys)
  }

  lemma UsedGrows(s: LoopState, n: LoopState, keys: set<string>, ran: string)
    requires CacheGrows(s.designer, n.designer) && s.tried <= n.tried
    ensures |Used(s, keys)| <= |Used(n, keys)|
    ensures Waiting(s, keys, ran) && ran in n.tried ==> |Used(s, keys)| < |Used(n, keys)|
  {
    assert Used(s, keys) <= Used(n, keys);
    SubsetSize(Used(s, keys), Used(n, keys));
    if Waiting(s, keys, ran) && ran in n.tried {
      var k :| k in keys && k in s.designer.cache && s.designer.cache[k].id == ran && k !in Used(s, keys);
      assert k in Used(n, keys);
      SubsetSize(Used(s, keys) + {k}, Used(n, keys));
    }
  }

  lemma SubsetSize<T>(a: set<T>, b: set<T>)
    requires a <= b
    ensures |a| <= |b|
  {
    assert b == a + (b - a);
  }

  lemma FollowupWaits(s: LoopState, plan: Plan, keys: set<string>, e: Experiment)
    requires FromPlan(e, s.designer, plan.hypotheses, plan.knowledge) && e.id !in s.tried && OpenKeys(plan) <= keys
    ensures Waiting(s, keys, e.id) && |Used(s, keys)| < |keys|
  {
    var h :| h in plan.hypotheses && h.status == Open && Key(h, plan.knowledge) in s.designer.cache
             && e == s.designer.cache[Key(h, plan.knowledge)].(status := e.status);
    var k := Key(h, plan.knowledge);
    assert k in OpenKeys(plan) && k in keys && k !in Used(s, keys);
    SubsetSize(Used(s, keys) + {k}, keys);
  }

  /** The accounting behind the bound: every follow-up is paid for by a key it uses up. */
  ghost predicate Paid(s: LoopState, cs: seq<Closed>, content: Content, keys: set<string>) {
    var n, count := Run(s, cs, content), CountFollowups(s, cs, content);
    && Sane(n) && count <= |keys|
    && (if EndsInFollowup(s, cs, content)
        then Waiting(n, keys, LastResult(s, cs, content).next.value.id) && count <= |Used(n, keys)| + 1
        else count <= |Used(n, keys)|)
  }

  lemma {:induction false} FollowupsArePaid(s: LoopState, cs: seq<Closed>, content: Content, keys: set<string>)
    requires Sane(s) && FedBack(s, cs, content) && EverOpen(cs) <= keys
    ensures Paid(s, cs, content, keys)
  {
    if cs != [] {
      FollowupsArePaid(s, Front(cs), content, keys);
      PayStep(s, cs, content, keys);
    }
  }

  lemma PayStep(s: LoopState, cs: seq<Closed>, content: Content, keys: set<string>)
    requires cs != [] && FedBack(s, cs, content) && OpenKeys(Last(cs).plan) <= keys && Paid(s, Front(cs), content, keys)
    ensures Paid(s, cs, content, keys)
  {
    var mid, n, c := Run(s, Front(cs), content), Run(s, cs, content), Last(cs);
    StepFacts(mid, c, content);
    UsedGrows(mid, n, keys, c.selected);
    SubsetSize(Used(n, keys), keys);
    if EndsInFollowup(s, Front(cs), content) {
      assert Waiting(mid, keys, c.selected);
      WaitingHasId(mid, keys, c.selected);
    }
    if EndsInFollowup(s, cs, content) {
      FollowupWaits(n, c.plan, keys, LastResult(s, cs, content).next.value);
    }
  }

  lemma WaitingHasId(s: LoopState, keys: set<string>, id: string)
    requires Sane(s) && Waiting(s, keys, id)
    ensures id != ""
  {
    var k :| k in keys && k in s.designer.cache && s.designer.cache[k].id == id;
    MintedFacts(id, s.designer.counter);
  }

  // ---------------------------------------------------------------- the bounds

  function NewLoop(engagement: string): LoopState {
    LoopState({}, DesignerState(0, map[]), BR.ManagerState(engagement, [], [], {}), "")
  }

  lemma NewLoopSane(engagement: string)
    ensures Sane(NewLoop(engagement))
  {}

  lemma AtMostKeys(engagement: string, cs: seq<Closed>, content: Content, keys: set<string>)
    requires FedBack(NewLoop(engagement), cs, content) && EverOpen(cs) <= keys
    ensures CountFollowups(NewLoop(engagement), cs, content) <= |keys|
  {
    NewLoopSane(engagement);
    FollowupsArePaid(NewLoop(engagement), cs, content, keys);
  }

  /**
   Follow-ups terminate, in the tightest form: from a new loop, however the closed loops turn out and whatever
   becomes of the plan in between, there is at most one follow-up per key that was ever open.
   */
  lemma FollowupsAtMostEverOpen(engagement: string, cs: seq<Closed>, content: Content)
    requires FedBack(NewLoop(engagement), cs, content)
    ensures CountFollowups(NewLoop(engagement), cs, content) <= |EverOpen(cs)|
  {
    AtMostKeys(engagement, cs, content, EverOpen(cs));
  }

  /** The same hypotheses in the same order; their status and confidence may have changed. */
  predicate SameHypotheses(a: seq<Hypothesis>, b: seq<Hypothesis>) {
    |a| == |b| && forall i :: 0 <= i < |a| ==> a[i].id == b[i].id && a[i].statement == b[i].statement
  }

  /** What the closed loops do to the plan they hand on: they change statuses in place and nothing else. */
  predicate OnPlan(cs: seq<Closed>, plan: Plan) {
    forall i :: 0 <= i < |cs| ==>
      SameHypotheses(cs[i].plan.hypotheses, plan.hypotheses) && cs[i].plan.knowledge == plan.knowledge
  }

  lemma OpenWithinKeys(now: Plan, plan: Plan)
    requires SameHypotheses(now.hypotheses, plan.hypotheses)
    ensures OpenKeys(now) <= Keys(plan.(knowledge := now.knowledge))
  {
    forall k | k in OpenKeys(now) ensures k in Keys(plan.(knowledge := now.knowledge)) {
      var h :| h in now.hypotheses && h.status == Open && Key(h, now.knowledge) == k;
      var i :| 0 <= i < |now.hypotheses| && now.hypotheses[i] == h;
      assert plan.hypotheses[i] in plan.hypotheses && Key(plan.hypotheses[i], now.knowledge) == k;
    }
  }

  lemma {:induction false} EverOpenWithin(cs: seq<Closed>, keys: set<string>)
    requires forall i :: 0 <= i < |cs| ==> OpenKeys(cs[i].plan) <= keys
    ensures EverOpen(cs) <= keys
  {
    if cs != [] { EverOpenWithin(Front(cs), keys); }
  }

  lemma {:induction false} KeysAtMostHypotheses(plan: Plan)
    ensures |Keys(plan)| <= |plan.hypotheses|
    decreases |plan.hypotheses|
  {
    if plan.hypotheses != [] {
      var less := plan.(hypotheses := Front(plan.hypotheses));
      var h := Last(plan.hypotheses);
      KeysAtMostHypotheses(less);
      FrontLast(plan.hypotheses);
      assert forall x :: x in plan.hypotheses <==> x in less.hypotheses || x == h;
      SubsetSize(Keys(plan), Keys(less) + {Key(h, plan.knowledge)});
    }
  }

  /**
   So feeding each decided follow-up back over one plan, whose hypotheses change status as the verdicts come
   in, yields at most as many follow-ups as the plan has hypotheses.
   */
  lemma FollowupsBounded(engagement: string, cs: seq<Closed>, content: Content, plan: Plan)
    requires FedBack(NewLoop(engagement), cs, content) && OnPlan(cs, plan)
    ensures CountFollowups(NewLoop(engagement), cs, content) <= |Keys(plan)| <= |plan.hypotheses|
  {
    forall i | 0 <= i < |cs| ensures OpenKeys(cs[i].plan) <= Keys(plan) { OpenWithinKeys(cs[i].plan, plan); }
    EverOpenWithin(cs, Keys(plan));
    AtMostKeys(engagement, cs, content, Keys(plan));
    KeysAtMostHypotheses(plan);
  }

  /** The keys of a plan with and without retrieved procedures. */
  function BothKeys(plan: Plan): set<string> {
    Keys(plan.(knowledge := true)) + Keys(plan.(knowledge := false))
  }

  lemma OpenWithinBothKeys(now: Plan, plan: Plan)
    requires SameHypotheses(now.hypotheses, plan.hypotheses)
    ensures OpenKeys(now) <= BothKeys(plan)
  {
    OpenWithinKeys(now, plan);
    if now.knowledge {
      assert plan.(knowledge := now.knowledge) == plan.(knowledge := true);
    } else {
      assert plan.(knowledge := now.knowledge) == plan.(knowledge := false);
    }
  }

  lemma BothKeysAtMost(plan: Plan)
    ensures |BothKeys(plan)| <= 2 * |plan.hypotheses|
  {
    KeysAtMostHypotheses(plan.(knowledge := true));
    KeysAtMostHypotheses(plan.(knowledge := false));
  }

  /** If retrieval comes and goes in the middle of a plan, each hypothesis has two keys, and the bound doubles. */
  lemma FollowupsBoundedAcrossRetrieval(engagement: string, cs: seq<Closed>, content: Content, plan: Plan)
    requires FedBack(NewLoop(engagement), cs, content)
    requires forall i :: 0 <= i < |cs| ==> SameHypotheses(cs[i].plan.hypotheses, plan.hypotheses)
    ensures CountFollowups(NewLoop(engagement), cs, content) <= 2 * |plan.hypotheses|
  {
    var keys := BothKeys(plan);
    forall i | 0 <= i < |cs| ensures OpenKeys(cs[i].plan) <= keys { OpenWithinBothKeys(cs[i].plan, plan); }
    EverOpenWithin(cs, keys);
    AtMostKeys(engagement, cs, content, keys);
    BothKeysAtMost(plan);
  }

  /** While no status changes, the bound is one follow-up per open hypothesis key. */
  lemma FollowupsBoundedByOpen(engagement: string, cs: seq<Closed>, content: Content, plan: Plan)
    requires FedBack(NewLoop(engagement), cs, content) && forall i :: 0 <= i < |cs| ==> cs[i].plan == plan
    ensures CountFollowups(NewLoop(engagement), cs, content) <= |OpenKeys(plan)|
  {
    EverOpenWithin(cs, OpenKeys(plan));
    AtMostKeys(engagement, cs, content, OpenKeys(plan));
  }
}
