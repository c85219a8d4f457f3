/** experiments/designer.py: one experiment per hypothesis key, minted once and cached. */
module Designer {
  import opened Common
  import opened Research
  import Decimal
  import Utility

  /** What the templates and procedures make of a hypothesis; everything but id, owner and status. */
  datatype Body = Body(informationGain: real, cost: real, risk: real, description: string, discriminator: string,
                       requiredEvidence: seq<string>, preconditions: seq<string>, steps: seq<ExperimentStep>)

  /** The content of the experiment for a hypothesis, with or without a retrieved procedure. */
  type Content = (Hypothesis, bool) -> Body

  datatype DesignerState = DesignerState(counter: nat, cache: map<string, Experiment>)

  function Key(h: Hypothesis, knowledge: bool): string {
    h.id + ":" + (if knowledge then "k" else "f") + ":" + h.statement[..Min(40, |h.statement|)]
  }

  function ExpId(n: nat): string { "exp_" + Decimal.Print(n) }

  function Make(n: nat, h: Hypothesis, b: Body): Experiment {
    Experiment(ExpId(n), h.id, Planned, b.informationGain, b.cost, b.risk, b.description, b.discriminator,
               b.requiredEvidence, b.preconditions, b.steps)
  }

  function AfterDesign(d: DesignerState, h: Hypothesis, knowledge: bool, content: Content): DesignerState {
    var key := Key(h, knowledge);
    if key in d.cache then d
    else DesignerState(d.counter + 1, d.cache[key := Make(d.counter + 1, h, content(h, knowledge))])
  }

  /** A cache hit is returned as a copy with status cached. */
  function Designed(d: DesignerState, h: Hypothesis, knowledge: bool, content: Content): Experiment {
    var key := Key(h, knowledge);
    if key in d.cache then d.cache[key].(status := Cached) else Make(d.counter + 1, h, content(h, knowledge))
  }

  function AfterPortfolio(d: DesignerState, hs: seq<Hypothesis>, knowledge: bool, content: Content): DesignerState {
    if hs == [] then d
    else
      var before := AfterPortfolio(d, Front(hs), knowledge, content);
      if Last(hs).status == Open then AfterDesign(before, Last(hs), knowledge, content) else before
  }

  /** design_portfolio: the open hypotheses, in order. */
  function Portfolio(d: DesignerState, hs: seq<Hypothesis>, knowledge: bool, content: Content): seq<Experiment> {
    if hs == [] then []
    else
      Portfolio(d, Front(hs), knowledge, content)
      + if Last(hs).status == Open
        then [Designed(AfterPortfolio(d, Front(hs), knowledge, content), Last(hs), knowledge, content)] else []
  }

  class ExperimentDesigner {
    const content: Content
    var counter: nat
    var cache: map<string, Experiment>

    ghost function State(): DesignerState
      reads this
    {
      DesignerState(counter, cache)
    }

    constructor (content: Content)
      ensures this.content == content && State() == DesignerState(0, map[])
    {
      this.content, counter, cache := content, 0, map[];
    }

    method Design(h: Hypothesis, knowledge: bool) returns (e: Experiment)
      modifies this
      ensures e == Designed(old(State()), h, knowledge, content)
      ensures State() == AfterDesign(old(State()), h, knowledge, content)
    {
      var key := Key(h, knowledge);
      if key in cache { return cache[key].(status := Cached); }
      var body := content(h, knowledge);
      counter := counter + 1;
      e := Make(counter, h, body);
      cache := cache[key := e];
    }

    method DesignPortfolio(hs: seq<Hypothesis>, knowledge: bool) returns (es: seq<Experiment>)
      modifies this
      ensures es == Portfolio(old(State()), hs, knowledge, content)
      ensures State() == AfterPortfolio(old(State()), hs, knowledge, content)
    {
      es := [];
      for i := 0 to |hs|
        invariant es == Portfolio(old(State()), hs[..i], knowledge, content)
        invariant State() == AfterPortfolio(old(State()), hs[..i], knowledge, content)
      {
        FrontTake(hs, i);
        if hs[i].status == Open {
          var e := Design(hs[i], knowledge);
          es := es + [e];
        } else {
          assert es + [] == es;
        }
      }
      assert hs[..|hs|] == hs;
    }
  }

  // ---------------------------------------------------------------- ids

  lemma ExpIdInjective(a: nat, b: nat)
    ensures ExpId(a) == ExpId(b) <==> a == b
  {
    Decimal.ParsePrint(a);
    Decimal.ParsePrint(b);
    assert ExpId(a)[4..] == Decimal.Print(a) && ExpId(b)[4..] == Decimal.Print(b);
  }

  /** Which hypotheses share an experiment: those of one id, one mode, and one beginning of 40 characters. */
  lemma KeyDistinguishes(g: Hypothesis, h: Hypothesis, knowledge: bool, knowledge': bool)
    requires ':' !in g.id && ':' !in h.id
    ensures Key(g, knowledge) == Key(h, knowledge') <==>
            g.id == h.id && knowledge == knowledge' && g.statement[..Min(40, |g.statement|)] == h.statement[..Min(40, |h.statement|)]
  {
    if Key(g, knowledge) == Key(h, knowledge') {
      var a, b := Key(g, knowledge), Key(h, knowledge');
      assert a[|g.id|] == ':' && b[|h.id|] == ':';
      assert a[..|g.id|] == g.id && b[..|h.id|] == h.id;
      assert |g.id| == |h.id|;
      assert a[|g.id| + 1] == b[|h.id| + 1];
      assert a[|g.id| + 3..] == g.statement[..Min(40, |g.statement|)];
      assert b[|h.id| + 3..] == h.statement[..Min(40, |h.statement|)];
    }
  }

  /** What a design gives: planned with a new number and the content's own values, or the cached one marked as cached. */
  lemma DesignSpelledOut(d: DesignerState, h: Hypothesis, knowledge: bool, content: Content)
    ensures var e, n, key, b := Designed(d, h, knowledge, content), AfterDesign(d, h, knowledge, content), Key(h, knowledge), content(h, knowledge);
            && (key in d.cache ==> e == d.cache[key].(status := Cached) && n == d)
            && (key !in d.cache ==>
                  && e.status == Planned && e.hypothesisId == h.id && e.id == "exp_" + Decimal.Print(d.counter + 1)
                  && e.informationGain == b.informationGain && e.cost == b.cost && e.risk == b.risk
                  && e.description == b.description && e.discriminator == b.discriminator && e.steps == b.steps
                  && e.requiredEvidence == b.requiredEvidence && e.preconditions == b.preconditions
                  && n == DesignerState(d.counter + 1, d.cache[key := e]))
  {}

  /** Lower case changes nothing in a minted id, and its 'e' occurs nowhere but at the front. */
  lemma IdLetters(n: nat)
    ensures Lower(ExpId(n)) == ExpId(n)
    ensures |ExpId(n)| > 4 && ExpId(n)[..4] == "exp_" && ExpId(n)[4..] == Decimal.Print(n)
    ensures forall k :: 1 <= k < |ExpId(n)| ==> ExpId(n)[k] != 'e'
  {
    var id, digits := ExpId(n), Decimal.Print(n);
    assert id[..4] == "exp_" && id[4..] == digits;
    forall k | 0 <= k < |id| ensures LowerChar(id[k]) == id[k] && (k >= 1 ==> id[k] != 'e') {
      if k >= 4 {
        assert id[k] == digits[k - 4];
      } else {
        assert id[k] == "exp_"[k];
      }
    }
  }

  /** Among minted ids the prior penalty hits exactly those whose number begins with the digits of a tried one. */
  lemma PenaltyIsByPrefix(tried: nat, n: nat)
    ensures Utility.Penalized(ExpId(n), [ExpId(tried)]) <==> Decimal.Print(tried) <= Decimal.Print(n)
  {
    var p, id := ExpId(tried), ExpId(n);
    IdLetters(tried);
    IdLetters(n);
    assert id[0..] == id && p == "exp_" + Decimal.Print(tried) && id == "exp_" + Decimal.Print(n);
    assert p <= id <==> Decimal.Print(tried) <= Decimal.Print(n) by {
      if p <= id { assert p[4..] <= id[4..]; }
    }
    if Contains(p, id) {
      var k :| 0 <= k <= |id| && p <= id[k..];
      assert id[k..][0] == p[0] == 'e';
      assert k == 0;
    }
    if p <= id { assert p <= id[0..]; }
    assert p in [p];
  }

  /** One of the ids that a counter has given out so far. */
  ghost predicate MintedBy(id: string, counter: nat) { exists n: nat :: n <= counter && id == ExpId(n) }

  /** An id given out stays given out, is not empty, and is not the next one. */
  lemma MintedFacts(id: string, counter: nat)
    requires MintedBy(id, counter)
    ensures MintedBy(id, counter + 1) && id != "" && id != ExpId(counter + 1)
  {
    var n: nat :| n <= counter && id == ExpId(n);
    assert n <= counter + 1;
    ExpIdInjective(n, counter + 1);
  }

  lemma NextIsMinted(counter: nat)
    ensures MintedBy(ExpId(counter + 1), counter + 1) && ExpId(counter + 1) != ""
  {
    var n := counter + 1;
    assert n <= counter + 1 && ExpId(n) == ExpId(counter + 1);
  }

  /** Every cached experiment carries an id minted so far, and no two keys share one. */
  ghost predicate MintedOnce(d: DesignerState) {
    AllMinted(d.cache, d.counter) && UniqueIds(d.cache)
  }

  ghost predicate AllMinted(cache: map<string, Experiment>, counter: nat) {
    forall k :: k in cache ==> cache[k].status == Planned && MintedBy(cache[k].id, counter)
  }

  predicate UniqueIds(cache: map<string, Experiment>) {
    forall j, k :: j in cache && k in cache && cache[j].id == cache[k].id ==> j == k
  }

  lemma UniqueGrows(cache: map<string, Experiment>, key: string, e: Experiment)
    requires UniqueIds(cache) && key !in cache && forall k :: k in cache ==> cache[k].id != e.id
    ensures UniqueIds(cache[key := e])
  {}

  /** A newly numbered experiment joins the cache. */
  lemma MintedGrows(cache: map<string, Experiment>, counter: nat, key: string, e: Experiment)
    requires AllMinted(cache, counter) && key !in cache && e.status == Planned && e.id == ExpId(counter + 1)
    ensures AllMinted(cache[key := e], counter + 1) && forall k :: k in cache ==> cache[k].id != e.id
  {
    NextIsMinted(counter);
    forall k | k in cache ensures MintedBy(cache[k].id, counter + 1) && cache[k].id != e.id {
      MintedFacts(cache[k].id, counter);
    }
  }

  /** Entries of the cache are never replaced. */
  ghost predicate CacheGrows(d: DesignerState, n: DesignerState) {
    forall k :: k in d.cache ==> k in n.cache && n.cache[k] == d.cache[k]
  }

  lemma DesignMintsOnce(d: DesignerState, h: Hypothesis, knowledge: bool, content: Content)
    requires MintedOnce(d)
    ensures var n, e := AfterDesign(d, h, knowledge, content), Designed(d, h, knowledge, content);
            && MintedOnce(n) && CacheGrows(d, n)
            && Key(h, knowledge) in n.cache && e == n.cache[Key(h, knowledge)].(status := e.status)
            && e.id != "" && (e.status == Planned || e.status == Cached)
  {
    DesignStep(d, Key(h, knowledge), Make(d.counter + 1, h, content(h, knowledge)));
  }

  /** What a cache hit and a cache miss do to the cache, whatever the key and the content. */
  lemma DesignStep(d: DesignerState, key: string, made: Experiment)
    requires MintedOnce(d) && made.status == Planned && made.id == ExpId(d.counter + 1)
    ensures var hit := key in d.cache;
            var n := if hit then d else DesignerState(d.counter + 1, d.cache[key := made]);
            var e := if hit then d.cache[key].(status := Cached) else made;
            && MintedOnce(n) && CacheGrows(d, n) && key in n.cache && e == n.cache[key].(status := e.status) && e.id != ""
  {
    if key in d.cache {
      MintedFacts(d.cache[key].id, d.counter);
    } else {
      NextIsMinted(d.counter);
      MintedGrows(d.cache, d.counter, key, made);
      UniqueGrows(d.cache, key, made);
    }
  }

  /** The experiment is the cached one of some open hypothesis of the list, up to its status. */
  ghost predicate FromPlan(e: Experiment, d: DesignerState, hs: seq<Hypothesis>, knowledge: bool) {
    exists h :: h in hs && h.status == Open && Key(h, knowledge) in d.cache
                && e == d.cache[Key(h, knowledge)].(status := e.status)
  }

  /** Every experiment of the list is a usable one of the plan. */
  ghost predicate AllFromPlan(es: seq<Experiment>, d: DesignerState, hs: seq<Hypothesis>, knowledge: bool) {
    forall i :: 0 <= i < |es| ==>
      es[i].id != "" && (es[i].status == Planned || es[i].status == Cached) && FromPlan(es[i], d, hs, knowledge)
  }

  lemma FromPlanStays(es: seq<Experiment>, d: DesignerState, n: DesignerState, hs: seq<Hypothesis>, more: seq<Hypothesis>, knowledge: bool)
    requires AllFromPlan(es, d, hs, knowledge) && CacheGrows(d, n) && forall h :: h in hs ==> h in more
    ensures AllFromPlan(es, n, more, knowledge)
  {
    forall i | 0 <= i < |es| ensures FromPlan(es[i], n, more, knowledge) {
      assert FromPlan(es[i], d, hs, knowledge);
      var h :| h in hs && h.status == Open && Key(h, knowledge) in d.cache
               && es[i] == d.cache[Key(h, knowledge)].(status := es[i].status);
      assert h in more;
    }
  }

  /** One more hypothesis, the last of the list: its experiment is of the plan, whether minted now or before. */
  lemma DesignFromPlan(d: DesignerState, hs: seq<Hypothesis>, knowledge: bool, content: Content)
    requires MintedOnce(d) && hs != [] && Last(hs).status == Open
    ensures var n, e := AfterDesign(d, Last(hs), knowledge, content), Designed(d, Last(hs), knowledge, content);
            MintedOnce(n) && CacheGrows(d, n) && AllFromPlan([e], n, hs, knowledge)
  {
    DesignMintsOnce(d, Last(hs), knowledge, content);
    assert Last(hs) in hs;
    assert FromPlan(Designed(d, Last(hs), knowledge, content), AfterDesign(d, Last(hs), knowledge, content), hs, knowledge);
  }

  lemma AllFromPlanAppend(a: seq<Experiment>, b: seq<Experiment>, d: DesignerState, hs: seq<Hypothesis>, knowledge: bool)
    requires AllFromPlan(a, d, hs, knowledge) && AllFromPlan(b, d, hs, knowledge)
    ensures AllFromPlan(a + b, d, hs, knowledge)
  {
    forall i | 0 <= i < |a + b|
      ensures (a + b)[i].id != "" && ((a + b)[i].status == Planned || (a + b)[i].status == Cached)
              && FromPlan((a + b)[i], d, hs, knowledge)
    {
      if i < |a| { assert (a + b)[i] == a[i]; } else { assert (a + b)[i] == b[i - |a|]; }
    }
  }

  lemma {:induction false} PortfolioFromPlan(d: DesignerState, hs: seq<Hypothesis>, knowledge: bool, content: Content)
    requires MintedOnce(d)
    ensures var n := AfterPortfolio(d, hs, knowledge, content);
            MintedOnce(n) && CacheGrows(d, n) && AllFromPlan(Portfolio(d, hs, knowledge, content), n, hs, knowledge)
  {
    if hs != [] {
      PortfolioFromPlan(d, Front(hs), knowledge, content);
      var mid, n := AfterPortfolio(d, Front(hs), knowledge, content), AfterPortfolio(d, hs, knowledge, content);
      var before := Portfolio(d, Front(hs), knowledge, content);
      FrontLast(hs);
      if Last(hs).status == Open {
        DesignFromPlan(mid, hs, knowledge, content);
        FromPlanStays(before, mid, n, Front(hs), hs, knowledge);
        AllFromPlanAppend(before, [Designed(mid, Last(hs), knowledge, content)], n, hs, knowledge);
      } else {
        FromPlanStays(before, mid, n, Front(hs), hs, knowledge);
        assert before + [] == before;
      }
    }
  }

  /** And the other way round: every open hypothesis of the list has its experiment in the portfolio. */
  lemma {:induction false} PortfolioCoversPlan(d: DesignerState, hs: seq<Hypothesis>, knowledge: bool, content: Content, i: nat)
      returns (j: nat)
    requires MintedOnce(d) && i < |hs| && hs[i].status == Open
    ensures var n, es := AfterPortfolio(d, hs, knowledge, content), Portfolio(d, hs, knowledge, content);
            && j < |es| && Key(hs[i], knowledge) in n.cache && es[j] == n.cache[Key(hs[i], knowledge)].(status := es[j].status)
  {
    var f, l := Front(hs), Last(hs);
    var mid, before := AfterPortfolio(d, f, knowledge, content), Portfolio(d, f, knowledge, content);
    PortfolioFromPlan(d, f, knowledge, content);
    if i == |hs| - 1 {
      DesignMintsOnce(mid, l, knowledge, content);
      j := |before|;
    } else {
      j := PortfolioCoversPlan(d, f, knowledge, content, i);
      assert hs[i] == f[i];
      if l.status == Open { DesignMintsOnce(mid, l, knowledge, content); }
    }
  }
}

/** orchestrator/adaptive.py: one adaptive step after a closed loop. */
module Adaptive {
  import opened Common
  import opened Research
  import opened Designer
  import Jev
  import Cov = Coverage
  import BR = Branches

  datatype Plan = Plan(hypotheses: seq<Hypothesis>, knowledge: bool)

  /** A hypothesis update of the closed loop. */
  datatype Update = Update(hypothesisId: string, reason: string)

  /** Fresh ids and clock texts for the branches and events the step may create. */
  datatype Mints = Mints(root: BR.Mint, rootEvent: BR.Mint, next: BR.Mint, nextEvent: BR.Mint, backEvent: BR.Mint)

  /**
   What the step reads of a closed loop.  `selected` is the experiment that ran, empty if none; `segments`
   are the path segments of the first variant that a follow-up should mention.
   */
  datatype Closed = Closed(plan: Plan, scopeAllowed: bool, sufficiency: Cov.Sufficiency, selected: string,
                           gap: Cov.CoverageGap, stopReason: string, accepted: bool, finalStatus: string,
                           updates: seq<Update>, hasVariants: bool, segments: seq<string>, mints: Mints)

  datatype Action = Stop | ExecuteVariant | ExecuteFollowup

  datatype StopReason =
    | NoStop | CoverageNoFollowup | CoverageJevStop | CoverageSameExperimentBlocked | ScopeBlocked
    | NoDiscriminatingExperiment | HypothesisDisproven | SufficientEvidence | NoValuableVariants | JevStop | DefaultStop

  datatype StepResult = StepResult(action: Action, reason: StopReason, next: Option<Experiment>, branchId: string,
                                   parentBranchId: string, backtracked: bool, active: seq<string>, rejected: seq<string>)

  datatype LoopState = LoopState(tried: set<string>, designer: DesignerState, branches: BR.ManagerState, root: string)

  function Plain(action: Action, reason: StopReason, next: Option<Experiment>): StepResult {
    StepResult(action, reason, next, "", "", false, [], [])
  }

  function Noted(s: LoopState, c: Closed): LoopState {
    s.(tried := s.tried + if c.selected != "" then {c.selected} else {})
  }

  function Untried(es: seq<Experiment>, tried: set<string>): seq<Experiment> {
    if es == [] then [] else Untried(Front(es), tried) + if Last(es).id in tried then [] else [Last(es)]
  }

  /** Index of the first maximum, as JEV finds it. */
  function BestIndex(es: seq<Experiment>, hs: seq<Hypothesis>): (k: nat)
    requires es != []
    ensures k < |es|
  {
    if |es| == 1 then 0
    else
      var k := BestIndex(Front(es), hs);
      if Jev.Merit(Last(es), hs) > Jev.Merit(es[k], hs) then |es| - 1 else k
  }

  lemma {:induction false} BestIndexIsFirstMaximum(es: seq<Experiment>, hs: seq<Hypothesis>)
    requires es != []
    ensures Jev.FirstMaximum(es, hs, BestIndex(es, hs))
  {
    if |es| > 1 { BestIndexIsFirstMaximum(Front(es), hs); }
  }

  /** The candidate id that JEV decides for. */
  function CandidateId(pool: seq<Experiment>, hs: seq<Hypothesis>): string
    requires Jev.OpenOnes(pool) != []
  {
    Jev.OpenOnes(pool)[BestIndex(Jev.OpenOnes(pool), hs)].id
  }

  /** next(e for e in pool if e.experiment_id == id), with the head of the pool as default. */
  function Lookup(pool: seq<Experiment>, id: string): Experiment
    requires pool != []
  {
    if pool[0].id == id then pool[0]
    else if |pool| == 1 then pool[0]
    else
      var later := Lookup(pool[1..], id);
      if later.id == id then later else pool[0]
  }

  // ---------------------------------------------------------------- the coverage path

  function AfterPlanning(s: LoopState, hs: seq<Hypothesis>, knowledge: bool, content: Content): LoopState {
    s.(designer := AfterPortfolio(s.designer, hs, knowledge, content))
  }

  function CoveragePool(candidates: seq<Experiment>, gap: Cov.CoverageGap): seq<Experiment> {
    if Cov.Covering(candidates, gap, true) != [] then Cov.Covering(candidates, gap, true) else candidates
  }

  function CoverageResult(s: LoopState, c: Closed, content: Content): StepResult {
    var es := Portfolio(s.designer, c.plan.hypotheses, c.plan.knowledge, content);
    var candidates := Untried(es, s.tried);
    if candidates == [] then Plain(Stop, CoverageNoFollowup, None)
    else
      var pool := CoveragePool(candidates, c.gap);
      if Jev.OpenOnes(pool) == [] || CandidateId(pool, c.plan.hypotheses) == "" then Plain(Stop, CoverageJevStop, None)
      else
        var next := Lookup(pool, CandidateId(pool, c.plan.hypotheses));
        if next.id == c.selected then Plain(Stop, CoverageSameExperimentBlocked, Some(next))
        else Plain(ExecuteFollowup, NoStop, Some(next))
  }

  // ---------------------------------------------------------------- the rejection path

  function RejectedIds(hs: seq<Hypothesis>, updates: seq<Update>): seq<string> {
    if updates != [] then
      var before, u := RejectedIds(hs, Front(updates)), Last(updates);
      if u.hypothesisId != "" && Contains("negative", u.reason) && u.hypothesisId !in before && !Contains("null", u.reason)
      then before + [u.hypothesisId] else before
    else if hs == [] then []
    else RejectedIds(Front(hs), []) + if Last(hs).status == Rejected then [Last(hs).id] else []
  }

  predicate Nullish(h: Hypothesis) {
    Contains("null", Lower(h.statement)) || Contains("intended", Lower(h.statement))
  }

  /** The hypotheses still worth a branch, those with a null or intended-behaviour statement or the others. */
  function Alternatives(hs: seq<Hypothesis>, rejected: seq<string>, nullish: bool): seq<Hypothesis> {
    if hs == [] then []
    else
      var h := Last(hs);
      Alternatives(Front(hs), rejected, nullish)
      + if h.id !in rejected && (h.status == Open || h.status == Supported) && Nullish(h) == nullish then [h] else []
  }

  function AlternativesSorted(c: Closed): seq<Hypothesis> {
    var rejected := RejectedIds(c.plan.hypotheses, c.updates);
    Alternatives(c.plan.hypotheses, rejected, true) + Alternatives(c.plan.hypotheses, rejected, false)
  }

  function HypothesisIds(hs: seq<Hypothesis>): (ids: seq<string>)
    ensures |ids| == |hs|
  {
    seq(|hs|, i requires 0 <= i < |hs| => hs[i].id)
  }

  /** The root branch, opened once, has the experiment that ran recorded on it. */
  function Rooted(s: LoopState, c: Closed): LoopState {
    var top := c.plan.hypotheses[..Min(5, |c.plan.hypotheses|)];
    var opened_ := if s.root != "" then s
                   else s.(branches := BR.Opened(s.branches, c.mints.root, c.mints.rootEvent, HypothesisIds(top), "", ""),
                           root := c.mints.root.id);
    if c.selected != "" then opened_.(branches := BR.Ran(opened_.branches, opened_.root, c.selected)) else opened_
  }

  function AfterBacktrack(s: LoopState, c: Closed): LoopState {
    s.(branches := BR.Backtracked(s.branches, s.root, HypothesisIds(AlternativesSorted(c)), "",
                                  c.mints.next, c.mints.nextEvent, c.mints.backEvent))
  }

  predicate BranchesOff(s: LoopState, c: Closed) {
    BR.Backtracks(s.branches, s.root, HypothesisIds(AlternativesSorted(c)))
  }

  function RejectionState(s: LoopState, c: Closed, content: Content): LoopState {
    var r := Rooted(s, c);
    if AlternativesSorted(c) == [] then r
    else AfterPlanning(AfterBacktrack(r, c), AlternativesSorted(c), c.plan.knowledge, content)
  }

  function RejectionResult(s: LoopState, c: Closed, content: Content): StepResult {
    var r, alternatives := Rooted(s, c), AlternativesSorted(c);
    var rejected, active := RejectedIds(c.plan.hypotheses, c.updates), HypothesisIds(alternatives);
    if alternatives == [] then StepResult(Stop, HypothesisDisproven, None, r.root, "", false, [], rejected)
    else
      var branch := if BranchesOff(r, c) then c.mints.next.id else "";
      var candidates := Untried(Portfolio(r.designer, alternatives, c.plan.knowledge, content), r.tried);
      if candidates == [] then
        StepResult(Stop, NoDiscriminatingExperiment, None, if BranchesOff(r, c) then branch else r.root, r.root,
                   BranchesOff(r, c), active, rejected)
      else if Jev.OpenOnes(candidates) == [] then
        StepResult(Stop, NoDiscriminatingExperiment, None, branch, r.root, true, active, rejected)
      else
        StepResult(ExecuteFollowup, NoStop, Some(Lookup(candidates, CandidateId(candidates, alternatives))), branch, r.root,
                   true, active, rejected)
  }

  // ---------------------------------------------------------------- the variant path

  predicate Mentions(e: Experiment, segments: seq<string>) {
    exists p :: p in segments && p != "" && Contains(p, Lower(e.description))
  }

  function FirstMention(es: seq<Experiment>, segments: seq<string>): Option<Experiment> {
    if es == [] then None
    else if FirstMention(Front(es), segments).Some? then FirstMention(Front(es), segments)
    else if Mentions(Last(es), segments) then Some(Last(es)) else None
  }

  /** The portfolio, or the first hypothesis designed although it is not open. */
  function VariantExperiments(s: LoopState, c: Closed, content: Content): seq<Experiment> {
    var hs := c.plan.hypotheses;
    var es := Portfolio(s.designer, hs, c.plan.knowledge, content);
    if es == [] && hs != []
    then [Designed(AfterPortfolio(s.designer, hs, c.plan.knowledge, content), hs[0], c.plan.knowledge, content)] else es
  }

  function VariantState(s: LoopState, c: Closed, content: Content): LoopState {
    var hs := c.plan.hypotheses;
    var p := AfterPlanning(s, hs, c.plan.knowledge, content);
    if !c.hasVariants then s
    else if Portfolio(s.designer, hs, c.plan.knowledge, content) == [] && hs != []
    then p.(designer := AfterDesign(p.designer, hs[0], c.plan.knowledge, content)) else p
  }

  function VariantResult(s: LoopState, c: Closed, content: Content): StepResult {
    if !c.hasVariants then Plain(Stop, SufficientEvidence, None)
    else
      var es := VariantExperiments(s, c, content);
      if es == [] then Plain(Stop, NoValuableVariants, None)
      else
        var next := FirstMention(es, c.segments).GetOr(es[0]);
        if Jev.IsOpen(next) then Plain(ExecuteVariant, NoStop, Some(next)) else Plain(Stop, JevStop, Some(next))
  }

  // ---------------------------------------------------------------- the step

  predicate CoverageFailed(c: Closed) { c.sufficiency != Cov.Sufficient && c.scopeAllowed }

  predicate WasRejected(c: Closed) {
    c.stopReason == "hypothesis_disproven" || (!c.accepted && c.finalStatus == "rejected")
  }

  function Result(s0: LoopState, c: Closed, content: Content): (r: StepResult)
    ensures r.action == ExecuteFollowup ==> r.next.Some?
  {
    var s := Noted(s0, c);
    if CoverageFailed(c) then CoverageResult(s, c, content)
    else if !c.scopeAllowed then Plain(Stop, ScopeBlocked, None)
    else if WasRejected(c) then RejectionResult(s, c, content)
    else if c.accepted then VariantResult(s, c, content)
    else Plain(Stop, DefaultStop, None)
  }

  function Next(s0: LoopState, c: Closed, content: Content): LoopState {
    var s := Noted(s0, c);
    if CoverageFailed(c) then AfterPlanning(s, c.plan.hypotheses, c.plan.knowledge, content)
    else if !c.scopeAllowed then s
    else if WasRejected(c) then RejectionState(s, c, content)
    else if c.accepted then VariantState(s, c, content)
    else s
  }

  class AdaptiveLoop {
    const designer: ExperimentDesigner
    const jev: Jev.JEV
    const branches: BR.BranchManager
    var tried: set<string>
    var root: string

    ghost function State(): LoopState
      reads this, designer, branches
    {
      LoopState(tried, designer.State(), branches.State(), root)
    }

    constructor (engagementId: string, content: Content)
      ensures fresh(designer) && fresh(jev) && fresh(branches) && designer.content == content
      ensures State() == LoopState({}, DesignerState(0, map[]), BR.ManagerState(engagementId, [], [], {}), "")
    {
      designer := new ExperimentDesigner(content);
      jev := new Jev.JEV();
      branches := new BR.BranchManager(engagementId);
      tried, root := {}, "";
    }

    /** JEV's answer on a pool, as the loop uses it: no stop request and a positive budget. */
    method Ask(pool: seq<Experiment>, hs: seq<Hypothesis>, ratio: real) returns (d: Jev.Decision)
      requires ratio > 0.0
      modifies jev
      ensures d.action == Jev.Stop <==> Jev.OpenOnes(pool) == []
      ensures d.action != Jev.Stop ==> d.candidate == CandidateId(pool, hs)
    {
      d := jev.Choose(pool, hs, ratio);
      if d.action != Jev.Stop {
        var open := Jev.OpenOnes(pool);
        ghost var k: nat :| Jev.FirstMaximum(open, hs, k) && d.candidate == open[k].id;
        BestIndexIsFirstMaximum(open, hs);
        Jev.FirstMaximumUnique(open, hs, k, BestIndex(open, hs));
      }
    }

    method FilterUntried(es: seq<Experiment>) returns (candidates: seq<Experiment>)
      ensures candidates == Untried(es, tried)
    {
      candidates := [];
      for i := 0 to |es|
        invariant candidates == Untried(es[..i], tried)
      {
        FrontTake(es, i);
        if es[i].id !in tried { candidates := candidates + [es[i]]; } else { assert candidates + [] == candidates; }
      }
      assert es[..|es|] == es;
    }

    method Step(c: Closed) returns (r: StepResult)
      modifies this, designer, jev, branches
      ensures r == Result(old(State()), c, designer.content)
      ensures State() == Next(old(State()), c, designer.content)
    {
      if c.selected != "" { tried := tried + {c.selected}; }
      assert State() == Noted(old(State()), c);
      if c.sufficiency != Cov.Sufficient && c.scopeAllowed {
        r := StepCoverage(c);
      } else if !c.scopeAllowed {
        r := Plain(Stop, ScopeBlocked, None);
      } else if c.stopReason == "hypothesis_disproven" || (!c.accepted && c.finalStatus == "rejected") {
        r := StepRejection(c);
      } else if c.accepted {
        r := StepVariant(c);
      } else {
        r := Plain(Stop, DefaultStop, None);
      }
    }

    method StepCoverage(c: Closed) returns (r: StepResult)
      modifies designer, jev
      ensures r == CoverageResult(old(State()), c, designer.content)
      ensures State() == AfterPlanning(old(State()), c.plan.hypotheses, c.plan.knowledge, designer.content)
    {
      var hs := c.plan.hypotheses;
      var es := designer.DesignPortfolio(hs, c.plan.knowledge);
      var candidates := FilterUntried(es);
      if candidates == [] { return Plain(Stop, CoverageNoFollowup, None); }
      var covering, other := Cov.PreferCovering(candidates, c.gap);
      var pool := if covering != [] then covering else candidates;
      var d := Ask(pool, hs, 0.8);
      if d.action == Jev.Stop || d.candidate == "" { return Plain(Stop, CoverageJevStop, None); }
      var next := Lookup(pool, d.candidate);
      if next.id == c.selected { return Plain(Stop, CoverageSameExperimentBlocked, Some(next)); }
      return Plain(ExecuteFollowup, NoStop, Some(next));
    }

    method EnsureRoot(c: Closed)
      modifies this`root, branches
      ensures State() == Rooted(old(State()), c)
    {
      if root == "" {
        var top := c.plan.hypotheses[..Min(5, |c.plan.hypotheses|)];
        branches.OpenBranch(c.mints.root, c.mints.rootEvent, HypothesisIds(top));
        root := c.mints.root.id;
      }
      if c.selected != "" { branches.RecordExperiment(root, c.selected); }
    }

    /** The two loops over hypotheses and hypothesis updates. */
    static method CollectRejected(hs: seq<Hypothesis>, updates: seq<Update>) returns (rejected: seq<string>)
      ensures rejected == RejectedIds(hs, updates)
    {
      rejected := [];
      for i := 0 to |hs|
        invariant rejected == RejectedIds(hs[..i], [])
      {
        FrontTake(hs, i);
        if hs[i].status == Rejected { rejected := rejected + [hs[i].id]; } else { assert rejected + [] == rejected; }
      }
      assert hs[..|hs|] == hs;
      for i := 0 to |updates|
        invariant rejected == RejectedIds(hs, updates[..i])
      {
        FrontTake(updates, i);
        var u := updates[i];
        if u.hypothesisId != "" && Contains("negative", u.reason) {
          if u.hypothesisId !in rejected && !Contains("null", u.reason) { rejected := rejected + [u.hypothesisId]; }
        }
      }
      assert updates[..|updates|] == updates;
    }

    method StepRejection(c: Closed) returns (r: StepResult)
      modifies this`root, designer, jev, branches
      ensures r == RejectionResult(old(State()), c, designer.content)
      ensures State() == RejectionState(old(State()), c, designer.content)
    {
      var rejected := CollectRejected(c.plan.hypotheses, c.updates);
      EnsureRoot(c);
      var alternatives := AlternativesSorted(c);
      if alternatives == [] { return StepResult(Stop, HypothesisDisproven, None, root, "", false, [], rejected); }
      var active := HypothesisIds(alternatives);
      var ok := branches.Backtrack(root, active, c.mints.next, c.mints.nextEvent, c.mints.backEvent);
      var branch := if ok then c.mints.next.id else "";
      var es := designer.DesignPortfolio(alternatives, c.plan.knowledge);
      var candidates := FilterUntried(es);
      if candidates == [] {
        return StepResult(Stop, NoDiscriminatingExperiment, None, if ok then branch else root, root, ok, active, rejected);
      }
      var d := Ask(candidates, alternatives, 0.7);
      if d.action == Jev.Stop {
        return StepResult(Stop, NoDiscriminatingExperiment, None, branch, root, true, active, rejected);
      }
      // An empty candidate id would keep the head of the list, which is also what the lookup then gives.
      var next := Lookup(candidates, d.candidate);
      return StepResult(ExecuteFollowup, NoStop, Some(next), branch, root, true, active, rejected);
    }

    /** The first experiment that mentions the variant's path, the head of the list by default. */
    method FirstVariant(es: seq<Experiment>, segments: seq<string>) returns (next: Experiment)
      requires es != []
      ensures next == FirstMention(es, segments).GetOr(es[0])
    {
      next := es[0];
      for i := 0 to |es|
        invariant FirstMention(es[..i], segments) == None && next == es[0]
      {
        FrontTake(es, i);
        if Mentions(es[i], segments) {
          MentionFound(es, segments, i);
          return es[i];
        }
      }
      assert es[..|es|] == es;
    }

    method StepVariant(c: Closed) returns (r: StepResult)
      modifies designer, jev
      ensures r == VariantResult(old(State()), c, designer.content)
      ensures State() == VariantState(old(State()), c, designer.content)
    {
      if !c.hasVariants { return Plain(Stop, SufficientEvidence, None); }
      var hs := c.plan.hypotheses;
      var es := designer.DesignPortfolio(hs, c.plan.knowledge);
      if es == [] && hs != [] {
        var e := designer.Design(hs[0], c.plan.knowledge);
        es := [e];
      }
      if es == [] { return Plain(Stop, NoValuableVariants, None); }
      var next := FirstVariant(es, c.segments);
      var d := Ask([next], hs, 0.8);
      assert Front([next]) == [];
      if d.action == Jev.Stop { return Plain(Stop, JevStop, Some(next)); }
      return Plain(ExecuteVariant, NoStop, Some(next));
    }
  }

  lemma {:induction false} MentionFound(es: seq<Experiment>, segments: seq<string>, i: nat)
    requires i < |es| && FirstMention(es[..i], segments) == None && Mentions(es[i], segments)
    ensures FirstMention(es, segments) == Some(es[i])
  {
    if i == |es| - 1 {
      assert Front(es) == es[..i];
    } else {
      assert Front(es)[..i] == es[..i];
      MentionFound(Front(es), segments, i);
    }
  }
}
