/**
 What the adaptive loop chooses, said on the planned experiments, the tried ids and the gap alone
 (orchestrator/adaptive.py, orchestrator/experiment_alignment.py).
 */
module Choices {
  import opened Common
  import opened Research
  import opened Designer
  import opened Adaptive
  import opened FollowUps
  import Jev
  import Cov = Coverage
  import BR = Branches

  // ---------------------------------------------------------------- picking from a list

  /** A step of the experiment has a role that the gap still misses or finds ambiguous. */
  predicate FillsGap(e: Experiment, gap: Cov.CoverageGap) {
    exists s :: s in e.steps && (s.role in gap.missingRoles || s.role in gap.ambiguousRoles)
  }

  /** The experiment may be chosen: it was not tried, and it fills the gap if that is asked for. */
  predicate Candidate(e: Experiment, tried: set<string>, gap: Cov.CoverageGap, filling: bool) {
    e.id !in tried && (filling ==> FillsGap(e, gap))
  }

  /** Of the candidates in the list, es[k] is the first one of maximal merit. */
  ghost predicate FirstBest(es: seq<Experiment>, hs: seq<Hypothesis>, tried: set<string>, gap: Cov.CoverageGap,
                            filling: bool, k: nat)
  {
    && k < |es| && Candidate(es[k], tried, gap, filling)
    && (forall i :: 0 <= i < |es| && Candidate(es[i], tried, gap, filling) ==> Jev.Merit(es[i], hs) <= Jev.Merit(es[k], hs))
    && (forall i :: 0 <= i < k && Candidate(es[i], tried, gap, filling) ==> Jev.Merit(es[i], hs) < Jev.Merit(es[k], hs))
  }

  /** Copies of one experiment under one id have one merit. */
  ghost predicate OneMeritPerId(es: seq<Experiment>, hs: seq<Hypothesis>) {
    forall i, j :: 0 <= i < |es| && 0 <= j < |es| && es[i].id == es[j].id ==> Jev.Merit(es[i], hs) == Jev.Merit(es[j], hs)
  }

  /** The positions of the candidates. */
  function Positions(es: seq<Experiment>, tried: set<string>, gap: Cov.CoverageGap, filling: bool): seq<nat> {
    if es == [] then []
    else Positions(Front(es), tried, gap, filling) + When(Candidate(Last(es), tried, gap, filling), |es| - 1)
  }

  /** `at` lists the positions of the candidates, in ascending order and none left out. */
  ghost predicate AtCandidates(at: seq<nat>, es: seq<Experiment>, tried: set<string>, gap: Cov.CoverageGap, filling: bool) {
    && (forall j :: 0 <= j < |at| ==> at[j] < |es| && Candidate(es[at[j]], tried, gap, filling))
    && (forall j, k :: 0 <= j < k < |at| ==> at[j] < at[k])
    && (forall i :: 0 <= i < |es| && Candidate(es[i], tried, gap, filling) ==> i in at)
  }

  lemma {:induction false} PositionsAscend(es: seq<Experiment>, tried: set<string>, gap: Cov.CoverageGap, filling: bool)
    ensures AtCandidates(Positions(es, tried, gap, filling), es, tried, gap, filling)
  {
    if es != [] {
      PositionsAscend(Front(es), tried, gap, filling);
      FrontLast(es);
      AscendGrows(Positions(Front(es), tried, gap, filling), Front(es), Last(es), tried, gap, filling);
    }
  }

  lemma AscendGrows(at: seq<nat>, es: seq<Experiment>, e: Experiment, tried: set<string>, gap: Cov.CoverageGap, filling: bool)
    requires AtCandidates(at, es, tried, gap, filling)
    ensures AtCandidates(at + When(Candidate(e, tried, gap, filling), |es|), es + [e], tried, gap, filling)
  {
    var n := at + When(Candidate(e, tried, gap, filling), |es|);
    forall i | 0 <= i < |es + [e]| && Candidate((es + [e])[i], tried, gap, filling) ensures i in n {
      if i < |es| { assert (es + [e])[i] == es[i] && i in at; } else { assert n[|at|] == |es|; }
    }
  }

  /** The pool is the list at its candidate positions. */
  ghost predicate PoolAt(pool: seq<Experiment>, es: seq<Experiment>, at: seq<nat>) {
    |pool| == |at| && forall j :: 0 <= j < |at| ==> at[j] < |es| && pool[j] == es[at[j]]
  }

  lemma PoolAtGrows(pool: seq<Experiment>, es: seq<Experiment>, at: seq<nat>, e: Experiment, hit: bool)
    requires PoolAt(pool, es, at)
    ensures PoolAt(pool + When(hit, e), es + [e], at + When(hit, |es|))
  {}

  lemma FillsIsAddresses(e: Experiment, gap: Cov.CoverageGap)
    ensures FillsGap(e, gap) <==> Cov.Addresses(e, gap)
  {
    forall r ensures r in Cov.TargetRoles(gap) <==> r in gap.missingRoles || r in gap.ambiguousRoles {
      Cov.TargetsMembers(gap.missingRoles + gap.ambiguousRoles, r);
    }
  }

  lemma {:induction false} UntriedPool(es: seq<Experiment>, tried: set<string>, gap: Cov.CoverageGap)
    ensures PoolAt(Untried(es, tried), es, Positions(es, tried, gap, false))
  {
    if es != [] {
      UntriedPool(Front(es), tried, gap);
      FrontLast(es);
      PoolAtGrows(Untried(Front(es), tried), Front(es), Positions(Front(es), tried, gap, false), Last(es),
                  Last(es).id !in tried);
    }
  }

  lemma CoveringOfUntried(es: seq<Experiment>, tried: set<string>, gap: Cov.CoverageGap)
    requires es != []
    ensures Cov.Covering(Untried(es, tried), gap, true)
            == Cov.Covering(Untried(Front(es), tried), gap, true) + When(Candidate(Last(es), tried, gap, true), Last(es))
  {
    var u, covering := Untried(Front(es), tried), Cov.Covering(Untried(Front(es), tried), gap, true);
    FillsIsAddresses(Last(es), gap);
    Cov.CoveringUnfolds(u, Last(es), gap, true);
    assert u + [] == u && covering + [] == covering;
  }

  lemma {:induction false} CoveringPool(es: seq<Experiment>, tried: set<string>, gap: Cov.CoverageGap)
    ensures PoolAt(Cov.Covering(Untried(es, tried), gap, true), es, Positions(es, tried, gap, true))
  {
    if es != [] {
      CoveringPool(Front(es), tried, gap);
      FrontLast(es);
      CoveringOfUntried(es, tried, gap);
      PoolAtGrows(Cov.Covering(Untried(Front(es), tried), gap, true), Front(es), Positions(Front(es), tried, gap, true),
                  Last(es), Candidate(Last(es), tried, gap, true));
    }
  }

  /** The first maximum of a pool is the first best candidate of the list. */
  lemma PoolMaximum(pool: seq<Experiment>, es: seq<Experiment>, hs: seq<Hypothesis>, tried: set<string>,
                    gap: Cov.CoverageGap, filling: bool, j: nat)
    requires PoolAt(pool, es, Positions(es, tried, gap, filling)) && Jev.FirstMaximum(pool, hs, j)
    ensures FirstBest(es, hs, tried, gap, filling, Positions(es, tried, gap, filling)[j])
  {
    var at := Positions(es, tried, gap, filling);
    PositionsAscend(es, tried, gap, filling);
    forall i | 0 <= i < |es| && Candidate(es[i], tried, gap, filling)
      ensures Jev.Merit(es[i], hs) <= Jev.Merit(es[at[j]], hs)
      ensures i < at[j] ==> Jev.Merit(es[i], hs) < Jev.Merit(es[at[j]], hs)
    {
      var m :| 0 <= m < |at| && at[m] == i;
      assert pool[m] == es[i];
    }
  }

  lemma {:induction false} LookupFirst(pool: seq<Experiment>, j: nat)
    requires j < |pool| && forall i :: 0 <= i < j ==> pool[i].id != pool[j].id
    ensures Lookup(pool, pool[j].id) == pool[j]
  {
    if j > 0 {
      assert forall i :: 0 <= i < j - 1 ==> pool[1..][i].id == pool[i + 1].id;
      LookupFirst(pool[1..], j - 1);
    }
  }

  /** What JEV decides on a usable pool and the loop then looks up. */
  lemma Chosen(pool: seq<Experiment>, es: seq<Experiment>, hs: seq<Hypothesis>, tried: set<string>,
               gap: Cov.CoverageGap, filling: bool) returns (k: nat)
    requires pool != [] && Usable(pool) && PoolAt(pool, es, Positions(es, tried, gap, filling)) && OneMeritPerId(es, hs)
    ensures FirstBest(es, hs, tried, gap, filling, k) && Lookup(pool, CandidateId(pool, hs)) == es[k]
  {
    Jev.AllOpen(pool);
    var j := BestIndex(pool, hs);
    BestIndexIsFirstMaximum(pool, hs);
    PoolMaximum(pool, es, hs, tried, gap, filling, j);
    k := Positions(es, tried, gap, filling)[j];
    forall i | 0 <= i < j ensures pool[i].id != pool[j].id {
      assert Jev.Merit(pool[i], hs) < Jev.Merit(pool[j], hs);
      assert pool[i] == es[Positions(es, tried, gap, filling)[i]];
    }
    LookupFirst(pool, j);
  }

  lemma PlanHasOneMerit(es: seq<Experiment>, d: DesignerState, hs: seq<Hypothesis>, knowledge: bool, any: seq<Hypothesis>)
    requires MintedOnce(d) && AllFromPlan(es, d, hs, knowledge)
    ensures OneMeritPerId(es, any)
  {
    forall i, j | 0 <= i < |es| && 0 <= j < |es| && es[i].id == es[j].id
      ensures Jev.Merit(es[i], any) == Jev.Merit(es[j], any)
    {
      assert FromPlan(es[i], d, hs, knowledge) && FromPlan(es[j], d, hs, knowledge);
      var g :| g in hs && g.status == Open && Key(g, knowledge) in d.cache
               && es[i] == d.cache[Key(g, knowledge)].(status := es[i].status);
      var h :| h in hs && h.status == Open && Key(h, knowledge) in d.cache
               && es[j] == d.cache[Key(h, knowledge)].(status := es[j].status);
      SameMerit(d.cache[Key(g, knowledge)], es[i], any);
      SameMerit(d.cache[Key(h, knowledge)], es[j], any);
      assert Key(g, knowledge) == Key(h, knowledge);
    }
  }

  lemma SameMerit(cached: Experiment, e: Experiment, hs: seq<Hypothesis>)
    requires e == cached.(status := e.status)
    ensures Jev.Merit(e, hs) == Jev.Merit(cached, hs)
  {}

  // ---------------------------------------------------------------- the coverage path

  ghost predicate SomeCandidate(es: seq<Experiment>, tried: set<string>, gap: Cov.CoverageGap, filling: bool) {
    exists i :: 0 <= i < |es| && Candidate(es[i], tried, gap, filling)
  }

  lemma PoolEmpty(pool: seq<Experiment>, es: seq<Experiment>, tried: set<string>, gap: Cov.CoverageGap, filling: bool)
    requires PoolAt(pool, es, Positions(es, tried, gap, filling))
    ensures pool != [] <==> SomeCandidate(es, tried, gap, filling)
  {
    var at := Positions(es, tried, gap, filling);
    PositionsAscend(es, tried, gap, filling);
    if pool != [] { assert Candidate(es[at[0]], tried, gap, filling); }
  }

  lemma SubpoolUsable(candidates: seq<Experiment>, gap: Cov.CoverageGap)
    requires Usable(candidates)
    ensures Usable(Cov.Covering(candidates, gap, true))
  {
    var pool := Cov.Covering(candidates, gap, true);
    forall i | 0 <= i < |pool| ensures pool[i].id != "" && Jev.IsOpen(pool[i]) {
      CoveringMembers(candidates, gap, pool[i]);
      var j :| 0 <= j < |candidates| && candidates[j] == pool[i];
    }
  }

  /** The loop goes on with the first best candidate, and stops when there is no untried experiment. */
  ghost predicate FollowsUpBest(r: StepResult, es: seq<Experiment>, hs: seq<Hypothesis>, tried: set<string>,
                                gap: Cov.CoverageGap, filling: bool)
  {
    if SomeCandidate(es, tried, gap, false)
    then r.action == ExecuteFollowup
         && exists k: nat :: FirstBest(es, hs, tried, gap, filling, k) && r.next == Some(es[k])
    else r.action == Stop && r.next == None
  }

  /**
   An insufficient or ambiguous experiment is followed up by the first of maximal merit among the untried
   experiments that fill the gap, and only if none does among all untried ones; it stops when all were tried.
   */
  lemma CoverageFollowsUpBest(s: LoopState, c: Closed, content: Content)
    requires Sane(s) && c.sufficiency != Cov.Sufficient && c.scopeAllowed
    ensures var es := Portfolio(s.designer, c.plan.hypotheses, c.plan.knowledge, content);
            var tried := s.tried + if c.selected != "" then {c.selected} else {};
            FollowsUpBest(Result(s, c, content), es, c.plan.hypotheses, tried, c.gap, SomeCandidate(es, tried, c.gap, true))
  {
    var t, hs, knowledge := Noted(s, c), c.plan.hypotheses, c.plan.knowledge;
    var n, es := AfterPortfolio(s.designer, hs, knowledge, content), Portfolio(s.designer, hs, knowledge, content);
    PortfolioFromPlan(s.designer, hs, knowledge, content);
    CandidatesUsable(n, hs, knowledge, es, t.tried);
    PlanHasOneMerit(es, n, hs, knowledge, hs);
    CoverageResultChooses(t, c, content, es);
  }

  lemma CoverageResultChooses(t: LoopState, c: Closed, content: Content, es: seq<Experiment>)
    requires es == Portfolio(t.designer, c.plan.hypotheses, c.plan.knowledge, content)
    requires Usable(Untried(es, t.tried)) && OneMeritPerId(es, c.plan.hypotheses)
    requires c.selected != "" ==> c.selected in t.tried
    ensures FollowsUpBest(CoverageResult(t, c, content), es, c.plan.hypotheses, t.tried, c.gap,
                          SomeCandidate(es, t.tried, c.gap, true))
  {
    var hs, candidates := c.plan.hypotheses, Untried(es, t.tried);
    var covering := Cov.Covering(candidates, c.gap, true);
    UntriedPool(es, t.tried, c.gap);
    PoolEmpty(candidates, es, t.tried, c.gap, false);
    CoveringPool(es, t.tried, c.gap);
    PoolEmpty(covering, es, t.tried, c.gap, true);
    if candidates != [] {
      CoverageChoice(candidates, c.gap, hs);
      if covering != [] {
        SubpoolUsable(candidates, c.gap);
        var k := Chosen(covering, es, hs, t.tried, c.gap, true);
        assert CoverageResult(t, c, content).next == Some(es[k]);
      } else {
        var k := Chosen(candidates, es, hs, t.tried, c.gap, false);
        assert CoverageResult(t, c, content).next == Some(es[k]);
      }
    }
  }

  // ---------------------------------------------------------------- the rejection path

  /** What an update says against its hypothesis: negative evidence that does not support the null. */
  predicate Rejects(u: Update, id: string) {
    u.hypothesisId == id && id != "" && Contains("negative", u.reason) && !Contains("null", u.reason)
  }

  lemma {:induction false} RejectedMembers(hs: seq<Hypothesis>, updates: seq<Update>, id: string)
    ensures id in RejectedIds(hs, updates) <==>
            (exists h :: h in hs && h.status == Rejected && h.id == id) || (exists u :: u in updates && Rejects(u, id))
    decreases |updates|, |hs|
  {
    if updates != [] {
      FrontLast(updates);
      RejectedMembers(hs, Front(updates), id);
      assert forall u :: u in updates <==> u in Front(updates) || u == Last(updates);
      if u :| u in Front(updates) && Rejects(u, id) { assert u in updates; }
      if Rejects(Last(updates), id) { assert Last(updates) in updates; }
    } else if hs != [] {
      FrontLast(hs);
      RejectedMembers(Front(hs), [], id);
      assert forall h :: h in hs <==> h in Front(hs) || h == Last(hs);
    }
  }

  /** An alternative is an open or supported hypothesis of the plan that nothing has rejected. */
  ghost predicate Alternative(h: Hypothesis, c: Closed) {
    && h in c.plan.hypotheses && (h.status == Open || h.status == Supported)
    && !(exists g :: g in c.plan.hypotheses && g.status == Rejected && g.id == h.id)
    && !(exists u :: u in c.updates && Rejects(u, h.id))
  }

  predicate NullStatement(h: Hypothesis) {
    Contains("null", Lower(h.statement)) || Contains("intended", Lower(h.statement))
  }

  lemma {:induction false} AlternativesExactly(hs: seq<Hypothesis>, rejected: seq<string>, nullish: bool, h: Hypothesis)
    ensures h in Alternatives(hs, rejected, nullish) <==>
            h in hs && h.id !in rejected && (h.status == Open || h.status == Supported) && NullStatement(h) == nullish
  {
    if hs != [] {
      FrontLast(hs);
      AlternativesExactly(Front(hs), rejected, nullish, h);
    }
  }

  /** The alternatives a rejection turns to: none missed, and the null explanations in front. */
  lemma AlternativesSortedExactly(c: Closed)
    ensures forall h :: h in AlternativesSorted(c) <==> Alternative(h, c)
    ensures forall i, j :: 0 <= i < j < |AlternativesSorted(c)| && NullStatement(AlternativesSorted(c)[j]) ==>
              NullStatement(AlternativesSorted(c)[i])
  {
    var rejected := RejectedIds(c.plan.hypotheses, c.updates);
    var first, rest := Alternatives(c.plan.hypotheses, rejected, true), Alternatives(c.plan.hypotheses, rejected, false);
    forall h ensures h in AlternativesSorted(c) <==> Alternative(h, c) {
      AlternativesExactly(c.plan.hypotheses, rejected, true, h);
      AlternativesExactly(c.plan.hypotheses, rejected, false, h);
      RejectedMembers(c.plan.hypotheses, c.updates, h.id);
    }
    forall i | 0 <= i < |first| ensures NullStatement(first[i]) {
      AlternativesExactly(c.plan.hypotheses, rejected, true, first[i]);
    }
    forall i | 0 <= i < |rest| ensures !NullStatement(rest[i]) {
      AlternativesExactly(c.plan.hypotheses, rejected, false, rest[i]);
    }
  }

  /**
   After a rejection the loop goes on with the first of maximal merit among the untried experiments of the
   alternatives, and stops when there is none; without alternatives it stops as disproven.
   */
  lemma RejectionFollowsUpBest(s: LoopState, c: Closed, content: Content)
    requires Sane(s) && Minted(c) && c.sufficiency == Cov.Sufficient && c.scopeAllowed
    requires c.stopReason == "hypothesis_disproven" || (!c.accepted && c.finalStatus == "rejected")
    ensures var es := Portfolio(s.designer, AlternativesSorted(c), c.plan.knowledge, content);
            var tried := s.tried + if c.selected != "" then {c.selected} else {};
            && FollowsUpBest(Result(s, c, content), es, AlternativesSorted(c), tried, c.gap, false)
            && (Result(s, c, content).reason == HypothesisDisproven <==> AlternativesSorted(c) == [])
  {
    var t, alternatives, knowledge := Noted(s, c), AlternativesSorted(c), c.plan.knowledge;
    var n, es := AfterPortfolio(s.designer, alternatives, knowledge, content), Portfolio(s.designer, alternatives, knowledge, content);
    PortfolioFromPlan(s.designer, alternatives, knowledge, content);
    CandidatesUsable(n, alternatives, knowledge, es, t.tried);
    PlanHasOneMerit(es, n, alternatives, knowledge, alternatives);
    RootStays(t, c);
    RejectionResultChooses(t, c, content, es);
  }

  lemma RejectionResultChooses(t: LoopState, c: Closed, content: Content, es: seq<Experiment>)
    requires Rooted(t, c).tried == t.tried
    requires es == Portfolio(Rooted(t, c).designer, AlternativesSorted(c), c.plan.knowledge, content)
    requires Usable(Untried(es, t.tried)) && OneMeritPerId(es, AlternativesSorted(c))
    ensures FollowsUpBest(RejectionResult(t, c, content), es, AlternativesSorted(c), t.tried, c.gap, false)
    ensures RejectionResult(t, c, content).reason == HypothesisDisproven <==> AlternativesSorted(c) == []
  {
    var alternatives, candidates := AlternativesSorted(c), Untried(es, t.tried);
    UntriedPool(es, t.tried, c.gap);
    PoolEmpty(candidates, es, t.tried, c.gap, false);
    if candidates != [] {
      assert es != [] && alternatives != [];
      UsablePool(candidates, alternatives);
      var k := Chosen(candidates, es, alternatives, t.tried, c.gap, false);
      assert RejectionResult(t, c, content).next == Some(es[k]);
    }
  }

  /** The branch that a rejection opens: the ids of the alternatives, under the root, before any experiment. */
  lemma RejectionOpensBranch(s: LoopState, c: Closed, content: Content)
    requires Sane(s) && Minted(c) && AlternativesSorted(c) != []
    ensures var n, alternatives := RejectionState(s, c, content), AlternativesSorted(c);
            && |n.branches.branches| == |s.branches.branches| + (if s.root == "" then 2 else 1)
            && var b := Last(n.branches.branches);
               && b.branchId == c.mints.next.id && b.parentBranchId == n.root && b.experimentIds == []
               && |b.hypothesisPath| == |alternatives|
               && (forall i :: 0 <= i < |alternatives| ==> b.hypothesisPath[i] == alternatives[i].id)
  {
    RootStays(s, c);
  }

  /** The root is opened at the first rejection only, on the first five hypotheses, and holds the experiment that ran. */
  lemma RootOpensOnce(s: LoopState, c: Closed)
    requires Sane(s) && Minted(c)
    ensures var n, hs := Rooted(s, c), c.plan.hypotheses;
            && (s.root != "" ==> n.root == s.root && |n.branches.branches| == |s.branches.branches|)
            && (s.root == "" ==>
                  && n.root == c.mints.root.id && |n.branches.branches| == |s.branches.branches| + 1
                  && var b := Last(n.branches.branches);
                     && b.branchId == c.mints.root.id && b.parentBranchId == ""
                     && |b.hypothesisPath| == (if |hs| < 5 then |hs| else 5)
                     && (forall i :: 0 <= i < |b.hypothesisPath| ==> b.hypothesisPath[i] == hs[i].id)
                     && (BR.Find(s.branches.branches, c.mints.root.id).None? ==>
                           b.experimentIds == if c.selected != "" then [c.selected] else []))
  {
    if s.root == "" && BR.Find(s.branches.branches, c.mints.root.id).None? {
      var opened_ := BR.Opened(s.branches, c.mints.root, c.mints.rootEvent,
                               HypothesisIds(c.plan.hypotheses[..Min(5, |c.plan.hypotheses|)]), "", "");
      assert BR.Find(opened_.branches, c.mints.root.id) == Some(|s.branches.branches|) by {
        FrontAppend(s.branches.branches, Last(opened_.branches));
      }
    }
  }

  // ---------------------------------------------------------------- the other paths

  /** The description of the experiment names a segment of the variant's path. */
  predicate Names(e: Experiment, segments: seq<string>) {
    exists p :: p in segments && p != "" && Contains(p, Lower(e.description))
  }

  lemma {:induction false} FirstMentionExactly(es: seq<Experiment>, segments: seq<string>) returns (k: nat)
    ensures FirstMention(es, segments).Some? ==>
              k < |es| && FirstMention(es, segments) == Some(es[k]) && Names(es[k], segments)
              && forall i :: 0 <= i < k ==> !Names(es[i], segments)
    ensures FirstMention(es, segments).None? ==> forall i :: 0 <= i < |es| ==> !Names(es[i], segments)
  {
    k := 0;
    if es != [] {
      k := FirstMentionExactly(Front(es), segments);
      if FirstMention(Front(es), segments).None? { k := |es| - 1; }
    }
  }

  /** The variant that is executed: the first experiment naming a segment, and the head of the list if none does. */
  ghost predicate ExecutesVariant(r: StepResult, es: seq<Experiment>, segments: seq<string>) {
    && r.action == ExecuteVariant
    && exists k: nat :: k < |es| && r.next == Some(es[k]) && (forall i :: 0 <= i < k ==> !Names(es[i], segments))
                   && (Names(es[k], segments) || (k == 0 && forall i :: 0 <= i < |es| ==> !Names(es[i], segments)))
  }

  lemma VariantExecutesFirst(s: LoopState, c: Closed, content: Content)
    requires Sane(s) && c.hasVariants && VariantExperiments(s, c, content) != []
    ensures ExecutesVariant(VariantResult(s, c, content), VariantExperiments(s, c, content), c.segments)
  {
    var es := VariantExperiments(s, c, content);
    VariantsOpen(s, c, content);
    var k := FirstMentionExactly(es, c.segments);
    var at := if FirstMention(es, c.segments).Some? then k else 0;
    assert VariantResult(s, c, content).next == Some(es[at]);
  }

  /** Every other ending of a step, by the fields of the closed loop alone. */
  lemma OtherEndings(s: LoopState, c: Closed, content: Content)
    requires Sane(s)
    ensures var r := Result(s, c, content);
            var t := s.(tried := s.tried + if c.selected != "" then {c.selected} else {});
            && (!c.scopeAllowed ==> r == Plain(Stop, ScopeBlocked, None) && Next(s, c, content) == t)
            && (c.scopeAllowed && c.sufficiency == Cov.Sufficient && c.stopReason != "hypothesis_disproven" ==>
                  && (!c.accepted && c.finalStatus != "rejected" ==>
                        r == Plain(Stop, DefaultStop, None) && Next(s, c, content) == t)
                  && (c.accepted && !c.hasVariants ==>
                        r == Plain(Stop, SufficientEvidence, None) && Next(s, c, content) == t)
                  && (c.accepted && c.hasVariants && c.plan.hypotheses == [] ==> r == Plain(Stop, NoValuableVariants, None))
                  && (c.accepted && c.hasVariants && c.plan.hypotheses != [] ==>
                        ExecutesVariant(r, VariantExperiments(t, c, content), c.segments)))
  {
    if c.accepted && c.hasVariants && c.plan.hypotheses != [] { VariantExecutesFirst(Noted(s, c), c, content); }
  }
}
