/** decisions/jev.py: which experiment to run next. */
module Jev {
  import opened Common
  import opened Research

  datatype Action = Execute | Stop | RequestApproval

  datatype ReasonCode =
    | BudgetExhausted | StopRequested | NoOpenExperiments
    | HighInformationGain | LowCost | LowRisk | HypothesisDiscriminating | BudgetPressure | RiskThreshold

  datatype Decision = Decision(number: nat, action: Action, candidate: string, hypothesisId: string, confidence: real,
                               reasons: seq<ReasonCode>)

  predicate IsOpen(e: Experiment) { e.status == Planned || e.status == Cached }

  function OpenOnes(es: seq<Experiment>): seq<Experiment> {
    if es == [] then [] else OpenOnes(Front(es)) + if IsOpen(Last(es)) then [Last(es)] else []
  }

  /** hyp_conf.get(id, 0.5): the last hypothesis of that id wins. */
  function ConfidenceOf(hs: seq<Hypothesis>, id: string): real {
    if hs == [] then 0.5 else if Last(hs).id == id then Last(hs).confidence else ConfidenceOf(Front(hs), id)
  }

  /** The part of the score that does not depend on the budget. */
  function Merit(e: Experiment, hs: seq<Hypothesis>): real {
    e.informationGain * 0.45 + ConfidenceOf(hs, e.hypothesisId) * 0.25 + (1.0 - e.cost) * 0.15 + (1.0 - e.risk) * 0.15
  }

  function Score(e: Experiment, hs: seq<Hypothesis>, ratio: real): real { Merit(e, hs) * (0.5 + 0.5 * ratio) }

  /** `best` is where Python's max stops: nothing scores more, and everything before it scores less. */
  ghost predicate FirstMaximum(es: seq<Experiment>, hs: seq<Hypothesis>, best: nat) {
    && best < |es|
    && (forall i :: 0 <= i < |es| ==> Merit(es[i], hs) <= Merit(es[best], hs))
    && (forall i :: 0 <= i < best ==> Merit(es[i], hs) < Merit(es[best], hs))
  }

  lemma ScalingIsStrict(x: real, y: real, f: real)
    requires x < y && f > 0.0
    ensures x * f < y * f
  {}

  /** A positive budget scales all scores alike, so it never changes the order. */
  lemma BudgetKeepsOrder(a: Experiment, b: Experiment, hs: seq<Hypothesis>, ratio: real)
    requires ratio > 0.0
    ensures Score(a, hs, ratio) < Score(b, hs, ratio) <==> Merit(a, hs) < Merit(b, hs)
  {
    var x, y, f := Merit(a, hs), Merit(b, hs), 0.5 + 0.5 * ratio;
    if x < y { ScalingIsStrict(x, y, f); } else if y < x { ScalingIsStrict(y, x, f); }
  }

  lemma FirstMaximumUnique(es: seq<Experiment>, hs: seq<Hypothesis>, a: nat, b: nat)
    requires FirstMaximum(es, hs, a) && FirstMaximum(es, hs, b)
    ensures a == b
  {
    assert Merit(es[a], hs) <= Merit(es[b], hs) <= Merit(es[a], hs);
  }

  /** The reason codes for the experiment that was picked, in order. */
  function Reasons(best: Experiment, ratio: real): seq<ReasonCode> {
    When(best.informationGain >= 0.7, HighInformationGain) + When(best.cost <= 0.3, LowCost)
    + When(best.risk <= 0.35, LowRisk) + [HypothesisDiscriminating]
    + When(ratio < 0.3, BudgetPressure) + When(best.risk >= 0.6, RiskThreshold)
  }

  /** What each reason code claims of a decision to go on. */
  predicate Claims(r: ReasonCode, best: Experiment, ratio: real) {
    match r
    case HighInformationGain => best.informationGain >= 0.7
    case LowCost => best.cost <= 0.3
    case LowRisk => best.risk <= 0.35
    case HypothesisDiscriminating => true
    case BudgetPressure => ratio < 0.3
    case RiskThreshold => best.risk >= 0.6
    case _ => false
  }

  lemma ReasonsAreClaims(best: Experiment, ratio: real, r: ReasonCode)
    ensures r in Reasons(best, ratio) <==> Claims(r, best, ratio)
  {
    var a, b, c := When(best.informationGain >= 0.7, HighInformationGain), When(best.cost <= 0.3, LowCost),
                   When(best.risk <= 0.35, LowRisk);
    assert r in a + b + c <==> r in a || r in b || r in c;
  }

  /** The decision names the experiment, asks for approval from risk 0.6 on, and is never surer than 0.95. */
  predicate Decides(d: Decision, best: Experiment, ratio: real) {
    && d.candidate == best.id && d.hypothesisId == best.hypothesisId
    && d.action == (if best.risk >= 0.6 then RequestApproval else Execute)
    && d.confidence <= 0.95 && d.confidence <= 0.5 + best.informationGain * 0.4
    && (d.confidence == 0.95 || d.confidence == 0.5 + best.informationGain * 0.4)
    && d.reasons == Reasons(best, ratio)
  }

  lemma {:induction false} OpenMembers(es: seq<Experiment>, e: Experiment)
    ensures e in OpenOnes(es) <==> e in es && (e.status == Planned || e.status == Cached)
  {
    if es != [] {
      FrontLast(es);
      OpenMembers(Front(es), e);
    }
  }

  /** The confidence that counts is that of the last hypothesis of the id, and one half without any. */
  lemma {:induction false} ConfidenceOfLast(hs: seq<Hypothesis>, id: string, i: nat)
    requires i < |hs| && hs[i].id == id && forall j :: i < j < |hs| ==> hs[j].id != id
    ensures ConfidenceOf(hs, id) == hs[i].confidence
  {
    if i < |hs| - 1 {
      assert hs[|hs| - 1].id != id;
      ConfidenceOfLast(Front(hs), id, i);
    }
  }

  lemma {:induction false} ConfidenceOfNone(hs: seq<Hypothesis>, id: string)
    requires forall i :: 0 <= i < |hs| ==> hs[i].id != id
    ensures ConfidenceOf(hs, id) == 0.5
  {
    if hs != [] {
      assert hs[|hs| - 1].id != id;
      ConfidenceOfNone(Front(hs), id);
    }
  }

  /** What the merit trades: gain for three of cost or risk, and confidence in between; cost and risk alike, both against. */
  lemma MeritTrades(a: Experiment, b: Experiment, hs: seq<Hypothesis>)
    ensures Merit(a, hs) - Merit(b, hs)
            == 0.15 * (3.0 * (a.informationGain - b.informationGain) - (a.cost - b.cost) - (a.risk - b.risk))
               + 0.25 * (ConfidenceOf(hs, a.hypothesisId) - ConfidenceOf(hs, b.hypothesisId))
  {}

  class JEV {
    var counter: nat
    var history: seq<Decision>

    constructor ()
      ensures counter == 0 && history == []
    {
      counter, history := 0, [];
    }

    /**
     Stops only on request, without budget, or without an open experiment; otherwise takes the first
     maximum, which is the same for every positive budget ratio.
     */
    method Choose(es: seq<Experiment>, hs: seq<Hypothesis>, ratio: real, stopRequested: bool := false) returns (d: Decision)
      modifies this
      ensures counter == old(counter) + 1 && d.number == counter && history == old(history) + [d]
      ensures d.action == Stop <==> stopRequested || ratio <= 0.0 || OpenOnes(es) == []
      ensures d.action == Stop ==>
                d.candidate == "" && d.confidence == (if stopRequested || ratio <= 0.0 then 1.0 else 0.9)
                && d.reasons == [if ratio <= 0.0 then BudgetExhausted
                                 else if stopRequested then StopRequested else NoOpenExperiments]
      ensures d.action != Stop ==>
                exists k: nat :: FirstMaximum(OpenOnes(es), hs, k) && Decides(d, OpenOnes(es)[k], ratio)
    {
      counter := counter + 1;
      if stopRequested || ratio <= 0.0 {
        d := Decision(counter, Stop, "", "", 1.0, [if ratio <= 0.0 then BudgetExhausted else StopRequested]);
        history := history + [d];
        return;
      }
      var open := OpenOnes(es);
      if open == [] {
        d := Decision(counter, Stop, "", "", 0.9, [NoOpenExperiments]);
        history := history + [d];
        return;
      }
      var k := ArgMax(open, hs, ratio);
      d := Explain(open[k], ratio, counter);
      history := history + [d];
    }
  }

  /** The reason codes and the action for the experiment that was picked. */
  method Explain(best: Experiment, ratio: real, number: nat) returns (d: Decision)
    ensures d.number == number && Decides(d, best, ratio)
  {
    var reasons := When(best.informationGain >= 0.7, HighInformationGain);
    reasons := reasons + When(best.cost <= 0.3, LowCost);
    reasons := reasons + When(best.risk <= 0.35, LowRisk);
    reasons := reasons + [HypothesisDiscriminating];
    reasons := reasons + When(ratio < 0.3, BudgetPressure);
    var action := if best.risk >= 0.6 then RequestApproval else Execute;
    reasons := reasons + When(best.risk >= 0.6, RiskThreshold);
    var trust := 0.5 + best.informationGain * 0.4;
    d := Decision(number, action, best.id, best.hypothesisId, if trust < 0.95 then trust else 0.95, reasons);
  }

  /** max(open, key=score): a later one replaces the best only if it scores strictly more. */
  method ArgMax(es: seq<Experiment>, hs: seq<Hypothesis>, ratio: real) returns (k: nat)
    requires es != [] && ratio > 0.0
    ensures FirstMaximum(es, hs, k)
  {
    k := 0;
    for i := 1 to |es|
      invariant k < i
      invariant forall j :: 0 <= j < i ==> Merit(es[j], hs) <= Merit(es[k], hs)
      invariant forall j :: 0 <= j < k ==> Merit(es[j], hs) < Merit(es[k], hs)
    {
      BudgetKeepsOrder(es[k], es[i], hs, ratio);
      if Score(es[k], hs, ratio) < Score(es[i], hs, ratio) { k := i; }
    }
  }

  lemma {:induction false} AllOpen(es: seq<Experiment>)
    requires forall i :: 0 <= i < |es| ==> IsOpen(es[i])
    ensures OpenOnes(es) == es
  {
    if es != [] {
      AllOpen(Front(es));
      FrontLast(es);
    }
  }
}

/** experiments/utility.py: explainable ranking of experiments. */
module Utility {
  import opened Common
  import opened Research

  datatype Context = Context(hypotheses: nat, gaps: seq<string>, prior: seq<string>, preconditions: seq<string>)

  datatype Breakdown = Breakdown(experimentId: string, gain: real, debt: real, cost: real, risk: real, penalty: real,
                                 prerequisiteOk: bool, utility: real, eligible: bool)

  /** float(x or default): a zero counts as missing. */
  function OrDefault(x: real, default: real): real { if x == 0.0 then default else x }

  function AtMost(x: real, bound: real): real { if x < bound then x else bound }

  predicate HasRole(steps: seq<ExperimentStep>, r: Role) { exists s :: s in steps && s.role == r }

  /** Up to three hits for one gap. */
  function Hits(required: seq<string>, steps: seq<ExperimentStep>, gap: string): nat {
    var g := Lower(gap);
    (if exists q :: q in required && (Contains(g, Lower(q)) || Contains(Lower(q), g)) then 1 else 0)
    + (if Contains("challenge", g) && HasRole(steps, Challenge) then 1 else 0)
    + if Contains("baseline", g) && HasRole(steps, Baseline) then 1 else 0
  }

  function AllHits(required: seq<string>, steps: seq<ExperimentStep>, gaps: seq<string>): nat {
    if gaps == [] then 0 else AllHits(required, steps, Front(gaps)) + Hits(required, steps, Last(gaps))
  }

  /** Penalized: some prior id is equal to, or contained in, the experiment's id. */
  predicate Penalized(id: string, prior: seq<string>) {
    exists p :: p in prior && (Lower(p) == Lower(id) || (p != "" && Contains(Lower(p), Lower(id))))
  }

  predicate PrerequisitesMet(e: Experiment, available: seq<string>) {
    forall n :: n in e.preconditions ==> exists a :: a in available && (Lower(n) == Lower(a) || Contains(Lower(n), Lower(a)))
  }

  function Gain(e: Experiment, hypotheses: nat): real {
    var g0 := OrDefault(e.informationGain, 0.5);
    var g1 := if e.discriminator != "" then AtMost(g0 + 0.15, 1.0) else g0;
    var g2 := if HasRole(e.steps, Baseline) && HasRole(e.steps, Challenge) then AtMost(g1 + 0.1, 1.0) else g1;
    if hypotheses >= 2 then AtMost(g2 + 0.05, 1.0) else g2
  }

  function Score(e: Experiment, c: Context): Breakdown {
    var gain := Gain(e, c.hypotheses);
    var debt := AtMost(0.5 * AllHits(e.requiredEvidence, e.steps, c.gaps) as real, 1.5);
    var cost, risk := OrDefault(e.cost, 0.3), OrDefault(e.risk, 0.3);
    var penalty := if Penalized(e.id, c.prior) then 3.0 else 0.0;
    var ok := PrerequisitesMet(e, c.preconditions);
    Breakdown(e.id, gain, debt, cost, risk, penalty, ok, gain + debt - cost - risk - penalty, ok && penalty < 3.0)
  }

  /** The experiment's id contains that of an earlier one (or both are empty). */
  predicate Shadowed(id: string, prior: seq<string>) {
    exists p :: p in prior && (if p == "" then id == "" else Contains(Lower(p), Lower(id)))
  }

  lemma ContainsItself(s: string)
    ensures Contains(s, s)
  {
    assert s <= s[0..];
  }

  lemma EmptyLower(s: string)
    ensures Lower(s) == "" <==> s == ""
  {
    assert |Lower(s)| == |s|;
  }

  /** The balance: gain and evidence debt for it, cost, risk and three for a repeated experiment against it. */
  lemma UtilityBalance(e: Experiment, c: Context)
    requires 0.0 <= e.informationGain <= 1.0
    ensures var b, hits := Score(e, c), AllHits(e.requiredEvidence, e.steps, c.gaps);
            var pair := (exists s :: s in e.steps && s.role == Baseline) && (exists s :: s in e.steps && s.role == Challenge);
            var sum := (if e.informationGain == 0.0 then 0.5 else e.informationGain)
                       + (if e.discriminator == "" then 0.0 else 0.15) + (if pair then 0.1 else 0.0)
                       + (if c.hypotheses < 2 then 0.0 else 0.05);
            && b.utility + (b.cost + b.risk + b.penalty) == b.gain + b.debt
            && b.gain == (if sum < 1.0 then sum else 1.0)
            && b.debt == (if hits < 3 then hits as real / 2.0 else 1.5)
            && b.cost == (if e.cost == 0.0 then 0.3 else e.cost) && b.risk == (if e.risk == 0.0 then 0.3 else e.risk)
            && b.penalty == (if Shadowed(e.id, c.prior) then 3.0 else 0.0)
            && b.experimentId == e.id
  {
    ShadowedIsPenalized(e.id, c.prior);
  }

  lemma ShadowedIsPenalized(id: string, prior: seq<string>)
    ensures Shadowed(id, prior) <==> Penalized(id, prior)
  {
    ContainsItself(Lower(id));
    EmptyLower(id);
    forall p: string { EmptyLower(p); }
  }

  /** One gap is hit once by required evidence that overlaps it, once by a challenge and once by a baseline it names. */
  lemma HitsSpelledOut(required: seq<string>, steps: seq<ExperimentStep>, gap: string)
    ensures var overlap := exists q :: q in required && (Contains(Lower(gap), Lower(q)) || Contains(Lower(q), Lower(gap)));
            var challenge := Contains("challenge", Lower(gap)) && exists s :: s in steps && s.role == Challenge;
            var baseline := Contains("baseline", Lower(gap)) && exists s :: s in steps && s.role == Baseline;
            && (Hits(required, steps, gap) == 0 <==> !overlap && !challenge && !baseline)
            && (Hits(required, steps, gap) == 3 <==> overlap && challenge && baseline)
            && (Hits(required, steps, gap) == 1 ==> overlap != (challenge != baseline) && !(overlap && challenge))
            && Hits(required, steps, gap) <= 3
  {}

  /** A further gap never lowers the utility, and raises it by a half for each hit below the cap. */
  lemma GapsHelp(e: Experiment, c: Context, gap: string)
    ensures var more := c.(gaps := c.gaps + [gap]);
            && Score(e, more).utility >= Score(e, c).utility
            && (AllHits(e.requiredEvidence, e.steps, more.gaps) <= 3 ==>
                  Score(e, more).utility == Score(e, c).utility + Hits(e.requiredEvidence, e.steps, gap) as real / 2.0)
  {
    FrontAppend(c.gaps, gap);
  }

  /** Eligible is what repeats nothing and finds each precondition within some available one, in any letter case. */
  lemma EligibleSpelledOut(e: Experiment, c: Context)
    ensures Score(e, c).eligible <==>
            && !Shadowed(e.id, c.prior)
            && (forall n :: n in e.preconditions ==> exists a :: a in c.preconditions && Contains(Lower(n), Lower(a)))
  {
    ShadowedIsPenalized(e.id, c.prior);
    forall n | n in e.preconditions
      ensures (exists a :: a in c.preconditions && (Lower(n) == Lower(a) || Contains(Lower(n), Lower(a)))) <==>
              (exists a :: a in c.preconditions && Contains(Lower(n), Lower(a)))
    {
      ContainsItself(Lower(n));
    }
  }

  method CountHits(e: Experiment, gaps: seq<string>) returns (hits: nat)
    ensures hits == AllHits(e.requiredEvidence, e.steps, gaps)
  {
    hits := 0;
    for i := 0 to |gaps|
      invariant hits == AllHits(e.requiredEvidence, e.steps, gaps[..i])
    {
      FrontTake(gaps, i);
      hits := hits + Hits(e.requiredEvidence, e.steps, gaps[i]);
    }
    assert gaps[..|gaps|] == gaps;
  }

  method ScoreUtility(e: Experiment, c: Context) returns (b: Breakdown)
    ensures b == Score(e, c)
  {
    var gain := OrDefault(e.informationGain, 0.5);
    var cost := OrDefault(e.cost, 0.3);
    var risk := OrDefault(e.risk, 0.3);
    var hits := CountHits(e, c.gaps);
    var debt := AtMost(0.5 * hits as real, 1.5);
    var penalty := 0.0;
    if Penalized(e.id, c.prior) { penalty := 3.0; }
    if e.discriminator != "" { gain := AtMost(gain + 0.15, 1.0); }
    if HasRole(e.steps, Baseline) && HasRole(e.steps, Challenge) { gain := AtMost(gain + 0.1, 1.0); }
    if c.hypotheses >= 2 { gain := AtMost(gain + 0.05, 1.0); }
    var ok := PrerequisitesMet(e, c.preconditions);
    b := Breakdown(e.id, gain, debt, cost, risk, penalty, ok, gain + debt - cost - risk - penalty, ok && penalty < 3.0);
  }

  // ---------------------------------------------------------------- sorting by utility

  function InsertDesc(s: seq<Breakdown>, b: Breakdown): seq<Breakdown> {
    if s == [] || Last(s).utility >= b.utility then s + [b] else InsertDesc(Front(s), b) + [Last(s)]
  }

  /** list.sort(key=utility, reverse=True): descending, equal utilities stay in order. */
  function SortDesc(s: seq<Breakdown>): seq<Breakdown> {
    if s == [] then [] else InsertDesc(SortDesc(Front(s)), Last(s))
  }

  ghost predicate Descending(s: seq<Breakdown>) {
    forall i, j :: 0 <= i < j < |s| ==> s[i].utility >= s[j].utility
  }

  lemma {:induction false} InsertDescFacts(s: seq<Breakdown>, b: Breakdown)
    ensures multiset(InsertDesc(s, b)) == multiset(s) + multiset{b}
    ensures |InsertDesc(s, b)| == |s| + 1
  {
    if !(s == [] || Last(s).utility >= b.utility) {
      InsertDescFacts(Front(s), b);
      FrontLast(s);
    }
  }

  lemma {:induction false} InsertDescBounded(s: seq<Breakdown>, b: Breakdown, bound: real)
    requires b.utility >= bound && forall i :: 0 <= i < |s| ==> s[i].utility >= bound
    ensures forall i :: 0 <= i < |InsertDesc(s, b)| ==> InsertDesc(s, b)[i].utility >= bound
  {
    if !(s == [] || Last(s).utility >= b.utility) { InsertDescBounded(Front(s), b, bound); }
  }

  lemma {:induction false} InsertDescSorted(s: seq<Breakdown>, b: Breakdown)
    requires Descending(s)
    ensures Descending(InsertDesc(s, b))
  {
    if !(s == [] || Last(s).utility >= b.utility) {
      InsertDescSorted(Front(s), b);
      InsertDescBounded(Front(s), b, Last(s).utility);
    }
  }

  /** The head only changes when the newcomer is strictly better. */
  lemma {:induction false} InsertDescHead(s: seq<Breakdown>, b: Breakdown)
    requires s != [] && Descending(s)
    ensures InsertDesc(s, b) != []
    ensures InsertDesc(s, b)[0] == if s[0].utility >= b.utility then s[0] else b
  {
    if !(Last(s).utility >= b.utility) && |s| > 1 {
      InsertDescHead(Front(s), b);
    }
  }

  lemma {:induction false} SortDescFacts(s: seq<Breakdown>)
    ensures Descending(SortDesc(s)) && multiset(SortDesc(s)) == multiset(s) && |SortDesc(s)| == |s|
  {
    if s != [] {
      SortDescFacts(Front(s));
      InsertDescSorted(SortDesc(Front(s)), Last(s));
      InsertDescFacts(SortDesc(Front(s)), Last(s));
      FrontLast(s);
    }
  }

  /** The first of the maxima. */
  ghost predicate FirstBest(s: seq<Breakdown>, k: nat) {
    && k < |s|
    && (forall i :: 0 <= i < |s| ==> s[i].utility <= s[k].utility)
    && (forall i :: 0 <= i < k ==> s[i].utility < s[k].utility)
  }

  function BestIndex(s: seq<Breakdown>): (k: nat)
    requires s != []
    ensures k < |s|
  {
    if |s| == 1 then 0
    else
      var k := BestIndex(Front(s));
      if Last(s).utility > s[k].utility then |s| - 1 else k
  }

  lemma {:induction false} BestIndexIsFirstBest(s: seq<Breakdown>)
    requires s != []
    ensures FirstBest(s, BestIndex(s))
  {
    if |s| > 1 { BestIndexIsFirstBest(Front(s)); }
  }

  /** Sorting puts the first maximum at the head. */
  lemma {:induction false} SortDescHead(s: seq<Breakdown>)
    requires s != []
    ensures SortDesc(s) != [] && SortDesc(s)[0] == s[BestIndex(s)]
  {
    SortDescFacts(Front(s));
    if |s| == 1 {
      assert SortDesc(Front(s)) == [];
    } else {
      SortDescHead(Front(s));
      InsertDescHead(SortDesc(Front(s)), Last(s));
    }
  }

  // ---------------------------------------------------------------- the selection

  function Scores(es: seq<Experiment>, c: Context): (r: seq<Breakdown>)
    ensures |r| == |es|
  {
    seq(|es|, i requires 0 <= i < |es| => Score(es[i], c))
  }

  ghost predicate DistinctIds(es: seq<Experiment>) {
    forall i, j :: 0 <= i < j < |es| ==> es[i].id != es[j].id
  }

  ghost predicate AnyEligible(es: seq<Experiment>, c: Context) {
    exists i :: 0 <= i < |es| && Score(es[i], c).eligible
  }

  /** The experiment competes: everyone does when nobody is eligible. */
  ghost predicate Competes(es: seq<Experiment>, c: Context, i: nat)
    requires i < |es|
  {
    AnyEligible(es, c) ==> Score(es[i], c).eligible
  }

  /** No competitor has more utility, and no earlier one as much. */
  ghost predicate Wins(es: seq<Experiment>, c: Context, k: nat) {
    && k < |es| && Competes(es, c, k)
    && (forall i :: 0 <= i < |es| && Competes(es, c, i) ==> Score(es[i], c).utility <= Score(es[k], c).utility)
    && (forall i :: 0 <= i < k && Competes(es, c, i) ==> Score(es[i], c).utility < Score(es[k], c).utility)
  }

  method SelectByUtility(es: seq<Experiment>, c: Context) returns (best: Option<Experiment>, scored: seq<Breakdown>)
    ensures es == [] <==> best == None
    ensures multiset(scored) == multiset(Scores(es, c)) && Descending(scored)
    ensures best.Some? ==> best.value in es && exists k: nat :: Wins(es, c, k) && best.value.id == es[k].id
    ensures best.Some? && DistinctIds(es) ==> exists k: nat :: Wins(es, c, k) && best.value == es[k]
  {
    if es == [] { return None, []; }
    scored := [];
    for i := 0 to |es|
      invariant |scored| == i && forall k :: 0 <= k < i ==> scored[k] == Score(es[k], c)
    {
      var b := ScoreUtility(es[i], c);
      scored := scored + [b];
    }
    assert scored == Scores(es, c);
    var pool, from := EligiblePool(es, c, scored);
    ghost var w := from[BestIndex(pool)];
    BestIndexIsFirstBest(pool);
    WinnerOfPool(es, c, scored, pool, from, BestIndex(pool));
    SortDescHead(pool);
    pool := SortDesc(pool);
    best := FindById(es, pool[0].experimentId, w);
    SortDescFacts(scored);
    scored := SortDesc(scored);
  }

  method EligibleOf(scored: seq<Breakdown>) returns (pool: seq<Breakdown>, ghost from: seq<nat>)
    ensures Picks(scored, pool, from)
    ensures forall k :: 0 <= k < |from| ==> scored[from[k]].eligible
    ensures forall k :: 0 <= k < |scored| && scored[k].eligible ==> k in from
  {
    pool, from := [], [];
    for i := 0 to |scored|
      invariant Picks(scored, pool, from) && (forall k :: 0 <= k < |from| ==> from[k] < i)
      invariant forall k :: 0 <= k < |from| ==> scored[from[k]].eligible
      invariant forall k :: 0 <= k < i && scored[k].eligible ==> k in from
    {
      if scored[i].eligible { pool, from := pool + [scored[i]], from + [i]; }
    }
  }

  /** The eligible scores, or all of them, to be able to show a ranking, when there is none. */
  method EligiblePool(es: seq<Experiment>, c: Context, scored: seq<Breakdown>)
      returns (pool: seq<Breakdown>, ghost from: seq<nat>)
    requires es != [] && scored == Scores(es, c)
    ensures pool != [] && Picks(scored, pool, from)
    ensures forall i :: 0 <= i < |es| ==> (i in from <==> Competes(es, c, i))
  {
    pool, from := EligibleOf(scored);
    if pool == [] {
      NobodyEligible(es, c, scored);
      pool, from := scored, seq(|scored|, i => i);
      forall i | 0 <= i < |es| ensures i in from { assert from[i] == i; }
    } else {
      EligibleCompete(es, c, scored, from);
    }
  }

  lemma NobodyEligible(es: seq<Experiment>, c: Context, scored: seq<Breakdown>)
    requires scored == Scores(es, c) && forall k :: 0 <= k < |scored| ==> !scored[k].eligible
    ensures forall i :: 0 <= i < |es| ==> Competes(es, c, i)
  {
    assert forall i :: 0 <= i < |es| ==> scored[i] == Score(es[i], c);
  }

  lemma EligibleCompete(es: seq<Experiment>, c: Context, scored: seq<Breakdown>, from: seq<nat>)
    requires scored == Scores(es, c) && from != []
    requires forall k :: 0 <= k < |from| ==> from[k] < |scored| && scored[from[k]].eligible
    requires forall k :: 0 <= k < |scored| && scored[k].eligible ==> k in from
    ensures forall i :: 0 <= i < |es| ==> (i in from <==> Competes(es, c, i))
  {
    assert Score(es[from[0]], c).eligible;
    assert AnyEligible(es, c);
    forall i | 0 <= i < |es| ensures i in from <==> Score(es[i], c).eligible {
      assert scored[i] == Score(es[i], c);
    }
  }

  /** `pool` is the scores at ascending positions. */
  ghost predicate Picks(scored: seq<Breakdown>, pool: seq<Breakdown>, from: seq<nat>) {
    && |pool| == |from|
    && (forall k :: 0 <= k < |from| ==> from[k] < |scored| && pool[k] == scored[from[k]])
    && (forall j, k :: 0 <= j < k < |from| ==> from[j] < from[k])
  }

  lemma WinnerOfPool(es: seq<Experiment>, c: Context, scored: seq<Breakdown>, pool: seq<Breakdown>, from: seq<nat>, k: nat)
    requires scored == Scores(es, c) && Picks(scored, pool, from) && FirstBest(pool, k)
    requires forall i :: 0 <= i < |es| ==> (i in from <==> Competes(es, c, i))
    ensures Wins(es, c, from[k])
  {
    var w := from[k];
    assert w in from;
    forall i | 0 <= i < |es| && Competes(es, c, i)
      ensures Score(es[i], c).utility <= Score(es[w], c).utility
      ensures i < w ==> Score(es[i], c).utility < Score(es[w], c).utility
    {
      assert i in from;
      var j :| 0 <= j < |from| && from[j] == i;
      assert pool[j] == Score(es[i], c) && pool[k] == Score(es[w], c);
    }
  }

  /** next(e for e in experiments if e.experiment_id == id). */
  method FindById(es: seq<Experiment>, id: string, ghost w: nat) returns (r: Option<Experiment>)
    requires w < |es| && es[w].id == id
    ensures r.Some? && r.value in es && r.value.id == id
    ensures DistinctIds(es) ==> r.value == es[w]
  {
    for i := 0 to |es|
      invariant forall k :: 0 <= k < i ==> es[k].id != id
    {
      if es[i].id == id { return Some(es[i]); }
    }
    assert false;
    r := None;
  }

  // ---------------------------------------------------------------- two surprises of the formula

  /** Lowering a cost never hurts, unless it is lowered to zero: zero reads as missing and counts as 0.3. */
  lemma CheaperIsBetterUnlessFree(e: Experiment, c: Context, low: real, high: real)
    requires 0.0 <= low < high
    ensures Score(e.(cost := low), c).utility >= Score(e.(cost := high), c).utility <==> low != 0.0 || high >= 0.3
  {}

  /** An experiment that never ran is penalized exactly when the id of one that did is contained in its own. */
  lemma PenaltyWithoutRunning(id: string, prior: seq<string>)
    requires forall p :: p in prior ==> Lower(p) != Lower(id)
    ensures Penalized(id, prior) <==> exists p :: p in prior && p != "" && Contains(Lower(p), Lower(id))
  {}

  /** So exp_10 falls out of the race once exp_1 was tried. */
  lemma TenIsPenalizedForOne()
    ensures "exp_10" != "exp_1" && Penalized("exp_10", ["exp_1"])
  {
    assert Lower("exp_1") == "exp_1" && Lower("exp_10") == "exp_10";
    assert "exp_1" <= "exp_10"[0..];
    assert Contains("exp_1", "exp_10");
    assert "exp_1" in ["exp_1"];
  }
}
