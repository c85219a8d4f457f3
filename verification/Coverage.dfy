/** The research objects of schemas/research.py that planning works on. */
module Research {
  datatype Role = Baseline | Challenge | Compare | Observe

  datatype ExperimentStep = ExperimentStep(stepId: string, role: Role, text: string)

  datatype ExperimentStatus = Planned | Running | Completed | Cached | Aborted

  datatype Experiment = Experiment(
    id: string, hypothesisId: string, status: ExperimentStatus, informationGain: real, cost: real, risk: real,
    description: string, discriminator: string, requiredEvidence: seq<string>, preconditions: seq<string>,
    steps: seq<ExperimentStep>)

  datatype HypothesisStatus = Open | Testing | Supported | Rejected | Superseded

  datatype Hypothesis = Hypothesis(id: string, statement: string, confidence: real, status: HypothesisStatus)
}

/** orchestrator/experiment_alignment.py: which steps of an experiment the observations cover. */
module Coverage {
  import opened Common
  import opened Research

  /** An observation of a scenario; `role` is its free-text role, empty when unset. */
  datatype Observation = Observation(role: string, identity: string, verb: string, path: string, status: int, body: string)

  datatype CoverStatus = Covered | Missing | Ambiguous

  datatype StepCoverage = StepCoverage(stepId: string, role: Role, status: CoverStatus, refs: seq<Observation>, text: string)

  datatype Sufficiency = Sufficient | Insufficient | AmbiguousCoverage

  datatype CoverageGap = CoverageGap(prior: string, missingSteps: seq<string>, ambiguousSteps: seq<string>,
                                     missingRoles: seq<Role>, ambiguousRoles: seq<Role>)

  /** Observations whose role, in lower case, is the given name. */
  function WithRole(obs: seq<Observation>, name: string): seq<Observation> {
    if obs == [] then [] else WithRole(Front(obs), name) + if Lower(Last(obs).role) == name then [Last(obs)] else []
  }

  function Baselines(obs: seq<Observation>): seq<Observation> { WithRole(obs, "baseline") }

  function Challenges(obs: seq<Observation>): seq<Observation> { WithRole(obs, "challenge") }

  /** What a step of the role needs: one observation of its own kind, or one of each for a comparison. */
  predicate Resolved(role: Role, obs: seq<Observation>) {
    match role
    case Baseline => |Baselines(obs)| == 1
    case Challenge => |Challenges(obs)| == 1
    case Compare => |Baselines(obs)| == 1 && |Challenges(obs)| == 1
    case Observe => obs != []
  }

  /** Nothing at all to resolve it with. */
  predicate Unseen(role: Role, obs: seq<Observation>) {
    match role
    case Baseline => Baselines(obs) == []
    case Challenge => Challenges(obs) == []
    case Compare => Baselines(obs) == [] && Challenges(obs) == []
    case Observe => obs == []
  }

  function Evidence(role: Role, obs: seq<Observation>): seq<Observation> {
    match role
    case Baseline => Baselines(obs)
    case Challenge => Challenges(obs)
    case Compare => Baselines(obs) + Challenges(obs)
    case Observe => obs
  }

  function CoverStep(step: ExperimentStep, obs: seq<Observation>): StepCoverage {
    StepCoverage(step.stepId, step.role,
                 if Resolved(step.role, obs) then Covered else if Unseen(step.role, obs) then Missing else Ambiguous,
                 Evidence(step.role, obs), step.text)
  }

  /** Observation i, and no other, has the role in any letter case. */
  predicate OnlyOne(obs: seq<Observation>, name: string, i: nat) {
    i < |obs| && Lower(obs[i].role) == name && forall j :: 0 <= j < |obs| && j != i ==> Lower(obs[j].role) != name
  }

  predicate Absent(obs: seq<Observation>, name: string) { forall j :: 0 <= j < |obs| ==> Lower(obs[j].role) != name }

  lemma {:induction false} NoneWithRole(obs: seq<Observation>, name: string)
    ensures WithRole(obs, name) == [] <==> Absent(obs, name)
  {
    if obs != [] {
      NoneWithRole(Front(obs), name);
      FrontLast(obs);
    }
  }

  lemma {:induction false} OneWithRole(obs: seq<Observation>, name: string)
    ensures |WithRole(obs, name)| == 1 <==> exists i: nat :: OnlyOne(obs, name, i)
  {
    if obs != [] {
      var f := Front(obs);
      FrontLast(obs);
      OneWithRole(f, name);
      NoneWithRole(f, name);
      if Lower(Last(obs).role) == name {
        LastIsOnlyOne(obs, name);
      } else {
        forall i: nat ensures OnlyOne(obs, name, i) <==> OnlyOne(f, name, i) { OnlyOneInFront(obs, name, i); }
      }
    }
  }

  lemma LastIsOnlyOne(obs: seq<Observation>, name: string)
    requires obs != [] && Lower(Last(obs).role) == name
    ensures (exists i: nat :: OnlyOne(obs, name, i)) <==> Absent(Front(obs), name)
  {
    var f := Front(obs);
    if Absent(f, name) {
      forall j | 0 <= j < |obs| && j != |f| ensures Lower(obs[j].role) != name { assert f[j] == obs[j]; }
      assert OnlyOne(obs, name, |f|);
    }
    if i: nat :| OnlyOne(obs, name, i) {
      assert i == |f|;
      forall j | 0 <= j < |f| ensures Lower(f[j].role) != name { assert f[j] == obs[j]; }
    }
  }

  lemma OnlyOneInFront(obs: seq<Observation>, name: string, i: nat)
    requires obs != [] && Lower(Last(obs).role) != name
    ensures OnlyOne(obs, name, i) <==> OnlyOne(Front(obs), name, i)
  {
    var f := Front(obs);
    if OnlyOne(f, name, i) {
      forall j | 0 <= j < |obs| && j != i ensures Lower(obs[j].role) != name {
        if j < |f| { assert f[j] == obs[j]; }
      }
    }
    if OnlyOne(obs, name, i) {
      assert i < |f|;
      forall j | 0 <= j < |f| && j != i ensures Lower(f[j].role) != name { assert f[j] == obs[j]; }
    }
  }

  lemma {:induction false} WithRoleMembers(obs: seq<Observation>, name: string, o: Observation)
    ensures o in WithRole(obs, name) <==> o in obs && Lower(o.role) == name
  {
    if obs != [] {
      FrontLast(obs);
      WithRoleMembers(Front(obs), name, o);
    }
  }

  /** The observations that a step refers to: those of its own role, of both for a comparison, all for observing. */
  lemma StepRefs(step: ExperimentStep, obs: seq<Observation>, o: Observation)
    ensures o in CoverStep(step, obs).refs <==>
            o in obs
            && match step.role
               case Baseline => Lower(o.role) == "baseline"
               case Challenge => Lower(o.role) == "challenge"
               case Compare => Lower(o.role) == "baseline" || Lower(o.role) == "challenge"
               case Observe => true
  {
    WithRoleMembers(obs, "baseline", o);
    WithRoleMembers(obs, "challenge", o);
  }

  /** The head of a role's observations is the first one of that role. */
  lemma {:induction false} HeadWithRole(obs: seq<Observation>, name: string) returns (i: nat)
    requires WithRole(obs, name) != []
    ensures i < |obs| && WithRole(obs, name)[0] == obs[i] && Lower(obs[i].role) == name
    ensures forall j :: 0 <= j < i ==> Lower(obs[j].role) != name
  {
    var f := Front(obs);
    FrontLast(obs);
    if WithRole(f, name) == [] {
      NoneWithRole(f, name);
      i := |f|;
      forall j | 0 <= j < i ensures Lower(obs[j].role) != name { assert f[j] == obs[j]; }
    } else {
      i := HeadWithRole(f, name);
      forall j | 0 <= j < i ensures Lower(obs[j].role) != name { assert f[j] == obs[j]; }
    }
  }

  /** The three statuses of a step, by the roles of the observations alone; a comparison needs one of each kind. */
  lemma StepStatus(step: ExperimentStep, obs: seq<Observation>)
    ensures CoverStep(step, obs).status == Covered <==>
            match step.role
            case Baseline => exists i: nat :: OnlyOne(obs, "baseline", i)
            case Challenge => exists i: nat :: OnlyOne(obs, "challenge", i)
            case Compare => (exists i: nat :: OnlyOne(obs, "baseline", i)) && (exists i: nat :: OnlyOne(obs, "challenge", i))
            case Observe => |obs| > 0
    ensures CoverStep(step, obs).status == Missing <==>
            match step.role
            case Baseline => Absent(obs, "baseline")
            case Challenge => Absent(obs, "challenge")
            case Compare => Absent(obs, "baseline") && Absent(obs, "challenge")
            case Observe => |obs| == 0
    ensures CoverStep(step, obs).stepId == step.stepId && CoverStep(step, obs).role == step.role
    ensures CoverStep(step, obs).text == step.text
  {
    OneWithRole(obs, "baseline");
    OneWithRole(obs, "challenge");
    NoneWithRole(obs, "baseline");
    NoneWithRole(obs, "challenge");
  }

  function CoverAll(steps: seq<ExperimentStep>, obs: seq<Observation>): (c: seq<StepCoverage>)
    ensures |c| == |steps|
  {
    seq(|steps|, i requires 0 <= i < |steps| => CoverStep(steps[i], obs))
  }

  /** The grouping dictionary of cover_steps; observations without a role are left out. */
  method GroupByRole(obs: seq<Observation>) returns (byRole: map<string, seq<Observation>>)
    ensures forall name :: name in byRole ==> byRole[name] == WithRole(obs, name)
    ensures forall name :: name != "" && name !in byRole ==> WithRole(obs, name) == []
  {
    byRole := map[];
    for i := 0 to |obs|
      invariant "" !in byRole
      invariant forall name :: name in byRole ==> byRole[name] == WithRole(obs[..i], name)
      invariant forall name :: name != "" && name !in byRole ==> WithRole(obs[..i], name) == []
    {
      FrontTake(obs, i);
      var role := Lower(obs[i].role);
      assert forall name :: name != role ==> WithRole(obs[..i + 1], name) == WithRole(obs[..i], name);
      assert WithRole(obs[..i + 1], role) == WithRole(obs[..i], role) + [obs[i]];
      if role != "" {
        var group := if role in byRole then byRole[role] else [];
        byRole := byRole[role := group + [obs[i]]];
      }
    }
    assert obs[..|obs|] == obs;
  }

  method MatchStep(step: ExperimentStep, obs: seq<Observation>, b: seq<Observation>, c: seq<Observation>)
      returns (r: StepCoverage)
    requires b == Baselines(obs) && c == Challenges(obs)
    ensures r == CoverStep(step, obs)
  {
    var refs: seq<Observation>, status := [], Missing;
    match step.role {
      case Compare =>
        if |b| == 1 && |c| == 1 {
          status, refs := Covered, [b[0]] + [c[0]];
        } else if b != [] || c != [] {
          status, refs := Ambiguous, b + c;
        }
      case Observe =>
        if obs != [] { status, refs := Covered, obs; }
      case role =>
        var matched := if role == Baseline then b else c;
        if |matched| == 1 {
          status, refs := Covered, [matched[0]];
        } else if |matched| > 1 {
          status, refs := Ambiguous, matched;
        }
    }
    assert |b| == 1 ==> [b[0]] == b;
    assert |c| == 1 ==> [c[0]] == c;
    r := StepCoverage(step.stepId, step.role, status, refs, step.text);
  }

  method CoverSteps(experiment: Option<Experiment>, obs: seq<Observation>) returns (out: seq<StepCoverage>)
    ensures out == if experiment.Some? then CoverAll(experiment.value.steps, obs) else []
  {
    if experiment.None? || experiment.value.steps == [] { return []; }
    var byRole := GroupByRole(obs);
    var b := if "baseline" in byRole then byRole["baseline"] else [];
    var c := if "challenge" in byRole then byRole["challenge"] else [];
    var steps := experiment.value.steps;
    out := [];
    for i := 0 to |steps|
      invariant |out| == i && forall k :: 0 <= k < i ==> out[k] == CoverStep(steps[k], obs)
    {
      var r := MatchStep(steps[i], obs, b, c);
      out := out + [r];
    }
  }

  predicate Mandatory(role: Role) { role != Observe }

  /** compute_experiment_sufficiency: missing dominates ambiguous; steps that only observe do not count. */
  method ComputeSufficiency(experiment: Option<Experiment>, coverage: seq<StepCoverage>) returns (s: Sufficiency)
    ensures experiment.None? || experiment.value.steps == [] ==> s == Sufficient
    ensures experiment.Some? && experiment.value.steps != [] ==> s == SufficiencyOf(coverage)
  {
    if experiment.None? || experiment.value.steps == [] { return Sufficient; }
    var statuses: seq<CoverStatus> := [];
    ghost var from: seq<nat> := [];
    for i := 0 to |coverage|
      invariant |from| == |statuses|
      invariant forall k :: 0 <= k < |from| ==>
                  from[k] < i && Mandatory(coverage[from[k]].role) && coverage[from[k]].status == statuses[k]
      invariant forall k :: 0 <= k < i && Mandatory(coverage[k].role) ==> coverage[k].status in statuses
    {
      if Mandatory(coverage[i].role) { statuses, from := statuses + [coverage[i].status], from + [i]; }
    }
    if statuses == [] { return Sufficient; }
    if exists x :: x in statuses && x == Missing { return Insufficient; }
    if exists x :: x in statuses && x == Ambiguous { return AmbiguousCoverage; }
    return Sufficient;
  }

  predicate AnyWith(coverage: seq<StepCoverage>, status: CoverStatus) {
    exists i :: 0 <= i < |coverage| && Mandatory(coverage[i].role) && coverage[i].status == status
  }

  function SufficiencyOf(coverage: seq<StepCoverage>): Sufficiency {
    if AnyWith(coverage, Missing) then Insufficient else if AnyWith(coverage, Ambiguous) then AmbiguousCoverage else Sufficient
  }

  /** What the three answers say about the observations: each mandatory step has its unique match, or which one has none. */
  lemma SufficiencyMeans(steps: seq<ExperimentStep>, obs: seq<Observation>)
    ensures SufficiencyOf(CoverAll(steps, obs)) == Sufficient <==>
            forall s :: s in steps && Mandatory(s.role) ==> Resolved(s.role, obs)
    ensures SufficiencyOf(CoverAll(steps, obs)) == Insufficient <==>
            exists s :: s in steps && Mandatory(s.role) && Unseen(s.role, obs)
  {
    var c := CoverAll(steps, obs);
    if SufficiencyOf(c) == Sufficient {
      forall s | s in steps && Mandatory(s.role) ensures Resolved(s.role, obs) {
        var i :| 0 <= i < |steps| && steps[i] == s;
        assert c[i].status != Missing && c[i].status != Ambiguous;
      }
    } else {
      var bad := if AnyWith(c, Missing) then Missing else Ambiguous;
      var i :| 0 <= i < |c| && Mandatory(c[i].role) && c[i].status == bad;
      assert steps[i] in steps && !Resolved(steps[i].role, obs);
    }
    if s :| s in steps && Mandatory(s.role) && Unseen(s.role, obs) {
      var i :| 0 <= i < |steps| && steps[i] == s;
      assert c[i].status == Missing;
    }
  }

  // ---------------------------------------------------------------- the gap

  /** Append unless present, as the role lists are built. */
  function AddOnce(roles: seq<Role>, r: Role): seq<Role> { if r in roles then roles else roles + [r] }

  function RolesWith(coverage: seq<StepCoverage>, status: CoverStatus): seq<Role> {
    if coverage == [] then []
    else if Last(coverage).status == status then AddOnce(RolesWith(Front(coverage), status), Last(coverage).role)
    else RolesWith(Front(coverage), status)
  }

  function StepsWith(coverage: seq<StepCoverage>, status: CoverStatus): seq<string> {
    if coverage == [] then []
    else StepsWith(Front(coverage), status)
         + if Last(coverage).status == status && Last(coverage).stepId != "" then [Last(coverage).stepId] else []
  }

  method DeriveGap(coverage: seq<StepCoverage>, prior: string) returns (gap: CoverageGap)
    ensures gap == CoverageGap(prior, StepsWith(coverage, Missing), StepsWith(coverage, Ambiguous),
                               RolesWith(coverage, Missing), RolesWith(coverage, Ambiguous))
  {
    gap := CoverageGap(prior, [], [], [], []);
    for i := 0 to |coverage|
      invariant gap == CoverageGap(prior, StepsWith(coverage[..i], Missing), StepsWith(coverage[..i], Ambiguous),
                                   RolesWith(coverage[..i], Missing), RolesWith(coverage[..i], Ambiguous))
    {
      FrontTake(coverage, i);
      var c := coverage[i];
      if c.status == Missing {
        if c.stepId != "" { gap := gap.(missingSteps := gap.missingSteps + [c.stepId]); }
        if c.role !in gap.missingRoles { gap := gap.(missingRoles := gap.missingRoles + [c.role]); }
      } else if c.status == Ambiguous {
        if c.stepId != "" { gap := gap.(ambiguousSteps := gap.ambiguousSteps + [c.stepId]); }
        if c.role !in gap.ambiguousRoles { gap := gap.(ambiguousRoles := gap.ambiguousRoles + [c.role]); }
      }
    }
    assert coverage[..|coverage|] == coverage;
  }

  lemma {:induction false} StepsMembers(coverage: seq<StepCoverage>, status: CoverStatus, id: string)
    ensures id in StepsWith(coverage, status) <==>
            id != "" && exists c :: c in coverage && c.status == status && c.stepId == id
  {
    if coverage != [] {
      FrontLast(coverage);
      StepsMembers(Front(coverage), status, id);
      assert forall c :: c in coverage <==> c in Front(coverage) || c == Last(coverage);
    }
  }

  /** Missing roles first, then ambiguous ones, each once. */
  function TargetsOf(roles: seq<Role>): seq<Role> {
    if roles == [] then [] else AddOnce(TargetsOf(Front(roles)), Last(roles))
  }

  function TargetRoles(gap: CoverageGap): seq<Role> { TargetsOf(gap.missingRoles + gap.ambiguousRoles) }

  /** The property's loop: every role once, in order of first appearance. */
  method ListTargetRoles(gap: CoverageGap) returns (out: seq<Role>)
    ensures out == TargetRoles(gap)
    ensures forall r :: r in out <==> r in gap.missingRoles || r in gap.ambiguousRoles
    ensures NoDup(out)
  {
    var roles := gap.missingRoles + gap.ambiguousRoles;
    out := [];
    for i := 0 to |roles|
      invariant out == TargetsOf(roles[..i]) && NoDup(out)
      invariant forall r :: r in out <==> r in roles[..i]
    {
      FrontTake(roles, i);
      assert roles[..i + 1] == roles[..i] + [roles[i]];
      if roles[i] !in out { out := out + [roles[i]]; }
    }
    assert roles[..|roles|] == roles;
  }

  predicate Addresses(e: Experiment, gap: CoverageGap) {
    exists s :: s in e.steps && s.role in TargetRoles(gap)
  }

  lemma {:induction false} TargetsMembers(roles: seq<Role>, r: Role)
    ensures r in TargetsOf(roles) <==> r in roles
  {
    if roles != [] {
      TargetsMembers(Front(roles), r);
      FrontLast(roles);
    }
  }

  lemma {:induction false} RolesMembers(coverage: seq<StepCoverage>, status: CoverStatus, r: Role)
    ensures r in RolesWith(coverage, status) <==> exists c :: c in coverage && c.status == status && c.role == r
  {
    if coverage != [] {
      RolesMembers(Front(coverage), status, r);
      FrontLast(coverage);
      assert forall c :: c in coverage <==> c in Front(coverage) || c == Last(coverage);
    }
  }

  /** The target roles of a derived gap are exactly the roles of the steps that are not covered. */
  lemma GapTargets(steps: seq<ExperimentStep>, obs: seq<Observation>, gap: CoverageGap, r: Role)
    requires gap.missingRoles == RolesWith(CoverAll(steps, obs), Missing)
    requires gap.ambiguousRoles == RolesWith(CoverAll(steps, obs), Ambiguous)
    ensures r in TargetRoles(gap) <==> (exists s :: s in steps && s.role == r) && !Resolved(r, obs)
  {
    var c := CoverAll(steps, obs);
    TargetsMembers(gap.missingRoles + gap.ambiguousRoles, r);
    RolesMembers(c, Missing, r);
    RolesMembers(c, Ambiguous, r);
    if s :| s in steps && s.role == r {
      var i :| 0 <= i < |steps| && steps[i] == s;
      assert c[i] in c && c[i].role == r;
    }
    if x :| x in c && x.role == r {
      var i :| 0 <= i < |c| && c[i] == x;
      assert steps[i] in steps;
    }
  }

  /**
   An experiment always addresses its own gap when there is one: whenever its coverage is not sufficient the
   gap has a target role, and one of its own steps has that role.
   */
  lemma OwnGapAddressed(e: Experiment, obs: seq<Observation>, gap: CoverageGap)
    requires gap.missingRoles == RolesWith(CoverAll(e.steps, obs), Missing)
    requires gap.ambiguousRoles == RolesWith(CoverAll(e.steps, obs), Ambiguous)
    ensures Addresses(e, gap) <==> TargetRoles(gap) != []
    ensures SufficiencyOf(CoverAll(e.steps, obs)) != Sufficient ==> Addresses(e, gap)
  {
    forall r ensures r in TargetRoles(gap) <==> (exists s :: s in e.steps && s.role == r) && !Resolved(r, obs) {
      GapTargets(e.steps, obs, gap, r);
    }
    SufficiencyMeans(e.steps, obs);
    if TargetRoles(gap) != [] { assert TargetRoles(gap)[0] in TargetRoles(gap); }
  }

  // ---------------------------------------------------------------- the candidate split

  function Covering(candidates: seq<Experiment>, gap: CoverageGap, yes: bool): seq<Experiment> {
    if candidates == [] then []
    else Covering(Front(candidates), gap, yes) + if Addresses(Last(candidates), gap) == yes then [Last(candidates)] else []
  }

  method PreferCovering(candidates: seq<Experiment>, gap: CoverageGap)
      returns (covering: seq<Experiment>, other: seq<Experiment>)
    ensures covering == Covering(candidates, gap, true) && other == Covering(candidates, gap, false)
  {
    covering, other := [], [];
    for i := 0 to |candidates|
      invariant covering == Covering(candidates[..i], gap, true) && other == Covering(candidates[..i], gap, false)
    {
      FrontTake(candidates, i);
      assert covering + [] == covering && other + [] == other;
      if Addresses(candidates[i], gap) {
        covering := covering + [candidates[i]];
      } else {
        other := other + [candidates[i]];
      }
    }
    assert candidates[..|candidates|] == candidates;
  }

  /** The half that takes `x` grows by it, the other one stays. */
  lemma PartitionGrows<T>(yes: seq<T>, no: seq<T>, all: seq<T>, x: T)
    requires multiset(yes) + multiset(no) == multiset(all)
    ensures multiset(yes + [x]) + multiset(no) == multiset(all + [x]) == multiset(yes) + multiset(no + [x])
  {}

  lemma CoveringUnfolds(f: seq<Experiment>, e: Experiment, gap: CoverageGap, yes: bool)
    ensures Covering(f + [e], gap, yes) == if Addresses(e, gap) == yes then Covering(f, gap, yes) + [e] else Covering(f, gap, yes)
  {
    FrontAppend(f, e);
  }

  /** Nothing lost or repeated. */
  lemma {:induction false} SplitIsPartition(candidates: seq<Experiment>, gap: CoverageGap)
    ensures multiset(Covering(candidates, gap, true)) + multiset(Covering(candidates, gap, false)) == multiset(candidates)
  {
    if candidates != [] {
      var f, e := Front(candidates), Last(candidates);
      FrontLast(candidates);
      SplitIsPartition(f, gap);
      CoveringUnfolds(f, e, gap, true);
      CoveringUnfolds(f, e, gap, false);
      PartitionGrows(Covering(f, gap, true), Covering(f, gap, false), f, e);
    }
  }

  /** The positions that a half of the split takes its experiments from. */
  function Positions(candidates: seq<Experiment>, gap: CoverageGap, yes: bool): seq<nat> {
    if candidates == [] then []
    else Positions(Front(candidates), gap, yes) + if Addresses(Last(candidates), gap) == yes then [|candidates| - 1] else []
  }

  /** Each half keeps the order of the candidates: it is the candidates at ascending positions. */
  lemma {:induction false} SplitIsStable(candidates: seq<Experiment>, gap: CoverageGap, yes: bool)
    ensures var half, from := Covering(candidates, gap, yes), Positions(candidates, gap, yes);
            && |from| == |half|
            && (forall k :: 0 <= k < |from| ==> from[k] < |candidates| && half[k] == candidates[from[k]])
            && (forall k :: 0 <= k < |half| ==> Addresses(half[k], gap) == yes)
            && (forall j, k :: 0 <= j < k < |from| ==> from[j] < from[k])
  {
    if candidates != [] { SplitIsStable(Front(candidates), gap, yes); }
  }

  // ---------------------------------------------------------------- the explicit pair

  method BaselineChallengePair(obs: seq<Observation>) returns (b: Option<Observation>, c: Option<Observation>)
    ensures b == if Baselines(obs) == [] then None else Some(Baselines(obs)[0])
    ensures c == if Challenges(obs) == [] then None else Some(Challenges(obs)[0])
  {
    b, c := None, None;
    for i := 0 to |obs|
      invariant b == if Baselines(obs[..i]) == [] then None else Some(Baselines(obs[..i])[0])
      invariant c == if Challenges(obs[..i]) == [] then None else Some(Challenges(obs[..i])[0])
    {
      FrontTake(obs, i);
      var role := Lower(obs[i].role);
      assert "baseline"[0] != "challenge"[0];
      if role == "baseline" && b == None {
        b := Some(obs[i]);
      } else if role == "challenge" && c == None {
        c := Some(obs[i]);
      }
    }
    assert obs[..|obs|] == obs;
  }
}
