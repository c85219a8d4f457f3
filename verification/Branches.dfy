/** research/branch.py: research branches, backtracking and the lineage of events. */
module Branches {
  import opened Common
  import FP = Fingerprint

  /** An id and a clock text, as uuid4 and _ts would supply them. */
  datatype Mint = Mint(id: string, at: string)

  datatype ResearchBranch = ResearchBranch(
    branchId: string, parentCheckpoint: string, parentBranchId: string, hypothesisPath: seq<string>,
    experimentIds: seq<string>, observationIds: seq<string>, evidenceIds: seq<string>, terminationReason: string,
    returnTarget: string, failedFingerprint: string, active: bool, createdAt: string)

  datatype EventType = NoType | BranchOpen | BranchTerminate | BranchBacktrack

  datatype LineageEvent = LineageEvent(
    eventId: string, parentEventId: string, episodeId: string, eventType: EventType, actor: string,
    inputs: seq<string>, outputs: seq<string>, before: string, after: string, timestamp: string)

  datatype ManagerState = ManagerState(episodeId: string, branches: seq<ResearchBranch>, events: seq<LineageEvent>,
                                       tried: set<string>)

  function Fingerprint(b: ResearchBranch): string { FP.Text(b.hypothesisPath, b.experimentIds) }

  /** The first branch with the id, which is the one every loop of the manager stops at. */
  function Find(branches: seq<ResearchBranch>, id: string): (r: Option<nat>)
    ensures r.Some? ==> r.value < |branches| && branches[r.value].branchId == id
    ensures r.Some? ==> forall i :: 0 <= i < r.value ==> branches[i].branchId != id
    ensures r.None? ==> forall i :: 0 <= i < |branches| ==> branches[i].branchId != id
  {
    if branches == [] then None
    else if Find(Front(branches), id).Some? then Find(Front(branches), id)
    else if Last(branches).branchId == id then Some(|branches| - 1)
    else None
  }

  predicate CanOpen(s: ManagerState, hypotheses: seq<string>, experiments: seq<string>) {
    FP.Text(hypotheses, experiments) !in s.tried
  }

  function Logged(s: ManagerState, t: EventType, m: Mint, inputs: seq<string>, outputs: seq<string>): ManagerState {
    var parent := if s.events != [] then Last(s.events).eventId else "";
    s.(events := s.events + [LineageEvent(m.id, parent, s.episodeId, t, "BranchManager", inputs, outputs, "", "", m.at)])
  }

  function Opened(s: ManagerState, m: Mint, ev: Mint, hypotheses: seq<string>, checkpoint: string, parent: string): ManagerState {
    var b := ResearchBranch(m.id, checkpoint, parent, hypotheses, [], [], [], "", "", "", true, m.at);
    Logged(s.(branches := s.branches + [b]), BranchOpen, ev, if checkpoint != "" then [checkpoint] else [], [m.id])
  }

  function Ran(s: ManagerState, id: string, experiment: string): ManagerState {
    match Find(s.branches, id)
    case None => s
    case Some(i) =>
      var b := s.branches[i];
      s.(branches := s.branches[i := b.(experimentIds := b.experimentIds + [experiment])])
  }

  function Terminated(s: ManagerState, id: string, reason: string, target: string, ev: Mint): ManagerState {
    match Find(s.branches, id)
    case None => s
    case Some(i) =>
      var b := s.branches[i];
      var dead := b.(terminationReason := reason, returnTarget := target, active := false,
                     failedFingerprint := Fingerprint(b));
      Logged(s.(branches := s.branches[i := dead], tried := s.tried + {Fingerprint(b)}),
             BranchTerminate, ev, [id], [reason])
  }

  /** The two fingerprints that must both have failed before a backtrack is refused. */
  predicate Blocked(s: ManagerState, from: ResearchBranch, hypotheses: seq<string>) {
    !CanOpen(s, hypotheses, from.experimentIds) && !CanOpen(s, hypotheses, [])
  }

  predicate Backtracks(s: ManagerState, from: string, hypotheses: seq<string>) {
    Find(s.branches, from).Some? && !Blocked(s, s.branches[Find(s.branches, from).value], hypotheses)
  }

  function Backtracked(s: ManagerState, from: string, hypotheses: seq<string>, checkpoint: string,
                       m: Mint, ev: Mint, ev2: Mint): ManagerState
  {
    if !Backtracks(s, from, hypotheses) then s
    else
      var parent := s.branches[Find(s.branches, from).value];
      var cp := if checkpoint != "" then checkpoint else parent.parentCheckpoint;
      Logged(Opened(s, m, ev, hypotheses, cp, from), BranchBacktrack, ev2, [from], [m.id])
  }

  class BranchManager {
    var episodeId: string
    var branches: seq<ResearchBranch>
    var events: seq<LineageEvent>
    var tried: set<string>

    ghost function State(): ManagerState
      reads this
    {
      ManagerState(episodeId, branches, events, tried)
    }

    constructor (episodeId: string := "")
      ensures State() == ManagerState(episodeId, [], [], {})
    {
      this.episodeId, branches, events, tried := episodeId, [], [], {};
    }

    method RecordEvent(t: EventType, m: Mint, inputs: seq<string>, outputs: seq<string>)
      modifies this
      ensures State() == Logged(old(State()), t, m, inputs, outputs)
    {
      var parent := if events != [] then events[|events| - 1].eventId else "";
      events := events + [LineageEvent(m.id, parent, episodeId, t, "BranchManager", inputs, outputs, "", "", m.at)];
    }

    method OpenBranch(m: Mint, ev: Mint, hypotheses: seq<string>, checkpoint: string := "", parent: string := "")
      modifies this
      ensures State() == Opened(old(State()), m, ev, hypotheses, checkpoint, parent)
    {
      branches := branches + [ResearchBranch(m.id, checkpoint, parent, hypotheses, [], [], [], "", "", "", true, m.at)];
      RecordEvent(BranchOpen, ev, if checkpoint != "" then [checkpoint] else [], [m.id]);
    }

    /** The search loop that record_experiment, terminate and backtrack share. */
    method Search(id: string) returns (r: Option<nat>)
      ensures r == Find(branches, id)
    {
      for i := 0 to |branches|
        invariant forall k :: 0 <= k < i ==> branches[k].branchId != id
      {
        if branches[i].branchId == id { return Some(i); }
      }
      return None;
    }

    method RecordExperiment(id: string, experiment: string)
      modifies this
      ensures State() == Ran(old(State()), id, experiment)
    {
      var i := Search(id);
      if i.Some? {
        var b := branches[i.value];
        branches := branches[i.value := b.(experimentIds := b.experimentIds + [experiment])];
      }
    }

    method Terminate(id: string, reason: string, ev: Mint, target: string := "") returns (found: bool)
      modifies this
      ensures found <==> Find(old(branches), id).Some?
      ensures State() == Terminated(old(State()), id, reason, target, ev)
    {
      var i := Search(id);
      if i.None? { return false; }
      var b := branches[i.value].(terminationReason := reason, returnTarget := target, active := false);
      b := b.(failedFingerprint := FP.Text(b.hypothesisPath, b.experimentIds));
      branches := branches[i.value := b];
      tried := tried + {b.failedFingerprint};
      RecordEvent(BranchTerminate, ev, [id], [reason]);
      return true;
    }

    predicate CanOpenSamePath(hypotheses: seq<string>, experiments: seq<string>)
      reads this
      ensures CanOpenSamePath(hypotheses, experiments) <==> CanOpen(State(), hypotheses, experiments)
    {
      FP.Text(hypotheses, experiments) !in tried
    }

    method Backtrack(from: string, hypotheses: seq<string>, m: Mint, ev: Mint, ev2: Mint, checkpoint: string := "")
        returns (ok: bool)
      modifies this
      ensures ok <==> Backtracks(old(State()), from, hypotheses)
      ensures State() == Backtracked(old(State()), from, hypotheses, checkpoint, m, ev, ev2)
    {
      var i := Search(from);
      if i.None? { return false; }
      var parent := branches[i.value];
      if !CanOpenSamePath(hypotheses, parent.experimentIds) {
        if !CanOpenSamePath(hypotheses, []) { return false; }
      }
      OpenBranch(m, ev, hypotheses, if checkpoint != "" then checkpoint else parent.parentCheckpoint, from);
      RecordEvent(BranchBacktrack, ev2, [from], [m.id]);
      return true;
    }
  }

  // ---------------------------------------------------------------- whole runs

  datatype Op =
    | OpenRoot(hypotheses: seq<string>, checkpoint: string, m: Mint, ev: Mint)
    | RunExperiment(id: string, experiment: string)
    | Terminate(id: string, reason: string, target: string, ev: Mint)
    | Backtrack(id: string, hypotheses: seq<string>, checkpoint: string, m: Mint, ev: Mint, ev2: Mint)

  function Apply(s: ManagerState, op: Op): ManagerState {
    match op
    case OpenRoot(hypotheses, checkpoint, m, ev) => Opened(s, m, ev, hypotheses, checkpoint, "")
    case RunExperiment(id, experiment) => Ran(s, id, experiment)
    case Terminate(id, reason, target, ev) => Terminated(s, id, reason, target, ev)
    case Backtrack(from, hypotheses, checkpoint, m, ev, ev2) => Backtracked(s, from, hypotheses, checkpoint, m, ev, ev2)
  }

  function Run(s: ManagerState, ops: seq<Op>): ManagerState {
    if ops == [] then s else Apply(Run(s, Front(ops)), Last(ops))
  }

  /** Every branch is a root or points to an earlier branch. */
  ghost predicate Forest(branches: seq<ResearchBranch>) {
    forall i :: 0 <= i < |branches| ==>
      branches[i].parentBranchId == "" || exists j :: 0 <= j < i && branches[j].branchId == branches[i].parentBranchId
  }

  /** Every event's parent is the event before it. */
  ghost predicate Linked(events: seq<LineageEvent>) {
    (events != [] ==> events[0].parentEventId == "")
    && forall i {:trigger events[i]} :: 0 < i < |events| ==> events[i].parentEventId == events[i - 1].eventId
  }

  /** A terminated branch has its path among the tried ones. */
  ghost predicate FailuresTried(s: ManagerState) {
    forall i :: 0 <= i < |s.branches| && !s.branches[i].active ==> s.branches[i].failedFingerprint in s.tried
  }

  ghost predicate SameShape(a: seq<ResearchBranch>, b: seq<ResearchBranch>) {
    |a| <= |b| && forall i :: 0 <= i < |a| ==> a[i].branchId == b[i].branchId && a[i].parentBranchId == b[i].parentBranchId
  }

  lemma StepKeepsForest(s: ManagerState, op: Op)
    requires Forest(s.branches)
    ensures Forest(Apply(s, op).branches) && SameShape(s.branches, Apply(s, op).branches)
  {
    var n := Apply(s, op).branches;
    assert SameShape(s.branches, n);
    forall i | 0 <= i < |n| && n[i].parentBranchId != ""
      ensures exists j :: 0 <= j < i && n[j].branchId == n[i].parentBranchId
    {
      if i < |s.branches| {
        assert s.branches[i].parentBranchId != "";
        var j :| 0 <= j < i && s.branches[j].branchId == s.branches[i].parentBranchId;
        assert n[j].branchId == n[i].parentBranchId;
      } else {
        var j := Find(s.branches, op.id).value;
        assert n[j].branchId == n[i].parentBranchId;
      }
    }
  }

  lemma OneMoreLink(events: seq<LineageEvent>, e: LineageEvent)
    requires Linked(events)
    requires if events != [] then e.parentEventId == Last(events).eventId else e.parentEventId == ""
    ensures Linked(events + [e])
  {
    var n := events + [e];
    forall i | 0 < i < |n| ensures n[i].parentEventId == n[i - 1].eventId {
      assert n[i - 1] == events[i - 1];
      if i < |events| { assert n[i] == events[i]; }
    }
  }

  lemma StepKeepsLinks(s: ManagerState, op: Op)
    requires Linked(s.events)
    ensures Linked(Apply(s, op).events) && s.events <= Apply(s, op).events
  {
    var n := Apply(s, op).events;
    if op.Backtrack? && Backtracks(s, op.id, op.hypotheses) {
      OneMoreLink(s.events, Last(Front(n)));
      assert Front(n) == s.events + [Last(Front(n))];
      OneMoreLink(Front(n), Last(n));
      FrontLast(n);
    } else if n != s.events {
      OneMoreLink(s.events, Last(n));
      assert n == s.events + [Last(n)];
    }
  }

  lemma StepKeepsFailures(s: ManagerState, op: Op)
    requires FailuresTried(s)
    ensures FailuresTried(Apply(s, op)) && s.tried <= Apply(s, op).tried
  {}

  /**
   Over every run from an empty manager: parent links form a forest over earlier branches, events form one
   chain, every terminated path stays blocked, and nothing already there is taken back.
   */
  lemma {:induction false} RunInvariants(episode: string, ops: seq<Op>, k: nat)
    requires k <= |ops|
    ensures var early, s := Run(ManagerState(episode, [], [], {}), ops[..k]), Run(ManagerState(episode, [], [], {}), ops);
            && Forest(s.branches) && Linked(s.events) && FailuresTried(s)
            && SameShape(early.branches, s.branches) && early.events <= s.events && early.tried <= s.tried
  {
    if k == |ops| {
      assert ops[..k] == ops;
      if ops != [] { RunInvariants(episode, Front(ops), |ops| - 1); StepInvariants(episode, ops); }
    } else {
      RunInvariants(episode, Front(ops), k);
      assert Front(ops)[..k] == ops[..k];
      StepInvariants(episode, ops);
    }
  }

  lemma StepInvariants(episode: string, ops: seq<Op>)
    requires ops != []
    requires var s := Run(ManagerState(episode, [], [], {}), Front(ops));
             Forest(s.branches) && Linked(s.events) && FailuresTried(s)
    ensures var s, n := Run(ManagerState(episode, [], [], {}), Front(ops)), Run(ManagerState(episode, [], [], {}), ops);
            && Forest(n.branches) && Linked(n.events) && FailuresTried(n)
            && SameShape(s.branches, n.branches) && s.events <= n.events && s.tried <= n.tried
  {
    var s := Run(ManagerState(episode, [], [], {}), Front(ops));
    StepKeepsForest(s, Last(ops));
    StepKeepsLinks(s, Last(ops));
    StepKeepsFailures(s, Last(ops));
  }

  /** Positions that follow the parent links, each earlier than the one before. */
  ghost predicate Upward(branches: seq<ResearchBranch>, path: seq<nat>) {
    && path != [] && (forall k :: 0 <= k < |path| ==> path[k] < |branches|)
    && forall k :: 0 <= k < |path| - 1 ==>
         path[k + 1] < path[k] && branches[path[k + 1]].branchId == branches[path[k]].parentBranchId
  }

  lemma UpwardExtends(branches: seq<ResearchBranch>, i: nat, rest: seq<nat>)
    requires Upward(branches, rest) && rest[0] < i < |branches|
    requires branches[rest[0]].branchId == branches[i].parentBranchId
    ensures Upward(branches, [i] + rest)
  {
    var path := [i] + rest;
    forall k | 0 <= k < |path| - 1
      ensures path[k + 1] < path[k] && branches[path[k + 1]].branchId == branches[path[k]].parentBranchId
    {
      assert path[k + 1] == rest[k];
      if k > 0 { assert path[k] == rest[k - 1] && rest[k - 1 + 1] == rest[k]; }
    }
  }

  /** Following parents from any branch of a forest ends at a root: no branch is its own ancestor. */
  lemma {:induction false} ReachesRoot(branches: seq<ResearchBranch>, i: nat) returns (path: seq<nat>)
    requires Forest(branches) && i < |branches|
    ensures Upward(branches, path) && path[0] == i && branches[Last(path)].parentBranchId == ""
  {
    if branches[i].parentBranchId == "" {
      path := [i];
    } else {
      var j: nat :| j < i && branches[j].branchId == branches[i].parentBranchId;
      var rest := ReachesRoot(branches, j);
      UpwardExtends(branches, i, rest);
      path := [i] + rest;
    }
  }

  // ---------------------------------------------------------------- what "already failed" means

  datatype Path = Path(hypotheses: seq<string>, experiments: seq<string>)

  /** The paths that were terminated in a run. */
  function Failed(s: ManagerState, ops: seq<Op>): seq<Path> {
    if ops == [] then []
    else
      var before, op := Run(s, Front(ops)), Last(ops);
      var i := if op.Terminate? then Find(before.branches, op.id) else None;
      Failed(s, Front(ops))
      + if i.Some? then [Path(before.branches[i.value].hypothesisPath, before.branches[i.value].experimentIds)] else []
  }

  ghost predicate CleanOp(op: Op) {
    match op
    case OpenRoot(hypotheses, _, _, _) => FP.CleanIds(hypotheses)
    case RunExperiment(_, experiment) => FP.CleanIds([experiment])
    case Terminate(_, _, _, _) => true
    case Backtrack(_, hypotheses, _, _, _, _) => FP.CleanIds(hypotheses)
  }

  ghost predicate CleanBranches(s: ManagerState) {
    forall i :: 0 <= i < |s.branches| ==> FP.CleanIds(s.branches[i].hypothesisPath) && FP.CleanIds(s.branches[i].experimentIds)
  }

  lemma {:induction false} RunsClean(episode: string, ops: seq<Op>)
    requires forall i :: 0 <= i < |ops| ==> CleanOp(ops[i])
    ensures CleanBranches(Run(ManagerState(episode, [], [], {}), ops))
    ensures forall p :: p in Failed(ManagerState(episode, [], [], {}), ops) ==> FP.CleanIds(p.hypotheses) && FP.CleanIds(p.experiments)
  {
    if ops != [] {
      RunsClean(episode, Front(ops));
      assert CleanOp(Last(ops));
      if Last(ops).RunExperiment? { assert FP.CleanIds([Last(ops).experiment]) && [Last(ops).experiment][0] != ""; }
    }
  }

  lemma {:induction false} TriedAreFailed(episode: string, ops: seq<Op>, text: string)
    ensures text in Run(ManagerState(episode, [], [], {}), ops).tried <==>
            exists p :: p in Failed(ManagerState(episode, [], [], {}), ops) && FP.Text(p.hypotheses, p.experiments) == text
  {
    var s0 := ManagerState(episode, [], [], {});
    if ops != [] {
      TriedAreFailed(episode, Front(ops), text);
      var before, after := Failed(s0, Front(ops)), Failed(s0, ops);
      assert forall p :: p in before ==> p in after;
      if Last(ops).Terminate? && Find(Run(s0, Front(ops)).branches, Last(ops).id).Some? {
        assert Last(after) in after && after == before + [Last(after)];
        assert forall p :: p in after <==> p in before || p == Last(after);
      } else {
        assert after == before;
      }
    }
  }

  /**
   The "already failed" test over whole runs: a path is refused exactly when some terminated branch had
   the same hypotheses and the same experiments, in whatever order.
   */
  lemma RefusedIffFailedBefore(episode: string, ops: seq<Op>, h: seq<string>, e: seq<string>)
    requires (forall i :: 0 <= i < |ops| ==> CleanOp(ops[i])) && FP.CleanIds(h) && FP.CleanIds(e)
    ensures var s0 := ManagerState(episode, [], [], {});
            !CanOpen(Run(s0, ops), h, e) <==>
            exists p :: p in Failed(s0, ops) && multiset(p.hypotheses) == multiset(h) && multiset(p.experiments) == multiset(e)
  {
    var s0 := ManagerState(episode, [], [], {});
    RunsClean(episode, ops);
    TriedAreFailed(episode, ops, FP.Text(h, e));
    forall p | p in Failed(s0, ops)
      ensures FP.Text(p.hypotheses, p.experiments) == FP.Text(h, e) <==>
              multiset(p.hypotheses) == multiset(h) && multiset(p.experiments) == multiset(e)
    {
      FP.CleanFingerprint(p.hypotheses, p.experiments, h, e);
    }
  }

  /**
   When backtrack says yes, over whole runs: the branch is known, and not both of two paths have failed before,
   the new hypotheses with the experiments of that branch and the new hypotheses with none.
   */
  lemma BacktrackAccepted(episode: string, ops: seq<Op>, from: string, h: seq<string>)
    requires (forall i :: 0 <= i < |ops| ==> CleanOp(ops[i])) && FP.CleanIds(h)
    ensures var s0 := ManagerState(episode, [], [], {});
            var s := Run(s0, ops);
            Backtracks(s, from, h) <==>
            && Find(s.branches, from).Some?
            && !(FailedLike(Failed(s0, ops), h, s.branches[Find(s.branches, from).value].experimentIds)
                 && FailedLike(Failed(s0, ops), h, []))
  {
    var s0 := ManagerState(episode, [], [], {});
    var s := Run(s0, ops);
    RunsClean(episode, ops);
    if Find(s.branches, from).Some? {
      RefusedIffFailedBefore(episode, ops, h, s.branches[Find(s.branches, from).value].experimentIds);
      RefusedIffFailedBefore(episode, ops, h, []);
    }
  }

  /** One of the paths has the same hypotheses and the same experiments, in whatever order. */
  ghost predicate FailedLike(paths: seq<Path>, h: seq<string>, e: seq<string>) {
    exists p :: p in paths && multiset(p.hypotheses) == multiset(h) && multiset(p.experiments) == multiset(e)
  }

  /** What an accepted backtrack leaves behind: one branch under the given one, and two events. */
  lemma BacktrackSpelledOut(s: ManagerState, from: string, h: seq<string>, checkpoint: string, m: Mint, ev: Mint, ev2: Mint)
    requires Backtracks(s, from, h)
    ensures var n, parent := Backtracked(s, from, h, checkpoint, m, ev, ev2), s.branches[Find(s.branches, from).value];
            var cp := if checkpoint == "" then parent.parentCheckpoint else checkpoint;
            && n.branches == s.branches + [ResearchBranch(m.id, cp, from, h, [], [], [], "", "", "", true, m.at)]
            && n.tried == s.tried && n.episodeId == s.episodeId
            && |n.events| == |s.events| + 2 && s.events <= n.events
            && var e, f := n.events[|s.events|], n.events[|s.events| + 1];
               && e.eventType == BranchOpen && e.eventId == ev.id && e.outputs == [m.id]
               && e.inputs == (if cp == "" then [] else [cp])
               && f.eventType == BranchBacktrack && f.eventId == ev2.id && f.inputs == [from] && f.outputs == [m.id]
               && f.parentEventId == ev.id
  {}

  /** What running an experiment and terminating do to the branch they find, and to no other. */
  lemma BranchUpdatesSpelledOut(s: ManagerState, id: string, experiment: string, reason: string, target: string, ev: Mint)
    requires Find(s.branches, id).Some?
    ensures var i := Find(s.branches, id).value;
            var b, ran, dead := s.branches[i], Ran(s, id, experiment), Terminated(s, id, reason, target, ev);
            && ran == s.(branches := s.branches[i := b.(experimentIds := b.experimentIds + [experiment])])
            && dead.branches[i].active == false && dead.branches[i].terminationReason == reason
            && dead.branches[i].returnTarget == target
            && dead.branches[i].failedFingerprint == FP.Text(b.hypothesisPath, b.experimentIds)
            && dead.branches[i].hypothesisPath == b.hypothesisPath && dead.branches[i].experimentIds == b.experimentIds
            && |dead.branches| == |s.branches| && (forall k :: 0 <= k < |s.branches| && k != i ==> dead.branches[k] == s.branches[k])
            && dead.tried == s.tried + {FP.Text(b.hypothesisPath, b.experimentIds)}
            && |dead.events| == |s.events| + 1 && Last(dead.events).eventType == BranchTerminate
            && Last(dead.events).inputs == [id] && Last(dead.events).outputs == [reason]
  {}

  // ---------------------------------------------------------------- what backtrack does not promise

  /**
   Backtracking is meant never to replay a failed path.  It opens the path (new hypotheses, no experiments),
   and that path has failed before exactly when its own fingerprint is tried; the extra test on the parent's
   experiments then lets it through.
   */
  lemma BacktrackReplays(s: ManagerState, from: string, h: seq<string>, checkpoint: string, m: Mint, ev: Mint, ev2: Mint)
    requires Backtracks(s, from, h)
    ensures var n, parent := Backtracked(s, from, h, checkpoint, m, ev, ev2), s.branches[Find(s.branches, from).value];
            && Last(n.branches).hypothesisPath == h && Last(n.branches).experimentIds == []
            && Last(n.branches).parentBranchId == from && Last(n.branches).branchId == m.id
            && (Fingerprint(Last(n.branches)) in s.tried <==>
                  !CanOpen(s, h, []) && CanOpen(s, h, parent.experimentIds))
  {}

  /**
   Over whole runs: an accepted backtrack reopens a failed path exactly when some branch with the same
   hypotheses, in any order, was terminated before any experiment was recorded on it.
   */
  lemma BacktrackReplaysIff(episode: string, ops: seq<Op>, from: string, h: seq<string>, checkpoint: string,
                            m: Mint, ev: Mint, ev2: Mint)
    requires (forall i :: 0 <= i < |ops| ==> CleanOp(ops[i])) && FP.CleanIds(h)
    requires Backtracks(Run(ManagerState(episode, [], [], {}), ops), from, h)
    ensures var s0 := ManagerState(episode, [], [], {});
            var s := Run(s0, ops);
            Fingerprint(Last(Backtracked(s, from, h, checkpoint, m, ev, ev2).branches)) in s.tried <==>
            exists p :: p in Failed(s0, ops) && multiset(p.hypotheses) == multiset(h) && p.experiments == []
  {
    var s0 := ManagerState(episode, [], [], {});
    RefusedIffFailedBefore(episode, ops, h, []);
    BacktrackReplays(Run(s0, ops), from, h, checkpoint, m, ev, ev2);
    forall p | p in Failed(s0, ops) ensures multiset(p.experiments) == multiset([]) <==> p.experiments == [] {
      NoElements(p.experiments);
    }
  }

  lemma NoElements(s: seq<string>)
    ensures multiset(s) == multiset([]) <==> s == []
  {
    assert |multiset(s)| == |s|;
  }

  function ReplayRun(): seq<Op> {
    [OpenRoot(["h"], "", Mint("b", ""), Mint("e", "")), Terminate("b", "failed", "", Mint("f", "")),
     RunExperiment("b", "x")]
  }

  lemma ReplayTexts()
    ensures FP.Text(["h"], ["x"]) != FP.Text(["h"], [])
  {
    FP.SameTextSamePath(["h"], ["x"], ["h"], []);
    assert "x" in multiset(["x"]) && "x" !in multiset{};
  }

  lemma ReplayOpened()
    ensures var s := Run(ManagerState("ep", [], [], {}), ReplayRun()[..1]);
            |s.branches| == 1 && s.branches[0].branchId == "b" && s.branches[0].hypothesisPath == ["h"]
            && s.branches[0].experimentIds == [] && s.tried == {}
  {
    assert Front(ReplayRun()[..1]) == [];
  }

  lemma ReplayState()
    ensures var s := Run(ManagerState("ep", [], [], {}), ReplayRun());
            |s.branches| == 1 && s.branches[0].branchId == "b" && s.branches[0].experimentIds == ["x"]
            && s.tried == {FP.Text(["h"], [])}
  {
    var s0, ops := ManagerState("ep", [], [], {}), ReplayRun();
    ReplayOpened();
    assert Front(ops) == ops[..2] && Front(ops[..2]) == ops[..1];
    assert Run(s0, ops[..2]) == Terminated(Run(s0, ops[..1]), "b", "failed", "", Mint("f", ""));
  }

  /** It does happen: a branch fails before its first experiment, runs one, and backtracks to itself. */
  lemma ReplayExample(m: Mint, ev: Mint, ev2: Mint)
    ensures var s := Run(ManagerState("ep", [], [], {}), ReplayRun());
            && Backtracks(s, "b", ["h"])
            && Fingerprint(Last(Backtracked(s, "b", ["h"], "", m, ev, ev2).branches)) in s.tried
  {
    var s := Run(ManagerState("ep", [], [], {}), ReplayRun());
    ReplayState();
    ReplayTexts();
    assert Find(s.branches, "b") == Some(0);
    BacktrackReplays(s, "b", ["h"], "", m, ev, ev2);
  }
}

/** Snapshot and restore of a branch manager through plain dictionaries. */
module Snapshots {
  import opened Common
  import opened Branches
  import FP = Fingerprint

  /** The keys of the dictionaries that to_dict produces. */
  datatype BranchKey =
    | BranchId | ParentCheckpoint | ParentBranchId | HypothesisPath | ExperimentIds | ObservationIds | EvidenceIds
    | TerminationReason | ReturnTarget | FailedFingerprint | Active | CreatedAt

  datatype EventKey =
    | EventId | ParentEventId | EpisodeId | Type | Actor | InputRefs | OutputRefs | BeforeHash | AfterHash | Timestamp

  datatype Json = JText(t: string) | JList(l: seq<string>) | JBool(b: bool) | JType(e: EventType)

  type BranchDict = map<BranchKey, Json>

  type EventDict = map<EventKey, Json>

  datatype Snapshot = Snapshot(episodeId: string, branches: seq<BranchDict>, events: seq<EventDict>,
                               fingerprints: seq<string>)

  function BranchField(b: ResearchBranch, k: BranchKey): Json {
    match k
    case BranchId => JText(b.branchId)
    case ParentCheckpoint => JText(b.parentCheckpoint)
    case ParentBranchId => JText(b.parentBranchId)
    case HypothesisPath => JList(b.hypothesisPath)
    case ExperimentIds => JList(b.experimentIds)
    case ObservationIds => JList(b.observationIds)
    case EvidenceIds => JList(b.evidenceIds)
    case TerminationReason => JText(b.terminationReason)
    case ReturnTarget => JText(b.returnTarget)
    case FailedFingerprint => JText(b.failedFingerprint)
    case Active => JBool(b.active)
    case CreatedAt => JText(b.createdAt)
  }

  function EventField(e: LineageEvent, k: EventKey): Json {
    match k
    case EventId => JText(e.eventId)
    case ParentEventId => JText(e.parentEventId)
    case EpisodeId => JText(e.episodeId)
    case Type => JType(e.eventType)
    case Actor => JText(e.actor)
    case InputRefs => JList(e.inputs)
    case OutputRefs => JList(e.outputs)
    case BeforeHash => JText(e.before)
    case AfterHash => JText(e.after)
    case Timestamp => JText(e.timestamp)
  }

  function ToBranchDict(b: ResearchBranch): BranchDict { map k: BranchKey | true :: BranchField(b, k) }

  function ToEventDict(e: LineageEvent): EventDict { map k: EventKey | true :: EventField(e, k) }

  /** d.get(k) or "". */
  function Text<K(==)>(d: map<K, Json>, k: K): string { if k in d && d[k].JText? then d[k].t else "" }

  /** list(d.get(k) or []). */
  function List<K(==)>(d: map<K, Json>, k: K): seq<string> { if k in d && d[k].JList? then d[k].l else [] }

  /** None stands for the KeyError of a dictionary without its id. */
  function BranchFrom(d: BranchDict): Option<ResearchBranch> {
    if BranchId !in d then None
    else
      Some(ResearchBranch(Text(d, BranchId), Text(d, ParentCheckpoint), Text(d, ParentBranchId), List(d, HypothesisPath),
                          List(d, ExperimentIds), List(d, ObservationIds), List(d, EvidenceIds),
                          Text(d, TerminationReason), Text(d, ReturnTarget), Text(d, FailedFingerprint),
                          if Active in d && d[Active].JBool? then d[Active].b else true, Text(d, CreatedAt)))
  }

  function EventFrom(d: EventDict): Option<LineageEvent> {
    if EventId !in d then None
    else
      Some(LineageEvent(Text(d, EventId), Text(d, ParentEventId), Text(d, EpisodeId),
                        if Type in d && d[Type].JType? then d[Type].e else NoType, Text(d, Actor),
                        List(d, InputRefs), List(d, OutputRefs), Text(d, BeforeHash), Text(d, AfterHash),
                        Text(d, Timestamp)))
  }

  /** What a dictionary with nothing but its id restores to. */
  lemma RestoreDefaults(id: string)
    ensures BranchFrom(map[BranchId := JText(id)])
            == Some(ResearchBranch(id, "", "", [], [], [], [], "", "", "", true, ""))
    ensures EventFrom(map[EventId := JText(id)]) == Some(LineageEvent(id, "", "", NoType, "", [], [], "", "", ""))
    ensures forall d: BranchDict :: BranchFrom(d) == None <==> BranchId !in d
    ensures forall d: EventDict :: EventFrom(d) == None <==> EventId !in d
  {}

  lemma BranchRoundTrip(b: ResearchBranch)
    ensures BranchFrom(ToBranchDict(b)) == Some(b)
  {}

  lemma EventRoundTrip(e: LineageEvent)
    ensures EventFrom(ToEventDict(e)) == Some(e)
  {}

  /** sorted(set). */
  method SortedList(s: set<string>) returns (out: seq<string>)
    ensures Elems(out) == s && FP.Sorted(out) && NoDup(out)
  {
    out := [];
    var rest := s;
    while rest != {}
      invariant rest <= s && Elems(out) == s - rest && FP.Sorted(out) && NoDup(out)
    {
      var x :| x in rest;
      FP.InsertSorted(x, out);
      FP.InsertMembers(x, out);
      assert x !in Elems(out);
      FP.InsertKeepsDistinct(x, out);
      var next := FP.Insert(x, out);
      assert forall y :: y in next <==> y == x || y in out by {
        assert forall y :: y in next <==> y in multiset(next);
        assert forall y :: y in out <==> y in multiset(out);
      }
      assert Elems(next) == Elems(out) + {x};
      out, rest := next, rest - {x};
    }
  }

  /** The dictionary form of a manager, with the tried fingerprints in sorted order. */
  ghost predicate IsSnapshot(d: Snapshot, s: ManagerState) {
    && d.episodeId == s.episodeId && |d.branches| == |s.branches| && |d.events| == |s.events|
    && (forall i :: 0 <= i < |d.branches| ==> d.branches[i] == ToBranchDict(s.branches[i]))
    && (forall i :: 0 <= i < |d.events| ==> d.events[i] == ToEventDict(s.events[i]))
    && Elems(d.fingerprints) == s.tried && FP.Sorted(d.fingerprints)
  }

  method Take(m: BranchManager) returns (d: Snapshot)
    ensures IsSnapshot(d, m.State()) && NoDup(d.fingerprints)
  {
    var tried := SortedList(m.tried);
    d := Snapshot(m.episodeId,
                  seq(|m.branches|, i requires 0 <= i < |m.branches| reads m => ToBranchDict(m.branches[i])),
                  seq(|m.events|, i requires 0 <= i < |m.events| reads m => ToEventDict(m.events[i])),
                  tried);
  }

  /** Accepts any dictionaries; a missing entry gets its default, a missing id is the error. */
  method Restore(d: Snapshot) returns (ok: bool, m: BranchManager)
    ensures fresh(m)
    ensures ok <==> (forall i :: 0 <= i < |d.branches| ==> BranchFrom(d.branches[i]).Some?)
                    && (forall i :: 0 <= i < |d.events| ==> EventFrom(d.events[i]).Some?)
    ensures ok ==>
              && m.episodeId == d.episodeId && |m.branches| == |d.branches| && |m.events| == |d.events|
              && (forall i :: 0 <= i < |d.branches| ==> BranchFrom(d.branches[i]) == Some(m.branches[i]))
              && (forall i :: 0 <= i < |d.events| ==> EventFrom(d.events[i]) == Some(m.events[i]))
              && m.tried == Elems(d.fingerprints)
    ensures forall s :: IsSnapshot(d, s) ==> ok && m.State() == s
  {
    m := new BranchManager(d.episodeId);
    for i := 0 to |d.branches|
      invariant fresh(m) && m.episodeId == d.episodeId && m.events == [] && m.tried == {} && |m.branches| == i
      invariant forall k :: 0 <= k < i ==> BranchFrom(d.branches[k]) == Some(m.branches[k])
    {
      var b := BranchFrom(d.branches[i]);
      if b.None? {
        NotASnapshot(d, i);
        return false, m;
      }
      m.branches := m.branches + [b.value];
    }
    for i := 0 to |d.events|
      invariant fresh(m) && m.episodeId == d.episodeId && m.tried == {} && |m.branches| == |d.branches| && |m.events| == i
      invariant forall k :: 0 <= k < |d.branches| ==> BranchFrom(d.branches[k]) == Some(m.branches[k])
      invariant forall k :: 0 <= k < i ==> EventFrom(d.events[k]) == Some(m.events[k])
    {
      var e := EventFrom(d.events[i]);
      if e.None? {
        NotASnapshot(d, i);
        return false, m;
      }
      m.events := m.events + [e.value];
    }
    for i := 0 to |d.fingerprints|
      invariant fresh(m) && m.episodeId == d.episodeId && |m.branches| == |d.branches| && |m.events| == |d.events|
      invariant forall k :: 0 <= k < |d.branches| ==> BranchFrom(d.branches[k]) == Some(m.branches[k])
      invariant forall k :: 0 <= k < |d.events| ==> EventFrom(d.events[k]) == Some(m.events[k])
      invariant m.tried == Elems(d.fingerprints[..i])
    {
      assert d.fingerprints[..i + 1] == d.fingerprints[..i] + [d.fingerprints[i]];
      m.tried := m.tried + {d.fingerprints[i]};
    }
    assert d.fingerprints[..|d.fingerprints|] == d.fingerprints;
    ok := true;
    forall s | IsSnapshot(d, s) ensures m.State() == s { SnapshotDetermines(d, s, m.State()); }
  }

  lemma NotASnapshot(d: Snapshot, i: nat)
    requires (i < |d.branches| && BranchFrom(d.branches[i]).None?) || (i < |d.events| && EventFrom(d.events[i]).None?)
    ensures forall s :: !IsSnapshot(d, s)
  {}

  /** A snapshot loses nothing: the only state its dictionaries decode to is the one it was taken from. */
  lemma SnapshotDetermines(d: Snapshot, s: ManagerState, t: ManagerState)
    requires IsSnapshot(d, s)
    requires t.episodeId == d.episodeId && |t.branches| == |d.branches| && |t.events| == |d.events|
    requires forall i :: 0 <= i < |d.branches| ==> BranchFrom(d.branches[i]) == Some(t.branches[i])
    requires forall i :: 0 <= i < |d.events| ==> EventFrom(d.events[i]) == Some(t.events[i])
    requires t.tried == Elems(d.fingerprints)
    ensures t == s
  {
    forall i | 0 <= i < |d.branches| ensures t.branches[i] == s.branches[i] {
      BranchRoundTrip(s.branches[i]);
    }
    forall i | 0 <= i < |d.events| ensures t.events[i] == s.events[i] {
      EventRoundTrip(s.events[i]);
    }
  }
}
