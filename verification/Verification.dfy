/** verification/loop.py: researcher, skeptic and referee around one evidence store. */
module ReviewLoop {
  import opened Common
  import opened Evidence

  datatype SkepticQuestion =
    | AlternateExplanation | IntendedBehavior | AuthActuallyBypassed | AuthzActuallyCrossed | Reproducible
    | ImpactReal | EvidenceComplete | InScope | PossibleDuplicate | TestArtifact

  datatype Claim = Claim(title: string, claim: string, supporting: set<string>, severity: string)

  /** `observed` is the notes, or the printed answers when there are none. */
  datatype Verdict = Verdict(answers: map<SkepticQuestion, bool>, disproofAttempted: bool, observed: string)

  /** An attempt was made and no answered question came out badly. */
  predicate Survived(v: Verdict) {
    v.disproofAttempted && forall q :: q in v.answers ==> v.answers[q]
  }

  datatype Ruling = NotAttempted | Disproved(failed: set<SkepticQuestion>) | Accepted(findingId: string)

  /** One row written through record, with the uuid and the clock reading it got. */
  datatype Write = Write(entry: Entry, id: string, at: real)

  /**
   One call of run: what the researcher and the skeptic returned, what they wrote through record on the
   way, and the ids and clock readings of the rows the loop itself writes.
   */
  datatype Turn = Turn(hypothesis: string, target: string, claim: Claim, verdict: Verdict, writes: seq<Write>,
                       evidenceId: string, at: real, findingId: string)

  const ATTEMPT := "skeptic_disproof_attempt"
  const SKEPTIC := "verification_loop.skeptic"

  function SkepticEntry(t: Turn): Entry {
    Entry(t.target, ATTEMPT, t.claim.claim, "skeptic fails to disprove the claim", t.verdict.observed,
          if Survived(t.verdict) then Positive else Negative,
          if t.verdict.disproofAttempted then 1.0 else 0.0, SKEPTIC, Some(t.hypothesis), None)
  }

  function Written(s: StoreState, w: Write): StoreState {
    s.(rows := s.rows + [NewRow(s.rows, w.entry, w.id, w.at)])
  }

  function WrittenAll(s: StoreState, ws: seq<Write>): StoreState {
    if ws == [] then s else Written(WrittenAll(s, Front(ws)), Last(ws))
  }

  function Ruled(t: Turn): Ruling {
    if !t.verdict.disproofAttempted then NotAttempted
    else if !Survived(t.verdict) then Disproved(set q | q in t.verdict.answers && !t.verdict.answers[q])
    else Accepted(t.findingId)
  }

  function Promote(findings: seq<Finding>, t: Turn): seq<Finding> {
    var ids := t.claim.supporting + {t.evidenceId};
    WithStatus(findings + [Finding(t.findingId, t.claim.title, Candidate, ids, None, t.claim.severity)],
               t.findingId, Confirmed, None)
  }

  function Conduct(s: StoreState, t: Turn): StoreState {
    var heard := Written(WrittenAll(s, t.writes), Write(SkepticEntry(t), t.evidenceId, t.at));
    if Survived(t.verdict) then heard.(findings := Promote(heard.findings, t)) else heard
  }

  /** Disproof was attempted and no question is left unresolved. */
  predicate Clean(v: Verdict) {
    v.disproofAttempted && !exists q :: q in v.answers && !v.answers[q]
  }

  /** What one review does, on the verdict's own fields: a POSITIVE row and a finding iff it is clean, else a NEGATIVE row. */
  lemma TurnSpelledOut(s: StoreState, t: Turn)
    ensures var n := Conduct(s, t);
            && (Ruled(t).Accepted? <==> Clean(t.verdict))
            && (Ruled(t).NotAttempted? <==> !t.verdict.disproofAttempted)
            && (Ruled(t).Disproved? ==> Ruled(t).failed != {})
            && |n.findings| == |s.findings| + (if Clean(t.verdict) then 1 else 0)
            && |n.rows| == |s.rows| + |t.writes| + 1
            && var row := Last(n.rows).entry;
               && row.polarity == (if Clean(t.verdict) then Positive else Negative)
               && row.confidence == (if t.verdict.disproofAttempted then 1.0 else 0.0)
               && row.hypothesis == Some(t.hypothesis) && row.target == t.target && row.input == t.claim.claim
               && row.observed == t.verdict.observed && row.action == "skeptic_disproof_attempt"
               && row.source == "verification_loop.skeptic" && row.expected == "skeptic fails to disprove the claim"
  {
    WrittenLength(s, t.writes);
    if t.verdict.disproofAttempted && !Clean(t.verdict) {
      var q :| q in t.verdict.answers && !t.verdict.answers[q];
      assert q in Ruled(t).failed;
    }
  }

  lemma {:induction false} WrittenLength(s: StoreState, ws: seq<Write>)
    ensures |WrittenAll(s, ws).rows| == |s.rows| + |ws| && WrittenAll(s, ws).findings == s.findings
  {
    if ws != [] { WrittenLength(s, Front(ws)); }
  }

  /** The confirmed record of a claim that survived: its own title and severity, its evidence and the skeptic's row. */
  lemma FindingSpelledOut(s: StoreState, t: Turn)
    requires Clean(t.verdict)
    ensures var f := Last(Conduct(s, t).findings);
            && f.id == t.findingId && f.title == t.claim.title && f.severity == t.claim.severity && f.status == Confirmed
            && f.duplicateOf == None && forall id :: id in f.evidenceIds <==> id in t.claim.supporting || id == t.evidenceId
  {
    WrittenLength(s, t.writes);
  }

  class VerificationLoop {
    const store: EvidenceStore

    constructor (store: EvidenceStore)
      ensures this.store == store
    {
      this.store := store;
    }

    method Run(t: Turn) returns (r: Ruling)
      modifies store
      ensures r == Ruled(t)
      ensures store.State() == Conduct(old(store.State()), t)
      ensures r.Accepted? <==> Clean(t.verdict)
      ensures r.NotAttempted? <==> !t.verdict.disproofAttempted
      ensures r.Disproved? ==> r.failed != {} && forall q :: q in r.failed <==> q in t.verdict.answers && !t.verdict.answers[q]
    {
      // The researcher and the skeptic: all they do to the store is record rows.
      for i := 0 to |t.writes|
        invariant store.State() == WrittenAll(old(store.State()), t.writes[..i])
      {
        FrontTake(t.writes, i);
        var _ := store.Record(t.writes[i].entry, t.writes[i].id, t.writes[i].at);
      }
      assert t.writes[..|t.writes|] == t.writes;
      var row := store.Record(SkepticEntry(t), t.evidenceId, t.at);
      r := Referee(t, row);
      TurnSpelledOut(old(store.State()), t);
    }

    method Referee(t: Turn, row: Row) returns (r: Ruling)
      requires row.id == t.evidenceId
      modifies store
      ensures r == Ruled(t)
      ensures store.rows == old(store.rows)
      ensures store.findings == if r.Accepted? then Promote(old(store.findings), t) else old(store.findings)
    {
      if !t.verdict.disproofAttempted { return NotAttempted; }
      if !Survived(t.verdict) {
        return Disproved(set q | q in t.verdict.answers && !t.verdict.answers[q]);
      }
      store.CreateFinding(t.claim.title, t.claim.supporting + {row.id}, t.claim.severity, t.findingId);
      store.SetFindingStatus(t.findingId, Confirmed);
      return Accepted(t.findingId);
    }
  }

  // ---------------------------------------------------------------- any interleaving of record and run

  datatype Op = Record(w: Write) | Review(t: Turn)

  function Apply(s: StoreState, op: Op): StoreState {
    match op
    case Record(w) => Written(s, w)
    case Review(t) => Conduct(s, t)
  }

  function Run(s: StoreState, ops: seq<Op>): StoreState {
    if ops == [] then s else Apply(Run(s, Front(ops)), Last(ops))
  }

  /** The turns whose claim survived, in order. */
  function Survivors(ops: seq<Op>): seq<Turn> {
    if ops == [] then []
    else Survivors(Front(ops)) + if Last(ops).Review? && Survived(Last(ops).t.verdict) then [Last(ops).t] else []
  }

  /** The row that shows a skeptic tried to disprove the claim of the turn and failed. */
  ghost predicate HasSurvivalRow(rows: seq<Row>, t: Turn) {
    exists r :: r in rows && r.id == t.evidenceId && r.entry.action == ATTEMPT && r.entry.source == SKEPTIC
                && r.entry.polarity == Positive && r.entry.hypothesis == Some(t.hypothesis)
  }

  /** The finding is the confirmed record of the turn, and cites the turn's own skeptic row. */
  ghost predicate Records(f: Finding, t: Turn) {
    f.id == t.findingId && f.status == Confirmed && f.evidenceIds == t.claim.supporting + {t.evidenceId}
  }

  lemma {:induction false} WritesAppend(s: StoreState, ws: seq<Write>)
    ensures WrittenAll(s, ws).findings == s.findings && s.rows <= WrittenAll(s, ws).rows
  {
    if ws != [] { WritesAppend(s, Front(ws)); }
  }

  lemma ConductAppends(s: StoreState, t: Turn)
    ensures var n := Conduct(s, t);
            && s.rows <= n.rows && |n.rows| > 0
            && Last(n.rows).id == t.evidenceId && Last(n.rows).entry == SkepticEntry(t)
            && n.findings == if Survived(t.verdict) then Promote(s.findings, t) else s.findings
  {
    WritesAppend(s, t.writes);
  }

  lemma PromoteConfirms(findings: seq<Finding>, turns: seq<Turn>, t: Turn)
    requires |findings| == |turns| && forall i :: 0 <= i < |findings| ==> Records(findings[i], turns[i])
    ensures var fs, ts := Promote(findings, t), turns + [t];
            |fs| == |ts| && forall i :: 0 <= i < |fs| ==> Records(fs[i], ts[i])
  {}

  lemma SurvivalRowStays(a: seq<Row>, b: seq<Row>, t: Turn)
    requires a <= b && HasSurvivalRow(a, t)
    ensures HasSurvivalRow(b, t)
  {
    var r :| r in a && r.id == t.evidenceId && r.entry.action == ATTEMPT && r.entry.source == SKEPTIC
             && r.entry.polarity == Positive && r.entry.hypothesis == Some(t.hypothesis);
    assert r in b;
  }

  /**
   Confirmation discipline: the findings are exactly the survived turns, one for one and in order, each
   CONFIRMED and citing a POSITIVE skeptic row that is in the evidence table.
   */
  lemma {:induction false} ConfirmedMeansSurvived(ops: seq<Op>)
    ensures var s, turns := Run(StoreState([], []), ops), Survivors(ops);
            |s.findings| == |turns|
            && forall i :: 0 <= i < |turns| ==> Records(s.findings[i], turns[i]) && HasSurvivalRow(s.rows, turns[i])
  {
    if ops != [] {
      ConfirmedMeansSurvived(Front(ops));
      var before, op := Run(StoreState([], []), Front(ops)), Last(ops);
      var after, old', new' := Apply(before, op), Survivors(Front(ops)), Survivors(ops);
      match op
      case Record(w) =>
      case Review(t) =>
        ConductAppends(before, t);
        if Survived(t.verdict) {
          PromoteConfirms(before.findings, old', t);
          assert Last(after.rows) in after.rows;
        }
      forall i | 0 <= i < |new'| ensures HasSurvivalRow(after.rows, new'[i]) {
        if i < |old'| { SurvivalRowStays(before.rows, after.rows, old'[i]); }
      }
    }
  }

  /** The reviews of a run whose verdict was clean, in order. */
  function CleanReviews(ops: seq<Op>): seq<Turn> {
    if ops == [] then []
    else CleanReviews(Front(ops))
         + match Last(ops)
           case Review(t) => if Clean(t.verdict) then [t] else []
           case Record(_) => []
  }

  /** So over every run each CONFIRMED finding stands for a review with no false answer, and no such review is missed. */
  lemma {:induction false} ConfirmedMeansClean(ops: seq<Op>)
    ensures var s, turns := Run(StoreState([], []), ops), CleanReviews(ops);
            && |s.findings| == |turns|
            && forall i :: 0 <= i < |turns| ==>
                 s.findings[i].status == Confirmed && s.findings[i].id == turns[i].findingId
                 && turns[i].evidenceId in s.findings[i].evidenceIds && Clean(turns[i].verdict) && Review(turns[i]) in ops
  {
    ConfirmedMeansSurvived(ops);
    SurvivorsAreClean(ops);
    forall i | 0 <= i < |CleanReviews(ops)|
      ensures Clean(CleanReviews(ops)[i].verdict) && Review(CleanReviews(ops)[i]) in ops
    {
      CleanReviewsHappened(ops, i);
    }
  }

  lemma {:induction false} SurvivorsAreClean(ops: seq<Op>)
    ensures Survivors(ops) == CleanReviews(ops)
  {
    if ops != [] { SurvivorsAreClean(Front(ops)); }
  }

  lemma {:induction false} CleanReviewsHappened(ops: seq<Op>, i: nat)
    requires i < |CleanReviews(ops)|
    ensures Clean(CleanReviews(ops)[i].verdict) && Review(CleanReviews(ops)[i]) in ops
  {
    FrontLast(ops);
    if i < |CleanReviews(Front(ops))| { CleanReviewsHappened(Front(ops), i); }
  }

  // ---------------------------------------------------------------- the chain over whole runs

  function Writes(op: Op): seq<Write> {
    match op
    case Record(w) => [w]
    case Review(t) => t.writes + [Write(SkepticEntry(t), t.evidenceId, t.at)]
  }

  function AllWrites(ops: seq<Op>): seq<Write> {
    if ops == [] then [] else AllWrites(Front(ops)) + Writes(Last(ops))
  }

  ghost predicate Ticking(ws: seq<Write>) {
    forall i, j :: 0 <= i < j < |ws| ==> ws[i].at < ws[j].at
  }

  lemma {:induction false} WrittenAllAppend(s: StoreState, a: seq<Write>, b: seq<Write>)
    ensures WrittenAll(s, a + b) == WrittenAll(WrittenAll(s, a), b)
  {
    if b == [] {
      assert a + b == a;
    } else {
      FrontConcat(a, b);
      WrittenAllAppend(s, a, Front(b));
    }
  }

  lemma {:induction false} WritesKeepRows(s: StoreState, t: StoreState, ws: seq<Write>)
    requires s.rows == t.rows
    ensures WrittenAll(s, ws).rows == WrittenAll(t, ws).rows
  {
    if ws != [] { WritesKeepRows(s, t, Front(ws)); }
  }

  /** The table is the log of all writes, whoever made them. */
  lemma {:induction false} RowsAreWrites(s: StoreState, ops: seq<Op>)
    ensures Run(s, ops).rows == WrittenAll(s, AllWrites(ops)).rows
  {
    if ops != [] {
      var before, ws := Run(s, Front(ops)), Writes(Last(ops));
      RowsAreWrites(s, Front(ops));
      WrittenAllAppend(s, AllWrites(Front(ops)), ws);
      WritesKeepRows(before, WrittenAll(s, AllWrites(Front(ops))), ws);
      assert Front(ws) == if Last(ops).Review? then Last(ops).t.writes else [];
    }
  }

  ghost predicate Mirrors(rows: seq<Row>, ws: seq<Write>) {
    |rows| == |ws| && forall i :: 0 <= i < |rows| ==> rows[i].entry == ws[i].entry && rows[i].timestamp == ws[i].at
  }

  lemma MirrorsGrow(rows: seq<Row>, ws: seq<Write>, r: Row, w: Write)
    requires Mirrors(rows, ws) && r.entry == w.entry && r.timestamp == w.at
    ensures Mirrors(rows + [r], ws + [w])
  {}

  lemma {:induction false} RowsMirrorWrites(ws: seq<Write>)
    ensures Mirrors(WrittenAll(StoreState([], []), ws).rows, ws)
  {
    if ws != [] {
      RowsMirrorWrites(Front(ws));
      var rows, w := WrittenAll(StoreState([], []), Front(ws)).rows, Last(ws);
      MirrorsGrow(rows, Front(ws), NewRow(rows, w.entry, w.id, w.at), w);
      assert ws == Front(ws) + [w];
    }
  }

  lemma MirroredBefore(rows: seq<Row>, ws: seq<Write>)
    requires ws != [] && Mirrors(rows, Front(ws)) && Ticking(ws)
    ensures forall i :: 0 <= i < |rows| ==> rows[i].timestamp < Last(ws).at
  {
    assert forall i :: 0 <= i < |rows| ==> Front(ws)[i] == ws[i];
  }

  lemma {:induction false} WritesKeepChain(ws: seq<Write>)
    requires Ticking(ws)
    ensures var rows := WrittenAll(StoreState([], []), ws).rows; Clocked(rows) && Verifies(rows)
  {
    if ws != [] {
      var rows, w := WrittenAll(StoreState([], []), Front(ws)).rows, Last(ws);
      WritesKeepChain(Front(ws));
      RowsMirrorWrites(Front(ws));
      MirroredBefore(rows, ws);
      RecordKeepsChain(rows, w.entry, w.id, w.at);
    }
  }

  /** Under a strictly increasing clock verify_chain stays true over every run, and nothing recorded is lost. */
  lemma ChainHolds(ops: seq<Op>)
    requires Ticking(AllWrites(ops))
    ensures var rows := Run(StoreState([], []), ops).rows;
            && Verifies(ByTime(rows)) && |rows| == |AllWrites(ops)|
            && forall i :: 0 <= i < |rows| ==> rows[i].entry == AllWrites(ops)[i].entry
  {
    RowsAreWrites(StoreState([], []), ops);
    WritesKeepChain(AllWrites(ops));
    RowsMirrorWrites(AllWrites(ops));
    ClockedIsSorted(Run(StoreState([], []), ops).rows);
  }
}

/** evidence/sufficiency.py and verification/executable.py: the deterministic verifier. */
module ExecutableCheck {
  import opened Common
  import opened Evidence
  import Loop = ReviewLoop

  function Count(rows: seq<Row>, p: Polarity): nat {
    if rows == [] then 0 else Count(Front(rows), p) + if Last(rows).entry.polarity == p then 1 else 0
  }

  // ---------------------------------------------------------------- the sufficiency ladder

  datatype Level = LvCandidate | LvLikely | LvConfirmed | LvRejected | LvInsufficient

  datatype Report = Report(level: Level, canConfirm: bool, reasons: seq<string>, positives: nat, negatives: nat)

  /** The counting loop over polarities. */
  method Tally(rows: seq<Row>) returns (pos: nat, neg: nat)
    ensures pos == Count(rows, Positive) && neg == Count(rows, Negative)
  {
    pos, neg := 0, 0;
    for i := 0 to |rows|
      invariant pos == Count(rows[..i], Positive) && neg == Count(rows[..i], Negative)
    {
      FrontTake(rows, i);
      match rows[i].entry.polarity
      case Positive => pos := pos + 1;
      case Negative => neg := neg + 1;
      case Neutral =>
    }
    assert rows[..|rows|] == rows;
  }

  /** What stands against confirming rows with some support, in order. */
  function Blockers(pos: nat, neg: nat, attempted: bool, accepted: bool, minConfirm: int, needDisproof: bool): seq<string> {
    When(pos < minConfirm, "need_more_positive_or_reproduction")
    + When(needDisproof && !attempted, "disproof_not_attempted")
    + When(!accepted, "independent_verification_not_accepted")
    + When(0 < neg && pos <= neg, "counter_evidence_unresolved")
  }

  /** The reason that goes with the level itself. */
  function Ground(level: Level, pos: nat, minLikely: int): string {
    match level
    case LvRejected => "negative_evidence_without_support"
    case LvInsufficient => "no_positive_evidence"
    case LvConfirmed => "evidence_and_verification_sufficient"
    case LvLikely => "likely_pending_stricter_confirm_gates"
    case LvCandidate => if pos < minLikely then "below_likely_threshold" else "candidate_insufficient_for_confirm"
  }

  /** The four tests of the confirm path. */
  method Gates(pos: nat, neg: nat, attempted: bool, accepted: bool, minConfirm: int, needDisproof: bool)
      returns (can: bool, reasons: seq<string>)
    ensures reasons == Blockers(pos, neg, attempted, accepted, minConfirm, needDisproof) && (can <==> reasons == [])
    ensures can <==> pos >= minConfirm && (needDisproof ==> attempted) && accepted && (neg == 0 || neg < pos)
  {
    can := pos >= minConfirm;
    reasons := When(pos < minConfirm, "need_more_positive_or_reproduction");
    can, reasons := can && (needDisproof ==> attempted), reasons + When(needDisproof && !attempted, "disproof_not_attempted");
    can, reasons := can && accepted, reasons + When(!accepted, "independent_verification_not_accepted");
    can, reasons := can && !(0 < neg && pos <= neg), reasons + When(0 < neg && pos <= neg, "counter_evidence_unresolved");
  }

  method Assess(rows: seq<Row>, attempted: bool, accepted: bool, minLikely: int := 1, minConfirm: int := 2,
                needDisproof: bool := true) returns (r: Report)
    ensures r.positives == Count(rows, Positive) && r.negatives == Count(rows, Negative)
    ensures r.canConfirm <==>
            r.positives >= Max(1, Max(minLikely, minConfirm)) && r.negatives < r.positives
            && accepted && (needDisproof ==> attempted)
    ensures r.level == LvConfirmed <==> r.canConfirm
    ensures r.level == LvRejected <==> r.positives == 0 < r.negatives
    ensures r.level == LvInsufficient <==> r.positives == 0 == r.negatives
    ensures r.level == LvLikely <==>
            !r.canConfirm && r.positives >= Max(1, minLikely) && accepted && r.negatives == 0
    ensures r.reasons == (if r.positives >= Max(1, minLikely)
                          then Blockers(r.positives, r.negatives, attempted, accepted, minConfirm, needDisproof) else [])
                         + [Ground(r.level, r.positives, minLikely)]
  {
    var pos, neg := Tally(rows);
    if neg > 0 && neg >= pos && pos == 0 {
      return Report(LvRejected, false, ["negative_evidence_without_support"], pos, neg);
    }
    if pos == 0 { return Report(LvInsufficient, false, ["no_positive_evidence"], pos, neg); }
    if pos < minLikely { return Report(LvCandidate, false, ["below_likely_threshold"], pos, neg); }
    var can, reasons := Gates(pos, neg, attempted, accepted, minConfirm, needDisproof);
    if can { return Report(LvConfirmed, true, reasons + ["evidence_and_verification_sufficient"], pos, neg); }
    if pos >= minLikely && accepted && neg == 0 {
      return Report(LvLikely, false, reasons + ["likely_pending_stricter_confirm_gates"], pos, neg);
    }
    return Report(LvCandidate, false, reasons + ["candidate_insufficient_for_confirm"], pos, neg);
  }

  // ---------------------------------------------------------------- verify

  datatype Needed = NeedPositive | NeedNegative | NeedAny

  datatype Requirement = Requirement(id: string, needed: Needed, satisfied: bool, evidenceIds: seq<string>)

  datatype Outcome = OutConfirmed | OutDisproved | OutInconclusive

  datatype Result = Result(outcome: Outcome, status: FindingStatus, evidenceIds: seq<string>, met: seq<string>,
                           unmet: seq<string>, cannotConfirm: bool)

  class EvidenceContract {
    const hypothesis: string
    const minPositive: int
    const allowWithoutPositive: bool
    var requirements: seq<Requirement>

    constructor (hypothesis: string, minPositive: int, allowWithoutPositive: bool, requirements: seq<Requirement>)
      ensures this.hypothesis == hypothesis && this.minPositive == minPositive
      ensures this.allowWithoutPositive == allowWithoutPositive && this.requirements == requirements
    {
      this.hypothesis, this.minPositive, this.requirements := hypothesis, minPositive, requirements;
      this.allowWithoutPositive := allowWithoutPositive;
    }
  }

  /** A row bears on the hypothesis unless both name one and they differ. */
  predicate Bears(r: Row, hyp: string) {
    hyp == "" || r.entry.hypothesis.None? || r.entry.hypothesis.value == "" || r.entry.hypothesis.value == hyp
  }

  function Bearing(rows: seq<Row>, hyp: string, p: Polarity): seq<Row> {
    if rows == [] then []
    else Bearing(Front(rows), hyp, p) + if Last(rows).entry.polarity == p && Bears(Last(rows), hyp) then [Last(rows)] else []
  }

  function Ids(rows: seq<Row>): (ids: seq<string>)
    ensures |ids| == |rows|
  {
    seq(|rows|, i requires 0 <= i < |rows| => rows[i].id)
  }

  function FirstThree(rows: seq<Row>): seq<string> { Ids(rows[..Min(3, |rows|)]) }

  predicate Meets(q: Requirement, pos: seq<Row>, neg: seq<Row>) {
    (q.needed == NeedPositive && pos != []) || (q.needed == NeedNegative && neg != [])
  }

  /** The ids of the requirements that are met, or of those that are not, in order. */
  function IdsWhere(qs: seq<Requirement>, pos: seq<Row>, neg: seq<Row>, met: bool): seq<string> {
    if qs == [] then []
    else IdsWhere(Front(qs), pos, neg, met) + When(Meets(Last(qs), pos, neg) == met, Last(qs).id)
  }

  /** A met requirement is marked and cites evidence; an unmet one is left as it was, marked or not. */
  function Marked(q: Requirement, pos: seq<Row>, neg: seq<Row>): Requirement {
    if !Meets(q, pos, neg) then q
    else q.(satisfied := true, evidenceIds := FirstThree(if q.needed == NeedPositive then pos else neg))
  }

  /** What becomes of one requirement, by what it asks for; a met one cites the first rows, at most three. */
  lemma RequirementSpelledOut(q: Requirement, pos: seq<Row>, neg: seq<Row>)
    ensures var m, rows := Marked(q, pos, neg), if q.needed == NeedPositive then pos else neg;
            if q.needed != NeedAny && |rows| > 0
            then Meets(q, pos, neg) && m.id == q.id && m.needed == q.needed && m.satisfied
                 && |m.evidenceIds| == (if |rows| < 3 then |rows| else 3)
                 && forall i :: 0 <= i < |m.evidenceIds| ==> m.evidenceIds[i] == rows[i].id
            else !Meets(q, pos, neg) && m == q
  {}

  /** When the verifier confirms: enough positives, and more of them than negatives. */
  predicate Confirms(rows: seq<Row>, hyp: string, minPositive: int) {
    var pos, neg := |Bearing(rows, hyp, Positive)|, |Bearing(rows, hyp, Negative)|;
    pos >= Max(1, minPositive) && neg < pos
  }

  lemma {:induction false} BearingCounts(rows: seq<Row>, hyp: string, p: Polarity, q: Polarity)
    ensures Count(Bearing(rows, hyp, p), q) == if p == q then |Bearing(rows, hyp, p)| else 0
  {
    if rows != [] {
      BearingCounts(Front(rows), hyp, p, q);
      if Last(rows).entry.polarity == p && Bears(Last(rows), hyp) {
        assert Front(Bearing(rows, hyp, p)) == Bearing(Front(rows), hyp, p);
      } else {
        assert Bearing(rows, hyp, p) == Bearing(Front(rows), hyp, p);
      }
    }
  }

  lemma {:induction false} CountAppend(a: seq<Row>, b: seq<Row>, p: Polarity)
    ensures Count(a + b, p) == Count(a, p) + Count(b, p)
  {
    if b == [] {
      assert a + b == a;
    } else {
      FrontConcat(a, b);
      CountAppend(a, Front(b), p);
    }
  }

  /** What the verifier says of the rows: outcome, status and cited ids. */
  predicate Answers(r: Result, rows: seq<Row>, hyp: string, minPositive: int) {
    var pos, neg := Bearing(rows, hyp, Positive), Bearing(rows, hyp, Negative);
    && (r.outcome == OutConfirmed <==> Confirms(rows, hyp, minPositive))
    && (r.outcome == OutDisproved <==> pos == [] && neg != [] && minPositive >= 1)
    && r.status == (if r.outcome == OutConfirmed then Confirmed
                    else if r.outcome == OutDisproved then Rejected
                    else if |pos| >= minPositive && neg != [] then Likely
                    else Candidate)
    && (r.cannotConfirm <==> r.outcome != OutConfirmed)
    && r.evidenceIds == Ids(pos) + Ids(neg) + Ids(Bearing(rows, hyp, Neutral))
  }

  class ExecutableVerifier {
    const store: EvidenceStore
    var history: seq<Result>

    constructor (store: EvidenceStore)
      ensures this.store == store && history == []
    {
      this.store, history := store, [];
    }

    /** `related` overrides the contract's hypothesis when given. */
    method Verify(c: EvidenceContract, related: string := "") returns (r: Result)
      modifies this`history, c`requirements
      ensures history == old(history) + [r]
      ensures var hyp, rows := if related != "" then related else c.hypothesis, ByTime(store.rows);
              var pos, neg := Bearing(rows, hyp, Positive), Bearing(rows, hyp, Negative);
              && Answers(r, rows, hyp, c.minPositive)
              && |c.requirements| == |old(c.requirements)|
              && (forall i :: 0 <= i < |c.requirements| ==>
                    c.requirements[i] == Marked(old(c.requirements)[i], pos, neg))
              && r.met == IdsWhere(old(c.requirements), pos, neg, true)
              && r.unmet == IdsWhere(old(c.requirements), pos, neg, false)
                            + When(pos == [] && neg == [] && c.minPositive <= 0, "no_positive_evidence")
    {
      var hyp := if related != "" then related else c.hypothesis;
      var rows := ByTime(store.rows);
      var pos, neg, neutral := Partition(rows, hyp);
      var met, unmet := MarkRequirements(c, pos, neg);
      LadderCounts(rows, hyp);
      var outcome, status, blocked := Judge(pos, neg, neutral, c.minPositive, c.allowWithoutPositive);
      r := Result(outcome, status, Ids(pos) + Ids(neg) + Ids(neutral), met, unmet + blocked, outcome != OutConfirmed);
      history := history + [r];
    }

    /** The branches of verify once the rows are partitioned; `blocked` are reasons the ladder adds to the unmet ids. */
    static method Judge(pos: seq<Row>, neg: seq<Row>, neutral: seq<Row>, minPositive: int, allowWithoutPositive: bool)
        returns (outcome: Outcome, status: FindingStatus, blocked: seq<string>)
      requires Count(pos + neg + neutral, Positive) == |pos| && Count(pos + neg + neutral, Negative) == |neg|
      ensures outcome == OutConfirmed <==> |pos| >= Max(1, minPositive) && |neg| < |pos|
      ensures outcome == OutDisproved <==> pos == [] && neg != [] && minPositive >= 1
      ensures status == (if outcome == OutConfirmed then Confirmed
                         else if outcome == OutDisproved then Rejected
                         else if |pos| >= minPositive && neg != [] then Likely
                         else Candidate)
      ensures blocked == When(pos == [] && neg == [] && minPositive <= 0, "no_positive_evidence")
    {
      if |pos| < minPositive || allowWithoutPositive {
        if |pos| < minPositive {
          if neg != [] && pos == [] { return OutDisproved, Rejected, []; }
          return OutInconclusive, Candidate, [];
        }
      }
      // The source tests `unmet and too few positives` once more here; too few is already ruled out.
      if neg != [] && |neg| >= |pos| { return OutInconclusive, Likely, []; }
      var suff := Assess(pos + neg + neutral, true, true, 1, Max(1, minPositive), false);
      if !suff.canConfirm { return OutInconclusive, Candidate, suff.reasons; }
      return OutConfirmed, Confirmed, [];
    }

    method Partition(rows: seq<Row>, hyp: string) returns (pos: seq<Row>, neg: seq<Row>, neutral: seq<Row>)
      ensures pos == Bearing(rows, hyp, Positive) && neg == Bearing(rows, hyp, Negative)
      ensures neutral == Bearing(rows, hyp, Neutral)
    {
      pos, neg, neutral := [], [], [];
      for i := 0 to |rows|
        invariant pos == Bearing(rows[..i], hyp, Positive) && neg == Bearing(rows[..i], hyp, Negative)
        invariant neutral == Bearing(rows[..i], hyp, Neutral)
      {
        FrontTake(rows, i);
        assert pos + [] == pos && neg + [] == neg && neutral + [] == neutral;
        if Bears(rows[i], hyp) {
          match rows[i].entry.polarity
          case Positive => pos := pos + [rows[i]];
          case Negative => neg := neg + [rows[i]];
          case Neutral => neutral := neutral + [rows[i]];
        }
      }
      assert rows[..|rows|] == rows;
    }

    method MarkRequirements(c: EvidenceContract, pos: seq<Row>, neg: seq<Row>)
        returns (met: seq<string>, unmet: seq<string>)
      modifies c`requirements
      ensures |c.requirements| == |old(c.requirements)|
      ensures forall i :: 0 <= i < |c.requirements| ==>
                c.requirements[i] == Marked(old(c.requirements)[i], pos, neg)
      ensures met == IdsWhere(old(c.requirements), pos, neg, true)
      ensures unmet == IdsWhere(old(c.requirements), pos, neg, false)
    {
      met, unmet := [], [];
      ghost var before := c.requirements;
      for i := 0 to |c.requirements|
        invariant |c.requirements| == |before|
        invariant forall k :: 0 <= k < i ==> c.requirements[k] == Marked(before[k], pos, neg)
        invariant forall k :: i <= k < |before| ==> c.requirements[k] == before[k]
        invariant met == IdsWhere(before[..i], pos, neg, true) && unmet == IdsWhere(before[..i], pos, neg, false)
      {
        var q := c.requirements[i];
        FrontTake(before, i);
        assert met + [] == met && unmet + [] == unmet;
        if q.needed == NeedPositive && pos != [] {
          c.requirements := c.requirements[i := q.(satisfied := true, evidenceIds := FirstThree(pos))];
          met := met + [q.id];
        } else if q.needed == NeedNegative && neg != [] {
          c.requirements := c.requirements[i := q.(satisfied := true, evidenceIds := FirstThree(neg))];
          met := met + [q.id];
        } else {
          unmet := unmet + [q.id];
        }
      }
      assert before[..|before|] == before;
    }
  }

  /** What the ladder counts on the regrouped rows. */
  lemma LadderCounts(rows: seq<Row>, hyp: string)
    ensures var pos, neg, neutral := Bearing(rows, hyp, Positive), Bearing(rows, hyp, Negative), Bearing(rows, hyp, Neutral);
            && Count(pos + neg + neutral, Positive) == |pos| && Count(pos + neg + neutral, Negative) == |neg|
  {
    var pos, neg, neutral := Bearing(rows, hyp, Positive), Bearing(rows, hyp, Negative), Bearing(rows, hyp, Neutral);
    CountAppend(pos + neg, neutral, Positive);
    CountAppend(pos, neg, Positive);
    CountAppend(pos + neg, neutral, Negative);
    CountAppend(pos, neg, Negative);
    BearingCounts(rows, hyp, Positive, Positive);
    BearingCounts(rows, hyp, Positive, Negative);
    BearingCounts(rows, hyp, Negative, Positive);
    BearingCounts(rows, hyp, Negative, Negative);
    BearingCounts(rows, hyp, Neutral, Positive);
    BearingCounts(rows, hyp, Neutral, Negative);
  }

  // ---------------------------------------------------------------- how the verdict moves with the evidence

  lemma {:induction false} BearingAppend(a: seq<Row>, b: seq<Row>, hyp: string, p: Polarity)
    ensures Bearing(a + b, hyp, p) == Bearing(a, hyp, p) + Bearing(b, hyp, p)
  {
    if b == [] {
      assert a + b == a;
    } else {
      FrontConcat(a, b);
      BearingAppend(a, Front(b), hyp, p);
    }
  }

  lemma {:induction false} InsertedBearing(rows: seq<Row>, r: Row, hyp: string, p: Polarity)
    ensures |Bearing(InsertByTime(rows, r), hyp, p)|
            == |Bearing(rows, hyp, p)| + if r.entry.polarity == p && Bears(r, hyp) then 1 else 0
  {
    if rows == [] || Last(rows).timestamp <= r.timestamp {
      FrontAppend(rows, r);
    } else {
      InsertedBearing(Front(rows), r, hyp, p);
      FrontAppend(InsertByTime(Front(rows), r), Last(rows));
    }
  }

  /** Reading the table in timestamp order changes no count, so no verdict. */
  lemma {:induction false} OrderKeepsBearing(rows: seq<Row>, hyp: string, p: Polarity)
    ensures |Bearing(ByTime(rows), hyp, p)| == |Bearing(rows, hyp, p)|
  {
    if rows != [] {
      OrderKeepsBearing(Front(rows), hyp, p);
      InsertedBearing(ByTime(Front(rows)), Last(rows), hyp, p);
    }
  }

  lemma OrderKeepsVerdict(rows: seq<Row>, hyp: string, minPositive: int)
    ensures Confirms(ByTime(rows), hyp, minPositive) <==> Confirms(rows, hyp, minPositive)
  {
    OrderKeepsBearing(rows, hyp, Positive);
    OrderKeepsBearing(rows, hyp, Negative);
  }

  /** A row of the list is taken in exactly when neither side names a hypothesis or both name the same one. */
  lemma {:induction false} BearingMembers(rows: seq<Row>, hyp: string, p: Polarity, r: Row)
    ensures r in Bearing(rows, hyp, p) <==>
            r in rows && r.entry.polarity == p
            && (hyp == "" || r.entry.hypothesis == None || r.entry.hypothesis == Some("") || r.entry.hypothesis == Some(hyp))
  {
    if rows != [] {
      FrontLast(rows);
      BearingMembers(Front(rows), hyp, p, r);
    }
  }

  /** The row is one of those that Bearing selects. */
  predicate Takes(r: Row, hyp: string, p: Polarity) { r.entry.polarity == p && Bears(r, hyp) }

  lemma LastTakenIsEarlier(rows: seq<Row>, hyp: string, p: Polarity, x: Row)
    requires TimeSorted(rows) && Bearing(rows, hyp, p) != [] && Last(rows).timestamp <= x.timestamp
    requires rows != []
    ensures Last(Bearing(rows, hyp, p)).timestamp <= x.timestamp
  {
    var r := Last(Bearing(rows, hyp, p));
    BearingMembers(rows, hyp, p, r);
    var i :| 0 <= i < |rows| && rows[i] == r;
  }

  lemma {:induction false} InsertThenSelect(rows: seq<Row>, x: Row, hyp: string, p: Polarity)
    requires TimeSorted(rows)
    ensures Takes(x, hyp, p) ==> Bearing(InsertByTime(rows, x), hyp, p) == InsertByTime(Bearing(rows, hyp, p), x)
    ensures !Takes(x, hyp, p) ==> Bearing(InsertByTime(rows, x), hyp, p) == Bearing(rows, hyp, p)
  {
    var taken := Bearing(rows, hyp, p);
    if rows == [] || Last(rows).timestamp <= x.timestamp {
      InsertAtEnd(rows, x);
      BearingGrows(rows, x, hyp, p);
      if taken != [] { LastTakenIsEarlier(rows, hyp, p, x); }
      InsertAtEnd(taken, x);
      assert taken + [] == taken;
    } else {
      InsertThenSelect(Front(rows), x, hyp, p);
      FrontLast(rows);
      SelectBeforeLast(Front(rows), Last(rows), x, hyp, p);
    }
  }

  /** The step of the induction: the last row stays last. */
  lemma SelectBeforeLast(f: seq<Row>, l: Row, x: Row, hyp: string, p: Polarity)
    requires x.timestamp < l.timestamp
    requires Bearing(InsertByTime(f, x), hyp, p) == if Takes(x, hyp, p) then InsertByTime(Bearing(f, hyp, p), x) else Bearing(f, hyp, p)
    ensures Bearing(InsertByTime(f + [l], x), hyp, p)
            == if Takes(x, hyp, p) then InsertByTime(Bearing(f + [l], hyp, p), x) else Bearing(f + [l], hyp, p)
  {
    InsertBeforeLast(f, l, x);
    BearingGrows(f, l, hyp, p);
    BearingGrows(InsertByTime(f, x), l, hyp, p);
    InsertBeforeMaybe(Bearing(f, hyp, p), l, x, Takes(l, hyp, p));
  }

  lemma InsertBeforeMaybe(taken: seq<Row>, l: Row, x: Row, hit: bool)
    requires x.timestamp < l.timestamp
    ensures InsertByTime(taken + When(hit, l), x) == InsertByTime(taken, x) + When(hit, l)
  {
    if hit {
      InsertBeforeLast(taken, l, x);
    } else {
      assert taken + [] == taken && InsertByTime(taken, x) + [] == InsertByTime(taken, x);
    }
  }

  /** Ordering by time and selecting the bearing rows commute. */
  lemma {:induction false} OrderThenSelect(rows: seq<Row>, hyp: string, p: Polarity)
    ensures Bearing(ByTime(rows), hyp, p) == ByTime(Bearing(rows, hyp, p))
  {
    if rows != [] {
      var f, l := Front(rows), Last(rows);
      OrderThenSelect(f, hyp, p);
      ByTimeSorts(f);
      InsertThenSelect(ByTime(f), l, hyp, p);
      FrontLast(rows);
      ByTimeGrows(f, l);
      BearingGrows(f, l, hyp, p);
      ByTimeGrows(Bearing(f, hyp, p), l);
      assert Bearing(f, hyp, p) + [] == Bearing(f, hyp, p);
    }
  }

  lemma SelectAround(a: seq<Row>, b: seq<Row>, r: Row, hyp: string, p: Polarity)
    requires !Takes(r, hyp, p)
    ensures Bearing(ByTime(a + [r] + b), hyp, p) == Bearing(ByTime(a + b), hyp, p)
  {
    OrderThenSelect(a + [r] + b, hyp, p);
    OrderThenSelect(a + b, hyp, p);
    BearingAppend(a, b, hyp, p);
    BearingAppend(a + [r], b, hyp, p);
    BearingGrows(a, r, hyp, p);
    assert Bearing(a, hyp, p) + [] == Bearing(a, hyp, p);
  }

  /** Evidence recorded for one hypothesis says nothing about another: wherever it lands, the answer is the same. */
  lemma OtherHypothesisChangesNothing(a: seq<Row>, b: seq<Row>, r: Row, hyp: string, other: string, minPositive: int, x: Result)
    requires r.entry.hypothesis == Some(other) && other != "" && hyp != "" && other != hyp
    ensures forall p :: Bearing(ByTime(a + [r] + b), hyp, p) == Bearing(ByTime(a + b), hyp, p)
    ensures Answers(x, ByTime(a + [r] + b), hyp, minPositive) <==> Answers(x, ByTime(a + b), hyp, minPositive)
  {
    forall p ensures Bearing(ByTime(a + [r] + b), hyp, p) == Bearing(ByTime(a + b), hyp, p) {
      SelectAround(a, b, r, hyp, p);
    }
    SameSelectionSameAnswer(ByTime(a + [r] + b), ByTime(a + b), hyp, minPositive, x);
  }

  lemma SameSelectionSameAnswer(rows: seq<Row>, others: seq<Row>, hyp: string, minPositive: int, x: Result)
    requires Bearing(rows, hyp, Positive) == Bearing(others, hyp, Positive)
    requires Bearing(rows, hyp, Negative) == Bearing(others, hyp, Negative)
    requires Bearing(rows, hyp, Neutral) == Bearing(others, hyp, Neutral)
    ensures Answers(x, rows, hyp, minPositive) <==> Answers(x, others, hyp, minPositive)
  {}

  /** A row that names no, an empty or the same hypothesis is cited, and counts once, for its own polarity alone. */
  lemma RelatedRowCounts(a: seq<Row>, b: seq<Row>, r: Row, hyp: string)
    requires hyp == "" || r.entry.hypothesis == None || r.entry.hypothesis == Some("") || r.entry.hypothesis == Some(hyp)
    ensures r in Bearing(ByTime(a + [r] + b), hyp, r.entry.polarity)
    ensures forall p ::
              |Bearing(ByTime(a + [r] + b), hyp, p)|
              == |Bearing(ByTime(a + b), hyp, p)| + if p == r.entry.polarity then 1 else 0
  {
    var table := a + [r] + b;
    ByTimeSorts(table);
    assert table[|a|] == r;
    assert r in multiset(ByTime(table)) by { assert r in multiset(table); }
    BearingMembers(ByTime(table), hyp, r.entry.polarity, r);
    forall p ensures |Bearing(ByTime(table), hyp, p)|
                     == |Bearing(ByTime(a + b), hyp, p)| + if p == r.entry.polarity then 1 else 0 {
      OrderKeepsBearing(table, hyp, p);
      OrderKeepsBearing(a + b, hyp, p);
      BearingWithRow(a, b, r, hyp, p);
    }
  }

  lemma BearingWithRow(a: seq<Row>, b: seq<Row>, r: Row, hyp: string, p: Polarity)
    ensures |Bearing(a + [r] + b, hyp, p)|
            == |Bearing(a + b, hyp, p)| + if r.entry.polarity == p && Bears(r, hyp) then 1 else 0
  {
    BearingAppend(a, b, hyp, p);
    BearingAppend(a, [r], hyp, p);
    BearingAppend(a + [r], b, hyp, p);
    assert Front([r]) == [];
  }

  /**
   Wherever it lands in the table the verifier reads, a positive or neutral row never loses a confirmation, a
   negative or neutral one never gains it.
   */
  lemma EvidenceMonotone(a: seq<Row>, b: seq<Row>, r: Row, hyp: string, minPositive: int)
    ensures var before, after := Confirms(ByTime(a + b), hyp, minPositive), Confirms(ByTime(a + [r] + b), hyp, minPositive);
            && (r.entry.polarity != Negative && before ==> after)
            && (r.entry.polarity != Positive && after ==> before)
  {
    OrderKeepsVerdict(a + b, hyp, minPositive);
    OrderKeepsVerdict(a + [r] + b, hyp, minPositive);
    BearingWithRow(a, b, r, hyp, Positive);
    BearingWithRow(a, b, r, hyp, Negative);
  }

  /**
   The two verifiers agree in direction: the row that a review records for a claim it did not break never
   costs a confirmation, the row it records otherwise never brings one, whatever the skeptic wrote before.
   */
  lemma ReviewMovesVerdict(s: StoreState, t: Loop.Turn, minPositive: int)
    ensures var heard := Loop.WrittenAll(s, t.writes);
            var before, after := Confirms(ByTime(heard.rows), t.hypothesis, minPositive),
                                 Confirms(ByTime(Loop.Conduct(s, t).rows), t.hypothesis, minPositive);
            if Loop.Survived(t.verdict) then before ==> after else after ==> before
  {
    var rows := Loop.WrittenAll(s, t.writes).rows;
    var r := NewRow(rows, Loop.SkepticEntry(t), t.evidenceId, t.at);
    EvidenceMonotone(rows, [], r, t.hypothesis, minPositive);
    assert rows + [] == rows && rows + [r] + [] == rows + [r];
  }

  // ---------------------------------------------------------------- CONFIRMED and the listed requirements

  predicate AllMet(qs: seq<Requirement>, pos: seq<Row>, neg: seq<Row>) {
    forall i :: 0 <= i < |qs| ==> Meets(qs[i], pos, neg)
  }

  lemma {:induction false} NoneUnmet(qs: seq<Requirement>, pos: seq<Row>, neg: seq<Row>)
    ensures IdsWhere(qs, pos, neg, false) == [] <==> AllMet(qs, pos, neg)
  {
    if qs != [] {
      NoneUnmet(Front(qs), pos, neg);
      FrontLast(qs);
    }
  }

  /**
   When CONFIRMED means that every listed requirement was met: exactly when each asks for positive evidence,
   or for negative evidence of which there is some.  The list of unmet ones is empty in just that case.
   */
  lemma ConfirmedRequirements(rows: seq<Row>, hyp: string, minPositive: int, qs: seq<Requirement>)
    requires Confirms(rows, hyp, minPositive)
    ensures var pos, neg := Bearing(rows, hyp, Positive), Bearing(rows, hyp, Negative);
            && (AllMet(qs, pos, neg) <==> IdsWhere(qs, pos, neg, false) == [])
            && (AllMet(qs, pos, neg) <==>
                  forall i :: 0 <= i < |qs| ==>
                    qs[i].needed == NeedPositive || (qs[i].needed == NeedNegative && neg != []))
  {
    NoneUnmet(qs, Bearing(rows, hyp, Positive), Bearing(rows, hyp, Negative));
  }

  /** So it does not: one supporting row, and a contract that also asks for a refuting one. */
  method ConfirmedWithUnmet(id: string, now: real) returns (r: Result)
    ensures r.outcome == OutConfirmed && r.status == Confirmed && r.met == ["support"] && r.unmet == ["refutation"]
  {
    var store := new EvidenceStore();
    var row := store.Record(Entry("", "", "", "", "", Positive, 1.0, "", Some("h"), None), id, now);
    var qs := [Requirement("support", NeedPositive, false, []), Requirement("refutation", NeedNegative, false, [])];
    var c := new EvidenceContract("h", 1, false, qs);
    var verifier := new ExecutableVerifier(store);
    OneRow(row);
    TwoRequirements(qs, [row]);
    assert store.rows == [row];
    r := verifier.Verify(c);
  }

  lemma OneRow(row: Row)
    requires row.entry.polarity == Positive && row.entry.hypothesis == Some("h")
    ensures ByTime([row]) == [row]
    ensures Bearing([row], "h", Positive) == [row] && Bearing([row], "h", Negative) == []
  {
    ClockedIsSorted([row]);
    BearingGrows([], row, "h", Positive);
    BearingGrows([], row, "h", Negative);
  }

  lemma BearingGrows(rows: seq<Row>, r: Row, hyp: string, p: Polarity)
    ensures Bearing(rows + [r], hyp, p) == Bearing(rows, hyp, p) + When(r.entry.polarity == p && Bears(r, hyp), r)
    ensures [] + [r] == [r]
  {
    FrontAppend(rows, r);
  }

  lemma TwoRequirements(qs: seq<Requirement>, pos: seq<Row>)
    requires pos != [] && |qs| == 2 && qs[0].needed == NeedPositive && qs[1].needed == NeedNegative
    ensures IdsWhere(qs, pos, [], true) == [qs[0].id] && IdsWhere(qs, pos, [], false) == [qs[1].id]
  {
    assert Front(qs) == [qs[0]] && Front([qs[0]]) == [];
    assert IdsWhere([qs[0]], pos, [], true) == [qs[0].id] && IdsWhere([qs[0]], pos, [], false) == [];
  }

  /** A requirement that accepts any polarity is never met by anything. */
  lemma AnyRequirementNeverMet(q: Requirement, pos: seq<Row>, neg: seq<Row>)
    requires q.needed == NeedAny
    ensures !Meets(q, pos, neg) && Marked(q, pos, neg) == q
  {}
}
