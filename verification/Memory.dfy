/** memory/trusted.py: the trust life cycle of memory items. */
module TrustedMemory {
  import opened Common

  datatype Trust = Candidate | Validated | Trusted | Promoted | Superseded | Revoked

  datatype MemoryItem = MemoryItem(memoryId: string, contentRef: string, trust: Trust, provenance: seq<string>,
                                   validation: seq<string>, promotion: seq<string>, scope: string,
                                   source: string, notes: seq<string>)

  datatype Denial = NotValidated | UntrustedSource | NoPromotionEvidence

  datatype AuditEntry =
    | Added(id: string) | Validate(id: string) | ValidateDenied(id: string)
    | Promote(id: string) | PromoteDenied(id: string, why: Denial)
    | Revoke(id: string, reason: string) | Supersede(id: string, replacement: string, reason: string)

  /** `ids` is the insertion order of the items dictionary. */
  datatype StoreState = StoreState(items: map<string, MemoryItem>, ids: seq<string>, audit: seq<AuditEntry>)

  predicate Live(t: Trust) { t == Trusted || t == Promoted }

  /** A live item applies to its own scope; one without scope applies everywhere. */
  predicate Applies(s: StoreState, id: string, scope: string) {
    id in s.items && Live(s.items[id].trust) && (s.items[id].scope == "" || s.items[id].scope == scope)
  }

  function Put(s: StoreState, item: MemoryItem, entry: AuditEntry): StoreState {
    StoreState(s.items[item.memoryId := item],
               if item.memoryId in s.items then s.ids else s.ids + [item.memoryId], s.audit + [entry])
  }

  function Note(s: StoreState, entry: AuditEntry): StoreState { s.(audit := s.audit + [entry]) }

  function AfterAdd(s: StoreState, id: string, ref: string, provenance: seq<string>, source: string, scope: string): StoreState {
    Put(s, MemoryItem(id, ref, Candidate, provenance, [], [], scope, source, []), Added(id))
  }

  function AfterValidate(s: StoreState, id: string, evidence: seq<string>): StoreState {
    if id !in s.items then s
    else if evidence == [] then Note(s, ValidateDenied(id))
    else s.(items := s.items[id := s.items[id].(trust := Validated, validation := evidence)],
            audit := s.audit + [Validate(id)])
  }

  /** Why a promotion is refused, if it is. */
  function Refusal(item: MemoryItem, evidence: seq<string>): Option<Denial> {
    if item.trust == Candidate then Some(NotValidated)
    else if item.source == "untrusted" && item.trust != Validated then Some(UntrustedSource)
    else if evidence == [] && item.validation == [] then Some(NoPromotionEvidence)
    else None
  }

  function AfterPromote(s: StoreState, id: string, evidence: seq<string>): StoreState {
    if id !in s.items then s
    else
      var item := s.items[id];
      if Refusal(item, evidence).Some? then Note(s, PromoteDenied(id, Refusal(item, evidence).value))
      else
        s.(items := s.items[id := item.(trust := Promoted,
                                        promotion := if evidence != [] then evidence else item.validation)],
           audit := s.audit + [Promote(id)])
  }

  function AfterRevoke(s: StoreState, id: string, reason: string): StoreState {
    if id !in s.items then s
    else
      var note := if reason != "" then reason else "revoked";
      s.(items := s.items[id := s.items[id].(trust := Revoked, notes := s.items[id].notes + [note])],
         audit := s.audit + [Revoke(id, reason)])
  }

  function AfterSupersede(s: StoreState, id: string, replacement: string, reason: string): StoreState {
    if id !in s.items then s
    else
      var note := "superseded_by:" + replacement + ":" + reason;
      s.(items := s.items[id := s.items[id].(trust := Superseded, notes := s.items[id].notes + [note])],
         audit := s.audit + [Supersede(id, replacement, reason)])
  }

  /** Content references of the applicable items, in insertion order; no scope means every live item. */
  function RefsFor(s: StoreState, ids: seq<string>, scope: Option<string>): seq<string> {
    if ids == [] then []
    else
      var id := Last(ids);
      RefsFor(s, Front(ids), scope)
      + if id in s.items && Live(s.items[id].trust) && (scope.None? || Applies(s, id, scope.value))
        then [s.items[id].contentRef] else []
  }

  /** An item that may be handed out: trusted or promoted, and not of another scope. */
  predicate HandedOut(item: MemoryItem, scope: Option<string>) {
    (item.trust == Trusted || item.trust == Promoted) && (scope == None || item.scope == "" || Some(item.scope) == scope)
  }

  /** One more item: its reference is added last, and only if it may be handed out. */
  lemma RefsGrow(s: StoreState, ids: seq<string>, id: string, scope: Option<string>)
    requires id in s.items
    ensures RefsFor(s, ids + [id], scope) == RefsFor(s, ids, scope) + When(HandedOut(s.items[id], scope), s.items[id].contentRef)
  {
    FrontAppend(ids, id);
  }

  /** A reference is handed out exactly when it is that of such an item: one of another scope is withheld. */
  lemma {:induction false} RefsExactly(s: StoreState, ids: seq<string>, scope: Option<string>, ref: string)
    requires forall id :: id in ids ==> id in s.items
    ensures ref in RefsFor(s, ids, scope) <==>
            exists id :: id in ids && s.items[id].contentRef == ref && HandedOut(s.items[id], scope)
  {
    if ids != [] {
      FrontLast(ids);
      RefsExactly(s, Front(ids), scope, ref);
      RefsGrow(s, Front(ids), Last(ids), scope);
      assert forall id :: id in ids <==> id in Front(ids) || id == Last(ids);
    }
  }

  /** Promotion, by the fields of the item: past a validation, with evidence, from wherever the source is trusted. */
  lemma PromotionSpelledOut(s: StoreState, id: string, evidence: seq<string>)
    requires id in s.items
    ensures var item, n := s.items[id], AfterPromote(s, id, evidence);
            var may := item.trust != Candidate && (item.source == "untrusted" ==> item.trust == Validated)
                       && (|evidence| > 0 || |item.validation| > 0);
            && n.ids == s.ids && n.items.Keys == s.items.Keys && (forall k :: k in s.items && k != id ==> n.items[k] == s.items[k])
            && n.items[id] == (if may then item.(trust := Promoted, promotion := if |evidence| > 0 then evidence else item.validation)
                               else item)
            && n.audit == s.audit + [if may then Promote(id)
                                     else if item.trust == Candidate then PromoteDenied(id, NotValidated)
                                     else if item.source == "untrusted" && item.trust != Validated then PromoteDenied(id, UntrustedSource)
                                     else PromoteDenied(id, NoPromotionEvidence)]
  {}

  /** The other four transitions, by what they write. */
  lemma TransitionsSpelledOut(s: StoreState, id: string, evidence: seq<string>, replacement: string, reason: string)
    requires id in s.items
    ensures AfterValidate(s, id, evidence).items
            == (if |evidence| == 0 then s.items else s.items[id := s.items[id].(trust := Validated, validation := evidence)])
    ensures AfterRevoke(s, id, reason).items
            == s.items[id := s.items[id].(trust := Revoked,
                                          notes := s.items[id].notes + [if reason == "" then "revoked" else reason])]
    ensures AfterSupersede(s, id, replacement, reason).items
            == s.items[id := s.items[id].(trust := Superseded,
                                          notes := s.items[id].notes + ["superseded_by:" + replacement + ":" + reason])]
    ensures AfterValidate(s, id, evidence).ids == AfterRevoke(s, id, reason).ids
            == AfterSupersede(s, id, replacement, reason).ids == s.ids
  {}

  class TrustedMemoryStore {
    var items: map<string, MemoryItem>
    var ids: seq<string>
    var audit: seq<AuditEntry>

    ghost function State(): StoreState
      reads this
    {
      StoreState(items, ids, audit)
    }

    constructor ()
      ensures State() == StoreState(map[], [], [])
    {
      items, ids, audit := map[], [], [];
    }

    /** dict assignment: a new key goes to the end of the iteration order. */
    method SetItem(item: MemoryItem)
      modifies this
      ensures items == old(items)[item.memoryId := item] && audit == old(audit)
      ensures ids == if item.memoryId in old(items) then old(ids) else old(ids) + [item.memoryId]
    {
      if item.memoryId !in items { ids := ids + [item.memoryId]; }
      items := items[item.memoryId := item];
    }

    /** `id` is the fresh uuid. */
    method AddCandidate(id: string, ref: string, provenance: seq<string>, source: string := "untrusted",
                        scope: string := "")
      modifies this
      ensures State() == AfterAdd(old(State()), id, ref, provenance, source, scope)
    {
      SetItem(MemoryItem(id, ref, Candidate, provenance, [], [], scope, source, []));
      audit := audit + [Added(id)];
    }

    method ValidateItem(id: string, evidence: seq<string>)
      modifies this
      ensures State() == AfterValidate(old(State()), id, evidence)
    {
      if id !in items { return; }
      if evidence == [] {
        audit := audit + [ValidateDenied(id)];
        return;
      }
      items := items[id := items[id].(trust := Validated, validation := evidence)];
      audit := audit + [Validate(id)];
    }

    method PromoteItem(id: string, evidence: seq<string>)
      modifies this
      ensures State() == AfterPromote(old(State()), id, evidence)
    {
      if id !in items { return; }
      var item := items[id];
      if item.trust == Candidate {
        audit := audit + [PromoteDenied(id, NotValidated)];
        return;
      }
      if item.source == "untrusted" && item.trust != Validated {
        audit := audit + [PromoteDenied(id, UntrustedSource)];
        return;
      }
      if evidence == [] && item.validation == [] {
        audit := audit + [PromoteDenied(id, NoPromotionEvidence)];
        return;
      }
      item := item.(trust := Promoted);
      item := item.(promotion := if evidence != [] then evidence else item.validation);
      items := items[id := item];
      audit := audit + [Promote(id)];
    }

    method RevokeItem(id: string, reason: string)
      modifies this
      ensures State() == AfterRevoke(old(State()), id, reason)
    {
      if id !in items { return; }
      var note := if reason != "" then reason else "revoked";
      items := items[id := items[id].(trust := Revoked, notes := items[id].notes + [note])];
      audit := audit + [Revoke(id, reason)];
    }

    method SupersedeItem(id: string, replacement: string, reason: string)
      modifies this
      ensures State() == AfterSupersede(old(State()), id, replacement, reason)
    {
      if id !in items { return; }
      var note := "superseded_by:" + replacement + ":" + reason;
      items := items[id := items[id].(trust := Superseded, notes := items[id].notes + [note])];
      audit := audit + [Supersede(id, replacement, reason)];
    }

    predicate IsApplicable(id: string, scope: string)
      reads this
      ensures IsApplicable(id, scope) <==> Applies(State(), id, scope)
    {
      if id !in items then false
      else
        var item := items[id];
        if item.trust != Trusted && item.trust != Promoted then false
        else if item.scope == "" then true
        else item.scope == scope
    }

    /** What is handed out for a scope is what is_applicable accepts for it. */
    method TrustedRefs(scope: Option<string>) returns (refs: seq<string>)
      requires Elems(ids) == items.Keys
      ensures refs == RefsFor(State(), ids, scope)
    {
      refs := [];
      for i := 0 to |ids|
        invariant refs == RefsFor(State(), ids[..i], scope)
      {
        assert ids[i] in Elems(ids);
        FrontTake(ids, i);
        var item := items[ids[i]];
        if !(item.trust == Trusted || item.trust == Promoted) {
          assert refs + [] == refs;
        } else if scope.Some? && item.scope != "" && item.scope != scope.value {
          assert refs + [] == refs;
        } else {
          refs := refs + [item.contentRef];
        }
      }
      assert ids[..|ids|] == ids;
    }
  }
}

/** memory/replay_validate.py: the independent checker, and the checkpoint/resume copy. */
module MemoryReplay {
  import opened Common
  import opened TrustedMemory

  datatype Check =
    | UntrustedPromotedWithoutValidation | DeadStillApplicable | CrossTargetLeak
    | ClaimsExecution | NoteGrantsExecution | PromotedWithoutProvenance

  datatype Failure = Failure(check: Check, id: string)

  /** The names under which the five passes are listed in the report. */
  datatype CheckName =
    | UntrustedPromotionGate | RevokedSupersededNotApplicable | CrossTargetIsolation
    | MemoryNeqExecution | PromotedHasProvenanceOrEvidence

  datatype Report = Report(ok: bool, checks: seq<CheckName>, failures: seq<Failure>)

  /** The condition under which a check fails an item. */
  predicate Fails(s: StoreState, check: Check, id: string, scope: string)
    requires id in s.items
  {
    var item := s.items[id];
    match check
    case UntrustedPromotedWithoutValidation => item.source == "untrusted" && Live(item.trust) && item.validation == []
    case DeadStillApplicable => (item.trust == Revoked || item.trust == Superseded) && Applies(s, item.memoryId, scope)
    case CrossTargetLeak =>
      Live(item.trust) && item.scope != "" && item.scope != scope && Applies(s, item.memoryId, scope)
    case ClaimsExecution => Contains("execution_permission", Lower(item.contentRef))
    case NoteGrantsExecution => exists n :: n in item.notes && Contains("grant_execution", Lower(n))
    case PromotedWithoutProvenance => item.trust == Promoted && item.provenance == [] && item.promotion == []
  }

  function FailuresOf(s: StoreState, checks: seq<Check>, id: string, scope: string): seq<Failure>
    requires id in s.items
  {
    if checks == [] then []
    else FailuresOf(s, Front(checks), id, scope) + if Fails(s, Last(checks), id, scope) then [Failure(Last(checks), id)] else []
  }

  /** One pass over the items, in order. */
  function PassFailures(s: StoreState, ids: seq<string>, checks: seq<Check>, scope: string): seq<Failure>
    requires forall id :: id in ids ==> id in s.items
  {
    if ids == [] then []
    else PassFailures(s, Front(ids), checks, scope) + FailuresOf(s, checks, Last(ids), scope)
  }

  function AllFailures(s: StoreState, scope: string): seq<Failure>
    requires forall id :: id in s.ids ==> id in s.items
  {
    PassFailures(s, s.ids, [UntrustedPromotedWithoutValidation], scope)
    + PassFailures(s, s.ids, [DeadStillApplicable], scope)
    + PassFailures(s, s.ids, [CrossTargetLeak], scope)
    + PassFailures(s, s.ids, [ClaimsExecution, NoteGrantsExecution], scope)
    + PassFailures(s, s.ids, [PromotedWithoutProvenance], scope)
  }

  /** One of the five loops of the checker. */
  method Pass(store: TrustedMemoryStore, checks: seq<Check>, scope: string, report: Report, name: CheckName)
      returns (r: Report)
    requires forall id :: id in store.ids ==> id in store.items
    requires report.ok <==> report.failures == []
    ensures r.failures == report.failures + PassFailures(store.State(), store.ids, checks, scope)
    ensures r.checks == report.checks + [name] && (r.ok <==> r.failures == [])
  {
    var s := StoreState(store.items, store.ids, store.audit);
    r := report;
    for i := 0 to |store.ids|
      invariant r.failures == report.failures + PassFailures(s, store.ids[..i], checks, scope)
      invariant r.checks == report.checks && (r.ok <==> r.failures == [])
    {
      var id := store.ids[i];
      FrontTake(store.ids, i);
      ghost var before := r.failures;
      for k := 0 to |checks|
        invariant r.failures == before + FailuresOf(s, checks[..k], id, scope)
        invariant r.checks == report.checks && (r.ok <==> r.failures == [])
      {
        assert Front(checks[..k + 1]) == checks[..k];
        if Fails(s, checks[k], id, scope) {
          r := r.(failures := r.failures + [Failure(checks[k], id)], ok := false);
        }
      }
      assert checks[..|checks|] == checks;
    }
    assert store.ids[..|store.ids|] == store.ids;
    r := r.(checks := r.checks + [name]);
  }

  method ValidateMemoryReplay(store: TrustedMemoryStore, scope: string) returns (r: Report)
    requires forall id :: id in store.ids ==> id in store.items
    ensures r.failures == AllFailures(store.State(), scope)
    ensures r.ok <==> r.failures == []
    ensures r.checks == [UntrustedPromotionGate, RevokedSupersededNotApplicable, CrossTargetIsolation,
                         MemoryNeqExecution, PromotedHasProvenanceOrEvidence]
  {
    r := Report(true, [], []);
    r := Pass(store, [UntrustedPromotedWithoutValidation], scope, r, UntrustedPromotionGate);
    assert r.failures == PassFailures(store.State(), store.ids, [UntrustedPromotedWithoutValidation], scope);
    r := Pass(store, [DeadStillApplicable], scope, r, RevokedSupersededNotApplicable);
    r := Pass(store, [CrossTargetLeak], scope, r, CrossTargetIsolation);
    r := Pass(store, [ClaimsExecution, NoteGrantsExecution], scope, r, MemoryNeqExecution);
    r := Pass(store, [PromotedWithoutProvenance], scope, r, PromotedHasProvenanceOrEvidence);
  }

  /** When a check reports an item, by the item's own fields. */
  predicate Reported(item: MemoryItem, check: Check) {
    match check
    case UntrustedPromotedWithoutValidation =>
      item.source == "untrusted" && (item.trust == Trusted || item.trust == Promoted) && |item.validation| == 0
    case DeadStillApplicable => false
    case CrossTargetLeak => false
    case ClaimsExecution => Contains("execution_permission", Lower(item.contentRef))
    case NoteGrantsExecution => exists n :: n in item.notes && Contains("grant_execution", Lower(n))
    case PromotedWithoutProvenance => item.trust == Promoted && |item.provenance| == 0 && |item.promotion| == 0
  }

  lemma FailsExactly(s: StoreState, check: Check, id: string, scope: string)
    requires id in s.items && s.items[id].memoryId == id
    ensures Fails(s, check, id, scope) <==> Reported(s.items[id], check)
  {}

  lemma {:induction false} ItemReports(s: StoreState, checks: seq<Check>, id: string, scope: string, f: Failure)
    requires id in s.items && s.items[id].memoryId == id
    ensures f in FailuresOf(s, checks, id, scope) <==> f.id == id && f.check in checks && Reported(s.items[id], f.check)
  {
    if checks != [] {
      FrontLast(checks);
      ItemReports(s, Front(checks), id, scope, f);
      FailsExactly(s, Last(checks), id, scope);
    }
  }

  lemma {:induction false} PassReports(s: StoreState, ids: seq<string>, checks: seq<Check>, scope: string, f: Failure)
    requires forall id :: id in ids ==> id in s.items && s.items[id].memoryId == id
    ensures f in PassFailures(s, ids, checks, scope) <==> f.id in ids && f.check in checks && Reported(s.items[f.id], f.check)
  {
    if ids != [] {
      FrontLast(ids);
      PassReports(s, Front(ids), checks, scope, f);
      ItemReports(s, checks, Last(ids), scope, f);
    }
  }

  /**
   What the whole report holds on a store whose items sit under their own ids: each check exactly where the
   item's fields call for it.  The checks on dead memory and on cross-target use can never report anything,
   because the test they ask repeats the condition they come from.
   */
  lemma ReportExactly(s: StoreState, scope: string, f: Failure)
    requires forall id :: id in s.ids ==> id in s.items && s.items[id].memoryId == id
    ensures f in AllFailures(s, scope) <==> f.id in s.ids && Reported(s.items[f.id], f.check)
  {
    PassReports(s, s.ids, [UntrustedPromotedWithoutValidation], scope, f);
    PassReports(s, s.ids, [DeadStillApplicable], scope, f);
    PassReports(s, s.ids, [CrossTargetLeak], scope, f);
    PassReports(s, s.ids, [ClaimsExecution, NoteGrantsExecution], scope, f);
    PassReports(s, s.ids, [PromotedWithoutProvenance], scope, f);
  }

  // ---------------------------------------------------------------- every reachable store

  datatype Op =
    | OpAdd(id: string, ref: string, provenance: seq<string>, source: string, scope: string)
    | OpValidate(id: string, evidence: seq<string>)
    | OpPromote(id: string, evidence: seq<string>)
    | OpRevoke(id: string, reason: string)
    | OpSupersede(id: string, replacement: string, reason: string)

  function Apply(s: StoreState, op: Op): StoreState {
    match op
    case OpAdd(id, ref, provenance, source, scope) => AfterAdd(s, id, ref, provenance, source, scope)
    case OpValidate(id, evidence) => AfterValidate(s, id, evidence)
    case OpPromote(id, evidence) => AfterPromote(s, id, evidence)
    case OpRevoke(id, reason) => AfterRevoke(s, id, reason)
    case OpSupersede(id, replacement, reason) => AfterSupersede(s, id, replacement, reason)
  }

  function Run(ops: seq<Op>): StoreState {
    if ops == [] then StoreState(map[], [], []) else Apply(Run(Front(ops)), Last(ops))
  }

  /** The dictionary is well formed: each item sits under its own id, and the order lists each id once. */
  ghost predicate WellKeyed(s: StoreState) {
    && NoDup(s.ids) && Elems(s.ids) == s.items.Keys
    && forall id :: id in s.items ==> s.items[id].memoryId == id
  }

  /** What an item's trust state says about its evidence. */
  predicate Grounded(item: MemoryItem) {
    && item.trust != Trusted
    && (item.trust == Validated ==> item.validation != [])
    && (item.trust == Promoted ==> item.promotion != [] && (item.source == "untrusted" ==> item.validation != []))
  }

  lemma PutWellKeyed(s: StoreState, item: MemoryItem, entry: AuditEntry)
    requires WellKeyed(s)
    ensures WellKeyed(Put(s, item, entry))
  {
    var n := Put(s, item, entry);
    if item.memoryId !in s.items {
      assert item.memoryId !in Elems(s.ids);
      assert Elems(n.ids) == Elems(s.ids) + {item.memoryId};
    }
  }

  lemma {:induction false} ReachableWellKeyed(ops: seq<Op>)
    ensures WellKeyed(Run(ops))
  {
    if ops != [] {
      ReachableWellKeyed(Front(ops));
      match Last(ops)
      case OpAdd(id, ref, provenance, source, scope) =>
        PutWellKeyed(Run(Front(ops)), MemoryItem(id, ref, Candidate, provenance, [], [], scope, source, []), Added(id));
      case _ =>
    }
  }

  lemma {:induction false} ReachableGrounded(ops: seq<Op>)
    ensures forall id :: id in Run(ops).items ==> Grounded(Run(ops).items[id])
  {
    if ops != [] { ReachableGrounded(Front(ops)); }
  }

  /** Whether an item fails the one check about its texts, which callers choose freely. */
  predicate TextsClaimExecution(item: MemoryItem) {
    Contains("execution_permission", Lower(item.contentRef))
    || exists n :: n in item.notes && Contains("grant_execution", Lower(n))
  }

  lemma {:induction false} PassClean(s: StoreState, ids: seq<string>, check: Check, scope: string)
    requires forall id :: id in ids ==> id in s.items && !Fails(s, check, id, scope)
    ensures PassFailures(s, ids, [check], scope) == []
  {
    if ids != [] {
      assert Last(ids) in ids && forall id :: id in Front(ids) ==> id in ids;
      PassClean(s, Front(ids), check, scope);
      assert Front([check]) == [] && Last([check]) == check;
      assert FailuresOf(s, [check], Last(ids), scope) == [];
    }
  }

  lemma TextFailures(s: StoreState, id: string, scope: string)
    requires id in s.items
    ensures FailuresOf(s, [ClaimsExecution, NoteGrantsExecution], id, scope) == [] <==> !TextsClaimExecution(s.items[id])
  {
    var two := [ClaimsExecution, NoteGrantsExecution];
    assert Front(two) == [ClaimsExecution] && Last(two) == NoteGrantsExecution;
    assert Front([ClaimsExecution]) == [] && Last([ClaimsExecution]) == ClaimsExecution;
    assert FailuresOf(s, [ClaimsExecution], id, scope)
        == if Fails(s, ClaimsExecution, id, scope) then [Failure(ClaimsExecution, id)] else [];
  }

  lemma {:induction false} TextPass(s: StoreState, ids: seq<string>, scope: string)
    requires forall id :: id in ids ==> id in s.items
    ensures PassFailures(s, ids, [ClaimsExecution, NoteGrantsExecution], scope) == [] <==>
            forall id :: id in ids ==> !TextsClaimExecution(s.items[id])
  {
    if ids != [] {
      FrontLast(ids);
      TextPass(s, Front(ids), scope);
      TextFailures(s, Last(ids), scope);
    }
  }

  /** A grounded item stored under its own id fails none of the checks on its trust state. */
  lemma GroundedPasses(s: StoreState, id: string, scope: string)
    requires id in s.items && s.items[id].memoryId == id && Grounded(s.items[id])
    ensures forall check :: check != ClaimsExecution && check != NoteGrantsExecution ==> !Fails(s, check, id, scope)
  {}

  lemma TrustPasses(s: StoreState, check: Check, scope: string)
    requires WellKeyed(s) && forall id :: id in s.items ==> Grounded(s.items[id])
    requires check != ClaimsExecution && check != NoteGrantsExecution
    ensures forall id :: id in s.ids <==> id in s.items
    ensures PassFailures(s, s.ids, [check], scope) == []
  {
    assert forall id :: id in s.ids <==> id in Elems(s.ids);
    forall id | id in s.ids ensures !Fails(s, check, id, scope) { GroundedPasses(s, id, scope); }
    PassClean(s, s.ids, check, scope);
  }

  /**
   The life cycle meets its checker: on every reachable store and for every scope the checks on untrusted
   promotion, dead memory, cross-target use and provenance report nothing, so the report is ok exactly when
   no reference or note claims execution rights.
   */
  lemma ReachableStorePasses(ops: seq<Op>, scope: string)
    ensures var s := Run(ops);
            && (forall id :: id in s.ids ==> id in s.items)
            && AllFailures(s, scope) == PassFailures(s, s.ids, [ClaimsExecution, NoteGrantsExecution], scope)
            && (AllFailures(s, scope) == [] <==> forall id :: id in s.items ==> !TextsClaimExecution(s.items[id]))
  {
    ReachableWellKeyed(ops);
    ReachableGrounded(ops);
    StorePasses(Run(ops), scope);
  }

  lemma StorePasses(s: StoreState, scope: string)
    requires WellKeyed(s) && forall id :: id in s.items ==> Grounded(s.items[id])
    ensures forall id :: id in s.ids <==> id in s.items
    ensures AllFailures(s, scope) == PassFailures(s, s.ids, [ClaimsExecution, NoteGrantsExecution], scope)
    ensures AllFailures(s, scope) == [] <==> forall id :: id in s.items ==> !TextsClaimExecution(s.items[id])
  {
    TrustPasses(s, UntrustedPromotedWithoutValidation, scope);
    TrustPasses(s, DeadStillApplicable, scope);
    TrustPasses(s, CrossTargetLeak, scope);
    TrustPasses(s, PromotedWithoutProvenance, scope);
    TextPass(s, s.ids, scope);
  }

  /** A checkpoint and resume gives back the same store, hence the same report, references and decisions. */
  method SimulateCheckpointResume(store: TrustedMemoryStore) returns (restored: TrustedMemoryStore)
    requires WellKeyed(store.State())
    ensures fresh(restored) && restored.State() == store.State()
  {
    var snap: seq<MemoryItem> := [];
    for i := 0 to |store.ids|
      invariant |snap| == i
      invariant forall k :: 0 <= k < i ==> store.ids[k] in store.items && snap[k] == store.items[store.ids[k]]
    {
      assert store.ids[i] in Elems(store.ids);
      snap := snap + [store.items[store.ids[i]]];
    }
    restored := new TrustedMemoryStore();
    for i := 0 to |snap|
      invariant fresh(restored) && restored.ids == store.ids[..i] && restored.audit == []
      invariant restored.items.Keys == Elems(store.ids[..i])
      invariant forall id :: id in restored.items ==> id in store.items && restored.items[id] == store.items[id]
    {
      assert store.ids[..i + 1] == store.ids[..i] + [store.ids[i]];
      assert snap[i].memoryId == store.ids[i] && store.ids[i] !in store.ids[..i];
      restored.SetItem(snap[i]);
    }
    assert store.ids[..|snap|] == store.ids;
    restored.audit := store.audit;
  }

  // ---------------------------------------------------------------- the audit trail is enough

  /** The trust state an audit entry leaves an item in, if it is about the item and changes it. */
  function Effect(e: AuditEntry, id: string): Option<Trust> {
    if e.id != id then None
    else match e
         case Added(_) => Some(Candidate)
         case Validate(_) => Some(Validated)
         case Promote(_) => Some(Promoted)
         case Revoke(_, _) => Some(Revoked)
         case Supersede(_, _, _) => Some(Superseded)
         case _ => None
  }

  /** The states an item went through, read off the audit trail alone. */
  function Trail(audit: seq<AuditEntry>, id: string): seq<Trust> {
    if audit == [] then []
    else Trail(Front(audit), id) + if Effect(Last(audit), id).Some? then [Effect(Last(audit), id).value] else []
  }

  lemma TrailAppend(audit: seq<AuditEntry>, e: AuditEntry, id: string)
    ensures Trail(audit + [e], id) == Trail(audit, id) + if Effect(e, id).Some? then [Effect(e, id).value] else []
  {
    FrontAppend(audit, e);
  }

  /**
   The audit trail gives the item's trust state; and poisoning resistance in full: an item from an
   untrusted source is promoted only by a promotion whose immediately preceding change was a validation.
   */
  ghost predicate ToldByTrail(s: StoreState, id: string) {
    var trail := Trail(s.audit, id);
    && (id in s.items <==> trail != [])
    && (id in s.items ==> Last(trail) == s.items[id].trust)
    && (id in s.items && s.items[id].source == "untrusted" && s.items[id].trust == Promoted ==>
          |trail| >= 2 && trail[|trail| - 2] == Validated)
  }

  /** One audit entry: enough to know what it does to the one item. */
  lemma EntryToldByTrail(s: StoreState, n: StoreState, e: AuditEntry, id: string)
    requires ToldByTrail(s, id) && n.audit == s.audit + [e]
    requires Effect(e, id).None? ==> (id in n.items <==> id in s.items) && (id in s.items ==> n.items[id] == s.items[id])
    requires Effect(e, id).Some? ==> id in n.items && n.items[id].trust == Effect(e, id).value
    requires Effect(e, id) == Some(Promoted) ==>
               id in s.items && (n.items[id].source == "untrusted" ==> s.items[id].trust == Validated)
    ensures ToldByTrail(n, id)
  {
    TrailAppend(s.audit, e, id);
  }

  lemma StepToldByTrail(s: StoreState, op: Op, id: string)
    requires ToldByTrail(s, id)
    ensures ToldByTrail(Apply(s, op), id)
  {
    var n := Apply(s, op);
    match op
    case OpAdd(k, _, _, _, _) => EntryToldByTrail(s, n, Added(k), id);
    case OpValidate(k, evidence) =>
      if k in s.items { EntryToldByTrail(s, n, if evidence == [] then ValidateDenied(k) else Validate(k), id); }
    case OpPromote(k, evidence) =>
      if k in s.items {
        var no := Refusal(s.items[k], evidence);
        EntryToldByTrail(s, n, if no.Some? then PromoteDenied(k, no.value) else Promote(k), id);
      }
    case OpRevoke(k, reason) => if k in s.items { EntryToldByTrail(s, n, Revoke(k, reason), id); }
    case OpSupersede(k, replacement, reason) =>
      if k in s.items { EntryToldByTrail(s, n, Supersede(k, replacement, reason), id); }
  }

  /** Every reachable store: replaying the audit trail alone reconstructs every trust state. */
  lemma {:induction false} TrailTellsState(ops: seq<Op>, id: string)
    ensures ToldByTrail(Run(ops), id)
  {
    if ops != [] {
      TrailTellsState(Front(ops), id);
      StepToldByTrail(Run(Front(ops)), Last(ops), id);
    }
  }
}
