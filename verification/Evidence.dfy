/**
 evidence/store.py: the append-only, hash-chained evidence table, and the findings table beside it.

 SHA-256 is modelled as a free constructor: equal digests have equal payloads, and no digest is the
 "GENESIS" marker.  Timestamps are reals.
 */
module Evidence {
  import opened Common

  datatype Polarity = Positive | Negative | Neutral

  datatype Digest = Genesis | Sha256(payload: Payload)

  /** The fields that compute_hash serializes; artifact path, hypothesis and source are not among them. */
  datatype Payload = Payload(id: string, target: string, action: string, input: string, expected: string,
                             observed: string, polarity: Polarity, confidence: real, timestamp: real, prev: Digest)

  /** What a caller passes to record. */
  datatype Entry = Entry(target: string, action: string, input: string, expected: string, observed: string,
                         polarity: Polarity, confidence: real, source: string,
                         hypothesis: Option<string>, artifact: Option<string>)

  datatype Row = Row(id: string, entry: Entry, timestamp: real, prev: Digest, self: Digest)

  function Hashed(r: Row): Payload {
    Payload(r.id, r.entry.target, r.entry.action, r.entry.input, r.entry.expected, r.entry.observed,
            r.entry.polarity, r.entry.confidence, r.timestamp, r.prev)
  }

  function ComputeHash(r: Row): Digest { Sha256(Hashed(r)) }

  // ---------------------------------------------------------------- ORDER BY timestamp

  function InsertByTime(rows: seq<Row>, r: Row): seq<Row> {
    if rows == [] || Last(rows).timestamp <= r.timestamp then rows + [r]
    else InsertByTime(Front(rows), r) + [Last(rows)]
  }

  /** SELECT ... ORDER BY timestamp ASC; rows with equal timestamps stay in insertion order. */
  function ByTime(table: seq<Row>): seq<Row> {
    if table == [] then [] else InsertByTime(ByTime(Front(table)), Last(table))
  }

  /** How the sorted table grows, in the three ways it can. */
  lemma ByTimeGrows(table: seq<Row>, r: Row)
    ensures ByTime(table + [r]) == InsertByTime(ByTime(table), r)
  {
    FrontAppend(table, r);
  }

  lemma InsertAtEnd(rows: seq<Row>, r: Row)
    requires rows == [] || Last(rows).timestamp <= r.timestamp
    ensures InsertByTime(rows, r) == rows + [r]
  {}

  lemma InsertBeforeLast(rows: seq<Row>, last: Row, r: Row)
    requires r.timestamp < last.timestamp
    ensures InsertByTime(rows + [last], r) == InsertByTime(rows, r) + [last]
  {
    FrontAppend(rows, last);
  }

  ghost predicate TimeSorted(rows: seq<Row>) {
    forall i, j :: 0 <= i < j < |rows| ==> rows[i].timestamp <= rows[j].timestamp
  }

  lemma {:induction false} InsertKeepsRows(rows: seq<Row>, r: Row)
    ensures multiset(InsertByTime(rows, r)) == multiset(rows) + multiset{r}
  {
    if !(rows == [] || Last(rows).timestamp <= r.timestamp) {
      InsertKeepsRows(Front(rows), r);
      FrontLast(rows);
    }
  }

  lemma {:induction false} InsertBounded(rows: seq<Row>, r: Row, bound: real)
    requires r.timestamp <= bound && forall i :: 0 <= i < |rows| ==> rows[i].timestamp <= bound
    ensures forall i :: 0 <= i < |InsertByTime(rows, r)| ==> InsertByTime(rows, r)[i].timestamp <= bound
  {
    if !(rows == [] || Last(rows).timestamp <= r.timestamp) { InsertBounded(Front(rows), r, bound); }
  }

  lemma {:induction false} InsertSorts(rows: seq<Row>, r: Row)
    requires TimeSorted(rows)
    ensures TimeSorted(InsertByTime(rows, r))
  {
    if !(rows == [] || Last(rows).timestamp <= r.timestamp) {
      InsertSorts(Front(rows), r);
      InsertBounded(Front(rows), r, Last(rows).timestamp);
    }
  }

  lemma {:induction false} ByTimeSorts(table: seq<Row>)
    ensures TimeSorted(ByTime(table)) && multiset(ByTime(table)) == multiset(table)
  {
    if table != [] {
      ByTimeSorts(Front(table));
      InsertSorts(ByTime(Front(table)), Last(table));
      InsertKeepsRows(ByTime(Front(table)), Last(table));
      FrontLast(table);
    }
  }

  lemma NewestOfInsert(rows: seq<Row>, r: Row)
    ensures InsertByTime(rows, r) != []
    ensures Last(InsertByTime(rows, r)) == if rows == [] || Last(rows).timestamp <= r.timestamp then r else Last(rows)
  {}

  /** The last row in timestamp order is one of the table, and none is later. */
  lemma NewestIsLatest(table: seq<Row>)
    ensures table != [] ==> ByTime(table) != [] && Last(ByTime(table)) in table
    ensures forall x :: x in table ==> ByTime(table) != [] && x.timestamp <= Last(ByTime(table)).timestamp
  {
    ByTimeSorts(table);
    var rows := ByTime(table);
    assert |multiset(rows)| == |rows| && |multiset(table)| == |table|;
    forall x ensures x in rows <==> x in table { assert x in multiset(rows) <==> x in multiset(table); }
    forall x | x in table ensures rows != [] && x.timestamp <= Last(rows).timestamp {
      var i :| 0 <= i < |rows| && rows[i] == x;
    }
  }

  /** Rows written under an increasing clock are already in order. */
  ghost predicate Clocked(table: seq<Row>) {
    forall i, j :: 0 <= i < j < |table| ==> table[i].timestamp < table[j].timestamp
  }

  lemma {:induction false} ClockedIsSorted(table: seq<Row>)
    requires Clocked(table)
    ensures ByTime(table) == table
  {
    if table != [] { ClockedIsSorted(Front(table)); }
  }

  // ---------------------------------------------------------------- the chain

  function EndHash(rows: seq<Row>): Digest { if rows == [] then Genesis else Last(rows).self }

  /** Every stored hash is the hash of its row, and every row points at the one before it. */
  predicate Verifies(rows: seq<Row>) {
    rows == []
    || (Verifies(Front(rows)) && Last(rows).prev == EndHash(Front(rows)) && ComputeHash(Last(rows)) == Last(rows).self)
  }

  function NewRow(table: seq<Row>, e: Entry, id: string, now: real): (r: Row)
    ensures r.id == id && r.entry == e && r.timestamp == now
  {
    var r := Row(id, e, now, EndHash(ByTime(table)), Genesis);
    r.(self := ComputeHash(r))
  }

  lemma {:induction false} PrefixVerifies(rows: seq<Row>, k: nat)
    requires Verifies(rows) && k <= |rows|
    ensures Verifies(rows[..k])
  {
    if k == |rows| {
      assert rows[..k] == rows;
    } else {
      assert Front(rows)[..k] == rows[..k];
      PrefixVerifies(Front(rows), k);
    }
  }

  lemma NewRowLinks(table: seq<Row>, e: Entry, id: string, now: real)
    requires Clocked(table)
    ensures var r := NewRow(table, e, id, now); r.prev == EndHash(table) && ComputeHash(r) == r.self
  {
    ClockedIsSorted(table);
  }

  lemma ChainExtends(table: seq<Row>, r: Row)
    requires Verifies(table) && r.prev == EndHash(table) && ComputeHash(r) == r.self
    ensures Verifies(table + [r])
  {
    FrontAppend(table, r);
  }

  lemma ClockedExtends(table: seq<Row>, r: Row)
    requires Clocked(table) && forall i :: 0 <= i < |table| ==> table[i].timestamp < r.timestamp
    ensures Clocked(table + [r])
  {}

  lemma RecordKeepsChain(table: seq<Row>, e: Entry, id: string, now: real)
    requires Clocked(table) && Verifies(table)
    requires forall i :: 0 <= i < |table| ==> table[i].timestamp < now
    ensures var t := table + [NewRow(table, e, id, now)]; Clocked(t) && Verifies(t)
  {
    var r := NewRow(table, e, id, now);
    NewRowLinks(table, e, id, now);
    ChainExtends(table, r);
    ClockedExtends(table, r);
  }

  /** A chain is determined by its last hash: same length, and the same hashed fields in every row. */
  lemma {:induction false} ChainUnique(a: seq<Row>, b: seq<Row>)
    requires Verifies(a) && Verifies(b) && EndHash(a) == EndHash(b)
    ensures |a| == |b|
    ensures forall i :: 0 <= i < |a| ==> Hashed(a[i]) == Hashed(b[i]) && a[i].self == b[i].self
  {
    if a != [] && b != [] { ChainUnique(Front(a), Front(b)); }
  }

  /** The ten fields that the hash protects, one by one. */
  predicate SameContent(a: Row, b: Row) {
    && a.id == b.id && a.timestamp == b.timestamp && a.prev == b.prev
    && a.entry.target == b.entry.target && a.entry.action == b.entry.action && a.entry.input == b.entry.input
    && a.entry.expected == b.entry.expected && a.entry.observed == b.entry.observed
    && a.entry.polarity == b.entry.polarity && a.entry.confidence == b.entry.confidence
  }

  lemma HashFixesContent(a: Row, b: Row)
    ensures ComputeHash(a) == ComputeHash(b) <==> SameContent(a, b)
  {}

  /** So a valid table is determined by its last hash in every one of these fields of every row. */
  lemma LastHashFixesTable(a: seq<Row>, b: seq<Row>)
    requires Verifies(a) && Verifies(b) && EndHash(a) == EndHash(b)
    ensures |a| == |b| && forall i :: 0 <= i < |a| ==> SameContent(a[i], b[i])
  {
    ChainUnique(a, b);
    forall i | 0 <= i < |a| ensures SameContent(a[i], b[i]) { HashFixesContent(a[i], b[i]); }
  }

  /** Row i points at the row before it and stores the hash of its own ten fields. */
  predicate Sound(rows: seq<Row>, i: nat)
    requires i < |rows|
  {
    var r := rows[i];
    && r.prev == (if i == 0 then Genesis else rows[i - 1].self)
    && r.self == Sha256(Payload(r.id, r.entry.target, r.entry.action, r.entry.input, r.entry.expected, r.entry.observed,
                                r.entry.polarity, r.entry.confidence, r.timestamp, r.prev))
  }

  lemma LastSound(rows: seq<Row>)
    requires rows != []
    ensures Sound(rows, |rows| - 1) <==> Last(rows).prev == EndHash(Front(rows)) && ComputeHash(Last(rows)) == Last(rows).self
  {}

  lemma SoundInFront(rows: seq<Row>, i: nat)
    requires i < |rows| - 1
    ensures Sound(Front(rows), i) <==> Sound(rows, i)
  {}

  /** What verify_chain accepts, row by row. */
  lemma {:induction false} VerifiesRowByRow(rows: seq<Row>)
    ensures Verifies(rows) <==> forall i :: 0 <= i < |rows| ==> Sound(rows, i)
  {
    if rows != [] {
      VerifiesRowByRow(Front(rows));
      LastSound(rows);
      forall i | 0 <= i < |rows| - 1 ensures Sound(Front(rows), i) <==> Sound(rows, i) { SoundInFront(rows, i); }
    }
  }

  /** The converse: rows that agree on hashed fields and stored hashes verify alike. */
  lemma {:induction false} SameHashesVerifyAlike(a: seq<Row>, b: seq<Row>)
    requires |a| == |b| && Verifies(a)
    requires forall i :: 0 <= i < |a| ==> Hashed(a[i]) == Hashed(b[i]) && a[i].self == b[i].self
    ensures Verifies(b)
  {
    if a != [] { SameHashesVerifyAlike(Front(a), Front(b)); }
  }

  lemma {:induction false} BadRowFails(rows: seq<Row>, r: Row)
    requires r in rows && ComputeHash(r) != r.self
    ensures !Verifies(rows)
  {
    FrontLast(rows);
    if r in Front(rows) { BadRowFails(Front(rows), r); }
  }

  lemma EditNoticed(table: seq<Row>, k: nat, edited: Row)
    requires Clocked(table) && Verifies(table) && k < |table| && edited.self == table[k].self
    ensures Verifies(ByTime(table[k := edited])) <==> Hashed(edited) == Hashed(table[k])
    ensures Hashed(edited) != Hashed(table[k]) ==>
              forall view :: multiset(view) == multiset(table[k := edited]) ==> !Verifies(view)
  {
    var t := table[k := edited];
    assert t[k] == edited;
    if Hashed(edited) == Hashed(table[k]) {
      ClockedIsSorted(t);
      SameHashesVerifyAlike(table, t);
    } else {
      PrefixVerifies(table, k + 1);
      assert Last(table[..k + 1]) == table[k];
      forall view | multiset(view) == multiset(t) ensures !Verifies(view) {
        assert edited in multiset(t);
        BadRowFails(view, edited);
      }
      ByTimeSorts(t);
    }
  }

  /**
   Editing one row of a good table but not its stored hash goes unnoticed exactly when none of the ten fields
   changed; and if one did, no order the database could return the rows in would verify.
   */
  lemma EditDetected(table: seq<Row>, k: nat, edited: Row)
    requires Clocked(table) && Verifies(table) && k < |table| && edited.self == table[k].self
    ensures Verifies(ByTime(table[k := edited])) <==> SameContent(edited, table[k])
    ensures !SameContent(edited, table[k]) ==>
              forall view :: multiset(view) == multiset(table[k := edited]) ==> !Verifies(view)
  {
    HashFixesContent(edited, table[k]);
    EditNoticed(table, k, edited);
  }

  function Cut(table: seq<Row>, k: nat): (cut: seq<Row>)
    requires k < |table|
    ensures |cut| == |table| - 1 && forall i :: 0 <= i < |cut| ==> cut[i] == table[if i < k then i else i + 1]
  {
    table[..k] + table[k + 1..]
  }

  lemma CutClocked(table: seq<Row>, k: nat)
    requires Clocked(table) && k < |table|
    ensures ByTime(Cut(table, k)) == Cut(table, k)
  {
    ClockedIsSorted(Cut(table, k));
  }

  /** A cut that keeps the last row would be a shorter chain with the same last hash. */
  lemma InnerCutFails(table: seq<Row>, k: nat)
    requires Verifies(table) && k < |table| - 1
    ensures !Verifies(Cut(table, k))
  {
    var cut := Cut(table, k);
    if Verifies(cut) {
      assert EndHash(cut) == EndHash(table);
      ChainUnique(cut, table);
    }
  }

  /** Dropping a row is noticed unless it is the newest one: only truncation stays invisible. */
  lemma DeletionDetected(table: seq<Row>, k: nat)
    requires Clocked(table) && Verifies(table) && k < |table|
    ensures Verifies(ByTime(Cut(table, k))) <==> k == |table| - 1
  {
    CutClocked(table, k);
    if k == |table| - 1 {
      assert Cut(table, k) == table[..k];
      PrefixVerifies(table, k);
    } else {
      InnerCutFails(table, k);
    }
  }

  // ---------------------------------------------------------------- the store

  datatype FindingStatus = Candidate | Likely | Confirmed | Rejected

  datatype Finding = Finding(id: string, title: string, status: FindingStatus, evidenceIds: set<string>,
                             duplicateOf: Option<string>, severity: string)

  datatype StoreState = StoreState(rows: seq<Row>, findings: seq<Finding>)

  /** UPDATE findings ... WHERE finding_id = id. */
  function WithStatus(findings: seq<Finding>, id: string, status: FindingStatus, dup: Option<string>): (r: seq<Finding>)
    ensures |r| == |findings|
  {
    seq(|findings|, i requires 0 <= i < |findings| =>
      if findings[i].id == id then findings[i].(status := status, duplicateOf := dup) else findings[i])
  }

  class EvidenceStore {
    var rows: seq<Row>
    var findings: seq<Finding>

    ghost function State(): StoreState
      reads this
    {
      StoreState(rows, findings)
    }

    constructor ()
      ensures State() == StoreState([], [])
    {
      rows, findings := [], [];
    }

    method LastHash() returns (h: Digest)
      ensures h == EndHash(ByTime(rows))
      ensures rows == [] ==> h == Genesis
      ensures rows != [] ==> exists r :: r in rows && h == r.self && forall x :: x in rows ==> x.timestamp <= r.timestamp
    {
      h := Genesis;
      ghost var newest: Option<Row> := None;
      var at := 0.0;
      for i := 0 to |rows|
        invariant if i == 0 then newest == None && h == Genesis
                  else newest == Some(Last(ByTime(rows[..i]))) && at == newest.value.timestamp && h == newest.value.self
        invariant ByTime(rows[..i]) == [] <==> i == 0
      {
        FrontTake(rows, i);
        NewestOfInsert(ByTime(rows[..i]), rows[i]);
        if i == 0 || rows[i].timestamp >= at { newest, at, h := Some(rows[i]), rows[i].timestamp, rows[i].self; }
      }
      assert rows[..|rows|] == rows;
      NewestIsLatest(rows);
    }

    /** `id` is the fresh uuid, `now` the clock. */
    method Record(e: Entry, id: string, now: real) returns (r: Row)
      modifies this
      ensures r == NewRow(old(rows), e, id, now)
      ensures r.id == id && r.entry == e && r.timestamp == now && r.prev == EndHash(ByTime(old(rows)))
      ensures r.self == Sha256(Payload(id, e.target, e.action, e.input, e.expected, e.observed, e.polarity,
                                       e.confidence, now, r.prev))
      ensures State() == old(State()).(rows := old(rows) + [r])
    {
      var prev := LastHash();
      r := Row(id, e, now, prev, Genesis);
      r := r.(self := ComputeHash(r));
      rows := rows + [r];
    }

    /** Reads the table in timestamp order, whatever was done to it. */
    method VerifyChain() returns (ok: bool)
      ensures ok == Verifies(ByTime(rows))
      ensures ok <==> forall i :: 0 <= i < |ByTime(rows)| ==> Sound(ByTime(rows), i)
    {
      var sorted := ByTime(rows);
      VerifiesRowByRow(sorted);
      var prev := Genesis;
      for i := 0 to |sorted|
        invariant Verifies(sorted[..i]) && prev == EndHash(sorted[..i])
      {
        FrontTake(sorted, i);
        if sorted[i].prev != prev || ComputeHash(sorted[i]) != sorted[i].self {
          if Verifies(sorted) { PrefixVerifies(sorted, i + 1); }
          return false;
        }
        prev := sorted[i].self;
      }
      assert sorted[..|sorted|] == sorted;
      return true;
    }

    method CreateFinding(title: string, evidenceIds: set<string>, severity: string, id: string)
      modifies this`findings
      ensures findings == old(findings) + [Finding(id, title, Candidate, evidenceIds, None, severity)]
    {
      findings := findings + [Finding(id, title, Candidate, evidenceIds, None, severity)];
    }

    method SetFindingStatus(id: string, status: FindingStatus, dup: Option<string> := None)
      modifies this`findings
      ensures findings == WithStatus(old(findings), id, status, dup)
      ensures |findings| == |old(findings)|
      ensures forall i :: 0 <= i < |findings| ==>
                if old(findings)[i].id != id then findings[i] == old(findings)[i]
                else findings[i] == old(findings)[i].(status := status, duplicateOf := dup)
    {
      findings := WithStatus(findings, id, status, dup);
    }
  }
}
