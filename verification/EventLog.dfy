/** runtime/store.py and runtime/engine.py (`emit`): the session event table. */
module EventTable {
  import opened Common

  datatype Event = Event(id: string, session: string, sequence: nat, data: string)

  function OfSession(log: seq<Event>, session: string): seq<Event> {
    if log == [] then []
    else OfSession(Front(log), session) + if Last(log).session == session then [Last(log)] else []
  }

  /** COALESCE(MAX(sequence), 0) of a session. */
  function MaxSequence(log: seq<Event>, session: string): nat {
    if log == [] then 0
    else if Last(log).session == session then Max(MaxSequence(Front(log), session), Last(log).sequence)
    else MaxSequence(Front(log), session)
  }

  function Without(log: seq<Event>, id: string): seq<Event> {
    if log == [] then [] else Without(Front(log), id) + if Last(log).id == id then [] else [Last(log)]
  }

  /** INSERT OR REPLACE drops the rows of that id and keeps the others in order. */
  lemma {:induction false} WithoutExactly(log: seq<Event>, id: string, e: Event)
    ensures multiset(Without(log, id))[e] == if e.id == id then 0 else multiset(log)[e]
  {
    if log != [] {
      FrontLast(log);
      WithoutExactly(Front(log), id, e);
    }
  }

  ghost predicate FreshId(log: seq<Event>, id: string) {
    forall i :: 0 <= i < |log| ==> log[i].id != id
  }

  /** With a fresh id, INSERT OR REPLACE only appends. */
  lemma {:induction false} FreshReplacesNothing(log: seq<Event>, id: string)
    requires FreshId(log, id)
    ensures Without(log, id) == log
  {
    if log != [] {
      assert Last(log).id != id;
      FreshReplacesNothing(Front(log), id);
      FrontLast(log);
    }
  }

  /** Rows of a session after a sequence number, as selected, before ordering. */
  function Beyond(log: seq<Event>, session: string, after: nat): seq<Event> {
    if log == [] then []
    else Beyond(Front(log), session, after)
         + if Last(log).session == session && Last(log).sequence > after then [Last(log)] else []
  }

  function InsertBySequence(s: seq<Event>, e: Event): seq<Event> {
    if s == [] || Last(s).sequence <= e.sequence then s + [e] else InsertBySequence(Front(s), e) + [Last(s)]
  }

  /** ORDER BY sequence ASC; equal numbers stay in table order. */
  function BySequence(s: seq<Event>): seq<Event> {
    if s == [] then [] else InsertBySequence(BySequence(Front(s)), Last(s))
  }

  ghost predicate Ascending(s: seq<Event>) {
    forall i, j :: 0 <= i < j < |s| ==> s[i].sequence <= s[j].sequence
  }

  lemma {:induction false} InsertKeepsEvents(s: seq<Event>, e: Event)
    ensures multiset(InsertBySequence(s, e)) == multiset(s) + multiset{e}
  {
    if !(s == [] || Last(s).sequence <= e.sequence) {
      InsertKeepsEvents(Front(s), e);
      FrontLast(s);
    }
  }

  lemma {:induction false} InsertBounded(s: seq<Event>, e: Event, bound: nat)
    requires e.sequence <= bound && forall i :: 0 <= i < |s| ==> s[i].sequence <= bound
    ensures forall i :: 0 <= i < |InsertBySequence(s, e)| ==> InsertBySequence(s, e)[i].sequence <= bound
  {
    if !(s == [] || Last(s).sequence <= e.sequence) { InsertBounded(Front(s), e, bound); }
  }

  lemma {:induction false} InsertAscends(s: seq<Event>, e: Event)
    requires Ascending(s)
    ensures Ascending(InsertBySequence(s, e))
  {
    if !(s == [] || Last(s).sequence <= e.sequence) {
      InsertAscends(Front(s), e);
      InsertBounded(Front(s), e, Last(s).sequence);
    }
  }

  lemma {:induction false} BySequenceSorts(s: seq<Event>)
    ensures Ascending(BySequence(s)) && multiset(BySequence(s)) == multiset(s)
  {
    if s != [] {
      BySequenceSorts(Front(s));
      InsertAscends(BySequence(Front(s)), Last(s));
      InsertKeepsEvents(BySequence(Front(s)), Last(s));
      FrontLast(s);
    }
  }

  lemma {:induction false} BeyondMembers(log: seq<Event>, session: string, after: nat, e: Event)
    ensures e in Beyond(log, session, after) <==> e in log && e.session == session && e.sequence > after
  {
    if log != [] {
      FrontLast(log);
      BeyondMembers(Front(log), session, after, e);
    }
  }

  /** What a listing holds: in ascending order, the session's events beyond the number and no others. */
  lemma ListedExactly(log: seq<Event>, session: string, after: nat)
    ensures var out := BySequence(Beyond(log, session, after));
            Ascending(out) && forall e :: e in out <==> e in log && e.session == session && e.sequence > after
  {
    var rows := Beyond(log, session, after);
    BySequenceSorts(rows);
    forall e ensures e in BySequence(rows) <==> e in log && e.session == session && e.sequence > after {
      assert e in BySequence(rows) <==> e in multiset(BySequence(rows));
      assert e in rows <==> e in multiset(rows);
      BeyondMembers(log, session, after, e);
    }
  }

  lemma {:induction false} MaxBounds(log: seq<Event>, session: string, e: Event)
    requires e in log && e.session == session
    ensures e.sequence <= MaxSequence(log, session)
  {
    FrontLast(log);
    if e in Front(log) { MaxBounds(Front(log), session, e); }
  }

  lemma {:induction false} MaxAttained(log: seq<Event>, session: string)
    requires MaxSequence(log, session) > 0
    ensures exists e :: e in log && e.session == session && e.sequence == MaxSequence(log, session)
  {
    FrontLast(log);
    var f, l := Front(log), Last(log);
    if l.session == session && l.sequence >= MaxSequence(f, session) {
      assert l in log;
    } else {
      MaxAttained(f, session);
      var e :| e in f && e.session == session && e.sequence == MaxSequence(f, session);
      assert e in log;
    }
  }

  class SessionStore {
    var events: seq<Event>

    constructor ()
      ensures events == []
    {
      events := [];
    }

    method AppendEvent(e: Event)
      modifies this
      ensures events == Without(old(events), e.id) + [e]
    {
      events := Without(events, e.id) + [e];
    }

    /** The later events of the session, scanned in table order and put in sequence order. */
    method ListEvents(session: string, after: nat) returns (out: seq<Event>)
      ensures out == BySequence(Beyond(events, session, after))
      ensures Ascending(out)
      ensures forall e :: e in out <==> e in events && e.session == session && e.sequence > after
    {
      out := [];
      for i := 0 to |events|
        invariant out == BySequence(Beyond(events[..i], session, after))
      {
        FrontTake(events, i);
        var e := events[i];
        if e.session == session && e.sequence > after {
          FrontAppend(Beyond(events[..i], session, after), e);
          out := InsertBySequence(out, e);
        } else {
          assert Beyond(events[..i], session, after) + [] == Beyond(events[..i], session, after);
        }
      }
      assert events[..|events|] == events;
      ListedExactly(events, session, after);
    }

    /** MAX(sequence) + 1: above every number of the session, and the one above it is taken, or none is. */
    method NextSequence(session: string) returns (n: nat)
      ensures n == MaxSequence(events, session) + 1
      ensures forall e :: e in events && e.session == session ==> e.sequence < n
      ensures n == 1 || exists e :: e in events && e.session == session && e.sequence == n - 1
    {
      var max := 0;
      for i := 0 to |events|
        invariant max == MaxSequence(events[..i], session)
      {
        FrontTake(events, i);
        if events[i].session == session && events[i].sequence > max { max := events[i].sequence; }
      }
      assert events[..|events|] == events;
      forall e | e in events && e.session == session ensures e.sequence <= max { MaxBounds(events, session, e); }
      if max > 0 { MaxAttained(events, session); }
      n := max + 1;
    }
  }

  /** emit: two separate store calls. */
  method Emit(store: SessionStore, session: string, id: string, data: string) returns (e: Event)
    requires FreshId(store.events, id)
    modifies store
    ensures e == Event(id, session, MaxSequence(old(store.events), session) + 1, data)
    ensures store.events == old(store.events) + [e]
  {
    var seqNo := store.NextSequence(session);
    e := Event(id, session, seqNo, data);
    FreshReplacesNothing(store.events, id);
    store.AppendEvent(e);
  }
}

/** Several emitters and one polling reader, interleaved at will (control_plane/app.py, events_stream). */
module EventLog {
  import opened Common
  import opened EventTable

  /** An emitter between its read and its append holds a session and the number it read. */
  datatype Draft = Draft(session: string, sequence: nat)

  /**
   `late` and `stale` are history: events appended at or below the reader's cursor, and events appended with
   a number some event of the session already had.
   */
  datatype Machine = Machine(log: seq<Event>, pending: map<nat, Draft>, cursor: nat, delivered: seq<Event>,
                             late: seq<Event>, stale: seq<Event>)

  datatype Step = ReadNext(emitter: nat, session: string) | Append(emitter: nat, id: string, data: string) | Poll

  function Batch(m: Machine, reader: string): seq<Event> { BySequence(Beyond(m.log, reader, m.cursor)) }

  function Take(m: Machine, reader: string, step: Step): Machine {
    match step
    case ReadNext(emitter, session) =>
      m.(pending := m.pending[emitter := Draft(session, MaxSequence(m.log, session) + 1)])
    case Append(emitter, id, data) =>
      if emitter !in m.pending then m
      else
        var d := m.pending[emitter];
        var e := Event(id, d.session, d.sequence, data);
        m.(log := m.log + [e], pending := m.pending - {emitter},
           late := m.late + (if d.session == reader && d.sequence <= m.cursor then [e] else []),
           stale := m.stale + if d.sequence <= MaxSequence(m.log, d.session) then [e] else [])
    case Poll =>
      var batch := Batch(m, reader);
      m.(delivered := m.delivered + batch, cursor := if batch == [] then m.cursor else Last(batch).sequence)
  }

  const START := Machine([], map[], 0, [], [], [])

  function Run(reader: string, steps: seq<Step>): Machine {
    if steps == [] then START else Take(Run(reader, Front(steps)), reader, Last(steps))
  }

  // ---------------------------------------------------------------- numbers have no gap

  /** What one more event does to the views of the table. */
  lemma Grown(log: seq<Event>, e: Event, session: string, n: nat)
    ensures MaxSequence(log + [e], session)
            == if e.session == session then Max(MaxSequence(log, session), e.sequence) else MaxSequence(log, session)
    ensures OfSession(log + [e], session) == OfSession(log, session) + if e.session == session then [e] else []
    ensures UpTo(log + [e], session, n)
            == UpTo(log, session, n) + if e.session == session && e.sequence <= n then [e] else []
    ensures Beyond(log + [e], session, n)
            == Beyond(log, session, n) + if e.session == session && e.sequence > n then [e] else []
  {
    FrontAppend(log, e);
  }

  function Drafted(m: Machine, step: Step): Event
    requires step.Append? && step.emitter in m.pending
  {
    Event(step.id, m.pending[step.emitter].session, m.pending[step.emitter].sequence, step.data)
  }

  ghost predicate Numbered(log: seq<Event>, session: string, k: nat) {
    exists e :: e in log && e.session == session && e.sequence == k
  }

  /** The numbers of the session are exactly 1 to the maximum. */
  ghost predicate Gapless(log: seq<Event>, session: string) {
    forall k: nat :: Numbered(log, session, k) <==> 1 <= k <= MaxSequence(log, session)
  }

  ghost predicate DraftsFit(m: Machine) {
    forall em :: em in m.pending ==> 1 <= m.pending[em].sequence <= MaxSequence(m.log, m.pending[em].session) + 1
  }

  lemma NumberedAppend(log: seq<Event>, e: Event, session: string, k: nat)
    ensures Numbered(log + [e], session, k) <==> Numbered(log, session, k) || (e.session == session && e.sequence == k)
  {
    assert forall x :: x in log + [e] <==> x in log || x == e;
  }

  lemma AppendKeepsGapless(log: seq<Event>, e: Event, session: string)
    requires Gapless(log, session)
    requires e.session == session ==> 1 <= e.sequence <= MaxSequence(log, session) + 1
    ensures Gapless(log + [e], session)
  {
    Grown(log, e, session, 0);
    forall k: nat ensures Numbered(log + [e], session, k) <==> 1 <= k <= MaxSequence(log + [e], session) {
      NumberedAppend(log, e, session, k);
    }
  }

  lemma StepKeepsDrafts(m: Machine, reader: string, step: Step)
    requires DraftsFit(m)
    ensures DraftsFit(Take(m, reader, step))
  {
    if step.Append? && step.emitter in m.pending {
      forall em | em in m.pending { Grown(m.log, Drafted(m, step), m.pending[em].session, 0); }
    }
  }

  /** Under any interleaving of emitters and polls, every session is numbered 1, 2, ... without a gap. */
  lemma {:induction false} NumbersHaveNoGap(reader: string, steps: seq<Step>, session: string)
    ensures Gapless(Run(reader, steps).log, session) && DraftsFit(Run(reader, steps))
  {
    if steps == [] {
      assert forall k: nat :: !Numbered([], session, k);
    } else {
      NumbersHaveNoGap(reader, Front(steps), session);
      var m, step := Run(reader, Front(steps)), Last(steps);
      StepKeepsDrafts(m, reader, step);
      if step.Append? && step.emitter in m.pending { AppendKeepsGapless(m.log, Drafted(m, step), session); }
    }
  }

  // ---------------------------------------------------------------- when numbers are unique

  function CountOf(events: seq<Event>, session: string): nat { |OfSession(events, session)| }

  /** The events of a session number its maximum plus its stale appends. */
  ghost predicate Accounted(m: Machine, session: string) {
    CountOf(m.log, session) == MaxSequence(m.log, session) + CountOf(m.stale, session)
  }

  lemma AppendKeepsAccount(m: Machine, reader: string, step: Step, session: string)
    requires step.Append? && step.emitter in m.pending && DraftsFit(m) && Accounted(m, session)
    ensures Accounted(Take(m, reader, step), session)
  {
    var e := Drafted(m, step);
    Grown(m.log, e, session, 0);
    Grown(m.stale, e, session, 0);
    assert m.stale + [] == m.stale;
  }

  /** Each append either raises the maximum by one or repeats a number. */
  lemma {:induction false} StaleAccounting(reader: string, steps: seq<Step>, session: string)
    ensures Accounted(Run(reader, steps), session)
  {
    if steps != [] {
      StaleAccounting(reader, Front(steps), session);
      NumbersHaveNoGap(reader, Front(steps), session);
      var m, step := Run(reader, Front(steps)), Last(steps);
      if step.Append? && step.emitter in m.pending { AppendKeepsAccount(m, reader, step, session); }
    }
  }

  /** The numbers of a session, in the order in which its events were appended, are 1, 2, 3, ... */
  ghost predicate Counting(log: seq<Event>, session: string) {
    forall i :: 0 <= i < CountOf(log, session) ==> OfSession(log, session)[i].sequence == i + 1
  }

  lemma {:induction false} MembersOfSession(log: seq<Event>, session: string, e: Event)
    ensures e in OfSession(log, session) <==> e in log && e.session == session
  {
    if log != [] {
      MembersOfSession(Front(log), session, e);
      FrontLast(log);
    }
  }

  lemma CountingGrows(log: seq<Event>, e: Event, session: string)
    requires Counting(log, session)
    requires e.session == session ==> e.sequence == CountOf(log, session) + 1
    ensures Counting(log + [e], session)
  {
    Grown(log, e, session, 0);
  }

  lemma AppendKeepsCounting(m: Machine, reader: string, step: Step, session: string)
    requires step.Append? && step.emitter in m.pending && DraftsFit(m) && Accounted(m, session)
    requires CountOf(m.stale, session) == 0 ==> Counting(m.log, session)
    requires CountOf(Take(m, reader, step).stale, session) == 0
    ensures Counting(Take(m, reader, step).log, session)
  {
    var e := Drafted(m, step);
    Grown(m.stale, e, session, 0);
    assert m.stale + [] == m.stale;
    assert CountOf(m.stale, session) == 0;
    CountingGrows(m.log, e, session);
  }

  lemma {:induction false} NoStaleCounts(reader: string, steps: seq<Step>, session: string)
    ensures CountOf(Run(reader, steps).stale, session) == 0 ==> Counting(Run(reader, steps).log, session)
  {
    if steps != [] && CountOf(Run(reader, steps).stale, session) == 0 {
      var m, step := Run(reader, Front(steps)), Last(steps);
      StaleAccounting(reader, Front(steps), session);
      NumbersHaveNoGap(reader, Front(steps), session);
      NoStaleCounts(reader, Front(steps), session);
      if step.Append? && step.emitter in m.pending { AppendKeepsCounting(m, reader, step, session); }
    }
  }

  // ---------------------------------------------------------------- emits and polls as a schedule

  /** The session whose next number the emitter has read but not yet appended under. */
  function Holds(steps: seq<Step>, emitter: nat): Option<string> {
    if steps == [] then None
    else match Last(steps)
         case ReadNext(em, session) => if em == emitter then Some(session) else Holds(Front(steps), emitter)
         case Append(em, _, _) => if em == emitter then None else Holds(Front(steps), emitter)
         case Poll => Holds(Front(steps), emitter)
  }

  /** Both emitters are between read and append for one session. */
  predicate Rivals(steps: seq<Step>, a: nat, b: nat) {
    a != b && Holds(steps, a).Some? && Holds(steps, a) == Holds(steps, b)
  }

  /** Since the emitter read its number, another emitter has appended to the same session. */
  predicate Disturbed(steps: seq<Step>, emitter: nat) {
    steps != []
    && match Last(steps)
       case ReadNext(em, _) => em != emitter && Disturbed(Front(steps), emitter)
       case Append(em, _, _) => em != emitter && (Disturbed(Front(steps), emitter) || Rivals(Front(steps), emitter, em))
       case Poll => Disturbed(Front(steps), emitter)
  }

  /** The last step appends an event to the session. */
  predicate AppendsTo(steps: seq<Step>, session: string)
    requires steps != []
  {
    Last(steps).Append? && Holds(Front(steps), Last(steps).emitter) == Some(session)
  }

  /** No emit of the session is disturbed between its read and its append. */
  predicate Undisturbed(steps: seq<Step>, session: string) {
    steps == []
    || (Undisturbed(Front(steps), session)
        && (AppendsTo(steps, session) ==> !Disturbed(Front(steps), Last(steps).emitter)))
  }

  /**
   Since the emitter read its number, another emitter has appended to the same session under a number that
   was still free, that is, without having been passed itself.
   */
  predicate Passed(steps: seq<Step>, emitter: nat) {
    steps != []
    && match Last(steps)
       case ReadNext(em, _) => em != emitter && Passed(Front(steps), emitter)
       case Append(em, _, _) =>
         em != emitter
         && (Passed(Front(steps), emitter) || (Rivals(Front(steps), emitter, em) && !Passed(Front(steps), em)))
       case Poll => Passed(Front(steps), emitter)
  }

  /** The emitter was passed, and the reader polled after that, before it appended. */
  predicate Overtaken(steps: seq<Step>, emitter: nat) {
    steps != []
    && match Last(steps)
       case ReadNext(em, _) => em != emitter && Overtaken(Front(steps), emitter)
       case Append(em, _, _) => em != emitter && Overtaken(Front(steps), emitter)
       case Poll => Passed(Front(steps), emitter)
  }

  /** No emit of the session is overtaken by a poll. */
  predicate NoneOvertaken(steps: seq<Step>, session: string) {
    steps == []
    || (NoneOvertaken(Front(steps), session)
        && (AppendsTo(steps, session) ==> !Overtaken(Front(steps), Last(steps).emitter)))
  }

  /** The schedule tells what the numbers of the machine say about an emitter. */
  ghost predicate TracksOne(m: Machine, reader: string, steps: seq<Step>, em: nat) {
    && (em in m.pending <==> Holds(steps, em).Some?)
    && (em in m.pending ==>
          && Holds(steps, em) == Some(m.pending[em].session)
          && (m.pending[em].sequence <= MaxSequence(m.log, m.pending[em].session) <==> Passed(steps, em))
          && (m.pending[em].session == reader ==> (m.pending[em].sequence <= m.cursor <==> Overtaken(steps, em))))
  }

  ghost predicate Tracks(m: Machine, reader: string, steps: seq<Step>) {
    DraftsFit(m) && m.cursor <= MaxSequence(m.log, reader) && forall em: nat :: TracksOne(m, reader, steps, em)
  }

  lemma ReadTracks(m: Machine, reader: string, steps: seq<Step>, em: nat)
    requires steps != [] && Last(steps).ReadNext? && Tracks(m, reader, Front(steps))
    ensures TracksOne(Take(m, reader, Last(steps)), reader, steps, em)
  {
    assert TracksOne(m, reader, Front(steps), em);
  }

  lemma AppendTracks(m: Machine, reader: string, steps: seq<Step>, em: nat)
    requires steps != [] && Last(steps).Append? && Tracks(m, reader, Front(steps))
    ensures TracksOne(Take(m, reader, Last(steps)), reader, steps, em)
  {
    var step := Last(steps);
    assert TracksOne(m, reader, Front(steps), em);
    assert TracksOne(m, reader, Front(steps), step.emitter);
    if step.emitter in m.pending && em in m.pending && em != step.emitter {
      Grown(m.log, Drafted(m, step), m.pending[em].session, 0);
    }
  }

  lemma AppendKeepsCursor(m: Machine, reader: string, step: Step)
    requires step.Append? && m.cursor <= MaxSequence(m.log, reader)
    ensures Take(m, reader, step).cursor <= MaxSequence(Take(m, reader, step).log, reader)
  {
    if step.emitter in m.pending { Grown(m.log, Drafted(m, step), reader, 0); }
  }

  /** A poll leaves the cursor at the maximum of the session. */
  lemma PollReachesMax(m: Machine, reader: string)
    requires m.cursor <= MaxSequence(m.log, reader)
    ensures Take(m, reader, Poll).cursor == MaxSequence(m.log, reader)
  {
    var batch, max := Batch(m, reader), MaxSequence(m.log, reader);
    ListedExactly(m.log, reader, m.cursor);
    if m.cursor < max {
      MaxAttained(m.log, reader);
      var e :| e in m.log && e.session == reader && e.sequence == max;
      assert e in batch;
      var i :| 0 <= i < |batch| && batch[i] == e;
      assert batch[i].sequence <= Last(batch).sequence;
    }
    if batch != [] {
      assert Last(batch) in batch;
      MaxBounds(m.log, reader, Last(batch));
    }
  }

  lemma PollTracks(m: Machine, reader: string, steps: seq<Step>, em: nat)
    requires steps != [] && Last(steps).Poll? && Tracks(m, reader, Front(steps))
    ensures TracksOne(Take(m, reader, Poll), reader, steps, em)
  {
    assert TracksOne(m, reader, Front(steps), em);
    PollReachesMax(m, reader);
  }

  lemma {:induction false} ScheduleTracks(reader: string, steps: seq<Step>)
    ensures Tracks(Run(reader, steps), reader, steps)
  {
    if steps != [] {
      var m, step := Run(reader, Front(steps)), Last(steps);
      ScheduleTracks(reader, Front(steps));
      StepKeepsDrafts(m, reader, step);
      match step {
        case ReadNext(_, _) => forall em: nat { ReadTracks(m, reader, steps, em); }
        case Append(_, _, _) =>
          AppendKeepsCursor(m, reader, step);
          forall em: nat { AppendTracks(m, reader, steps, em); }
        case Poll =>
          PollReachesMax(m, reader);
          forall em: nat { PollTracks(m, reader, steps, em); }
      }
    }
  }

  /** As long as no emit is disturbed, to be disturbed and to be passed is the same. */
  lemma {:induction false} DisturbedIsPassed(steps: seq<Step>, session: string, emitter: nat)
    requires Undisturbed(steps, session) && Holds(steps, emitter) == Some(session)
    ensures Disturbed(steps, emitter) <==> Passed(steps, emitter)
  {
    var step := Last(steps);
    if !(step.ReadNext? && step.emitter == emitter) {
      DisturbedIsPassed(Front(steps), session, emitter);
      if step.Append? && Rivals(Front(steps), emitter, step.emitter) {
        DisturbedIsPassed(Front(steps), session, step.emitter);
      }
    }
  }

  lemma StaleGrowsBy(m: Machine, reader: string, step: Step, session: string)
    requires step.Append? && step.emitter in m.pending
    ensures var d := m.pending[step.emitter];
            CountOf(Take(m, reader, step).stale, session)
            == CountOf(m.stale, session)
               + if d.session == session && d.sequence <= MaxSequence(m.log, session) then 1 else 0
  {
    Grown(m.stale, Drafted(m, step), session, 0);
    assert m.stale + [] == m.stale;
  }

  /** The exact schedule condition: a session has no stale append iff none of its emits was disturbed. */
  lemma {:induction false} UndisturbedIffNoStale(reader: string, steps: seq<Step>, session: string)
    ensures Undisturbed(steps, session) <==> CountOf(Run(reader, steps).stale, session) == 0
  {
    if steps != [] {
      var m, step := Run(reader, Front(steps)), Last(steps);
      UndisturbedIffNoStale(reader, Front(steps), session);
      if step.Append? {
        ScheduleTracks(reader, Front(steps));
        assert TracksOne(m, reader, Front(steps), step.emitter);
        if step.emitter in m.pending { StaleGrowsBy(m, reader, step, session); }
        if AppendsTo(steps, session) && Undisturbed(Front(steps), session) {
          DisturbedIsPassed(Front(steps), session, step.emitter);
        }
      }
    }
  }

  /**
   Uniqueness, exactly: while no emit of the session is disturbed it counts 1, 2, 3, ..., and as soon as one
   was, its events are more than its numbers.
   */
  lemma UniqueIffUndisturbed(reader: string, steps: seq<Step>, session: string)
    ensures var m := Run(reader, steps);
            && (Undisturbed(steps, session) <==> Counting(m.log, session))
            && (Undisturbed(steps, session) <==> CountOf(m.log, session) == MaxSequence(m.log, session))
            && (Undisturbed(steps, session) <==> CountOf(m.stale, session) == 0)
  {
    StaleAccounting(reader, steps, session);
    NoStaleCounts(reader, steps, session);
    UndisturbedIffNoStale(reader, steps, session);
    var m := Run(reader, steps);
    if CountOf(m.stale, session) > 0 && Counting(m.log, session) {
      var s := OfSession(m.log, session);
      assert Last(s) in s;
      MembersOfSession(m.log, session, Last(s));
      MaxBounds(m.log, session, Last(s));
    }
  }

  // ---------------------------------------------------------------- what the reader gets

  /** The reader's session up to a number, in table order. */
  function UpTo(log: seq<Event>, session: string, n: nat): seq<Event> {
    if log == [] then []
    else UpTo(Front(log), session, n)
         + if Last(log).session == session && Last(log).sequence <= n then [Last(log)] else []
  }

  lemma {:induction false} BeyondSplits(log: seq<Event>, session: string, low: nat, high: nat)
    requires low <= high && forall e :: e in Beyond(log, session, low) ==> e.sequence <= high
    ensures multiset(UpTo(log, session, high)) == multiset(UpTo(log, session, low)) + multiset(Beyond(log, session, low))
  {
    if log != [] {
      var f, e := Front(log), Last(log);
      FrontLast(log);
      Grown(f, e, session, low);
      Grown(f, e, session, high);
      assert forall x :: x in Beyond(f, session, low) ==> x in Beyond(log, session, low);
      if e.session == session && e.sequence > low { assert e in Beyond(log, session, low); }
      BeyondSplits(f, session, low, high);
    }
  }

  lemma PollTakesRest(m: Machine, reader: string)
    ensures var n := Take(m, reader, Poll);
            && n.cursor >= m.cursor && n.log == m.log
            && multiset(UpTo(m.log, reader, n.cursor)) == multiset(UpTo(m.log, reader, m.cursor)) + multiset(Batch(m, reader))
  {
    var rest, batch, n := Beyond(m.log, reader, m.cursor), Batch(m, reader), Take(m, reader, Poll);
    BySequenceSorts(rest);
    if batch == [] {
      assert |multiset(rest)| == 0;
      assert rest == [];
      BeyondSplits(m.log, reader, m.cursor, m.cursor);
    } else {
      assert Last(batch) in multiset(batch);
      BeyondMembers(m.log, reader, m.cursor, Last(batch));
      forall e | e in rest ensures e.sequence <= n.cursor {
        assert e in multiset(batch);
        var i :| 0 <= i < |batch| && batch[i] == e;
      }
      BeyondSplits(m.log, reader, m.cursor, n.cursor);
    }
  }

  /** The events up to the cursor are exactly the delivered ones and the late ones. */
  ghost predicate Settled(m: Machine, reader: string) {
    multiset(UpTo(m.log, reader, m.cursor)) == multiset(m.delivered) + multiset(m.late)
  }

  lemma LateGrows(upTo: seq<Event>, delivered: seq<Event>, late: seq<Event>, e: Event)
    requires multiset(upTo) == multiset(delivered) + multiset(late)
    ensures multiset(upTo + [e]) == multiset(delivered) + multiset(late + [e])
  {}

  lemma DeliveredGrows(before: seq<Event>, after: seq<Event>, delivered: seq<Event>, late: seq<Event>, batch: seq<Event>)
    requires multiset(before) == multiset(delivered) + multiset(late)
    requires multiset(after) == multiset(before) + multiset(batch)
    ensures multiset(after) == multiset(delivered + batch) + multiset(late)
  {}

  lemma AppendSettles(m: Machine, reader: string, step: Step)
    requires step.Append? && step.emitter in m.pending && Settled(m, reader)
    ensures Settled(Take(m, reader, step), reader)
  {
    var e, n := Drafted(m, step), Take(m, reader, step);
    Grown(m.log, e, reader, m.cursor);
    var upTo := UpTo(m.log, reader, m.cursor);
    if e.session == reader && e.sequence <= m.cursor {
      assert UpTo(n.log, reader, n.cursor) == upTo + [e] && n.late == m.late + [e];
      LateGrows(upTo, m.delivered, m.late, e);
    } else {
      assert UpTo(n.log, reader, n.cursor) == upTo && n.late == m.late;
    }
  }

  lemma PollSettles(m: Machine, reader: string)
    requires Settled(m, reader)
    ensures Settled(Take(m, reader, Poll), reader)
  {
    PollTakesRest(m, reader);
    DeliveredGrows(UpTo(m.log, reader, m.cursor), UpTo(m.log, reader, Take(m, reader, Poll).cursor),
                   m.delivered, m.late, Batch(m, reader));
  }

  /**
   Under any interleaving nothing is delivered twice or invented.  So a reader misses an event exactly when
   it was appended late.
   */
  lemma {:induction false} DeliveredPlusLate(reader: string, steps: seq<Step>)
    ensures Settled(Run(reader, steps), reader)
  {
    if steps != [] {
      DeliveredPlusLate(reader, Front(steps));
      var m, step := Run(reader, Front(steps)), Last(steps);
      if step.Poll? {
        PollSettles(m, reader);
      } else if step.Append? && step.emitter in m.pending {
        AppendSettles(m, reader, step);
      }
    }
  }

  lemma LateGrowsBy(m: Machine, reader: string, step: Step)
    requires step.Append? && step.emitter in m.pending
    ensures var d := m.pending[step.emitter];
            |Take(m, reader, step).late| == |m.late| + if d.session == reader && d.sequence <= m.cursor then 1 else 0
  {}

  lemma {:induction false} OvertakenIsLate(reader: string, steps: seq<Step>)
    ensures NoneOvertaken(steps, reader) <==> |Run(reader, steps).late| == 0
  {
    if steps != [] {
      var m, step := Run(reader, Front(steps)), Last(steps);
      OvertakenIsLate(reader, Front(steps));
      if step.Append? {
        ScheduleTracks(reader, Front(steps));
        assert TracksOne(m, reader, Front(steps), step.emitter);
        if step.emitter in m.pending { LateGrowsBy(m, reader, step); }
      }
    }
  }

  /** The reader has missed nothing up to its cursor iff no emit of its session was overtaken by a poll. */
  lemma CompleteIffNotOvertaken(reader: string, steps: seq<Step>)
    ensures var m := Run(reader, steps);
            && (NoneOvertaken(steps, reader) <==> multiset(UpTo(m.log, reader, m.cursor)) == multiset(m.delivered))
            && (NoneOvertaken(steps, reader) <==> m.late == [])
  {
    DeliveredPlusLate(reader, steps);
    OvertakenIsLate(reader, steps);
    var m := Run(reader, steps);
    assert |multiset(m.delivered) + multiset(m.late)| == |m.delivered| + |m.late|;
  }

  // ---------------------------------------------------------------- emits that do not overlap

  lemma CountingShrinks(f: seq<Event>, e: Event, session: string)
    requires Counting(f + [e], session)
    ensures Counting(f, session) && (e.session == session ==> e.sequence == CountOf(f, session) + 1)
  {
    Grown(f, e, session, 0);
    var t := OfSession(f, session);
    if e.session == session {
      assert forall i :: 0 <= i < |t| ==> t[i] == (t + [e])[i];
      assert (t + [e])[|t|] == e;
    } else {
      assert t + [] == t;
    }
  }

  lemma CountedSuffix(t: seq<Event>, e: Event, n: nat)
    requires e.sequence == |t| + 1
    ensures (t + [e])[Min(n, |t| + 1)..] == t[Min(n, |t|)..] + if e.sequence > n then [e] else []
  {}

  /** A session that counts splits at any number like a list. */
  lemma {:induction false} CountingSplits(log: seq<Event>, session: string, n: nat)
    requires Counting(log, session)
    ensures Beyond(log, session, n) == OfSession(log, session)[Min(n, CountOf(log, session))..]
    decreases |log|, 1
  {
    if log != [] {
      FrontLast(log);
      SplitGrows(Front(log), Last(log), session, n);
    }
  }

  lemma {:induction false} SplitGrows(f: seq<Event>, e: Event, session: string, n: nat)
    requires Counting(f + [e], session)
    ensures Beyond(f + [e], session, n) == OfSession(f + [e], session)[Min(n, CountOf(f + [e], session))..]
    decreases |f| + 1, 0
  {
    CountingShrinks(f, e, session);
    CountingSplits(f, session, n);
    Grown(f, e, session, n);
    var t := OfSession(f, session);
    if e.session == session { CountedSuffix(t, e, n); } else { assert t + [] == t; }
  }

  lemma {:induction false} AscendingStays(s: seq<Event>)
    requires Ascending(s)
    ensures BySequence(s) == s
  {
    if s != [] { AscendingStays(Front(s)); }
  }

  /** The reader is up to date with a prefix of the counting session. */
  ghost predicate AtPrefix(m: Machine, reader: string) {
    var s := OfSession(m.log, reader);
    m.late == [] && m.cursor <= |s| && m.delivered == s[..m.cursor]
  }

  lemma BatchIsRest(m: Machine, reader: string)
    requires Counting(m.log, reader) && m.cursor <= CountOf(m.log, reader)
    ensures Batch(m, reader) == OfSession(m.log, reader)[m.cursor..]
  {
    var rest := OfSession(m.log, reader)[m.cursor..];
    CountingSplits(m.log, reader, m.cursor);
    assert forall i :: 0 <= i < |rest| ==> rest[i].sequence == m.cursor + i + 1;
    AscendingStays(rest);
  }

  lemma PollKeepsPrefix(m: Machine, reader: string)
    requires Counting(m.log, reader) && AtPrefix(m, reader)
    ensures AtPrefix(Take(m, reader, Poll), reader)
    ensures Take(m, reader, Poll).delivered == OfSession(m.log, reader)
  {
    var s := OfSession(m.log, reader);
    BatchIsRest(m, reader);
    assert s[..m.cursor] + s[m.cursor..] == s;
    assert s[..|s|] == s;
    if m.cursor < |s| { assert Last(s[m.cursor..]) == s[|s| - 1]; }
  }

  lemma AppendKeepsPrefix(m: Machine, reader: string, step: Step)
    requires step.Append? && step.emitter in m.pending && m.cursor <= MaxSequence(m.log, reader)
    requires AtPrefix(m, reader) && CountOf(Take(m, reader, step).stale, reader) == CountOf(m.stale, reader)
    ensures AtPrefix(Take(m, reader, step), reader)
  {
    var e, s := Drafted(m, step), OfSession(m.log, reader);
    Grown(m.log, e, reader, 0);
    StaleGrowsBy(m, reader, step, reader);
    assert s + [] == s && m.late + [] == m.late;
    assert (s + [e])[..m.cursor] == s[..m.cursor];
  }

  /**
   While no emit of its session is disturbed the session counts 1, 2, 3, ..., nothing is late, and at every
   moment, in the middle of an emit too, what polling has delivered is exactly the prefix of the session up to
   the cursor, each event once and in order.  Other sessions may be disturbed at will.
   */
  lemma {:induction false} PollingIsPrefix(reader: string, steps: seq<Step>)
    requires Undisturbed(steps, reader)
    ensures Counting(Run(reader, steps).log, reader) && AtPrefix(Run(reader, steps), reader)
  {
    assert OfSession([], reader) == [];
    UniqueIffUndisturbed(reader, steps, reader);
    if steps != [] {
      var m, step := Run(reader, Front(steps)), Last(steps);
      PollingIsPrefix(reader, Front(steps));
      UndisturbedIffNoStale(reader, Front(steps), reader);
      ScheduleTracks(reader, Front(steps));
      if step.Poll? {
        PollKeepsPrefix(m, reader);
      } else if step.Append? && step.emitter in m.pending {
        AppendKeepsPrefix(m, reader, step);
      }
    }
  }

  /**
   Emits of the session do not overlap: none reads its number while another one is between its read and its
   append.  Polls and emits of other sessions may fall anywhere.
   */
  ghost predicate Sequential(steps: seq<Step>, session: string) {
    steps == []
    || (Sequential(Front(steps), session)
        && (Last(steps).ReadNext? && Last(steps).session == session ==>
              forall em: nat :: em != Last(steps).emitter ==> Holds(Front(steps), em) != Some(session)))
  }

  lemma {:induction false} SequentialOneHolder(steps: seq<Step>, session: string, a: nat, b: nat)
    requires Sequential(steps, session) && a != b
    ensures !(Holds(steps, a) == Some(session) && Holds(steps, b) == Some(session))
  {
    if steps != [] { SequentialOneHolder(Front(steps), session, a, b); }
  }

  lemma {:induction false} SequentialNotDisturbed(steps: seq<Step>, session: string, emitter: nat)
    requires Sequential(steps, session) && Holds(steps, emitter) == Some(session)
    ensures !Disturbed(steps, emitter)
  {
    var step := Last(steps);
    if !(step.ReadNext? && step.emitter == emitter) {
      SequentialNotDisturbed(Front(steps), session, emitter);
      if step.Append? { SequentialOneHolder(Front(steps), session, emitter, step.emitter); }
    }
  }

  /** Emits that do not overlap are not disturbed, so all of the above holds for them. */
  lemma {:induction false} SequentialUndisturbed(steps: seq<Step>, session: string)
    requires Sequential(steps, session)
    ensures Undisturbed(steps, session)
  {
    if steps != [] {
      SequentialUndisturbed(Front(steps), session);
      if AppendsTo(steps, session) { SequentialNotDisturbed(Front(steps), session, Last(steps).emitter); }
    }
  }

  // ---------------------------------------------------------------- emits that do overlap

  function OverlapSteps(a: string, b: string, data: string): seq<Step> {
    [ReadNext(0, "s"), ReadNext(1, "s"), Append(0, a, data), Poll, Append(1, b, data)]
  }

  lemma RunPrefix(reader: string, steps: seq<Step>, k: nat)
    requires k < |steps|
    ensures Run(reader, steps[..k + 1]) == Take(Run(reader, steps[..k]), reader, steps[k])
  {
    FrontTake(steps, k);
  }

  const BOTH := map[0 := Draft("s", 1), 1 := Draft("s", 1)]

  /** Both emitters read the number 1. */
  lemma OverlapReads(steps: seq<Step>)
    requires |steps| >= 2 && steps[0] == ReadNext(0, "s") && steps[1] == ReadNext(1, "s")
    ensures Run("s", steps[..2]) == Machine([], BOTH, 0, [], [], [])
  {
    RunPrefix("s", steps, 0);
    RunPrefix("s", steps, 1);
    assert steps[..0] == [];
    assert Run("s", steps[..1]) == Machine([], map[0 := Draft("s", 1)], 0, [], [], []);
    assert map[0 := Draft("s", 1)][1 := Draft("s", 1)] == BOTH;
  }

  lemma OverlapFirst(id: string, data: string)
    ensures Take(Machine([], BOTH, 0, [], [], []), "s", Append(0, id, data))
            == Machine([Event(id, "s", 1, data)], map[1 := Draft("s", 1)], 0, [], [], [])
  {
    assert BOTH - {0} == map[1 := Draft("s", 1)];
  }

  lemma OneListed(e: Event)
    requires e.session == "s" && e.sequence == 1
    ensures BySequence(Beyond([e], "s", 0)) == [e] && MaxSequence([e], "s") == 1
  {
    assert Front([e]) == [] && Beyond([e], "s", 0) == [e];
    assert BySequence([]) == [];
  }

  lemma OverlapPoll(e: Event, pending: map<nat, Draft>)
    requires e.session == "s" && e.sequence == 1
    ensures Take(Machine([e], pending, 0, [], [], []), "s", Poll) == Machine([e], pending, 1, [e], [], [])
  {
    OneListed(e);
    assert [] + [e] == [e];
  }

  lemma OverlapSecond(e: Event, id: string, data: string)
    requires e.session == "s" && e.sequence == 1
    ensures var f := Event(id, "s", 1, data);
            Take(Machine([e], map[1 := Draft("s", 1)], 1, [e], [], []), "s", Append(1, id, data))
            == Machine([e, f], map[], 1, [e], [f], [f])
  {
    OneListed(e);
    var f := Event(id, "s", 1, data);
    assert [e] + [f] == [e, f] && [] + [f] == [f];
    assert map[1 := Draft("s", 1)] - {1} == map[];
  }

  /** One step of a run whose machine is known. */
  lemma RunOn(steps: seq<Step>, k: nat, m: Machine, step: Step, n: Machine)
    requires k < |steps| && steps[k] == step && Run("s", steps[..k]) == m && Take(m, "s", step) == n
    ensures Run("s", steps[..k + 1]) == n
  {
    RunPrefix("s", steps, k);
  }

  lemma OverlapThree(steps: seq<Step>, a: string, data: string)
    requires |steps| >= 3 && steps[0] == ReadNext(0, "s") && steps[1] == ReadNext(1, "s") && steps[2] == Append(0, a, data)
    ensures Run("s", steps[..3]) == Machine([Event(a, "s", 1, data)], map[1 := Draft("s", 1)], 0, [], [], [])
  {
    OverlapReads(steps);
    OverlapFirst(a, data);
    RunOn(steps, 2, Machine([], BOTH, 0, [], [], []), Append(0, a, data),
          Machine([Event(a, "s", 1, data)], map[1 := Draft("s", 1)], 0, [], [], []));
  }

  lemma OverlapFive(steps: seq<Step>, e: Event, b: string, data: string)
    requires |steps| == 5 && steps[3] == Poll && steps[4] == Append(1, b, data) && e.session == "s" && e.sequence == 1
    requires Run("s", steps[..3]) == Machine([e], map[1 := Draft("s", 1)], 0, [], [], [])
    ensures var f := Event(b, "s", 1, data); Run("s", steps[..5]) == Machine([e, f], map[], 1, [e], [f], [f])
  {
    var pending, f := map[1 := Draft("s", 1)], Event(b, "s", 1, data);
    OverlapPoll(e, pending);
    RunOn(steps, 3, Machine([e], pending, 0, [], [], []), Poll, Machine([e], pending, 1, [e], [], []));
    OverlapSecond(e, b, data);
    RunOn(steps, 4, Machine([e], pending, 1, [e], [], []), Append(1, b, data), Machine([e, f], map[], 1, [e], [f], [f]));
  }

  /** Overlap does lose events: two emitters read, one appends, the reader polls, the other appends. */
  lemma OverlapLosesEvent(a: string, b: string, data: string)
    ensures var m := Run("s", OverlapSteps(a, b, data));
            m.late == [Event(b, "s", 1, data)] && m.stale == m.late && m.delivered == [Event(a, "s", 1, data)]
  {
    var steps := OverlapSteps(a, b, data);
    OverlapThree(steps, a, data);
    OverlapFive(steps, Event(a, "s", 1, data), b, data);
    assert steps[..5] == steps;
  }
}
