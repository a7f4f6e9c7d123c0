/**
Persistent, bounded retries. The state is whatever the ticket's field holds, well-formed or not;
times and delays are real numbers.
*/
module RetryGuard {
  import opened Wrappers

  /** `attempts` is None when it does not read as an integer, `nextRetryAt` when not as a time. */
  datatype Entry = Entry(status: Option<string>, attempts: Option<int>, nextRetryAt: Option<real>, exhausted: bool)

  datatype Key = Kind(name: string) | NotText(id: nat)

  datatype Value = IsEntry(entry: Entry) | NotADict

  datatype Stored = Absent | Stored(entries: map<Key, Value>)

  /** Only entries under a text key are kept. */
  function States(fields: Stored): map<string, Entry> {
    if fields.Absent? then map[]
    else (map key | key in fields.entries && key.Kind? && fields.entries[key].IsEntry? ::
            key.name := fields.entries[key].entry)
  }

  function Saved(states: map<string, Entry>): Stored {
    if states == map[] then Absent else Stored(map kind | kind in states :: Kind(kind) := IsEntry(states[kind]))
  }

  lemma SavedReadsBack(states: map<string, Entry>)
    ensures States(Saved(states)) == states
  {
    if states != map[] {
      assert forall kind :: kind in states ==> Kind(kind) in Saved(states).entries;
    }
  }

  function RetryEntry(fields: Stored, kind: string, status: string): (r: Option<Entry>)
    ensures r.Some? <==> kind in States(fields) && States(fields)[kind].status == Some(status)
    ensures r.Some? ==> r.value == States(fields)[kind]
  {
    var entry := Get(States(fields), kind);
    if entry.None? || entry.value.status != Some(status) then None else entry
  }

  predicate IsSuppressed(fields: Stored, kind: string, status: string, now: real) {
    var entry := RetryEntry(fields, kind, status);
    && entry.Some?
    && (entry.value.exhausted || (entry.value.nextRetryAt.Some? && entry.value.nextRetryAt.value > now))
  }

  datatype Params = Params(limit: int, base: real, max: real)

  function Pow2(e: int): (r: real)
    ensures r > 0.0
    decreases if e >= 0 then e else -e
  {
    if e == 0 then 1.0 else if e > 0 then 2.0 * Pow2(e - 1) else Pow2(e + 1) / 2.0
  }

  function Times(base: real, x: real): real { base * x }

  function Capped(delay: real, max: real): real { if delay < max then delay else max }

  function Delay(p: Params, attempts: int): real {
    Capped(Times(p.base, Pow2(attempts - 1)), p.max)
  }

  /** The attempts count on only within one status, and from what reads as an integer. */
  function Attempts(previous: Option<Entry>, status: string): int {
    if previous.Some? && previous.value.status == Some(status) && previous.value.attempts.Some?
    then previous.value.attempts.value + 1 else 1
  }

  function Failure(status: string, attempts: int, now: real, p: Params): Entry {
    var exhausted := attempts >= p.limit;
    Entry(Some(status), Some(attempts), if exhausted then None else Some(now + Delay(p, attempts)), exhausted)
  }

  function RecordFailure(fields: Stored, kind: string, status: string, now: real, p: Params): (Stored, bool, int) {
    var states := States(fields);
    var attempts := Attempts(Get(states, kind), status);
    (Saved(states[kind := Failure(status, attempts, now, p)]), attempts >= p.limit, attempts)
  }

  function ClearEntry(fields: Stored, kind: string): Stored {
    Saved(States(fields) - {kind})
  }

  function PruneStale(fields: Stored, current: string): Stored {
    var states := States(fields);
    Saved(map kind | kind in states && states[kind].status == Some(current) :: states[kind])
  }

  // ---------- Other kinds ----------

  lemma Recorded(fields: Stored, kind: string, status: string, now: real, p: Params)
    ensures States(RecordFailure(fields, kind, status, now, p).0) ==
            States(fields)[kind := Failure(status, Attempts(Get(States(fields), kind), status), now, p)]
  {
    SavedReadsBack(States(fields)[kind := Failure(status, Attempts(Get(States(fields), kind), status), now, p)]);
  }

  /** Recording or clearing one kind leaves every other kind's well-formed entry as it was. */
  lemma OtherKindsUntouched(fields: Stored, kind: string, other: string, status: string, now: real, p: Params)
    requires other != kind
    ensures Get(States(RecordFailure(fields, kind, status, now, p).0), other) == Get(States(fields), other)
    ensures Get(States(ClearEntry(fields, kind)), other) == Get(States(fields), other)
    ensures kind !in States(ClearEntry(fields, kind))
  {
    Recorded(fields, kind, status, now, p);
    SavedReadsBack(States(fields) - {kind});
  }

  /** Pruning keeps exactly the entries of the current status. */
  lemma PrunedIsCurrent(fields: Stored, current: string, kind: string)
    ensures Get(States(PruneStale(fields, current)), kind) == RetryEntry(fields, kind, current)
  {
    var states := States(fields);
    SavedReadsBack(map kind | kind in states && states[kind].status == Some(current) :: states[kind]);
  }

  // ---------- Runs ----------

  datatype Event = Failed(kind: string, now: real) | Cleared(kind: string) | Moved(status: string)

  datatype Ticket = Ticket(status: string, fields: Stored)

  function Step(t: Ticket, e: Event, params: string -> Params): Ticket {
    match e
    case Failed(kind, now) => t.(fields := RecordFailure(t.fields, kind, t.status, now, params(kind)).0)
    case Cleared(kind) => t.(fields := ClearEntry(t.fields, kind))
    case Moved(status) => Ticket(status, PruneStale(t.fields, status))
  }

  function Run(t: Ticket, events: seq<Event>, params: string -> Params): Ticket {
    if events == [] then t else Step(Run(t, events[..|events| - 1], params), events[|events| - 1], params)
  }

  /** Nothing is attempted while it is suppressed. */
  ghost predicate Guarded(t: Ticket, events: seq<Event>, params: string -> Params) {
    forall i :: 0 <= i < |events| && events[i].Failed? ==>
      var before := Run(t, events[..i], params);
      !IsSuppressed(before.fields, events[i].kind, before.status, events[i].now)
  }

  predicate StaysOver(e: Event, kind: string) { !e.Moved? && e != Cleared(kind) }

  /** One unbroken stay: the ticket does not move and the kind is not cleared. */
  predicate Stays(events: seq<Event>, kind: string) {
    forall i :: 0 <= i < |events| ==> StaysOver(events[i], kind)
  }

  predicate FailsOf(e: Event, kind: string) { e.Failed? && e.kind == kind }

  function Failures(events: seq<Event>, kind: string): nat {
    if events == [] then 0
    else
      var last := events[|events| - 1];
      Failures(events[..|events| - 1], kind) + if FailsOf(last, kind) then 1 else 0
  }

  /** The time of the last failure of the kind, if there was one. */
  function LastFailure(events: seq<Event>, kind: string): Option<real> {
    if events == [] then None
    else
      var last := events[|events| - 1];
      if FailsOf(last, kind) then Some(last.now) else LastFailure(events[..|events| - 1], kind)
  }

  /** What is on record for a kind after so many failures, the last of them at that time. */
  function OnRecord(status: string, n: nat, last: Option<real>, p: Params): Option<Entry> {
    if last.None? then None else Some(Failure(status, n, last.value, p))
  }

  lemma OneEventTells(t: Ticket, e: Event, kind: string, n: nat, last: Option<real>, params: string -> Params)
    requires RetryEntry(t.fields, kind, t.status) == OnRecord(t.status, n, last, params(kind)) && (last.None? <==> n == 0)
    requires StaysOver(e, kind)
    ensures var after := Step(t, e, params);
      && after.status == t.status
      && RetryEntry(after.fields, kind, t.status) ==
         if FailsOf(e, kind) then OnRecord(t.status, n + 1, Some(e.now), params(kind)) else RetryEntry(t.fields, kind, t.status)
  {
    if e.Failed? {
      Recorded(t.fields, e.kind, t.status, e.now, params(e.kind));
    }
    if e.kind != kind {
      OtherKindsUntouched(t.fields, e.kind, kind, t.status, if e.Failed? then e.now else 0.0, params(e.kind));
    }
  }

  /** The record of a stay that began without one always tells how often and when it failed. */
  lemma {:induction false} RecordTellsTheStay(t: Ticket, events: seq<Event>, kind: string, params: string -> Params)
    requires RetryEntry(t.fields, kind, t.status).None? && Stays(events, kind)
    ensures Run(t, events, params).status == t.status
    ensures RetryEntry(Run(t, events, params).fields, kind, t.status) ==
            OnRecord(t.status, Failures(events, kind), LastFailure(events, kind), params(kind))
    ensures LastFailure(events, kind).None? <==> Failures(events, kind) == 0
  {
    if events != [] {
      var before, last := events[..|events| - 1], events[|events| - 1];
      assert Stays(before, kind) && StaysOver(last, kind);
      RecordTellsTheStay(t, before, kind, params);
      assert Run(t, events, params) == Step(Run(t, before, params), last, params);
      OneEventTells(Run(t, before, params), last, kind, Failures(before, kind), LastFailure(before, kind), params);
    }
  }

  /** The failures of one kind in one unbroken stay never exceed the retry limit, and a limit
      below one still allows one. */
  lemma {:induction false} FailuresAreBounded(t: Ticket, events: seq<Event>, kind: string, params: string -> Params)
    requires RetryEntry(t.fields, kind, t.status).None? && Stays(events, kind) && Guarded(t, events, params)
    ensures Failures(events, kind) <= if params(kind).limit >= 1 then params(kind).limit else 1
  {
    if events != [] {
      var before, last := events[..|events| - 1], events[|events| - 1];
      assert Guarded(t, before, params) by {
        assert forall i :: 0 <= i < |before| ==> before[..i] == events[..i];
      }
      FailuresAreBounded(t, before, kind, params);
      RecordTellsTheStay(t, before, kind, params);
    }
  }

  /** A failure comes at least the recorded delay after the one before it. */
  lemma FailuresAreSpaced(t: Ticket, events: seq<Event>, kind: string, now: real, params: string -> Params)
    requires RetryEntry(t.fields, kind, t.status).None? && Stays(events, kind)
    requires Guarded(t, events + [Failed(kind, now)], params) && LastFailure(events, kind).Some?
    ensures now >= LastFailure(events, kind).value + Delay(params(kind), Failures(events, kind))
  {
    var longer := events + [Failed(kind, now)];
    assert longer[..|events|] == events && longer[|events|] == Failed(kind, now);
    RecordTellsTheStay(t, events, kind, params);
  }

  /** Exactly when a kind is held back in a stay: its failures used up the limit, or the delay
      after the last of them is not over yet. */
  lemma SuppressedExactly(t: Ticket, events: seq<Event>, kind: string, now: real, params: string -> Params)
    requires RetryEntry(t.fields, kind, t.status).None? && Stays(events, kind)
    ensures var n, last := Failures(events, kind), LastFailure(events, kind);
      IsSuppressed(Run(t, events, params).fields, kind, t.status, now) <==>
      last.Some? && (n >= params(kind).limit || now < last.value + Delay(params(kind), n))
  {
    RecordTellsTheStay(t, events, kind, params);
  }

  lemma PowerStep(e: int)
    ensures Pow2(e) == 2.0 * Pow2(e - 1)
  {
  }

  lemma {:induction false} PowersGrow(a: int, b: int)
    requires a <= b
    ensures Pow2(a) <= Pow2(b)
    decreases b - a
  {
    if a < b {
      PowersGrow(a, b - 1);
      PowerStep(b);
    }
  }

  lemma ScaledGrows(base: real, x: real, y: real)
    requires base >= 0.0 && x <= y
    ensures Times(base, x) <= Times(base, y)
  {
  }

  lemma CappedGrows(x: real, y: real, max: real)
    requires x <= y
    ensures Capped(x, max) <= Capped(y, max) <= max
  {
  }

  /** The delays do not shrink from one failure to a later one, and never exceed the maximum. */
  lemma DelaysGrow(p: Params, a: int, b: int)
    requires p.base >= 0.0 && a <= b
    ensures Delay(p, a) <= Delay(p, b) <= p.max
  {
    PowersGrow(a - 1, b - 1);
    ScaledGrows(p.base, Pow2(a - 1), Pow2(b - 1));
    CappedGrows(Times(p.base, Pow2(a - 1)), Times(p.base, Pow2(b - 1)), p.max);
  }

  lemma Doubled(base: real, x: real, y: real)
    requires y == 2.0 * x
    ensures Times(base, y) == 2.0 * Times(base, x)
  {
  }

  /** The first delay is the base, and each delay is twice the one before, up to the maximum. */
  lemma DelaysDouble(p: Params, a: int)
    requires p.base >= 0.0
    ensures Delay(p, 1) == Capped(p.base, p.max)
    ensures Delay(p, a + 1) == Capped(2.0 * Times(p.base, Pow2(a - 1)), p.max)
  {
    PowerStep(a);
    Doubled(p.base, Pow2(a - 1), Pow2(a));
  }

  /** An exhausted kind stays suppressed at every later time, whatever happens to other kinds,
      until it is cleared or the ticket moves to another status. */
  lemma {:induction false} ExhaustionStays(t: Ticket, events: seq<Event>, kind: string, params: string -> Params)
    requires RetryEntry(t.fields, kind, t.status).Some? && RetryEntry(t.fields, kind, t.status).value.exhausted
    requires Guarded(t, events, params)
    requires forall i :: 0 <= i < |events| ==> events[i] != Cleared(kind) && (events[i].Moved? ==> events[i].status == t.status)
    ensures var after := Run(t, events, params);
      && after.status == t.status
      && RetryEntry(after.fields, kind, t.status) == RetryEntry(t.fields, kind, t.status)
      && forall now: real :: IsSuppressed(after.fields, kind, t.status, now)
  {
    if events != [] {
      var before, last := events[..|events| - 1], events[|events| - 1];
      assert Guarded(t, before, params) by {
        assert forall i :: 0 <= i < |before| ==> before[..i] == events[..i];
      }
      ExhaustionStays(t, before, kind, params);
      var was := Run(t, before, params);
      match last {
        case Failed(k, now) =>
          if k != kind {
            OtherKindsUntouched(was.fields, k, kind, was.status, now, params(k));
          } else {
            assert IsSuppressed(was.fields, kind, t.status, now);
          }
        case Cleared(k) => OtherKindsUntouched(was.fields, k, kind, was.status, 0.0, params(k));
        case Moved(status) => PrunedIsCurrent(was.fields, status, kind);
      }
    }
  }
}
