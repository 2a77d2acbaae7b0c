/** The event log and dashboard of src/monitor/mod.rs. */
module Monitor {
  import opened Base

  datatype EventType = IntentExecuted | SessionInvalidated | RecoveryStateChanged | DelegationEndorsed | HighValueIntent

  datatype Entry = Entry(
    eventType: EventType, identity: Bytes20, blockNumber: Uint64, timestamp: Uint64, metadata: seq<(string, string)>)

  datatype Counter = PendingRecoveries | ExecutedIntents | HighValueIntents | RevokedSessions

  datatype DashboardSnapshot = DashboardSnapshot(
    activeIdentities: nat, pendingRecoveries: nat, executedIntents: nat, highValueIntents: nat,
    revokedSessions: nat, snapshotTimestamp: Uint64)
  {
    function Count(k: Counter): nat {
      match k
      case PendingRecoveries => pendingRecoveries
      case ExecutedIntents => executedIntents
      case HighValueIntents => highValueIntents
      case RevokedSessions => revokedSessions
    }
  }

  // ---------------------------------------------------------------------------
  // What the dashboard measures
  // ---------------------------------------------------------------------------

  const NEW_STATE := "new_state"
  const RECOVERY_PENDING := "RecoveryPending"

  predicate EntersRecovery(e: Entry) {
    e.eventType.RecoveryStateChanged? && (NEW_STATE, RECOVERY_PENDING) in e.metadata
  }

  predicate Counts(k: Counter, e: Entry) {
    match k
    case PendingRecoveries => EntersRecovery(e)
    case ExecutedIntents => e.eventType.IntentExecuted?
    case HighValueIntents => e.eventType.HighValueIntent?
    case RevokedSessions => e.eventType.SessionInvalidated?
  }

  function Total(k: Counter, entries: seq<Entry>): nat {
    if entries == [] then 0
    else Total(k, entries[..|entries| - 1]) + if Counts(k, entries[|entries| - 1]) then 1 else 0
  }

  function Identities(entries: seq<Entry>): set<Bytes20> {
    set e | e in entries :: e.identity
  }

  predicate Measures(s: DashboardSnapshot, entries: seq<Entry>, timestamp: Uint64) {
    && s.activeIdentities == |Identities(entries)|
    && (forall k: Counter :: s.Count(k) == Total(k, entries))
    && s.snapshotTimestamp == timestamp
  }

  // The iterator filters.
  datatype Selection = ByType(eventType: EventType) | ByIdentity(identity: Bytes20) | InRange(from: Uint64, to: Uint64)
  {
    predicate Takes(e: Entry) {
      match this
      case ByType(t) => e.eventType == t
      case ByIdentity(id) => e.identity == id
      case InRange(from, to) => e.timestamp >= from && e.timestamp <= to
    }

    function Filter(entries: seq<Entry>): seq<Entry> {
      if entries == [] then []
      else
        var rest := Filter(entries[..|entries| - 1]);
        if Takes(entries[|entries| - 1]) then rest + [entries[|entries| - 1]] else rest
    }
  }

  // ---------------------------------------------------------------------------
  // The log and the dashboard
  // ---------------------------------------------------------------------------

  class EventLog {
    var entries: seq<Entry>

    constructor ()
      ensures entries == []
    {
      entries := [];
    }

    method Record(entry: Entry)
      modifies this
      ensures entries == old(entries) + [entry]
    {
      entries := entries + [entry];
    }

    // The guardian, when known, in its printed form.
    method RecordRecoveryStateChanged(identity: Bytes20, newState: string, guardian: Option<string>,
                                      blockNumber: Uint64, timestamp: Uint64)
      modifies this
      ensures |entries| == |old(entries)| + 1 && entries[..|old(entries)|] == old(entries)
      ensures var e := entries[|old(entries)|];
        && e.identity == identity && e.blockNumber == blockNumber && e.timestamp == timestamp
        && e.eventType == RecoveryStateChanged && (EntersRecovery(e) <==> newState == RECOVERY_PENDING)
    {
      var meta := [(NEW_STATE, newState)];
      if guardian.Some? {
        meta := meta + [("guardian", guardian.value)];
      }
      assert meta[0] == (NEW_STATE, newState);
      Record(Entry(RecoveryStateChanged, identity, blockNumber, timestamp, meta));
    }
  }

  class DashboardState {
    const eventLog: EventLog

    constructor (eventLog: EventLog)
      ensures this.eventLog == eventLog
    {
      this.eventLog := eventLog;
    }

    method Snapshot(timestamp: Uint64) returns (s: DashboardSnapshot)
      ensures Measures(s, eventLog.entries, timestamp)
    {
      hide Total, Identities, Selection.Filter;
      NothingMeasured();
      var entries := eventLog.entries;
      var identities: set<Bytes20> := {};
      var pending, executed, highValue, revoked := 0, 0, 0, 0;
      for i := 0 to |entries|
        invariant identities == Identities(entries[..i])
        invariant pending == Total(PendingRecoveries, entries[..i])
        invariant executed == Total(ExecutedIntents, entries[..i])
        invariant highValue == Total(HighValueIntents, entries[..i])
        invariant revoked == Total(RevokedSessions, entries[..i])
      {
        var entry := entries[i];
        assert entries[..i + 1] == entries[..i] + [entry];
        MeasureOneMore(entries[..i], entry);
        identities := identities + {entry.identity};
        match entry.eventType {
          case IntentExecuted => executed := executed + 1;
          case HighValueIntent => highValue := highValue + 1;
          case SessionInvalidated => revoked := revoked + 1;
          case RecoveryStateChanged =>
            if (NEW_STATE, RECOVERY_PENDING) in entry.metadata {
              pending := pending + 1;
            }
          case _ =>
        }
      }
      assert entries[..|entries|] == entries;
      s := DashboardSnapshot(|identities|, pending, executed, highValue, revoked, timestamp);
    }

    method SnapshotInRange(from: Uint64, to: Uint64, timestamp: Uint64) returns (s: DashboardSnapshot)
      ensures Measures(s, EntriesInRange(from, to), timestamp)
    {
      hide Total, Identities, Selection.Filter;
      NothingMeasured();
      var entries := eventLog.entries;
      var range := InRange(from, to);
      var identities: set<Bytes20> := {};
      var pending, executed, highValue, revoked := 0, 0, 0, 0;
      for i := 0 to |entries|
        invariant identities == Identities(range.Filter(entries[..i]))
        invariant pending == Total(PendingRecoveries, range.Filter(entries[..i]))
        invariant executed == Total(ExecutedIntents, range.Filter(entries[..i]))
        invariant highValue == Total(HighValueIntents, range.Filter(entries[..i]))
        invariant revoked == Total(RevokedSessions, range.Filter(entries[..i]))
      {
        var entry := entries[i];
        assert entries[..i + 1] == entries[..i] + [entry];
        FilterSnoc(range, entries[..i], entry);
        var taken := range.Filter(entries[..i]);
        if entry.timestamp < from || entry.timestamp > to {
          continue;
        }
        MeasureOneMore(taken, entry);
        identities := identities + {entry.identity};
        match entry.eventType {
          case IntentExecuted => executed := executed + 1;
          case HighValueIntent => highValue := highValue + 1;
          case SessionInvalidated => revoked := revoked + 1;
          case RecoveryStateChanged =>
            if (NEW_STATE, RECOVERY_PENDING) in entry.metadata {
              pending := pending + 1;
            }
          case _ =>
        }
      }
      assert entries[..|entries|] == entries;
      s := DashboardSnapshot(|identities|, pending, executed, highValue, revoked, timestamp);
    }

    function EntriesInRange(from: Uint64, to: Uint64): seq<Entry>
      reads eventLog
    {
      InRange(from, to).Filter(eventLog.entries)
    }
  }

  // ---------------------------------------------------------------------------
  // Filters and ranges
  // ---------------------------------------------------------------------------

  lemma FilterSnoc(sel: Selection, entries: seq<Entry>, e: Entry)
    ensures sel.Filter(entries + [e]) == if sel.Takes(e) then sel.Filter(entries) + [e] else sel.Filter(entries)
  {
    assert (entries + [e])[..|entries|] == entries;
  }

  lemma TotalSnoc(k: Counter, entries: seq<Entry>, e: Entry)
    ensures Total(k, entries + [e]) == Total(k, entries) + if Counts(k, e) then 1 else 0
  {
    assert (entries + [e])[..|entries|] == entries;
  }

  lemma NothingMeasured()
    ensures Identities([]) == {}
    ensures forall k: Counter :: Total(k, []) == 0
    ensures forall sel: Selection :: sel.Filter([]) == []
  {
  }

  // What one more entry adds to a snapshot.
  lemma MeasureOneMore(entries: seq<Entry>, e: Entry)
    ensures Identities(entries + [e]) == Identities(entries) + {e.identity}
    ensures forall k: Counter :: Total(k, entries + [e]) == Total(k, entries) + if Counts(k, e) then 1 else 0
  {
    IdentitiesSnoc(entries, e);
    forall k: Counter ensures Total(k, entries + [e]) == Total(k, entries) + if Counts(k, e) then 1 else 0 {
      TotalSnoc(k, entries, e);
    }
  }

  // A filter keeps exactly the entries it takes, as often as they occur.
  lemma {:induction false} FilterKeepsExactly(sel: Selection, entries: seq<Entry>, e: Entry)
    ensures multiset(sel.Filter(entries))[e] == if sel.Takes(e) then multiset(entries)[e] else 0
  {
    if entries != [] {
      var front, last := entries[..|entries| - 1], entries[|entries| - 1];
      FilterKeepsExactly(sel, front, e);
      assert entries == front + [last];
    }
  }

  // A filter keeps the order of the log.
  lemma {:induction false} FilterKeepsOrder(sel: Selection, a: seq<Entry>, b: seq<Entry>)
    ensures sel.Filter(a + b) == sel.Filter(a) + sel.Filter(b)
    decreases |b|
  {
    hide Selection.Filter;
    if b == [] {
      assert a + b == a;
      NothingMeasured();
    } else {
      var front, last := b[..|b| - 1], b[|b| - 1];
      assert b == front + [last];
      FilterKeepsOrder(sel, a, front);
      FilterSnoc(sel, front, last);
      FilterSnoc(sel, a + front, last);
      assert a + b == a + front + [last];
    }
  }

  lemma {:induction false} FullRangeTakesAll(entries: seq<Entry>)
    ensures InRange(0, TWO_64 - 1).Filter(entries) == entries
  {
    if entries != [] {
      FullRangeTakesAll(entries[..|entries| - 1]);
    }
  }

  // Two snapshots of the same entries at the same time are equal.
  lemma MeasuresDetermines(s: DashboardSnapshot, t: DashboardSnapshot, entries: seq<Entry>, timestamp: Uint64)
    requires Measures(s, entries, timestamp) && Measures(t, entries, timestamp)
    ensures s == t
  {
    assert forall k: Counter :: s.Count(k) == t.Count(k);
    assert s.Count(PendingRecoveries) == t.Count(PendingRecoveries);
    assert s.Count(ExecutedIntents) == t.Count(ExecutedIntents);
    assert s.Count(HighValueIntents) == t.Count(HighValueIntents);
    assert s.Count(RevokedSessions) == t.Count(RevokedSessions);
  }

  // What snapshot returns is what snapshot_in_range returns for the whole of time.
  lemma SnapshotsAgree(entries: seq<Entry>, timestamp: Uint64, whole: DashboardSnapshot, full: DashboardSnapshot)
    requires Measures(whole, entries, timestamp)
    requires Measures(full, InRange(0, TWO_64 - 1).Filter(entries), timestamp)
    ensures whole == full
  {
    FullRangeTakesAll(entries);
    MeasuresDetermines(whole, full, entries, timestamp);
  }

  lemma {:induction false} TotalsSplit(entries: seq<Entry>, a: Uint64, m: Uint64, b: Uint64, k: Counter)
    requires a <= m < b
    ensures Total(k, InRange(a, b).Filter(entries))
         == Total(k, InRange(a, m).Filter(entries)) + Total(k, InRange(m + 1, b).Filter(entries))
  {
    hide Total, Counts, Selection.Filter;
    NothingMeasured();
    if entries != [] {
      var front, last := entries[..|entries| - 1], entries[|entries| - 1];
      TotalsSplit(front, a, m, b, k);
      assert entries == front + [last];
      FilterSnoc(InRange(a, b), front, last);
      FilterSnoc(InRange(a, m), front, last);
      FilterSnoc(InRange(m + 1, b), front, last);
      TotalSnoc(k, InRange(a, b).Filter(front), last);
      TotalSnoc(k, InRange(a, m).Filter(front), last);
      TotalSnoc(k, InRange(m + 1, b).Filter(front), last);
    }
  }

  lemma IdentitiesSnoc(entries: seq<Entry>, e: Entry)
    ensures Identities(entries + [e]) == Identities(entries) + {e.identity}
  {
    assert forall x :: x in entries + [e] <==> x in entries || x == e;
  }

  lemma {:induction false} IdentitiesSplit(entries: seq<Entry>, a: Uint64, m: Uint64, b: Uint64)
    requires a <= m < b
    ensures Identities(InRange(a, b).Filter(entries))
         == Identities(InRange(a, m).Filter(entries)) + Identities(InRange(m + 1, b).Filter(entries))
  {
    if entries != [] {
      var front, last := entries[..|entries| - 1], entries[|entries| - 1];
      IdentitiesSplit(front, a, m, b);
      hide Identities;
      IdentitiesSnoc(InRange(a, b).Filter(front), last);
      IdentitiesSnoc(InRange(a, m).Filter(front), last);
      IdentitiesSnoc(InRange(m + 1, b).Filter(front), last);
    }
  }

  /** Cutting a range in two cuts every counter in two; the active identities of the whole lie between
      the larger part and the sum, since an identity may be active in both. */
  lemma SnapshotsSplit(entries: seq<Entry>, a: Uint64, m: Uint64, b: Uint64, timestamp: Uint64,
                       whole: DashboardSnapshot, early: DashboardSnapshot, late: DashboardSnapshot)
    requires a <= m < b
    requires Measures(whole, InRange(a, b).Filter(entries), timestamp)
    requires Measures(early, InRange(a, m).Filter(entries), timestamp)
    requires Measures(late, InRange(m + 1, b).Filter(entries), timestamp)
    ensures forall k: Counter :: whole.Count(k) == early.Count(k) + late.Count(k)
    ensures early.activeIdentities <= whole.activeIdentities && late.activeIdentities <= whole.activeIdentities
    ensures whole.activeIdentities <= early.activeIdentities + late.activeIdentities
  {
    forall k: Counter ensures whole.Count(k) == early.Count(k) + late.Count(k) {
      TotalsSplit(entries, a, m, b, k);
    }
    IdentitiesSplit(entries, a, m, b);
    var x, y := Identities(InRange(a, m).Filter(entries)), Identities(InRange(m + 1, b).Filter(entries));
    SubsetSize(x, x + y);
    SubsetSize(y, x + y);
    assert |x + y| <= |x| + |y|;
  }

  lemma {:induction false} SubsetSize<T>(a: set<T>, b: set<T>)
    requires a <= b
    ensures |a| <= |b|
  {
    if a != {} {
      var x :| x in a;
      SubsetSize(a - {x}, b - {x});
    }
  }

  /** One more event raises its own counter and no other: an executed intent, a high-value intent, a session
      invalidation each theirs; a recovery event the recoveries, if its new state is RecoveryPending; an
      endorsed delegation none. */
  lemma EachEventHasItsCounter(entries: seq<Entry>, e: Entry, t: Uint64, before: DashboardSnapshot, after: DashboardSnapshot)
    requires Measures(before, entries, t) && Measures(after, entries + [e], t)
    ensures after.executedIntents - before.executedIntents == if e.eventType.IntentExecuted? then 1 else 0
    ensures after.highValueIntents - before.highValueIntents == if e.eventType.HighValueIntent? then 1 else 0
    ensures after.revokedSessions - before.revokedSessions == if e.eventType.SessionInvalidated? then 1 else 0
    ensures after.pendingRecoveries - before.pendingRecoveries
            == if e.eventType.RecoveryStateChanged? && ("new_state", "RecoveryPending") in e.metadata then 1 else 0
    ensures before.activeIdentities <= after.activeIdentities <= before.activeIdentities + 1
    ensures after.activeIdentities == before.activeIdentities <==> exists x :: x in entries && x.identity == e.identity
  {
    MeasureOneMore(entries, e);
    assert after.Count(ExecutedIntents) == Total(ExecutedIntents, entries + [e]);
    assert after.Count(HighValueIntents) == Total(HighValueIntents, entries + [e]);
    assert after.Count(RevokedSessions) == Total(RevokedSessions, entries + [e]);
    assert after.Count(PendingRecoveries) == Total(PendingRecoveries, entries + [e]);
    assert before.Count(ExecutedIntents) == Total(ExecutedIntents, entries);
    assert before.Count(HighValueIntents) == Total(HighValueIntents, entries);
    assert before.Count(RevokedSessions) == Total(RevokedSessions, entries);
    assert before.Count(PendingRecoveries) == Total(PendingRecoveries, entries);
    var ids := Identities(entries);
    if e.identity in ids {
      assert ids + {e.identity} == ids;
    }
    assert e.identity in ids <==> exists x :: x in entries && x.identity == e.identity;
  }

  // ---------------------------------------------------------------------------
  // What pending_recoveries counts
  // ---------------------------------------------------------------------------

  // The identities whose last recovery event left them in RecoveryPending.
  function NowPending(entries: seq<Entry>): set<Bytes20> {
    if entries == [] then {}
    else
      var before, e := NowPending(entries[..|entries| - 1]), entries[|entries| - 1];
      if !e.eventType.RecoveryStateChanged? then before
      else if EntersRecovery(e) then before + {e.identity}
      else before - {e.identity}
  }

  // No recovery event concerns an identity that is pending at that point.
  predicate EveryRecoveryStillOpen(entries: seq<Entry>) {
    forall i :: 0 <= i < |entries| && entries[i].eventType.RecoveryStateChanged? ==>
      entries[i].identity !in NowPending(entries[..i])
  }

  /** pendingRecoveries is documented as the number of identities now in recovery. It never falls below
      that number, and equals it exactly when no recovery ever ended or was announced twice. */
  lemma {:induction false} PendingRecoveriesCountsEvents(entries: seq<Entry>)
    ensures |NowPending(entries)| <= Total(PendingRecoveries, entries)
    ensures |NowPending(entries)| == Total(PendingRecoveries, entries) <==> EveryRecoveryStillOpen(entries)
  {
    if entries != [] {
      var n := |entries| - 1;
      var front := entries[..n];
      PendingRecoveriesCountsEvents(front);
      assert forall i :: 0 <= i <= n ==> (if i < n then front[..i] else front) == entries[..i];
    }
  }

  // A recovery that was announced and ended is still counted.
  lemma EndedRecoveryIsStillCounted(id: Bytes20)
    ensures var start := Entry(RecoveryStateChanged, id, 1, 1, [(NEW_STATE, RECOVERY_PENDING)]);
      var end := Entry(RecoveryStateChanged, id, 2, 2, [(NEW_STATE, "Active")]);
      NowPending([start] + [end]) == {} && Total(PendingRecoveries, [start] + [end]) == 1
  {
    var start := Entry(RecoveryStateChanged, id, 1, 1, [(NEW_STATE, RECOVERY_PENDING)]);
    var end := Entry(RecoveryStateChanged, id, 2, 2, [(NEW_STATE, "Active")]);
    assert start.metadata[0] == (NEW_STATE, RECOVERY_PENDING);
    assert ([start] + [end])[..1] == [start];
    assert [start][..0] == [];
    assert end.metadata[0].1[0] == 'A';
    assert !EntersRecovery(end);
    assert NowPending([start]) == {id};
    TotalSnoc(PendingRecoveries, [], start);
    assert [] + [start] == [start];
    TotalSnoc(PendingRecoveries, [start], end);
    assert Total(PendingRecoveries, [start]) == 1;
    assert NowPending([start] + [end]) == NowPending([start]) - {id};
  }
}
