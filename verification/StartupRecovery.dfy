/** Making durable state truthful before the service starts (startup_recovery.py). */
module StartupRecovery {
  import opened Common
  import opened Disk
  import opened Volumes
  import opened Protocol
  import opened Reconciliation
  import opened Census
  import Mending
  import Status

  // ----------------------------------------------------------------- scanning

  /** A record directory whose status.json is valid and belongs where it is. */
  predicate Good(d: Disk, at: Place) {
    && At(d, at).Some? && Status.Valid(At(d, at).value.record)
    && (at.InQueue? ==> At(d, at).value.record.sequence == at.sequence)
    && (at.InEvents? ==> At(d, at).value.record.eventId == at.eventId)
  }

  function Entries(d: Disk): set<Place> {
    (set s | s in d.queue :: InQueue(s)) + (set e | e in d.events :: InEvents(e))
  }

  function SequenceAt(d: Disk, at: Place): int {
    if At(d, at).Some? then At(d, at).value.record.sequence else 0
  }

  /** No malformed record, and no sequence carried by two records. */
  ghost predicate Sound(d: Disk) {
    && (forall at | at in Entries(d) :: Good(d, at))
    && (forall a, b | a in Entries(d) && b in Entries(d) && SequenceAt(d, a) == SequenceAt(d, b) :: a == b)
  }

  predicate Distinct(places: seq<Place>) {
    forall i, j | 0 <= i < j < |places| :: places[i] != places[j]
  }

  /** One directory scan: the good entries once each, and whether any was malformed. */
  method Scan(d: Disk, entries: set<Place>) returns (places: seq<Place>, malformed: bool)
    ensures malformed <==> exists at | at in entries :: !Good(d, at)
    ensures Distinct(places) && forall at :: at in places <==> at in entries && Good(d, at)
  {
    var left := entries;
    places, malformed := [], false;
    while left != {}
      invariant left <= entries
      invariant malformed <==> exists at | at in entries - left :: !Good(d, at)
      invariant Distinct(places) && forall at :: at in places <==> at in entries - left && Good(d, at)
      decreases |left|
    {
      var at :| at in left;
      if Good(d, at) {
        places := places + [at];
      } else {
        malformed := true;
      }
      left := left - {at};
    }
  }

  method ScanAll(d: Disk) returns (records: seq<Place>, malformed: bool)
    ensures malformed <==> exists at | at in Entries(d) :: !Good(d, at)
    ensures !malformed ==> Distinct(records) && forall at :: at in records <==> at in Entries(d)
  {
    var queued, badQueue := Scan(d, set s | s in d.queue :: InQueue(s));
    var current, badCurrent := Scan(d, set e | e in d.events :: InEvents(e));
    assert forall at | at in queued :: at.InQueue?;
    assert forall at | at in current :: at.InEvents?;
    DistinctTogether(queued, current);
    return queued + current, badQueue || badCurrent;
  }

  lemma DistinctTogether(a: seq<Place>, b: seq<Place>)
    requires Distinct(a) && Distinct(b) && forall x | x in a :: x !in b
    ensures Distinct(a + b)
  {
    forall i, j | 0 <= i < j < |a + b| ensures (a + b)[i] != (a + b)[j] {
      if i < |a| <= j {
        assert a[i] in a && b[j - |a|] in b;
      }
    }
  }

  /** _validated_records */
  method ValidatedRecords(d: Disk) returns (r: Result<seq<Place>>)
    ensures r.Ok? <==> Sound(d)
    ensures r.Ok? ==> Distinct(r.value) && forall at :: at in r.value <==> at in Entries(d)
  {
    var records, malformed := ScanAll(d);
    if malformed {
      return Raised;
    }
    var seen: set<int> := {};
    for i := 0 to |records|
      invariant seen == set k | 0 <= k < i :: SequenceAt(d, records[k])
      invariant forall j, k | 0 <= j < k < i :: SequenceAt(d, records[j]) != SequenceAt(d, records[k])
    {
      if SequenceAt(d, records[i]) in seen {
        var k :| 0 <= k < i && SequenceAt(d, records[k]) == SequenceAt(d, records[i]);
        assert records[k] in Entries(d) && records[i] in Entries(d);
        return Raised;
      }
      seen := seen + {SequenceAt(d, records[i])};
    }
    SequencesDiffer(d, records);
    return Ok(records);
  }

  lemma SequencesDiffer(d: Disk, records: seq<Place>)
    requires forall at | at in Entries(d) :: Good(d, at) && at in records
    requires forall j, k | 0 <= j < k < |records| :: SequenceAt(d, records[j]) != SequenceAt(d, records[k])
    ensures Sound(d)
  {
    forall a, b | a in Entries(d) && b in Entries(d) && SequenceAt(d, a) == SequenceAt(d, b) ensures a == b {
      var j :| 0 <= j < |records| && records[j] == a;
      var k :| 0 <= k < |records| && records[k] == b;
    }
  }

  ghost predicate Ascending(d: Disk, places: seq<Place>) {
    forall i, j | 0 <= i < j < |places| :: SequenceAt(d, places[i]) < SequenceAt(d, places[j])
  }

  /** The running records, oldest first. */
  method RunningRecords(d: Disk, records: seq<Place>) returns (running: seq<Place>)
    requires Sound(d) && Distinct(records) && forall at :: at in records <==> at in Entries(d)
    ensures Ascending(d, running)
    ensures forall at :: at in running <==> RunningAt(d, at)
  {
    running := [];
    for i := 0 to |records|
      invariant Ascending(d, running)
      invariant forall at :: at in running <==> at in records[..i] && RunningAt(d, at)
    {
      if RunningAt(d, records[i]) {
        running := Inserted(d, running, records[i]);
      }
    }
    assert records[..|records|] == records;
  }

  /** Insertion that keeps sequences ascending. */
  method Inserted(d: Disk, places: seq<Place>, at: Place) returns (more: seq<Place>)
    requires Ascending(d, places)
    requires forall p | p in places :: SequenceAt(d, p) != SequenceAt(d, at)
    ensures Ascending(d, more)
    ensures forall p :: p in more <==> p in places || p == at
  {
    var n := |places|;
    while n > 0 && SequenceAt(d, places[n - 1]) > SequenceAt(d, at)
      invariant 0 <= n <= |places|
      invariant forall k | n <= k < |places| :: SequenceAt(d, places[k]) > SequenceAt(d, at)
    {
      n := n - 1;
    }
    more := places[..n] + [at] + places[n..];
    if n > 0 {
      assert places[n - 1] in places;
    }
    InsertionAscends(d, places, n, at);
    InsertionAdds(places, n, at);
  }

  lemma InsertionAscends(d: Disk, places: seq<Place>, n: nat, at: Place)
    requires n <= |places| && Ascending(d, places)
    requires n > 0 ==> SequenceAt(d, places[n - 1]) < SequenceAt(d, at)
    requires n < |places| ==> SequenceAt(d, at) < SequenceAt(d, places[n])
    ensures Ascending(d, places[..n] + [at] + places[n..])
  {
    hide SequenceAt;
  }

  lemma InsertionAdds(places: seq<Place>, n: nat, at: Place)
    requires n <= |places|
    ensures forall p :: p in places[..n] + [at] + places[n..] <==> p in places || p == at
  {
    assert places == places[..n] + places[n..];
  }

  // --------------------------------------------------------------- recovering

  /** Coherence makes the checks of _validated_records pass. */
  lemma CoherentIsSound(d: Disk, owner: Owners, txns: map<string, Txn>)
    requires Coherent(d, owner, txns)
    ensures Sound(d)
  {
    hide InTransaction, Status.Valid;
  }

  /** Waiting records are not touched. */
  ghost predicate QueuedKept(before: Disk, after: Disk) {
    && after.counter == before.counter
    && forall s | s in before.queue && before.queue[s].record.status.Queued? ::
         s in after.queue && after.queue[s] == before.queue[s]
  }

  /** `failed` is the interrupted record `r`, failed for want of its transaction or with it, and the same in everything
      else. */
  predicate Closed(r: Status.Record, failed: Status.Record, journaled: bool, now: int) {
    && FailureOf(r, failed) && failed.timestamps.completedAt == Some(Status.Utc(now))
    && failed.failure.value.code == if journaled then "interrupted_recalculation" else "interrupted_without_transaction"
  }

  lemma ClosedIsFailed(r: Status.Record, failed: Status.Record, journaled: bool, now: int)
    requires Closed(r, failed, journaled, now)
    ensures failed.status.Failed? && failed.sequence == r.sequence && failed.eventId == r.eventId
  {
  }

  /** The calculation of `r` has been closed where it is now. */
  predicate NowFailed(d: Disk, r: Status.Record, journaled: bool, now: int) {
    || (r.sequence in d.queue && Closed(r, d.queue[r.sequence].record, journaled, now))
    || (r.eventId in d.events && Closed(r, d.events[r.eventId].record, journaled, now))
  }

  /** The census after recovering, or failing to recover, the record at `at`. */
  ghost function LedgerAfter(before: Disk, after: Disk, txns: map<string, Txn>, at: Place): map<string, Txn>
    requires At(before, at).Some? && (Journaled(before, at) ==> Known(before, at, txns))
  {
    if Journaled(before, at) then Ledger(after, txns, At(before, at).value.record.eventId) else txns
  }

  /** The transaction a running record takes part in, if it has a journal. */
  ghost function TxnAt(d: Disk, at: Place, txns: map<string, Txn>): Txn
    requires At(d, at).Some? && (Journaled(d, at) ==> Known(d, at, txns))
  {
    var x := At(d, at).value;
    if x.journal.Some? then txns[x.record.eventId]
    else Txn(Origin(None, None, x), Key(x.record.sequence, x.record.eventId, None))
  }

  lemma RunningIsStale(d: Disk, owner: Owners, txns: map<string, Txn>, at: Place)
    requires Coherent(d, owner, txns) && RunningAt(d, at)
    ensures Journaled(d, at) ==> Known(d, at, txns)
    ensures var r := At(d, at).value.record;
      Stale(d, at, r.eventId, r.sequence, TxnAt(d, at, txns).origin, TxnAt(d, at, txns).key)
  {
    hide InTransaction, Status.Valid;
    if Journaled(d, at) {
      JournaledIsHolder(d, owner, txns, at);
    }
  }

  /** What one call to recover_stale_running_calculation did. */
  ghost predicate RecoveryStep(before: Disk, after: Disk, txns: map<string, Txn>, at: Place, now: int, cleared: bool) {
    && RunningAt(before, at) && (Journaled(before, at) ==> Known(before, at, txns))
    && var t := TxnAt(before, at, txns);
       if cleared then Cleared(before, after, at, now, t.origin, t.key)
       else StillStale(before, after, at, t.origin, t.key)
  }

  /** One call, and what becomes of the open transactions. */
  ghost predicate RecoverNext(before: Disk, txns: map<string, Txn>, after: Disk, left: map<string, Txn>, now: int) {
    exists at, cleared ::
      RecoveryStep(before, after, txns, at, now, cleared) && left == LedgerAfter(before, after, txns, at)
  }

  /** Recovery so far: a sequence of such calls. */
  ghost predicate Trail(trail: seq<(Disk, map<string, Txn>)>, now: int) {
    && trail != []
    && forall i | 0 <= i < |trail| - 1 :: RecoverNext(trail[i].0, trail[i].1, trail[i + 1].0, trail[i + 1].1, now)
  }

  ghost predicate Recovers(before: Disk, txns: map<string, Txn>, after: Disk, left: map<string, Txn>, now: int) {
    exists trail :: Trail(trail, now) && trail[0] == (before, txns) && trail[|trail| - 1] == (after, left)
  }

  lemma RecoversNothing(d: Disk, txns: map<string, Txn>, now: int)
    ensures Recovers(d, txns, d, txns, now)
  {
    hide RecoverNext;
    assert Trail([(d, txns)], now);
  }

  lemma RecoversFurther(
    start: Disk, txns: map<string, Txn>, before: Disk, census: map<string, Txn>, after: Disk, left: map<string, Txn>, now: int)
    requires Recovers(start, txns, before, census, now) && RecoverNext(before, census, after, left, now)
    ensures Recovers(start, txns, after, left, now)
  {
    hide RecoverNext;
    var trail :| Trail(trail, now) && trail[0] == (start, txns) && trail[|trail| - 1] == (before, census);
    assert Trail(trail + [(after, left)], now);
  }

  lemma RecoveryKeepsCoherence(
    before: Disk, after: Disk, owner: Owners, txns: map<string, Txn>, at: Place, now: int, cleared: bool)
    requires Coherent(before, owner, txns) && RecoveryStep(before, after, txns, at, now, cleared)
    ensures Coherent(after, owner, LedgerAfter(before, after, txns, at))
  {
    hide InTransaction, Recovered, Concluded, Status.Valid, Status.FailStale;
    var x := At(before, at).value;
    if x.journal.Some? {
      CoherentIsAdjoined(before, owner, txns, x.record.eventId);
      StepKeepsCoherence(before, after, owner, txns, x.record.eventId);
    } else if cleared {
      StaleRecordFails(x.record, now);
      RecordStepKeepsCoherence(before, owner, txns, at, Status.FailStale(x.record, Mending.STALE_FAILURE, Status.Utc(now)).value);
    }
  }

  lemma StaleRecordFails(r: Status.Record, now: int)
    requires Status.Valid(r) && r.status.Running?
    ensures var failed := Status.FailStale(r, Mending.STALE_FAILURE, Status.Utc(now));
      failed.Ok? && Status.Valid(failed.value) && Status.SameIdentity(failed.value, r) && failed.value.status.Failed?
      && failed.value.overwrite == r.overwrite
  {
  }

  lemma JournaledIsHolder(d: Disk, owner: Owners, txns: map<string, Txn>, at: Place)
    requires Coherent(d, owner, txns) && Journaled(d, at)
    ensures var e := At(d, at).value.record.eventId;
      && e in txns && txns[e].key.eventId == e && Live(d, owner, txns[e]) && at == HolderPlace(d, txns[e].key)
      && txns[e].key.sequence == SequenceAt(d, at)
  {
    hide InTransaction, Status.Valid;
    assert Known(d, at, txns);
  }

  lemma HolderIsAlone(d: Disk, owner: Owners, t: Txn, other: Place)
    requires Live(d, owner, t) && At(d, other).Some? && !At(d, other).value.record.status.Terminal()
    requires other != HolderPlace(d, t.key)
    ensures other != InQueue(t.key.sequence) && other != InEvents(t.key.eventId)
  {
    hide InTransaction, Recovered, Concluded, Status.Valid;
    WhoIsWhere(t.origin, t.key, Look(d, t.key));
  }

  /** Recovery of one record leaves every other running or waiting record as it was. */
  lemma RecoveryIsLocal(
    before: Disk, after: Disk, owner: Owners, txns: map<string, Txn>, at: Place, now: int, cleared: bool, other: Place)
    requires Coherent(before, owner, txns) && RecoveryStep(before, after, txns, at, now, cleared)
    requires At(before, other).Some? && !At(before, other).value.record.status.Terminal() && other != at
    ensures At(after, other) == At(before, other)
  {
    hide InTransaction, Recovered, Concluded, Status.Valid, Status.FailStale, Live;
    if Journaled(before, at) {
      JournaledIsHolder(before, owner, txns, at);
      var t := TxnAt(before, at, txns);
      HolderIsAlone(before, owner, t, other);
      ElsewhereSame(before, after, t.key, other);
    }
  }

  lemma RecoveryKeepsQueued(
    before: Disk, after: Disk, owner: Owners, txns: map<string, Txn>, at: Place, now: int, cleared: bool)
    requires Coherent(before, owner, txns) && RecoveryStep(before, after, txns, at, now, cleared)
    ensures QueuedKept(before, after)
  {
    hide InTransaction, Recovered, Concluded, Status.Valid, Status.FailStale, Coherent;
    forall s | s in before.queue && before.queue[s].record.status.Queued?
      ensures s in after.queue && after.queue[s] == before.queue[s]
    {
      RecoveryIsLocal(before, after, owner, txns, at, now, cleared, InQueue(s));
    }
  }

  /** The recovered record says what became of it. */
  ghost predicate Said(before: Disk, after: Disk, txns: map<string, Txn>, at: Place, now: int)
    requires At(before, at).Some? && (Journaled(before, at) ==> Known(before, at, txns))
  {
    var k := TxnAt(before, at, txns).key;
    Attributed(Look(before, k), Look(after, k), now)
  }

  lemma SaidIsClosed(o: Origin, k: Key, before: View, after: View, now: int)
    requires Recovered(o, k, after) && Attributed(before, after, now) && Holder(before).record.status.Running?
    ensures after.queued.None? && after.current.Some?
    ensures Closed(Holder(before).record, after.current.value.record, true, now)
  {
    hide Status.Valid;
  }

  /** A cleared record is failed, and nothing else has started running. */
  lemma RecoveryClears(before: Disk, after: Disk, owner: Owners, txns: map<string, Txn>, at: Place, now: int)
    requires Coherent(before, owner, txns) && RecoveryStep(before, after, txns, at, now, true)
    requires Journaled(before, at) ==> Said(before, after, txns, at, now)
    ensures forall other | RunningAt(after, other) :: other != at && RunningAt(before, other)
    ensures NowFailed(after, At(before, at).value.record, Journaled(before, at), now)
  {
    hide InTransaction, Recovered, Concluded, Status.Valid, Status.FailStale, Live, Closed;
    var x := At(before, at).value;
    if x.journal.Some? {
      JournaledIsHolder(before, owner, txns, at);
      var t := TxnAt(before, at, txns);
      RecoveredFacts(t.origin, t.key, Look(after, t.key));
      SaidIsClosed(t.origin, t.key, Look(before, t.key), Look(after, t.key), now);
      forall other | RunningAt(after, other) ensures other != at && RunningAt(before, other) {
        if other != InQueue(t.key.sequence) && other != InEvents(t.key.eventId) {
          ElsewhereSame(before, after, t.key, other);
        }
      }
    } else {
      PlainRecordFails(before, owner, txns, at, now);
    }
  }

  lemma PlainRecordFails(before: Disk, owner: Owners, txns: map<string, Txn>, at: Place, now: int)
    requires Coherent(before, owner, txns) && RunningAt(before, at)
    ensures var after := FailedAt(before, at, now);
      && At(after, at).Some? && At(after, at).value.record.status.Failed?
      && NowFailed(after, At(before, at).value.record, false, now)
      && forall other | other != at :: At(after, other) == At(before, other)
  {
    hide InTransaction, Status.Valid, Status.FailStale, Closed;
    StaleRecordFails(At(before, at).value.record, now);
    StaleIsClosed(At(before, at).value.record, now);
  }

  lemma StaleIsClosed(r: Status.Record, now: int)
    requires Status.Valid(r) && r.status.Running?
    ensures var failed := Status.FailStale(r, Mending.STALE_FAILURE, Status.Utc(now));
      failed.Ok? && Closed(r, failed.value, false, now)
  {
    hide Status.Valid, Status.FailStale;
    Status.OnlyTheStaleFailureIsRecorded(r, Mending.STALE_FAILURE.code, Mending.STALE_FAILURE.message, now);
  }

  lemma RecoveredFacts(o: Origin, k: Key, v: View)
    requires Recovered(o, k, v)
    ensures v.queued.None? && v.current.Some? && v.current.value.record.status.Failed?
    ensures v.current.value.record.sequence == k.sequence && v.current.value.record.eventId == k.eventId
  {
  }

  /** No open transaction has displaced a running calculation. */
  lemma DisplacedIsNotRunning(d: Disk, owner: Owners, txns: map<string, Txn>, e: string, at: Place)
    requires Coherent(d, owner, txns) && e in txns && RunningAt(d, at) && txns[e].origin.service.Some?
    ensures SequenceAt(d, at) != txns[e].origin.service.value.record.sequence
  {
    hide InTransaction, Recovered, Concluded, Status.Valid;
    WhoIsWhere(txns[e].origin, txns[e].key, Look(d, txns[e].key));
  }

  /** A recovered calculation stays where it failed, unless some transaction displaced it. */
  lemma FailedStaysFailed(
    before: Disk, after: Disk, owner: Owners, txns: map<string, Txn>, at: Place, now: int, cleared: bool,
    r: Status.Record, journaled: bool, when: int)
    requires Coherent(before, owner, txns) && RecoveryStep(before, after, txns, at, now, cleared)
    requires NowFailed(before, r, journaled, when)
    requires forall e | e in txns && txns[e].origin.service.Some? ::
      txns[e].origin.service.value.record.sequence != r.sequence
    ensures NowFailed(after, r, journaled, when)
  {
    hide InTransaction, Recovered, Concluded, Status.Valid, Status.FailStale, Live, Closed;
    NowFailedFacts(before, r, journaled, when);
    if Journaled(before, at) {
      JournaledIsHolder(before, owner, txns, at);
      var t := TxnAt(before, at, txns);
      FailedElsewhere(before, after, owner, t, r, journaled, when);
    } else if cleared {
      PlainRecordFails(before, owner, txns, at, now);
      assert At(before, InQueue(r.sequence)) == Lookup(before.queue, r.sequence);
      assert At(before, InEvents(r.eventId)) == Lookup(before.events, r.eventId);
    }
  }

  lemma NowFailedFacts(d: Disk, r: Status.Record, journaled: bool, now: int)
    requires NowFailed(d, r, journaled, now)
    ensures
      || (r.sequence in d.queue && Closed(r, d.queue[r.sequence].record, journaled, now)
          && d.queue[r.sequence].record.status.Failed?)
      || (r.eventId in d.events && Closed(r, d.events[r.eventId].record, journaled, now)
          && d.events[r.eventId].record.status.Failed? && d.events[r.eventId].record.sequence == r.sequence)
  {
  }

  lemma FailedElsewhere(
    before: Disk, after: Disk, owner: Owners, t: Txn, r: Status.Record, journaled: bool, now: int)
    requires Live(before, owner, t) && Framed(before, after, t.key)
    requires RunningAt(before, HolderPlace(before, t.key)) && NowFailed(before, r, journaled, now)
    requires t.origin.service.Some? ==> t.origin.service.value.record.sequence != r.sequence
    ensures NowFailed(after, r, journaled, now)
  {
    hide InTransaction, Recovered, Concluded, Status.Valid, Closed;
    NowFailedFacts(before, r, journaled, now);
    WhoIsWhere(t.origin, t.key, Look(before, t.key));
    if r.sequence in before.queue && r.sequence != t.key.sequence {
      SameElsewhere(before.queue, after.queue, {t.key.sequence}, r.sequence);
    }
    if r.eventId in before.events && r.eventId != t.key.eventId {
      SameElsewhere(before.events, after.events, {t.key.eventId}, r.eventId);
    }
  }

  /** The calculations that were running, as the service reports them. */
  ghost predicate Reports(d: Disk, recovered: seq<(string, int)>) {
    && (forall i, j | 0 <= i < j < |recovered| :: recovered[i].1 < recovered[j].1)
    && (forall p :: p in recovered <==> exists at :: RunningAt(d, at) && Identity(d, at) == p)
  }

  function Identity(d: Disk, at: Place): (string, int)
    requires At(d, at).Some?
  {
    (At(d, at).value.record.eventId, At(d, at).value.record.sequence)
  }

  /** Progress of the recovery loop, `n` records in. */
  ghost predicate Recovering(
    start: Disk, d: Disk, owner: Owners, txns: map<string, Txn>, left: map<string, Txn>, running: seq<Place>, n: nat, now: int)
  {
    && n <= |running|
    && Coherent(d, owner, left) && QueuedKept(start, d)
    && (forall e | e in left :: e in txns && left[e] == txns[e])
    && (forall k | n <= k < |running| :: RunningAt(start, running[k]) && At(d, running[k]) == At(start, running[k]))
    && (forall at | RunningAt(d, at) :: at in running[n..])
    && (forall k | 0 <= k < n :: RunningAt(start, running[k]) && WasFailed(start, d, running[k], now))
  }

  predicate WasFailed(start: Disk, d: Disk, at: Place, now: int) {
    At(start, at).Some? && NowFailed(d, At(start, at).value.record, Journaled(start, at), now)
  }

  lemma RecoveringBegins(start: Disk, owner: Owners, txns: map<string, Txn>, running: seq<Place>, now: int)
    requires Coherent(start, owner, txns) && forall at :: at in running <==> RunningAt(start, at)
    ensures Recovering(start, start, owner, txns, txns, running, 0, now)
  {
    hide Coherent;
    forall k | 0 <= k < |running| ensures RunningAt(start, running[k]) {
      assert running[k] in running;
    }
    assert running[0..] == running;
  }

  lemma RecoveringAdvances(
    start: Disk, before: Disk, after: Disk, owner: Owners, txns: map<string, Txn>, left: map<string, Txn>,
    running: seq<Place>, n: nat, now: int)
    requires Coherent(start, owner, txns) && n < |running| && Distinct(running)
    requires Recovering(start, before, owner, txns, left, running, n, now)
    requires RecoveryStep(before, after, left, running[n], now, true)
    requires Journaled(before, running[n]) ==> Said(before, after, left, running[n], now)
    ensures Recovering(start, after, owner, txns, LedgerAfter(before, after, left, running[n]), running, n + 1, now)
  {
    hide Coherent, RecoveryStep, NowFailed, Said;
    var at := running[n];
    RecoveryKeepsCoherence(before, after, owner, left, at, now, true);
    RecoveryKeepsQueued(before, after, owner, left, at, now, true);
    RecoveryClears(before, after, owner, left, at, now);
    forall k | n + 1 <= k < |running| ensures At(after, running[k]) == At(start, running[k]) {
      RecoveryIsLocal(before, after, owner, left, at, now, true, running[k]);
    }
    forall other | RunningAt(after, other) ensures other in running[n + 1..] {
      assert other in running[n..] && other != running[n];
    }
    forall k | 0 <= k < n ensures WasFailed(start, after, running[k], now) {
      FailedWhileRecovering(start, before, after, owner, txns, left, at, now, running[k]);
    }
  }

  lemma FailedWhileRecovering(
    start: Disk, before: Disk, after: Disk, owner: Owners, txns: map<string, Txn>, left: map<string, Txn>,
    at: Place, now: int, was: Place)
    requires Coherent(start, owner, txns) && Coherent(before, owner, left)
    requires forall e | e in left :: e in txns && left[e] == txns[e]
    requires RecoveryStep(before, after, left, at, now, true)
    requires RunningAt(start, was) && WasFailed(start, before, was, now)
    ensures WasFailed(start, after, was, now)
  {
    hide Coherent, RecoveryStep, NowFailed;
    forall e | e in left && left[e].origin.service.Some?
      ensures left[e].origin.service.value.record.sequence != SequenceAt(start, was)
    {
      DisplacedIsNotRunning(start, owner, txns, e, was);
    }
    FailedStaysFailed(before, after, owner, left, at, now, true, At(start, was).value.record, Journaled(start, was), now);
  }

  /** A recovery that did not finish leaves a tree that can be recovered again. */
  lemma Interrupted(
    start: Disk, before: Disk, after: Disk, owner: Owners, txns: map<string, Txn>, at: Place, now: int)
    returns (left: map<string, Txn>)
    requires Coherent(before, owner, txns) && RunningAt(before, at) && QueuedKept(start, before)
    requires RecoveryStep(before, after, txns, at, now, true) || RecoveryStep(before, after, txns, at, now, false)
    ensures Coherent(after, owner, left) && QueuedKept(start, after)
    ensures RecoverNext(before, txns, after, left, now)
  {
    hide Coherent, Cleared, StillStale;
    var cleared := RecoveryStep(before, after, txns, at, now, true);
    left := LedgerAfter(before, after, txns, at);
    RecoveryKeepsCoherence(before, after, owner, txns, at, now, cleared);
    RecoveryKeepsQueued(before, after, owner, txns, at, now, cleared);
  }

  /** A power failure would leave a tree that can be recovered again, with nothing that waits changed. */
  ghost predicate SparesTree(start: Disk, moment: Moment, owner: Owners) {
    forall left | left in moment.Left() :: Recoverable(start, left, owner)
  }

  ghost predicate Recoverable(start: Disk, left: Disk, owner: Owners) {
    QueuedKept(start, left) && exists census :: Coherent(left, owner, census)
  }

  lemma UntouchedTree(start: Disk, d: Disk, owner: Owners, census: map<string, Txn>)
    requires Coherent(d, owner, census) && QueuedKept(start, d)
    ensures SparesTree(start, Moment(d, []), owner)
  {
    hide Coherent;
  }

  lemma SparesStaleTree(
    start: Disk, before: Disk, moment: Moment, owner: Owners, census: map<string, Txn>, at: Place, now: int)
    requires Coherent(before, owner, census) && RunningAt(before, at) && QueuedKept(start, before)
    requires Journaled(before, at) ==> Known(before, at, census)
    requires var t := TxnAt(before, at, census); StaleSpared(before, moment, at, now, t.origin, t.key)
    ensures SparesTree(start, moment, owner)
  {
    hide Coherent, Cleared, StillStale, Survivors;
    forall left | left in moment.Left() ensures Recoverable(start, left, owner) {
      var again := Interrupted(start, before, left, owner, census, at, now);
    }
  }

  lemma ReportComplete(d: Disk, running: seq<Place>, recovered: seq<(string, int)>)
    requires Ascending(d, running) && forall at :: at in running <==> RunningAt(d, at)
    requires |recovered| == |running|
    requires forall k | 0 <= k < |running| :: RunningAt(d, running[k]) && recovered[k] == Identity(d, running[k])
    ensures Reports(d, recovered)
  {
    forall p ensures p in recovered <==> exists at :: RunningAt(d, at) && Identity(d, at) == p {
      if p in recovered {
        var k :| 0 <= k < |recovered| && recovered[k] == p;
        assert RunningAt(d, running[k]) && Identity(d, running[k]) == p;
      }
      if at :| RunningAt(d, at) && Identity(d, at) == p {
        var k :| 0 <= k < |running| && running[k] == at;
      }
    }
  }

  /** One iteration of the recovery loop. */
  method RecoverOne(
    vol: Volume, start: Disk, running: seq<Place>, n: nat, now: int,
    ghost owner: Owners, ghost txns: map<string, Txn>, ghost census: map<string, Txn>)
    returns (out: Outcome, changed: bool, ghost left: map<string, Txn>)
    requires vol.Valid() && vol.Synced() && n < |running| && Distinct(running) && Coherent(start, owner, txns)
    requires Recovering(start, vol.disk, owner, txns, census, running, n, now)
    requires Recovers(start, txns, vol.disk, census, now)
    modifies vol
    ensures vol.Valid() && vol.Synced() && Recovers(start, txns, vol.disk, left, now)
    ensures out.Done? ==> changed && Recovering(start, vol.disk, owner, txns, left, running, n + 1, now)
    ensures Coherent(vol.disk, owner, left) && QueuedKept(start, vol.disk)
    ensures vol.regime.Calm? ==> out.Done?
    ensures old(vol.pending) == [] && !vol.regime.PowerFailure? ==>
      (out.Done? ==> vol.pending == []) && SparesTree(start, vol.Now(), owner)
  {
    hide Coherent, Cleared, StillStale, NowFailed, Stale, InTransaction, Survivors, StaleSpared, SparesTree, Attributed,
         RecoverNext, Recovers;
    var at := running[n];
    var r := At(start, at).value.record;
    RunningIsStale(vol.disk, owner, census, at);
    ghost var before, t := vol.disk, TxnAt(vol.disk, at, census);
    out, changed := RecoverStaleRunning(vol, r.eventId, r.sequence, now, at, t.origin, t.key);
    left := Interrupted(start, before, vol.disk, owner, census, at, now);
    if old(vol.pending) == [] && !vol.regime.PowerFailure? {
      SparesStaleTree(start, before, vol.Now(), owner, census, at, now);
    }
    if out.Done? {
      left := LedgerAfter(before, vol.disk, census, at);
      RecoversNext(before, vol.disk, census, at, now);
      RecoveringAdvances(start, before, vol.disk, owner, txns, census, running, n, now);
    }
    RecoversFurther(start, txns, before, census, vol.disk, left, now);
  }

  lemma RecoversNext(before: Disk, after: Disk, txns: map<string, Txn>, at: Place, now: int)
    requires RecoveryStep(before, after, txns, at, now, true)
    ensures RecoverNext(before, txns, after, LedgerAfter(before, after, txns, at), now)
  {
    hide RecoveryStep, LedgerAfter;
  }

  lemma RecoveringEnds(
    start: Disk, d: Disk, owner: Owners, txns: map<string, Txn>, left: map<string, Txn>, running: seq<Place>,
    now: int)
    requires Recovering(start, d, owner, txns, left, running, |running|, now)
    ensures Sound(d) && forall at :: !RunningAt(d, at)
    ensures forall at | at in running :: RunningAt(start, at) && WasFailed(start, d, at, now)
  {
    hide Coherent;
    CoherentIsSound(d, owner, left);
  }

  /** recover_interrupted_calculations. With a sound tree and no faults it always returns: every
      calculation that was running is failed and reported, oldest first, and nothing waiting has
      changed. Whatever happens, what is left on disk can be recovered again. */
  method RecoverInterruptedCalculations(vol: Volume, now: int, ghost owner: Owners, ghost txns: map<string, Txn>)
    returns (out: Outcome, recovered: seq<(string, int)>, ghost left: map<string, Txn>)
    requires vol.Valid() && vol.Synced()
    requires Sound(vol.disk) ==> Coherent(vol.disk, owner, txns)
    modifies vol
    ensures vol.Valid() && vol.Synced() && QueuedKept(old(vol.disk), vol.disk)
    ensures !Sound(old(vol.disk)) ==> !out.Done? && vol.disk == old(vol.disk)
    ensures Sound(old(vol.disk)) ==> Coherent(vol.disk, owner, left)
    ensures Recovers(old(vol.disk), txns, vol.disk, left, now)
    ensures vol.regime.Calm? ==> (out.Done? <==> Sound(old(vol.disk)))
    ensures out.Done? ==> forall at :: !RunningAt(vol.disk, at)
    ensures out.Done? ==> Reports(old(vol.disk), recovered)
    ensures out.Done? ==> forall at | RunningAt(old(vol.disk), at) ::
      NowFailed(vol.disk, At(old(vol.disk), at).value.record, Journaled(old(vol.disk), at), now)
    ensures Sound(old(vol.disk)) && old(vol.pending) == [] && !vol.regime.PowerFailure? ==>
      SparesTree(old(vol.disk), vol.Now(), owner)
  {
    hide Coherent, NowFailed, Sound, Reports, Survivors, SparesTree, QueuedKept, Recovers;
    NothingQueuedChanges(vol.disk);
    RecoversNothing(vol.disk, txns, now);
    if Sound(vol.disk) {
      UntouchedTree(vol.disk, vol.disk, owner, txns);
    }
    recovered, left := [], txns;
    out := vol.Strike();
    if !out.Done? {
      return;
    }
    var start := vol.disk;
    var validated := ValidatedRecords(start);
    if validated.Raised? {
      return Error, [], txns;
    }
    var running := RunningRecords(start, validated.value);
    AscendingIsDistinct(start, running);
    RecoveringBegins(start, owner, txns, running, now);
    for i := 0 to |running|
      invariant out.Done? && vol.Valid() && vol.Synced()
      invariant old(vol.pending) == [] && !vol.regime.PowerFailure? ==>
        vol.pending == [] && SparesTree(start, vol.Now(), owner)
      invariant Recovering(start, vol.disk, owner, txns, left, running, i, now)
      invariant Recovers(start, txns, vol.disk, left, now)
      invariant |recovered| == i
      invariant forall k | 0 <= k < i :: RunningAt(start, running[k]) && recovered[k] == Identity(start, running[k])
    {
      var changed;
      out, changed, left := RecoverOne(vol, start, running, i, now, owner, txns, left);
      if !out.Done? {
        return;
      }
      if changed {
        var r := At(start, running[i]).value.record;
        recovered := recovered + [(r.eventId, r.sequence)];
      }
    }
    RecoveringEnds(start, vol.disk, owner, txns, left, running, now);
    ReportComplete(start, running, recovered);
    out := vol.Strike();
    if out.Done? {
      out := VerifyNoneRunning(vol.disk);
    }
  }

  lemma NothingQueuedChanges(d: Disk)
    ensures QueuedKept(d, d)
  {
  }

  lemma AscendingIsDistinct(d: Disk, places: seq<Place>)
    requires Ascending(d, places)
    ensures Distinct(places)
  {
  }

  /** The check made after recovery. */
  method VerifyNoneRunning(d: Disk) returns (out: Outcome)
    ensures out.Done? <==> Sound(d) && forall at :: !RunningAt(d, at)
    ensures !out.Crashed?
  {
    var validated := ValidatedRecords(d);
    if validated.Raised? {
      return Error;
    }
    var remaining := RunningRecords(d, validated.value);
    if remaining != [] {
      assert remaining[0] in remaining;
      return Error;
    }
    assert forall at :: RunningAt(d, at) ==> at in remaining;
    return Done;
  }
}
