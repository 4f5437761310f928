/** Every record and transaction of the service tree at once. */
module Census {
  import opened Common
  import opened Disk
  import opened Protocol
  import opened Reconciliation
  import Names
  import Status

  datatype Txn = Txn(origin: Origin, key: Key)

  /** Sequences name one calculation of one event for ever. */
  type Owners = map<int, string>

  predicate Owned(r: Status.Record, owner: Owners) {
    r.sequence in owner && owner[r.sequence] == r.eventId
  }

  predicate QueueOrderly(d: Disk, owner: Owners) {
    forall s | s in d.queue ::
      Status.Valid(d.queue[s].record) && d.queue[s].record.sequence == s && Owned(d.queue[s].record, owner)
  }

  predicate EventsOrderly(d: Disk, owner: Owners) {
    forall e | e in d.events ::
      && Status.Valid(d.events[e].record) && d.events[e].record.eventId == e && Owned(d.events[e].record, owner)
      && d.events[e].record.sequence !in d.queue
  }

  /** What an open transaction displaces is finished and gone from the queue. */
  predicate Displaceable(d: Disk, owner: Owners, t: Txn) {
    t.origin.service.Some? ==>
      var x := t.origin.service.value;
      && Status.Valid(x.record) && x.record.status.Terminal() && x.journal.None?
      && x.record.eventId == t.key.eventId && Owned(x.record, owner)
      && x.record.sequence != t.key.sequence && x.record.sequence !in d.queue
  }

  predicate Live(d: Disk, owner: Owners, t: Txn) {
    && InTransaction(t.origin, t.key, Look(d, t.key)) && Displaceable(d, owner, t)
    && t.key.sequence in owner && owner[t.key.sequence] == t.key.eventId
  }

  predicate Known(d: Disk, at: Place, txns: map<string, Txn>)
    requires At(d, at).Some?
  {
    var r := At(d, at).value.record;
    r.eventId in txns && txns[r.eventId].key.sequence == r.sequence
  }

  /** At most one transaction per event, and every journal belongs to one. */
  ghost predicate Coherent(d: Disk, owner: Owners, txns: map<string, Txn>) {
    && QueueOrderly(d, owner) && EventsOrderly(d, owner)
    && (forall e | e in txns :: txns[e].key.eventId == e && Live(d, owner, txns[e]))
    && (forall at | Journaled(d, at) :: Known(d, at, txns))
  }

  // ------------------------------------------------------------------ framing

  lemma SameElsewhere<K, V>(a: map<K, V>, b: map<K, V>, names: set<K>, x: K)
    requires a - names == b - names && x !in names
    ensures (x in a <==> x in b) && Lookup(a, x) == Lookup(b, x)
  {
    assert x in a <==> x in a - names;
    assert x in b <==> x in b - names;
    assert x in a ==> (a - names)[x] == a[x];
    assert x in b ==> (b - names)[x] == b[x];
  }

  predicate Named(k: Key) {
    k.archive.Some? ==> ArchiveNameFor(k.eventId, k.archive.value)
  }

  lemma ArchivesApart(k: Key, l: Key)
    requires Named(k) && Named(l) && k.eventId != l.eventId
    ensures k.archive.Some? ==> k.archive != l.archive
  {
    if k.archive.Some? && l.archive.Some? {
      NameTellsEvent(k.eventId, k.archive.value);
      NameTellsEvent(l.eventId, l.archive.value);
    }
  }

  lemma NameTellsEvent(e: string, name: string)
    requires ArchiveNameFor(e, name)
    ensures |name| > Names.ARCHIVE_TIMESTAMP_LENGTH && e == name[..|name| - 1 - Names.ARCHIVE_TIMESTAMP_LENGTH]
  {
    assert name[..|e|] == name[..|e| + 1][..|e|];
  }

  lemma TransactionNames(o: Origin, k: Key, v: View)
    requires InTransaction(o, k, v)
    ensures Named(k)
  {
  }

  /** A step of one transaction is invisible to the transactions of other events. */
  lemma OtherTransactionsUndisturbed(before: Disk, after: Disk, owner: Owners, t: Txn, u: Txn)
    requires Live(before, owner, u) && t.key.eventId != u.key.eventId && Named(t.key)
    requires t.key.sequence in owner && owner[t.key.sequence] == t.key.eventId
    requires Framed(before, after, t.key)
    ensures Look(after, u.key) == Look(before, u.key)
    ensures Live(after, owner, u)
  {
    hide InTransaction;
    TransactionNames(u.origin, u.key, Look(before, u.key));
    ArchivesApart(t.key, u.key);
    var k, l := t.key, u.key;
    SameElsewhere(before.queue, after.queue, {k.sequence}, l.sequence);
    SameElsewhere(before.events, after.events, {k.eventId}, l.eventId);
    SameElsewhere(before.products, after.products, {k.eventId}, l.eventId);
    if l.archive.Some? {
      SameElsewhere(before.archive, after.archive, k.ArchiveNames(), l.archive.value);
    }
    if u.origin.service.Some? {
      SameElsewhere(before.queue, after.queue, {k.sequence}, u.origin.service.value.record.sequence);
    }
  }

  /** Coherent, but the transaction of event `e` may only be about to begin. */
  ghost predicate Adjoined(d: Disk, owner: Owners, txns: map<string, Txn>, e: string) {
    && QueueOrderly(d, owner) && EventsOrderly(d, owner)
    && (forall f | f in txns :: txns[f].key.eventId == f && (f != e ==> Live(d, owner, txns[f])))
    && (forall at | Journaled(d, at) :: Known(d, at, txns))
    && e in txns && Named(txns[e].key) && Displaceable(d, owner, txns[e])
    && txns[e].key.sequence in owner && owner[txns[e].key.sequence] == e
  }

  lemma CoherentIsAdjoined(d: Disk, owner: Owners, txns: map<string, Txn>, e: string)
    requires Coherent(d, owner, txns) && e in txns
    ensures Adjoined(d, owner, txns, e)
  {
    hide InTransaction;
    TransactionNames(txns[e].origin, txns[e].key, Look(d, txns[e].key));
  }

  predicate Own(r: Status.Record, k: Key) {
    Status.Valid(r) && r.sequence == k.sequence && r.eventId == k.eventId
  }

  /** In a transaction, or where one can end. */
  predicate Followed(o: Origin, k: Key, v: View) {
    InTransaction(o, k, v) || Recovered(o, k, v) || Concluded(o, k, v)
  }

  /** Which records the two places of a transaction can hold. */
  lemma WhoIsWhere(o: Origin, k: Key, v: View)
    requires Followed(o, k, v)
    ensures v.queued.Some? ==> Own(v.queued.value.record, k) && (v.current.None? || v.current == o.service)
    ensures v.queued.None? ==> v.current.Some? && Own(v.current.value.record, k)
    ensures InTransaction(o, k, v) ==> !Holder(v).record.status.Queued?
    ensures !InTransaction(o, k, v) ==>
      v.queued.None? && v.current.value.record.status.Terminal() && v.current.value.journal.None?
      && (v.products.Some? ==> v.products.value.maker == k.sequence)
  {
  }

  /** The census after a step of the transaction of event `e`. */
  ghost function Ledger(after: Disk, txns: map<string, Txn>, e: string): map<string, Txn>
    requires e in txns
  {
    if InTransaction(txns[e].origin, txns[e].key, Look(after, txns[e].key)) then txns else txns - {e}
  }

  /** `after` differs from `before` by one step of the transaction of event `e`. */
  ghost predicate Stepped(before: Disk, after: Disk, txns: map<string, Txn>, e: string) {
    && e in txns && Kept(before, after, txns[e].key)
    && Followed(txns[e].origin, txns[e].key, Look(after, txns[e].key))
  }

  lemma ElsewhereSame(before: Disk, after: Disk, k: Key, at: Place)
    requires Framed(before, after, k) && at != InQueue(k.sequence) && at != InEvents(k.eventId)
    ensures At(after, at) == At(before, at)
  {
    match at
    case InQueue(s) => SameElsewhere(before.queue, after.queue, {k.sequence}, s);
    case InEvents(e) => SameElsewhere(before.events, after.events, {k.eventId}, e);
  }

  lemma StepKeepsQueue(before: Disk, after: Disk, owner: Owners, txns: map<string, Txn>, e: string)
    requires Adjoined(before, owner, txns, e) && Stepped(before, after, txns, e)
    ensures QueueOrderly(after, owner)
  {
    hide InTransaction, Recovered, Concluded, Followed;
    var t := txns[e];
    WhoIsWhere(t.origin, t.key, Look(after, t.key));
    forall s | s in after.queue && s != t.key.sequence
      ensures s in before.queue && after.queue[s] == before.queue[s]
    {
      SameElsewhere(before.queue, after.queue, {t.key.sequence}, s);
    }
  }

  lemma StepKeepsEvents(before: Disk, after: Disk, owner: Owners, txns: map<string, Txn>, e: string)
    requires Adjoined(before, owner, txns, e) && Stepped(before, after, txns, e)
    ensures EventsOrderly(after, owner)
  {
    hide InTransaction, Recovered, Concluded, Followed;
    var t := txns[e];
    WhoIsWhere(t.origin, t.key, Look(after, t.key));
    forall f | f in after.events
      ensures Status.Valid(after.events[f].record) && after.events[f].record.eventId == f
      ensures Owned(after.events[f].record, owner) && after.events[f].record.sequence !in after.queue
    {
      var r := after.events[f].record;
      if f != e {
        SameElsewhere(before.events, after.events, {e}, f);
      }
      if r.sequence != t.key.sequence {
        SameElsewhere(before.queue, after.queue, {t.key.sequence}, r.sequence);
      }
    }
  }

  /** A step of one transaction leaves the whole tree coherent. */
  lemma StepKeepsCoherence(before: Disk, after: Disk, owner: Owners, txns: map<string, Txn>, e: string)
    requires Adjoined(before, owner, txns, e) && Stepped(before, after, txns, e)
    ensures Coherent(after, owner, Ledger(after, txns, e))
  {
    hide InTransaction, Recovered, Concluded, Followed;
    StepKeepsQueue(before, after, owner, txns, e);
    StepKeepsEvents(before, after, owner, txns, e);
    var t, now := txns[e], Ledger(after, txns, e);
    forall f | f in now ensures now[f].key.eventId == f && Live(after, owner, now[f]) {
      if f != e {
        OtherTransactionsUndisturbed(before, after, owner, t, txns[f]);
      } else {
        StillDisplaceable(before, after, owner, t);
      }
    }
    forall at | Journaled(after, at) ensures Known(after, at, now) {
      StepKeepsLedger(before, after, owner, txns, e, at);
    }
  }

  lemma StillDisplaceable(before: Disk, after: Disk, owner: Owners, t: Txn)
    requires Displaceable(before, owner, t) && Framed(before, after, t.key)
    ensures Displaceable(after, owner, t)
  {
    if t.origin.service.Some? {
      SameElsewhere(before.queue, after.queue, {t.key.sequence}, t.origin.service.value.record.sequence);
    }
  }

  lemma StepKeepsLedger(
    before: Disk, after: Disk, owner: Owners, txns: map<string, Txn>, e: string, at: Place)
    requires Adjoined(before, owner, txns, e) && Stepped(before, after, txns, e) && Journaled(after, at)
    ensures Known(after, at, Ledger(after, txns, e))
  {
    hide InTransaction, Recovered, Concluded, Followed;
    var t := txns[e];
    WhoIsWhere(t.origin, t.key, Look(after, t.key));
    if at != InQueue(t.key.sequence) && at != InEvents(e) {
      ElsewhereSame(before, after, t.key, at);
      assert Journaled(before, at) && Known(before, at, txns);
    }
  }

  /** A record with no journal may be rewritten while it is not yet terminal. */
  lemma RecordStepKeepsCoherence(before: Disk, owner: Owners, txns: map<string, Txn>, at: Place, r: Status.Record)
    requires Coherent(before, owner, txns) && At(before, at).Some?
    requires At(before, at).value.journal.None? && !At(before, at).value.record.status.Terminal()
    requires Status.Valid(r) && Status.SameIdentity(r, At(before, at).value.record)
    ensures Coherent(Put(before, at, At(before, at).value.(record := r)), owner, txns)
  {
    hide Live, QueueOrderly, EventsOrderly, Status.Valid, Known;
    var after := Put(before, at, At(before, at).value.(record := r));
    forall f | f in txns ensures Live(after, owner, txns[f]) {
      RecordStepKeepsLive(before, owner, txns[f], at, r);
    }
    RecordStepKeepsOrder(before, owner, at, r);
    forall other | Journaled(after, other) ensures Known(after, other, txns) {
      RecordStepKeepsJournals(before, txns, at, r, other);
    }
  }

  lemma RecordStepKeepsJournals(before: Disk, txns: map<string, Txn>, at: Place, r: Status.Record, other: Place)
    requires At(before, at).Some? && Status.SameIdentity(r, At(before, at).value.record)
    ensures var after := Put(before, at, At(before, at).value.(record := r));
      && (Journaled(after, other) ==> Journaled(before, other))
      && (Journaled(after, other) && Known(before, other, txns) ==> Known(after, other, txns))
  {
  }

  lemma RecordStepKeepsOrder(before: Disk, owner: Owners, at: Place, r: Status.Record)
    requires QueueOrderly(before, owner) && EventsOrderly(before, owner) && At(before, at).Some?
    requires Status.Valid(r) && Status.SameIdentity(r, At(before, at).value.record)
    ensures var after := Put(before, at, At(before, at).value.(record := r));
      QueueOrderly(after, owner) && EventsOrderly(after, owner)
  {
    hide Status.Valid;
  }

  lemma RecordStepKeepsLive(before: Disk, owner: Owners, t: Txn, at: Place, r: Status.Record)
    requires Live(before, owner, t) && At(before, at).Some?
    requires At(before, at).value.journal.None? && !At(before, at).value.record.status.Terminal()
    ensures Live(Put(before, at, At(before, at).value.(record := r)), owner, t)
  {
    hide InTransaction;
    PlainRecordsAreElsewhere(before, owner, t, at);
  }

  lemma PlainRecordsAreElsewhere(d: Disk, owner: Owners, t: Txn, at: Place)
    requires Live(d, owner, t) && At(d, at).Some?
    requires At(d, at).value.journal.None? && !At(d, at).value.record.status.Terminal()
    ensures at != InQueue(t.key.sequence) && at != InEvents(t.key.eventId)
  {
    hide Waiting, Promoted;
    WhereItIs(t.origin, t.key, Look(d, t.key));
    WhoIsWhere(t.origin, t.key, Look(d, t.key));
  }
}
