/** Recovery only goes forward: what is left to do never grows, whatever stops it. */
module Progress {
  import opened Common
  import opened Disk
  import opened Volumes
  import opened Protocol
  import opened Course
  import Status

  function Unfinished(x: Entry): nat {
    if x.record.status.Running? then 1 else 0
  }

  /** Left of a promoted calculation: its checkpoint, the intent, what is there of the candidate, the record and the
      journal. */
  function PromotedLeft(x: Entry): nat {
    (if x.journal.None? then 0
     else
       var j := x.journal.value;
       1 + (if |j.completed| == 3 then 1 else 0)
       + (if x.candidate.Some? && !j.intents.candidateRemovalStarted then 1 else 0))
    + CandidateWeight(x.candidate) + Unfinished(x)
  }

  /** Left of the disposal of the preceding trees. */
  function DisposalLeft(x: Entry, j: Journal, v: View): nat {
    if j.intents.stageRemovalStarted then StageWeight(x.stage)
    else if v.bundle.Some? then 0
    else 7 + (if x.stage.None? then 1 else 0) + (if v.products.Some? then 1 else 0) + (if v.current.Some? then 1 else 0)
  }

  function Remaining(v: View): nat {
    if v.queued.Some? then
      var x := v.queued.value;
      3 + Unfinished(x) + if x.journal.None? then 0
                          else
                            var j := x.journal.value;
                            (if |j.completed| <= 3 then 3 - |j.completed| else 0) + DisposalLeft(x, j, v)
    else if v.current.Some? then PromotedLeft(v.current.value)
    else 0
  }

  /** Each operation recovery issues leaves less to do. */
  lemma NextLowers(o: Origin, k: Key, v: View, op: Op)
    requires InTransaction(o, k, v) && Allows(Recovering, k, v, op)
    ensures Remaining(Effect(v, op)) < Remaining(v)
  {
    if v.queued.Some? {
      NextLowersWaiting(o, k, v, op);
    } else {
      NextLowersPromoted(o, k, v, op);
    }
  }

  lemma NextLowersWaiting(o: Origin, k: Key, v: View, op: Op)
    requires Waiting(o, k, v) && Allows(Recovering, k, v, op)
    ensures Remaining(Effect(v, op)) < Remaining(v)
  {
    hide Promoted;
  }

  lemma NextLowersPromoted(o: Origin, k: Key, v: View, op: Op)
    requires Promoted(o, k, v) && Allows(Recovering, k, v, op)
    ensures Remaining(Effect(v, op)) < Remaining(v)
  {
  }

  /** What a process has left to do is less than it began with as soon as it has issued anything, and what a power
      failure could leave to do is never more. */
  predicate Ahead(k: Key, d: Disk, s: State) {
    && (forall left | left in s.now.Left() :: Remaining(Look(left, k)) <= Remaining(Look(d, k)))
    && (s.now.Disk() == d || Remaining(ViewOf(s, k)) < Remaining(Look(d, k)))
  }

  lemma AdvanceIsAhead(o: Origin, k: Key, d: Disk, a: State, b: State)
    requires Sound(Recovering, o, k, d, a) && Ahead(k, d, a) && Advances(Recovering, k, a, b) && !b.noted
    ensures Ahead(k, d, b)
  {
    hide Sound, Fine, Issues, Remaining, InTransaction, Recovered, Kept;
    if op :| Issues(Recovering, k, a, b, op) {
      IssueIsAhead(o, k, d, a, b, op);
    } else {
      var directory :| Syncs(k, a, b, directory);
      SyncingLosesLess(a.now, directory);
      SyncingIsInvisible(a.now, directory);
    }
  }

  lemma IssueIsAhead(o: Origin, k: Key, d: Disk, a: State, b: State, op: Op)
    requires Sound(Recovering, o, k, d, a) && Ahead(k, d, a) && Issues(Recovering, k, a, b, op)
    ensures Ahead(k, d, b)
  {
    hide Waiting, Promoted, Recovered, Remaining, Kept, Allows, Apply, Effect, Survivors, Visible, Varied;
    var v := ViewOf(a, k);
    VisibleSurvives(a.now.durable, a.now.pending);
    AllowedSees(Recovering, o, k, v, op);
    AllowedKeeps(Recovering, o, k, v, op);
    NextLowers(o, k, v, op);
    IssuingIsVisible(a.now, op);
    OperationsAreLocal(a.now.Disk(), op, k);
    if PrivateOp(v, op) {
      PrivateIsAhead(o, k, d, a, b, op);
    } else {
      NothingOwed(Recovering, o, k, d, a);
      IssuedOnSettled(a.now.durable, op);
    }
  }

  lemma PrivateIsAhead(o: Origin, k: Key, d: Disk, a: State, b: State, op: Op)
    requires Sound(Recovering, o, k, d, a) && Ahead(k, d, a) && Issues(Recovering, k, a, b, op)
    requires PrivateOp(ViewOf(a, k), op) && Remaining(Effect(ViewOf(a, k), op)) <= Remaining(Look(d, k))
    ensures forall left | left in b.now.Left() :: Remaining(Look(left, k)) <= Remaining(Look(d, k))
  {
    hide Waiting, Promoted, Recovered, Remaining, Kept, Fine, Allows, Apply, Effect, Visible, Varied, Survivors;
    var like := PrivateKind(Recovering, o, k, d, a, b, op);
    VaryingIsFine(o, k, d, a, like);
    MayVaryFacts(o, k, a.now.durable, like);
    VariedFromItself(a.now.durable, like);
    PrivateSurvives(a.now.durable, a.now.durable, a.now.pending, like);
    VisibleSurvives(a.now.durable, a.now.pending);
    WipingLosesLess(a.now.durable, a.now.pending, Retires(op));
    var earlier, last := Wiped(a.now.pending, Retires(op)), Issued(op, Touches(op) - Retires(op));
    forall left | left in b.now.Left() ensures Remaining(Look(left, k)) <= Remaining(Look(d, k)) {
      var before := LastMayBeMissing(a.now.durable, earlier, last, left);
      if left != before {
        VariedAlike(k, a.now.durable, before, a.now.Disk(), like, op);
        OperationsAreLocal(before, op, k);
      }
    }
  }

  /** What a private tree held before does not matter once it is changed. */
  lemma VariedAlike(k: Key, durable: Disk, a: Disk, b: Disk, like: Op, op: Op)
    requires Varied(durable, a, like) && Varied(durable, b, like) && Alike(op, like)
    requires like.at == InQueue(k.sequence) || like.at == InEvents(k.eventId)
    ensures Effect(Look(a, k), op) == Effect(Look(b, k), op) && Mine(op, k)
  {
    PutIsLocal(durable, like.at, At(a, like.at).value, k);
    PutIsLocal(durable, like.at, At(b, like.at).value, k);
  }

  lemma NotedStays(k: Key, a: State, b: State)
    requires Advances(Recovering, k, a, b)
    ensures a.noted ==> b.noted
  {
  }

  lemma {:induction false} RunIsAhead(o: Origin, k: Key, d: Disk, run: seq<State>, i: nat)
    requires Run(Recovering, k, run) && i < |run| && !run[i].noted
    requires Sound(Recovering, o, k, d, run[0]) && Ahead(k, d, run[0])
    ensures Ahead(k, d, run[i])
  {
    hide Sound, Ahead, Issues;
    if i > 0 {
      assert Advances(Recovering, k, run[i - 1], run[i]);
      NotedStays(k, run[i - 1], run[i]);
      RunIsAhead(o, k, d, run, i - 1);
      RunIsSound(Recovering, o, k, d, run, i - 1);
      AdvanceIsAhead(o, k, d, run[i - 1], run[i]);
    }
  }

  /** Recovery begun with nothing unsynced and not given up: stopped anywhere, power failures included, it leaves no
      more to do than it found, and less once an operation of its own is there. */
  lemma RecoveryOnlyProgresses(o: Origin, k: Key, d: Disk, journal: Journal, s: State)
    requires InTransaction(o, k, Look(d, k)) && JournalIn(Look(d, k)) == journal && !s.noted
    requires Reaches(Recovering, k, Starting(Moment(d, []), journal), s)
    ensures forall left | left in s.now.Left() :: Remaining(Look(left, k)) <= Remaining(Look(d, k))
    ensures s.now.Disk() != d ==> Remaining(ViewOf(s, k)) < Remaining(Look(d, k))
  {
    hide Sound, Advances, InTransaction, Remaining;
    StartIsSound(Recovering, o, k, d, journal);
    var start := Starting(Moment(d, []), journal);
    var run: seq<State> :| Run(Recovering, k, run) && run[0] == start && run[|run| - 1] == s;
    assert start.now.Left() == {d} && start.now.Disk() == d;
    RunIsAhead(o, k, d, run, |run| - 1);
  }
}
