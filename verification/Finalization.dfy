/**
 Idle-before-finalize and the one-boot bootstrap marker (finalization.py,
 readiness.py). Provisional readiness belongs to one process; the readiness
 record and the marker are shared by all.
 */
module Finalization {
  import opened Common

  datatype Identity = Identity(image: string, release: string)

  datatype State = Missing | Malformed | NotReady | Finalizing | Ready(identity: Identity)
  datatype Marker = NoMarker | GarbledMarker | Armed(image: string)

  /** What one process sees under the coordination lock. `identity` is its own, when it can be loaded. */
  datatype Local = Local(
    state: State, marker: Marker, unfinished: nat, provisional: bool, identity: Option<Identity>)

  /** read_readiness: is this process open for calculations? */
  predicate Open(l: Local) {
    match l.state
    case Missing => false
    case Malformed => false
    case NotReady => false
    case Finalizing => l.provisional
    case Ready(identity) => l.identity == Some(identity)
  }

  /** Reading the record outside finalization takes provisional readiness away. */
  function AfterRead(l: Local): Local {
    if l.state.NotReady? || l.state.Ready? then l.(provisional := false) else l
  }

  // ------------------------------------------------ effects, faults included

  predicate BeginEffect(l: Local, m: Local, done: bool) {
    if done then l.unfinished == 0 && m == l.(state := Finalizing, provisional := false)
    else m == l || (l.unfinished == 0 && (m == l.(provisional := false) || m == l.(state := Finalizing, provisional := false)))
  }

  predicate FailEffect(l: Local, m: Local, done: bool) {
    && m.unfinished == l.unfinished && m.identity == l.identity && !m.provisional
    && (m.marker == l.marker || m.marker.NoMarker?) && (m.state == l.state || (m.state.NotReady? && m.marker.NoMarker?))
    && (done ==> m.state.NotReady?)
  }

  predicate ReadyEffect(l: Local, m: Local, done: bool) {
    && (done ==> l.state.Finalizing? && l.identity.Some?
                 && m == l.(state := Ready(l.identity.value), provisional := false))
    && (!done ==> m == l || (l.state.Finalizing? && (m == l.(provisional := false)
                  || (l.identity.Some? && m == l.(state := Ready(l.identity.value), provisional := false)))))
  }

  predicate ArmEffect(l: Local, m: Local, image: string, done: bool) {
    if done then l.state.Finalizing? && l.marker.NoMarker? && m == l.(marker := Armed(image))
    else m == l || (l.state.Finalizing? && l.marker.NoMarker? && m == l.(marker := Armed(image)))
  }

  /** A marker is gone before it can grant anything. */
  predicate ConsumeEffect(l: Local, m: Local, granted: bool) {
    if granted then
      && l.state.Finalizing? && l.identity.Some? && l.marker == Armed(l.identity.value.image)
      && m == l.(marker := NoMarker, provisional := true)
    else m == l.(provisional := false) || m == l.(marker := NoMarker, provisional := false)
  }

  predicate SubmitEffect(l: Local, m: Local, accepted: bool) {
    && (m == l || m == AfterRead(l) || (Open(l) && m == AfterRead(l).(unfinished := l.unfinished + 1)))
    && (accepted ==> Open(l) && m.unfinished == l.unfinished + 1)
  }

  // ---------------------------------------------------------------- the code

  class Deployment {
    const calm: bool
    var state: State
    var marker: Marker
    var unfinished: nat     // QUEUED and RUNNING records

    constructor (calm: bool)
      ensures this.calm == calm && state.Missing? && marker.NoMarker? && unfinished == 0
    {
      this.calm, state, marker, unfinished := calm, Missing, NoMarker, 0;
    }
  }

  /** One process that imports the service: `_provisional_ready` is its own. */
  class Process {
    const deployment: Deployment
    const identity: Option<Identity>
    var provisional: bool

    constructor (deployment: Deployment, identity: Option<Identity>)
      ensures this.deployment == deployment && this.identity == identity && !provisional
    {
      this.deployment, this.identity, provisional := deployment, identity, false;
    }

    function View(): Local
      reads this, deployment
    {
      Local(deployment.state, deployment.marker, deployment.unfinished, provisional, identity)
    }

    method ReadReadiness() returns (ready: bool)
      modifies this
      ensures ready ==> Open(old(View())) && View() == AfterRead(old(View()))
      ensures View() == AfterRead(old(View())) || View() == old(View())
      ensures deployment.calm ==> (ready <==> Open(old(View()))) && View() == AfterRead(old(View()))
    {
      var unreadable := MayRaise(deployment.calm);
      if unreadable || deployment.state.Missing? || deployment.state.Malformed? {
        return false;
      }
      if provisional {
        if deployment.state.Finalizing? {
          return true;
        }
        provisional := false;
      }
      if deployment.state.NotReady? || deployment.state.Finalizing? {
        return false;
      }
      return identity == Some(deployment.state.identity);
    }

    /** begin */
    method Begin() returns (done: bool)
      modifies this, deployment
      ensures BeginEffect(old(View()), View(), done)
      ensures deployment.calm ==> (done <==> old(deployment.unfinished) == 0)
    {
      var unreadable := MayRaise(deployment.calm);
      if unreadable || deployment.unfinished > 0 {
        return false;
      }
      provisional := false;
      var unpublished := MayRaise(deployment.calm);
      if unpublished {
        return false;
      }
      deployment.state := Finalizing;
      var unsynced := MayRaise(deployment.calm);
      return !unsynced;
    }

    /** record_failure */
    method RecordFailure() returns (done: bool)
      modifies this, deployment
      ensures FailEffect(old(View()), View(), done)
      ensures deployment.calm ==> done
    {
      provisional := false;
      var stuck := MayRaise(deployment.calm);
      if stuck {
        return false;
      }
      deployment.marker := NoMarker;
      var unpublished := MayRaise(deployment.calm);
      if unpublished {
        return false;
      }
      deployment.state := NotReady;
      var unsynced := MayRaise(deployment.calm);
      return !unsynced;
    }

    /** record_ready */
    method RecordReady() returns (done: bool)
      modifies this, deployment
      ensures ReadyEffect(old(View()), View(), done)
      ensures deployment.calm ==> (done <==> old(deployment.state).Finalizing? && identity.Some?)
    {
      var unreadable := MayRaise(deployment.calm);
      if unreadable || !deployment.state.Finalizing? {
        return false;
      }
      provisional := false;
      var unpublished := MayRaise(deployment.calm);
      if unpublished || identity.None? {
        return false;
      }
      deployment.state := Ready(identity.value);
      var unsynced := MayRaise(deployment.calm);
      return !unsynced;
    }

    /** arm_bootstrap_marker */
    method ArmBootstrapMarker(image: string) returns (done: bool)
      modifies deployment
      ensures ArmEffect(old(View()), View(), image, done)
      ensures deployment.calm ==> (done <==> old(deployment.state).Finalizing? && old(deployment.marker).NoMarker?)
    {
      var unreadable := MayRaise(deployment.calm);
      if unreadable || !deployment.state.Finalizing? || !deployment.marker.NoMarker? {
        return false;
      }
      var unpublished := MayRaise(deployment.calm);
      if unpublished {
        return false;
      }
      deployment.marker := Armed(image);
      var unsynced := MayRaise(deployment.calm);
      return !unsynced;
    }

    /** consume_bootstrap_marker: the marker is unlinked, and the unlink synced, before it is read. */
    method ConsumeBootstrapMarker() returns (granted: bool)
      modifies this, deployment
      ensures ConsumeEffect(old(View()), View(), granted)
      ensures deployment.calm ==>
        (granted <==> old(deployment.state).Finalizing? && identity.Some?
                      && old(deployment.marker) == Armed(identity.value.image))
      ensures deployment.calm ==> deployment.marker.NoMarker?
    {
      provisional := false;
      var marker := deployment.marker;
      var stuck := MayRaise(deployment.calm);
      if stuck || marker.NoMarker? {
        return false;
      }
      deployment.marker := NoMarker;
      var unsynced := MayRaise(deployment.calm);
      if unsynced || marker.GarbledMarker? {
        return false;
      }
      var unreadable := MayRaise(deployment.calm);
      if unreadable || !deployment.state.Finalizing? || identity.None? || identity.value.image != marker.image {
        return false;
      }
      provisional := true;
      return true;
    }

    /** accept_ready_request, from its readiness check to the published queue entry. */
    method Submit() returns (accepted: bool)
      modifies this, deployment
      ensures SubmitEffect(old(View()), View(), accepted)
      ensures deployment.calm ==> (accepted <==> Open(old(View())))
    {
      var ready := ReadReadiness();
      if !ready {
        return false;
      }
      var unpublished := MayRaise(deployment.calm);
      if unpublished {
        return false;
      }
      deployment.unfinished := deployment.unfinished + 1;
      var unsynced := MayRaise(deployment.calm);
      return !unsynced;
    }
  }

  // --------------------------------------------------- many processes at once

  datatype Member = Member(provisional: bool, identity: Option<Identity>)

  datatype World = World(
    state: State, marker: Marker, unfinished: nat, members: map<int, Member>,
    arms: nat,      // markers armed so far
    grants: nat)    // boots granted provisional readiness so far

  function LocalTo(w: World, p: int): Local
    requires p in w.members
  {
    Local(w.state, w.marker, w.unfinished, w.members[p].provisional, w.members[p].identity)
  }

  datatype Action =
    | Join(p: int, identity: Option<Identity>)   // a process starts
    | Leave(p: int)                               // and ends
    | Begin(p: int, done: bool)
    | Fail(p: int, done: bool)
    | RecordReady(p: int, done: bool)
    | Arm(p: int, image: string, done: bool)
    | Consume(p: int, granted: bool)
    | Read(p: int)
    | Submit(p: int, accepted: bool)
    | Finish                                      // a calculation becomes terminal

  /** Exactly the shared state and process `p` may differ. */
  predicate Only(a: World, b: World, p: int) {
    && p in a.members && b.members.Keys == a.members.Keys
    && b.members == a.members[p := b.members[p]] && b.members[p].identity == a.members[p].identity
  }

  predicate Step(a: World, b: World, action: Action) {
    match action
    case Join(p, identity) => p !in a.members && b == a.(members := a.members[p := Member(false, identity)])
    case Leave(p) => p in a.members && b == a.(members := a.members - {p})
    case Begin(p, done) =>
      Only(a, b, p) && BeginEffect(LocalTo(a, p), LocalTo(b, p), done) && b.arms == a.arms && b.grants == a.grants
    case Fail(p, done) =>
      Only(a, b, p) && FailEffect(LocalTo(a, p), LocalTo(b, p), done) && b.arms == a.arms && b.grants == a.grants
    case RecordReady(p, done) =>
      Only(a, b, p) && ReadyEffect(LocalTo(a, p), LocalTo(b, p), done) && b.arms == a.arms && b.grants == a.grants
    case Arm(p, image, done) =>
      && Only(a, b, p) && ArmEffect(LocalTo(a, p), LocalTo(b, p), image, done)
      && b.arms == a.arms + (if b.marker == a.marker then 0 else 1) && b.grants == a.grants
    case Consume(p, granted) =>
      && Only(a, b, p) && ConsumeEffect(LocalTo(a, p), LocalTo(b, p), granted)
      && b.arms == a.arms && b.grants == a.grants + (if granted then 1 else 0)
    case Read(p) =>
      && Only(a, b, p) && (LocalTo(b, p) == LocalTo(a, p) || LocalTo(b, p) == AfterRead(LocalTo(a, p)))
      && b.arms == a.arms && b.grants == a.grants
    case Submit(p, accepted) =>
      && Only(a, b, p)
      && SubmitEffect(LocalTo(a, p), LocalTo(b, p), accepted)
      && b.arms == a.arms && b.grants == a.grants
    case Finish => a.unfinished > 0 && b == a.(unfinished := a.unfinished - 1)
  }

  /** No process is open for calculations. */
  predicate Closed(w: World) {
    forall p | p in w.members :: !Open(LocalTo(w, p))
  }

  /** Finalization is under way, nothing is unfinished, and nobody can submit. */
  predicate Idle(w: World) {
    w.unfinished == 0 && !w.state.Ready? && forall p | p in w.members :: !w.members[p].provisional
  }

  /** A successful begin leaves every process closed exactly when no other live process still holds
      provisional readiness; its own flag is cleared, theirs are not. */
  lemma BeginClosesExactlyWhen(a: World, b: World, p: int)
    requires Step(a, b, Begin(p, true))
    ensures Closed(b) <==> forall q | q in a.members && q != p :: !a.members[q].provisional
    ensures Closed(b) ==> Idle(b)
  {
    forall q | q in a.members ensures q in b.members && Open(LocalTo(b, q)) == (q != p && a.members[q].provisional) {
      if q != p {
        assert b.members[q] == a.members[q];
      }
    }
  }

  /** Recorded readiness opens exactly the processes of the recorded deployment, however they started. */
  lemma ReadyOpensItsDeployment(a: World, b: World, p: int)
    requires Step(a, b, RecordReady(p, true))
    ensures p in a.members && a.members[p].identity.Some?
    ensures forall q | q in b.members :: Open(LocalTo(b, q)) <==> b.members[q].identity == a.members[p].identity
  {
  }

  /** Until a marker is consumed or readiness is recorded, an idle deployment stays idle. */
  lemma IdleStays(a: World, b: World, action: Action)
    requires Idle(a) && Step(a, b, action)
    requires !(action.Consume? && action.granted) && !action.RecordReady?
    ensures Idle(b)
  {
    forall p | p in b.members ensures !b.members[p].provisional {
      if p in a.members {
        assert !a.members[p].provisional;
      }
    }
  }

  ghost predicate Next(a: World, b: World) {
    exists action :: Step(a, b, action)
  }

  ghost predicate Quiet(a: World, b: World) {
    exists action :: Step(a, b, action) && !(action.Consume? && action.granted) && !action.RecordReady?
  }

  /** Over every interleaving of submissions, ticks, begins, failures and restarts. */
  lemma {:induction false} NoWorkDuringFinalization(run: seq<World>, i: nat)
    requires i < |run| && Idle(run[0])
    requires forall n | 0 <= n < i :: Quiet(run[n], run[n + 1])
    ensures Idle(run[i]) && run[i].unfinished == 0 && Closed(run[i])
  {
    if i > 0 {
      NoWorkDuringFinalization(run, i - 1);
      assert Quiet(run[i - 1], run[i - 1 + 1]);
      var action :| Step(run[i - 1], run[i], action) && !(action.Consume? && action.granted) && !action.RecordReady?;
      IdleStays(run[i - 1], run[i], action);
    }
  }

  /** Nothing but the two ways finalization ends happens up to `i`. */
  ghost predicate QuietUpTo(run: seq<World>, i: nat) {
    i < |run| && forall n | 0 <= n < i :: Quiet(run[n], run[n + 1])
  }

  /** From a successful begin on, over every run until a marker is consumed or readiness is recorded, there is no
      unfinished calculation: exactly when no other process was provisionally ready when it began. */
  lemma BeginKeepsIdleExactlyWhen(a: World, b: World, p: int)
    requires Step(a, b, Begin(p, true))
    ensures (forall run: seq<World>, i: nat | QuietUpTo(run, i) && run[0] == b :: run[i].unfinished == 0)
       <==> (forall q | q in a.members && q != p :: !a.members[q].provisional)
  {
    BeginClosesExactlyWhen(a, b, p);
    if Closed(b) {
      forall run: seq<World>, i: nat | QuietUpTo(run, i) && run[0] == b ensures run[i].unfinished == 0 {
        NoWorkDuringFinalization(run, i);
      }
    } else {
      var q :| q in a.members && q != p && a.members[q].provisional;
      var run := ProvisionalProcessSubmits(a, b, p, q);
      assert QuietUpTo(run, 1) && run[1].unfinished != 0;
    }
  }

  lemma ProvisionalProcessSubmits(a: World, b: World, p: int, q: int) returns (run: seq<World>)
    requires Step(a, b, Begin(p, true)) && q in a.members && q != p && a.members[q].provisional
    ensures QuietUpTo(run, 1) && run[0] == b && run[1].unfinished == 1
  {
    assert b.members[q] == a.members[q];
    var c := b.(unfinished := 1);
    assert b.members == b.members[q := b.members[q]];
    assert Step(b, c, Submit(q, true));
    run := [b, c];
  }

  const IMAGE := Identity("image", "release")

  /** A service that booted on a marker, beside the command that armed it. */
  const BOOTED := World(Finalizing, NoMarker, 0, map[2 := Member(false, None), 1 := Member(true, Some(IMAGE))], 1, 1)

  /** From an unused deployment: begin, arm, start the service, consume. */
  lemma ServicesBootOnMarkers() returns (run: seq<World>)
    ensures |run| == 5 && run[0] == World(Missing, NoMarker, 0, map[2 := Member(false, None)], 0, 0) && run[4] == BOOTED
    ensures forall i | 0 <= i < 4 :: Next(run[i], run[i + 1])
  {
    var unused := World(Missing, NoMarker, 0, map[2 := Member(false, None)], 0, 0);
    var begun := unused.(state := Finalizing);
    var armed := begun.(marker := Armed("image"), arms := 1);
    var joined := armed.(members := armed.members[1 := Member(false, Some(IMAGE))]);
    run := [unused, begun, armed, joined, BOOTED];
    BeginsAndArms(unused, begun, armed);
    assert Step(armed, joined, Join(1, Some(IMAGE)));
    assert Step(joined, BOOTED, Consume(1, true));
  }

  lemma BeginsAndArms(unused: World, begun: World, armed: World)
    requires unused == World(Missing, NoMarker, 0, map[2 := Member(false, None)], 0, 0)
    requires begun == unused.(state := Finalizing) && armed == begun.(marker := Armed("image"), arms := 1)
    ensures Next(unused, begun) && Next(begun, armed)
  {
    assert Step(unused, begun, Begin(2, true));
    assert Step(begun, armed, Arm(2, "image", true));
  }

  /** That service is still provisionally ready when another process begins finalization again, successfully,
      and so it accepts a calculation afterwards. */
  lemma ProvisionalReadinessOutlivesBegin()
    ensures Step(BOOTED, BOOTED, Begin(2, true))
    ensures Step(BOOTED, BOOTED.(unfinished := 1), Submit(1, true))
  {
  }

  // -------------------------------------------------------------- one boot each

  predicate GrantsAreArmed(w: World) {
    w.grants + (if w.marker.Armed? then 1 else 0) <= w.arms
  }

  lemma GrantsStayArmed(a: World, b: World, action: Action)
    requires GrantsAreArmed(a) && Step(a, b, action)
    ensures GrantsAreArmed(b)
    ensures b.grants > a.grants ==>
      && action.Consume? && a.state.Finalizing? && b.marker.NoMarker? && b.grants == a.grants + 1
      && a.members[action.p].identity.Some? && a.marker == Armed(a.members[action.p].identity.value.image)
  {
  }

  /** Each armed marker grants at most one boot, over every run. */
  lemma {:induction false} MarkersGrantOneBootEach(run: seq<World>, i: nat)
    requires i < |run| && GrantsAreArmed(run[0])
    requires forall n | 0 <= n < i :: Next(run[n], run[n + 1])
    ensures GrantsAreArmed(run[i])
  {
    if i > 0 {
      MarkersGrantOneBootEach(run, i - 1);
      assert Next(run[i - 1], run[i - 1 + 1]);
      var action :| Step(run[i - 1], run[i], action);
      GrantsStayArmed(run[i - 1], run[i], action);
    }
  }
}
