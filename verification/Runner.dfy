/** Native child processes, the launch gate (runner.py), and the service lifespan around them (main.py). */
module Runner {
  import opened Common

  datatype Tracked = Tracked(pid: nat, serviceTerminated: bool, ownerActive: bool)

  datatype Event = GateOpened | GateClosed | Spawned(pid: nat)

  /** The gate after these events; a process starts with it open. */
  function GateAfter(log: seq<Event>): bool {
    if log == [] then true
    else match log[|log| - 1]
      case GateOpened => true
      case GateClosed => false
      case Spawned(_) => GateAfter(log[..|log| - 1])
  }

  /** Nothing was ever spawned between a close and the next successful open. */
  predicate SpawnedWhileOpen(log: seq<Event>) {
    forall i | 0 <= i < |log| && log[i].Spawned? :: GateAfter(log[..i])
  }

  lemma LoggingKeepsOrder(log: seq<Event>, e: Event)
    requires SpawnedWhileOpen(log) && (e.Spawned? ==> GateAfter(log))
    ensures SpawnedWhileOpen(log + [e])
    ensures GateAfter(log + [e]) == if e.GateOpened? then true else if e.GateClosed? then false else GateAfter(log)
  {
    var longer := log + [e];
    assert longer[..|log|] == log;
    forall i | 0 <= i < |longer| && longer[i].Spawned? ensures GateAfter(longer[..i]) {
      if i < |log| {
        assert longer[..i] == log[..i];
      }
    }
  }

  function Pids(active: seq<Tracked>): set<nat> {
    set t | t in active :: t.pid
  }

  predicate Distinct(active: seq<Tracked>) {
    forall i, j | 0 <= i < j < |active| :: active[i].pid != active[j].pid
  }

  /** `less` keeps the order of `active` and drops only processes in `gone`. */
  predicate DropsOnly(active: seq<Tracked>, less: seq<Tracked>, gone: set<nat>) {
    && Distinct(less) && Pids(less) <= Pids(active) && Pids(active) - gone <= Pids(less)
  }

  /** Processes with the same owners, some of them signalled; nothing that had exited has been. */
  predicate Signalled(active: seq<Tracked>, marked: seq<Tracked>, completed: set<nat>) {
    && |marked| == |active|
    && forall k | 0 <= k < |active| ::
         marked[k] == active[k] || (marked[k] == active[k].(serviceTerminated := true) && active[k].pid !in completed)
  }

  class ProcessTable {
    const calm: bool              // no poll, signal or spawn fails
    var launchOpen: bool
    var active: seq<Tracked>
    var exited: set<nat>          // what the operating system knows
    var terminated: set<nat>      // and has been told to terminate,
    var killed: set<nat>          // or to kill
    ghost var spawned: set<nat>
    ghost var observed: set<nat>  // exits this service has seen
    ghost var born: map<nat, nat> // the generation each child was spawned in
    ghost var generation: nat     // successful opens so far
    ghost var log: seq<Event>

    constructor (calm: bool)
      ensures Valid() && launchOpen && active == [] && spawned == {} && this.calm == calm
    {
      this.calm := calm;
      launchOpen, active, exited, terminated, killed := true, [], {}, {}, {};
      spawned, observed, born, generation, log := {}, {}, map[], 0, [];
    }

    /** Every child not yet seen to have exited is in the table, and belongs to the generation of the last open. */
    ghost predicate Valid()
      reads this
    {
      && Distinct(active) && Pids(active) <= spawned && spawned - observed <= Pids(active)
      && observed <= exited && born.Keys == spawned
      && (forall t | t in active :: t.pid in born && born[t.pid] == generation)
      && launchOpen == GateAfter(log) && SpawnedWhileOpen(log)
    }

    ghost method Log(e: Event)
      requires SpawnedWhileOpen(log) && (e.Spawned? ==> GateAfter(log))
      modifies this`log
      ensures log == old(log) + [e] && SpawnedWhileOpen(log)
      ensures GateAfter(log) == if e.GateOpened? then true else if e.GateClosed? then false else old(GateAfter(log))
    {
      LoggingKeepsOrder(log, e);
      log := log + [e];
    }

    /** _prune_completed_locked: a poll may fail; a completed child with a live owner stays in the table. */
    method PruneCompletedLocked() returns (completed: set<nat>)
      requires Valid()
      modifies this`active, this`observed
      ensures Valid() && completed <= exited
      ensures DropsOnly(old(active), active, completed)
      ensures forall t :: t in active <==> t in old(active) && (t.ownerActive || t.pid !in completed)
      ensures calm ==> completed == old(Pids(active)) * exited
      ensures observed == old(observed) + completed
    {
      completed := {};
      var kept: seq<Tracked> := [];
      for i := 0 to |active|
        invariant active == old(active) && observed == old(observed)
        invariant completed <= exited && completed <= Pids(active[..i]) && completed <= Pids(active)
        invariant calm ==> completed == Pids(active[..i]) * exited
        invariant forall t | t in kept :: t.ownerActive || t.pid !in completed
        invariant Distinct(kept) && (forall t | t in kept :: t in active[..i])
        invariant forall t | t in active[..i] :: t in kept || (t.pid in completed && !t.ownerActive)
      {
        var t := active[i];
        var pollFailed := MayRaise(calm);
        var done := !pollFailed && t.pid in exited;
        assert t in active;
        assert forall k | k in kept :: exists j :: 0 <= j < i && active[j] == k;
        PidsOfMore(active, i);
        if done {
          completed := completed + {t.pid};
        }
        if !(done && !t.ownerActive) {
          kept := kept + [t];
        }
      }
      assert active[..|active|] == active;
      forall p | p in Pids(active) && p !in completed ensures p in Pids(kept) {
        var t :| t in active && t.pid == p;
        assert t in kept;
      }
      active := kept;
      observed := observed + completed;
    }

    /** open_launch_gate: a successful open starts a generation with nothing left of the previous one. */
    method OpenLaunchGate() returns (ok: bool)
      requires Valid()
      modifies this
      ensures Valid() && launchOpen == ok && exited == old(exited) && spawned == old(spawned)
      ensures ok ==> active == [] && spawned <= exited && generation == old(generation) + 1
      ensures !ok ==> active != [] && generation == old(generation)
      ensures forall t | t in active :: t in old(active)
      ensures calm ==> (ok <==> forall t | t in old(active) :: !t.ownerActive && t.pid in exited)
    {
      var completed := PruneCompletedLocked();
      assert forall t | t in old(active) && t.pid in exited :: t.pid in old(Pids(active)) * exited;
      if active != [] {
        assert active[0] in active;
        launchOpen := false;
        Log(GateClosed);
        return false;
      }
      launchOpen := true;
      generation := generation + 1;
      Log(GateOpened);
      assert forall p | p in spawned :: p in observed by {
        assert Pids(active) == {};
        assert forall p | p in spawned && p !in observed :: p in spawned - observed;
      }
      return true;
    }

    /** The loop shared by close_and_terminate_active and force_kill_active; a signal may fail. */
    method SignalActive(completed: set<nat>, force: bool) returns (signalled: nat)
      requires Valid()
      modifies this`active, this`terminated, this`killed
      ensures if force then terminated == old(terminated) && old(killed) <= killed
              else killed == old(killed) && old(terminated) <= terminated
      ensures calm ==> forall t | t in active && t.pid !in completed :: t.pid in if force then killed else terminated
      ensures Valid() && Pids(active) == old(Pids(active))
      ensures signalled <= |old(active)| && Signalled(old(active), active, completed)
      ensures calm ==> forall t | t in active :: t.serviceTerminated || t.pid in completed
    {
      signalled := 0;
      var marked: seq<Tracked> := [];
      for i := 0 to |active|
        invariant active == old(active) && signalled <= i && |marked| == i
        invariant forall k | 0 <= k < i ::
          marked[k] == active[k] || (marked[k] == active[k].(serviceTerminated := true) && active[k].pid !in completed)
        invariant calm ==> forall k | 0 <= k < i :: marked[k].serviceTerminated || marked[k].pid in completed
        invariant forall k | 0 <= k < i :: marked[k].pid == active[k].pid
        invariant if force then terminated == old(terminated) && old(killed) <= killed
                  else killed == old(killed) && old(terminated) <= terminated
        invariant calm ==> forall k | 0 <= k < i && marked[k].pid !in completed ::
          marked[k].pid in if force then killed else terminated
      {
        var t := active[i];
        var signalFailed := MayRaise(calm);
        if t.pid !in completed && !signalFailed {
          marked := marked + [t.(serviceTerminated := true)];
          signalled := signalled + 1;
          if force {
            killed := killed + {t.pid};
          } else {
            terminated := terminated + {t.pid};
          }
        } else {
          marked := marked + [t];
        }
      }
      MarkingKeepsPids(active, marked);
      active := marked;
    }

    method CloseAndTerminateActive() returns (signalled: nat)
      requires Valid()
      modifies this
      ensures Valid() && !launchOpen && spawned == old(spawned) && exited == old(exited)
      ensures forall t | t in active :: t.pid in old(Pids(active))
      ensures calm ==> forall t | t in active && t.pid !in exited :: t.serviceTerminated && t.pid in terminated
    {
      launchOpen := false;
      Log(GateClosed);
      var completed := PruneCompletedLocked();
      signalled := SignalActive(completed, false);
    }

    method ForceKillActive() returns (signalled: nat)
      requires Valid()
      modifies this
      ensures Valid() && launchOpen == old(launchOpen) && spawned == old(spawned) && exited == old(exited)
      ensures forall t | t in active :: t.pid in old(Pids(active))
      ensures calm ==> forall t | t in active && t.pid !in exited :: t.serviceTerminated && t.pid in killed
      ensures terminated == old(terminated)
    {
      var completed := PruneCompletedLocked();
      signalled := SignalActive(completed, true);
    }

    /** Spawning and registration, under one lock. */
    method Spawn(pid: nat) returns (started: bool)
      requires Valid() && pid !in spawned
      modifies this
      ensures Valid() && launchOpen == old(launchOpen)
      ensures started ==> old(launchOpen) && active == old(active) + [Tracked(pid, false, true)]
      ensures !started ==> active == old(active) && spawned == old(spawned)
      ensures spawned == if started then old(spawned) + {pid} else old(spawned)
      ensures calm ==> (started <==> old(launchOpen))
    {
      var popenFailed := MayRaise(calm);
      if !launchOpen || popenFailed {
        return false;
      }
      OneMore(active, Tracked(pid, false, true));
      active := active + [Tracked(pid, false, true)];
      spawned, born := spawned + {pid}, born[pid := generation];
      Log(Spawned(pid));
      return true;
    }

    /** The end of run_shake. process.wait() returns only once the child has exited; when it raises, the child
        stays in the table without an owner. */
    method AwaitChild(pid: nat) returns (waited: bool, serviceTerminated: bool)
      requires Valid() && pid in spawned
      modifies this
      ensures Valid() && launchOpen == old(launchOpen) && spawned == old(spawned)
      ensures waited ==> pid in exited && pid in observed && pid !in Pids(active)
      ensures waited ==> Pids(active) == old(Pids(active)) - {pid}
      ensures !waited ==> Pids(active) == old(Pids(active)) && observed == old(observed)
      ensures !waited ==> forall t | t in active && t.pid == pid :: !t.ownerActive
      ensures forall t: Tracked | t.pid != pid :: t in active <==> t in old(active)
      ensures waited ==>
        (serviceTerminated <==> Tracked(pid, true, true) in old(active) || Tracked(pid, true, false) in old(active))
      ensures calm ==> waited
    {
      serviceTerminated := false;
      var raised := MayRaise(calm);
      if raised {
        Disown(pid);
        return false, false;
      }
      exited := exited + {pid};
      serviceTerminated := exists t | t in active :: t.pid == pid && t.serviceTerminated;
      FlaggedForm(active, pid);
      observed := observed + {pid};
      Forget(pid);
      waited := true;
    }

    method Disown(pid: nat)
      requires Valid()
      modifies this`active
      ensures Valid() && Pids(active) == old(Pids(active))
      ensures |active| == |old(active)| && forall k | 0 <= k < |active| ::
        active[k] == if old(active)[k].pid == pid then old(active)[k].(ownerActive := false) else old(active)[k]
    {
      var marked: seq<Tracked> := [];
      for i := 0 to |active|
        invariant active == old(active) && |marked| == i
        invariant forall k | 0 <= k < i ::
          marked[k] == if active[k].pid == pid then active[k].(ownerActive := false) else active[k]
      {
        marked := marked + [if active[i].pid == pid then active[i].(ownerActive := false) else active[i]];
      }
      MarkingKeepsPids(active, marked);
      active := marked;
    }

    /** _active_processes.pop of a child that has been seen to exit. */
    method Forget(pid: nat)
      requires Valid() && pid in observed
      modifies this`active
      ensures Valid() && Pids(active) == old(Pids(active)) - {pid}
      ensures forall t: Tracked :: t in active <==> t in old(active) && t.pid != pid
    {
      var kept: seq<Tracked> := [];
      for i := 0 to |active|
        invariant active == old(active)
        invariant Distinct(kept) && (forall t | t in kept :: t in active[..i] && t.pid != pid)
        invariant forall t | t in active[..i] && t.pid != pid :: t in kept
      {
        assert forall k | k in kept :: exists j :: 0 <= j < i && active[j] == k;
        if active[i].pid != pid {
          kept := kept + [active[i]];
        }
      }
      assert active[..|active|] == active;
      active := kept;
    }
  }

  lemma FlaggedForm(active: seq<Tracked>, pid: nat)
    ensures (exists t | t in active :: t.pid == pid && t.serviceTerminated)
      <==> Tracked(pid, true, true) in active || Tracked(pid, true, false) in active
  {
    if t :| t in active && t.pid == pid && t.serviceTerminated {
      assert t == Tracked(pid, true, t.ownerActive);
    }
  }

  lemma PidsOfMore(active: seq<Tracked>, i: nat)
    requires i < |active|
    ensures Pids(active[..i + 1]) == Pids(active[..i]) + {active[i].pid}
  {
    assert active[..i + 1] == active[..i] + [active[i]];
    assert active[i] in active[..i + 1];
    assert forall t | t in active[..i] :: t in active[..i + 1];
  }

  lemma OneMore(active: seq<Tracked>, t: Tracked)
    requires Distinct(active) && t.pid !in Pids(active)
    ensures Pids(active + [t]) == Pids(active) + {t.pid} && Distinct(active + [t])
  {
    forall p ensures p in Pids(active + [t]) <==> p in Pids(active) || p == t.pid {
      if p in Pids(active) {
        var u :| u in active && u.pid == p;
        assert u in active + [t];
      }
      assert t in active + [t];
    }
    forall i | 0 <= i < |active| ensures active[i].pid != t.pid {
      assert active[i] in active;
    }
  }

  lemma MarkingKeepsPids(active: seq<Tracked>, marked: seq<Tracked>)
    requires |marked| == |active| && forall k | 0 <= k < |active| :: marked[k].pid == active[k].pid
    ensures Pids(marked) == Pids(active)
    ensures Distinct(active) ==> Distinct(marked)
    ensures forall t | t in marked :: exists u :: u in active && u.pid == t.pid
  {
    forall p ensures p in Pids(marked) <==> p in Pids(active) {
      if p in Pids(marked) {
        var k :| 0 <= k < |marked| && marked[k].pid == p;
        assert active[k] in active;
      }
      if p in Pids(active) {
        var k :| 0 <= k < |active| && active[k].pid == p;
        assert marked[k] in marked;
      }
    }
  }
}
