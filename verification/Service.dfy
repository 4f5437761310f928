/** The service lifespan: one scheduler at a time, and none beside an unfinished predecessor (main.py). */
module Service {
  import opened Common
  import opened Runner

  class Application {
    const table: ProcessTable
    var up: bool                  // a scheduler exists and admits work
    var callbacks: nat            // worker slots still occupied, in this or the last lifespan
    var restartRequired: bool     // _restart_required_after_incomplete_callback_drain

    constructor (table: ProcessTable)
      requires table.Valid()
      ensures Valid() && this.table == table && !up && !restartRequired && callbacks == 0
    {
      this.table, up, callbacks, restartRequired := table, false, 0, false;
    }

    /** A lifespan that ended with callbacks still running has asked for a process restart. */
    ghost predicate Valid()
      reads this, table
    {
      table.Valid() && (!up && callbacks > 0 ==> restartRequired)
    }

    /** lifespan, up to its yield. `recovered` says whether startup recovery returned. A scheduler is created
        only when every callback and every native child of earlier lifespans is gone. */
    method Start(recovered: bool) returns (started: bool)
      requires Valid() && !up
      modifies this, table
      ensures Valid() && up == started && restartRequired == old(restartRequired)
      ensures started ==> recovered && old(callbacks) == 0 && callbacks == 0 && !restartRequired
      ensures started ==> table.launchOpen && table.active == [] && table.spawned <= table.exited
      ensures started ==> table.generation == old(table.generation) + 1
      ensures !started ==> old(restartRequired) || !recovered || table.active != []
    {
      if restartRequired || !recovered {
        return false;
      }
      var gate := table.OpenLaunchGate();
      if !gate {
        return false;
      }
      up := true;
      return true;
    }

    /** A tick hands one more record to the executor. */
    method Occupy()
      requires Valid() && up
      modifies this`callbacks
      ensures Valid() && callbacks == old(callbacks) + 1
    {
      callbacks := callbacks + 1;
    }

    /** wait_until_idle: some callbacks may end meanwhile, and the wait itself may raise. */
    method WaitUntilIdle() returns (idle: bool, raised: bool)
      modifies this`callbacks
      ensures callbacks <= old(callbacks) && (idle <==> !raised && callbacks == 0) && (table.calm ==> !raised)
    {
      var left: int := *;
      if 0 <= left < callbacks {
        callbacks := left;
      }
      raised := MayRaise(table.calm);
      idle := !raised && callbacks == 0;
    }

    /** _shutdown_scheduler: closing always completes, whatever its steps raise, and the gate is left closed. */
    method Shutdown() returns (clean: bool, drained: bool)
      requires Valid() && up
      modifies this, table
      ensures Valid() && !up && !table.launchOpen && table.spawned == old(table.spawned)
      ensures drained ==> callbacks == 0
      ensures restartRequired <==> old(restartRequired) || !drained
      ensures clean ==> (drained <==> callbacks == 0)
      ensures table.calm ==> clean && forall t | t in table.active && t.pid !in table.exited ::
        t.pid in table.terminated && t.pid in table.killed
    {
      var idle, raised := WaitUntilIdle();
      clean := !raised;
      var terminated := table.CloseAndTerminateActive();
      idle, raised := WaitUntilIdle();
      clean := clean && !raised;
      var killed := table.ForceKillActive();
      idle, raised := WaitUntilIdle();
      clean := clean && !raised;
      drained := idle;
      if !drained {
        restartRequired := true;
      }
      up := false;
    }
  }
}
