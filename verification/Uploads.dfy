/**
 Publication of caller uploads beside existing input files (submission.py).
 A name is a link to an inode; rename() between two links to the same inode
 does nothing (rename(), System Interfaces, POSIX.1-2017).
 */
module Uploads {
  import opened Common
  import opened Volumes

  type Inode = nat
  type Directory = map<string, Inode>

  /** Both directories after rename(from, to) from the private directory into the input directory. */
  function Renamed(private: Directory, input: Directory, from: string, to: string): (Directory, Directory)
    requires from in private
  {
    if to in input && input[to] == private[from] then (private, input)
    else (private - {from}, input[to := private[from]])
  }

  /** Nothing but `name` differs. */
  predicate SameBut(a: Directory, b: Directory, name: string) {
    a - {name} == b - {name}
  }

  /** What a directory may hold after a crash. */
  predicate Survives(live: Directory, past: seq<Directory>, d: Directory) {
    d == live || d in past
  }

  /** One upload over a file the caller already has. */
  datatype Upload = Upload(target: string, file: string, backup: string, before: Inode, after: Inode)
  {
    predicate Distinct() {
      file != backup && before != after
    }
  }

  /** Both directories at one moment, each with the contents a power failure could still bring back. */
  datatype Contents = Contents(input: Directory, inputPast: seq<Directory>, private: Directory, privatePast: seq<Directory>)

  /** The old bytes have a name. */
  predicate Reachable(input: Directory, private: Directory, u: Upload) {
    || (u.target in input && input[u.target] == u.before)
    || (u.backup in private && private[u.backup] == u.before)
  }

  /** A power failure at this moment could leave the old bytes without a name. */
  ghost predicate Exposed(c: Contents, u: Upload) {
    exists d, p :: Survives(c.input, c.inputPast, d) && Survives(c.private, c.privatePast, p) && !Reachable(d, p, u)
  }

  /** The new name is not yet synced in the old one's place. */
  predicate Promised(c: Contents, u: Upload) {
    !(u.target in c.input && c.input[u.target] == u.after && c.inputPast == [])
  }

  /** Until it is, the old bytes are exposed exactly while a rename over the target is issued and not synced. */
  ghost predicate ExposedInBetween(c: Contents, u: Upload) {
    Promised(c, u) ==> (Exposed(c, u) <==> c.inputPast != [])
  }

  /** The backup link is not certain to be there. */
  ghost predicate Unsure(c: Contents, u: Upload) {
    exists p :: Survives(c.private, c.privatePast, p) && u.backup !in p
  }

  /** While a rename over the target is not synced, the new file may be there and the backup may not. */
  ghost predicate Tracked(c: Contents, u: Upload) {
    && u.target in c.input && c.input[u.target] in {u.before, u.after}
    && (c.inputPast != [] ==>
          Unsure(c, u) && exists d :: Survives(c.input, c.inputPast, d) && u.target in d && d[u.target] == u.after)
  }

  class Store {
    const regime: Regime
    var input: Directory          // the caller's directory
    var private: Directory        // the private upload directory
    var inputPast: seq<Directory>   // contents a power failure could still bring back
    var privatePast: seq<Directory>
    ghost var last: Contents      // now, or when the power failed
    ghost var raised: nat         // errors that struck so far

    constructor (regime: Regime, input: Directory, private: Directory)
      ensures this.regime == regime && this.input == input && this.private == private
      ensures inputPast == [] && privatePast == [] && last == Now() && raised == 0
    {
      this.regime, this.input, this.private, inputPast, privatePast := regime, input, private, [], [];
      last, raised := Contents(input, [], private, []), 0;
    }

    function Now(): Contents
      reads this
    {
      Contents(input, inputPast, private, privatePast)
    }

    /** Only a power failure takes anything back, and only what was not synced. */
    ghost predicate Struck(out: Outcome)
      reads this
    {
      && (!out.Crashed? || !regime.PowerFailure? ==> last == Now())
      && Survives(last.input, last.inputPast, input) && Survives(last.private, last.privatePast, private)
    }

    /** A fault may strike here. A power failure may undo what was not synced, each directory on its own. */
    method Strike() returns (out: Outcome)
      modifies this
      ensures !out.Crashed? || !regime.PowerFailure? ==>
        unchanged(`input) && unchanged(`private) && unchanged(`inputPast) && unchanged(`privatePast)
      ensures Struck(out) && last == old(Now()) && raised == old(raised) + if out.Error? then 1 else 0
      ensures (out.Error? ==> regime.IoFaults?) && (out.Crashed? ==> !regime.Calm?)
      ensures inputPast == old(inputPast) || inputPast == []
      ensures Survives(old(input), old(inputPast), input) && Survives(old(private), old(privatePast), private)
      ensures forall d | Survives(input, inputPast, d) :: Survives(old(input), old(inputPast), d)
    {
      last := Now();
      var faulty: bool, fatal: bool := *, *;
      if !faulty || regime.Calm? {
        return Done;
      }
      if !fatal && regime.IoFaults? {
        raised := raised + 1;
        return Error;
      }
      if regime.PowerFailure? {
        var i: int, j: int := *, *;
        input := if 0 <= i < |inputPast| then inputPast[i] else input;
        private := if 0 <= j < |privatePast| then privatePast[j] else private;
        inputPast, privatePast := [], [];
      }
      return Crashed;
    }

    // ----------------------------------------------------------- the promise

    /** Whatever a crash leaves, the caller's name holds the old file or the whole new one, and no other name
        of the caller has changed. */
    ghost predicate Steady(base: Directory, u: Upload)
      reads this
    {
      forall d | Survives(input, inputPast, d) ::
        u.target in d && d[u.target] in {u.before, u.after} && SameBut(d, base, u.target)
    }

    /** The old bytes still have a name, or the new name is safely in place. */
    predicate Kept(u: Upload)
      reads this
    {
      || (u.target in input && input[u.target] == u.before)
      || (u.backup in private && private[u.backup] == u.before)
      || (u.target in input && input[u.target] == u.after && inputPast == [])
    }

    /** The caller has the old file, and nothing is left of the new one. */
    predicate GivenBack(u: Upload, retain: bool)
      reads this
    {
      && u.target in input && input[u.target] == u.before && inputPast == []
      && u.file !in private && privatePast == [] && !retain
    }

    /** The new file is safely in place, and no backup is left to return to. */
    predicate Replaced(u: Upload)
      reads this
    {
      && u.target in input && input[u.target] == u.after && inputPast == []
      && u.file !in private && u.backup !in private
    }

    // ------------------------------------------------------------ operations

    /** os.link of the caller's file into the private directory. */
    method LinkBackup(u: Upload, ghost base: Directory) returns (out: Outcome)
      requires Steady(base, u) && input[u.target] == u.before && u.backup !in private
      requires Tracked(Now(), u) && Unsure(Now(), u)
      modifies this
      ensures Struck(out) && Tracked(last, u) && Unsure(last, u)
      ensures Steady(base, u) && (out.Error? ==> regime.IoFaults?) && (out.Crashed? ==> !regime.Calm?)
      ensures !out.Crashed? || !regime.PowerFailure? ==> input == old(input) && inputPast == old(inputPast)
      ensures !out.Crashed? || !regime.PowerFailure? ==>
        private == old(private) || private == old(private)[u.backup := u.before]
      ensures out.Done? ==> private == old(private)[u.backup := u.before]
      ensures raised == old(raised) + if out.Error? then 1 else 0
    {
      out := Strike();
      if out.Done? {
        privatePast := privatePast + [private];
        private := private[u.backup := input[u.target]];
        out := Strike();
      }
    }

    /** _replace_input_name: os.replace of a private name onto the target. */
    method ReplaceName(from: string, u: Upload, ghost base: Directory) returns (out: Outcome)
      requires Steady(base, u) && (from in private ==> private[from] in {u.before, u.after})
      requires Tracked(Now(), u) && Unsure(Now(), u)
      modifies this
      ensures Struck(out) && Tracked(last, u) && Unsure(last, u)
      ensures Steady(base, u) && (out.Error? ==> regime.IoFaults? || from !in old(private)) && (out.Crashed? ==> !regime.Calm?)
      ensures !out.Crashed? || !regime.PowerFailure? ==>
        || (input == old(input) && private == old(private) && inputPast == old(inputPast))
        || (from in old(private) && (private, input) == Renamed(old(private), old(input), from, u.target))
      ensures !out.Crashed? || !regime.PowerFailure? ==> input == old(input) ==> inputPast == old(inputPast)
      ensures out.Done? ==>
        from in old(private) && (private, input) == Renamed(old(private), old(input), from, u.target)
      ensures raised == old(raised) + if out.Error? && (from in old(private) || raised > old(raised)) then 1 else 0
      ensures out.Error? && raised == old(raised) ==> input == old(input) && private == old(private)
    {
      out := Strike();
      if !out.Done? {
        return;
      }
      if from !in private {
        return Error;
      }
      var after := Renamed(private, input, from, u.target);
      RenamingIsSteady(input, inputPast, after.1, base, u);
      if after.1 != input {
        inputPast, privatePast := inputPast + [input], privatePast + [private];
        private, input := after.0, after.1;
      }
      out := Strike();
    }

    /** fsync of the caller's directory. */
    method SyncInput(ghost base: Directory, u: Upload) returns (out: Outcome)
      requires Steady(base, u)
      requires Tracked(Now(), u) && Unsure(Now(), u)
      modifies this
      ensures Struck(out) && Tracked(last, u) && Unsure(last, u)
      ensures Steady(base, u) && (out.Error? ==> regime.IoFaults?) && (out.Crashed? ==> !regime.Calm?)
      ensures !out.Crashed? || !regime.PowerFailure? ==> input == old(input) && private == old(private)
      ensures inputPast == old(inputPast) || inputPast == []
      ensures out.Done? ==> inputPast == []
      ensures raised == old(raised) + if out.Error? then 1 else 0
    {
      out := Strike();
      if out.Done? {
        inputPast := [];
        last := Now();
      }
    }

    /** os.unlink of a private name. */
    method RemovePrivate(name: string, missingOk: bool, ghost base: Directory, u: Upload) returns (out: Outcome)
      requires Steady(base, u)
      requires Tracked(Now(), u) && Unsure(Now(), u)
      modifies this
      ensures Struck(out) && Tracked(last, u) && Unsure(last, u)
      ensures Steady(base, u) && (out.Crashed? ==> !regime.Calm?)
      ensures out.Error? ==> regime.IoFaults? || (!missingOk && name !in old(private))
      ensures !out.Crashed? || !regime.PowerFailure? ==> input == old(input) && inputPast == old(inputPast)
      ensures !out.Crashed? || !regime.PowerFailure? ==> private == old(private) || private == old(private) - {name}
      ensures out.Done? ==> private == old(private) - {name}
      ensures raised == old(raised) + if out.Error? && (missingOk || name in old(private) || raised > old(raised)) then 1 else 0
    {
      out := Strike();
      if !out.Done? {
        return;
      }
      if name !in private {
        assert private - {name} == private;
        return if missingOk then Done else Error;
      }
      privatePast := privatePast + [private];
      private := private - {name};
      out := Strike();
    }

    method SyncPrivate(ghost base: Directory, u: Upload) returns (out: Outcome)
      requires Steady(base, u)
      requires Tracked(Now(), u) && Unsure(Now(), u) && (inputPast == [] || u.backup !in private)
      modifies this
      ensures Struck(out) && Tracked(last, u)
      ensures Steady(base, u) && (out.Error? ==> regime.IoFaults?) && (out.Crashed? ==> !regime.Calm?)
      ensures !out.Crashed? || !regime.PowerFailure? ==>
        input == old(input) && private == old(private) && inputPast == old(inputPast)
      ensures out.Done? ==> privatePast == []
      ensures raised == old(raised) + if out.Error? then 1 else 0
    {
      out := Strike();
      if out.Done? {
        privatePast := [];
        last := Now();
      }
    }

    /** _private_cleanup_problem: both attempts are made; a problem is reported, never raised. */
    method PrivateCleanup(u: Upload, ghost base: Directory) returns (out: Outcome, problem: bool)
      requires Steady(base, u)
      requires Tracked(Now(), u) && Unsure(Now(), u) && (inputPast == [] || u.backup !in private)
      modifies this
      ensures Struck(out) && Tracked(last, u)
      ensures Steady(base, u) && !out.Error? && (out.Crashed? ==> !regime.Calm?)
      ensures !out.Crashed? || !regime.PowerFailure? ==> input == old(input) && inputPast == old(inputPast)
      ensures !out.Crashed? || !regime.PowerFailure? ==> private == old(private) || private == old(private) - {u.file}
      ensures out.Done? && !problem ==> private == old(private) - {u.file} && privatePast == []
      ensures raised >= old(raised) && (out.Done? ==> (problem <==> raised > old(raised)))
    {
      problem := false;
      out := RemovePrivate(u.file, true, base, u);
      if out.Crashed? {
        return;
      }
      problem := out.Error?;
      out := SyncPrivate(base, u);
      if out.Crashed? {
        return;
      }
      problem := problem || out.Error?;
      out := Done;
    }

    // ------------------------------------------------------------ publication

    /** _rollback_replacement: one attempt to give the target back its old file. */
    method Rollback(u: Upload, ghost base: Directory) returns (out: Outcome, retain: bool)
      requires Steady(base, u) && Kept(u) && u.Distinct()
      requires (u.backup in private ==> private[u.backup] == u.before) && (u.file in private ==> private[u.file] == u.after)
      requires Tracked(Now(), u) && Unsure(Now(), u)
      requires inputPast != [] ==> u.target in input && input[u.target] == u.after
      modifies this
      ensures Struck(out) && Tracked(last, u)
      ensures out.Error? && !retain ==> (Exposed(last, u) <==> inputPast != [])
      ensures Steady(base, u) && !out.Done? && (out.Crashed? ==> !regime.Calm?)
      ensures !out.Crashed? || !regime.PowerFailure? ==> Kept(u)
      ensures out.Error? && input[u.target] == u.after ==> retain
      ensures out.Error? && !retain ==> u.file !in private
      ensures raised >= old(raised)
      ensures out.Error? && raised == old(raised) ==>
        if u.backup in old(private) then
          var back := Renamed(old(private), old(input), u.backup, u.target);
          input == back.1 && inputPast == [] && private == back.0 - {u.file} && privatePast == [] && !retain
        else input == old(input) && private == old(private) && inputPast == old(inputPast) && retain
    {
      hide Tracked, Unsure;
      retain := true;
      out := ReplaceName(u.backup, u, base);
      if !out.Done? {
        return;
      }
      assert input[u.target] == u.before;
      out := SyncInput(base, u);
      if out.Crashed? {
        return;
      }
      out, retain := PrivateCleanup(u, base);
      if out.Done? {
        out := Error;
      }
    }

    /** _replace_existing_upload. Under any fault the target is never absent and never holds anything but the
        old file or the whole new one; short of a power failure the old bytes keep a name until the new name is
        synced; a power failure, whether the process is still there or not, can take their last name exactly while a
        rename over the target is not synced; and a failure that leaves the new file without that sync retains the
        private tree. */
    method ReplaceExisting(u: Upload) returns (out: Outcome, retain: bool)
      requires u.Distinct() && u.target in input && input[u.target] == u.before && inputPast == []
      requires u.file in private && private[u.file] == u.after && u.backup !in private
      modifies this
      ensures Struck(out) && ExposedInBetween(last, u)
      ensures Steady(old(input), u)
      ensures !out.Crashed? || !regime.PowerFailure? ==> Kept(u)
      ensures out.Done? ==> input == old(input)[u.target := u.after] && inputPast == []
      ensures out.Done? ==> private == old(private) - {u.backup, u.file} && privatePast == []
      ensures out.Error? && input[u.target] == u.after && inputPast != [] ==> retain
      ensures out.Error? && !retain ==> u.file !in private
      ensures raised >= old(raised) && (out.Error? ==> raised > old(raised)) && (out.Done? ==> raised == old(raised) && !retain)
      ensures out.Error? && raised == old(raised) + 1 ==> GivenBack(u, retain) || Replaced(u)
      ensures (out.Error? ==> regime.IoFaults?) && (out.Crashed? ==> !regime.Calm?)
    {
      hide Exposed, Promised;
      retain := false;
      ghost var base := input;
      assert Survives(private, privatePast, private);
      out := LinkBackup(u, base);
      TrackedIsExposedInBetween(last, u);
      if out.Crashed? {
        return;
      }
      hide Tracked, Unsure;
      if out.Error? {
        out, retain := PrivateCleanup(u, base);
        TrackedIsExposedInBetween(last, u);
        if out.Done? {
          out := Error;
        }
        return;
      }
      out, retain := ReplaceLinked(u, base);
    }

    /** From the rename on. */
    method ReplaceLinked(u: Upload, ghost base: Directory) returns (out: Outcome, retain: bool)
      requires u.Distinct() && u.target in input && input[u.target] == u.before && inputPast == []
      requires u.file in private && private[u.file] == u.after && u.backup in private && private[u.backup] == u.before
      requires Tracked(Now(), u) && Unsure(Now(), u) && base == input && Steady(base, u)
      modifies this
      ensures Struck(out) && ExposedInBetween(last, u)
      ensures Steady(base, u)
      ensures !out.Crashed? || !regime.PowerFailure? ==> Kept(u)
      ensures out.Done? ==> input == old(input)[u.target := u.after] && inputPast == []
      ensures out.Done? ==> private == old(private) - {u.backup, u.file} && privatePast == []
      ensures out.Error? && input[u.target] == u.after && inputPast != [] ==> retain
      ensures out.Error? && !retain ==> u.file !in private
      ensures raised >= old(raised) && (out.Error? ==> raised > old(raised)) && (out.Done? ==> raised == old(raised) && !retain)
      ensures out.Error? && raised == old(raised) + 1 ==> GivenBack(u, retain) || Replaced(u)
      ensures (out.Error? ==> regime.IoFaults?) && (out.Crashed? ==> !regime.Calm?)
    {
      hide Tracked, Unsure, Exposed, Promised;
      retain := false;
      out := ReplaceName(u.file, u, base);
      TrackedIsExposedInBetween(last, u);
      if out.Crashed? {
        return;
      }
      if out.Done? {
        out := SyncInput(base, u);
        TrackedIsExposedInBetween(last, u);
        if out.Crashed? {
          return;
        }
      }
      if out.Error? {
        out, retain := Rollback(u, base);
        TrackedIsExposedInBetween(last, u);
        return;
      }
      out, retain := DropBackup(u, base);
    }

    /** The new name is synced; the backup may go. */
    method DropBackup(u: Upload, ghost base: Directory) returns (out: Outcome, retain: bool)
      requires u.Distinct() && u.target in input && input[u.target] == u.after && inputPast == []
      requires u.backup in private && private[u.backup] == u.before && u.file !in private
      requires Tracked(Now(), u) && Unsure(Now(), u) && Steady(base, u)
      modifies this
      ensures Struck(out) && ExposedInBetween(last, u) && Steady(base, u)
      ensures !out.Crashed? || !regime.PowerFailure? ==> Kept(u)
      ensures out.Done? ==> input == old(input) && inputPast == [] && private == old(private) - {u.backup} && privatePast == []
      ensures out.Error? && input[u.target] == u.after && inputPast != [] ==> retain
      ensures out.Error? && !retain ==> u.file !in private
      ensures raised >= old(raised) && (out.Error? ==> raised > old(raised)) && (out.Done? ==> raised == old(raised) && !retain)
      ensures out.Error? && raised == old(raised) + 1 ==> GivenBack(u, retain) || Replaced(u)
      ensures (out.Error? ==> regime.IoFaults?) && (out.Crashed? ==> !regime.Calm?)
    {
      hide Tracked, Unsure, Exposed, Promised;
      retain := false;
      out := RemovePrivate(u.backup, false, base, u);
      TrackedIsExposedInBetween(last, u);
      if out.Crashed? {
        return;
      }
      if out.Error? {
        out, retain := Rollback(u, base);
        TrackedIsExposedInBetween(last, u);
        return;
      }
      out := SyncPrivate(base, u);
      TrackedIsExposedInBetween(last, u);
    }

    /** Whatever a crash leaves, a name that existed is untouched and a new one is absent or whole. */
    ghost predicate Unclobbered(base: Directory, target: string, file: Inode)
      reads this
    {
      forall d | Survives(input, inputPast, d) :: d == base || (target !in base && d == base[target := file])
    }

    /** _publish_new_upload: link without clobbering, so that two publications cannot overwrite each other. */
    method PublishNew(target: string, name: string) returns (out: Outcome, retain: bool)
      requires name in private && inputPast == []
      modifies this
      ensures Unclobbered(old(input), target, old(private)[name])
      ensures out.Done? ==> target !in old(input) && input == old(input)[target := old(private)[name]] && inputPast == []
      ensures out.Done? ==> private == old(private) - {name} && privatePast == []
      ensures target in old(input) ==> !out.Done? && input == old(input)
      ensures regime.Calm? ==> (out.Done? <==> target !in old(input))
      ensures out.Error? && !retain ==> name !in private
      ensures out.Error? && raised == old(raised) ==>
        target in old(input) && !retain && private == old(private) - {name} && privatePast == []
      ensures out.Error? && raised == old(raised) + 1 && retain ==>
        inputPast == [] && input == old(input)[target := if target in old(input) then old(input)[target] else old(private)[name]]
      ensures raised >= old(raised) && (out.Done? ==> raised == old(raised) && !retain)
      ensures (out.Error? ==> regime.IoFaults? || target in old(input)) && (out.Crashed? ==> !regime.Calm?)
    {
      retain := false;
      ghost var base, file := input, private[name];
      out := Strike();
      if out.Crashed? {
        return;
      }
      if out.Error? || target in input {
        out, retain := CleanUp(name, base, target, file);
        assert Survives(input, inputPast, input);
        out := if out.Crashed? then Crashed else Error;
        return;
      }
      inputPast, input := inputPast + [input], input[target := private[name]];
      out := Strike();
      if out.Done? {
        out := Strike();
        if out.Done? {
          inputPast := [];
        }
      }
      if out.Crashed? {
        return;
      }
      if out.Error? {
        out, retain := CleanUp(name, base, target, file);
        out := if out.Crashed? then Crashed else Error;
        return;
      }
      out := Unlink(name, base, target, file);
      if out.Error? {
        retain := true;
      }
      if out.Done? {
        out := Strike();
        if out.Done? {
          privatePast := [];
        }
      }
    }

    method Unlink(name: string, ghost base: Directory, target: string, ghost file: Inode) returns (out: Outcome)
      requires Unclobbered(base, target, file)
      modifies this
      ensures Unclobbered(base, target, file) && (out.Error? ==> regime.IoFaults?) && (out.Crashed? ==> !regime.Calm?)
      ensures !out.Crashed? || !regime.PowerFailure? ==> input == old(input)
      ensures inputPast == old(inputPast) || inputPast == []
      ensures !out.Crashed? ==> inputPast == old(inputPast)
      ensures out.Done? ==> private == old(private) - {name}
      ensures raised == old(raised) + if out.Error? then 1 else 0
    {
      out := Strike();
      if out.Done? {
        privatePast := privatePast + [private];
        private := private - {name};
        out := Strike();
      }
    }

    method CleanUp(name: string, ghost base: Directory, target: string, ghost file: Inode)
      returns (out: Outcome, problem: bool)
      requires Unclobbered(base, target, file)
      modifies this
      ensures Unclobbered(base, target, file) && !out.Error? && (out.Crashed? ==> !regime.Calm?)
      ensures !out.Crashed? || !regime.PowerFailure? ==> input == old(input)
      ensures out.Crashed? ==> inputPast == old(inputPast) || inputPast == []
      ensures out.Done? && !problem ==> private == old(private) - {name} && privatePast == []
      ensures !out.Crashed? ==> inputPast == old(inputPast)
      ensures raised >= old(raised) && (out.Done? ==> (problem <==> raised > old(raised)))
    {
      problem := false;
      out := Unlink(name, base, target, file);
      if out.Crashed? {
        return;
      }
      problem := out.Error?;
      out := Strike();
      if out.Crashed? {
        return;
      }
      problem := problem || out.Error?;
      if out.Done? {
        privatePast := [];
      }
      out := Done;
    }

    /** The publication loop of accept_request: it stops at the first upload that fails. Whatever happened by then,
        and whatever a crash leaves, every file the caller had is still there under its name, unchanged or replaced
        by the whole upload of that name. */
    method PublishUploads(uploads: seq<Planned>) returns (out: Outcome, retain: bool)
      requires inputPast == [] && Publishable(uploads, 0, input, input, private, private)
      modifies this
      ensures forall d | Survives(input, inputPast, d) :: Safe(uploads, old(input), old(private), d)
      ensures out.Done? ==> forall u | u in uploads ::
        u.target in input && u.file in old(private) && input[u.target] == old(private)[u.file]
      ensures regime.Calm? ==> out.Done?
      ensures raised >= old(raised) && (out.Error? ==> raised > old(raised)) && (out.Done? ==> raised == old(raised) && !retain)
    {
      hide Publishable, Safe;
      out, retain := Done, false;
      ghost var base, files := input, private;
      for i := 0 to |uploads|
        invariant out.Done? && !retain && raised == old(raised)
        invariant inputPast == [] && Publishable(uploads, i, base, input, files, private)
      {
        out, retain := PublishNext(uploads, i, base, files);
        if !out.Done? {
          return;
        }
      }
      PublicationEnds(uploads, base, input, files, private);
    }

    method PublishNext(uploads: seq<Planned>, i: nat, ghost base: Directory, ghost files: Directory)
      returns (out: Outcome, retain: bool)
      requires i < |uploads| && inputPast == [] && Publishable(uploads, i, base, input, files, private)
      modifies this
      ensures forall d | Survives(input, inputPast, d) :: Safe(uploads, base, files, d)
      ensures out.Done? ==> inputPast == [] && Publishable(uploads, i + 1, base, input, files, private)
      ensures regime.Calm? ==> out.Done?
      ensures raised >= old(raised) && (out.Error? ==> raised > old(raised)) && (out.Done? ==> raised == old(raised) && !retain)
    {
      hide Publishable, Safe;
      NextUpload(uploads, i, base, input, files, private);
      var u := uploads[i];
      if u.existing {
        out, retain := ReplaceExisting(Upload(u.target, u.file, u.backup, input[u.target], private[u.file]));
        ReplacedIsSafe(uploads, i, base, old(input), input, inputPast, files);
      } else {
        out, retain := PublishNew(u.target, u.file);
        PublishedIsSafe(uploads, i, base, old(input), input, inputPast, files);
      }
      if out.Done? {
        PublicationGoesOn(uploads, i, base, old(input), input, files, old(private), private);
      }
    }
  }

  /** One upload of a request: where it goes, where its bytes are, and whether the caller already has the name. */
  datatype Planned = Planned(target: string, file: string, backup: string, existing: bool)

  /** `d` holds the caller's files, some replaced by the uploads of their names. */
  ghost predicate Safe(uploads: seq<Planned>, base: Directory, files: Directory, d: Directory) {
    && (forall n | n in base :: n in d && (d[n] == base[n] || Uploaded(uploads, files, n, d[n])))
    && (forall n | n in d && n !in base :: Uploaded(uploads, files, n, d[n]))
  }

  ghost predicate Uploaded(uploads: seq<Planned>, files: Directory, name: string, file: Inode) {
    exists u :: u in uploads && u.target == name && u.file in files && files[u.file] == file
  }

  /** Uploads from `n` on are still to be published. */
  ghost predicate Publishable(
    uploads: seq<Planned>, n: nat, base: Directory, input: Directory, files: Directory, private: Directory)
  {
    && n <= |uploads| && Safe(uploads, base, files, input)
    && (forall i, j | 0 <= i < j < |uploads| ::
          && uploads[i].target != uploads[j].target && uploads[i].file != uploads[j].file
          && uploads[i].backup != uploads[j].file && uploads[i].file != uploads[j].backup)
    && (forall i | 0 <= i < |uploads| ::
          uploads[i].file in files && uploads[i].file != uploads[i].backup && uploads[i].backup !in files)
    && (forall x | x in private :: x in files && private[x] == files[x])
    && (forall i | n <= i < |uploads| ::
          && uploads[i].file in private && (uploads[i].existing <==> uploads[i].target in input)
          && (uploads[i].existing ==> input[uploads[i].target] != files[uploads[i].file]))
    && (forall i | 0 <= i < n ::
          uploads[i].target in input && input[uploads[i].target] == files[uploads[i].file])
  }

  /** Whether the private directory was synced between the link and the rename decides it: synced, the old bytes
      survive a power failure at that point; as the code has it, they may not. */
  lemma BackupSyncDecides(input: Directory, private: Directory, u: Upload, synced: bool)
    requires u.Distinct() && u.target in input && input[u.target] == u.before
    requires u.file in private && private[u.file] == u.after && u.backup !in private
    ensures var linked := private[u.backup := u.before];
      var moved := Renamed(linked, input, u.file, u.target);
      var past := if synced then [linked] else [private, linked];
      Exposed(Contents(moved.1, [input], moved.0, past), u) <==> !synced
  {
    var linked := private[u.backup := u.before];
    var moved := Renamed(linked, input, u.file, u.target);
    if !synced {
      assert Survives(moved.1, [input], moved.1) && Survives(moved.0, [private, linked], private);
      assert !Reachable(moved.1, private, u);
    }
  }

  /** A rollback that could not sync the caller's directory, and cleaned up without a problem, reports the old file
      restored and does not retain the private tree; a power failure may still bring the new file back, and then
      the old one has no name. */
  lemma RestoredNameMayBeUndone(input: Directory, private: Directory, u: Upload)
    requires u.Distinct() && u.target in input && input[u.target] == u.before
    requires u.file in private && private[u.file] == u.after && u.backup !in private
    ensures var moved := Renamed(private[u.backup := u.before], input, u.file, u.target);
      var restored := Renamed(moved.0, moved.1, u.backup, u.target);
      && restored.1[u.target] == u.before
      && Exposed(Contents(restored.1, [input, moved.1], restored.0 - {u.file}, []), u)
  {
    var moved := Renamed(private[u.backup := u.before], input, u.file, u.target);
    var restored := Renamed(moved.0, moved.1, u.backup, u.target);
    assert Survives(restored.1, [input, moved.1], moved.1);
    assert !Reachable(moved.1, restored.0 - {u.file}, u);
  }

  lemma TrackedIsExposedInBetween(c: Contents, u: Upload)
    requires u.Distinct() && Tracked(c, u)
    ensures ExposedInBetween(c, u)
  {
    if c.inputPast != [] {
      var p :| Survives(c.private, c.privatePast, p) && u.backup !in p;
      var d :| Survives(c.input, c.inputPast, d) && u.target in d && d[u.target] == u.after;
      assert !Reachable(d, p, u);
    }
  }

  lemma RenamingIsSteady(live: Directory, past: seq<Directory>, after: Directory, base: Directory, u: Upload)
    requires forall d | Survives(live, past, d) ::
      u.target in d && d[u.target] in {u.before, u.after} && SameBut(d, base, u.target)
    requires after == live || (u.target in after && after[u.target] in {u.before, u.after}
                               && after == live[u.target := after[u.target]])
    ensures forall d | Survives(after, past + [live], d) ::
      u.target in d && d[u.target] in {u.before, u.after} && SameBut(d, base, u.target)
  {
    forall d | Survives(after, past + [live], d)
      ensures u.target in d && d[u.target] in {u.before, u.after} && SameBut(d, base, u.target)
    {
      if d != after {
        assert Survives(live, past, d);
      } else {
        assert Survives(live, past, live);
        assert after - {u.target} == live - {u.target};
      }
    }
  }

  /** What publishing the next upload may rely on. */
  lemma NextUpload(
    uploads: seq<Planned>, n: nat, base: Directory, input: Directory, files: Directory, private: Directory)
    requires Publishable(uploads, n, base, input, files, private) && n < |uploads|
    ensures Safe(uploads, base, files, input)
    ensures var u := uploads[n];
      && u.file in private && u.file in files && private[u.file] == files[u.file]
      && u.file != u.backup && u.backup !in private
      && (u.existing <==> u.target in input) && (u.existing ==> input[u.target] != private[u.file])
  {
    hide Safe;
  }

  lemma PublicationGoesOn(
    uploads: seq<Planned>, n: nat, base: Directory, before: Directory, after: Directory, files: Directory,
    held: Directory, private: Directory)
    requires Publishable(uploads, n, base, before, files, held) && n < |uploads|
    requires after == before[uploads[n].target := files[uploads[n].file]] && Safe(uploads, base, files, after)
    requires private == held - {uploads[n].file} || private == held - {uploads[n].backup, uploads[n].file}
    ensures Publishable(uploads, n + 1, base, after, files, private)
  {
    hide Safe;
  }

  lemma PublicationEnds(
    uploads: seq<Planned>, base: Directory, input: Directory, files: Directory, private: Directory)
    requires Publishable(uploads, |uploads|, base, input, files, private)
    ensures Safe(uploads, base, files, input)
    ensures forall u | u in uploads :: u.target in input && u.file in files && input[u.target] == files[u.file]
  {
    hide Safe;
  }

  lemma OthersUnchanged(a: Directory, b: Directory, name: string)
    requires SameBut(a, b, name)
    ensures forall x | x != name :: (x in a <==> x in b) && (x in a ==> a[x] == b[x])
  {
    forall x | x != name ensures (x in a <==> x in b) && (x in a ==> a[x] == b[x]) {
      assert x in a <==> x in a - {name};
      assert x in b <==> x in b - {name};
      assert x in a ==> (a - {name})[x] == a[x];
      assert x in b ==> (b - {name})[x] == b[x];
    }
  }

  lemma StillSafe(uploads: seq<Planned>, i: nat, base: Directory, before: Directory, d: Directory, files: Directory)
    requires i < |uploads| && Safe(uploads, base, files, before) && uploads[i].file in files
    requires SameBut(d, before, uploads[i].target)
    requires uploads[i].target in before ==> uploads[i].target in d
    requires uploads[i].target in d ==>
      d[uploads[i].target] == files[uploads[i].file]
      || (uploads[i].target in before && d[uploads[i].target] == before[uploads[i].target])
    ensures Safe(uploads, base, files, d)
  {
    OthersUnchanged(d, before, uploads[i].target);
    assert uploads[i] in uploads;
  }

  lemma ReplacedIsSafe(
    uploads: seq<Planned>, i: nat, base: Directory, before: Directory, live: Directory, past: seq<Directory>,
    files: Directory)
    requires i < |uploads| && Safe(uploads, base, files, before) && uploads[i].file in files
    requires uploads[i].target in before
    requires forall d | Survives(live, past, d) ::
      uploads[i].target in d && d[uploads[i].target] in {before[uploads[i].target], files[uploads[i].file]}
      && SameBut(d, before, uploads[i].target)
    ensures forall d | Survives(live, past, d) :: Safe(uploads, base, files, d)
  {
    forall d | Survives(live, past, d) ensures Safe(uploads, base, files, d) {
      StillSafe(uploads, i, base, before, d, files);
    }
  }

  lemma PublishedIsSafe(
    uploads: seq<Planned>, i: nat, base: Directory, before: Directory, live: Directory, past: seq<Directory>,
    files: Directory)
    requires i < |uploads| && Safe(uploads, base, files, before) && uploads[i].file in files
    requires forall d | Survives(live, past, d) ::
      d == before || (uploads[i].target !in before && d == before[uploads[i].target := files[uploads[i].file]])
    ensures forall d | Survives(live, past, d) :: Safe(uploads, base, files, d)
  {
    forall d | Survives(live, past, d) ensures Safe(uploads, base, files, d) {
      if d != before {
        assert d - {uploads[i].target} == before - {uploads[i].target};
        StillSafe(uploads, i, base, before, d, files);
      }
    }
  }
}
