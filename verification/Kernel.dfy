/** The kernel's life cycle and the configuration change that restarts it, with every step that can fail
    given as a parameter. */
module Kernel {
  import opened Wrappers

  /** The configuration file; `None` when it does not exist. */
  class ConfigFile {
    var content: Option<Bytes>

    constructor (content: Option<Bytes>)
      ensures this.content == content
    {
      this.content := content;
    }

    /** `atomicWriteFile`: the new content, or the old one untouched. */
    method Write(body: Bytes, fails: bool)
      modifies this
      ensures content == if fails then old(content) else Some(body)
    {
      if !fails {
        content := Some(body);
      }
    }

    method Remove(fails: bool)
      modifies this
      ensures content == if fails then old(content) else None
    {
      if !fails {
        content := None;
      }
    }
  }

  /** A running sing-box: which one, and the configuration it was created with. */
  datatype Box = Box(id: nat, config: Bytes)

  datatype StartFaults = StartFaults(read: bool, parse: bool, create: bool, start: bool)

  predicate Starts(faults: StartFaults) {
    !faults.read && !faults.parse && !faults.create && !faults.start
  }

  class SBInstance {
    const file: ConfigFile
    var running: bool
    var box: Option<Box>
    var hasContext: bool
    var hasCancel: bool
    var nextId: nat
    /** The boxes that were created and not closed. */
    ghost var live: set<nat>

    ghost predicate Valid()
      reads this
    {
      && (running <==> box.Some?) && (running <==> hasContext) && (running <==> hasCancel)
      && live == (if box.Some? then {box.value.id} else {})
      && (box.Some? ==> box.value.id < nextId)
    }

    /** A running kernel runs what the file says. */
    ghost predicate InSync()
      reads this, file
    {
      running && box.Some? ==> file.content == Some(box.value.config)
    }

    ghost predicate RunsWith(body: Bytes)
      reads this
    {
      running && box.Some? && box.value.config == body
    }

    constructor (file: ConfigFile)
      ensures Valid() && this.file == file && !running
    {
      this.file := file;
      running, box, hasContext, hasCancel, nextId, live := false, None, false, false, 0, {};
    }

    /** Other code rewrites the file without a restart, so the kernel may run something else than the file
        says before the call. A start of a running kernel leaves that as it is. */
    method Start(faults: StartFaults) returns (ok: bool)
      requires Valid()
      modifies this
      ensures Valid()
      ensures ok <==> old(running) || (file.content.Some? && Starts(faults))
      ensures old(running) ==> box == old(box) && running
      ensures !old(running) ==> (running <==> ok) && InSync()
      ensures !old(running) && ok ==> file.content.Some? && RunsWith(file.content.value)
      ensures old(InSync()) ==> InSync()
    {
      if running {
        return true;
      }
      if file.content.None? || faults.read {
        return false;
      }
      var configData := file.content.value;
      if faults.parse || faults.create {
        return false;
      }
      var instance := Box(nextId, configData);
      nextId, live := nextId + 1, live + {instance.id};
      if faults.start {
        live := live - {instance.id};
        return false;
      }
      box := Some(instance);
      hasContext := true;
      hasCancel := true;
      running := true;
      return true;
    }

    /** Closing may report an error; the instance is stopped all the same. */
    method Stop(closeFails: bool) returns (ok: bool)
      requires Valid()
      modifies this
      ensures Valid() && !running
      ensures ok <==> !(old(running) && closeFails)
    {
      if !running || box.None? {
        return true;
      }
      live := live - {box.value.id};
      box := None;
      hasContext := false;
      if hasCancel {
        hasCancel := false;
      }
      running := false;
      return !closeFails;
    }

    method Restart(closeFails: bool, faults: StartFaults) returns (ok: bool)
      requires Valid()
      modifies this
      ensures Valid() && InSync()
      ensures ok <==> !(old(running) && closeFails) && file.content.Some? && Starts(faults)
      ensures running <==> ok
      ensures ok ==> file.content.Some? && RunsWith(file.content.value)
    {
      ok := Stop(closeFails);
      if !ok {
        return false;
      }
      ok := Start(faults);
    }
  }

  datatype Status = StatusOk | StatusRolledBack

  datatype Error = InvalidConfig | ReadFailed | WriteFailed | RollbackFailed | RestartFailed

  /** Which steps of one configuration change fail. */
  datatype Faults = Faults(
    invalid: bool, read: bool, write: bool, close: bool, start: StartFaults,
    rollback: bool, closeAgain: bool, startAgain: StartFaults)

  class ConfigHandler {
    const file: ConfigFile
    const instance: SBInstance?

    constructor (file: ConfigFile, instance: SBInstance?)
      requires instance != null ==> instance.file == file
      ensures this.file == file && this.instance == instance
    {
      this.file, this.instance := file, instance;
    }

    ghost predicate Valid()
      reads this, file, instance
    {
      instance != null ==> instance.file == file && instance.Valid()
    }

    /** The new file was written and the kernel did not restart on it. */
    ghost predicate FailsToRestart(shouldValidate: bool, faults: Faults)
      reads this, file, instance
    {
      && !(shouldValidate && faults.invalid) && !(faults.read && file.content.Some?) && !faults.write
      && instance != null && ((instance.running && faults.close) || !Starts(faults.start))
    }

    /** `applyConfigBytes`: write, restart, and on failure write back and restart again. */
    method ApplyConfigBytes(body: Bytes, shouldValidate: bool, faults: Faults) returns (r: Result<Status, Error>)
      requires Valid()
      modifies file, instance
      ensures Valid()
      // The new configuration is in force.
      ensures r == Ok(StatusOk) ==>
                file.content == Some(body) && (instance != null ==> instance.RunsWith(body))
      // The previous content of the file is back, in the file and in the kernel; there was one. The kernel
      // need not have run it before: a sync may have written it since.
      ensures r == Ok(StatusRolledBack) ==>
                instance != null && old(file.content).Some? && file.content == old(file.content)
                && instance.RunsWith(old(file.content).value)
      // Refused before anything was touched.
      ensures r.Err? && r.error in {InvalidConfig, ReadFailed, WriteFailed} ==>
                file.content == old(file.content)
                && (instance != null ==> instance.running == old(instance.running) && instance.box == old(instance.box))
      // In every other case a kernel that runs at the end runs what the file says.
      ensures instance != null && !(r.Err? && r.error in {InvalidConfig, ReadFailed, WriteFailed}) ==> instance.InSync()
      // The kernel is down: the file could not be restored, or it was and did not start either.
      ensures r == Err(RollbackFailed) ==> instance != null && !instance.running && file.content == Some(body)
      ensures r == Err(RestartFailed) ==> instance != null && !instance.running && file.content == old(file.content)
      // Exactly when each outcome occurs. Closing cannot fail the second time: no kernel runs by then.
      ensures r == Err(InvalidConfig) <==> shouldValidate && faults.invalid
      ensures r == Err(ReadFailed) <==>
                !(shouldValidate && faults.invalid) && faults.read && old(file.content).Some?
      ensures r == Err(WriteFailed) <==>
                !(shouldValidate && faults.invalid) && !(faults.read && old(file.content).Some?) && faults.write
      ensures r == Ok(StatusOk) <==>
                !(shouldValidate && faults.invalid) && !(faults.read && old(file.content).Some?) && !faults.write
                && (instance == null || (!(old(instance.running) && faults.close) && Starts(faults.start)))
      ensures r == Err(RollbackFailed) <==> old(FailsToRestart(shouldValidate, faults)) && faults.rollback
      ensures r == Ok(StatusRolledBack) <==>
                old(FailsToRestart(shouldValidate, faults)) && !faults.rollback
                && old(file.content).Some? && Starts(faults.startAgain)
      ensures r == Err(RestartFailed) <==>
                old(FailsToRestart(shouldValidate, faults)) && !faults.rollback
                && !(old(file.content).Some? && Starts(faults.startAgain))
    {
      if shouldValidate && faults.invalid {
        return Err(InvalidConfig);
      }
      var previousBody := file.content;
      if previousBody.Some? && faults.read {
        return Err(ReadFailed);
      }
      file.Write(body, faults.write);
      if faults.write {
        return Err(WriteFailed);
      }
      if instance == null {
        return Ok(StatusOk);
      }
      var restarted := instance.Restart(faults.close, faults.start);
      if restarted {
        return Ok(StatusOk);
      }
      if previousBody.Some? {
        file.Write(previousBody.value, faults.rollback);
      } else {
        file.Remove(faults.rollback);
      }
      if faults.rollback {
        return Err(RollbackFailed);
      }
      var restored := instance.Restart(faults.closeAgain, faults.startAgain);
      if !restored {
        return Err(RestartFailed);
      }
      return Ok(StatusRolledBack);
    }
  }

  const NO_FAULT := StartFaults(false, false, false, false)

  /** The kernel runs `a`, someone else writes `b` to the file, and a change to `c` does not start: the change
      is rolled back, and the kernel ends up on `b`, which it never ran. */
  method RolledBackToUnseen(a: Bytes, b: Bytes, c: Bytes)
    returns (before: Option<Box>, r: Result<Status, Error>, after: Option<Box>)
    ensures before.Some? && before.value.config == a
    ensures r == Ok(StatusRolledBack)
    ensures after.Some? && after.value.config == b
  {
    var file := new ConfigFile(Some(a));
    var instance := new SBInstance(file);
    var handler := new ConfigHandler(file, instance);
    var started := instance.Start(NO_FAULT);
    before := instance.box;
    file.Write(b, false);
    r := handler.ApplyConfigBytes(c, false, Faults(false, false, false, false, NO_FAULT.(start := true), false, false,
                                                   NO_FAULT));
    after := instance.box;
  }
}

/** The same operations with their steps interleaved: the file is written outside the lock of the
    instance, and a restart takes that lock twice. */
module KernelInterleaving {
  import opened Wrappers
  import opened Kernel

  /** Where a goroutine stands. `previous` is what it read before its write. */
  datatype PC =
    | Idle
    | BeforeRead(body: Bytes)
    | BeforeWrite(body: Bytes, previous: Option<Bytes>)
    | BeforeStop(previous: Option<Bytes>, rolledBack: bool)
    | BeforeStart(previous: Option<Bytes>, rolledBack: bool)
    | Starting(previous: Option<Bytes>, rolledBack: bool, read: Bytes)
    | BeforeRollback(previous: Option<Bytes>)
    | PlainStop(thenStart: bool)
    | PlainStart
    | PlainStarting(read: Bytes)

  /** The file, the box of the instance, and the goroutines. A goroutine in the middle of a start holds the
      lock of the instance. `outside` records whether anyone else, such as a sync, has written the file
      since a start last read it. */
  datatype State = State(file: Option<Bytes>, box: Option<Bytes>, threads: map<nat, PC>, outside: bool)

  function At(st: State, t: nat): PC {
    if t in st.threads then st.threads[t] else Idle
  }

  predicate IsStarting(pc: PC) {
    pc.Starting? || pc.PlainStarting?
  }

  ghost predicate LockFree(st: State) {
    forall t :: t in st.threads ==> !IsStarting(st.threads[t])
  }

  function Goto(st: State, t: nat, pc: PC): State {
    st.(threads := st.threads[t := pc])
  }

  /** One step of goroutine `t`. Where a step can fail, both outcomes are steps. */
  ghost predicate Step(st: State, t: nat, next: State) {
    match At(st, t)
    case Idle =>
      exists pc: PC ::
        (pc.BeforeRead? || pc.PlainStop? || pc.PlainStart?) && next == Goto(st, t, pc)
    case BeforeRead(body) =>
      next == Goto(st, t, BeforeWrite(body, st.file)) || next == Goto(st, t, Idle)
    case BeforeWrite(body, previous) =>
      next == Goto(st.(file := Some(body)), t, BeforeStop(previous, false)) || next == Goto(st, t, Idle)
    case BeforeStop(previous, rolledBack) =>
      LockFree(st)
      && (next == Goto(st.(box := None), t, BeforeStart(previous, rolledBack))
          || next == Goto(st.(box := None), t, Failed(previous, rolledBack)))
    case BeforeStart(previous, rolledBack) =>
      LockFree(st)
      && (if st.box.Some? then next == Goto(st, t, Idle)
          else (st.file.Some? && next == Goto(st.(outside := false), t, Starting(previous, rolledBack, st.file.value)))
               || next == Goto(st, t, Failed(previous, rolledBack)))
    case Starting(previous, rolledBack, read) =>
      next == Goto(st.(box := Some(read)), t, Idle) || next == Goto(st, t, Failed(previous, rolledBack))
    case BeforeRollback(previous) =>
      next == Goto(st.(file := previous), t, BeforeStop(previous, true)) || next == Goto(st, t, Idle)
    case PlainStop(thenStart) =>
      LockFree(st)
      && (next == Goto(st.(box := None), t, if thenStart then PlainStart else Idle)
          || next == Goto(st.(box := None), t, Idle))
    case PlainStart =>
      LockFree(st)
      && (if st.box.Some? then next == Goto(st, t, Idle)
          else (st.file.Some? && next == Goto(st.(outside := false), t, PlainStarting(st.file.value)))
               || next == Goto(st, t, Idle))
    case PlainStarting(read) =>
      next == Goto(st.(box := Some(read)), t, Idle) || next == Goto(st, t, Idle)
  }

  /** A write of the file that no restart follows. */
  ghost predicate OutsideWrite(st: State, next: State) {
    exists body: Bytes :: next == st.(file := Some(body), outside := true)
  }

  /** After a failed restart: roll back, unless this was the restart of a rollback. */
  function Failed(previous: Option<Bytes>, rolledBack: bool): PC {
    if rolledBack then Idle else BeforeRollback(previous)
  }

  /** A goroutine that has changed the file and not yet stopped the kernel. */
  ghost predicate OwesStop(st: State) {
    exists t :: t in st.threads && st.threads[t].BeforeStop?
  }

  function ReadBy(pc: PC): Option<Bytes> {
    if pc.Starting? then Some(pc.read) else if pc.PlainStarting? then Some(pc.read) else None
  }

  ghost predicate Invariant(st: State) {
    // At most one goroutine is starting a box, and only while none runs: at most one box is live.
    && (forall t, u | t in st.threads && u in st.threads && IsStarting(st.threads[t]) && IsStarting(st.threads[u]) ::
          t == u)
    && (forall t | t in st.threads && IsStarting(st.threads[t]) :: st.box == None)
    // A box that runs, or is being started, with something else than the file says will be stopped, unless
    // the file was written from outside.
    && (st.box.Some? && st.box != st.file ==> OwesStop(st) || st.outside)
    && (forall t | t in st.threads && IsStarting(st.threads[t]) && ReadBy(st.threads[t]) != st.file ::
          OwesStop(st) || st.outside)
  }

  lemma StillOwes(st: State, t: nat, next: State, pc: PC)
    requires OwesStop(st) && next.threads == st.threads[t := pc]
    requires !At(st, t).BeforeStop? || pc.BeforeStop?
    ensures OwesStop(next)
  {
    var u :| u in st.threads && st.threads[u].BeforeStop?;
    assert u in next.threads;
    assert next.threads[if u == t then t else u].BeforeStop?;
  }

  lemma NewlyOwes(next: State, t: nat)
    requires t in next.threads && next.threads[t].BeforeStop?
    ensures OwesStop(next)
  {}

  /** Every step of every goroutine keeps the invariant. */
  lemma {:induction false} StepKeeps(st: State, t: nat, next: State)
    requires Invariant(st) && Step(st, t, next)
    ensures Invariant(next)
  {
    var pc := At(next, t);
    assert next.threads == st.threads[t := pc];
    if pc.BeforeStop? {
      NewlyOwes(next, t);
    } else if !At(st, t).BeforeStop? && OwesStop(st) {
      StillOwes(st, t, next, pc);
    }
  }

  lemma OutsideKeeps(st: State, next: State)
    requires Invariant(st) && OutsideWrite(st, next)
    ensures Invariant(next)
  {}

  ghost predicate Steps(st: State, next: State) {
    OutsideWrite(st, next) || exists t: nat :: Step(st, t, next)
  }

  ghost predicate IsRun(trace: seq<State>) {
    trace != [] && forall i | 0 <= i < |trace| - 1 :: Steps(trace[i], trace[i + 1])
  }

  lemma {:induction false} RunKeeps(trace: seq<State>, n: nat)
    requires IsRun(trace) && Invariant(trace[0]) && n < |trace|
    ensures Invariant(trace[n])
  {
    if n > 0 {
      RunKeeps(trace, n - 1);
      var before, after := trace[n - 1], trace[n - 1 + 1];
      assert Steps(before, after);
      if OutsideWrite(before, after) {
        OutsideKeeps(before, after);
      } else {
        var t: nat :| Step(before, t, after);
        StepKeeps(before, t, after);
      }
    }
  }

  /** However many configuration changes, starts, stops, restarts and outside writes are interleaved, and
      whichever of their steps fail: a kernel that runs with another configuration than the file holds is
      still to be stopped by a goroutine that wrote the file, or the file was written from outside since it
      was last read for a start. */
  lemma {:induction false} RunningMatchesFile(trace: seq<State>, n: nat)
    requires IsRun(trace) && n < |trace|
    requires trace[0].threads == map[] && trace[0].box == None
    ensures trace[n].box.Some? ==> trace[n].box == trace[n].file || OwesStop(trace[n]) || trace[n].outside
    ensures (forall t | t in trace[n].threads :: trace[n].threads[t] == Idle)
            && trace[n].box.Some? && !trace[n].outside ==>
              trace[n].box == trace[n].file
  {
    RunKeeps(trace, n);
  }
}
