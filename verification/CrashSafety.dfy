/** The store process and its disk, with crashes and save failures anywhere. */
module CrashSafety {
  import opened Prelude
  import opened JsonValues
  import opened JsonText
  import opened TicketStore
  import opened StoreFile

  /** state.json, and the temporary files under their unique numbers. */
  datatype Disk = Disk(file: Option<string>, temps: map<nat, string>)

  /** Where the one operation holding the store lock stands. */
  datatype Phase =
    | Idle
    | Changed                   // memory updated, nothing written
    | Writing(temp: nat)        // the temporary file is open
    | Synced(temp: nat)         // fully written, flushed and fsynced
    | Replaced                  // os.replace done, not yet returned

  datatype Machine = Machine(
    up: bool,
    mem: StoreState,
    phase: Phase,
    disk: Disk,
    // history
    saved: StoreState,          // memory at the last completed os.replace
    acked: seq<StoreState>      // memory at each normal return to a caller
  )

  datatype Step =
    | Start(op: StoreOp)        // an operation changes memory
    | CreateTemp(temp: nat)
    | WriteMore(more: nat)      // json.dump hands over the next characters
    | Sync
    | Replace
    | Return
    | Fail                      // an exception: unlink the temporary file and re-raise
    | Crash
    | Restart(loaded: StoreState)

  function Initial(): Machine {
    Machine(true, EMPTY_STORE, Idle, Disk(None, map[]), EMPTY_STORE, [])
  }

  predicate CanStep(m: Machine, step: Step) {
    match step
    case Start(_) => m.up && m.phase.Idle?
    case CreateTemp(temp) => m.up && m.phase.Changed? && temp !in m.disk.temps
    case WriteMore(more) =>
      && m.up && m.phase.Writing? && m.phase.temp in m.disk.temps
      && |m.disk.temps[m.phase.temp]| + more <= |FileText(m.mem)|
    case Sync =>
      && m.up && m.phase.Writing? && m.phase.temp in m.disk.temps
      && |m.disk.temps[m.phase.temp]| == |FileText(m.mem)|
    case Replace => m.up && m.phase.Synced? && m.phase.temp in m.disk.temps
    case Return => m.up && m.phase.Replaced?
    case Fail => m.up && (m.phase.Changed? || m.phase.Writing? || m.phase.Synced?)
    case Crash => m.up
    case Restart(loaded) => !m.up && StateJson(loaded) == LoadState(m.disk.file)
  }

  function Do(m: Machine, step: Step): Machine
    requires CanStep(m, step)
  {
    match step
    case Start(op) => m.(mem := Apply(m.mem, op), phase := Changed)
    case CreateTemp(temp) => m.(phase := Writing(temp), disk := m.disk.(temps := m.disk.temps[temp := ""]))
    case WriteMore(more) =>
      var written := |m.disk.temps[m.phase.temp]| + more;
      m.(disk := m.disk.(temps := m.disk.temps[m.phase.temp := FileText(m.mem)[..written]]))
    case Sync => m.(phase := Synced(m.phase.temp))
    case Replace =>
      m.(phase := Replaced, saved := m.mem,
         disk := Disk(Some(m.disk.temps[m.phase.temp]), m.disk.temps - {m.phase.temp}))
    case Return => m.(phase := Idle, acked := m.acked + [m.mem])
    case Fail =>
      m.(phase := Idle,
         disk := m.disk.(temps := if m.phase.Changed? then m.disk.temps else m.disk.temps - {m.phase.temp}))
    case Crash => m.(up := false, phase := Idle)
    case Restart(loaded) => m.(up := true, mem := loaded)
  }

  ghost predicate Runs(m: Machine, steps: seq<Step>, m': Machine)
    decreases |steps|
  {
    if steps == [] then m' == m
    else CanStep(m, steps[0]) && Runs(Do(m, steps[0]), steps[1..], m')
  }

  // ----- the invariant --------------------------------------------------------------

  ghost predicate TempOk(m: Machine) {
    && (m.phase.Writing? ==> m.phase.temp in m.disk.temps && m.disk.temps[m.phase.temp] <= FileText(m.mem))
    && (m.phase.Synced? ==> m.phase.temp in m.disk.temps && m.disk.temps[m.phase.temp] == FileText(m.mem))
  }

  /** The file is nothing or the whole text of the last snapshot, which memory and
      every acknowledged snapshot relate to. */
  ghost predicate Inv(m: Machine) {
    && StoreOk(m.saved) && StoreOk(m.mem)
    && (m.disk.file == None ==> m.saved == EMPTY_STORE)
    && (m.disk.file.Some? ==> m.disk.file.value == FileText(m.saved))
    && (m.up ==> Extends(m.saved, m.mem))
    && (!m.up ==> m.phase.Idle?)
    && (m.phase.Replaced? ==> m.mem == m.saved)
    && TempOk(m)
    && forall i :: 0 <= i < |m.acked| ==> Extends(m.acked[i], m.saved)
  }

  lemma InitialInv()
    ensures Inv(Initial())
  {
    EmptyIsOk();
    ExtendsItself(EMPTY_STORE);
    hide StoreOk, Extends;
  }

  lemma DiskLoads(m: Machine)
    requires Inv(m)
    ensures LoadState(m.disk.file) == StateJson(m.saved) && !Corrupt(m.disk.file)
  {
    hide StoreOk, Extends, TempOk, FileText;
    LoadInvertsSave(m.saved);
  }

  lemma StepKeeps(m: Machine, step: Step)
    requires Inv(m) && CanStep(m, step)
    ensures Inv(Do(m, step))
  {
    hide StoreOk, Extends, FileText, LoadState, StateJson, Apply;
    match step
    case Start(op) =>
      ApplyExtends(m.mem, op);
      ExtendsTrans(m.saved, m.mem, Apply(m.mem, op));
    case Replace =>
      forall i | 0 <= i < |m.acked| ensures Extends(m.acked[i], m.mem) {
        ExtendsTrans(m.acked[i], m.saved, m.mem);
      }
      ExtendsItself(m.mem);
    case Return =>
      ExtendsItself(m.saved);
    case Restart(loaded) =>
      DiskLoads(m);
      StateIsInjective(loaded, m.saved);
      ExtendsItself(m.saved);
    case _ =>
  }

  lemma {:induction false} RunKeeps(m: Machine, steps: seq<Step>, m': Machine)
    requires Inv(m) && Runs(m, steps, m')
    ensures Inv(m')
    decreases |steps|
  {
    if steps != [] {
      hide Inv, CanStep, Do;
      StepKeeps(m, steps[0]);
      RunKeeps(Do(m, steps[0]), steps[1..], m');
    }
  }

  // ----- durability --------------------------------------------------------------------

  /** After any run, reading the file gives exactly the memory at the last completed
      save; it is never torn; and it holds everything any caller was told of. */
  lemma Durability(steps: seq<Step>, m: Machine)
    requires Runs(Initial(), steps, m)
    ensures LoadState(m.disk.file) == StateJson(m.saved) && !Corrupt(m.disk.file)
    ensures StoreOk(m.saved) && forall i :: 0 <= i < |m.acked| ==> Extends(m.acked[i], m.saved)
  {
    InitialInv();
    RunKeeps(Initial(), steps, m);
    DiskLoads(m);
  }

  /** A restart is possible after any crash, and it restores that snapshot and nothing else. */
  lemma RestartRestores(steps: seq<Step>, m: Machine, loaded: StoreState)
    requires Runs(Initial(), steps, m) && !m.up
    ensures CanStep(m, Restart(loaded)) <==> loaded == m.saved
  {
    Durability(steps, m);
    hide Runs, LoadState;
    if StateJson(loaded) == StateJson(m.saved) {
      StateIsInjective(loaded, m.saved);
    }
  }

  /** An id told to a caller is never given to another ticket, across any crashes. */
  lemma AckedIdsAreNotReissued(steps: seq<Step>, m: Machine, i: nat)
    requires Runs(Initial(), steps, m) && m.up && i < |m.acked|
    ensures TicketId(m.mem.counter + 1) !in m.acked[i].tickets
    ensures forall id :: id in m.acked[i].tickets ==> id in m.mem.tickets && Grown(m.acked[i].tickets[id], m.mem.tickets[id])
  {
    InitialInv();
    RunKeeps(Initial(), steps, m);
    hide Runs, StoreOk, TicketId, FileText;
    ExtendsTrans(m.acked[i], m.saved, m.mem);
    NextIdOfOk(m.mem);
    hide Inv;
  }
}
