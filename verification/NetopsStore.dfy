/** NetopsStore as the object it is: state in memory, a file on disk, one operation
    at a time under the lock. */
module NetopsStores {
  import opened Prelude
  import opened JsonValues
  import opened JsonText
  import opened TicketStore
  import opened StoreFile
  import opened CrashSafety

  /** At which point of _save_state an exception is raised, if at all. */
  datatype Fault = NoFault | OnCreate | OnWrite(at: nat) | OnSync | OnReplace

  predicate Fails(fault: Fault, text: string) {
    fault.OnCreate? || fault.OnSync? || fault.OnReplace? || (fault.OnWrite? && fault.at < |text|)
  }

  class NetopsStore {
    var state: StoreState
    var disk: Disk

    ghost predicate Valid()
      reads this
    {
      StoreOk(state)
    }

    /** _load_state: the typed state is the one the loaded JSON denotes. */
    constructor (disk: Disk, loaded: StoreState)
      requires StateJson(loaded) == LoadState(disk.file) && StoreOk(loaded)
      ensures Valid() && state == loaded && this.disk == disk
    {
      this.disk := disk;
      state := loaded;
    }

    /** Write a temporary file, then os.replace; on any exception unlink it and re-raise. */
    method SaveState(temp: nat, fault: Fault) returns (ok: bool)
      requires temp !in disk.temps
      modifies this`disk
      ensures ok == !Fails(fault, FileText(state))
      ensures ok ==> disk == old(disk).(file := Some(FileText(state)))
      ensures !ok ==> disk == old(disk)
    {
      var text := FileText(state);
      if fault.OnCreate? {
        return false;
      }
      disk := disk.(temps := disk.temps[temp := ""]);
      var written := 0;
      while written < |text|
        invariant written <= |text|
        invariant disk.file == old(disk.file) && disk.temps == old(disk.temps)[temp := text[..written]]
        invariant fault.OnWrite? ==> written <= fault.at
      {
        if fault == OnWrite(written) {
          Unlink(temp);
          return false;
        }
        disk := disk.(temps := disk.temps[temp := disk.temps[temp] + [text[written]]]);
        written := written + 1;
        assert text[..written] == text[..written - 1] + [text[written - 1]];
      }
      assert text[..written] == text;
      if fault.OnSync? || fault.OnReplace? {
        Unlink(temp);
        return false;
      }
      disk := Disk(Some(disk.temps[temp]), disk.temps - {temp});
      assert disk.temps == old(disk.temps);
      return true;
    }

    method Unlink(temp: nat)
      modifies this`disk
      ensures disk == old(disk).(temps := old(disk.temps) - {temp})
    {
      disk := disk.(temps := disk.temps - {temp});
    }

    /** A failed save leaves the new ticket in memory and the old file on disk. */
    method CreateTicket(account: string, category: string, description: string, priority: string, now: string,
                        temp: nat, fault: Fault)
      returns (created: Option<Ticket>)
      requires Valid() && temp !in disk.temps
      modifies this
      ensures Valid() && state == Opened(old(state), account, category, description, priority, now)
      ensures Extends(old(state), state) && TicketId(state.counter) !in old(state).tickets
      ensures created.Some? <==> !Fails(fault, FileText(state))
      ensures created.Some? ==> created.value == state.tickets[TicketId(state.counter)] && disk == old(disk).(file := Some(FileText(state)))
      ensures created.None? ==> disk == old(disk)
    {
      ghost var op := OpenTicket(account, category, description, priority, now);
      hide StoreOk, Extends, TicketId, NewTicket, FileText;
      ApplyExtends(state, op);
      NextIdOfOk(state);
      var id := TicketId(state.counter + 1);
      var ticket := NewTicket(id, account, category, description, priority, now);
      state := AddTicket(state, id, ticket);
      var ok := SaveState(temp, fault);
      created := if ok then Some(ticket) else None;
    }

    /** KeyError for an unknown ticket, before anything changes. */
    method ScheduleVisit(id: string, date: string, timeWindow: string, now: string, temp: nat, fault: Fault)
      returns (visit: Option<Visit>)
      requires Valid() && temp !in disk.temps
      modifies this
      ensures Valid() && state == Apply(old(state), TicketStore.StoreOp.ScheduleVisit(id, date, timeWindow, now))
      ensures Extends(old(state), state)
      ensures visit.Some? <==> id in old(state).tickets && !Fails(fault, FileText(state))
      ensures visit.Some? ==> id in state.visits && state.visits[id] == visit.value && disk == old(disk).(file := Some(FileText(state)))
      ensures visit.None? ==> disk == old(disk)
    {
      ghost var op := TicketStore.StoreOp.ScheduleVisit(id, date, timeWindow, now);
      ApplyExtends(state, op);
      if id !in state.tickets {
        return None;
      }
      var ticket := state.tickets[id];
      var v := NewVisit(ticket, id, date, timeWindow, now);
      state := PutVisit(state, id, WithVisit(ticket, date, timeWindow, now), v);
      var ok := SaveState(temp, fault);
      visit := if ok then Some(v) else None;
    }

    /** Starting again on this disk restores the state of the last successful save. */
    lemma ReloadAfterSave(loaded: StoreState)
      requires Valid() && disk.file == Some(FileText(state)) && StateJson(loaded) == LoadState(disk.file)
      ensures loaded == state
    {
      LoadInvertsSave(state);
      StateIsInjective(loaded, state);
    }
  }
}
