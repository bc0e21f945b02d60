/** The Docker Executor object: one method per critical section of its mutex. */
module DockerExecutor {
  import opened Basics
  import opened DockerShared

  /** One started container. The terminal flag and the cleanup latch are the racy fields. */
  class TaskSlot {
    const taskId: TaskId
    const hostPort: int
    var terminal: bool
    var cleaned: bool

    constructor (taskId: TaskId, hostPort: int)
      ensures this.taskId == taskId && this.hostPort == hostPort
      ensures !terminal && !cleaned
    {
      this.taskId, this.hostPort := taskId, hostPort;
      terminal, cleaned := false, false;
    }

    /** True for the first caller only. */
    method ClaimTerminal() returns (won: bool)
      modifies this`terminal
      ensures terminal
      ensures won <==> !old(terminal)
    {
      if terminal { return false; }
      terminal := true;
      return true;
    }

    /** `sync.Once`: the stop-then-kill pair runs for the first caller only. */
    method Cleanup() returns (ran: bool)
      modifies this`cleaned
      ensures cleaned
      ensures ran <==> !old(cleaned)
    {
      ran := !cleaned;
      cleaned := true;
    }
  }

  class Executor {
    const cfg: Config
    var slots: map<TaskId, TaskSlot>
    var nextPort: int
    var accepted: map<TaskId, Lifecycle>
    var slotReservations: nat
    var commandIDs: map<TaskId, CommandId>

    function View(): Shared
      reads this
    {
      Shared(map t | t in slots :: slots[t].hostPort, nextPort, accepted, slotReservations, commandIDs)
    }

    constructor (cfg: Config)
      ensures this.cfg == cfg
      ensures View() == Shared(map[], cfg.portStart, map[], 0, map[])
    {
      this.cfg := cfg;
      slots, nextPort, accepted, slotReservations, commandIDs := map[], cfg.portStart, map[], 0, map[];
    }

    method FreeSlots() returns (n: int)
      ensures n == View().FreeSlots(cfg)
    {
      assert View().slots.Keys == slots.Keys;
      n := cfg.maxContainers - |slots.Keys| - slotReservations;
    }

    method MarkAcceptedV0002(t: TaskId) returns (ok: bool)
      modifies this`accepted
      ensures ok <==> old(View()).MarkAccepted(t).Some?
      ensures View() == if ok then old(View()).MarkAccepted(t).value else old(View())
    {
      if t in accepted { return false; }
      accepted := accepted[t := Running];
      return true;
    }

    method MarkTerminal(t: TaskId)
      modifies this`accepted
      ensures View() == old(View()).MarkTerminal(t)
    {
      accepted := accepted[t := Terminal];
    }

    method TerminalizeAcceptedV0002(t: TaskId)
      modifies this`accepted, this`commandIDs
      ensures View() == old(View()).Forget(t)
    {
      accepted := accepted - {t};
      commandIDs := commandIDs - {t};
    }

    method ReserveLocalSlot()
      modifies this`slotReservations
      ensures View() == old(View()).Reserve()
    {
      slotReservations := slotReservations + 1;
    }

    method ReleaseLocalSlotReservation()
      modifies this`slotReservations
      ensures View() == old(View()).ReleaseReservation()
    {
      if slotReservations > 0 { slotReservations := slotReservations - 1; }
    }

    /** `minted` stands for the UUID drawn when no id is stored. */
    method CommandIDFor(t: TaskId, minted: CommandId) returns (id: CommandId)
      modifies this`commandIDs
      ensures View() == old(View()).WithCommand(t, minted)
      ensures t in commandIDs && commandIDs[t] == id
    {
      if t in commandIDs && commandIDs[t] != "" { return commandIDs[t]; }
      id := minted;
      commandIDs := commandIDs[t := id];
    }

    method AddSlot(t: TaskId, slot: TaskSlot)
      modifies this`slots
      ensures View() == old(View()).AddSlot(t, slot.hostPort)
      ensures slots == old(slots)[t := slot]
    {
      slots := slots[t := slot];
    }

    method RemoveSlot(t: TaskId) returns (present: bool)
      modifies this`slots
      ensures present <==> t in old(slots)
      ensures View() == old(View()).RemoveSlot(t)
      ensures slots == old(slots) - {t}
    {
      present := t in slots;
      slots := slots - {t};
    }

    /** Does some installed slot sit on port `p`? */
    method PortUsed(p: int) returns (used: bool)
      ensures used <==> p in View().slots.Values
    {
      var todo := slots.Keys;
      used := false;
      while todo != {} && !used
        invariant todo <= slots.Keys
        invariant used ==> p in View().slots.Values
        invariant !used ==> forall t :: t in slots && t !in todo ==> slots[t].hostPort != p
        decreases |todo|, !used
      {
        var t :| t in todo;
        if slots[t].hostPort == p {
          assert View().slots[t] == p;
          used := true;
        }
        todo := todo - {t};
      }
    }

    method AllocatePort() returns (port: Option<int>)
      modifies this`nextPort
      ensures port == old(View()).FreePort(cfg)
      ensures old(View()).AllocatePort(cfg) == if port.Some? then Some((View(), port.value)) else None
      ensures port.None? ==> View() == old(View())
    {
      var p := nextPort;
      while p <= cfg.portEnd
        invariant View() == old(View())
        invariant forall q :: nextPort <= q < p ==> q in View().slots.Values
        decreases cfg.portEnd - p
      {
        var used := PortUsed(p);
        if !used {
          assert old(View()).FreePort(cfg) == Some(p);
          nextPort := p + 1;
          return Some(p);
        }
        p := p + 1;
      }
      return None;
    }

    method ReleasePort(port: int)
      modifies this`nextPort
      ensures View() == old(View()).ReleasePort(port)
    {
      if port < nextPort { nextPort := port; }
    }

    /** `terminalizeV0002Slot`, the first deferred step of a slot's teardown. */
    method TerminalizeV0002Slot(slot: TaskSlot)
      modifies this`accepted, this`nextPort, this`commandIDs, slot`terminal
      ensures slot.terminal
      ensures var marked := if old(slot.terminal) then old(View()) else old(View()).MarkTerminal(slot.taskId);
              View() == marked.ReleasePort(slot.hostPort).ForgetCommand(slot.taskId)
    {
      var won := slot.ClaimTerminal();
      if won { MarkTerminal(slot.taskId); }
      ReleasePort(slot.hostPort);
      commandIDs := commandIDs - {slot.taskId};
    }
  }
}
