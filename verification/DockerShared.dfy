/** The Docker Executor's mutex-protected state and its critical sections as pure functions. */
module DockerShared {
  import opened Basics

  type TaskId = string
  type CommandId = string

  /** `taskLifecycleNone` is the absence of the key. */
  datatype Lifecycle = Running | Terminal

  /** When a slot's teardown gives its host port back. `ReleaseFirst` is the deployed order. */
  datatype Teardown = ReleaseFirst | RemoveThenRelease | RemoveAndRelease

  datatype Config = Config(maxContainers: int, portStart: int, portEnd: int, teardown: Teardown) {
    /** The capacity and port checks of `Config.Validate`. */
    predicate Valid() {
      && maxContainers >= 1
      && portEnd > portStart
      && portEnd - portStart + 1 >= maxContainers
    }
  }

  /** The lowest port in `from..end` that is not in `used`. */
  function FirstFree(used: set<int>, from: int, end: int): (r: Option<int>)
    ensures r.None? <==> (forall p :: from <= p <= end ==> p in used)
    ensures r.Some? ==> from <= r.value <= end && r.value !in used
    ensures r.Some? ==> forall p :: from <= p < r.value ==> p in used
    decreases end - from
  {
    if from > end then None
    else if from !in used then Some(from)
    else FirstFree(used, from + 1, end)
  }

  datatype Shared = Shared(
    slots: map<TaskId, int>,          // installed task -> host port of its slot
    nextPort: int,
    accepted: map<TaskId, Lifecycle>,
    reservations: nat,
    commandIDs: map<TaskId, CommandId>)
  {
    function FreeSlots(cfg: Config): int { cfg.maxContainers - |slots| - reservations }

    /** `markAcceptedV0002`: refused when the task already carries a mark. */
    function MarkAccepted(t: TaskId): Option<Shared> {
      if t in accepted then None else Some(this.(accepted := accepted[t := Running]))
    }

    function MarkTerminal(t: TaskId): Shared { this.(accepted := accepted[t := Terminal]) }

    /** `terminalizeAcceptedV0002`: forget the mark and the command id. */
    function Forget(t: TaskId): Shared {
      this.(accepted := accepted - {t}, commandIDs := commandIDs - {t})
    }

    function ForgetCommand(t: TaskId): Shared { this.(commandIDs := commandIDs - {t}) }

    function Reserve(): Shared { this.(reservations := reservations + 1) }

    /** The decrement is clamped at zero. */
    function ReleaseReservation(): Shared {
      if reservations > 0 then this.(reservations := reservations - 1) else this
    }

    /** `commandIDFor`: the stored non-empty id, else `minted`. */
    function WithCommand(t: TaskId, minted: CommandId): Shared {
      if t in commandIDs && commandIDs[t] != "" then this
      else this.(commandIDs := commandIDs[t := minted])
    }

    function AddSlot(t: TaskId, port: int): Shared { this.(slots := slots[t := port]) }

    function RemoveSlot(t: TaskId): Shared { this.(slots := slots - {t}) }

    function FreePort(cfg: Config): Option<int> { FirstFree(slots.Values, nextPort, cfg.portEnd) }

    /** `allocatePort`: the scan starts at `nextPort` and skips installed slots only. */
    function AllocatePort(cfg: Config): Option<(Shared, int)> {
      match FreePort(cfg)
      case None => None
      case Some(p) => Some((this.(nextPort := p + 1), p))
    }

    function ReleasePort(port: int): Shared {
      if port < nextPort then this.(nextPort := port) else this
    }
  }
}
