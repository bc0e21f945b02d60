/** The Docker Executor's promises, over every run. */
module DockerTheorems {
  import opened Basics
  import opened DockerShared
  import opened DockerMachine
  import opened DockerInvariants

  /** Under every claim: `running` first, then at most one of `finished` and `failed`, only after an accepted one. */
  lemma TaskEventsOrdered(cfg: Config, s: State, c: nat)
    requires cfg.Valid() && Reachable(cfg, s) && c < |s.history|
    ensures Ordered(s.history[c].events)
  {
    ReachableInv(cfg, s);
  }

  /**
   * A cancellation is acknowledged before it is completed or failed, it claims the task only once completed, and its
   * watcher stops on an accepted acknowledgement only after reporting an outcome.
   */
  lemma ControlEventsOrdered(cfg: Config, s: State, c: nat)
    requires cfg.Valid() && Reachable(cfg, s) && c in s.objs
    ensures ControlOrdered(s.objs[c].controls)
    ensures s.objs[c].control == Failing ==>
              s.objs[c].controls == [ControlEvent(Acknowledged, true), ControlEvent(Completed, true)]
    ensures s.objs[c].control == Off && s.objs[c].controls != [] && s.objs[c].controls[0].accepted ==>
              |s.objs[c].controls| == 2
  {
    ReachableInv(cfg, s);
    assert ControlStage(s.objs[c]);
  }

  /** The retention delay chosen at cleanup belongs to the terminal event that was posted. */
  lemma RecordedMatchesPosted(cfg: Config, s: State, c: nat)
    requires cfg.Valid() && Reachable(cfg, s) && c in s.objs && s.objs[c].recorded.Some?
    ensures c < |s.history| && |s.history[c].events| == 2
    ensures s.history[c].events[1].kind == s.objs[c].recorded.value
  {
    ReachableInv(cfg, s);
    assert SlotEvents(s.objs[c], s.history[c].events);
  }

  // ---- Capacity ----

  /** Slots whose cleanup has not run. */
  function Uncleaned(objs: Objects): set<nat> { set c | c in objs && !objs[c].cleaned }

  lemma UncleanedCount(cfg: Config, objs: Objects, slots: map<TaskId, int>, accepted: map<TaskId, Lifecycle>)
    requires Distinct(objs, accepted) && Slots(cfg, objs, slots)
    ensures |Uncleaned(objs)| <= |slots|
  {
    var owner := map c | c in Uncleaned(objs) :: objs[c].task;
    assert owner.Keys == Uncleaned(objs);
    InjectionSize(owner, slots.Keys);
  }

  /**
   * Installed slots plus the start in flight stay within the limit, and so do the containers started and not cleaned
   * up. The counter the gate reads overshoots by one, in the one stage between installing and settling.
   */
  lemma CapacityHeld(cfg: Config, s: State)
    requires cfg.Valid() && Reachable(cfg, s)
    ensures |s.sh.slots| + (if InFlight(s.tick.stage) then 1 else 0) <= cfg.maxContainers
    ensures |Uncleaned(s.objs)| + (if s.tick.stage == Started then 1 else 0) <= cfg.maxContainers
    ensures |s.sh.slots| + s.sh.reservations > cfg.maxContainers ==>
              s.tick.stage == Installed && |s.sh.slots| == cfg.maxContainers
  {
    ReachableInv(cfg, s);
    UncleanedCount(cfg, s.objs, s.sh.slots, s.sh.accepted);
  }

  /** The reservation is taken and given back exactly once per start: the clamp at zero never fires. */
  lemma ReservationExact(cfg: Config, s: State)
    requires cfg.Valid() && Reachable(cfg, s)
    ensures s.sh.reservations == (if Holding(s.tick.stage) then 1 else 0)
    ensures DoSettle(s).Some? || DoWrite(cfg, s.sh, s.tick, UnwindReservation).Some? ==>
              s.sh.reservations == 1 && s.sh.ReleaseReservation().reservations == 0
  {
    ReachableInv(cfg, s);
  }

  // ---- One container per task ----

  lemma OneSlotPerTask(cfg: Config, s: State)
    requires cfg.Valid() && Reachable(cfg, s)
    ensures forall c, d :: c in s.objs && d in s.objs && s.objs[c].task == s.objs[d].task ==> c == d
    ensures forall c :: c in s.objs ==> c < |s.history| && s.history[c].task == s.objs[c].task
    ensures DoInstall(s).Some? ==> s.tick.task !in s.sh.slots && s.tick.claim !in s.objs
  {
    ReachableInv(cfg, s);
  }

  /** A task is claimed only while it has neither mark nor slot, so the check for a slot never finds one. */
  lemma ClaimsUnheld(cfg: Config, s: State)
    requires cfg.Valid() && Reachable(cfg, s) && Unmarked(s.tick.stage)
    ensures s.tick.task !in s.sh.accepted && s.tick.task !in s.sh.slots
  {
    ReachableInv(cfg, s);
  }

  /** A slot is out of the map only once its cleanup ran. */
  lemma CleanedBeforeRemoval(cfg: Config, s: State, c: nat)
    requires cfg.Valid() && Reachable(cfg, s) && c in s.objs && s.objs[c].task !in s.sh.slots
    ensures s.objs[c].cleaned
  {
    ReachableInv(cfg, s);
  }

  /** The task is marked and no start in progress can take the mark back. */
  ghost predicate Closed(s: State, t: TaskId) {
    t in s.sh.accepted && !(MarkedOnly(s.tick.stage) && s.tick.task == t)
  }

  /** The claims after `n` are not for `t`. */
  ghost predicate Unclaimed(history: seq<Claim>, n: nat, t: TaskId) {
    forall c :: n <= c < |history| ==> history[c].task != t
  }

  lemma ClosedByDecision(cfg: Config, s: State, d: Decision, t: TaskId)
    requires Closed(s, t) && Decide(cfg, s.sh, s.tick, d).Some?
    ensures Closed(s.(tick := Decide(cfg, s.sh, s.tick, d).value), t)
  {}

  lemma ClosedByWrite(cfg: Config, s: State, w: Write, t: TaskId)
    requires Closed(s, t) && DoWrite(cfg, s.sh, s.tick, w).Some?
    ensures var (sh, k) := DoWrite(cfg, s.sh, s.tick, w).value; Closed(s.(sh := sh, tick := k), t)
  {}

  lemma ClosedByPost(s: State, p: Post, t: TaskId, n: nat)
    requires TickMark(s.tick, s.objs, s.sh.accepted) && Closed(s, t) && DoPost(s, p).Some?
    requires Unclaimed(s.history, n, t) && n <= |s.history|
    ensures var s' := DoPost(s, p).value;
            Closed(s', t) && Unclaimed(s'.history, n, t) && n <= |s'.history|
  {}

  lemma ClosedStep(cfg: Config, s: State, a: Action, t: TaskId, n: nat)
    requires Inv(cfg, s) && Closed(s, t) && Unclaimed(s.history, n, t) && n <= |s.history|
    requires Do(cfg, s, a).Some?
    ensures var s' := Do(cfg, s, a).value;
            Closed(s', t) && Unclaimed(s'.history, n, t) && n <= |s'.history|
  {
    ClosedAct(cfg, s, a, t, n);
  }

  lemma ClosedAct(cfg: Config, s: State, a: Action, t: TaskId, n: nat)
    requires Inv(cfg, s) && Closed(s, t) && Unclaimed(s.history, n, t) && n <= |s.history|
    requires Act(cfg, s, a).Some?
    ensures var s' := Act(cfg, s, a).value;
            Closed(s', t) && Unclaimed(s'.history, n, t) && n <= |s'.history|
  {
    match a
    case Decides(d) => ClosedByDecision(cfg, s, d, t);
    case Writes(w) => ClosedByWrite(cfg, s, w, t);
    case Posts(p) => ClosedByPost(s, p, t, n);
    case Installs =>
    case Settles =>
    case Moves(c, m) => ClosedByMove(s, c, m, t, n);
    case TearsDown(c) => ClosedByTeardown(cfg, s, c, t);
  }

  lemma ClosedByMove(s: State, c: nat, m: SlotAction, t: TaskId, n: nat)
    requires Closed(s, t) && Unclaimed(s.history, n, t) && DoMove(s, c, m).Some?
    ensures var s' := DoMove(s, c, m).value;
            Closed(s', t) && Unclaimed(s'.history, n, t) && |s'.history| == |s.history|
  {}

  lemma ClosedByTeardown(cfg: Config, s: State, c: nat, t: TaskId)
    requires Closed(s, t) && DoTeardown(cfg, s, c).Some?
    ensures var s' := DoTeardown(cfg, s, c).value; Closed(s', t) && s'.history == s.history
  {}

  /** Once a task is closed no later run of the process claims it again. */
  lemma {:induction false} ClosedForever(cfg: Config, s: State, trace: seq<Action>, t: TaskId, n: nat)
    requires Inv(cfg, s) && Closed(s, t) && Unclaimed(s.history, n, t) && n <= |s.history|
    requires Exec(cfg, s, trace).Some?
    ensures var s' := Exec(cfg, s, trace).value; Closed(s', t) && Unclaimed(s'.history, n, t)
    decreases |trace|
  {
    if trace != [] {
      ClosedStep(cfg, s, trace[0], t, n);
      StepKeeps(cfg, s, trace[0]);
      ClosedForever(cfg, Do(cfg, s, trace[0]).value, trace[1..], t, n);
    }
  }

  /** After its container starts, a task is never claimed again in this process. */
  lemma InstalledNeverReclaimed(cfg: Config, s: State, c: nat, trace: seq<Action>)
    requires cfg.Valid() && Reachable(cfg, s) && c in s.objs && Exec(cfg, s, trace).Some?
    ensures Unclaimed(Exec(cfg, s, trace).value.history, |s.history|, s.objs[c].task)
  {
    ReachableInv(cfg, s);
    ClosedForever(cfg, s, trace, s.objs[c].task, |s.history|);
  }

  /** Every retry of a claim that has not been granted carries the same command id. */
  lemma RetriesKeepCommand(cfg: Config, s: State, reply: Reply)
    requires cfg.Valid() && Reachable(cfg, s) && DoPost(s, PostClaim(reply)).Some?
    ensures s.tick.command != ""
    ensures s.tick.task in s.tried ==> s.tick.command == s.tried[s.tick.task]
  {
    ReachableInv(cfg, s);
  }

  // ---- Ports ----

  lemma PortsDistinct(cfg: Config, s: State)
    requires cfg.Valid() && Reachable(cfg, s)
    ensures forall t :: t in s.sh.slots ==> InRange(cfg, s.sh.slots[t])
    ensures forall t, u :: t in s.sh.slots && u in s.sh.slots && t != u ==> s.sh.slots[t] != s.sh.slots[u]
    ensures HasPort(s.tick.stage) ==> InRange(cfg, s.tick.port) && s.tick.port !in s.sh.slots.Values
  {
    ReachableInv(cfg, s);
  }

  /** A start that passed the gate always has a port left in the range. */
  lemma SomePortFree(cfg: Config, s: State)
    requires cfg.Valid() && Inv(cfg, s) && InFlight(s.tick.stage)
    ensures exists p :: InRange(cfg, p) && p !in s.sh.slots.Values
  {
    var range := Range(cfg.portStart, cfg.portEnd + 1);
    ValuesSize(s.sh.slots);
    if forall p :: InRange(cfg, p) ==> p in s.sh.slots.Values {
      assert forall p :: p in range ==> InRange(cfg, p);
      SubsetSize(range, s.sh.slots.Values);
      assert false;
    }
  }

  /** Allocation fails exactly when every idle port of the range has slipped below `nextPort`, and one has. */
  lemma AllocationFails(cfg: Config, s: State)
    requires cfg.Valid() && Reachable(cfg, s) && s.tick.stage == Prepared
    ensures s.sh.AllocatePort(cfg).None? <==>
              (forall p :: InRange(cfg, p) && p !in s.sh.slots.Values ==> p < s.sh.nextPort)
    ensures exists p :: InRange(cfg, p) && p !in s.sh.slots.Values
  {
    ReachableInv(cfg, s);
    SomePortFree(cfg, s);
    if s.sh.AllocatePort(cfg).None? {
      assert forall p :: s.sh.nextPort <= p <= cfg.portEnd ==> p in s.sh.slots.Values;
    } else {
      var p := s.sh.FreePort(cfg).value;
      assert InRange(cfg, p) && p !in s.sh.slots.Values && p >= s.sh.nextPort;
    }
  }

  /** Giving the port back in the same critical section as the removal would rule the failure out. */
  lemma AtomicRemovalNeverFails(cfg: Config, s: State)
    requires cfg.Valid() && cfg.teardown == RemoveAndRelease
    requires Reachable(cfg, s) && s.tick.stage == Prepared
    ensures s.sh.AllocatePort(cfg).Some?
  {
    ReachableInv(cfg, s);
    SomePortFree(cfg, s);
    var p :| InRange(cfg, p) && p !in s.sh.slots.Values;
    assert p >= s.sh.nextPort;
  }
}
