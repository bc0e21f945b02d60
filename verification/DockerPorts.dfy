/** With one container the deployed teardown order never loses a port. */
module DockerPorts {
  import opened Basics
  import opened DockerShared
  import opened DockerMachine
  import opened DockerInvariants

  /** One container on the deployed teardown order. */
  predicate OneAtATime(cfg: Config) { cfg.teardown == ReleaseFirst && cfg.maxContainers == 1 }

  predicate GivenBack(run: RunPc) { run.Forgetting? || run.Cleaning? || run.Removing? }

  /** Every start gets the first port, and the port is back before the slot goes. */
  ghost predicate FirstPort(cfg: Config, k: Tick, objs: Objects, slots: map<TaskId, int>, nextPort: int) {
    && (HasPort(k.stage) ==> k.port == cfg.portStart)
    && (forall c :: c in objs ==> objs[c].port == cfg.portStart)
    && (slots == map[] && !HasPort(k.stage) ==> nextPort == cfg.portStart)
    && (forall c :: c in objs && GivenBack(objs[c].run) ==> nextPort == cfg.portStart)
  }

  lemma NoneInFlight(cfg: Config, k: Tick, slots: map<TaskId, int>, reservations: nat, t: TaskId)
    requires OneAtATime(cfg) && Capacity(cfg, k, slots, reservations) && t in slots
    ensures !InFlight(k.stage)
  {
    assert slots.Keys != {};
  }

  lemma NoneInstalled(cfg: Config, k: Tick, slots: map<TaskId, int>, reservations: nat)
    requires OneAtATime(cfg) && Capacity(cfg, k, slots, reservations) && InFlight(k.stage)
    ensures slots == map[]
  {
    assert |slots| == 0;
  }

  lemma DecideFirst(cfg: Config, s: State, d: Decision)
    requires FirstPort(cfg, s.tick, s.objs, s.sh.slots, s.sh.nextPort) && Decide(cfg, s.sh, s.tick, d).Some?
    ensures FirstPort(cfg, Decide(cfg, s.sh, s.tick, d).value, s.objs, s.sh.slots, s.sh.nextPort)
  {}

  lemma AllocateFirst(cfg: Config, s: State)
    requires cfg.Valid() && OneAtATime(cfg) && Slots(cfg, s.objs, s.sh.slots)
    requires Capacity(cfg, s.tick, s.sh.slots, s.sh.reservations) && s.tick.stage == Prepared
    requires FirstPort(cfg, s.tick, s.objs, s.sh.slots, s.sh.nextPort)
    ensures s.sh.FreePort(cfg) == Some(cfg.portStart)
    ensures forall c :: c in s.objs ==> !GivenBack(s.objs[c].run)
  {
    NoneInstalled(cfg, s.tick, s.sh.slots, s.sh.reservations);
    assert cfg.portStart !in s.sh.slots.Values;
  }

  lemma WriteFirst(cfg: Config, s: State, w: Write)
    requires cfg.Valid() && OneAtATime(cfg) && Slots(cfg, s.objs, s.sh.slots)
    requires Capacity(cfg, s.tick, s.sh.slots, s.sh.reservations)
    requires Ports(cfg, s.tick, s.objs, s.sh.slots, s.sh.nextPort)
    requires FirstPort(cfg, s.tick, s.objs, s.sh.slots, s.sh.nextPort) && DoWrite(cfg, s.sh, s.tick, w).Some?
    ensures var (sh, k) := DoWrite(cfg, s.sh, s.tick, w).value; FirstPort(cfg, k, s.objs, sh.slots, sh.nextPort)
  {
    if w.Allocate? { AllocateFirst(cfg, s); }
  }

  lemma PostFirst(cfg: Config, s: State, p: Post)
    requires FirstPort(cfg, s.tick, s.objs, s.sh.slots, s.sh.nextPort) && DoPost(s, p).Some?
    ensures var s' := DoPost(s, p).value; FirstPort(cfg, s'.tick, s'.objs, s'.sh.slots, s'.sh.nextPort)
  {}

  lemma InstallFirst(cfg: Config, s: State)
    requires FirstPort(cfg, s.tick, s.objs, s.sh.slots, s.sh.nextPort) && (DoInstall(s).Some? || DoSettle(s).Some?)
    ensures DoInstall(s).Some? ==>
              var s' := DoInstall(s).value; FirstPort(cfg, s'.tick, s'.objs, s'.sh.slots, s'.sh.nextPort)
    ensures DoSettle(s).Some? ==>
              var s' := DoSettle(s).value; FirstPort(cfg, s'.tick, s'.objs, s'.sh.slots, s'.sh.nextPort)
  {
    if DoInstall(s).Some? { assert s.tick.task in DoInstall(s).value.sh.slots; }
  }

  lemma MoveFirst(cfg: Config, s: State, c: nat, a: SlotAction)
    requires FirstPort(cfg, s.tick, s.objs, s.sh.slots, s.sh.nextPort) && DoMove(s, c, a).Some?
    ensures var s' := DoMove(s, c, a).value; FirstPort(cfg, s'.tick, s'.objs, s'.sh.slots, s'.sh.nextPort)
  {
    MovePlace(s.objs[c], a);
    var o := Move(s.objs[c], a).value.slot;
    assert o.port == s.objs[c].port && GivenBack(o.run) == GivenBack(s.objs[c].run);
    assert DoMove(s, c, a).value.objs == s.objs[c := o];
  }

  lemma TeardownFirst(cfg: Config, s: State, c: nat)
    requires OneAtATime(cfg) && Slots(cfg, s.objs, s.sh.slots)
    requires Capacity(cfg, s.tick, s.sh.slots, s.sh.reservations)
    requires Ports(cfg, s.tick, s.objs, s.sh.slots, s.sh.nextPort)
    requires FirstPort(cfg, s.tick, s.objs, s.sh.slots, s.sh.nextPort) && DoTeardown(cfg, s, c).Some?
    ensures var s' := DoTeardown(cfg, s, c).value; FirstPort(cfg, s'.tick, s'.objs, s'.sh.slots, s'.sh.nextPort)
  {
    NoneInFlight(cfg, s.tick, s.sh.slots, s.sh.reservations, s.objs[c].task);
  }

  lemma StepFirst(cfg: Config, s: State, a: Action)
    requires cfg.Valid() && OneAtATime(cfg) && Inv(cfg, s)
    requires FirstPort(cfg, s.tick, s.objs, s.sh.slots, s.sh.nextPort) && Do(cfg, s, a).Some?
    ensures var s' := Do(cfg, s, a).value; FirstPort(cfg, s'.tick, s'.objs, s'.sh.slots, s'.sh.nextPort)
  {
    ActFirst(cfg, s, a);
  }

  lemma ActFirst(cfg: Config, s: State, a: Action)
    requires cfg.Valid() && OneAtATime(cfg) && Inv(cfg, s)
    requires FirstPort(cfg, s.tick, s.objs, s.sh.slots, s.sh.nextPort) && Act(cfg, s, a).Some?
    ensures var s' := Act(cfg, s, a).value; FirstPort(cfg, s'.tick, s'.objs, s'.sh.slots, s'.sh.nextPort)
  {
    match a
    case Decides(d) => DecideFirst(cfg, s, d);
    case Writes(w) => WriteFirst(cfg, s, w);
    case Posts(p) => PostFirst(cfg, s, p);
    case Installs => InstallFirst(cfg, s);
    case Settles => InstallFirst(cfg, s);
    case Moves(c, m) => MoveFirst(cfg, s, c, m);
    case TearsDown(c) => TeardownFirst(cfg, s, c);
  }

  lemma {:induction false} RunFirst(cfg: Config, s: State, trace: seq<Action>)
    requires cfg.Valid() && OneAtATime(cfg) && Inv(cfg, s)
    requires FirstPort(cfg, s.tick, s.objs, s.sh.slots, s.sh.nextPort) && Exec(cfg, s, trace).Some?
    ensures var s' := Exec(cfg, s, trace).value;
            Inv(cfg, s') && FirstPort(cfg, s'.tick, s'.objs, s'.sh.slots, s'.sh.nextPort)
    decreases |trace|
  {
    if trace != [] {
      StepFirst(cfg, s, trace[0]);
      StepKeeps(cfg, s, trace[0]);
      RunFirst(cfg, Do(cfg, s, trace[0]).value, trace[1..]);
    }
  }

  /** One container at a time always gets the first port of the range. */
  lemma OneContainerAllocates(cfg: Config, s: State)
    requires cfg.Valid() && OneAtATime(cfg) && Reachable(cfg, s) && s.tick.stage == Prepared
    ensures s.sh.FreePort(cfg) == Some(cfg.portStart)
  {
    var trace :| Exec(cfg, Init(cfg), trace) == Some(s);
    RunFirst(cfg, Init(cfg), trace);
    AllocateFirst(cfg, s);
  }
}
