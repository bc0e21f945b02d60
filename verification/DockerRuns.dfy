/** Runs of the Docker Executor, for every configuration they apply to, that break what its comments promise. */
module DockerRuns {
  import opened Basics
  import opened DockerShared
  import opened DockerMachine
  import opened DockerInvariants
  import opened DockerTheorems
  import opened DockerStranding
  import opened DockerPorts

  // ---- Building blocks ----

  /** Ready to take up the fresh task `t`. */
  ghost predicate Fresh(cfg: Config, s: State, t: TaskId) {
    && Reachable(cfg, s) && s.tick.stage == Idle && s.sh.FreeSlots(cfg) > 0
    && t !in s.sh.accepted && t !in s.sh.slots && t !in s.sh.commandIDs
  }

  /** A task the process has never heard of. */
  lemma AnyFresh(cfg: Config, s: State) returns (t: TaskId)
    requires Reachable(cfg, s) && s.tick.stage == Idle && s.sh.FreeSlots(cfg) > 0
    ensures Fresh(cfg, s, t)
  {
    t := FreshName(s.sh.accepted.Keys + s.sh.slots.Keys + s.sh.commandIDs.Keys);
  }

  /** The shared state once `t` is marked, reserved and announced. */
  function AdmittedShared(sh: Shared, t: TaskId): Shared {
    sh.(
      accepted := sh.accepted[t := Running], reservations := sh.reservations + 1,
      commandIDs := sh.commandIDs[t := "cmd"])
  }

  lemma Start(cfg: Config) returns (s: State)
    ensures Reachable(cfg, s) && s == Init(cfg)
  {
    s := Init(cfg);
    assert Exec(cfg, s, []) == Some(s);
  }

  lemma Look(cfg: Config, s: State, t: TaskId) returns (s': State)
    requires Fresh(cfg, s, t)
    ensures Reachable(cfg, s')
    ensures s'.tick.stage == Unseen && s'.tick.task == t && s'.tick.rest == []
    ensures s'.sh == s.sh && s'.objs == s.objs && s'.history == s.history
  {
    s' := Extend(cfg, s, Decides(Discover([t])));
    s' := Extend(cfg, s', Decides(CheckCapacity));
    s' := Extend(cfg, s', Decides(CheckLifecycle));
  }

  lemma Select(cfg: Config, s: State, t: TaskId) returns (s': State)
    requires Fresh(cfg, s, t)
    ensures Reachable(cfg, s')
    ensures s'.tick.stage == Commanded && s'.tick.task == t && s'.tick.rest == [] && s'.tick.command == "cmd"
    ensures s'.sh == s.sh.(commandIDs := s.sh.commandIDs[t := "cmd"])
    ensures s'.objs == s.objs && s'.history == s.history
  {
    s' := Look(cfg, s, t);
    s' := Extend(cfg, s', Decides(CheckSlot));
    s' := Extend(cfg, s', Writes(PickCommand("cmd")));
  }

  lemma Ticket(cfg: Config, s: State, t: TaskId, scoped: bool) returns (s': State)
    requires Fresh(cfg, s, t)
    ensures Reachable(cfg, s')
    ensures s'.tick.stage == Claimed && s'.tick.task == t && s'.tick.rest == []
    ensures s'.tick.claim == |s.history| && s'.tick.scoped == scoped
    ensures s'.sh == s.sh.(commandIDs := s.sh.commandIDs[t := "cmd"]) && s'.objs == s.objs
    ensures s'.history == s.history + [Claim(t, "cmd", scoped, [])]
  {
    s' := Select(cfg, s, t);
    s' := Extend(cfg, s', Posts(PostClaim(Granted(scoped))));
  }

  lemma Grant(cfg: Config, s: State, t: TaskId, scoped: bool) returns (s': State)
    requires Fresh(cfg, s, t)
    ensures Reachable(cfg, s')
    ensures s'.tick.stage == Reserved && s'.tick.task == t && s'.tick.rest == []
    ensures s'.tick.claim == |s.history| && s'.tick.scoped == scoped
    ensures s'.sh == AdmittedShared(s.sh, t) && s'.objs == s.objs
    ensures s'.history == s.history + [Claim(t, "cmd", scoped, [])]
  {
    s' := Ticket(cfg, s, t, scoped);
    s' := Extend(cfg, s', Writes(Mark));
    s' := Extend(cfg, s', Writes(Reserve));
  }

  /** A claim under which nothing but an accepted `running` was posted. */
  function JustAnnounced(t: TaskId, scoped: bool): Claim { Claim(t, "cmd", scoped, [Event(EvRunning, true)]) }

  /** Discovery to an accepted `running` event. */
  lemma Admit(cfg: Config, s: State, t: TaskId, scoped: bool) returns (s': State)
    requires Fresh(cfg, s, t)
    ensures Reachable(cfg, s')
    ensures s'.tick.stage == Announced && s'.tick.task == t && s'.tick.rest == []
    ensures s'.tick.claim == |s.history| && s'.tick.scoped == scoped
    ensures s'.sh == AdmittedShared(s.sh, t) && s'.objs == s.objs
    ensures s'.history == s.history + [JustAnnounced(t, scoped)]
  {
    s' := Grant(cfg, s, t, scoped);
    assert s'.history[|s.history|] == Claim(t, "cmd", scoped, []);
    s' := Extend(cfg, s', Posts(PostRunning(true)));
    assert [] + [Event(EvRunning, true)] == [Event(EvRunning, true)];
  }

  /** Admitted and ready to allocate a port. */
  lemma Ask(cfg: Config, s: State, t: TaskId) returns (s': State)
    requires Fresh(cfg, s, t)
    ensures Reachable(cfg, s') && s'.tick.stage == Prepared
    ensures s'.tick.task == t && s'.tick.rest == [] && s'.tick.claim == |s.history|
    ensures s'.sh == AdmittedShared(s.sh, t) && s'.objs == s.objs
    ensures s'.history == s.history + [JustAnnounced(t, true)]
  {
    s' := Admit(cfg, s, t, true);
    s' := Extend(cfg, s', Decides(Prepare(Ready)));
  }

  lemma Pulls(cfg: Config, s: State) returns (s': State)
    requires Reachable(cfg, s) && s.tick.stage == Ported
    ensures Reachable(cfg, s') && s'.tick == s.tick.(stage := Started)
    ensures s'.sh == s.sh && s'.objs == s.objs && s'.history == s.history
  {
    s' := Extend(cfg, s, Decides(Pull(true)));
    s' := Extend(cfg, s', Decides(StartContainer(true)));
  }

  lemma Boot(cfg: Config, s: State, t: TaskId, p: int) returns (s': State)
    requires Fresh(cfg, s, t) && s.sh.FreePort(cfg) == Some(p)
    ensures Reachable(cfg, s')
    ensures s'.tick.stage == Started && s'.tick.task == t && s'.tick.rest == []
    ensures s'.tick.claim == |s.history| && s'.tick.port == p
    ensures s'.sh == AdmittedShared(s.sh, t).(nextPort := p + 1) && s'.objs == s.objs
    ensures s'.history == s.history + [JustAnnounced(t, true)]
  {
    s' := Ask(cfg, s, t);
    assert s'.sh.FreePort(cfg) == Some(p);
    s' := Extend(cfg, s', Writes(Allocate));
    s' := Pulls(cfg, s');
  }

  lemma Place(cfg: Config, s: State, t: TaskId, p: int) returns (s': State)
    requires Fresh(cfg, s, t) && s.sh.FreePort(cfg) == Some(p)
    ensures Reachable(cfg, s') && s'.tick.stage == Installed && s'.tick.rest == [] && s'.tick.claim == |s.history|
    ensures s'.sh == AdmittedShared(s.sh, t).(slots := s.sh.slots[t := p], nextPort := p + 1)
    ensures s'.objs == s.objs[|s.history| := NewSlot(t, p)]
    ensures s'.history == s.history + [JustAnnounced(t, true)]
  {
    s' := Boot(cfg, s, t, p);
    s' := Extend(cfg, s', Installs);
  }

  lemma Settle(cfg: Config, s: State) returns (s': State)
    requires Reachable(cfg, s) && s.tick.stage == Installed && s.tick.rest == [] && s.tick.claim in s.objs
    ensures Reachable(cfg, s') && s'.tick.stage == Idle && s'.history == s.history
    ensures s'.sh == s.sh.ReleaseReservation()
    ensures s'.objs == s.objs[s.tick.claim := s.objs[s.tick.claim].(run := Health, exit := Watch)]
  {
    s' := Extend(cfg, s, Settles);
    s' := Extend(cfg, s', Decides(CheckCapacity));
  }

  function Running1(t: TaskId, p: int): SlotObject { NewSlot(t, p).(run := Health, exit := Watch) }

  /** Discovery to a settled slot on port `p`. */
  lemma Launch(cfg: Config, s: State, t: TaskId, p: int) returns (s': State)
    requires Fresh(cfg, s, t) && s.sh.reservations == 0 && s.sh.FreePort(cfg) == Some(p)
    ensures Reachable(cfg, s') && s'.tick.stage == Idle
    ensures s'.sh == AdmittedShared(s.sh, t).(reservations := 0, slots := s.sh.slots[t := p], nextPort := p + 1)
    ensures s'.objs == s.objs[|s.history| := Running1(t, p)]
    ensures s'.history == s.history + [JustAnnounced(t, true)]
  {
    s' := Place(cfg, s, t, p);
    s' := Settle(cfg, s');
  }

  /** One silent step of a slot's goroutine. */
  lemma MoveStep(cfg: Config, s: State, c: nat, a: SlotAction, o: SlotObject) returns (s': State)
    requires Reachable(cfg, s) && c in s.objs && c < |s.history| && Move(s.objs[c], a) == Some(Moved(o, None))
    ensures Reachable(cfg, s') && s'.tick == s.tick && s'.sh == s.sh && s'.history == s.history
    ensures s'.objs == s.objs[c := o]
  {
    s' := Extend(cfg, s, Moves(c, a));
  }

  /** One step of a slot's teardown. */
  lemma TearStep(cfg: Config, s: State, c: nat, o: SlotObject) returns (s': State)
    requires Reachable(cfg, s) && c in s.objs && Torn(cfg, s.objs[c]) == Some(o)
    ensures Reachable(cfg, s') && s'.tick == s.tick && s'.history == s.history
    ensures s'.sh == TornShared(cfg, s.sh, s.objs[c]) && s'.objs == s.objs[c := o]
  {
    s' := Extend(cfg, s, TearsDown(c));
  }

  /** The run goroutine posts its terminal event. */
  lemma ReportStep(cfg: Config, s: State, c: nat) returns (s': State)
    requires Reachable(cfg, s) && c in s.objs && c < |s.history| && s.objs[c].run == Reporting(EvFailed, false)
    ensures Reachable(cfg, s') && s'.tick == s.tick && s'.sh == s.sh && |s'.history| == |s.history|
    ensures s'.objs == s.objs[c := s.objs[c].(run := Closing)]
  {
    s' := Extend(cfg, s, Moves(c, RunPosts(true)));
  }

  /** A failed health check, reported, up to the first teardown step after the terminal flag. */
  lemma FailHealth(cfg: Config, s: State, c: nat) returns (s': State)
    requires Reachable(cfg, s) && c in s.objs && c < |s.history|
    requires s.objs[c].run == Health && !s.objs[c].terminal
    ensures Reachable(cfg, s') && s'.sh == s.sh && s'.tick == s.tick && |s'.history| == |s.history|
    ensures s'.objs == s.objs[c := s.objs[c].(terminal := true,
                                              run := if cfg.teardown == ReleaseFirst then Releasing else Forgetting)]
  {
    var o := s.objs[c].(terminal := true);
    var reporting, closing := o.(run := Reporting(EvFailed, false)), o.(run := Closing);
    var torn := o.(run := if cfg.teardown == ReleaseFirst then Releasing else Forgetting);
    s' := MoveStep(cfg, s, c, CheckHealth(false), reporting);
    s' := ReportStep(cfg, s', c);
    Overwrite(s.objs, c, reporting, closing);
    s' := TearStep(cfg, s', c, torn);
    Overwrite(s.objs, c, closing, torn);
  }

  /** Cleanup has run and the slot is about to leave the map. */
  lemma CleanUp(cfg: Config, s: State, c: nat) returns (s': State)
    requires Reachable(cfg, s) && c in s.objs && s.objs[c].run == Forgetting
    ensures Reachable(cfg, s') && s'.tick == s.tick && s'.history == s.history
    ensures s'.sh == s.sh.ForgetCommand(s.objs[c].task)
    ensures s'.objs == s.objs[c := s.objs[c].(run := Removing, cleaned := true)]
  {
    var o := s.objs[c];
    s' := TearStep(cfg, s, c, o.(run := Cleaning));
    s' := TearStep(cfg, s', c, o.(run := Removing, cleaned := true));
    Overwrite(s.objs, c, o.(run := Cleaning), o.(run := Removing, cleaned := true));
  }

  /** From forgetting the command id to the slot's removal. */
  lemma FinishRemoval(cfg: Config, s: State, c: nat) returns (s': State)
    requires Reachable(cfg, s) && c in s.objs && s.objs[c].run == Forgetting
    requires cfg.teardown != RemoveAndRelease
    ensures Reachable(cfg, s') && s'.tick == s.tick && s'.history == s.history
    ensures s'.sh == s.sh.ForgetCommand(s.objs[c].task).RemoveSlot(s.objs[c].task)
    ensures s'.objs == s.objs[c := s.objs[c].(
              run := if cfg.teardown == ReleaseFirst then Done else Releasing, cleaned := true)]
  {
    var o := s.objs[c].(cleaned := true);
    s' := CleanUp(cfg, s, c);
    var torn := o.(run := if cfg.teardown == ReleaseFirst then Done else Releasing);
    s' := TearStep(cfg, s', c, torn);
    Overwrite(s.objs, c, o.(run := Removing), torn);
  }

  // ---- Ports lost in the deployed order ----

  /** One slot on port `p`, everything below it idle. */
  ghost predicate Alone(cfg: Config, s: State, t: TaskId, c: nat, p: int) {
    && Reachable(cfg, s) && s.tick.stage == Idle && s.sh.reservations == 0
    && s.sh.slots == map[t := p] && s.sh.nextPort == p + 1
    && c < |s.history| && c in s.objs && s.objs[c] == Running1(t, p)
  }

  lemma OneSize(t: TaskId, p: int)
    ensures |map[t := p]| == 1 && map[t := p].Values == {p}
  {
    assert map[t := p].Keys == {t};
  }

  /** It fails, gives its port back, and is still installed. */
  lemma LetGo(cfg: Config, s: State, t: TaskId, c: nat, p: int) returns (s': State)
    requires Alone(cfg, s, t, c, p) && cfg.teardown == ReleaseFirst
    ensures Reachable(cfg, s') && s'.tick.stage == Idle && s'.sh == s.sh.(nextPort := p) && |s'.history| == |s.history|
    ensures c in s'.objs && s'.objs[c].run == Forgetting && s'.objs[c].task == t
  {
    s' := FailHealth(cfg, s, c);
    s' := TearStep(cfg, s', c, s'.objs[c].(run := Forgetting));
  }

  lemma NextPortUp(cfg: Config, s: State, t: TaskId, p: int)
    requires s.sh.slots == map[t := p] && s.sh.nextPort == p < cfg.portEnd
    ensures s.sh.FreePort(cfg) == Some(p + 1)
  {
    OneSize(t, p);
    assert FirstFree({p}, p, cfg.portEnd) == FirstFree({p}, p + 1, cfg.portEnd) == Some(p + 1);
  }

  /** The next start takes the next port while the slot is still installed. */
  lemma TakeNext(cfg: Config, s: State, t: TaskId, c: nat, p: int) returns (s': State, t': TaskId, c': nat)
    requires cfg.Valid() && cfg.maxContainers >= 2 && p < cfg.portEnd
    requires Reachable(cfg, s) && s.tick.stage == Idle && s.sh.reservations == 0
    requires s.sh.slots == map[t := p] && s.sh.nextPort == p && c in s.objs && c < |s.history|
    ensures Reachable(cfg, s') && s'.tick.stage == Idle && s'.sh.reservations == 0 && s'.sh.nextPort == p + 2
    ensures t' != t && s'.sh.slots == map[t := p, t' := p + 1]
    ensures c' < |s'.history| && c' != c && s'.objs == s.objs[c' := Running1(t', p + 1)]
  {
    OneSize(t, p);
    t' := AnyFresh(cfg, s);
    c' := |s.history|;
    NextPortUp(cfg, s, t, p);
    s' := Launch(cfg, s, t', p + 1);
  }

  lemma HandOver(cfg: Config, s: State, t: TaskId, c: nat, p: int) returns (s': State, t': TaskId, c': nat)
    requires cfg.Valid() && cfg.teardown == ReleaseFirst && cfg.maxContainers >= 2
    requires Alone(cfg, s, t, c, p) && p < cfg.portEnd
    ensures Alone(cfg, s', t', c', p + 1)
  {
    s' := LetGo(cfg, s, t, c, p);
    s', t', c' := TakeNext(cfg, s', t, c, p);
    s' := FinishRemoval(cfg, s', c);
    assert s'.sh.slots == map[t' := p + 1];
  }

  lemma {:induction false} Climb(cfg: Config, p: int) returns (s: State, t: TaskId, c: nat)
    requires cfg.Valid() && cfg.teardown == ReleaseFirst && cfg.maxContainers >= 2 && InRange(cfg, p)
    ensures Alone(cfg, s, t, c, p)
    decreases p - cfg.portStart
  {
    if p == cfg.portStart {
      s := Start(cfg);
      t := AnyFresh(cfg, s);
      c := 0;
      s := Launch(cfg, s, t, p);
    } else {
      s, t, c := Climb(cfg, p - 1);
      s, t, c := HandOver(cfg, s, t, c, p - 1);
    }
  }

  /** With two containers or more, however wide the range: allocation fails with every port but the last one idle. */
  lemma ReleaseFirstLeaks(cfg: Config) returns (s: State)
    requires cfg.Valid() && cfg.teardown == ReleaseFirst && cfg.maxContainers >= 2
    ensures Reachable(cfg, s) && s.tick.stage == Prepared && s.sh.AllocatePort(cfg).None?
    ensures s.sh.slots.Values == {cfg.portEnd}
  {
    var t, c;
    s, t, c := Climb(cfg, cfg.portEnd);
    OneSize(t, cfg.portEnd);
    var u := AnyFresh(cfg, s);
    s := Ask(cfg, s, u);
  }

  // ---- Ports lost when the release follows the removal ----

  /** No slot, and everything below `p` idle. */
  ghost predicate Vacated(cfg: Config, s: State, p: int) {
    Reachable(cfg, s) && s.tick.stage == Idle && s.sh.reservations == 0 && s.sh.slots == map[] && s.sh.nextPort == p
  }

  lemma ComeAndGo(cfg: Config, s: State, p: int) returns (s': State)
    requires cfg.Valid() && cfg.teardown == RemoveThenRelease && InRange(cfg, p) && Vacated(cfg, s, p)
    ensures Vacated(cfg, s', p + 1)
  {
    var t := AnyFresh(cfg, s);
    var c := |s.history|;
    s' := Launch(cfg, s, t, p);
    s' := FailHealth(cfg, s', c);
    s' := FinishRemoval(cfg, s', c);
    assert s'.sh.slots == map[];
  }

  lemma {:induction false} Drift(cfg: Config, p: int) returns (s: State)
    requires cfg.Valid() && cfg.teardown == RemoveThenRelease && cfg.portStart <= p <= cfg.portEnd + 1
    ensures Vacated(cfg, s, p)
    decreases p - cfg.portStart
  {
    if p == cfg.portStart {
      s := Start(cfg);
    } else {
      s := Drift(cfg, p - 1);
      s := ComeAndGo(cfg, s, p - 1);
    }
  }

  /** Releasing in a critical section after the removal fails for every configuration, with the whole range idle. */
  lemma RemoveThenReleaseFails(cfg: Config) returns (s: State)
    requires cfg.Valid() && cfg.teardown == RemoveThenRelease
    ensures Reachable(cfg, s) && s.tick.stage == Prepared && s.sh.AllocatePort(cfg).None? && s.sh.slots == map[]
  {
    s := Drift(cfg, cfg.portEnd + 1);
    var u := AnyFresh(cfg, s);
    s := Ask(cfg, s, u);
  }

  /** No run of this configuration fails to allocate a port. */
  ghost predicate AlwaysAllocates(cfg: Config) {
    forall s :: Reachable(cfg, s) && s.tick.stage == Prepared ==> s.sh.AllocatePort(cfg).Some?
  }

  /** Allocation cannot fail exactly with release and removal in one section, or with one container at a time. */
  lemma AllocationSafe(cfg: Config)
    requires cfg.Valid()
    ensures AlwaysAllocates(cfg) <==> cfg.teardown == RemoveAndRelease || OneAtATime(cfg)
  {
    match cfg.teardown
    case RemoveAndRelease =>
      forall s | Reachable(cfg, s) && s.tick.stage == Prepared ensures s.sh.AllocatePort(cfg).Some? {
        AtomicRemovalNeverFails(cfg, s);
      }
    case RemoveThenRelease => var s := RemoveThenReleaseFails(cfg);
    case ReleaseFirst =>
      if cfg.maxContainers >= 2 { var s := ReleaseFirstLeaks(cfg); }
      forall s | OneAtATime(cfg) && Reachable(cfg, s) && s.tick.stage == Prepared
        ensures s.sh.AllocatePort(cfg).Some?
      {
        OneContainerAllocates(cfg, s);
      }
  }

  // ---- Stranded tasks ----

  /** A granted claim with launch parameters and no scope token. */
  lemma MissingScopeTokenStrands(cfg: Config, t: TaskId) returns (s: State)
    requires cfg.Valid()
    ensures Reachable(cfg, s) && s.history == [JustAnnounced(t, false)]
    ensures Over(s, 0) && MarkStands(s, 0) && !Reported(s.history[0])
  {
    s := Start(cfg);
    s := Admit(cfg, s, t, false);
    s := Extend(cfg, s, Decides(Prepare(Ready)));
    s := Extend(cfg, s, Writes(UnwindReservation));
  }

  lemma StreamsAlone(cfg: Config, t: TaskId) returns (s: State)
    requires cfg.Valid()
    ensures Reachable(cfg, s) && s.tick.stage == Idle && s.history == [JustAnnounced(t, true)]
    ensures s.objs == map[0 := Running1(t, cfg.portStart).(run := Stream, control := Poll)] && t in s.sh.accepted
  {
    s := Start(cfg);
    s := Launch(cfg, s, t, cfg.portStart);
    assert s.history == [JustAnnounced(t, true)];
    s := MoveStep(cfg, s, 0, CheckHealth(true), s.objs[0].(run := Submit));
    s := MoveStep(cfg, s, 0, SubmitPrompt(true), s.objs[0].(run := Stream, control := Poll));
  }

  lemma ClosesAlone(cfg: Config, t: TaskId) returns (s: State)
    requires cfg.Valid()
    ensures Reachable(cfg, s) && s.tick.stage == Idle && s.history == [JustAnnounced(t, true)]
    ensures s.objs == map[0 := Running1(t, cfg.portStart).(run := Closing, closed := true, control := Poll)]
    ensures t in s.sh.accepted
  {
    s := StreamsAlone(cfg, t);
    s := MoveStep(cfg, s, 0, StreamCloses, s.objs[0].(run := Closing, closed := true));
  }

  lemma ControlStopped(cfg: Config, t: TaskId) returns (s: State)
    requires cfg.Valid()
    ensures Reachable(cfg, s) && s.tick.stage == Idle && s.history == [JustAnnounced(t, true)]
    ensures s.objs == map[0 := Running1(t, cfg.portStart).(run := Closing, closed := true)] && t in s.sh.accepted
  {
    s := ClosesAlone(cfg, t);
    var o := s.objs[0];
    s := MoveStep(cfg, s, 0, ControlStops, o.(control := Off));
    OverwriteOnly(0, o, o.(control := Off));
  }

  lemma WatchersStop(cfg: Config, t: TaskId) returns (s: State)
    requires cfg.Valid()
    ensures Reachable(cfg, s) && s.tick.stage == Idle && s.history == [JustAnnounced(t, true)]
    ensures s.objs == map[0 := NewSlot(t, cfg.portStart).(run := Closing, closed := true)] && t in s.sh.accepted
  {
    s := ControlStopped(cfg, t);
    var o := s.objs[0];
    s := MoveStep(cfg, s, 0, ExitStops, o.(exit := NoWatch));
    OverwriteOnly(0, o, o.(exit := NoWatch));
  }

  lemma TearMark(cfg: Config, s: State, c: nat) returns (s': State)
    requires cfg.teardown == ReleaseFirst && Reachable(cfg, s) && c in s.objs
    requires s.objs[c].run == Closing && !s.objs[c].terminal
    ensures Reachable(cfg, s') && s'.tick == s.tick && s'.history == s.history
    ensures s'.objs == s.objs[c := s.objs[c].(terminal := true, silent := true, run := Releasing)]
    ensures s.objs[c].task in s'.sh.accepted
  {
    var o := s.objs[c].(terminal := true, silent := true);
    s' := TearStep(cfg, s, c, o.(run := Marking));
    s' := TearStep(cfg, s', c, o.(run := Releasing));
    Overwrite(s.objs, c, o.(run := Marking), o.(run := Releasing));
  }

  /** The deployed teardown from its first step until the port is back. */
  lemma TearStart(cfg: Config, s: State, c: nat) returns (s': State)
    requires cfg.teardown == ReleaseFirst && Reachable(cfg, s) && c in s.objs
    requires s.objs[c].run == Closing && !s.objs[c].terminal
    ensures Reachable(cfg, s') && s'.tick == s.tick && s'.history == s.history
    ensures s'.objs == s.objs[c := s.objs[c].(terminal := true, silent := true, run := Forgetting)]
    ensures s.objs[c].task in s'.sh.accepted
  {
    var o := s.objs[c].(terminal := true, silent := true);
    s' := TearMark(cfg, s, c);
    s' := TearStep(cfg, s', c, o.(run := Forgetting));
    Overwrite(s.objs, c, o.(run := Releasing), o.(run := Forgetting));
  }

  /** A stream the server closes normally before any terminal frame, with no watcher left to report. */
  lemma NormalClosureStrands(cfg: Config, t: TaskId) returns (s: State)
    requires cfg.Valid() && cfg.teardown == ReleaseFirst
    ensures Reachable(cfg, s) && s.history == [JustAnnounced(t, true)]
    ensures Over(s, 0) && MarkStands(s, 0) && !Reported(s.history[0])
  {
    s := WatchersStop(cfg, t);
    s := TearStart(cfg, s, 0);
    s := FinishRemoval(cfg, s, 0);
  }
}
