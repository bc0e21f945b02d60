/** What every interleaving of the Docker Executor keeps. */
module DockerInvariants {
  import opened Basics
  import opened DockerShared
  import opened DockerMachine

  /** A claim's events: nothing, or `running`, or an accepted `running` and then one terminal event. */
  predicate Ordered(es: seq<Event>) {
    && |es| <= 2
    && (|es| >= 1 ==> es[0].kind == EvRunning)
    && (|es| == 2 ==> es[0].accepted && es[1].kind != EvRunning)
  }

  predicate Announced1(es: seq<Event>) { |es| == 1 && es[0] == Event(EvRunning, true) }

  /** A control's events: an acknowledgement, then at most one of completed and failed. */
  predicate ControlOrdered(es: seq<ControlEvent>) {
    && |es| <= 2
    && (|es| >= 1 ==> es[0].status == Acknowledged)
    && (|es| == 2 ==> es[0].accepted && es[1].status != Acknowledged)
  }

  // ---- The polling goroutine's stages ----

  /** A 200 reply is being worked on. */
  predicate HasClaim(stage: Stage) {
    match stage
    case Idle | Scan | Gated | Unseen | Vacant | Commanded => false
    case _ => true
  }

  /** A start that has passed the capacity gate and not yet become a slot or an error. */
  predicate InFlight(stage: Stage) { !stage.Idle? && !stage.Scan? && !stage.Installed? }

  predicate Holding(stage: Stage) { HasClaim(stage) && !stage.Claimed? && !stage.Marked? }

  predicate Unmarked(stage: Stage) { stage.Unseen? || stage.Vacant? || stage.Commanded? || stage.Claimed? }

  /** The start's accepted mark is set and no slot carries the task. */
  predicate MarkedOnly(stage: Stage) {
    HasClaim(stage) && !stage.Claimed? && !stage.Installed? && !stage.Report? && !stage.Unreserve?
  }

  predicate HasPort(stage: Stage) { stage.Ported? || stage.Pulled? || stage.Started? || stage.UndoPort? }

  /** The slot is still in the map. */
  predicate Present(cfg: Config, run: RunPc) {
    run != Done && (run == Releasing ==> cfg.teardown == ReleaseFirst)
  }

  predicate CleanedStage(cfg: Config, run: RunPc) { run == Removing || !Present(cfg, run) }

  type Objects = map<nat, SlotObject>

  // ---- The invariants ----

  ghost predicate Shape(k: Tick, objs: Objects, history: seq<Claim>) {
    && (HasClaim(k.stage) ==>
          && k.claim == |history| - 1 && history[k.claim].task == k.task && history[k.claim].scoped == k.scoped
          && (k.claim in objs <==> k.stage.Installed?))
    && (forall c :: c in objs ==> c < |history| && objs[c].task == history[c].task)
    && (forall c :: c in objs ==> (objs[c].run.Unstarted? <==> k.stage.Installed? && c == k.claim))
  }

  ghost predicate Distinct(objs: Objects, accepted: map<TaskId, Lifecycle>) {
    && (forall c :: c in objs ==> objs[c].task in accepted)
    && (forall c, d :: c in objs && d in objs && objs[c].task == objs[d].task ==> c == d)
  }

  ghost predicate TickMark(k: Tick, objs: Objects, accepted: map<TaskId, Lifecycle>) {
    && (Unmarked(k.stage) ==> k.task !in accepted)
    && (MarkedOnly(k.stage) ==> k.task in accepted)
    && (MarkedOnly(k.stage) ==> forall c :: c in objs ==> objs[c].task != k.task)
  }

  ghost predicate Slots(cfg: Config, objs: Objects, slots: map<TaskId, int>) {
    && (forall c :: c in objs && Present(cfg, objs[c].run) ==>
          objs[c].task in slots && slots[objs[c].task] == objs[c].port)
    && (forall c :: c in objs && !Present(cfg, objs[c].run) ==> objs[c].task !in slots)
    && (forall c :: c in objs ==> (objs[c].cleaned <==> CleanedStage(cfg, objs[c].run)))
  }

  ghost predicate Backed(k: Tick, slots: map<TaskId, int>, accepted: map<TaskId, Lifecycle>) {
    && (forall t :: t in slots ==> t in accepted)
    && (MarkedOnly(k.stage) ==> k.task !in slots)
  }

  ghost predicate Capacity(cfg: Config, k: Tick, slots: map<TaskId, int>, reservations: nat) {
    && |slots| <= cfg.maxContainers
    && (InFlight(k.stage) ==> |slots| < cfg.maxContainers)
    && reservations == (if Holding(k.stage) then 1 else 0)
  }

  predicate InRange(cfg: Config, p: int) { cfg.portStart <= p <= cfg.portEnd }

  ghost predicate Ports(cfg: Config, k: Tick, objs: Objects, slots: map<TaskId, int>, nextPort: int) {
    && cfg.portStart <= nextPort <= cfg.portEnd + 1
    && (forall t :: t in slots ==> InRange(cfg, slots[t]))
    && (forall t, u :: t in slots && u in slots && slots[t] == slots[u] ==> t == u)
    && (forall c :: c in objs ==> InRange(cfg, objs[c].port))
    && (HasPort(k.stage) ==> InRange(cfg, k.port) && k.port !in slots.Values)
  }

  /** No port below `nextPort` is idle. */
  ghost predicate NoLeak(cfg: Config, k: Tick, slots: map<TaskId, int>, nextPort: int) {
    forall p :: cfg.portStart <= p < nextPort ==> p in slots.Values || (HasPort(k.stage) && p == k.port)
  }

  /** Goroutines of a slot that won the terminal flag and have not posted yet. */
  function Pending(o: SlotObject): nat {
    (if o.run.Reporting? then 1 else 0) + (if o.control == Failing then 1 else 0) + (if o.exit == Dying then 1 else 0)
  }

  /** The teardown is past the terminal flag. */
  predicate LateRun(run: RunPc) {
    run.Marking? || run.Releasing? || run.Forgetting? || run.Cleaning? || run.Removing? || run.Done?
  }

  /** The terminal flag is set once: by the poster of the terminal event, or by the teardown, which posts none. */
  predicate SlotEvents(o: SlotObject, es: seq<Event>) {
    && |es| >= 1 && es[0] == Event(EvRunning, true)
    && |es| - 1 + Pending(o) + (if o.silent then 1 else 0) == (if o.terminal then 1 else 0)
    && (LateRun(o.run) ==> o.terminal) && (o.run.Unstarted? ==> o.exit.NoWatch?)
    && (o.silent || (o.run.Closing? && !o.terminal) ==> o.closed)
    && (|es| == 2 ==> es[1].kind != EvRunning)
    && (o.run.Reporting? ==> o.run.kind != EvRunning)
    && (o.recorded.Some? ==> |es| == 2 && es[1].kind == o.recorded.value)
  }

  /** What a start in progress has posted so far. */
  predicate TickEvents(k: Tick, es: seq<Event>) {
    match k.stage
    case Claimed | Marked | Reserved => es == []
    case Announced | Prepared | Ported | Pulled | Started => Announced1(es)
    case UndoPort | Report => k.report && Announced1(es)
    case UndoMark => k.report ==> Announced1(es)
    case _ => true
  }

  ghost predicate Events(k: Tick, objs: Objects, history: seq<Claim>) {
    && (forall c :: 0 <= c < |history| ==> Ordered(history[c].events))
    && (forall c :: c in objs && c < |history| ==> SlotEvents(objs[c], history[c].events))
    && (HasClaim(k.stage) && k.claim < |history| ==> TickEvents(k, history[k.claim].events))
  }

  /** What the control watcher has posted at each of its stages. */
  predicate ControlStage(o: SlotObject) {
    && ControlOrdered(o.controls)
    && (o.run.Unstarted? || o.run.Health? || o.run.Submit? ==> o.control.Off? && o.controls == [])
    && (o.control.Poll? ==> o.controls == [])
    && (o.control.Acked? || o.control.Paused? ==> o.controls == [ControlEvent(Acknowledged, true)])
    && (o.control.Sent? || o.control.Failing? ==>
          o.controls == [ControlEvent(Acknowledged, true), ControlEvent(Completed, true)])
    && (o.control.Off? && |o.controls| == 1 ==> !o.controls[0].accepted)
  }

  ghost predicate Controls(objs: Objects) {
    forall c :: c in objs ==> ControlStage(objs[c])
  }

  ghost predicate Commands(k: Tick, objs: Objects, ids: map<TaskId, CommandId>, tried: map<TaskId, CommandId>) {
    && (forall t :: t in ids ==> ids[t] != "")
    && (forall t :: t in tried ==> t in ids && ids[t] == tried[t])
    && (forall c :: c in objs ==> objs[c].task !in tried)
    && (MarkedOnly(k.stage) || k.stage.Claimed? ==> k.task !in tried)
    && (k.stage.Commanded? ==> k.task in ids && ids[k.task] == k.command)
  }

  /** Who owns which task: claims, marks, slot objects and the slot map agree. */
  ghost predicate Ownership(cfg: Config, s: State) {
    && Shape(s.tick, s.objs, s.history)
    && Distinct(s.objs, s.sh.accepted)
    && TickMark(s.tick, s.objs, s.sh.accepted)
    && Slots(cfg, s.objs, s.sh.slots)
    && Backed(s.tick, s.sh.slots, s.sh.accepted)
  }

  /** Capacity and ports. */
  ghost predicate Resources(cfg: Config, s: State) {
    && Capacity(cfg, s.tick, s.sh.slots, s.sh.reservations)
    && Ports(cfg, s.tick, s.objs, s.sh.slots, s.sh.nextPort)
    && (cfg.teardown == RemoveAndRelease ==> NoLeak(cfg, s.tick, s.sh.slots, s.sh.nextPort))
  }

  /** What has been posted to the Registry. */
  ghost predicate Protocol(s: State) {
    && Events(s.tick, s.objs, s.history)
    && Controls(s.objs)
    && Commands(s.tick, s.objs, s.sh.commandIDs, s.tried)
  }

  ghost predicate Inv(cfg: Config, s: State) {
    Ownership(cfg, s) && Resources(cfg, s) && Protocol(s)
  }

  // ---- Decisions: only the polling goroutine's locals change ----

  lemma DecideShape(cfg: Config, sh: Shared, k: Tick, d: Decision, objs: Objects, history: seq<Claim>)
    requires Shape(k, objs, history) && Decide(cfg, sh, k, d).Some?
    ensures Shape(Decide(cfg, sh, k, d).value, objs, history)
  {}

  lemma DecideMarks(cfg: Config, sh: Shared, k: Tick, d: Decision, objs: Objects)
    requires TickMark(k, objs, sh.accepted) && Backed(k, sh.slots, sh.accepted) && Decide(cfg, sh, k, d).Some?
    ensures TickMark(Decide(cfg, sh, k, d).value, objs, sh.accepted)
    ensures Backed(Decide(cfg, sh, k, d).value, sh.slots, sh.accepted)
  {}

  lemma DecideOwnership(cfg: Config, s: State, d: Decision)
    requires Ownership(cfg, s) && Decide(cfg, s.sh, s.tick, d).Some?
    ensures Ownership(cfg, s.(tick := Decide(cfg, s.sh, s.tick, d).value))
  {
    DecideShape(cfg, s.sh, s.tick, d, s.objs, s.history);
    DecideMarks(cfg, s.sh, s.tick, d, s.objs);
  }

  lemma DecideCapacity(cfg: Config, sh: Shared, k: Tick, d: Decision)
    requires Capacity(cfg, k, sh.slots, sh.reservations) && Decide(cfg, sh, k, d).Some?
    ensures Capacity(cfg, Decide(cfg, sh, k, d).value, sh.slots, sh.reservations)
  {}

  lemma DecidePorts(cfg: Config, sh: Shared, k: Tick, d: Decision)
    requires Decide(cfg, sh, k, d).Some?
    ensures var k' := Decide(cfg, sh, k, d).value; HasPort(k'.stage) == HasPort(k.stage) && k'.port == k.port
  {}

  lemma DecideResources(cfg: Config, s: State, d: Decision)
    requires Resources(cfg, s) && Decide(cfg, s.sh, s.tick, d).Some?
    ensures Resources(cfg, s.(tick := Decide(cfg, s.sh, s.tick, d).value))
  {
    DecideCapacity(cfg, s.sh, s.tick, d);
    DecidePorts(cfg, s.sh, s.tick, d);
  }

  lemma DecideEvents(cfg: Config, s: State, d: Decision)
    requires Shape(s.tick, s.objs, s.history) && Events(s.tick, s.objs, s.history)
    requires Decide(cfg, s.sh, s.tick, d).Some?
    ensures Events(Decide(cfg, s.sh, s.tick, d).value, s.objs, s.history)
  {}

  lemma DecideCommands(cfg: Config, s: State, d: Decision)
    requires Commands(s.tick, s.objs, s.sh.commandIDs, s.tried) && Decide(cfg, s.sh, s.tick, d).Some?
    ensures Commands(Decide(cfg, s.sh, s.tick, d).value, s.objs, s.sh.commandIDs, s.tried)
  {}

  // ---- Critical sections of the polling goroutine ----

  lemma WriteShape(cfg: Config, sh: Shared, k: Tick, w: Write, objs: Objects, history: seq<Claim>)
    requires Shape(k, objs, history) && DoWrite(cfg, sh, k, w).Some?
    ensures Shape(DoWrite(cfg, sh, k, w).value.1, objs, history)
  {}

  lemma WriteMarks(cfg: Config, sh: Shared, k: Tick, w: Write, objs: Objects)
    requires Distinct(objs, sh.accepted) && TickMark(k, objs, sh.accepted) && Backed(k, sh.slots, sh.accepted)
    requires DoWrite(cfg, sh, k, w).Some?
    ensures var (sh', k') := DoWrite(cfg, sh, k, w).value;
            Distinct(objs, sh'.accepted) && TickMark(k', objs, sh'.accepted) && Backed(k', sh'.slots, sh'.accepted)
  {}

  lemma WriteOwnership(cfg: Config, s: State, w: Write)
    requires Ownership(cfg, s) && DoWrite(cfg, s.sh, s.tick, w).Some?
    ensures var (sh, k) := DoWrite(cfg, s.sh, s.tick, w).value; Ownership(cfg, s.(sh := sh, tick := k))
  {
    WriteShape(cfg, s.sh, s.tick, w, s.objs, s.history);
    WriteMarks(cfg, s.sh, s.tick, w, s.objs);
    assert DoWrite(cfg, s.sh, s.tick, w).value.0.slots == s.sh.slots;
  }

  lemma WriteCapacity(cfg: Config, sh: Shared, k: Tick, w: Write)
    requires Capacity(cfg, k, sh.slots, sh.reservations) && DoWrite(cfg, sh, k, w).Some?
    ensures var (sh', k') := DoWrite(cfg, sh, k, w).value; Capacity(cfg, k', sh'.slots, sh'.reservations)
  {}

  lemma WritePorts(cfg: Config, sh: Shared, k: Tick, objs: Objects, w: Write)
    requires Ports(cfg, k, objs, sh.slots, sh.nextPort) && DoWrite(cfg, sh, k, w).Some?
    ensures var (sh', k') := DoWrite(cfg, sh, k, w).value; Ports(cfg, k', objs, sh'.slots, sh'.nextPort)
  {}

  lemma WriteNoLeak(cfg: Config, sh: Shared, k: Tick, w: Write)
    requires NoLeak(cfg, k, sh.slots, sh.nextPort) && DoWrite(cfg, sh, k, w).Some?
    ensures var (sh', k') := DoWrite(cfg, sh, k, w).value; NoLeak(cfg, k', sh'.slots, sh'.nextPort)
  {}

  lemma WriteEvents(cfg: Config, s: State, w: Write)
    requires Events(s.tick, s.objs, s.history) && DoWrite(cfg, s.sh, s.tick, w).Some?
    ensures Events(DoWrite(cfg, s.sh, s.tick, w).value.1, s.objs, s.history)
  {}

  lemma WriteCommands(cfg: Config, sh: Shared, k: Tick, w: Write, objs: Objects, tried: map<TaskId, CommandId>)
    requires Commands(k, objs, sh.commandIDs, tried) && DoWrite(cfg, sh, k, w).Some?
    ensures var (sh', k') := DoWrite(cfg, sh, k, w).value; Commands(k', objs, sh'.commandIDs, tried)
  {}

  // ---- Posts of the polling goroutine ----

  lemma GrantShape(k: Tick, objs: Objects, history: seq<Claim>, claim: Claim, k': Tick)
    requires Shape(k, objs, history) && !HasClaim(k.stage)
    requires k'.stage == Claimed && k'.claim == |history| && k'.task == claim.task && k'.scoped == claim.scoped
    ensures Shape(k', objs, history + [claim])
  {}

  lemma AppendShape(k: Tick, objs: Objects, history: seq<Claim>, es: seq<Event>, k': Tick)
    requires Shape(k, objs, history) && HasClaim(k.stage) && HasClaim(k'.stage)
    requires !k.stage.Installed? && !k'.stage.Installed?
    requires k'.claim == k.claim && k'.task == k.task && k'.scoped == k.scoped
    ensures Shape(k', objs, history[k.claim := history[k.claim].(events := es)])
  {}

  lemma PostShape(s: State, p: Post)
    requires Shape(s.tick, s.objs, s.history) && DoPost(s, p).Some?
    ensures var s' := DoPost(s, p).value; Shape(s'.tick, s'.objs, s'.history)
  {
    var s' := DoPost(s, p).value;
    if p.PostClaim? {
      if p.reply.Granted? { GrantShape(s.tick, s.objs, s.history, s'.history[|s.history|], s'.tick); }
    } else {
      AppendShape(s.tick, s.objs, s.history, s'.history[s.tick.claim].events, s'.tick);
    }
  }

  lemma PostMarks(s: State, p: Post)
    requires TickMark(s.tick, s.objs, s.sh.accepted) && Backed(s.tick, s.sh.slots, s.sh.accepted)
    requires DoPost(s, p).Some?
    ensures var s' := DoPost(s, p).value;
            TickMark(s'.tick, s'.objs, s'.sh.accepted) && Backed(s'.tick, s'.sh.slots, s'.sh.accepted)
  {}

  lemma PostOwnership(cfg: Config, s: State, p: Post)
    requires Ownership(cfg, s) && DoPost(s, p).Some?
    ensures Ownership(cfg, DoPost(s, p).value)
  {
    PostShape(s, p);
    PostMarks(s, p);
  }

  lemma PostTick(s: State, p: Post)
    requires DoPost(s, p).Some?
    ensures var s' := DoPost(s, p).value;
            && s'.sh == s.sh && s'.objs == s.objs && s'.tick.port == s.tick.port
            && !HasPort(s'.tick.stage) && !HasPort(s.tick.stage)
            && Holding(s'.tick.stage) == Holding(s.tick.stage)
            && (InFlight(s'.tick.stage) ==> InFlight(s.tick.stage))
  {}

  lemma PostResources(cfg: Config, s: State, p: Post)
    requires Resources(cfg, s) && DoPost(s, p).Some?
    ensures Resources(cfg, DoPost(s, p).value)
  {
    PostTick(s, p);
  }

  lemma GrantEvents(k: Tick, objs: Objects, history: seq<Claim>, claim: Claim, k': Tick)
    requires Shape(k, objs, history) && Events(k, objs, history) && claim.events == []
    requires k'.stage == Claimed && k'.claim == |history|
    ensures Events(k', objs, history + [claim])
  {}

  lemma AppendEvents(k: Tick, objs: Objects, history: seq<Claim>, es: seq<Event>, k': Tick)
    requires Shape(k, objs, history) && Events(k, objs, history) && HasClaim(k.stage) && !k.stage.Installed?
    requires k'.claim == k.claim && Ordered(es) && (HasClaim(k'.stage) ==> TickEvents(k', es))
    ensures Events(k', objs, history[k.claim := history[k.claim].(events := es)])
  {}

  lemma ClaimEvents(s: State, reply: Reply)
    requires Shape(s.tick, s.objs, s.history) && Events(s.tick, s.objs, s.history)
    requires DoPost(s, PostClaim(reply)).Some?
    ensures var s' := DoPost(s, PostClaim(reply)).value; Events(s'.tick, s'.objs, s'.history)
  {
    var s' := DoPost(s, PostClaim(reply)).value;
    if reply.Granted? { GrantEvents(s.tick, s.objs, s.history, s'.history[|s.history|], s'.tick); }
  }

  lemma PostEvents(s: State, p: Post)
    requires Shape(s.tick, s.objs, s.history) && Events(s.tick, s.objs, s.history) && DoPost(s, p).Some?
    ensures var s' := DoPost(s, p).value; Events(s'.tick, s'.objs, s'.history)
  {
    if p.PostClaim? {
      ClaimEvents(s, p.reply);
    } else {
      var s' := DoPost(s, p).value;
      AppendEvents(s.tick, s.objs, s.history, s'.history[s.tick.claim].events, s'.tick);
    }
  }

  /** A reply updates what has been tried; any other post leaves it. */
  lemma ReplyCommands(k: Tick, objs: Objects, ids: map<TaskId, CommandId>, tried: map<TaskId, CommandId>, k': Tick)
    requires Commands(k, objs, ids, tried) && k.stage == Commanded && k'.task == k.task
    requires forall c :: c in objs ==> objs[c].task != k.task
    ensures k'.stage.Scan? || k'.stage.Idle? ==> Commands(k', objs, ids, tried[k.task := k.command])
    ensures k'.stage.Claimed? ==> Commands(k', objs, ids, tried - {k.task})
  {}

  lemma PostCommands(s: State, p: Post)
    requires Distinct(s.objs, s.sh.accepted) && TickMark(s.tick, s.objs, s.sh.accepted)
    requires Commands(s.tick, s.objs, s.sh.commandIDs, s.tried) && DoPost(s, p).Some?
    ensures var s' := DoPost(s, p).value; Commands(s'.tick, s'.objs, s'.sh.commandIDs, s'.tried)
  {
    if p.PostClaim? {
      ReplyCommands(s.tick, s.objs, s.sh.commandIDs, s.tried, DoPost(s, p).value.tick);
    }
  }

  // ---- Installing a slot ----

  lemma InstallOwnership(cfg: Config, s: State)
    requires Ownership(cfg, s) && DoInstall(s).Some?
    ensures Ownership(cfg, DoInstall(s).value)
  {}

  lemma InstallResources(cfg: Config, s: State)
    requires Ownership(cfg, s) && Resources(cfg, s) && DoInstall(s).Some?
    ensures Resources(cfg, DoInstall(s).value)
  {
    var s' := DoInstall(s).value;
    assert s'.sh.slots[s.tick.task] == s.tick.port;
    forall v | v in s.sh.slots.Values ensures v in s'.sh.slots.Values {
      var t :| t in s.sh.slots && s.sh.slots[t] == v;
      assert s'.sh.slots[t] == v;
    }
  }

  lemma InstallProtocol(s: State)
    requires Shape(s.tick, s.objs, s.history) && Protocol(s) && DoInstall(s).Some?
    ensures Protocol(DoInstall(s).value)
  {}

  lemma SettleShape(s: State)
    requires Shape(s.tick, s.objs, s.history) && DoSettle(s).Some?
    ensures var s' := DoSettle(s).value; Shape(s'.tick, s'.objs, s'.history)
  {}

  lemma SettleSlots(cfg: Config, s: State)
    requires Shape(s.tick, s.objs, s.history) && Slots(cfg, s.objs, s.sh.slots) && DoSettle(s).Some?
    ensures var s' := DoSettle(s).value; Slots(cfg, s'.objs, s'.sh.slots)
  {}

  lemma SettleOwnership(cfg: Config, s: State)
    requires Ownership(cfg, s) && DoSettle(s).Some?
    ensures Ownership(cfg, DoSettle(s).value)
  {
    SettleShape(s);
    SettleSlots(cfg, s);
  }

  lemma SettleResources(cfg: Config, s: State)
    requires Resources(cfg, s) && DoSettle(s).Some?
    ensures Resources(cfg, DoSettle(s).value)
  {}

  lemma SettleProtocol(s: State)
    requires Shape(s.tick, s.objs, s.history) && Protocol(s) && DoSettle(s).Some?
    ensures Protocol(DoSettle(s).value)
  {}

  // ---- Steps of a slot's goroutines before teardown ----

  /** Stages at which the slot is in the map and its container not cleaned up. */
  predicate Early(run: RunPc) {
    !run.Releasing? && !run.Forgetting? && !run.Cleaning? && !run.Removing? && !run.Done?
  }

  /** The slot's identity, cleanup and presence are as before. */
  predicate SamePlace(o: SlotObject, o': SlotObject) {
    && o'.task == o.task && o'.port == o.port && o'.cleaned == o.cleaned
    && (o'.run == o.run
        || (!o.run.Unstarted? && Early(o.run) && !o'.run.Unstarted? && Early(o'.run)))
  }

  lemma MoveControls(o: SlotObject, a: SlotAction)
    requires Move(o, a).Some? && ControlStage(o)
    ensures ControlStage(Move(o, a).value.slot)
  {}

  lemma MovePosts(o: SlotObject, a: SlotAction, es: seq<Event>)
    requires Move(o, a).Some? && SlotEvents(o, es) && ControlStage(o)
    ensures var m := Move(o, a).value; SlotEvents(m.slot, if m.posted.Some? then es + [m.posted.value] else es)
  {}

  lemma MovePlace(o: SlotObject, a: SlotAction)
    requires Move(o, a).Some?
    ensures SamePlace(o, Move(o, a).value.slot)
  {}

  lemma MovedOwnership(cfg: Config, s: State, c: nat, o: SlotObject)
    requires Ownership(cfg, s) && c in s.objs && SamePlace(s.objs[c], o)
    ensures Ownership(cfg, s.(objs := s.objs[c := o]))
  {}

  lemma MovedRest(cfg: Config, s: State, c: nat, o: SlotObject)
    requires Resources(cfg, s) && Protocol(s) && c in s.objs && SamePlace(s.objs[c], o) && ControlStage(o)
    ensures Resources(cfg, s.(objs := s.objs[c := o]))
    ensures Controls(s.objs[c := o]) && Commands(s.tick, s.objs[c := o], s.sh.commandIDs, s.tried)
  {}

  lemma MovedShape(k: Tick, objs: Objects, history: seq<Claim>, c: nat, events: seq<Event>)
    requires Shape(k, objs, history) && c < |history|
    ensures Shape(k, objs, history[c := history[c].(events := events)])
  {}

  lemma MovedEvents(k: Tick, objs: Objects, history: seq<Claim>, c: nat, o: SlotObject, posted: Option<Event>)
    requires Shape(k, objs, history) && Events(k, objs, history) && c in objs
    requires SlotEvents(o, if posted.Some? then history[c].events + [posted.value] else history[c].events)
    ensures var claim := history[c];
            Events(k, objs[c := o],
                   if posted.Some? then history[c := claim.(events := claim.events + [posted.value])] else history)
  {}

  // ---- Teardown ----

  lemma TornFacts(cfg: Config, o: SlotObject, es: seq<Event>)
    requires Torn(cfg, o).Some? && SlotEvents(o, es) && ControlStage(o)
    ensures var o' := Torn(cfg, o).value;
            && o'.task == o.task && o'.port == o.port && !o.run.Unstarted? && !o'.run.Unstarted?
            && SlotEvents(o', es) && ControlStage(o')
  {}

  lemma TornPlace(cfg: Config, o: SlotObject)
    requires Torn(cfg, o).Some? && (o.cleaned <==> CleanedStage(cfg, o.run))
    ensures var o' := Torn(cfg, o).value;
            && (o'.cleaned <==> CleanedStage(cfg, o'.run))
            && (Present(cfg, o'.run) <==> Present(cfg, o.run) && !o.run.Removing?)
  {}

  lemma TornSlots(cfg: Config, objs: Objects, sh: Shared, c: nat)
    requires Distinct(objs, sh.accepted) && Slots(cfg, objs, sh.slots) && c in objs && Torn(cfg, objs[c]).Some?
    ensures Slots(cfg, objs[c := Torn(cfg, objs[c]).value], TornShared(cfg, sh, objs[c]).slots)
  {
    TornPlace(cfg, objs[c]);
    TornIdentity(cfg, objs[c]);
    TornRemoves(cfg, sh, objs[c]);
  }

  lemma TornRemoves(cfg: Config, sh: Shared, o: SlotObject)
    ensures TornShared(cfg, sh, o).slots == if o.run.Removing? then sh.slots - {o.task} else sh.slots
  {}

  lemma TornIdentity(cfg: Config, o: SlotObject)
    requires Torn(cfg, o).Some?
    ensures var o' := Torn(cfg, o).value;
            o'.task == o.task && o'.port == o.port && !o.run.Unstarted? && !o'.run.Unstarted?
  {}

  lemma SameIdentity(
      k: Tick, objs: Objects, history: seq<Claim>, accepted: map<TaskId, Lifecycle>, c: nat, o: SlotObject)
    requires Shape(k, objs, history) && Distinct(objs, accepted) && c in objs
    requires o.task == objs[c].task && o.run.Unstarted? == objs[c].run.Unstarted?
    ensures Shape(k, objs[c := o], history) && Distinct(objs[c := o], accepted)
  {}

  lemma TornShape(cfg: Config, s: State, c: nat)
    requires Shape(s.tick, s.objs, s.history) && Distinct(s.objs, s.sh.accepted) && DoTeardown(cfg, s, c).Some?
    ensures var s' := DoTeardown(cfg, s, c).value;
            Shape(s'.tick, s'.objs, s'.history) && Distinct(s'.objs, s'.sh.accepted)
  {
    TornIdentity(cfg, s.objs[c]);
    SameIdentity(s.tick, s.objs, s.history, s.sh.accepted, c, Torn(cfg, s.objs[c]).value);
  }

  lemma TornMarks(cfg: Config, s: State, c: nat)
    requires Distinct(s.objs, s.sh.accepted) && TickMark(s.tick, s.objs, s.sh.accepted)
    requires Backed(s.tick, s.sh.slots, s.sh.accepted) && DoTeardown(cfg, s, c).Some?
    ensures var s' := DoTeardown(cfg, s, c).value;
            TickMark(s'.tick, s'.objs, s'.sh.accepted) && Backed(s'.tick, s'.sh.slots, s'.sh.accepted)
  {}

  lemma TornSlotMap(cfg: Config, sh: Shared, o: SlotObject)
    ensures |TornShared(cfg, sh, o).slots| <= |sh.slots|
    ensures TornShared(cfg, sh, o).reservations == sh.reservations
  {
    if o.run.Removing? {
      RemoveSize(sh.slots, o.task);
      assert sh.RemoveSlot(o.task).ReleasePort(o.port).slots == sh.slots - {o.task};
    }
  }

  lemma TornCapacity(cfg: Config, s: State, c: nat)
    requires Capacity(cfg, s.tick, s.sh.slots, s.sh.reservations) && DoTeardown(cfg, s, c).Some?
    ensures var s' := DoTeardown(cfg, s, c).value; Capacity(cfg, s'.tick, s'.sh.slots, s'.sh.reservations)
  {
    TornSlotMap(cfg, s.sh, s.objs[c]);
  }

  lemma TornPorts(cfg: Config, k: Tick, objs: Objects, sh: Shared, c: nat)
    requires Ports(cfg, k, objs, sh.slots, sh.nextPort) && c in objs && Torn(cfg, objs[c]).Some?
    ensures var sh' := TornShared(cfg, sh, objs[c]);
            Ports(cfg, k, objs[c := Torn(cfg, objs[c]).value], sh'.slots, sh'.nextPort)
  {
    TornIdentity(cfg, objs[c]);
    TornRemoves(cfg, sh, objs[c]);
    TornNext(cfg, sh, objs[c]);
  }

  lemma TornNext(cfg: Config, sh: Shared, o: SlotObject)
    ensures var next := TornShared(cfg, sh, o).nextPort; next == sh.nextPort || (next == o.port && o.port < sh.nextPort)
  {}

  lemma TornNoLeak(cfg: Config, s: State, c: nat)
    requires cfg.teardown == RemoveAndRelease && Slots(cfg, s.objs, s.sh.slots)
    requires NoLeak(cfg, s.tick, s.sh.slots, s.sh.nextPort) && DoTeardown(cfg, s, c).Some?
    ensures var s' := DoTeardown(cfg, s, c).value; NoLeak(cfg, s'.tick, s'.sh.slots, s'.sh.nextPort)
  {
    var slots' := DoTeardown(cfg, s, c).value.sh.slots;
    forall v | v in s.sh.slots.Values && v != s.objs[c].port ensures v in slots'.Values {
      var t :| t in s.sh.slots && s.sh.slots[t] == v;
      assert slots'[t] == v;
    }
  }

  lemma TornCommands(cfg: Config, k: Tick, objs: Objects, sh: Shared, tried: map<TaskId, CommandId>, c: nat)
    requires Commands(k, objs, sh.commandIDs, tried) && TickMark(k, objs, sh.accepted)
    requires Distinct(objs, sh.accepted) && c in objs && Torn(cfg, objs[c]).Some?
    ensures Commands(k, objs[c := Torn(cfg, objs[c]).value], TornShared(cfg, sh, objs[c]).commandIDs, tried)
  {
    TornIdentity(cfg, objs[c]);
    TornIds(cfg, sh, objs[c]);
  }

  lemma TornIds(cfg: Config, sh: Shared, o: SlotObject)
    ensures TornShared(cfg, sh, o).commandIDs == if o.run.Forgetting? then sh.commandIDs - {o.task} else sh.commandIDs
  {}

  // ---- Every action keeps the invariant ----

  lemma StartKeeps(cfg: Config, s: State, a: Action)
    requires Inv(cfg, s) && Act(cfg, s, a).Some? && (a.Decides? || a.Writes?)
    ensures Inv(cfg, Act(cfg, s, a).value)
  {
    match a
    case Decides(d) =>
      DecideOwnership(cfg, s, d);
      DecideResources(cfg, s, d);
      DecideEvents(cfg, s, d);
      DecideCommands(cfg, s, d);
    case Writes(w) =>
      WriteOwnership(cfg, s, w);
      WriteCapacity(cfg, s.sh, s.tick, w);
      WritePorts(cfg, s.sh, s.tick, s.objs, w);
      if cfg.teardown == RemoveAndRelease { WriteNoLeak(cfg, s.sh, s.tick, w); }
      WriteEvents(cfg, s, w);
      WriteCommands(cfg, s.sh, s.tick, w, s.objs, s.tried);
  }

  lemma PostKeeps(cfg: Config, s: State, p: Post)
    requires Inv(cfg, s) && DoPost(s, p).Some?
    ensures Inv(cfg, DoPost(s, p).value)
  {
    PostOwnership(cfg, s, p);
    PostResources(cfg, s, p);
    PostProtocol(cfg, s, p);
  }

  lemma PostProtocol(cfg: Config, s: State, p: Post)
    requires Ownership(cfg, s) && Protocol(s) && DoPost(s, p).Some?
    ensures Protocol(DoPost(s, p).value)
  {
    PostTick(s, p);
    PostEvents(s, p);
    PostCommands(s, p);
  }

  lemma MoveKeeps(cfg: Config, s: State, c: nat, a: SlotAction)
    requires Inv(cfg, s) && DoMove(s, c, a).Some?
    ensures Inv(cfg, DoMove(s, c, a).value)
  {
    MovePlace(s.objs[c], a);
    MoveControls(s.objs[c], a);
    MovePosts(s.objs[c], a, s.history[c].events);
    var Moved(o, posted) := Move(s.objs[c], a).value;
    MovedOwnership(cfg, s, c, o);
    MovedRest(cfg, s, c, o);
    if posted.Some? {
      MovedShape(s.tick, s.objs[c := o], s.history, c, s.history[c].events + [posted.value]);
    }
    MovedEvents(s.tick, s.objs, s.history, c, o, posted);
  }

  lemma TeardownKeeps(cfg: Config, s: State, c: nat)
    requires Inv(cfg, s) && DoTeardown(cfg, s, c).Some?
    ensures Inv(cfg, DoTeardown(cfg, s, c).value)
  {
    TornShape(cfg, s, c);
    TornMarks(cfg, s, c);
    TornSlots(cfg, s.objs, s.sh, c);
    TornCapacity(cfg, s, c);
    TornPorts(cfg, s.tick, s.objs, s.sh, c);
    if cfg.teardown == RemoveAndRelease { TornNoLeak(cfg, s, c); }
    TornFacts(cfg, s.objs[c], s.history[c].events);
    MovedEvents(s.tick, s.objs, s.history, c, Torn(cfg, s.objs[c]).value, None);
    TornCommands(cfg, s.tick, s.objs, s.sh, s.tried, c);
  }

  lemma ActKeeps(cfg: Config, s: State, a: Action)
    requires Inv(cfg, s) && Act(cfg, s, a).Some?
    ensures Inv(cfg, Act(cfg, s, a).value)
  {
    match a
    case Decides(_) => StartKeeps(cfg, s, a);
    case Writes(_) => StartKeeps(cfg, s, a);
    case Posts(p) => PostKeeps(cfg, s, p);
    case Installs =>
      InstallOwnership(cfg, s);
      InstallResources(cfg, s);
      InstallProtocol(s);
    case Settles =>
      SettleOwnership(cfg, s);
      SettleResources(cfg, s);
      SettleProtocol(s);
    case Moves(c, m) => MoveKeeps(cfg, s, c, m);
    case TearsDown(c) => TeardownKeeps(cfg, s, c);
  }

  lemma StepKeeps(cfg: Config, s: State, a: Action)
    requires Inv(cfg, s) && Do(cfg, s, a).Some?
    ensures Inv(cfg, Do(cfg, s, a).value)
  {
    ActKeeps(cfg, s, a);
  }

  lemma {:induction false} RunKeeps(cfg: Config, s: State, trace: seq<Action>)
    requires Inv(cfg, s) && Exec(cfg, s, trace).Some?
    ensures Inv(cfg, Exec(cfg, s, trace).value)
    decreases |trace|
  {
    if trace != [] {
      StepKeeps(cfg, s, trace[0]);
      RunKeeps(cfg, Do(cfg, s, trace[0]).value, trace[1..]);
    }
  }

  lemma ReachableInv(cfg: Config, s: State)
    requires cfg.Valid() && Reachable(cfg, s)
    ensures Inv(cfg, s)
  {
    var trace :| Exec(cfg, Init(cfg), trace) == Some(s);
    RunKeeps(cfg, Init(cfg), trace);
  }
}
