/** Every run is as long as its task listings allow, and where nothing more can happen all has been given back. */
module DockerProgress {
  import opened Basics
  import opened DockerShared
  import opened DockerMachine
  import opened DockerInvariants

  // ---- What is left to do ----

  /** Bounds the polling goroutine's steps until it is idle or back at its list. */
  function StageRank(stage: Stage): nat {
    match stage
    case Idle => 0
    case Scan => 1
    case Unreserve => 2
    case Report => 3
    case UndoMark => 4
    case UndoPort => 5
    case Installed => 10
    case Started => 300
    case Pulled => 301
    case Ported => 302
    case Prepared => 303
    case Announced => 304
    case Reserved => 305
    case Marked => 306
    case Claimed => 307
    case Commanded => 308
    case Vacant => 309
    case Unseen => 310
    case Gated => 311
  }

  /** Bounds the run goroutine's steps; the order of its teardown is configured. */
  function RunRank(cfg: Config, run: RunPc): nat {
    match run
    case Unstarted => 12
    case Health => 11
    case Submit => 10
    case Stream => 9
    case Reporting(_, _) => 8
    case Closing => 7
    case Marking => 6
    case Releasing => if cfg.teardown == ReleaseFirst then 5 else 1
    case Forgetting => 4
    case Cleaning => 3
    case Removing => 2
    case Done => 0
  }

  function ControlRank(control: ControlPc): nat {
    match control
    case Off => 0
    case Failing => 1
    case Sent => 2
    case Paused => 3
    case Acked => 4
    case Poll => 5
  }

  function ExitRank(exit: ExitPc): nat { if exit.NoWatch? then 0 else if exit.Dying? then 1 else 2 }

  function SlotLoad(cfg: Config, o: SlotObject): nat {
    20 * RunRank(cfg, o.run) + ControlRank(o.control) + ExitRank(o.exit)
  }

  /** The load of the slots numbered below `n`. */
  function Load(cfg: Config, objs: Objects, n: nat): nat {
    if n == 0 then 0
    else Load(cfg, objs, n - 1) + if n - 1 in objs then SlotLoad(cfg, objs[n - 1]) else 0
  }

  function TickLoad(k: Tick): nat { 312 * |k.rest| + StageRank(k.stage) }

  function Remaining(cfg: Config, s: State): nat { TickLoad(s.tick) + Load(cfg, s.objs, |s.history|) }

  lemma {:induction false} LoadUpdate(cfg: Config, objs: Objects, c: nat, o: SlotObject, n: nat)
    ensures Load(cfg, objs[c := o], n) ==
      if c >= n then Load(cfg, objs, n)
      else Load(cfg, objs, n) - (if c in objs then SlotLoad(cfg, objs[c]) else 0) + SlotLoad(cfg, o)
    ensures c < n && c in objs ==> Load(cfg, objs, n) >= SlotLoad(cfg, objs[c])
  {
    if n > 0 { LoadUpdate(cfg, objs, c, o, n - 1); }
  }

  // ---- Every action but a listing uses some of it up ----

  lemma MoveDescends(cfg: Config, o: SlotObject, a: SlotAction)
    requires Move(o, a).Some?
    ensures SlotLoad(cfg, Move(o, a).value.slot) < SlotLoad(cfg, o)
  {
    if OfRun(a) { RunMoves(cfg, o, a); } else { WatchMoves(cfg, o, a); }
  }

  predicate OfRun(a: SlotAction) {
    a.CheckHealth? || a.SubmitPrompt? || a.TerminalFrame? || a.StreamFails? || a.StreamCloses? || a.RunPosts?
  }

  lemma RunMoves(cfg: Config, o: SlotObject, a: SlotAction)
    requires OfRun(a) && Move(o, a).Some?
    ensures SlotLoad(cfg, Move(o, a).value.slot) < SlotLoad(cfg, o)
  {
    var o' := Move(o, a).value.slot;
    assert o'.exit == o.exit && (o'.control == o.control || o'.control == Poll);
    assert RunRank(cfg, o'.run) < RunRank(cfg, o.run);
  }

  lemma WatchMoves(cfg: Config, o: SlotObject, a: SlotAction)
    requires !OfRun(a) && Move(o, a).Some?
    ensures SlotLoad(cfg, Move(o, a).value.slot) < SlotLoad(cfg, o)
  {
    assert Move(o, a).value.slot.run == o.run;
  }

  lemma TornDescends(cfg: Config, o: SlotObject)
    requires Torn(cfg, o).Some?
    ensures SlotLoad(cfg, Torn(cfg, o).value) < SlotLoad(cfg, o)
  {
    var o' := Torn(cfg, o).value;
    assert o'.control == o.control && o'.exit == o.exit;
    assert RunRank(cfg, o'.run) < RunRank(cfg, o.run);
  }

  lemma DecideDescends(cfg: Config, sh: Shared, k: Tick, d: Decision)
    requires Decide(cfg, sh, k, d).Some?
    ensures var k' := Decide(cfg, sh, k, d).value;
      if d.Discover? then TickLoad(k') <= TickLoad(k) + 312 * |d.items| + 1 else TickLoad(k') < TickLoad(k)
  {}

  lemma WriteDescends(cfg: Config, sh: Shared, k: Tick, w: Write)
    requires DoWrite(cfg, sh, k, w).Some?
    ensures TickLoad(DoWrite(cfg, sh, k, w).value.1) < TickLoad(k)
  {}

  lemma PostDescends(cfg: Config, s: State, p: Post)
    requires Shape(s.tick, s.objs, s.history) && DoPost(s, p).Some?
    ensures Remaining(cfg, DoPost(s, p).value) < Remaining(cfg, s)
  {
    var s' := DoPost(s, p).value;
    assert TickLoad(s'.tick) < TickLoad(s.tick) && s'.objs == s.objs;
    assert |s.history| !in s.objs;
  }

  lemma InstallDescends(cfg: Config, s: State)
    requires Shape(s.tick, s.objs, s.history)
    ensures DoInstall(s).Some? ==> Remaining(cfg, DoInstall(s).value) < Remaining(cfg, s)
    ensures DoSettle(s).Some? ==> Remaining(cfg, DoSettle(s).value) < Remaining(cfg, s)
  {
    var k := s.tick;
    if DoInstall(s).Some? {
      LoadUpdate(cfg, s.objs, k.claim, NewSlot(k.task, k.port), |s.history|);
    }
    if DoSettle(s).Some? {
      LoadUpdate(cfg, s.objs, k.claim, s.objs[k.claim].(run := Health, exit := Watch), |s.history|);
    }
  }

  /** What a step may add: a listing of tasks. */
  function Listed(a: Action): nat {
    match a
    case Decides(Discover(items)) => 312 * |items| + 2
    case _ => 0
  }

  lemma StepDescends(cfg: Config, s: State, a: Action)
    requires Shape(s.tick, s.objs, s.history) && Do(cfg, s, a).Some?
    ensures Remaining(cfg, Do(cfg, s, a).value) < Remaining(cfg, s) + Listed(a)
  {
    match a
    case Decides(d) => DecideDescends(cfg, s.sh, s.tick, d);
    case Writes(w) => WriteDescends(cfg, s.sh, s.tick, w);
    case Posts(p) => PostDescends(cfg, s, p);
    case Installs => InstallDescends(cfg, s);
    case Settles => InstallDescends(cfg, s);
    case Moves(c, m) =>
      MoveDescends(cfg, s.objs[c], m);
      LoadUpdate(cfg, s.objs, c, Move(s.objs[c], m).value.slot, |s.history|);
    case TearsDown(c) =>
      TornDescends(cfg, s.objs[c]);
      LoadUpdate(cfg, s.objs, c, Torn(cfg, s.objs[c]).value, |s.history|);
  }

  function AllListed(trace: seq<Action>): nat {
    if trace == [] then 0 else Listed(trace[0]) + AllListed(trace[1..])
  }

  lemma {:induction false} RunDescends(cfg: Config, s: State, trace: seq<Action>)
    requires Inv(cfg, s) && Exec(cfg, s, trace).Some?
    ensures |trace| + Remaining(cfg, Exec(cfg, s, trace).value) <= Remaining(cfg, s) + AllListed(trace)
    decreases |trace|
  {
    if trace != [] {
      StepDescends(cfg, s, trace[0]);
      StepKeeps(cfg, s, trace[0]);
      RunDescends(cfg, Do(cfg, s, trace[0]).value, trace[1..]);
    }
  }

  /** However the goroutines interleave, a run takes at most 312 steps for each listed task and two for each listing. */
  lemma RunBounded(cfg: Config, trace: seq<Action>)
    requires cfg.Valid() && Exec(cfg, Init(cfg), trace).Some?
    ensures |trace| <= AllListed(trace)
  {
    RunDescends(cfg, Init(cfg), trace);
  }

  // ---- Nothing gets stuck ----

  /** Nothing more can happen until tasks are listed again. */
  ghost predicate Quiet(cfg: Config, s: State) {
    forall a :: Act(cfg, s, a).Some? ==> a.Decides? && a.decision.Discover?
  }

  /** A step the polling goroutine can always take at this stage. */
  function Next(stage: Stage): Action {
    match stage
    case Idle => Decides(Discover([]))
    case Scan => Decides(CheckCapacity)
    case Gated => Decides(CheckLifecycle)
    case Unseen => Decides(CheckSlot)
    case Vacant => Writes(PickCommand("c"))
    case Commanded => Posts(PostClaim(Refused))
    case Claimed => Writes(Mark)
    case Marked => Writes(Reserve)
    case Reserved => Posts(PostRunning(true))
    case Announced => Decides(Prepare(Ready))
    case Prepared => Writes(Allocate)
    case Ported => Decides(Pull(true))
    case Pulled => Decides(StartContainer(true))
    case Started => Installs
    case Installed => Settles
    case UndoPort => Writes(UnwindPort)
    case UndoMark => Writes(UnwindMark)
    case Report => Posts(PostFailed(true))
    case Unreserve => Writes(UnwindReservation)
  }

  lemma PollGoesOn(cfg: Config, s: State)
    requires Shape(s.tick, s.objs, s.history) && s.tick.stage != Idle
    ensures Act(cfg, s, Next(s.tick.stage)).Some?
  {}

  /** All of a slot's goroutines have returned. */
  predicate Over(o: SlotObject) { o.run.Done? && o.control.Off? && o.exit.NoWatch? }

  function NextMove(o: SlotObject): Option<SlotAction> {
    if o.control.Poll? then Some(ControlStops)
    else if o.control.Acked? then Some(Pause(true, true))
    else if o.control.Paused? then Some(Complete(true))
    else if o.control.Sent? then Some(ControlClaims)
    else if o.control.Failing? then Some(ControlPosts(true))
    else if o.exit.Watch? then Some(ExitStops)
    else if o.exit.Dying? then Some(ExitPosts(true))
    else if o.run.Health? then Some(CheckHealth(true))
    else if o.run.Submit? then Some(SubmitPrompt(true))
    else if o.run.Stream? then Some(StreamCloses)
    else if o.run.Reporting? then Some(RunPosts(true))
    else None
  }

  lemma SlotGoesOn(cfg: Config, o: SlotObject)
    requires !Over(o) && !o.run.Unstarted?
    ensures if NextMove(o).Some? then Move(o, NextMove(o).value).Some? else Torn(cfg, o).Some?
  {}

  lemma ActsOn(cfg: Config, s: State, c: nat)
    requires Shape(s.tick, s.objs, s.history) && c in s.objs && !Over(s.objs[c]) && !s.objs[c].run.Unstarted?
    ensures !Quiet(cfg, s)
  {
    SlotGoesOn(cfg, s.objs[c]);
    var m := NextMove(s.objs[c]);
    assert Act(cfg, s, if m.Some? then Moves(c, m.value) else TearsDown(c)).Some?;
  }

  lemma OverMoves(cfg: Config, o: SlotObject, a: SlotAction)
    requires Over(o)
    ensures Move(o, a).None? && Torn(cfg, o).None?
  {}

  lemma IdleActs(cfg: Config, s: State, a: Action)
    requires s.tick.stage == Idle && (forall c :: c in s.objs ==> Over(s.objs[c])) && Act(cfg, s, a).Some?
    ensures a.Decides? && a.decision.Discover?
  {
    if a.Moves? && a.c in s.objs { OverMoves(cfg, s.objs[a.c], a.slot); }
    if a.TearsDown? && a.c in s.objs { OverMoves(cfg, s.objs[a.c], ExitStops); }
  }

  /** Every entry of the slot map is some slot's. */
  ghost predicate Owned(objs: Objects, slots: map<TaskId, int>) {
    forall t :: t in slots ==> exists c :: c in objs && objs[c].task == t
  }

  lemma OwnedMoves(objs: Objects, slots: map<TaskId, int>, objs': Objects, slots': map<TaskId, int>)
    requires Owned(objs, slots) && slots'.Keys <= slots.Keys
    requires forall c :: c in objs ==> c in objs' && objs'[c].task == objs[c].task
    ensures Owned(objs', slots')
  {
    forall t | t in slots' ensures exists c :: c in objs' && objs'[c].task == t {
      var c :| c in objs && objs[c].task == t;
      assert c in objs';
    }
  }

  lemma OwnedInstalls(objs: Objects, slots: map<TaskId, int>, c: nat, t: TaskId, port: int)
    requires Owned(objs, slots) && c !in objs
    ensures Owned(objs[c := NewSlot(t, port)], slots[t := port])
  {
    var objs', slots' := objs[c := NewSlot(t, port)], slots[t := port];
    forall u | u in slots' ensures exists d :: d in objs' && objs'[d].task == u {
      if u == t {
        assert objs'[c].task == t;
      } else {
        var d :| d in objs && objs[d].task == u;
        assert d in objs';
      }
    }
  }

  lemma WriteSlots(cfg: Config, sh: Shared, k: Tick, w: Write)
    requires DoWrite(cfg, sh, k, w).Some?
    ensures DoWrite(cfg, sh, k, w).value.0.slots == sh.slots
  {}

  lemma PostSlots(s: State, p: Post)
    requires DoPost(s, p).Some?
    ensures DoPost(s, p).value.sh == s.sh && DoPost(s, p).value.objs == s.objs
  {}

  lemma TearSlots(cfg: Config, s: State, c: nat)
    requires DoTeardown(cfg, s, c).Some?
    ensures var s' := DoTeardown(cfg, s, c).value;
      && s'.sh.slots.Keys <= s.sh.slots.Keys
      && forall d :: d in s.objs ==> d in s'.objs && s'.objs[d].task == s.objs[d].task
  {}

  lemma StepOwned(cfg: Config, s: State, a: Action)
    requires Shape(s.tick, s.objs, s.history) && Owned(s.objs, s.sh.slots) && Do(cfg, s, a).Some?
    ensures var s' := Do(cfg, s, a).value; Owned(s'.objs, s'.sh.slots)
  {
    var s' := Act(cfg, s, a).value;
    match a
    case Installs => OwnedInstalls(s.objs, s.sh.slots, s.tick.claim, s.tick.task, s.tick.port);
    case Moves(c, m) => OwnedMove(s, c, m);
    case Writes(w) => WriteSlots(cfg, s.sh, s.tick, w);
    case Posts(p) => PostSlots(s, p);
    case Decides(_) =>
    case Settles => OwnedMoves(s.objs, s.sh.slots, s'.objs, s'.sh.slots);
    case TearsDown(c) => OwnedTears(cfg, s, c);
  }

  lemma OwnedTears(cfg: Config, s: State, c: nat)
    requires Owned(s.objs, s.sh.slots) && DoTeardown(cfg, s, c).Some?
    ensures var s' := DoTeardown(cfg, s, c).value; Owned(s'.objs, s'.sh.slots)
  {
    var s' := DoTeardown(cfg, s, c).value;
    TearSlots(cfg, s, c);
    OwnedMoves(s.objs, s.sh.slots, s'.objs, s'.sh.slots);
  }

  lemma OwnedMove(s: State, c: nat, m: SlotAction)
    requires Owned(s.objs, s.sh.slots) && DoMove(s, c, m).Some?
    ensures var s' := DoMove(s, c, m).value; Owned(s'.objs, s'.sh.slots)
  {
    var s' := DoMove(s, c, m).value;
    MovePlace(s.objs[c], m);
    OwnedMoves(s.objs, s.sh.slots, s'.objs, s'.sh.slots);
  }

  lemma {:induction false} RunOwned(cfg: Config, s: State, trace: seq<Action>)
    requires Inv(cfg, s) && Owned(s.objs, s.sh.slots) && Exec(cfg, s, trace).Some?
    ensures var s' := Exec(cfg, s, trace).value; Owned(s'.objs, s'.sh.slots)
    decreases |trace|
  {
    if trace != [] {
      StepOwned(cfg, s, trace[0]);
      StepKeeps(cfg, s, trace[0]);
      RunOwned(cfg, Do(cfg, s, trace[0]).value, trace[1..]);
    }
  }

  /** The slot map holds exactly the tasks of slots whose teardown has not removed them. */
  lemma SlotsExact(cfg: Config, s: State, t: TaskId)
    requires cfg.Valid() && Reachable(cfg, s)
    ensures t in s.sh.slots <==> exists c :: c in s.objs && s.objs[c].task == t && Present(cfg, s.objs[c].run)
  {
    ReachableInv(cfg, s);
    var trace :| Exec(cfg, Init(cfg), trace) == Some(s);
    RunOwned(cfg, Init(cfg), trace);
    if t in s.sh.slots {
      var c :| c in s.objs && s.objs[c].task == t;
      assert Present(cfg, s.objs[c].run);
    }
  }

  /**
   * A run can stop only where the polling goroutine is idle and every slot's goroutines have returned. By then every
   * reservation and slot has been given back, every slot has been cleaned up, and every terminal flag has been won.
   */
  lemma QuietExact(cfg: Config, s: State)
    requires cfg.Valid() && Reachable(cfg, s)
    ensures Quiet(cfg, s) <==> s.tick.stage == Idle && forall c :: c in s.objs ==> Over(s.objs[c])
    ensures Quiet(cfg, s) ==>
      && s.sh.slots == map[] && s.sh.reservations == 0
      && forall c :: c in s.objs ==> s.objs[c].cleaned && s.objs[c].terminal
  {
    ReachableInv(cfg, s);
    if Quiet(cfg, s) { QuietOver(cfg, s); }
    if s.tick.stage == Idle && forall c :: c in s.objs ==> Over(s.objs[c]) {
      forall a | Act(cfg, s, a).Some? ensures a.Decides? && a.decision.Discover? { IdleActs(cfg, s, a); }
      forall t ensures t !in s.sh.slots { SlotsExact(cfg, s, t); }
      forall c | c in s.objs ensures s.objs[c].terminal { assert SlotEvents(s.objs[c], s.history[c].events); }
    }
  }

  lemma QuietOver(cfg: Config, s: State)
    requires Shape(s.tick, s.objs, s.history) && Quiet(cfg, s)
    ensures s.tick.stage == Idle && forall c :: c in s.objs ==> Over(s.objs[c])
  {
    if s.tick.stage != Idle { PollGoesOn(cfg, s); }
    forall c | c in s.objs ensures Over(s.objs[c]) {
      if !Over(s.objs[c]) { ActsOn(cfg, s, c); }
    }
  }

  // ---- A tick ----

  /** Tasks are listed exactly when idle and below the limit. */
  lemma DiscoverExact(cfg: Config, s: State, items: seq<TaskId>)
    requires cfg.Valid() && Reachable(cfg, s)
    ensures Act(cfg, s, Decides(Discover(items))).Some? <==>
      s.tick.stage == Idle && |s.sh.slots| < cfg.maxContainers
    ensures Act(cfg, s, Decides(Discover(items))).Some? ==>
      Act(cfg, s, Decides(Discover(items))).value == s.(tick := s.tick.(stage := Scan, rest := items))
  {
    ReachableInv(cfg, s);
  }

  /**
   * A tick ends exactly when its list is used up or the limit reached, when a claim errs, or when a failed start has
   * given its reservation back; a refused claim goes on with the list. Listed tasks are taken up one by one, in order.
   */
  lemma TickExact(cfg: Config, s: State, a: Action)
    requires cfg.Valid() && Reachable(cfg, s) && s.tick.stage != Idle && Act(cfg, s, a).Some?
    ensures var s' := Act(cfg, s, a).value;
      s'.tick.stage == Idle <==>
        || (a == Decides(CheckCapacity) &&
            (s.tick.rest == [] || |s.sh.slots| + s.sh.reservations >= cfg.maxContainers))
        || a == Posts(PostClaim(Errored)) || a == Writes(UnwindReservation)
    ensures var s' := Act(cfg, s, a).value;
      s.tick.rest == if s'.tick.stage == Gated && s.tick.stage == Scan then [s'.tick.task] + s'.tick.rest
                     else s'.tick.rest
  {
    ReachableInv(cfg, s);
    match a
    case Decides(d) => TickDecides(cfg, s.sh, s.tick, d);
    case Writes(w) => TickWrites(cfg, s.sh, s.tick, w);
    case Posts(p) => TickPosts(s, p);
    case _ => TickElsewhere(cfg, s, a);
  }

  lemma TickElsewhere(cfg: Config, s: State, a: Action)
    requires Act(cfg, s, a).Some? && !a.Decides? && !a.Writes? && !a.Posts?
    ensures var k' := Act(cfg, s, a).value.tick;
      && k'.rest == s.tick.rest && (k'.stage == s.tick.stage || k'.stage == Installed || k'.stage == Scan)
  {}

  lemma TickDecides(cfg: Config, sh: Shared, k: Tick, d: Decision)
    requires k.stage != Idle && Decide(cfg, sh, k, d).Some?
    ensures var k' := Decide(cfg, sh, k, d).value;
      && (k'.stage == Idle <==> d.CheckCapacity? && (k.rest == [] || |sh.slots| + sh.reservations >= cfg.maxContainers))
      && k.rest == (if k'.stage == Gated && k.stage == Scan then [k'.task] + k'.rest else k'.rest)
  {}

  lemma TickWrites(cfg: Config, sh: Shared, k: Tick, w: Write)
    requires k.stage != Idle && DoWrite(cfg, sh, k, w).Some? && (k.stage.Claimed? ==> k.task !in sh.accepted)
    ensures var k' := DoWrite(cfg, sh, k, w).value.1;
      (k'.stage == Idle <==> w.UnwindReservation?) && k'.rest == k.rest && k'.stage != Gated
  {}

  lemma TickPosts(s: State, p: Post)
    requires s.tick.stage != Idle && DoPost(s, p).Some?
    ensures var k' := DoPost(s, p).value.tick;
      (k'.stage == Idle <==> p == PostClaim(Errored)) && k'.rest == s.tick.rest && k'.stage != Gated
  {}
}
