/**
 * The Docker Executor as interleaved goroutines: the polling goroutine, and for every slot its
 * run, control-watcher and container-exit-watcher goroutines. One action is one critical section
 * or one call to the Registry, Docker or OpenHands, whose outcome the action carries.
 */
module DockerMachine {
  import opened Basics
  import opened DockerShared

  datatype EventType = EvRunning | EvFinished | EvFailed

  /** A posted task event and whether the Registry's acceptance came back. */
  datatype Event = Event(kind: EventType, accepted: bool)

  datatype ControlStatus = Acknowledged | Completed | ControlFailed
  datatype ControlEvent = ControlEvent(status: ControlStatus, accepted: bool)

  /**
   * One 200 `claimed` reply and the task events this process posted under it. `scoped` is false when the reply has
   * launch parameters and no scope token.
   */
  datatype Claim = Claim(task: TaskId, command: CommandId, scoped: bool, events: seq<Event>)

  /** Where the polling goroutine stands; the `Undo`/`Report`/`Unreserve` stages are the exits of a failed start. */
  datatype Stage =
    | Idle | Scan | Gated | Unseen | Vacant | Commanded
    | Claimed | Marked | Reserved | Announced | Prepared | Ported | Pulled | Started | Installed
    | UndoPort | UndoMark | Report | Unreserve

  datatype Tick = Tick(stage: Stage, rest: seq<TaskId>, task: TaskId, command: CommandId,
                       claim: nat, scoped: bool, port: int, report: bool)

  datatype RunPc =
    | Unstarted | Health | Submit | Stream | Reporting(kind: EventType, record: bool)
    | Closing | Marking | Releasing | Forgetting | Cleaning | Removing | Done
  datatype ControlPc = Off | Poll | Acked | Paused | Sent | Failing
  datatype ExitPc = NoWatch | Watch | Dying

  /** `closed` and `silent` are history: the stream closed normally; the teardown itself won the terminal flag. */
  datatype SlotObject = SlotObject(
    task: TaskId, port: int, terminal: bool, cleaned: bool, recorded: Option<EventType>,
    run: RunPc, control: ControlPc, exit: ExitPc, controls: seq<ControlEvent>,
    closed: bool, silent: bool)

  function NewSlot(t: TaskId, port: int): SlotObject {
    SlotObject(t, port, false, false, None, Unstarted, Off, NoWatch, [], false, false)
  }

  datatype State = State(
    sh: Shared, tick: Tick,
    objs: map<nat, SlotObject>,         // every slot ever created, by claim number
    history: seq<Claim>,                // every 200 claim reply, in order
    tried: map<TaskId, CommandId>,      // command posted for the task since its last 200 reply
    winners: map<nat, SlotAction>,      // history: the step by which a slot's goroutine won its terminal flag
    failures: map<nat, Action>)         // history: the step with which a start gave up
  {
    /** The state after posting `e` under claim `c`. */
    function Append(c: nat, e: Event): State
      requires c < |history|
    {
      this.(history := history[c := history[c].(events := history[c].events + [e])])
    }
  }

  function Init(cfg: Config): State {
    State(Shared(map[], cfg.portStart, map[], 0, map[]),
          Tick(Idle, [], "", "", 0, true, 0, false), map[], [], map[], map[], map[])
  }

  datatype Reply = Refused | Errored | Granted(scoped: bool)
  datatype Setup = EnvironmentFailed | NoImage | Ready

  /** Steps of the polling goroutine that read shared state, or call out, and change only its own locals. */
  datatype Decision =
    | Discover(items: seq<TaskId>)
    | CheckCapacity
    | CheckLifecycle
    | CheckSlot
    | Abandon                           // cancelled while waiting, before `running` is posted
    | Prepare(setup: Setup)
    | Pull(ok: bool)
    | StartContainer(ok: bool)

  function Decide(cfg: Config, sh: Shared, k: Tick, d: Decision): Option<Tick>
  {
    match d
    case Discover(items) =>
      if k.stage != Idle || sh.FreeSlots(cfg) == 0 then None else Some(k.(stage := Scan, rest := items))
    case CheckCapacity =>
      if k.stage != Scan then None
      else if k.rest == [] || sh.FreeSlots(cfg) <= 0 then Some(k.(stage := Idle))
      else Some(k.(stage := Gated, task := k.rest[0], rest := k.rest[1..]))
    case CheckLifecycle =>
      if k.stage != Gated then None else Some(k.(stage := if k.task in sh.accepted then Scan else Unseen))
    case CheckSlot =>
      if k.stage != Unseen then None else Some(k.(stage := if k.task in sh.slots then Scan else Vacant))
    case Abandon =>
      if k.stage != Reserved then None else Some(k.(stage := UndoMark, report := false))
    case Prepare(setup) =>
      if k.stage != Announced then None
      else if !k.scoped then Some(k.(stage := Unreserve))
      else
        (match setup
         case EnvironmentFailed => Some(k.(stage := UndoMark, report := true))
         case NoImage => Some(k.(stage := UndoMark, report := false))
         case Ready => Some(k.(stage := Prepared)))
    case Pull(ok) =>
      if k.stage != Ported then None
      else Some(if ok then k.(stage := Pulled) else k.(stage := UndoPort, report := true))
    case StartContainer(ok) =>
      if k.stage != Pulled then None
      else Some(if ok then k.(stage := Started) else k.(stage := UndoPort, report := true))
  }

  /** Critical sections of the polling goroutine other than installing a slot. */
  datatype Write =
    | PickCommand(minted: CommandId)
    | Mark
    | Reserve
    | Allocate
    | UnwindPort
    | UnwindMark
    | UnwindReservation

  function DoWrite(cfg: Config, sh: Shared, k: Tick, w: Write): Option<(Shared, Tick)>
  {
    match w
    case PickCommand(minted) =>
      if k.stage != Vacant || minted == "" then None else
        var sh' := sh.WithCommand(k.task, minted);
        Some((sh', k.(stage := Commanded, command := sh'.commandIDs[k.task])))
    case Mark =>
      if k.stage != Claimed then None else
        (match sh.MarkAccepted(k.task)
         case None => Some((sh, k.(stage := Idle)))
         case Some(sh') => Some((sh', k.(stage := Marked))))
    case Reserve =>
      if k.stage != Marked then None else Some((sh.Reserve(), k.(stage := Reserved)))
    case Allocate =>
      if k.stage != Prepared then None else
        (match sh.AllocatePort(cfg)
         case None => Some((sh, k.(stage := UndoMark, report := false)))
         case Some((sh', p)) => Some((sh', k.(stage := Ported, port := p))))
    case UnwindPort =>
      if k.stage != UndoPort then None else Some((sh.ReleasePort(k.port), k.(stage := UndoMark)))
    case UnwindMark =>
      if k.stage != UndoMark then None
      else Some((sh.Forget(k.task), k.(stage := if k.report then Report else Unreserve)))
    case UnwindReservation =>
      if k.stage != Unreserve then None else Some((sh.ReleaseReservation(), k.(stage := Idle)))
  }

  /** Registry posts of the polling goroutine. */
  datatype Post =
    | PostClaim(reply: Reply)
    | PostRunning(ok: bool)
    | PostFailed(ok: bool)

  function DoPost(s: State, p: Post): Option<State>
  {
    var k := s.tick;
    match p
    case PostClaim(reply) =>
      if k.stage != Commanded then None else
        (match reply
         case Refused => Some(s.(tried := s.tried[k.task := k.command], tick := k.(stage := Scan)))
         case Errored => Some(s.(tried := s.tried[k.task := k.command], tick := k.(stage := Idle)))
         case Granted(scoped) => Some(s.(history := s.history + [Claim(k.task, k.command, scoped, [])],
                                         tried := s.tried - {k.task},
                                         tick := k.(stage := Claimed, claim := |s.history|, scoped := scoped))))
    case PostRunning(ok) =>
      if k.stage != Reserved || k.claim >= |s.history| then None else
        Some(s.Append(k.claim, Event(EvRunning, ok))
              .(tick := if ok then k.(stage := Announced) else k.(stage := UndoMark, report := false)))
    case PostFailed(ok) =>
      if k.stage != Report || k.claim >= |s.history| then None
      else Some(s.Append(k.claim, Event(EvFailed, ok)).(tick := k.(stage := Unreserve)))
  }

  /** `addSlot`, with the slot's goroutines not yet spawned and the reservation still held. */
  function DoInstall(s: State): Option<State> {
    var k := s.tick;
    if k.stage != Started then None else
      Some(s.(sh := s.sh.AddSlot(k.task, k.port), objs := s.objs[k.claim := NewSlot(k.task, k.port)],
              tick := k.(stage := Installed)))
  }

  /** The reservation is given back and the slot's goroutines start. */
  function DoSettle(s: State): Option<State> {
    var k := s.tick;
    if k.stage != Installed || k.claim !in s.objs then None else
      var o := s.objs[k.claim].(run := Health, exit := Watch);
      Some(s.(sh := s.sh.ReleaseReservation(), objs := s.objs[k.claim := o], tick := k.(stage := Scan)))
  }

  /** Steps of a slot's goroutines before its teardown. */
  datatype SlotAction =
    | CheckHealth(ok: bool)
    | SubmitPrompt(ok: bool)
    | TerminalFrame(finished: bool)
    | StreamFails
    | StreamCloses
    | RunPosts(ok: bool)
    | ControlStops
    | Acknowledge(ok: bool)
    | Pause(ok: bool, posted: bool)
    | Complete(ok: bool)
    | ControlClaims
    | ControlPosts(ok: bool)
    | ExitStops
    | ContainerDies
    | ExitPosts(ok: bool)

  /** The slot after a step, and the task event the step posts, if any. */
  datatype Moved = Moved(slot: SlotObject, posted: Option<Event>)

  /** `claimTerminal` by the run goroutine: the winner reports, the loser goes straight to teardown. */
  function RunClaims(o: SlotObject, kind: EventType, record: bool): SlotObject {
    if o.terminal then o.(run := Closing) else o.(terminal := true, run := Reporting(kind, record))
  }

  /** `runTaskV0002`, `watchTaskControls`/`applyCancelControl` and `watchContainerExitV0002`. */
  function Move(o: SlotObject, a: SlotAction): Option<Moved>
  {
    match a
    case CheckHealth(ok) =>
      if o.run != Health then None
      else Some(Moved(if ok then o.(run := Submit) else RunClaims(o, EvFailed, false), None))
    case SubmitPrompt(ok) =>
      if o.run != Submit then None
      else Some(Moved(if ok then o.(run := Stream, control := Poll) else RunClaims(o, EvFailed, false), None))
    case TerminalFrame(finished) =>
      if o.run != Stream then None
      else Some(Moved(RunClaims(o, if finished then EvFinished else EvFailed, true), None))
    case StreamFails => if o.run != Stream then None else Some(Moved(RunClaims(o, EvFailed, false), None))
    case StreamCloses => if o.run != Stream then None else Some(Moved(o.(run := Closing, closed := true), None))
    case RunPosts(ok) =>
      if !o.run.Reporting? then None
      else Some(Moved(o.(run := Closing, recorded := if o.run.record then Some(o.run.kind) else o.recorded),
                      Some(Event(o.run.kind, ok))))
    case ControlStops => if o.control != Poll then None else Some(Moved(o.(control := Off), None))
    case Acknowledge(ok) =>
      if o.control != Poll then None
      else Some(Moved(o.(control := if ok then Acked else Off,
                         controls := o.controls + [ControlEvent(Acknowledged, ok)]), None))
    case Pause(ok, posted) =>
      if o.control != Acked then None
      else if ok then Some(Moved(o.(control := Paused), None))
      else Some(Moved(o.(control := Off, controls := o.controls + [ControlEvent(ControlFailed, posted)]), None))
    case Complete(ok) =>
      if o.control != Paused then None
      else Some(Moved(o.(control := if ok then Sent else Off,
                         controls := o.controls + [ControlEvent(Completed, ok)]), None))
    case ControlClaims =>
      if o.control != Sent then None
      else Some(Moved(if o.terminal then o.(control := Off) else o.(terminal := true, control := Failing), None))
    case ControlPosts(ok) =>
      if o.control != Failing then None
      else Some(Moved(o.(control := Off, recorded := Some(EvFailed)), Some(Event(EvFailed, ok))))
    case ExitStops => if o.exit != Watch then None else Some(Moved(o.(exit := NoWatch), None))
    case ContainerDies =>
      if o.exit != Watch then None
      else Some(Moved(if o.terminal then o.(exit := NoWatch) else o.(terminal := true, exit := Dying), None))
    case ExitPosts(ok) =>
      if o.exit != Dying then None
      else Some(Moved(o.(exit := NoWatch, recorded := if ok then Some(EvFailed) else o.recorded),
                      Some(Event(EvFailed, ok))))
  }

  function DoMove(s: State, c: nat, a: SlotAction): Option<State> {
    if c !in s.objs || c >= |s.history| then None else
      match Move(s.objs[c], a)
      case None => None
      case Some(Moved(o, None)) => Some(s.(objs := s.objs[c := o]))
      case Some(Moved(o, Some(e))) => Some(s.Append(c, e).(objs := s.objs[c := o]))
  }

  /** The next deferred step of a slot's run goroutine, on the slot. */
  function Torn(cfg: Config, o: SlotObject): Option<SlotObject> {
    var afterMarking := if cfg.teardown == ReleaseFirst then Releasing else Forgetting;
    match o.run
    case Closing =>
      Some(if o.terminal then o.(run := afterMarking) else o.(terminal := true, silent := true, run := Marking))
    case Marking => Some(o.(run := afterMarking))
    case Releasing => Some(o.(run := if cfg.teardown == ReleaseFirst then Forgetting else Done))
    case Forgetting => Some(o.(run := Cleaning))
    case Cleaning => Some(o.(cleaned := true, run := Removing))
    case Removing => Some(o.(run := if cfg.teardown == RemoveThenRelease then Releasing else Done))
    case _ => None
  }

  /** The same step, on the shared state. */
  function TornShared(cfg: Config, sh: Shared, o: SlotObject): Shared {
    match o.run
    case Marking => sh.MarkTerminal(o.task)
    case Releasing => sh.ReleasePort(o.port)
    case Forgetting => sh.ForgetCommand(o.task)
    case Removing =>
      if cfg.teardown == RemoveAndRelease then sh.RemoveSlot(o.task).ReleasePort(o.port)
      else sh.RemoveSlot(o.task)
    case _ => sh
  }

  function DoTeardown(cfg: Config, s: State, c: nat): Option<State> {
    if c !in s.objs then None else
      match Torn(cfg, s.objs[c])
      case None => None
      case Some(o) => Some(s.(sh := TornShared(cfg, s.sh, s.objs[c]), objs := s.objs[c := o]))
  }

  datatype Action =
    | Decides(decision: Decision)
    | Writes(write: Write)
    | Posts(post: Post)
    | Installs
    | Settles
    | Moves(c: nat, slot: SlotAction)
    | TearsDown(c: nat)

  function Act(cfg: Config, s: State, a: Action): Option<State> {
    match a
    case Decides(d) =>
      (match Decide(cfg, s.sh, s.tick, d)
       case None => None
       case Some(k) => Some(s.(tick := k)))
    case Writes(w) =>
      (match DoWrite(cfg, s.sh, s.tick, w)
       case None => None
       case Some((sh, k)) => Some(s.(sh := sh, tick := k)))
    case Posts(p) => DoPost(s, p)
    case Installs => DoInstall(s)
    case Settles => DoSettle(s)
    case Moves(c, m) => DoMove(s, c, m)
    case TearsDown(c) => DoTeardown(cfg, s, c)
  }

  predicate Unwinding(stage: Stage) { stage.UndoPort? || stage.UndoMark? || stage.Report? || stage.Unreserve? }

  /** `a` is the step by which the slot's terminal flag was set. */
  predicate Wins(s: State, a: Action, s': State) {
    a.Moves? && a.c in s.objs && a.c in s'.objs && !s.objs[a.c].terminal && s'.objs[a.c].terminal
  }

  /** `a` is the step that sends the start into its error path. */
  predicate GivesUp(s: State, s': State) { !Unwinding(s.tick.stage) && Unwinding(s'.tick.stage) }

  /** An action with its entry in the history. */
  function Do(cfg: Config, s: State, a: Action): Option<State> {
    match Act(cfg, s, a)
    case None => None
    case Some(s') =>
      Some(s'.(winners := if Wins(s, a, s') then s.winners[a.c := a.slot] else s.winners,
               failures := if GivesUp(s, s') then s.failures[s.tick.claim := a] else s.failures))
  }

  /** The state after the run `trace`, if every action of it was enabled in turn. */
  function Exec(cfg: Config, s: State, trace: seq<Action>): Option<State>
    decreases |trace|
  {
    if trace == [] then Some(s) else
      match Do(cfg, s, trace[0])
      case None => None
      case Some(next) => Exec(cfg, next, trace[1..])
  }

  ghost predicate Reachable(cfg: Config, s: State) {
    exists trace :: Exec(cfg, Init(cfg), trace) == Some(s)
  }

  lemma {:induction false} ExecAppend(cfg: Config, s: State, trace: seq<Action>, a: Action)
    requires Exec(cfg, s, trace).Some?
    ensures Exec(cfg, s, trace + [a]) == Do(cfg, Exec(cfg, s, trace).value, a)
    decreases |trace|
  {
    if trace == [] {
      assert [a][1..] == [];
    } else {
      assert (trace + [a])[1..] == trace[1..] + [a];
      ExecAppend(cfg, Do(cfg, s, trace[0]).value, trace[1..], a);
    }
  }

  /** One more enabled action leads from a reachable state to a reachable state. */
  lemma Extend(cfg: Config, s: State, a: Action) returns (next: State)
    requires Reachable(cfg, s)
    requires Act(cfg, s, a).Some?
    ensures Reachable(cfg, next)
    ensures next == Act(cfg, s, a).value.(winners := next.winners, failures := next.failures)
  {
    var trace :| Exec(cfg, Init(cfg), trace) == Some(s);
    ExecAppend(cfg, Init(cfg), trace, a);
    next := Do(cfg, s, a).value;
    assert Exec(cfg, Init(cfg), trace + [a]) == Some(next);
  }
}
