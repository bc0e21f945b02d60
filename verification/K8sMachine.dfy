/**
 * The Kubernetes Executor over crashes and restarts. Buckets, Pods and the Registry's log survive a crash; the polling
 * goroutine and the per-Pod goroutines do not. One action is one cache transaction or one call to the Registry or to
 * Kubernetes, and carries its outcome.
 */
module K8sMachine {
  import opened Basics
  import opened K8sCache
  import opened Order

  /** A post either reaches the log and is answered, reaches it with the answer lost, or fails without effect. */
  datatype Outcome = Answered | Lost | Refused

  /** Progress of one `appendTaskEvent` after its outbox write. */
  datatype Mail = NoMail | Posting(envelope: Envelope) | Confirming(envelope: Envelope)

  datatype Phase =
    | Down | Starting | Listing | Retrying | Marking | Attaching
    | Idle | Scan | Gated | Intended | Granted | Announcing | Announced | Created | Undoing

  datatype Tick = Tick(phase: Phase, rest: seq<TaskId>, task: TaskId, command: string, mail: Mail,
                       kept: seq<Assignment>, pending: seq<Envelope>)

  datatype WorkPhase = Unspawned | Working | Sending | Acknowledged | Deleting | Leaving

  /** The goroutine of one task Pod. */
  datatype Worker = Worker(phase: WorkPhase, mail: Mail, command: string, podName: string, podUID: string)

  /** A running record names its Pod as name, `@`, uid. */
  predicate RefersTo(rec: Assignment, w: Worker) { rec.runtimeRef == w.podName + "@" + w.podUID }

  datatype Pod = Pod(task: TaskId, command: string)

  datatype State = State(
    assignments: Assignments, outbox: Outbox,        // durable
    pods: map<string, Pod>, log: seq<Envelope>,      // the cluster's Pods with this Executor's labels; the Registry
    tick: Tick, workers: map<TaskId, Worker>,        // volatile
    minted: map<EventId, Envelope>,                  // history: every envelope ever built, by its fresh id
    answered: set<EventId>)                          // history: every event whose post the Registry answered
  {
    /** The process is gone: a crash, or `Run` returning an error. */
    function Stopped(): State { this.(tick := NoTick, workers := map[]) }

    /** A fresh envelope, with its pending outbox record unless that write fails, which the source only logs. */
    function Mint(e: Envelope, written: bool): State {
      this.(minted := minted[e.eventId := e], outbox := PutEvent(outbox, OutboxRecord(e, Pending), written))
    }
  }

  const NoTick := Tick(Down, [], "", "", NoMail, [], [])

  function Init(): State { State(map[], map[], map[], [], NoTick, map[], map[], {}) }

  // ---- The Registry ----

  function LogIds(log: seq<Envelope>): set<EventId> { set i | 0 <= i < |log| :: log[i].eventId }

  /** The Registry appends an event id once; an identical retry is accepted without appending. */
  function Deliver(log: seq<Envelope>, e: Envelope, o: Outcome): seq<Envelope> {
    if o == Refused || e.eventId in LogIds(log) then log else log + [e]
  }

  // ---- Names ----

  /** Drop the separators of a task id. */
  function Compact(t: string): string {
    if t == "" then "" else (if t[0] == '-' || t[0] == '_' then "" else [t[0]]) + Compact(t[1..])
  }

  function PodName(t: TaskId): string {
    var c := Compact(t);
    "oh-" + if |c| > 8 then c[..8] else c
  }

  // ---- The polling goroutine ----

  datatype RetryAction =
    | ListPending(pending: seq<Envelope>)
    | RetryPost(outcome: Outcome)
    | RetryMark(written: bool)

  datatype PollAction =
    | Proceed
    | Discover(items: seq<TaskId>)
    | Gate(command: string)
    | Claim(granted: bool, refused: bool)
    | Abort

  datatype StartAction =
    | Intend(rec: Assignment, written: bool)
    | Announce(rec: Assignment, recorded: bool, envelope: Envelope, written: bool)
    | PostRunning(outcome: Outcome)
    | ConfirmRunning(written: bool)
    | CreatePod(outcome: Outcome, uid: string)
    | Undo(written: bool)
    | Record(rec: Assignment, written: bool)

  /** `list` is what the cluster answers when asked for the Pods with this Executor's labels. */
  ghost predicate PodListing(list: seq<PodState>, pods: map<string, Pod>) {
    && (forall i :: 0 <= i < |list| ==>
          list[i].name in pods && list[i].commandLabel == Some(pods[list[i].name].command))
    && (forall name :: name in pods ==> exists i :: 0 <= i < |list| && list[i].name == name)
  }

  /** `Reconcile`: `keys` is the bucket in key order, `stuck` are the records whose delete fails. */
  ghost function DoReconcile(s: State, keys: seq<TaskId>, list: seq<PodState>, stuck: set<TaskId>): Option<State> {
    if s.tick.phase != Starting || !Lists(keys, s.assignments.Keys) || !PodListing(list, s.pods) then None
    else Some(s.(assignments := Reconciled(s.assignments, list, stuck),
                 tick := s.tick.(phase := Listing, kept := Resumable(keys, s.assignments, list))))
  }

  /** `retryPendingOutbox`: an error ends the process. */
  ghost function DoRetry(s: State, a: RetryAction): Option<State>
  {
    var k := s.tick;
    match a
    case ListPending(pending) =>
      if k.phase != Listing || !IsPendingList(pending, s.outbox) then None
      else Some(s.(tick := k.(phase := Retrying, pending := pending)))
    case RetryPost(outcome) =>
      if k.phase != Retrying || k.pending == [] then None else
        var posted := s.(log := Deliver(s.log, k.pending[0], outcome));
        Some(if outcome == Answered then posted.(tick := k.(phase := Marking)) else posted.Stopped())
    case RetryMark(written) =>
      if k.phase != Marking || k.pending == [] then None else
        Some(if written
             then s.(outbox := AcceptEvent(s.outbox, k.pending[0].eventId, true),
                     tick := k.(phase := Retrying, pending := k.pending[1..]))
             else s.Stopped())
  }

  /** `reconcileCachedWork` reconnects the records in turn; an unreadable reference ends the process. */
  function DoAttach(s: State): Option<State>
  {
    var k := s.tick;
    if k.phase != Attaching || k.kept == [] then None
    else
      match SplitRef(k.kept[0].runtimeRef)
      case None => Some(s.Stopped())
      case Some((name, uid)) =>
        var w := Worker(Working, NoMail, k.kept[0].ownerCommandId, name, uid);
        Some(s.(workers := s.workers[k.kept[0].taskId := w], tick := k.(kept := k.kept[1..])))
  }

  /** `tickV0002`, and the steps of a restart or a start that change only the polling goroutine's locals. */
  function Poll(
      maxPods: nat, pods: map<string, Pod>, workers: map<TaskId, Worker>, k: Tick, a: PollAction): Option<Tick>
  {
    match a
    case Proceed =>
      if k.phase == Retrying && k.pending == [] then Some(k.(phase := Attaching))
      else if k.phase == Attaching && k.kept == [] then Some(k.(phase := Idle))
      else None
    case Discover(items) => if k.phase != Idle then None else Some(k.(phase := Scan, rest := items))
    case Gate(command) =>
      if k.phase != Scan then None
      else if k.rest == [] || |pods| >= maxPods then Some(k.(phase := Idle))
      else if k.rest[0] in workers then Some(k.(rest := k.rest[1..]))
      else Some(k.(phase := Gated, task := k.rest[0], command := command, rest := k.rest[1..]))
    case Claim(granted, refused) =>
      if k.phase != Intended then None
      else Some(k.(phase := if granted then Granted else if refused then Scan else Idle))
    case Abort => if k.phase != Granted then None else Some(k.(phase := Idle))
  }

  /** The writes of `startTaskV0002`. */
  function DoStart(s: State, a: StartAction): Option<State>
  {
    var k := s.tick;
    match a
    case Intend(rec, written) =>
      if k.phase != Gated || rec.taskId != k.task || rec.ownerCommandId != k.command
         || rec.runtimeRef != "" || rec.state != Claiming then None
      else Some(s.(assignments := PutRecord(s.assignments, rec, written),
                   tick := k.(phase := if rec.taskId != "" && written then Intended else Idle)))
    case Announce(rec, recorded, envelope, written) =>
      if k.phase != Granted || rec.taskId != k.task || rec.ownerCommandId != k.command
         || rec.runtimeRef != "" || rec.state != Claimed
         || envelope.eventId in s.minted || envelope.taskId != k.task || envelope.eventType != Running then None
      else Some(s.Mint(envelope, written)
                 .(assignments := PutRecord(s.assignments, rec, recorded),
                   tick := k.(phase := Announcing, mail := Posting(envelope))))
    case PostRunning(outcome) =>
      if k.phase != Announcing || !k.mail.Posting? then None
      else Some(s.(log := Deliver(s.log, k.mail.envelope, outcome),
                   tick := if outcome == Answered then k.(mail := Confirming(k.mail.envelope))
                           else k.(phase := Idle, mail := NoMail)))
    case ConfirmRunning(written) =>
      if k.phase != Announcing || !k.mail.Confirming? then None
      else Some(s.(outbox := AcceptEvent(s.outbox, k.mail.envelope.eventId, written),
                   tick := k.(phase := Announced, mail := NoMail)))
    case CreatePod(outcome, uid) => DoCreate(s, outcome, uid)
    case Undo(written) =>
      if k.phase != Undoing then None
      else Some(s.(assignments := DropRecord(s.assignments, k.task, written), tick := k.(phase := Idle)))
    case Record(rec, written) => DoRecord(s, rec, written)
  }

  /** A name already taken is refused; a lost answer leaves the Pod behind. */
  function DoCreate(s: State, outcome: Outcome, uid: string): Option<State>
  {
    var k := s.tick;
    var name := PodName(k.task);
    if k.phase != Announced || (outcome != Refused && name in s.pods) then None
    else
      var pods := if outcome == Refused then s.pods else s.pods[name := Pod(k.task, k.command)];
      Some(if outcome == Answered
           then s.(pods := pods, workers := s.workers[k.task := Worker(Unspawned, NoMail, k.command, name, uid)],
                   tick := k.(phase := Created))
           else s.(pods := pods, tick := k.(phase := Undoing)))
  }

  /** The running record, and the Pod's goroutine starts. */
  function DoRecord(s: State, rec: Assignment, written: bool): Option<State>
  {
    var k := s.tick;
    if k.phase != Created || k.task !in s.workers || rec.taskId != k.task || rec.ownerCommandId != k.command
       || rec.state != InProgress || !RefersTo(rec, s.workers[k.task]) then None
    else Some(s.(assignments := PutRecord(s.assignments, rec, written),
                 workers := s.workers[k.task := s.workers[k.task].(phase := Working)],
                 tick := k.(phase := Scan)))
  }

  // ---- The goroutine of a Pod ----

  datatype WorkAction =
    | Checkpoint(rec: Assignment, written: bool)
    | Finish(envelope: Envelope, written: bool)
    | Stop
    | PostTerminal(outcome: Outcome)
    | ConfirmTerminal(written: bool)
    | Retire(written: bool)
    | DeletePod(gone: bool)
    | Leave

  /** `runPodTask` and `finishPodTask` for task `t`. */
  function DoWork(s: State, t: TaskId, a: WorkAction): Option<State>
  {
    if t !in s.workers then None else
      var w := s.workers[t];
      match a
      case Checkpoint(rec, written) =>
        if w.phase != Working || rec.taskId != t || rec.ownerCommandId != w.command
           || rec.state != InProgress || !RefersTo(rec, w) then None
        else Some(s.(assignments := PutRecord(s.assignments, rec, written)))
      case Finish(envelope, written) =>
        if w.phase != Working || envelope.eventId in s.minted || envelope.taskId != t || envelope.eventType == Running
        then None
        else Some(s.Mint(envelope, written)
                   .(workers := s.workers[t := w.(phase := Sending, mail := Posting(envelope))]))
      case Stop => if w.phase != Working then None else Some(s.(workers := s.workers[t := w.(phase := Leaving)]))
      case PostTerminal(outcome) =>
        if w.phase != Sending || !w.mail.Posting? then None
        else Some(s.(log := Deliver(s.log, w.mail.envelope, outcome),
                     workers := s.workers[t := if outcome == Answered then w.(mail := Confirming(w.mail.envelope))
                                               else w.(phase := Leaving, mail := NoMail)]))
      case ConfirmTerminal(written) =>
        if w.phase != Sending || !w.mail.Confirming? then None
        else Some(s.(outbox := AcceptEvent(s.outbox, w.mail.envelope.eventId, written),
                     workers := s.workers[t := w.(phase := Acknowledged, mail := NoMail)]))
      case Retire(written) =>
        if w.phase != Acknowledged then None
        else Some(s.(assignments := DropRecord(s.assignments, t, written),
                     workers := s.workers[t := w.(phase := Deleting)]))
      case DeletePod(gone) =>
        if w.phase != Deleting then None
        else Some(s.(pods := if gone then s.pods - {w.podName} else s.pods,
                     workers := s.workers[t := w.(phase := Leaving)]))
      case Leave => if w.phase != Leaving then None else Some(s.(workers := s.workers - {t}))
  }

  // ---- Runs ----

  datatype Action =
    | Crash
    | PodVanishes(name: string)         // a deletion completes, or another actor removes the Pod
    | Boots
    | Reconciles(keys: seq<TaskId>, list: seq<PodState>, stuck: set<TaskId>)
    | Retries(retry: RetryAction)
    | Attaches
    | Polls(poll: PollAction)
    | Starts(start: StartAction)
    | Works(t: TaskId, work: WorkAction)

  ghost function Act(maxPods: nat, s: State, a: Action): Option<State> {
    match a
    case Crash => Some(s.Stopped())
    case PodVanishes(name) => Some(s.(pods := s.pods - {name}))
    case Boots => if s.tick.phase != Down then None else Some(s.(tick := NoTick.(phase := Starting)))
    case Reconciles(keys, list, stuck) => DoReconcile(s, keys, list, stuck)
    case Retries(r) => DoRetry(s, r)
    case Attaches => DoAttach(s)
    case Polls(p) =>
      (match Poll(maxPods, s.pods, s.workers, s.tick, p)
       case None => None
       case Some(k) => Some(s.(tick := k)))
    case Starts(k) => DoStart(s, k)
    case Works(t, w) => DoWork(s, t, w)
  }

  /** The event whose post the action reports as answered. */
  function AnsweredBy(s: State, a: Action): set<EventId> {
    if a == Retries(RetryPost(Answered)) && s.tick.pending != [] then {s.tick.pending[0].eventId}
    else if a == Starts(PostRunning(Answered)) && s.tick.mail.Posting? then {s.tick.mail.envelope.eventId}
    else if a.Works? && a.work == PostTerminal(Answered) && a.t in s.workers && s.workers[a.t].mail.Posting?
    then {s.workers[a.t].mail.envelope.eventId}
    else {}
  }

  /** An action with its entry in the history. */
  ghost function Do(maxPods: nat, s: State, a: Action): Option<State> {
    match Act(maxPods, s, a)
    case None => None
    case Some(s') => Some(s'.(answered := s.answered + AnsweredBy(s, a)))
  }

  ghost function Exec(maxPods: nat, s: State, trace: seq<Action>): Option<State>
    decreases |trace|
  {
    if trace == [] then Some(s) else
      match Do(maxPods, s, trace[0])
      case None => None
      case Some(next) => Exec(maxPods, next, trace[1..])
  }

  ghost predicate Reachable(maxPods: nat, s: State) {
    exists trace :: Exec(maxPods, Init(), trace) == Some(s)
  }

  lemma {:induction false} ExecAppend(maxPods: nat, s: State, trace: seq<Action>, a: Action)
    requires Exec(maxPods, s, trace).Some?
    ensures Exec(maxPods, s, trace + [a]) == Do(maxPods, Exec(maxPods, s, trace).value, a)
    decreases |trace|
  {
    if trace == [] {
      assert [a][1..] == [];
    } else {
      assert (trace + [a])[1..] == trace[1..] + [a];
      ExecAppend(maxPods, Do(maxPods, s, trace[0]).value, trace[1..], a);
    }
  }

  /** One more enabled action leads from a reachable state to a reachable state. */
  lemma Extend(maxPods: nat, s: State, a: Action) returns (next: State)
    requires Reachable(maxPods, s)
    requires Act(maxPods, s, a).Some?
    ensures Reachable(maxPods, next)
    ensures next == Act(maxPods, s, a).value.(answered := next.answered)
  {
    var trace :| Exec(maxPods, Init(), trace) == Some(s);
    ExecAppend(maxPods, Init(), trace, a);
    next := Do(maxPods, s, a).value;
    assert Exec(maxPods, Init(), trace + [a]) == Some(next);
  }
}
