/** The Kubernetes Executor's promises, over every run with crashes and restarts. */
module K8sTheorems {
  import opened Basics
  import opened K8sCache
  import opened K8sMachine
  import opened K8sInvariants

  /**
   * A terminal event exists, in the log or in the outbox, only for a task whose `running` event the Registry already
   * holds; in the log the `running` event comes first.
   */
  lemma TerminalFollowsRunning(maxPods: nat, s: State)
    requires Reachable(maxPods, s)
    ensures forall i :: 0 <= i < |s.log| && s.log[i].eventType != Running ==> Known(s.log[..i], s.log[i].taskId)
    ensures forall id :: id in s.outbox && s.outbox[id].envelope.eventType != Running ==>
              Known(s.log, s.outbox[id].envelope.taskId)
  {
    ReachableInv(maxPods, s);
  }

  /** Pods carrying this Executor's labels never exceed the limit. */
  lemma PodsWithinLimit(maxPods: nat, s: State)
    requires Reachable(maxPods, s)
    ensures |s.pods| <= maxPods
  {
    ReachableInv(maxPods, s);
  }

  /** The envelope about to be posted, by the restart, the polling goroutine or the goroutine of a Pod. */
  ghost predicate Posts(s: State, e: Envelope) {
    || (s.tick.phase == Retrying && s.tick.pending != [] && e == s.tick.pending[0])
    || (s.tick.mail.Posting? && e == s.tick.mail.envelope)
    || (exists t :: t in s.workers && s.workers[t].mail.Posting? && e == s.workers[t].mail.envelope)
  }

  /** An event id stands for one envelope: posted again, logged or stored, it is the same one, and it is logged once. */
  lemma OneEnvelopePerId(maxPods: nat, s: State, e: Envelope)
    requires Reachable(maxPods, s) && Posts(s, e)
    ensures forall i :: 0 <= i < |s.log| && s.log[i].eventId == e.eventId ==> s.log[i] == e
    ensures e.eventId in s.outbox ==> s.outbox[e.eventId].envelope == e
    ensures forall i, j :: 0 <= i < j < |s.log| ==> s.log[i].eventId != s.log[j].eventId
  {
    ReachableInv(maxPods, s);
    assert Minted(s.minted, e);
  }

  /** An accepted record's event is in the Registry. */
  lemma AcceptedIsHeld(maxPods: nat, s: State, id: EventId)
    requires Reachable(maxPods, s) && id in s.outbox && s.outbox[id].delivery == Accepted
    ensures s.outbox[id].envelope in s.log
  {
    ReachableInv(maxPods, s);
    var i :| 0 <= i < |s.log| && s.log[i].eventId == id;
    assert Minted(s.minted, s.log[i]) && Minted(s.minted, s.outbox[id].envelope);
    assert s.log[i] in s.log;
  }

  // ---- Records and the log only move forward ----

  ghost predicate Advances(s: State, s': State) {
    && s.log <= s'.log
    && (forall id :: id in s.outbox ==>
          && id in s'.outbox && s'.outbox[id].envelope == s.outbox[id].envelope
          && (s.outbox[id].delivery == Accepted ==> s'.outbox[id].delivery == Accepted))
  }

  lemma AcceptingAdvances(outbox: Outbox, id: EventId, written: bool)
    ensures var outbox' := AcceptEvent(outbox, id, written);
            forall e :: e in outbox ==>
              && e in outbox' && outbox'[e].envelope == outbox[e].envelope
              && (outbox[e].delivery == Accepted ==> outbox'[e].delivery == Accepted)
  {}

  lemma MintAdvances(s: State, e: Envelope, written: bool)
    requires OutboxOk(s.outbox, s.log, s.minted) && e.eventId !in s.minted
    ensures Advances(s, s.Mint(e, written))
  {}

  lemma RetryAdvances(s: State, a: RetryAction)
    requires DoRetry(s, a).Some?
    ensures Advances(s, DoRetry(s, a).value)
  {
    if a.RetryMark? { AcceptingAdvances(s.outbox, s.tick.pending[0].eventId, true); }
  }

  lemma StartAdvances(s: State, a: StartAction)
    requires OutboxOk(s.outbox, s.log, s.minted) && DoStart(s, a).Some?
    ensures Advances(s, DoStart(s, a).value)
  {
    match a
    case Announce(_, _, envelope, written) => MintAdvances(s, envelope, written);
    case ConfirmRunning(written) => AcceptingAdvances(s.outbox, s.tick.mail.envelope.eventId, written);
    case _ =>
  }

  lemma WorkAdvances(s: State, t: TaskId, a: WorkAction)
    requires OutboxOk(s.outbox, s.log, s.minted) && DoWork(s, t, a).Some?
    ensures Advances(s, DoWork(s, t, a).value)
  {
    match a
    case Finish(envelope, written) => MintAdvances(s, envelope, written);
    case ConfirmTerminal(written) => AcceptingAdvances(s.outbox, s.workers[t].mail.envelope.eventId, written);
    case _ =>
  }

  lemma StepAdvances(maxPods: nat, s: State, a: Action)
    requires Inv(maxPods, s) && Do(maxPods, s, a).Some?
    ensures Advances(s, Do(maxPods, s, a).value)
  {
    match a
    case Retries(r) => RetryAdvances(s, r);
    case Starts(k) => StartAdvances(s, k);
    case Works(t, w) => WorkAdvances(s, t, w);
    case _ =>
  }

  lemma {:induction false} RunAdvances(maxPods: nat, s: State, trace: seq<Action>)
    requires Inv(maxPods, s) && Exec(maxPods, s, trace).Some?
    ensures Advances(s, Exec(maxPods, s, trace).value)
    decreases |trace|
  {
    if trace != [] {
      StepAdvances(maxPods, s, trace[0]);
      StepKeeps(maxPods, s, trace[0]);
      RunAdvances(maxPods, Do(maxPods, s, trace[0]).value, trace[1..]);
    }
  }

  /** Nothing a run does, crashes included, loses a logged event or takes back an acceptance. */
  lemma OutboxOnlyAdvances(maxPods: nat, s: State, trace: seq<Action>)
    requires Reachable(maxPods, s) && Exec(maxPods, s, trace).Some?
    ensures Advances(s, Exec(maxPods, s, trace).value)
  {
    ReachableInv(maxPods, s);
    RunAdvances(maxPods, s, trace);
  }

  // ---- Who works on a task ----

  predicate Restarting(phase: Phase) {
    phase == Down || phase == Starting || phase == Listing || phase == Retrying || phase == Marking
  }

  /** At most one of: a goroutine, a record waiting to be reconnected, a start in progress. */
  ghost predicate Roster(k: Tick, workers: map<TaskId, Worker>) {
    && (Restarting(k.phase) ==> workers == map[])
    && (!Restarting(k.phase) && k.phase != Attaching ==> k.kept == [])
    && (forall i, j :: 0 <= i < j < |k.kept| ==> k.kept[i].taskId != k.kept[j].taskId)
    && (forall i :: 0 <= i < |k.kept| ==> k.kept[i].taskId !in workers)
    && (Opened(k.phase) || k.phase == Undoing ==> k.task !in workers)
    && (forall t :: t in workers && workers[t].phase == Unspawned ==> k.phase == Created && k.task == t)
    && (k.phase == Created ==> k.task in workers && workers[k.task].phase == Unspawned)
    && (k.phase != Retrying && k.phase != Marking ==> k.pending == [])
    && (forall t :: t in workers && !workers[t].mail.NoMail? ==> workers[t].mail.envelope.taskId == t)
  }

  lemma PollRoster(maxPods: nat, s: State, a: PollAction)
    requires Roster(s.tick, s.workers) && Poll(maxPods, s.pods, s.workers, s.tick, a).Some?
    ensures Roster(Poll(maxPods, s.pods, s.workers, s.tick, a).value, s.workers)
  {}

  lemma CreateRoster(s: State, outcome: Outcome, uid: string)
    requires Roster(s.tick, s.workers) && DoCreate(s, outcome, uid).Some?
    ensures var s' := DoCreate(s, outcome, uid).value; Roster(s'.tick, s'.workers)
  {}

  lemma RecordRoster(s: State, rec: Assignment, written: bool)
    requires Roster(s.tick, s.workers) && DoRecord(s, rec, written).Some?
    ensures var s' := DoRecord(s, rec, written).value; Roster(s'.tick, s'.workers)
  {}

  lemma StartRoster(s: State, a: StartAction)
    requires Roster(s.tick, s.workers) && DoStart(s, a).Some?
    ensures var s' := DoStart(s, a).value; Roster(s'.tick, s'.workers)
  {
    match a
    case CreatePod(outcome, uid) => CreateRoster(s, outcome, uid);
    case Record(rec, written) => RecordRoster(s, rec, written);
    case _ =>
  }

  lemma ReconcileRoster(s: State, keys: seq<TaskId>, list: seq<PodState>, stuck: set<TaskId>)
    requires RecordsOk(s.assignments, s.log) && Roster(s.tick, s.workers) && DoReconcile(s, keys, list, stuck).Some?
    ensures var s' := DoReconcile(s, keys, list, stuck).value; Roster(s'.tick, s'.workers)
  {
    ResumableDrawn(s.assignments, keys, list);
    RosterReconciles(s.tick, s.workers, Resumable(keys, s.assignments, list), s.assignments);
  }

  lemma RosterReconciles(k: Tick, workers: map<TaskId, Worker>, kept: seq<Assignment>, all: Assignments)
    requires Roster(k, workers) && k.phase == Starting && Drawn(kept, all)
    ensures Roster(k.(phase := Listing, kept := kept), workers)
  {}

  lemma RetryRoster(s: State, a: RetryAction)
    requires Roster(s.tick, s.workers) && DoRetry(s, a).Some?
    ensures var s' := DoRetry(s, a).value; Roster(s'.tick, s'.workers)
  {}

  lemma AttachRoster(s: State)
    requires Roster(s.tick, s.workers) && DoAttach(s).Some?
    ensures var s' := DoAttach(s).value; Roster(s'.tick, s'.workers)
  {}

  lemma WorkRoster(s: State, t: TaskId, a: WorkAction)
    requires Roster(s.tick, s.workers) && DoWork(s, t, a).Some?
    ensures var s' := DoWork(s, t, a).value; Roster(s'.tick, s'.workers)
  {}

  lemma StepRoster(maxPods: nat, s: State, a: Action)
    requires Inv(maxPods, s) && Roster(s.tick, s.workers) && Do(maxPods, s, a).Some?
    ensures var s' := Do(maxPods, s, a).value; Roster(s'.tick, s'.workers)
  {
    match a
    case Crash =>
    case PodVanishes(_) =>
    case Polls(p) => PollRoster(maxPods, s, p);
    case Starts(p) => StartRoster(s, p);
    case Works(t, w) => WorkRoster(s, t, w);
    case Boots =>
    case Reconciles(keys, list, stuck) => ReconcileRoster(s, keys, list, stuck);
    case Retries(r) => RetryRoster(s, r);
    case Attaches => AttachRoster(s);
  }

  lemma {:induction false} RunRoster(maxPods: nat, s: State, trace: seq<Action>)
    requires Inv(maxPods, s) && Roster(s.tick, s.workers) && Exec(maxPods, s, trace).Some?
    ensures var s' := Exec(maxPods, s, trace).value; Inv(maxPods, s') && Roster(s'.tick, s'.workers)
    decreases |trace|
  {
    if trace != [] {
      StepRoster(maxPods, s, trace[0]);
      StepKeeps(maxPods, s, trace[0]);
      RunRoster(maxPods, Do(maxPods, s, trace[0]).value, trace[1..]);
    }
  }

  // ---- An acknowledged and forgotten task stays settled ----

  /** A start past its claim. */
  predicate Committed(phase: Phase) {
    phase == Granted || phase == Announcing || Past(phase)
  }

  predicate WorkerDone(workers: map<TaskId, Worker>, t: TaskId) {
    t in workers ==> workers[t].phase == Deleting || workers[t].phase == Leaving
  }

  predicate RecordBare(assignments: Assignments, t: TaskId) {
    t in assignments ==> assignments[t].runtimeRef == ""
  }

  ghost predicate TickClear(k: Tick, t: TaskId) {
    && (forall i :: 0 <= i < |k.kept| && k.kept[i].taskId == t ==> k.kept[i].runtimeRef == "")
    && (k.task == t ==> !Committed(k.phase))
  }

  /** Nothing left, in memory or on disk, can build another event for the task. */
  ghost predicate Settled(s: State, t: TaskId) {
    WorkerDone(s.workers, t) && RecordBare(s.assignments, t) && TickClear(s.tick, t)
  }

  /** A 200 reply for the task. */
  predicate Regrants(s: State, a: Action, t: TaskId) {
    a.Polls? && a.poll.Claim? && a.poll.granted && s.tick.task == t
  }

  ghost predicate NeverRegrants(maxPods: nat, s: State, trace: seq<Action>, t: TaskId)
    decreases |trace|
  {
    trace != [] ==>
      && !Regrants(s, trace[0], t)
      && (Do(maxPods, s, trace[0]).Some? ==> NeverRegrants(maxPods, Do(maxPods, s, trace[0]).value, trace[1..], t))
  }

  /** No envelope of the task is in `after` and not in `before`. */
  ghost predicate NothingNew(before: map<EventId, Envelope>, after: map<EventId, Envelope>, t: TaskId) {
    forall id :: id in after && after[id].taskId == t ==> id in before && before[id] == after[id]
  }

  lemma ReachableRoster(maxPods: nat, s: State)
    requires Reachable(maxPods, s)
    ensures Inv(maxPods, s) && Roster(s.tick, s.workers)
  {
    var trace :| Exec(maxPods, Init(), trace) == Some(s);
    RunRoster(maxPods, Init(), trace);
  }

  lemma SettledByRetiring(s: State, t: TaskId)
    requires Roster(s.tick, s.workers) && DoWork(s, t, Retire(true)).Some?
    ensures Settled(DoWork(s, t, Retire(true)).value, t)
  {}

  /** The terminal event was answered and the assignment deleted. */
  lemma RetireSettles(maxPods: nat, s: State, t: TaskId)
    requires Reachable(maxPods, s) && DoWork(s, t, Retire(true)).Some?
    ensures Settled(DoWork(s, t, Retire(true)).value, t)
  {
    ReachableRoster(maxPods, s);
    SettledByRetiring(s, t);
  }

  lemma StartMintsOthers(s: State, a: StartAction, t: TaskId)
    requires TickClear(s.tick, t) && DoStart(s, a).Some?
    ensures NothingNew(s.minted, DoStart(s, a).value.minted, t)
  {}

  lemma StartKeepsClear(s: State, a: StartAction, t: TaskId)
    requires TickClear(s.tick, t) && DoStart(s, a).Some?
    ensures TickClear(DoStart(s, a).value.tick, t)
  {}

  lemma SettledStart(s: State, a: StartAction, t: TaskId)
    requires Settled(s, t) && DoStart(s, a).Some?
    ensures var s' := DoStart(s, a).value; Settled(s', t) && NothingNew(s.minted, s'.minted, t)
  {
    StartMintsOthers(s, a, t);
    StartKeepsClear(s, a, t);
  }

  lemma SettledWork(s: State, u: TaskId, a: WorkAction, t: TaskId)
    requires Settled(s, t) && DoWork(s, u, a).Some?
    ensures var s' := DoWork(s, u, a).value; Settled(s', t) && NothingNew(s.minted, s'.minted, t)
  {}

  lemma SettledReconcile(s: State, keys: seq<TaskId>, list: seq<PodState>, stuck: set<TaskId>, t: TaskId)
    requires RecordsOk(s.assignments, s.log) && Settled(s, t) && DoReconcile(s, keys, list, stuck).Some?
    ensures var s' := DoReconcile(s, keys, list, stuck).value; Settled(s', t) && s'.minted == s.minted
  {
    ResumableDrawn(s.assignments, keys, list);
    ClearReconciles(s.tick, Resumable(keys, s.assignments, list), s.assignments, t);
  }

  lemma ClearReconciles(k: Tick, kept: seq<Assignment>, all: Assignments, t: TaskId)
    requires TickClear(k, t) && Drawn(kept, all) && RecordBare(all, t)
    ensures TickClear(k.(phase := Listing, kept := kept), t)
  {}

  lemma SettledRetry(s: State, a: RetryAction, t: TaskId)
    requires Settled(s, t) && DoRetry(s, a).Some?
    ensures var s' := DoRetry(s, a).value; Settled(s', t) && s'.minted == s.minted
  {}

  lemma KeptTail(k: Tick, t: TaskId)
    requires TickClear(k, t) && k.kept != []
    ensures TickClear(k.(kept := k.kept[1..]), t)
    ensures SplitRef(k.kept[0].runtimeRef).Some? ==> k.kept[0].taskId != t
  {
    assert SplitRef("").None?;
  }

  lemma SettledAttach(s: State, t: TaskId)
    requires Settled(s, t) && DoAttach(s).Some?
    ensures var s' := DoAttach(s).value; Settled(s', t) && s'.minted == s.minted
  {
    KeptTail(s.tick, t);
  }

  lemma SettledStep(maxPods: nat, s: State, a: Action, t: TaskId)
    requires Inv(maxPods, s) && Settled(s, t) && Do(maxPods, s, a).Some? && !Regrants(s, a, t)
    ensures var s' := Do(maxPods, s, a).value; Settled(s', t) && NothingNew(s.minted, s'.minted, t)
  {
    SettledAct(maxPods, s, a, t);
  }

  lemma SettledAct(maxPods: nat, s: State, a: Action, t: TaskId)
    requires RecordsOk(s.assignments, s.log) && Settled(s, t) && Act(maxPods, s, a).Some? && !Regrants(s, a, t)
    ensures var s' := Act(maxPods, s, a).value; Settled(s', t) && NothingNew(s.minted, s'.minted, t)
  {
    match a
    case Crash =>
    case PodVanishes(_) =>
    case Polls(p) =>
    case Starts(p) => SettledStart(s, p, t);
    case Works(u, w) => SettledWork(s, u, w, t);
    case Boots =>
    case Reconciles(keys, list, stuck) => SettledReconcile(s, keys, list, stuck, t);
    case Retries(r) => SettledRetry(s, r, t);
    case Attaches => SettledAttach(s, t);
  }

  /** From then on no run builds another event for the task, restarts included, unless it is claimed anew. */
  lemma {:induction false} SettledForever(maxPods: nat, s: State, trace: seq<Action>, t: TaskId)
    requires Inv(maxPods, s) && Settled(s, t) && Exec(maxPods, s, trace).Some? && NeverRegrants(maxPods, s, trace, t)
    ensures var s' := Exec(maxPods, s, trace).value; Settled(s', t) && NothingNew(s.minted, s'.minted, t)
    decreases |trace|
  {
    if trace != [] {
      SettledStep(maxPods, s, trace[0], t);
      StepKeeps(maxPods, s, trace[0]);
      SettledForever(maxPods, Do(maxPods, s, trace[0]).value, trace[1..], t);
    }
  }
}
