/** What one action of the Kubernetes Executor may touch, and what over runs follows from it. */
module K8sFrames {
  import opened Basics
  import opened Order
  import opened K8sCache
  import opened K8sMachine
  import opened K8sInvariants
  import opened K8sRestart
  import opened K8sTheorems
  import opened K8sEvents

  // ---- Assignment records ----

  /** The record an action stores. */
  function Written(a: Action): Option<Assignment> {
    match a
    case Starts(Intend(rec, true)) => Some(rec)
    case Starts(Announce(rec, true, _, _)) => Some(rec)
    case Starts(Record(rec, true)) => Some(rec)
    case Works(_, Checkpoint(rec, true)) => Some(rec)
    case _ => None
  }

  /** The action stores a record for `u`. */
  predicate Stores(a: Action, u: TaskId) { u != "" && Written(a).Some? && Written(a).value.taskId == u }

  /** The goroutine of `u` retires it. */
  predicate Retires(a: Action, u: TaskId) { a == Works(u, Retire(true)) }

  /** The start of `u` is undone. */
  predicate Undoes(s: State, a: Action, u: TaskId) { a == Starts(Undo(true)) && s.tick.task == u }

  /** A restart finds the record unfinished and no Pod that answers for it, and its delete succeeds. */
  ghost predicate Sweeps(s: State, a: Action, u: TaskId) {
    a.Reconciles? && u in s.assignments && u !in a.stuck
    && !Terminal(s.assignments[u]) && !Answering(s.assignments[u], s.pods)
  }

  ghost predicate Removes(s: State, a: Action, u: TaskId) { Retires(a, u) || Undoes(s, a, u) || Sweeps(s, a, u) }

  /** Whose record an action is about. */
  predicate OwnRecord(s: State, a: Action) {
    Written(a).Some? ==>
      && (a.Starts? ==> Written(a).value.taskId == s.tick.task && Written(a).value.ownerCommandId == s.tick.command)
      && (a.Works? ==> Written(a).value.taskId == a.t)
      && !Terminal(Written(a).value)
  }

  ghost predicate RecordsFramed(s: State, a: Action, s': State, u: TaskId) {
    && (u in s'.assignments <==> Stores(a, u) || (u in s.assignments && !Removes(s, a, u)))
    && (u in s'.assignments ==>
          s'.assignments[u] == if Stores(a, u) then Written(a).value else s.assignments[u])
    && OwnRecord(s, a)
  }

  lemma StartRecordsFramed(s: State, a: StartAction, u: TaskId)
    requires DoStart(s, a).Some?
    ensures RecordsFramed(s, Starts(a), DoStart(s, a).value, u)
  {}

  lemma OtherRecordsFramed(maxPods: nat, s: State, a: Action, u: TaskId)
    requires !a.Starts? && !a.Works? && !a.Reconciles? && Act(maxPods, s, a).Some?
    ensures RecordsFramed(s, a, Act(maxPods, s, a).value, u)
  {
    if a.Retries? { RetryRecords(s, a.retry); }
  }

  lemma RetryRecords(s: State, a: RetryAction)
    requires DoRetry(s, a).Some?
    ensures DoRetry(s, a).value.assignments == s.assignments
  {}

  lemma WorkRecordsFramed(s: State, t: TaskId, a: WorkAction, u: TaskId)
    requires DoWork(s, t, a).Some?
    ensures RecordsFramed(s, Works(t, a), DoWork(s, t, a).value, u)
  {}

  lemma ReconcileRecordsFramed(s: State, keys: seq<TaskId>, list: seq<PodState>, stuck: set<TaskId>, u: TaskId)
    requires DoReconcile(s, keys, list, stuck).Some?
    ensures RecordsFramed(s, Reconciles(keys, list, stuck), DoReconcile(s, keys, list, stuck).value, u)
  {
    if u in s.assignments { ListedLabels(list, s.pods, s.assignments[u]); }
  }

  /**
   * An action stores a record only for the task it works on, and removes one only when that task retires, its start is
   * undone, or a restart finds it unfinished and unanswered. Every other record is as before.
   */
  lemma RecordFrame(maxPods: nat, s: State, a: Action, u: TaskId)
    requires Do(maxPods, s, a).Some?
    ensures RecordsFramed(s, a, Do(maxPods, s, a).value, u)
  {
    match a
    case Starts(p) => StartRecordsFramed(s, p, u);
    case Works(t, w) => WorkRecordsFramed(s, t, w, u);
    case Reconciles(keys, list, stuck) => ReconcileRecordsFramed(s, keys, list, stuck, u);
    case _ => OtherRecordsFramed(maxPods, s, a, u);
  }

  /** Along the run the task neither retires nor is undone, and whenever it has a record some Pod answers for it. */
  ghost predicate Attended(maxPods: nat, s: State, trace: seq<Action>, u: TaskId)
    decreases |trace|
  {
    && (u in s.assignments ==> Answering(s.assignments[u], s.pods))
    && (trace != [] ==>
          && !Retires(trace[0], u) && !Undoes(s, trace[0], u)
          && (Do(maxPods, s, trace[0]).Some? ==> Attended(maxPods, Do(maxPods, s, trace[0]).value, trace[1..], u)))
  }

  /** A task with an answering Pod stays resumable through every run until its own retirement or undo. */
  lemma {:induction false} StaysResumable(maxPods: nat, s: State, trace: seq<Action>, u: TaskId)
    requires Resumes(s, u) && Attended(maxPods, s, trace, u) && Exec(maxPods, s, trace).Some?
    ensures Resumes(Exec(maxPods, s, trace).value, u)
    decreases |trace|
  {
    if trace != [] {
      RecordFrame(maxPods, s, trace[0], u);
      StaysResumable(maxPods, Do(maxPods, s, trace[0]).value, trace[1..], u);
    }
  }

  // ---- Pods ----

  /** The Pod an action creates. */
  predicate Creates(s: State, a: Action, name: string) {
    a.Starts? && a.start.CreatePod? && a.start.outcome != Refused && name == PodName(s.tick.task)
  }

  /** The Pod goes: somebody removes it, or the goroutine that owns it deletes it. */
  predicate Deletes(s: State, a: Action, name: string) {
    || a == PodVanishes(name)
    || (a.Works? && a.work == DeletePod(true) && a.t in s.workers && s.workers[a.t].podName == name)
  }

  lemma PodFrame(maxPods: nat, s: State, a: Action, name: string)
    requires Do(maxPods, s, a).Some?
    ensures var s' := Do(maxPods, s, a).value;
            && (name in s'.pods <==> Creates(s, a, name) || (name in s.pods && !Deletes(s, a, name)))
            && (name in s'.pods ==>
                  s'.pods[name] == if Creates(s, a, name) then Pod(s.tick.task, s.tick.command) else s.pods[name])
  {
    match a
    case Starts(p) => PodStart(s, p, name);
    case Works(t, w) => PodWork(s, t, w, name);
    case _ =>
  }

  lemma PodStart(s: State, a: StartAction, name: string)
    requires DoStart(s, a).Some?
    ensures var s' := DoStart(s, a).value;
            && (name in s'.pods <==> Creates(s, Starts(a), name) || name in s.pods)
            && (name in s'.pods ==>
                  s'.pods[name] ==
                    if Creates(s, Starts(a), name) then Pod(s.tick.task, s.tick.command) else s.pods[name])
  {}

  lemma PodWork(s: State, t: TaskId, a: WorkAction, name: string)
    requires DoWork(s, t, a).Some?
    ensures var s' := DoWork(s, t, a).value;
            && (name in s'.pods <==> name in s.pods && !Deletes(s, Works(t, a), name))
            && (name in s'.pods ==> s'.pods[name] == s.pods[name])
  {}

  // ---- The log and the outbox ----

  /** The envelope that reaches the Registry. */
  function Sent(s: State, a: Action): Option<Envelope> {
    match a
    case Retries(RetryPost(o)) => if o != Refused && s.tick.pending != [] then Some(s.tick.pending[0]) else None
    case Starts(PostRunning(o)) => if o != Refused && s.tick.mail.Posting? then Some(s.tick.mail.envelope) else None
    case Works(t, PostTerminal(o)) =>
      if o != Refused && t in s.workers && s.workers[t].mail.Posting? then Some(s.workers[t].mail.envelope) else None
    case _ => None
  }

  /** The log grows by the envelope sent, unless the Registry has it already. */
  ghost predicate LogFramed(s: State, a: Action, s': State) {
    s'.log ==
    if Sent(s, a).Some? && Sent(s, a).value.eventId !in LogIds(s.log) then s.log + [Sent(s, a).value] else s.log
  }

  lemma StartLog(s: State, a: StartAction)
    requires DoStart(s, a).Some?
    ensures LogFramed(s, Starts(a), DoStart(s, a).value)
  {}

  lemma WorkLog(s: State, t: TaskId, a: WorkAction)
    requires DoWork(s, t, a).Some?
    ensures LogFramed(s, Works(t, a), DoWork(s, t, a).value)
  {}

  lemma RetryLog(s: State, a: RetryAction)
    requires DoRetry(s, a).Some?
    ensures LogFramed(s, Retries(a), DoRetry(s, a).value)
  {}

  lemma LogFrame(maxPods: nat, s: State, a: Action)
    requires Do(maxPods, s, a).Some?
    ensures LogFramed(s, a, Do(maxPods, s, a).value)
  {
    match a
    case Starts(p) => StartLog(s, p);
    case Works(t, w) => WorkLog(s, t, w);
    case Retries(r) => RetryLog(s, r);
    case _ =>
  }

  /** The envelope an action builds, and whether its pending record is stored. */
  function Built(a: Action): Option<(Envelope, bool)> {
    match a
    case Starts(Announce(_, _, envelope, written)) => Some((envelope, written))
    case Works(_, Finish(envelope, written)) => Some((envelope, written))
    case _ => None
  }

  /** The event whose answered post an action records as accepted. */
  function Marks(s: State, a: Action): Option<EventId> {
    match a
    case Retries(RetryMark(true)) => if s.tick.pending != [] then Some(s.tick.pending[0].eventId) else None
    case Starts(ConfirmRunning(true)) => if s.tick.mail.Confirming? then Some(s.tick.mail.envelope.eventId) else None
    case Works(t, ConfirmTerminal(true)) =>
      if t in s.workers && s.workers[t].mail.Confirming? then Some(s.workers[t].mail.envelope.eventId) else None
    case _ => None
  }

  /** The action stores the pending record of the event it builds. */
  predicate Keeps(a: Action, id: EventId) {
    id != "" && Built(a).Some? && Built(a).value.0.eventId == id && Built(a).value.1
  }

  ghost predicate OutboxFramed(s: State, a: Action, s': State, id: EventId) {
    && (id in s'.outbox <==> id in s.outbox || Keeps(a, id))
    && (Keeps(a, id) ==> s'.outbox[id] == OutboxRecord(Built(a).value.0, Pending))
    && (id in s.outbox && !Keeps(a, id) ==>
          s'.outbox[id] ==
            if Marks(s, a) == Some(id) then OutboxRecord(s.outbox[id].envelope, Accepted) else s.outbox[id])
  }

  lemma StartOutbox(s: State, a: StartAction, id: EventId)
    requires DoStart(s, a).Some?
    ensures OutboxFramed(s, Starts(a), DoStart(s, a).value, id)
  {}

  lemma WorkOutbox(s: State, t: TaskId, a: WorkAction, id: EventId)
    requires DoWork(s, t, a).Some?
    ensures OutboxFramed(s, Works(t, a), DoWork(s, t, a).value, id)
  {}

  lemma RetryOutbox(s: State, a: RetryAction, id: EventId)
    requires DoRetry(s, a).Some?
    ensures OutboxFramed(s, Retries(a), DoRetry(s, a).value, id)
  {}

  /** An outbox record appears with the event just built and turns accepted by the mark for its own id. */
  lemma OutboxFrame(maxPods: nat, s: State, a: Action, id: EventId)
    requires Do(maxPods, s, a).Some?
    ensures OutboxFramed(s, a, Do(maxPods, s, a).value, id)
  {
    match a
    case Starts(p) => StartOutbox(s, p, id);
    case Works(t, w) => WorkOutbox(s, t, w, id);
    case Retries(r) => RetryOutbox(s, r, id);
    case _ =>
  }

  // ---- Goroutines ----

  /** The process ends: a crash, a failed retry or an unreadable reference. */
  predicate Stops(s: State, a: Action) {
    || a.Crash?
    || (a.Retries? && ((a.retry.RetryPost? && a.retry.outcome != Answered) || a.retry == RetryMark(false)))
    || (a.Attaches? && s.tick.kept != [] && SplitRef(s.tick.kept[0].runtimeRef).None?)
  }

  /** The action is a step of the goroutine of `u`, or starts it. */
  predicate Concerns(s: State, a: Action, u: TaskId) {
    || (a.Works? && a.t == u)
    || (a.Starts? && (a.start.CreatePod? || a.start.Record?) && s.tick.task == u)
    || (a.Attaches? && s.tick.kept != [] && s.tick.kept[0].taskId == u)
  }

  ghost predicate WorkersFramed(s: State, a: Action, s': State, u: TaskId) {
    if Stops(s, a) then s'.workers == map[] && s'.tick == NoTick
    else !Concerns(s, a, u) ==>
      (u in s'.workers <==> u in s.workers) && (u in s.workers ==> s'.workers[u] == s.workers[u])
  }

  lemma {:induction false} SplitBack(ref: string)
    requires SplitAt(ref).Some?
    ensures ref == SplitAt(ref).value.0 + "@" + SplitAt(ref).value.1
  {
    if ref[0] != '@' {
      SplitBack(ref[1..]);
      assert ref == [ref[0]] + ref[1..];
    } else {
      assert ref == "" + "@" + ref[1..];
    }
  }

  lemma StartWorkers(s: State, a: StartAction, u: TaskId)
    requires DoStart(s, a).Some?
    ensures WorkersFramed(s, Starts(a), DoStart(s, a).value, u)
  {}

  lemma WorkWorkers(s: State, t: TaskId, a: WorkAction, u: TaskId)
    requires DoWork(s, t, a).Some?
    ensures WorkersFramed(s, Works(t, a), DoWork(s, t, a).value, u)
  {}

  lemma RetryWorkers(s: State, a: RetryAction, u: TaskId)
    requires DoRetry(s, a).Some?
    ensures WorkersFramed(s, Retries(a), DoRetry(s, a).value, u)
  {}

  /** An action touches no other task's goroutine, and a process that stops has none. */
  lemma WorkerFrame(maxPods: nat, s: State, a: Action, u: TaskId)
    requires Do(maxPods, s, a).Some?
    ensures WorkersFramed(s, a, Do(maxPods, s, a).value, u)
  {
    match a
    case Starts(p) => StartWorkers(s, p, u);
    case Works(t, w) => WorkWorkers(s, t, w, u);
    case Retries(r) => RetryWorkers(s, r, u);
    case _ =>
  }

  // ---- Pod names ----

  /** The separators go, everything else stays in its place. */
  lemma {:induction false} CompactJoin(a: string, b: string)
    ensures Compact(a + b) == Compact(a) + Compact(b)
  {
    if a == "" {
      assert a + b == b;
    } else {
      CompactJoin(a[1..], b);
      CompactOne(a[0], a[1..] + b);
      CompactOne(a[0], a[1..]);
      assert a + b == [a[0]] + (a[1..] + b) && a == [a[0]] + a[1..];
    }
  }

  lemma CompactOne(c: char, rest: string)
    ensures Compact([c] + rest) == (if c == '-' || c == '_' then "" else [c]) + Compact(rest)
  {
    assert ([c] + rest)[1..] == rest;
  }

  /** Two tasks share a Pod name exactly when their first eight significant characters agree. */
  lemma PodNamesClash(t: TaskId, u: TaskId)
    ensures PodName(t) == PodName(u) <==>
      var a, b := Compact(t), Compact(u);
      if |a| < 8 || |b| < 8 then a == b else a[..8] == b[..8]
    ensures "oh-" <= PodName(t)
  {
    assert PodName(t)[3..] == (if |Compact(t)| > 8 then Compact(t)[..8] else Compact(t));
    assert PodName(u)[3..] == (if |Compact(u)| > 8 then Compact(u)[..8] else Compact(u));
  }

  /** A reconnected goroutine serves the Pod its record names, ... */
  lemma AttachedServes(s: State)
    requires DoAttach(s).Some? && !Stops(s, Attaches)
    ensures var rec, workers := s.tick.kept[0], DoAttach(s).value.workers;
            && rec.taskId in workers && RefersTo(rec, workers[rec.taskId])
            && workers[rec.taskId].command == rec.ownerCommandId
  {
    SplitBack(s.tick.kept[0].runtimeRef);
  }

  /** ... and a new one the Pod its start created. */
  lemma CreatedServes(s: State, uid: string)
    requires DoCreate(s, Answered, uid).Some?
    ensures var t, s' := s.tick.task, DoCreate(s, Answered, uid).value;
            && t in s'.workers && s'.workers[t].podName == PodName(t) && s'.workers[t].podUID == uid
            && s'.workers[t].command == s.tick.command && s'.pods[PodName(t)] == Pod(t, s.tick.command)
  {}
}
