/** What every run of the Kubernetes Executor keeps, with crashes anywhere. */
module K8sInvariants {
  import opened Basics
  import opened K8sCache
  import opened K8sMachine
  import opened Order

  // ---- Facts about the Registry's log ----

  predicate RunningAt(log: seq<Envelope>, i: nat, t: TaskId) {
    i < |log| && log[i].taskId == t && log[i].eventType == Running
  }

  /** The Registry holds a `running` event of the task. */
  ghost predicate Known(log: seq<Envelope>, t: TaskId) { exists i :: RunningAt(log, i, t) }

  lemma KnownGrows(log: seq<Envelope>, log': seq<Envelope>)
    requires log <= log'
    ensures forall t :: Known(log, t) ==> Known(log', t)
    ensures LogIds(log) <= LogIds(log')
  {
    forall t | Known(log, t) ensures Known(log', t) {
      var i :| RunningAt(log, i, t);
      assert RunningAt(log', i, t);
    }
    forall id | id in LogIds(log) ensures id in LogIds(log') {
      var i :| 0 <= i < |log| && log[i].eventId == id;
      assert log'[i].eventId == id;
    }
  }

  predicate Minted(minted: map<EventId, Envelope>, e: Envelope) { e.eventId in minted && minted[e.eventId] == e }

  /** A terminal event is only ever built for a task whose `running` event the Registry holds. */
  ghost predicate Sound(log: seq<Envelope>, minted: map<EventId, Envelope>, e: Envelope) {
    Minted(minted, e) && (e.eventType != Running ==> Known(log, e.taskId))
  }

  ghost predicate LogOk(log: seq<Envelope>, minted: map<EventId, Envelope>) {
    && (forall i, j :: 0 <= i < j < |log| ==> log[i].eventId != log[j].eventId)
    && (forall i :: 0 <= i < |log| ==> Minted(minted, log[i]))
    && (forall i :: 0 <= i < |log| && log[i].eventType != Running ==> Known(log[..i], log[i].taskId))
  }

  // ---- The components ----

  ghost predicate RecordsOk(assignments: Assignments, log: seq<Envelope>) {
    forall t :: t in assignments ==>
      assignments[t].taskId == t && (assignments[t].runtimeRef != "" ==> Known(log, t))
  }

  ghost predicate OutboxOk(outbox: Outbox, log: seq<Envelope>, minted: map<EventId, Envelope>) {
    forall id :: id in outbox ==>
      && outbox[id].envelope.eventId == id
      && Sound(log, minted, outbox[id].envelope)
      && (outbox[id].delivery == Accepted ==> id in LogIds(log))
  }

  ghost predicate MailOk(mail: Mail, log: seq<Envelope>, minted: map<EventId, Envelope>) {
    && (!mail.NoMail? ==> Sound(log, minted, mail.envelope))
    && (mail.Confirming? ==> mail.envelope.eventId in LogIds(log))
  }

  predicate Past(phase: Phase) { phase == Announced || phase == Created || phase == Undoing }

  ghost predicate TickOk(k: Tick, log: seq<Envelope>, minted: map<EventId, Envelope>) {
    && MailOk(k.mail, log, minted)
    && (!k.mail.NoMail? <==> k.phase == Announcing)
    && (k.phase == Announcing ==>
          k.mail.envelope.taskId == k.task && k.mail.envelope.eventType == Running)
    && (Past(k.phase) || k.mail.Confirming? ==> Known(log, k.task))
    && (forall i :: 0 <= i < |k.kept| && k.kept[i].runtimeRef != "" ==> Known(log, k.kept[i].taskId))
    && (forall i :: 0 <= i < |k.pending| ==> Sound(log, minted, k.pending[i]))
    && (k.phase == Marking && k.pending != [] ==> k.pending[0].eventId in LogIds(log))
  }

  ghost predicate WorkersOk(workers: map<TaskId, Worker>, log: seq<Envelope>, minted: map<EventId, Envelope>) {
    forall t :: t in workers ==> Known(log, t) && MailOk(workers[t].mail, log, minted)
  }

  predicate Opened(phase: Phase) {
    phase == Gated || phase == Intended || phase == Granted || phase == Announcing || phase == Announced
  }

  ghost predicate Capacity(maxPods: nat, phase: Phase, pods: map<string, Pod>) {
    |pods| <= maxPods && (Opened(phase) ==> |pods| < maxPods)
  }

  ghost predicate Inv(maxPods: nat, s: State) {
    && LogOk(s.log, s.minted)
    && RecordsOk(s.assignments, s.log)
    && OutboxOk(s.outbox, s.log, s.minted)
    && TickOk(s.tick, s.log, s.minted)
    && WorkersOk(s.workers, s.log, s.minted)
    && Capacity(maxPods, s.tick.phase, s.pods)
  }

  // ---- Growth of the log and of the minted envelopes ----

  ghost predicate Grows(
      log: seq<Envelope>, minted: map<EventId, Envelope>, log': seq<Envelope>, minted': map<EventId, Envelope>)
  {
    && log <= log'
    && (forall id :: id in minted ==> id in minted' && minted'[id] == minted[id])
  }

  lemma ComponentsGrow(s: State, log': seq<Envelope>, minted': map<EventId, Envelope>)
    requires Grows(s.log, s.minted, log', minted')
    requires RecordsOk(s.assignments, s.log) && OutboxOk(s.outbox, s.log, s.minted)
    requires TickOk(s.tick, s.log, s.minted) && WorkersOk(s.workers, s.log, s.minted)
    ensures RecordsOk(s.assignments, log') && OutboxOk(s.outbox, log', minted')
    ensures TickOk(s.tick, log', minted') && WorkersOk(s.workers, log', minted')
  {
    KnownGrows(s.log, log');
  }

  /** Delivering a sound envelope keeps the log in order and its ids unique. */
  lemma DeliverOk(log: seq<Envelope>, minted: map<EventId, Envelope>, e: Envelope, o: Outcome)
    requires LogOk(log, minted) && Sound(log, minted, e)
    ensures var log' := Deliver(log, e, o);
            && LogOk(log', minted) && log <= log'
            && (o != Refused ==> e.eventId in LogIds(log'))
            && (o != Refused && e.eventType == Running ==> Known(log', e.taskId))
  {
    var log' := Deliver(log, e, o);
    if o != Refused && e.eventId in LogIds(log) {
      var i :| 0 <= i < |log| && log[i].eventId == e.eventId;
      assert Minted(minted, log[i]);
      assert e.eventType == Running ==> RunningAt(log, i, e.taskId);
    } else if o != Refused {
      assert log'[|log|] == e;
      assert e.eventType == Running ==> RunningAt(log', |log|, e.taskId);
      forall i | 0 <= i < |log'| && log'[i].eventType != Running ensures Known(log'[..i], log'[i].taskId) {
        assert i < |log| ==> log'[..i] == log[..i];
        assert i == |log| ==> log'[..i] == log;
      }
      forall i | 0 <= i < |log| ensures log[i].eventId != e.eventId {
        assert log[i].eventId in LogIds(log);
      }
    }
  }

  lemma AcceptingOk(outbox: Outbox, id: EventId, written: bool, log: seq<Envelope>, minted: map<EventId, Envelope>)
    requires OutboxOk(outbox, log, minted) && id in LogIds(log)
    ensures OutboxOk(AcceptEvent(outbox, id, written), log, minted)
  {}

  /** The parts that depend on the log survive building a sound envelope. */
  lemma MintOk(s: State, e: Envelope, written: bool)
    requires LogOk(s.log, s.minted) && OutboxOk(s.outbox, s.log, s.minted)
    requires RecordsOk(s.assignments, s.log) && TickOk(s.tick, s.log, s.minted) && WorkersOk(s.workers, s.log, s.minted)
    requires e.eventId !in s.minted && (e.eventType != Running ==> Known(s.log, e.taskId))
    ensures var s' := s.Mint(e, written);
            && Sound(s'.log, s'.minted, e) && LogOk(s'.log, s'.minted) && OutboxOk(s'.outbox, s'.log, s'.minted)
            && TickOk(s'.tick, s'.log, s'.minted) && WorkersOk(s'.workers, s'.log, s'.minted)
  {
    ComponentsGrow(s, s.log, s.minted[e.eventId := e]);
  }

  lemma DeliverKeeps(s: State, e: Envelope, o: Outcome)
    requires LogOk(s.log, s.minted) && OutboxOk(s.outbox, s.log, s.minted) && Sound(s.log, s.minted, e)
    requires RecordsOk(s.assignments, s.log) && TickOk(s.tick, s.log, s.minted) && WorkersOk(s.workers, s.log, s.minted)
    ensures var log' := Deliver(s.log, e, o);
            && LogOk(log', s.minted) && OutboxOk(s.outbox, log', s.minted) && Sound(log', s.minted, e)
            && RecordsOk(s.assignments, log') && TickOk(s.tick, log', s.minted) && WorkersOk(s.workers, log', s.minted)
            && (o != Refused ==> e.eventId in LogIds(log'))
            && (o != Refused && e.eventType == Running ==> Known(log', e.taskId))
  {
    DeliverOk(s.log, s.minted, e, o);
    ComponentsGrow(s, Deliver(s.log, e, o), s.minted);
    KnownGrows(s.log, Deliver(s.log, e, o));
  }

  // ---- Every action keeps the invariant ----

  lemma PollKeeps(maxPods: nat, s: State, a: PollAction)
    requires Inv(maxPods, s) && Poll(maxPods, s.pods, s.workers, s.tick, a).Some?
    ensures Inv(maxPods, s.(tick := Poll(maxPods, s.pods, s.workers, s.tick, a).value))
  {}

  /** Records of the bucket, at most one per task. */
  ghost predicate Drawn(kept: seq<Assignment>, all: Assignments) {
    && (forall i :: 0 <= i < |kept| ==> kept[i].taskId in all && all[kept[i].taskId] == kept[i])
    && (forall i, j :: 0 <= i < j < |kept| ==> kept[i].taskId != kept[j].taskId)
  }

  lemma ResumableDrawn(all: Assignments, keys: seq<TaskId>, list: seq<PodState>)
    requires Lists(keys, all.Keys) && forall t :: t in all ==> all[t].taskId == t
    ensures Drawn(Resumable(keys, all, list), all)
  {
    ResumableExact(keys, all, list);
    var kept := Resumable(keys, all, list);
    forall i | 0 <= i < |kept| ensures kept[i].taskId in all && all[kept[i].taskId] == kept[i] {
      assert kept[i] in kept;
    }
    forall i, j | 0 <= i < j < |kept| ensures kept[i].taskId != kept[j].taskId {
      LessTotal(kept[i].taskId, kept[i].taskId);
    }
  }

  lemma TickReconciles(
      k: Tick, kept: seq<Assignment>, all: Assignments, log: seq<Envelope>, minted: map<EventId, Envelope>)
    requires TickOk(k, log, minted) && k.phase == Starting && Drawn(kept, all) && RecordsOk(all, log)
    ensures TickOk(k.(phase := Listing, kept := kept), log, minted)
  {}

  lemma ReconcileKeeps(maxPods: nat, s: State, keys: seq<TaskId>, list: seq<PodState>, stuck: set<TaskId>)
    requires Inv(maxPods, s) && DoReconcile(s, keys, list, stuck).Some?
    ensures Inv(maxPods, DoReconcile(s, keys, list, stuck).value)
  {
    var kept := Resumable(keys, s.assignments, list);
    ResumableDrawn(s.assignments, keys, list);
    TickReconciles(s.tick, kept, s.assignments, s.log, s.minted);
  }

  lemma StoppedKeeps(maxPods: nat, s: State)
    requires LogOk(s.log, s.minted) && RecordsOk(s.assignments, s.log) && OutboxOk(s.outbox, s.log, s.minted)
    requires |s.pods| <= maxPods
    ensures Inv(maxPods, s.Stopped())
  {}

  lemma RetryPostKeeps(maxPods: nat, s: State, outcome: Outcome)
    requires Inv(maxPods, s) && DoRetry(s, RetryPost(outcome)).Some?
    ensures Inv(maxPods, DoRetry(s, RetryPost(outcome)).value)
  {
    var e := s.tick.pending[0];
    DeliverKeeps(s, e, outcome);
    StoppedKeeps(maxPods, s.(log := Deliver(s.log, e, outcome)));
  }

  lemma RetryMarkKeeps(maxPods: nat, s: State, written: bool)
    requires Inv(maxPods, s) && DoRetry(s, RetryMark(written)).Some?
    ensures Inv(maxPods, DoRetry(s, RetryMark(written)).value)
  {
    AcceptingOk(s.outbox, s.tick.pending[0].eventId, true, s.log, s.minted);
    StoppedKeeps(maxPods, s);
  }

  lemma RetryKeeps(maxPods: nat, s: State, a: RetryAction)
    requires Inv(maxPods, s) && DoRetry(s, a).Some?
    ensures Inv(maxPods, DoRetry(s, a).value)
  {
    match a
    case RetryPost(outcome) => RetryPostKeeps(maxPods, s, outcome);
    case RetryMark(written) => RetryMarkKeeps(maxPods, s, written);
    case ListPending(_) =>
  }

  lemma TickAttaches(k: Tick, log: seq<Envelope>, minted: map<EventId, Envelope>)
    requires TickOk(k, log, minted) && k.phase == Attaching && k.kept != []
    ensures TickOk(k.(kept := k.kept[1..]), log, minted)
    ensures SplitRef(k.kept[0].runtimeRef).Some? ==> Known(log, k.kept[0].taskId)
  {
    assert SplitRef("").None?;
  }

  lemma AttachKeeps(maxPods: nat, s: State)
    requires Inv(maxPods, s) && DoAttach(s).Some?
    ensures Inv(maxPods, DoAttach(s).value)
  {
    TickAttaches(s.tick, s.log, s.minted);
    StoppedKeeps(maxPods, s);
  }

  lemma StartDelivers(maxPods: nat, s: State, a: StartAction)
    requires Inv(maxPods, s) && DoStart(s, a).Some? && (a.Announce? || a.PostRunning? || a.ConfirmRunning?)
    ensures Inv(maxPods, DoStart(s, a).value)
  {
    match a
    case Announce(rec, recorded, envelope, written) => MintOk(s, envelope, written);
    case PostRunning(outcome) => DeliverKeeps(s, s.tick.mail.envelope, outcome);
    case ConfirmRunning(written) => AcceptingOk(s.outbox, s.tick.mail.envelope.eventId, written, s.log, s.minted);
  }

  /** Moving on from a start without mail. */
  lemma TickMoves(k: Tick, phase: Phase, log: seq<Envelope>, minted: map<EventId, Envelope>)
    requires TickOk(k, log, minted) && k.phase != Announcing && phase != Announcing && phase != Marking
    requires Past(phase) ==> Past(k.phase)
    ensures TickOk(k.(phase := phase), log, minted)
  {}

  lemma StartRecords(maxPods: nat, s: State, a: StartAction)
    requires Inv(maxPods, s) && DoStart(s, a).Some? && (a.Intend? || a.Undo?)
    ensures Inv(maxPods, DoStart(s, a).value)
  {
    if a.Intend? {
      TickMoves(s.tick, if a.written then Intended else Idle, s.log, s.minted);
    } else {
      TickMoves(s.tick, Idle, s.log, s.minted);
    }
  }

  lemma CreateKeeps(maxPods: nat, s: State, outcome: Outcome, uid: string)
    requires Inv(maxPods, s) && DoCreate(s, outcome, uid).Some?
    ensures Inv(maxPods, DoCreate(s, outcome, uid).value)
  {
    TickMoves(s.tick, if outcome == Answered then Created else Undoing, s.log, s.minted);
  }

  lemma RecordKeeps(maxPods: nat, s: State, rec: Assignment, written: bool)
    requires Inv(maxPods, s) && DoRecord(s, rec, written).Some?
    ensures Inv(maxPods, DoRecord(s, rec, written).value)
  {
    TickMoves(s.tick, Scan, s.log, s.minted);
  }

  lemma WorkDelivers(maxPods: nat, s: State, t: TaskId, a: WorkAction)
    requires Inv(maxPods, s) && DoWork(s, t, a).Some? && (a.Finish? || a.PostTerminal? || a.ConfirmTerminal?)
    ensures Inv(maxPods, DoWork(s, t, a).value)
  {
    match a
    case Finish(envelope, written) => MintOk(s, envelope, written);
    case PostTerminal(outcome) => DeliverKeeps(s, s.workers[t].mail.envelope, outcome);
    case ConfirmTerminal(written) =>
      AcceptingOk(s.outbox, s.workers[t].mail.envelope.eventId, written, s.log, s.minted);
  }

  lemma WorkKeeps(maxPods: nat, s: State, t: TaskId, a: WorkAction)
    requires Inv(maxPods, s) && DoWork(s, t, a).Some?
    ensures Inv(maxPods, DoWork(s, t, a).value)
  {
    match a
    case Finish(_, _) => WorkDelivers(maxPods, s, t, a);
    case PostTerminal(_) => WorkDelivers(maxPods, s, t, a);
    case ConfirmTerminal(_) => WorkDelivers(maxPods, s, t, a);
    case DeletePod(gone) => RemoveSize(s.pods, s.workers[t].podName);
    case _ =>
  }

  lemma StartKeeps(maxPods: nat, s: State, a: StartAction)
    requires Inv(maxPods, s) && DoStart(s, a).Some?
    ensures Inv(maxPods, DoStart(s, a).value)
  {
    match a
    case Intend(_, _) => StartRecords(maxPods, s, a);
    case Undo(_) => StartRecords(maxPods, s, a);
    case CreatePod(outcome, uid) => CreateKeeps(maxPods, s, outcome, uid);
    case Record(rec, written) => RecordKeeps(maxPods, s, rec, written);
    case _ => StartDelivers(maxPods, s, a);
  }

  lemma LifecycleKeeps(maxPods: nat, s: State, a: Action)
    requires Inv(maxPods, s) && Act(maxPods, s, a).Some? && (a.Crash? || a.PodVanishes? || a.Boots?)
    ensures Inv(maxPods, Act(maxPods, s, a).value)
  {
    if a.PodVanishes? { RemoveSize(s.pods, a.name); }
  }

  lemma StepKeeps(maxPods: nat, s: State, a: Action)
    requires Inv(maxPods, s) && Do(maxPods, s, a).Some?
    ensures Inv(maxPods, Do(maxPods, s, a).value)
  {
    ActKeeps(maxPods, s, a);
  }

  lemma ActKeeps(maxPods: nat, s: State, a: Action)
    requires Inv(maxPods, s) && Act(maxPods, s, a).Some?
    ensures Inv(maxPods, Act(maxPods, s, a).value)
  {
    match a
    case Reconciles(keys, list, stuck) => ReconcileKeeps(maxPods, s, keys, list, stuck);
    case Retries(r) => RetryKeeps(maxPods, s, r);
    case Attaches => AttachKeeps(maxPods, s);
    case Polls(k) => PollKeeps(maxPods, s, k);
    case Starts(k) => StartKeeps(maxPods, s, k);
    case Works(t, w) => WorkKeeps(maxPods, s, t, w);
    case _ => LifecycleKeeps(maxPods, s, a);
  }

  lemma {:induction false} RunKeeps(maxPods: nat, s: State, trace: seq<Action>)
    requires Inv(maxPods, s) && Exec(maxPods, s, trace).Some?
    ensures Inv(maxPods, Exec(maxPods, s, trace).value)
    decreases |trace|
  {
    if trace != [] {
      StepKeeps(maxPods, s, trace[0]);
      RunKeeps(maxPods, Do(maxPods, s, trace[0]).value, trace[1..]);
    }
  }

  lemma ReachableInv(maxPods: nat, s: State)
    requires Reachable(maxPods, s)
    ensures Inv(maxPods, s)
  {
    var trace :| Exec(maxPods, Init(), trace) == Some(s);
    RunKeeps(maxPods, Init(), trace);
  }
}
