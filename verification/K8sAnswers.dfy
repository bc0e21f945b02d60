/** Nothing is marked accepted, created or retired before the Registry's answer. */
module K8sAnswers {
  import opened Basics
  import opened K8sCache
  import opened K8sMachine
  import opened K8sInvariants
  import opened K8sTheorems

  /** An answered event of the task: `running`, or a terminal one. */
  ghost predicate Heard(answered: set<EventId>, minted: map<EventId, Envelope>, t: TaskId, running: bool) {
    exists id ::
      id in answered && id in minted && minted[id].taskId == t && (minted[id].eventType == Running) == running
  }

  ghost predicate OutboxHeard(outbox: Outbox, answered: set<EventId>) {
    forall id :: id in outbox && outbox[id].delivery == Accepted ==> id in answered
  }

  ghost predicate TickHeard(k: Tick, answered: set<EventId>, minted: map<EventId, Envelope>) {
    && (k.phase == Marking && k.pending != [] ==> k.pending[0].eventId in answered)
    && (k.mail.Confirming? ==> k.mail.envelope.eventId in answered)
    && (Past(k.phase) ==> Heard(answered, minted, k.task, true))
  }

  ghost predicate WorkerHeard(w: Worker, t: TaskId, answered: set<EventId>, minted: map<EventId, Envelope>) {
    && (!w.mail.NoMail? ==> w.mail.envelope.eventType != Running)
    && (w.mail.Confirming? ==> w.mail.envelope.eventId in answered)
    && (w.phase == Acknowledged || w.phase == Deleting ==> Heard(answered, minted, t, false))
  }

  ghost predicate WorkersHeard(workers: map<TaskId, Worker>, answered: set<EventId>, minted: map<EventId, Envelope>) {
    forall t :: t in workers ==> WorkerHeard(workers[t], t, answered, minted)
  }

  ghost predicate AllHeard(s: State) {
    && OutboxHeard(s.outbox, s.answered) && TickHeard(s.tick, s.answered, s.minted)
    && WorkersHeard(s.workers, s.answered, s.minted)
  }

  lemma HeardGrows(answered: set<EventId>, minted: map<EventId, Envelope>,
                   answered': set<EventId>, minted': map<EventId, Envelope>, t: TaskId, running: bool)
    requires Heard(answered, minted, t, running) && answered <= answered'
    requires forall id :: id in minted ==> id in minted' && minted'[id] == minted[id]
    ensures Heard(answered', minted', t, running)
  {
    var id :| id in answered && id in minted && minted[id].taskId == t && (minted[id].eventType == Running) == running;
    assert id in answered' && id in minted' && minted'[id] == minted[id];
  }

  lemma AllGrows(s: State, answered: set<EventId>, minted: map<EventId, Envelope>)
    requires AllHeard(s) && s.answered <= answered
    requires forall id :: id in s.minted ==> id in minted && minted[id] == s.minted[id]
    ensures OutboxHeard(s.outbox, answered) && TickHeard(s.tick, answered, minted)
    ensures WorkersHeard(s.workers, answered, minted)
  {
    if Past(s.tick.phase) { HeardGrows(s.answered, s.minted, answered, minted, s.tick.task, true); }
    forall t | t in s.workers ensures WorkerHeard(s.workers[t], t, answered, minted) {
      assert WorkerHeard(s.workers[t], t, s.answered, s.minted);
      if s.workers[t].phase == Acknowledged || s.workers[t].phase == Deleting {
        HeardGrows(s.answered, s.minted, answered, minted, t, false);
      }
    }
  }

  lemma HeardAccepts(outbox: Outbox, answered: set<EventId>, id: EventId, written: bool)
    requires OutboxHeard(outbox, answered) && id in answered
    ensures OutboxHeard(AcceptEvent(outbox, id, written), answered)
  {}

  /** The parts of the state after an action, read against the grown history. */
  ghost predicate StillHeard(s': State, answered: set<EventId>) {
    && OutboxHeard(s'.outbox, answered) && TickHeard(s'.tick, answered, s'.minted)
    && WorkersHeard(s'.workers, answered, s'.minted)
  }

  lemma ConfirmHeard(s: State, written: bool)
    requires AllHeard(s) && TickOk(s.tick, s.log, s.minted) && DoStart(s, ConfirmRunning(written)).Some?
    ensures StillHeard(DoStart(s, ConfirmRunning(written)).value, s.answered)
  {
    var id := s.tick.mail.envelope.eventId;
    HeardAccepts(s.outbox, s.answered, id, written);
    assert Minted(s.minted, s.tick.mail.envelope) && id in s.answered;
    assert Heard(s.answered, s.minted, s.tick.task, true);
  }

  lemma StartWorkers(s: State, a: StartAction, answered: set<EventId>, minted: map<EventId, Envelope>)
    requires WorkersHeard(s.workers, answered, minted) && DoStart(s, a).Some?
    ensures WorkersHeard(DoStart(s, a).value.workers, answered, minted)
  {}

  lemma StartOutbox(s: State, a: StartAction, answered: set<EventId>)
    requires OutboxHeard(s.outbox, answered) && !a.ConfirmRunning? && DoStart(s, a).Some?
    ensures OutboxHeard(DoStart(s, a).value.outbox, answered)
  {}

  lemma StartTick(s: State, a: StartAction, answered: set<EventId>, minted: map<EventId, Envelope>)
    requires TickHeard(s.tick, answered, minted) && !a.ConfirmRunning? && DoStart(s, a).Some?
    requires AnsweredBy(s, Starts(a)) <= answered
    ensures TickHeard(DoStart(s, a).value.tick, answered, minted)
  {}

  lemma StartHeard(s: State, a: StartAction)
    requires AllHeard(s) && TickOk(s.tick, s.log, s.minted) && DoStart(s, a).Some?
    ensures StillHeard(DoStart(s, a).value, s.answered + AnsweredBy(s, Starts(a)))
  {
    var minted, answered := DoStart(s, a).value.minted, s.answered + AnsweredBy(s, Starts(a));
    if a.ConfirmRunning? {
      ConfirmHeard(s, a.written);
      assert answered == s.answered;
    } else {
      StartMints(s, a);
      AllGrows(s, answered, minted);
      StartWorkers(s, a, answered, minted);
      StartOutbox(s, a, answered);
      StartTick(s, a, answered, minted);
    }
  }

  lemma StartMints(s: State, a: StartAction)
    requires DoStart(s, a).Some?
    ensures forall id :: id in s.minted ==>
      id in DoStart(s, a).value.minted && DoStart(s, a).value.minted[id] == s.minted[id]
  {}

  lemma WorkHeard(s: State, t: TaskId, a: WorkAction)
    requires AllHeard(s) && WorkersOk(s.workers, s.log, s.minted) && Roster(s.tick, s.workers) && DoWork(s, t, a).Some?
    ensures StillHeard(DoWork(s, t, a).value, s.answered + AnsweredBy(s, Works(t, a)))
  {
    var s', answered := DoWork(s, t, a).value, s.answered + AnsweredBy(s, Works(t, a));
    AllGrows(s, answered, s'.minted);
    if a.ConfirmTerminal? {
      var e := s.workers[t].mail.envelope;
      HeardAccepts(s.outbox, answered, e.eventId, a.written);
      assert Minted(s.minted, e) && e.eventId in answered;
      assert Heard(answered, s.minted, t, false);
    }
    forall u | u in s'.workers ensures WorkerHeard(s'.workers[u], u, answered, s'.minted) {
      if u in s.workers { assert WorkerHeard(s.workers[u], u, answered, s'.minted); }
    }
  }

  lemma RetryTick(s: State, a: RetryAction, answered: set<EventId>)
    requires TickHeard(s.tick, answered, s.minted) && DoRetry(s, a).Some? && AnsweredBy(s, Retries(a)) <= answered
    ensures TickHeard(DoRetry(s, a).value.tick, answered, s.minted)
  {}

  lemma RetryOutbox(s: State, a: RetryAction, answered: set<EventId>)
    requires OutboxHeard(s.outbox, answered) && TickHeard(s.tick, answered, s.minted) && DoRetry(s, a).Some?
    ensures OutboxHeard(DoRetry(s, a).value.outbox, answered)
  {
    if a.RetryMark? { HeardAccepts(s.outbox, answered, s.tick.pending[0].eventId, true); }
  }

  lemma RetryHeard(s: State, a: RetryAction)
    requires AllHeard(s) && DoRetry(s, a).Some?
    ensures StillHeard(DoRetry(s, a).value, s.answered + AnsweredBy(s, Retries(a)))
  {
    var answered := s.answered + AnsweredBy(s, Retries(a));
    AllGrows(s, answered, s.minted);
    RetryTick(s, a, answered);
    RetryOutbox(s, a, answered);
  }

  lemma OtherHeard(maxPods: nat, s: State, a: Action)
    requires AllHeard(s) && Act(maxPods, s, a).Some? && !a.Starts? && !a.Works? && !a.Retries?
    ensures StillHeard(Act(maxPods, s, a).value, s.answered)
  {
    var s' := Act(maxPods, s, a).value;
    forall u | u in s'.workers ensures WorkerHeard(s'.workers[u], u, s.answered, s'.minted) {
      if u in s.workers { assert WorkerHeard(s.workers[u], u, s.answered, s.minted); }
    }
  }

  lemma StepHeard(maxPods: nat, s: State, a: Action)
    requires Inv(maxPods, s) && Roster(s.tick, s.workers) && AllHeard(s) && Do(maxPods, s, a).Some?
    ensures AllHeard(Do(maxPods, s, a).value)
  {
    match a
    case Starts(p) => StartHeard(s, p);
    case Works(t, w) => WorkHeard(s, t, w);
    case Retries(r) => RetryHeard(s, r);
    case _ => OtherStep(maxPods, s, a);
  }

  lemma OtherStep(maxPods: nat, s: State, a: Action)
    requires AllHeard(s) && Act(maxPods, s, a).Some? && !a.Starts? && !a.Works? && !a.Retries?
    ensures AllHeard(Do(maxPods, s, a).value)
  {
    OtherHeard(maxPods, s, a);
    assert AnsweredBy(s, a) == {} && s.answered + {} == s.answered;
  }

  lemma {:induction false} RunHeard(maxPods: nat, s: State, trace: seq<Action>)
    requires Inv(maxPods, s) && Roster(s.tick, s.workers) && AllHeard(s) && Exec(maxPods, s, trace).Some?
    ensures AllHeard(Exec(maxPods, s, trace).value)
    decreases |trace|
  {
    if trace != [] {
      StepHeard(maxPods, s, trace[0]);
      StepKeeps(maxPods, s, trace[0]);
      StepRoster(maxPods, s, trace[0]);
      RunHeard(maxPods, Do(maxPods, s, trace[0]).value, trace[1..]);
    }
  }

  /**
   * Over every run: a record is accepted only once the Registry answered its post, a Pod is created only after an
   * answered `running`, and an assignment is retired only after an answered terminal event.
   */
  lemma AnswersFirst(maxPods: nat, s: State)
    requires Reachable(maxPods, s)
    ensures forall id :: id in s.outbox && s.outbox[id].delivery == Accepted ==> id in s.answered
    ensures forall outcome, uid :: DoCreate(s, outcome, uid).Some? ==> Heard(s.answered, s.minted, s.tick.task, true)
    ensures forall t, written :: DoWork(s, t, Retire(written)).Some? ==> Heard(s.answered, s.minted, t, false)
  {
    ReachableHeard(maxPods, s);
    forall t, written | DoWork(s, t, Retire(written)).Some? ensures Heard(s.answered, s.minted, t, false) {
      assert WorkerHeard(s.workers[t], t, s.answered, s.minted);
    }
  }

  lemma ReachableHeard(maxPods: nat, s: State)
    requires Reachable(maxPods, s)
    ensures AllHeard(s)
  {
    var trace :| Exec(maxPods, Init(), trace) == Some(s);
    RunHeard(maxPods, Init(), trace);
  }
}
