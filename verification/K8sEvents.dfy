/** When the Kubernetes Executor logs another event for a task it has finished with. */
module K8sEvents {
  import opened Basics
  import opened Order
  import opened K8sCache
  import opened K8sMachine
  import opened K8sInvariants
  import opened K8sRestart
  import opened K8sTheorems

  /** An event of the task follows in `log'`. */
  ghost predicate Another(log: seq<Envelope>, log': seq<Envelope>, t: TaskId) {
    exists i :: |log| <= i < |log'| && log'[i].taskId == t
  }

  /** Some run that is not granted the task anew logs another event of it. */
  ghost predicate CanLogAnother(maxPods: nat, s: State, t: TaskId) {
    exists trace :: NeverRegrants(maxPods, s, trace, t) && Exec(maxPods, s, trace).Some?
                    && Another(s.log, Exec(maxPods, s, trace).value.log, t)
  }

  /** A pending record of the task that the Registry does not hold. */
  predicate Undelivered(outbox: Outbox, log: seq<Envelope>, id: EventId, t: TaskId) {
    id in PendingIds(outbox) && outbox[id].envelope.taskId == t && id !in LogIds(log)
  }

  // ---- Nothing left to deliver: nothing follows ----

  ghost predicate Silent(outbox: Outbox, pending: seq<Envelope>, log: seq<Envelope>, t: TaskId) {
    && (forall id :: !Undelivered(outbox, log, id, t))
    && (forall i :: 0 <= i < |pending| && pending[i].taskId == t ==> pending[i].eventId in LogIds(log))
  }

  lemma DeliverNone(log: seq<Envelope>, e: Envelope, o: Outcome, t: TaskId)
    requires e.taskId == t ==> e.eventId in LogIds(log)
    ensures var log' := Deliver(log, e, o); log <= log' && !Another(log, log', t)
  {}

  lemma SilentGrows(outbox: Outbox, pending: seq<Envelope>, log: seq<Envelope>, log': seq<Envelope>, t: TaskId)
    requires Silent(outbox, pending, log, t) && log <= log'
    ensures Silent(outbox, pending, log', t)
  {
    KnownGrows(log, log');
    forall id ensures !Undelivered(outbox, log', id, t) { assert !Undelivered(outbox, log, id, t); }
  }

  lemma SilentAccept(outbox: Outbox, pending: seq<Envelope>, log: seq<Envelope>, t: TaskId, id: EventId, written: bool)
    requires Silent(outbox, pending, log, t)
    ensures Silent(AcceptEvent(outbox, id, written), pending, log, t)
  {
    forall e ensures !Undelivered(AcceptEvent(outbox, id, written), log, e, t) {
      assert !Undelivered(outbox, log, e, t);
    }
  }

  lemma SilentMint(s: State, e: Envelope, written: bool, t: TaskId)
    requires Silent(s.outbox, s.tick.pending, s.log, t) && e.taskId != t
    ensures Silent(s.Mint(e, written).outbox, s.tick.pending, s.log, t)
  {
    forall id ensures !Undelivered(s.Mint(e, written).outbox, s.log, id, t) {
      assert !Undelivered(s.outbox, s.log, id, t);
    }
  }

  /** What a step must keep for the induction over runs. */
  ghost predicate Quiet(s: State, t: TaskId) {
    Settled(s, t) && Silent(s.outbox, s.tick.pending, s.log, t)
  }

  lemma QuietRetry(s: State, a: RetryAction, t: TaskId)
    requires Quiet(s, t) && DoRetry(s, a).Some?
    ensures var s' := DoRetry(s, a).value;
            && Silent(s'.outbox, s'.tick.pending, s'.log, t) && s.log <= s'.log && !Another(s.log, s'.log, t)
  {
    var s' := DoRetry(s, a).value;
    match a
    case ListPending(pending) =>
      forall i | 0 <= i < |pending| && pending[i].taskId == t ensures pending[i].eventId in LogIds(s.log) {
        assert Ids(pending)[i] in Ids(pending);
        assert !Undelivered(s.outbox, s.log, pending[i].eventId, t);
      }
    case RetryPost(outcome) =>
      var e := s.tick.pending[0];
      DeliverNone(s.log, e, outcome, t);
      SilentGrows(s.outbox, s.tick.pending, s.log, s'.log, t);
    case RetryMark(written) =>
      if written { SilentAccept(s.outbox, s.tick.pending, s.log, t, s.tick.pending[0].eventId, true); }
  }

  lemma QuietStart(s: State, a: StartAction, t: TaskId)
    requires Quiet(s, t) && TickOk(s.tick, s.log, s.minted) && DoStart(s, a).Some?
    ensures var s' := DoStart(s, a).value;
            && Silent(s'.outbox, s'.tick.pending, s'.log, t) && s.log <= s'.log && !Another(s.log, s'.log, t)
  {
    match a
    case Announce(rec, recorded, envelope, written) => SilentMint(s, envelope, written, t);
    case PostRunning(outcome) =>
      var e := s.tick.mail.envelope;
      DeliverNone(s.log, e, outcome, t);
      SilentGrows(s.outbox, s.tick.pending, s.log, Deliver(s.log, e, outcome), t);
    case ConfirmRunning(written) =>
      SilentAccept(s.outbox, s.tick.pending, s.log, t, s.tick.mail.envelope.eventId, written);
    case _ =>
  }

  lemma QuietWork(s: State, u: TaskId, a: WorkAction, t: TaskId)
    requires Quiet(s, t) && Roster(s.tick, s.workers) && DoWork(s, u, a).Some?
    ensures var s' := DoWork(s, u, a).value;
            && Silent(s'.outbox, s'.tick.pending, s'.log, t) && s.log <= s'.log && !Another(s.log, s'.log, t)
  {
    match a
    case Finish(envelope, written) => SilentMint(s, envelope, written, t);
    case PostTerminal(outcome) =>
      var e := s.workers[u].mail.envelope;
      DeliverNone(s.log, e, outcome, t);
      SilentGrows(s.outbox, s.tick.pending, s.log, Deliver(s.log, e, outcome), t);
    case ConfirmTerminal(written) =>
      SilentAccept(s.outbox, s.tick.pending, s.log, t, s.workers[u].mail.envelope.eventId, written);
    case _ =>
  }

  lemma QuietAct(maxPods: nat, s: State, a: Action, t: TaskId)
    requires TickOk(s.tick, s.log, s.minted) && Roster(s.tick, s.workers) && Quiet(s, t)
    requires Act(maxPods, s, a).Some?
    ensures var s' := Act(maxPods, s, a).value;
            && Silent(s'.outbox, s'.tick.pending, s'.log, t) && s.log <= s'.log && !Another(s.log, s'.log, t)
  {
    match a
    case Starts(p) => QuietStart(s, p, t);
    case Works(u, w) => QuietWork(s, u, w, t);
    case Retries(r) => QuietRetry(s, r, t);
    case _ =>
  }

  lemma QuietStep(maxPods: nat, s: State, a: Action, t: TaskId)
    requires Inv(maxPods, s) && Roster(s.tick, s.workers) && Quiet(s, t)
    requires Do(maxPods, s, a).Some? && !Regrants(s, a, t)
    ensures var s' := Do(maxPods, s, a).value;
            Quiet(s', t) && s.log <= s'.log && !Another(s.log, s'.log, t)
  {
    QuietAct(maxPods, s, a, t);
    SettledStep(maxPods, s, a, t);
  }

  lemma {:induction false} QuietForever(maxPods: nat, s: State, trace: seq<Action>, t: TaskId)
    requires Inv(maxPods, s) && Roster(s.tick, s.workers) && Quiet(s, t)
    requires Exec(maxPods, s, trace).Some? && NeverRegrants(maxPods, s, trace, t)
    ensures var s' := Exec(maxPods, s, trace).value; s.log <= s'.log && !Another(s.log, s'.log, t)
    decreases |trace|
  {
    if trace != [] {
      var mid := Do(maxPods, s, trace[0]).value;
      QuietStep(maxPods, s, trace[0], t);
      StepKeeps(maxPods, s, trace[0]);
      StepRoster(maxPods, s, trace[0]);
      QuietForever(maxPods, mid, trace[1..], t);
    }
  }

  // ---- Something left to deliver: a restart delivers it ----

  lemma {:induction false} GrantFreeNever(maxPods: nat, s: State, trace: seq<Action>, t: TaskId)
    requires GrantFree(trace)
    ensures NeverRegrants(maxPods, s, trace, t)
    decreases |trace|
  {
    if trace != [] && Do(maxPods, s, trace[0]).Some? {
      GrantFreeNever(maxPods, Do(maxPods, s, trace[0]).value, trace[1..], t);
    }
  }

  lemma LeadsToAnother(maxPods: nat, s: State, s': State, t: TaskId)
    requires Leads(maxPods, s, s') && Another(s.log, s'.log, t)
    ensures CanLogAnother(maxPods, s, t)
  {
    var trace :| GrantFree(trace) && Exec(maxPods, s, trace) == Some(s');
    GrantFreeNever(maxPods, s, trace, t);
  }

  lemma {:induction false} LeadsKeeps(maxPods: nat, s: State, s': State)
    requires Inv(maxPods, s) && Leads(maxPods, s, s')
    ensures Inv(maxPods, s')
  {
    var trace :| GrantFree(trace) && Exec(maxPods, s, trace) == Some(s');
    RunKeeps(maxPods, s, trace);
  }

  lemma UndeliveredFollows(maxPods: nat, s: State, id: EventId, t: TaskId)
    requires Inv(maxPods, s) && Undelivered(s.outbox, s.log, id, t)
    ensures CanLogAnother(maxPods, s, t)
  {
    var s', keys, list := Recover(maxPods, s);
    LeadsKeeps(maxPods, s, s');
    var i :| 0 <= i < |s'.log| && s'.log[i].eventId == id;
    assert Minted(s'.minted, s'.log[i]) && Minted(s.minted, s.outbox[id].envelope);
    assert forall j :: 0 <= j < |s.log| ==> s.log[j].eventId in LogIds(s.log);
    LeadsToAnother(maxPods, s, s', t);
  }

  lemma RetiredFacts(maxPods: nat, s: State, t: TaskId)
    requires Reachable(maxPods, s) && DoWork(s, t, Retire(true)).Some?
    ensures var s' := DoWork(s, t, Retire(true)).value;
            Inv(maxPods, s') && Roster(s'.tick, s'.workers) && Settled(s', t) && s'.tick.pending == []
  {
    ReachableRoster(maxPods, s);
    SettledByRetiring(s, t);
    WorkKeeps(maxPods, s, t, Retire(true));
    WorkRoster(s, t, Retire(true));
  }

  lemma NothingFollows(maxPods: nat, s: State, t: TaskId)
    requires Inv(maxPods, s) && Roster(s.tick, s.workers) && Quiet(s, t)
    ensures !CanLogAnother(maxPods, s, t)
  {
    forall trace | NeverRegrants(maxPods, s, trace, t) && Exec(maxPods, s, trace).Some?
      ensures !Another(s.log, Exec(maxPods, s, trace).value.log, t)
    {
      QuietForever(maxPods, s, trace, t);
    }
  }

  /**
   * Once the terminal event was answered and the assignment deleted, some run without a new grant logs another event
   * of the task exactly when the outbox still holds a pending one the Registry has not got.
   */
  lemma RetiredExactly(maxPods: nat, s: State, t: TaskId)
    requires Reachable(maxPods, s) && DoWork(s, t, Retire(true)).Some?
    ensures var s' := DoWork(s, t, Retire(true)).value;
            CanLogAnother(maxPods, s', t) <==> exists id :: Undelivered(s'.outbox, s'.log, id, t)
  {
    var s' := DoWork(s, t, Retire(true)).value;
    RetiredFacts(maxPods, s, t);
    if id :| Undelivered(s'.outbox, s'.log, id, t) {
      UndeliveredFollows(maxPods, s', id, t);
    } else {
      NothingFollows(maxPods, s', t);
    }
  }

  // ---- A record that was kept ----

  /** Some Pod of the cluster answers for the record. */
  ghost predicate Answering(rec: Assignment, pods: map<string, Pod>) {
    rec.ownerCommandId != "" && exists name :: name in pods && pods[name].command == rec.ownerCommandId
  }

  lemma ListedLabels(list: seq<PodState>, pods: map<string, Pod>, rec: Assignment)
    requires PodListing(list, pods)
    ensures Labelled(rec, list) <==> Answering(rec, pods)
  {
    if Answering(rec, pods) {
      var name :| name in pods && pods[name].command == rec.ownerCommandId;
      var i :| 0 <= i < |list| && list[i].name == name;
      assert list[i].commandLabel == Some(rec.ownerCommandId);
    }
    if Labelled(rec, list) {
      var i :| 0 <= i < |list| && list[i].commandLabel == Some(rec.ownerCommandId);
      assert list[i].name in pods && pods[list[i].name].command == rec.ownerCommandId;
    }
  }

  /** A restart reconnects the record. */
  ghost predicate Resumes(s: State, t: TaskId) {
    t in s.assignments && !Terminal(s.assignments[t]) && Answering(s.assignments[t], s.pods)
  }

  /** A terminal event of the task follows in `log'`. */
  ghost predicate AnotherTerminal(log: seq<Envelope>, log': seq<Envelope>, t: TaskId) {
    exists i :: |log| <= i < |log'| && log'[i].taskId == t && log'[i].eventType != Running
  }

  lemma FreshId(log: seq<Envelope>, minted: map<EventId, Envelope>) returns (id: EventId)
    requires LogOk(log, minted)
    ensures id !in minted && id !in LogIds(log)
  {
    id := FreshName(minted.Keys);
    assert forall i :: 0 <= i < |log| ==> Minted(minted, log[i]);
  }

  lemma FinishesWith(s: State, t: TaskId, e: Envelope)
    requires Ready(s.workers, t) && e.eventId !in s.minted && e.taskId == t && e.eventType == Finished
    ensures DoWork(s, t, Finish(e, true)).Some?
    ensures var s' := DoWork(s, t, Finish(e, true)).value;
            && s'.log == s.log && t in s'.workers && s'.workers[t].phase == Sending && s'.workers[t].mail == Posting(e)
  {}

  lemma PostsWith(s: State, t: TaskId, e: Envelope)
    requires t in s.workers && s.workers[t].phase == Sending && s.workers[t].mail == Posting(e)
    requires e.eventId !in LogIds(s.log)
    ensures DoWork(s, t, PostTerminal(Answered)).Some?
    ensures DoWork(s, t, PostTerminal(Answered)).value.log == s.log + [e]
  {}

  lemma ReportAgain(maxPods: nat, from: State, s: State, t: TaskId) returns (s': State)
    requires Leads(maxPods, from, s) && Inv(maxPods, s) && Ready(s.workers, t)
    ensures Leads(maxPods, from, s') && AnotherTerminal(s.log, s'.log, t) && s.log <= s'.log
  {
    var id := FreshId(s.log, s.minted);
    var e := Envelope(id, "", t, "", Finished, "", "");
    FinishesWith(s, t, e);
    s' := GoWork(maxPods, from, s, t, Finish(e, true));
    PostsWith(s', t, e);
    s' := GoWork(maxPods, from, s', t, PostTerminal(Answered));
    assert s'.log[|s.log|] == e;
  }

  /** The restart reads the reference of this record and of every one it reconnects before it. */
  ghost predicate ReadableUpTo(s: State, t: TaskId) {
    forall u :: Resumes(s, u) && !Less(t, u) ==> Readable(s.assignments[u])
  }

  lemma KeptReadable(s: State, keys: seq<TaskId>, list: seq<PodState>, t: TaskId, n: nat, i: nat)
    requires RecordsOk(s.assignments, s.log) && Lists(keys, s.assignments.Keys) && PodListing(list, s.pods)
    requires var kept := Resumable(keys, s.assignments, list); i <= n < |kept| && kept[n].taskId == t
    requires ReadableUpTo(s, t)
    ensures Readable(Resumable(keys, s.assignments, list)[i])
  {
    var kept := Resumable(keys, s.assignments, list);
    ResumableExact(keys, s.assignments, list);
    assert kept[i] in kept;
    ListedLabels(list, s.pods, kept[i]);
    NotAfter(kept[i].taskId, t);
  }

  lemma Reattach(maxPods: nat, s: State, t: TaskId) returns (s': State)
    requires Inv(maxPods, s) && Resumes(s, t) && ReadableUpTo(s, t)
    ensures Leads(maxPods, s, s') && Ready(s'.workers, t) && s.log <= s'.log
  {
    var keys, list;
    s', keys, list := Recover(maxPods, s);
    var kept := Resumable(keys, s.assignments, list);
    ResumableExact(keys, s.assignments, list);
    ListedLabels(list, s.pods, s.assignments[t]);
    assert s.assignments[t] in kept;
    var n :| 0 <= n < |kept| && kept[n] == s.assignments[t];
    forall i | 0 <= i <= n ensures Readable(kept[i]) {
      KeptReadable(s, keys, list, t, n, i);
    }
    s' := AttachSome(maxPods, s, s', n + 1);
  }

  lemma NotAfter(a: TaskId, b: TaskId)
    ensures a == b || Less(a, b) ==> !Less(b, a)
  {
    LessTotal(a, a);
    if Less(a, b) && Less(b, a) { LessTransitive(a, b, a); }
  }

  /**
   * A task whose record was kept, with a Pod that answers for it, can get another terminal event without a new grant,
   * whatever was logged before, provided the restart reads the references up to the task's own.
   */
  lemma KeptAllowsAnother(maxPods: nat, s: State, t: TaskId)
    requires Reachable(maxPods, s) && Resumes(s, t) && ReadableUpTo(s, t)
    ensures exists s' :: Leads(maxPods, s, s') && AnotherTerminal(s.log, s'.log, t)
  {
    ReachableInv(maxPods, s);
    var mid := Reattach(maxPods, s, t);
    LeadsKeeps(maxPods, s, mid);
    var s' := ReportAgain(maxPods, s, mid, t);
    assert AnotherTerminal(s.log, s'.log, t);
  }
}
