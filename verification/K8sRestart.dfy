/** What a restart of the Kubernetes Executor can go on to do, from any state a run can leave behind. */
module K8sRestart {
  import opened Basics
  import opened Order
  import opened K8sCache
  import opened K8sMachine
  import opened K8sInvariants

  // ---- Continuations without a grant ----

  predicate Grants(a: Action) { a.Polls? && a.poll.Claim? && a.poll.granted }

  ghost predicate GrantFree(trace: seq<Action>) { forall i :: 0 <= i < |trace| ==> !Grants(trace[i]) }

  ghost predicate Leads(maxPods: nat, s: State, s': State) {
    exists trace :: GrantFree(trace) && Exec(maxPods, s, trace) == Some(s')
  }

  lemma LeadsNowhere(maxPods: nat, s: State)
    ensures Leads(maxPods, s, s)
  {
    assert GrantFree([]) && Exec(maxPods, s, []) == Some(s);
  }

  lemma Go(maxPods: nat, from: State, s: State, a: Action) returns (s': State)
    requires Leads(maxPods, from, s) && Act(maxPods, s, a).Some? && !Grants(a)
    ensures Leads(maxPods, from, s') && s' == Act(maxPods, s, a).value.(answered := s'.answered)
  {
    var trace :| GrantFree(trace) && Exec(maxPods, from, trace) == Some(s);
    s' := Do(maxPods, s, a).value;
    ExecAppend(maxPods, from, trace, a);
    assert GrantFree(trace + [a]) && Exec(maxPods, from, trace + [a]) == Some(s');
  }

  lemma GoWork(maxPods: nat, from: State, s: State, t: TaskId, a: WorkAction) returns (s': State)
    requires Leads(maxPods, from, s) && DoWork(s, t, a).Some?
    ensures Leads(maxPods, from, s') && s' == DoWork(s, t, a).value.(answered := s'.answered)
  {
    s' := Go(maxPods, from, s, Works(t, a));
  }

  lemma GoRetry(maxPods: nat, from: State, s: State, a: RetryAction) returns (s': State)
    requires Leads(maxPods, from, s) && DoRetry(s, a).Some?
    ensures Leads(maxPods, from, s') && s' == DoRetry(s, a).value.(answered := s'.answered)
  {
    s' := Go(maxPods, from, s, Retries(a));
  }

  // ---- Crash, boot, reconcile, list ----

  lemma PodsListed(pods: map<string, Pod>) returns (list: seq<PodState>)
    ensures PodListing(list, pods)
  {
    ListingExists(pods.Keys);
    var names :| Lists(names, pods.Keys);
    list := seq(|names|, i requires 0 <= i < |names| && names[i] in pods =>
                           PodState(names[i], Some(pods[names[i]].command)));
    forall name | name in pods ensures exists i :: 0 <= i < |list| && list[i].name == name {
      assert name in names;
      var i :| 0 <= i < |names| && names[i] == name;
      assert list[i].name == name;
    }
  }

  lemma PendingListed(outbox: Outbox) returns (pending: seq<Envelope>)
    requires forall id :: id in outbox ==> outbox[id].envelope.eventId == id
    ensures IsPendingList(pending, outbox)
  {
    ListingExists(PendingIds(outbox));
    var ids :| Lists(ids, PendingIds(outbox));
    assert forall i :: 0 <= i < |ids| ==> ids[i] in PendingIds(outbox);
    pending := seq(|ids|, i requires 0 <= i < |ids| && ids[i] in outbox => outbox[ids[i]].envelope);
    assert Ids(pending) == ids;
  }

  lemma Reboot(maxPods: nat, s: State) returns (s': State, keys: seq<TaskId>, list: seq<PodState>)
    ensures Leads(maxPods, s, s') && Lists(keys, s.assignments.Keys) && PodListing(list, s.pods)
    ensures s' == s.(assignments := Reconciled(s.assignments, list, {}), workers := map[], answered := s'.answered,
                     tick := NoTick.(phase := Listing, kept := Resumable(keys, s.assignments, list)))
  {
    ListingExists(s.assignments.Keys);
    keys :| Lists(keys, s.assignments.Keys);
    list := PodsListed(s.pods);
    LeadsNowhere(maxPods, s);
    s' := Go(maxPods, s, s, Crash);
    s' := Go(maxPods, s, s', Boots);
    s' := Go(maxPods, s, s', Reconciles(keys, list, {}));
  }

  // ---- Delivering what is pending ----

  lemma AcceptMore(outbox: Outbox, pending: seq<Envelope>)
    requires pending != [] && pending[0].eventId in outbox
    ensures AcceptAll(AcceptEvent(outbox, pending[0].eventId, true), LogIds(pending[1..])) ==
            AcceptAll(outbox, LogIds(pending))
  {
    assert pending == [pending[0]] + pending[1..];
    forall id ensures id in LogIds(pending) <==> id == pending[0].eventId || id in LogIds(pending[1..]) {
      if id in LogIds(pending) && id != pending[0].eventId {
        var i :| 0 <= i < |pending| && pending[i].eventId == id;
        assert pending[1..][i - 1].eventId == id;
      }
      if id in LogIds(pending[1..]) {
        var i :| 0 <= i < |pending[1..]| && pending[1..][i].eventId == id;
        assert pending[i + 1].eventId == id;
      }
    }
  }

  lemma DeliverHolds(log: seq<Envelope>, e: Envelope)
    ensures var log' := Deliver(log, e, Answered); log <= log' && e.eventId in LogIds(log')
  {
    var log' := Deliver(log, e, Answered);
    assert e.eventId !in LogIds(log) ==> log'[|log|].eventId == e.eventId;
  }

  /** One answered retry. */
  lemma RetryOne(maxPods: nat, from: State, s: State) returns (s': State)
    requires Leads(maxPods, from, s) && s.tick.phase == Retrying && s.tick.pending != []
    ensures Leads(maxPods, from, s')
    ensures s' == s.(log := Deliver(s.log, s.tick.pending[0], Answered),
                     outbox := AcceptEvent(s.outbox, s.tick.pending[0].eventId, true),
                     tick := s.tick.(pending := s.tick.pending[1..]), answered := s'.answered)
  {
    s' := GoRetry(maxPods, from, s, RetryPost(Answered));
    s' := GoRetry(maxPods, from, s', RetryMark(true));
  }

  /** Every retry answered and every write done: what `RetryPendingOutbox` leaves when it succeeds. */
  lemma {:induction false} RetryAll(maxPods: nat, from: State, s: State) returns (s': State)
    requires Leads(maxPods, from, s) && s.tick.phase == Retrying
    requires forall i :: 0 <= i < |s.tick.pending| ==> s.tick.pending[i].eventId in s.outbox
    ensures Leads(maxPods, from, s') && s.log <= s'.log
    ensures s' == s.(log := s'.log, outbox := AcceptAll(s.outbox, LogIds(s.tick.pending)),
                     tick := s.tick.(pending := []), answered := s'.answered)
    ensures forall i :: 0 <= i < |s.tick.pending| ==> s.tick.pending[i].eventId in LogIds(s'.log)
    decreases |s.tick.pending|
  {
    var pending := s.tick.pending;
    if pending == [] {
      assert AcceptAll(s.outbox, LogIds(pending)) == s.outbox;
      s' := s;
    } else {
      var mid := RetryOne(maxPods, from, s);
      DeliverHolds(s.log, pending[0]);
      s' := RetryAll(maxPods, from, mid);
      AcceptMore(s.outbox, pending);
      KnownGrows(mid.log, s'.log);
      forall i | 0 <= i < |pending| ensures pending[i].eventId in LogIds(s'.log) {
        if i > 0 { assert pending[1..][i - 1] == pending[i]; }
      }
    }
  }

  /** The whole restart up to reconnecting, with every pending event delivered. */
  lemma Recover(maxPods: nat, s: State) returns (s': State, keys: seq<TaskId>, list: seq<PodState>)
    requires OutboxOk(s.outbox, s.log, s.minted)
    ensures Leads(maxPods, s, s') && Lists(keys, s.assignments.Keys) && PodListing(list, s.pods)
    ensures s'.tick == NoTick.(phase := Attaching, kept := Resumable(keys, s.assignments, list))
    ensures s'.workers == map[] && s'.minted == s.minted && s.log <= s'.log
    ensures forall id :: id in PendingIds(s.outbox) ==> id in LogIds(s'.log)
  {
    var pending := PendingListed(s.outbox);
    s', keys, list := Reboot(maxPods, s);
    s' := GoRetry(maxPods, s, s', ListPending(pending));
    s' := RetryAll(maxPods, s, s');
    s' := Go(maxPods, s, s', Polls(Proceed));
    forall id | id in PendingIds(s.outbox) ensures id in LogIds(s'.log) {
      assert id in Ids(pending);
      var i :| 0 <= i < |pending| && pending[i].eventId == id;
    }
  }

  // ---- Reconnecting ----

  predicate Ready(workers: map<TaskId, Worker>, t: TaskId) {
    t in workers && workers[t].phase == Working && workers[t].mail == NoMail
  }

  predicate Readable(rec: Assignment) { SplitRef(rec.runtimeRef).Some? }

  /** The first `n` records are reconnected in turn. */
  lemma {:induction false} AttachSome(maxPods: nat, from: State, s: State, n: nat) returns (s': State)
    requires Leads(maxPods, from, s) && s.tick.phase == Attaching && n <= |s.tick.kept|
    requires forall i :: 0 <= i < n ==> Readable(s.tick.kept[i])
    ensures Leads(maxPods, from, s') && s'.tick == s.tick.(kept := s.tick.kept[n..]) && s'.log == s.log
    ensures forall t :: Ready(s.workers, t) ==> Ready(s'.workers, t)
    ensures forall i :: 0 <= i < n ==> Ready(s'.workers, s.tick.kept[i].taskId)
    decreases n
  {
    s' := s;
    var kept := s.tick.kept;
    if n > 0 {
      var mid := Go(maxPods, from, s, Attaches);
      assert forall i :: 0 <= i < |kept| - 1 ==> kept[1..][i] == kept[i + 1];
      assert Ready(mid.workers, kept[0].taskId);
      s' := AttachSome(maxPods, from, mid, n - 1);
      assert kept[1..][n - 1..] == kept[n..];
      forall i | 0 <= i < n ensures Ready(s'.workers, kept[i].taskId) {
        if i > 0 { assert kept[1..][i - 1] == kept[i]; }
      }
    }
  }

  // ---- When a restart gets through ----

  /** The process neither dies nor starts over. */
  ghost predicate Uninterrupted(trace: seq<Action>) {
    forall i :: 0 <= i < |trace| ==> !trace[i].Crash? && !trace[i].Boots?
  }

  ghost predicate ReachesPolling(maxPods: nat, s: State, trace: seq<Action>) {
    Uninterrupted(trace) && Exec(maxPods, s, trace).Some? && Exec(maxPods, s, trace).value.tick.phase == Idle
  }

  lemma DownStays(maxPods: nat, s: State, a: Action)
    requires s.tick.phase == Down && s.workers == map[] && !a.Boots? && Do(maxPods, s, a).Some?
    ensures var s' := Do(maxPods, s, a).value; s'.tick.phase == Down && s'.workers == map[]
  {}

  lemma {:induction false} DownForever(maxPods: nat, s: State, trace: seq<Action>)
    requires s.tick.phase == Down && s.workers == map[] && Uninterrupted(trace)
    ensures !ReachesPolling(maxPods, s, trace)
    decreases |trace|
  {
    if trace != [] && Do(maxPods, s, trace[0]).Some? {
      DownStays(maxPods, s, trace[0]);
      DownForever(maxPods, Do(maxPods, s, trace[0]).value, trace[1..]);
    }
  }

  lemma AttachingStep(maxPods: nat, s: State, a: Action)
    requires s.tick.phase == Attaching && s.tick.kept != [] && !a.Crash? && !a.Attaches? && Do(maxPods, s, a).Some?
    ensures Do(maxPods, s, a).value.tick == s.tick
  {
    match a
    case Starts(p) => OnlyAttaching(s, p);
    case Works(t, w) => WorkTick(s, t, w);
    case _ =>
  }

  lemma OnlyAttaching(s: State, a: StartAction)
    requires s.tick.phase == Attaching
    ensures DoStart(s, a).None?
  {}

  lemma WorkTick(s: State, t: TaskId, a: WorkAction)
    requires DoWork(s, t, a).Some?
    ensures DoWork(s, t, a).value.tick == s.tick
  {}

  lemma {:induction false} ReadableIfPolling(maxPods: nat, s: State, trace: seq<Action>, i: nat)
    requires s.tick.phase == Attaching && i < |s.tick.kept| && ReachesPolling(maxPods, s, trace)
    ensures Readable(s.tick.kept[i])
    decreases |trace|
  {
    var s' := Do(maxPods, s, trace[0]).value;
    assert ReachesPolling(maxPods, s', trace[1..]);
    if !trace[0].Attaches? {
      AttachingStep(maxPods, s, trace[0]);
      ReadableIfPolling(maxPods, s', trace[1..], i);
    } else if !Readable(s.tick.kept[0]) {
      DownForever(maxPods, s', trace[1..]);
    } else if i > 0 {
      assert s'.tick.kept[i - 1] == s.tick.kept[i];
      ReadableIfPolling(maxPods, s', trace[1..], i - 1);
    }
  }

  lemma {:induction false} AttachTrace(maxPods: nat, s: State) returns (trace: seq<Action>)
    requires s.tick.phase == Attaching && forall i :: 0 <= i < |s.tick.kept| ==> Readable(s.tick.kept[i])
    ensures ReachesPolling(maxPods, s, trace)
    decreases |s.tick.kept|
  {
    if s.tick.kept == [] {
      trace := [Polls(Proceed)];
      assert trace[1..] == [];
    } else {
      var s' := Do(maxPods, s, Attaches).value;
      var rest := AttachTrace(maxPods, s');
      trace := [Attaches] + rest;
      assert trace[1..] == rest;
    }
  }

  /** A restart gets from reconnecting to polling exactly when every record it reconnects has a readable reference. */
  lemma RestartExactly(maxPods: nat, s: State)
    requires s.tick.phase == Attaching
    ensures (exists trace :: ReachesPolling(maxPods, s, trace)) <==>
            (forall i :: 0 <= i < |s.tick.kept| ==> Readable(s.tick.kept[i]))
  {
    if trace :| ReachesPolling(maxPods, s, trace) {
      forall i | 0 <= i < |s.tick.kept| ensures Readable(s.tick.kept[i]) {
        ReadableIfPolling(maxPods, s, trace, i);
      }
    }
    if forall i :: 0 <= i < |s.tick.kept| ==> Readable(s.tick.kept[i]) {
      var trace := AttachTrace(maxPods, s);
    }
  }
}
