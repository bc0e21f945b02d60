/** The intent is on disk before the claim, no goroutine of the Executor gets stuck, and how a tick ends. */
module K8sProgress {
  import opened Basics
  import opened K8sCache
  import opened K8sMachine
  import opened K8sInvariants
  import opened K8sTheorems
  import opened K8sRestart
  import opened K8sEvents
  import opened Order

  // ---- Write-ahead ----

  /** The start has passed its intent and is not over. */
  predicate Committed(phase: Phase) {
    || phase == Intended || phase == Granted || phase == Announcing
    || phase == Announced || phase == Created || phase == Undoing
  }

  /** The cache holds the start's record, under its command and without a Pod. */
  predicate IntentKept(k: Tick, all: Assignments) {
    Committed(k.phase) ==>
      && k.task in all && all[k.task].ownerCommandId == k.command && all[k.task].runtimeRef == ""
      && (all[k.task].state == Claiming || all[k.task].state == Claimed)
      && (k.phase == Intended || k.phase == Granted ==> all[k.task].state == Claiming)
  }

  /** A goroutine that sends has mail to send, and a retry in progress has an event to mark. */
  ghost predicate MailKept(k: Tick, workers: map<TaskId, Worker>) {
    && (forall t :: t in workers ==> (workers[t].phase == Sending <==> !workers[t].mail.NoMail?))
    && (k.phase == Marking ==> k.pending != [])
  }

  ghost predicate Going(s: State) { IntentKept(s.tick, s.assignments) && MailKept(s.tick, s.workers) }

  lemma StartIntent(s: State, a: StartAction)
    requires IntentKept(s.tick, s.assignments) && DoStart(s, a).Some?
    ensures var s' := DoStart(s, a).value; IntentKept(s'.tick, s'.assignments)
  {}

  lemma StartMail(s: State, a: StartAction)
    requires MailKept(s.tick, s.workers) && DoStart(s, a).Some?
    requires s.tick.phase == Created ==> s.tick.task in s.workers && s.workers[s.tick.task].phase == Unspawned
    ensures var s' := DoStart(s, a).value; MailKept(s'.tick, s'.workers)
  {}

  lemma WorkGoing(s: State, t: TaskId, a: WorkAction)
    requires Going(s) && Roster(s.tick, s.workers) && DoWork(s, t, a).Some?
    ensures Going(DoWork(s, t, a).value)
  {}

  lemma RetryGoing(s: State, a: RetryAction)
    requires Going(s) && DoRetry(s, a).Some?
    ensures Going(DoRetry(s, a).value)
  {}

  lemma OtherGoing(maxPods: nat, s: State, a: Action)
    requires Going(s) && Act(maxPods, s, a).Some? && !a.Starts? && !a.Works? && !a.Retries?
    ensures Going(Act(maxPods, s, a).value)
  {
    if a.Polls? { PollGoing(maxPods, s, a.poll); }
  }

  lemma PollGoing(maxPods: nat, s: State, a: PollAction)
    requires Going(s) && Poll(maxPods, s.pods, s.workers, s.tick, a).Some?
    ensures var k := Poll(maxPods, s.pods, s.workers, s.tick, a).value;
      IntentKept(k, s.assignments) && MailKept(k, s.workers)
  {}

  lemma StepGoing(maxPods: nat, s: State, a: Action)
    requires Going(s) && Roster(s.tick, s.workers) && Do(maxPods, s, a).Some?
    ensures Going(Do(maxPods, s, a).value)
  {
    match a
    case Starts(p) =>
      StartIntent(s, p);
      StartMail(s, p);
    case Works(t, w) => WorkGoing(s, t, w);
    case Retries(r) => RetryGoing(s, r);
    case _ => OtherGoing(maxPods, s, a);
  }

  lemma {:induction false} RunGoing(maxPods: nat, s: State, trace: seq<Action>)
    requires Inv(maxPods, s) && Roster(s.tick, s.workers) && Going(s) && Exec(maxPods, s, trace).Some?
    ensures var s' := Exec(maxPods, s, trace).value; Inv(maxPods, s') && Roster(s'.tick, s'.workers) && Going(s')
    decreases |trace|
  {
    if trace != [] {
      StepGoing(maxPods, s, trace[0]);
      StepKeeps(maxPods, s, trace[0]);
      StepRoster(maxPods, s, trace[0]);
      RunGoing(maxPods, Do(maxPods, s, trace[0]).value, trace[1..]);
    }
  }

  lemma ReachableGoing(maxPods: nat, s: State)
    requires Reachable(maxPods, s)
    ensures Inv(maxPods, s) && Roster(s.tick, s.workers) && Going(s)
  {
    var trace :| Exec(maxPods, Init(), trace) == Some(s);
    RunGoing(maxPods, Init(), trace);
  }

  /** Whatever crashes: a task is claimed, announced or given a Pod only with its intent on disk, under its command. */
  lemma IntentsFirst(maxPods: nat, s: State)
    requires Reachable(maxPods, s) && Committed(s.tick.phase)
    ensures s.tick.task in s.assignments
    ensures var rec := s.assignments[s.tick.task];
      && rec.taskId == s.tick.task && rec.ownerCommandId == s.tick.command && rec.runtimeRef == ""
      && (rec.state == Claiming || rec.state == Claimed)
  {
    ReachableGoing(maxPods, s);
  }

  // ---- Nothing gets stuck ----

  /** A step of the polling goroutine. */
  predicate OfPoll(a: Action) { a.Reconciles? || a.Retries? || a.Attaches? || a.Polls? || a.Starts? }

  lemma BootGoesOn(maxPods: nat, s: State) returns (a: Action)
    requires Inv(maxPods, s) && Going(s)
    requires s.tick.phase in {Starting, Listing, Retrying, Marking, Attaching}
    ensures OfPoll(a) && Act(maxPods, s, a).Some?
  {
    var k := s.tick;
    match k.phase
    case Starting =>
      ListingExists(s.assignments.Keys);
      var keys :| Lists(keys, s.assignments.Keys);
      var list := PodsListed(s.pods);
      a := Reconciles(keys, list, {});
    case Listing =>
      var pending := PendingListed(s.outbox);
      a := Retries(ListPending(pending));
    case Retrying => a := if k.pending == [] then Polls(Proceed) else Retries(RetryPost(Answered));
    case Marking => a := Retries(RetryMark(true));
    case Attaching => a := if k.kept == [] then Polls(Proceed) else Attaches;
  }

  lemma ClaimGoesOn(maxPods: nat, s: State) returns (a: Action)
    requires LogOk(s.log, s.minted) && s.tick.phase in {Scan, Gated, Intended, Granted}
    ensures OfPoll(a) && Act(maxPods, s, a).Some?
  {
    var k := s.tick;
    match k.phase
    case Scan => a := Polls(Gate("c"));
    case Gated => a := Starts(Intend(Assignment(k.task, "", k.command, "", "", "", Claiming), true));
    case Intended => a := Polls(Claim(true, false));
    case Granted =>
      var id := FreshId(s.log, s.minted);
      var rec := Assignment(k.task, "", k.command, "", "", "", Claimed);
      a := Starts(Announce(rec, true, Envelope(id, "", k.task, "", Running, "", ""), true));
  }

  lemma StartGoesOn(maxPods: nat, s: State) returns (a: Action)
    requires TickOk(s.tick, s.log, s.minted) && Roster(s.tick, s.workers)
    requires s.tick.phase in {Announcing, Announced, Created, Undoing}
    ensures OfPoll(a) && Act(maxPods, s, a).Some?
  {
    var k := s.tick;
    match k.phase
    case Announcing =>
      a := if k.mail.Posting? then Starts(PostRunning(Answered)) else Starts(ConfirmRunning(true));
    case Announced => a := Starts(CreatePod(Refused, ""));
    case Created =>
      var w := s.workers[k.task];
      a := Starts(Record(Assignment(k.task, "", k.command, "", w.podName + "@" + w.podUID, "", InProgress), true));
    case Undoing => a := Starts(Undo(true));
  }

  /** A step of a goroutine that brings it nearer its end. */
  function NextWork(w: Worker): WorkAction {
    match w.phase
    case Sending => if w.mail.Posting? then PostTerminal(Answered) else ConfirmTerminal(true)
    case Acknowledged => Retire(true)
    case Deleting => DeletePod(true)
    case Leaving => Leave
    case _ => Stop
  }

  lemma WorkerGoesOn(s: State, t: TaskId)
    requires MailKept(s.tick, s.workers) && t in s.workers && s.workers[t].phase != Unspawned
    ensures DoWork(s, t, NextWork(s.workers[t])).Some?
  {}

  lemma PollGoesOn(maxPods: nat, s: State) returns (a: Action)
    requires Inv(maxPods, s) && Going(s) && Roster(s.tick, s.workers) && s.tick.phase != Down && s.tick.phase != Idle
    ensures OfPoll(a) && Act(maxPods, s, a).Some?
  {
    if s.tick.phase in {Scan, Gated, Intended, Granted} {
      a := ClaimGoesOn(maxPods, s);
    } else if s.tick.phase in {Announcing, Announced, Created, Undoing} {
      a := StartGoesOn(maxPods, s);
    } else {
      a := BootGoesOn(maxPods, s);
    }
  }

  /**
   * In every reachable state the polling goroutine of a running process can go on unless it waits for its next tick,
   * and so can every goroutine of a Pod once started.
   */
  lemma NeverStuck(maxPods: nat, s: State)
    requires Reachable(maxPods, s)
    ensures s.tick.phase != Down && s.tick.phase != Idle ==> exists a :: OfPoll(a) && Act(maxPods, s, a).Some?
    ensures forall t :: t in s.workers ==>
      DoWork(s, t, NextWork(s.workers[t])).Some? || (s.tick.phase == Created && s.tick.task == t)
  {
    ReachableGoing(maxPods, s);
    if s.tick.phase != Down && s.tick.phase != Idle {
      var a := PollGoesOn(maxPods, s);
    }
    forall t | t in s.workers && s.workers[t].phase != Unspawned
      ensures DoWork(s, t, NextWork(s.workers[t])).Some?
    {
      WorkerGoesOn(s, t);
    }
  }

  // ---- A tick ----

  /**
   * A tick ends exactly when its list is used up or the limit reached, the intent cannot be stored, the claim errs, the
   * start is given up, its `running` goes unanswered, or its record is undone; a refused claim goes on with the list.
   */
  lemma TickExact(maxPods: nat, s: State, a: Action)
    requires (a.Polls? && a.poll != Proceed) || a.Starts?
    requires s.tick.phase != Idle && Act(maxPods, s, a).Some?
    ensures Act(maxPods, s, a).value.tick.phase == Idle <==>
      || (a.Polls? && a.poll.Gate? && (s.tick.rest == [] || |s.pods| >= maxPods))
      || (a.Starts? && a.start.Intend? && (s.tick.task == "" || !a.start.written))
      || (a.Polls? && a.poll == Claim(false, false)) || (a.Polls? && a.poll == Abort)
      || (a.Starts? && a.start.PostRunning? && a.start.outcome != Answered)
      || (a.Starts? && a.start.Undo?)
    ensures a == Polls(Claim(false, true)) ==> Act(maxPods, s, a).value == s.(tick := s.tick.(phase := Scan))
  {}
}
