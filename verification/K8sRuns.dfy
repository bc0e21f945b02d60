/** Runs of the Kubernetes Executor that break what its comments promise. */
module K8sRuns {
  import opened Basics
  import opened K8sCache
  import opened K8sMachine
  import opened K8sEvents
  import opened Order

  function Event(id: EventId, kind: EventType): Envelope { Envelope(id, "team", "t", "exec", kind, "now", "{}") }

  function Rec(ref: string, state: AssignmentState): Assignment {
    Assignment("t", "team", "cmd", "image", ref, "", state)
  }

  const Ref := "oh-t@u"

  lemma Names()
    ensures PodName("t") == "oh-t" && SplitRef(Ref) == Some(("oh-t", "u")) && "oh-t" + "@" + "u" == Ref
  {
    assert Compact("t") == "t" by { assert "t"[1..] == ""; }
    assert "oh-t" + "@" + "u" == Ref && '@' !in "oh-t";
    SplitFirst("oh-t", "u");
  }

  // ---- Steps by family ----

  lemma PollStep(maxPods: nat, s: State, a: PollAction) returns (s': State)
    requires Reachable(maxPods, s) && Poll(maxPods, s.pods, s.workers, s.tick, a).Some?
    ensures Reachable(maxPods, s')
    ensures s' == s.(tick := Poll(maxPods, s.pods, s.workers, s.tick, a).value, answered := s'.answered)
  {
    s' := Extend(maxPods, s, Polls(a));
  }

  lemma StartStep(maxPods: nat, s: State, a: StartAction) returns (s': State)
    requires Reachable(maxPods, s) && DoStart(s, a).Some?
    ensures Reachable(maxPods, s') && s' == DoStart(s, a).value.(answered := s'.answered)
  {
    s' := Extend(maxPods, s, Starts(a));
  }

  lemma WorkStep(maxPods: nat, s: State, t: TaskId, a: WorkAction) returns (s': State)
    requires Reachable(maxPods, s) && DoWork(s, t, a).Some?
    ensures Reachable(maxPods, s') && s' == DoWork(s, t, a).value.(answered := s'.answered)
  {
    s' := Extend(maxPods, s, Works(t, a));
  }

  lemma RetryStep(maxPods: nat, s: State, a: RetryAction) returns (s': State)
    requires Reachable(maxPods, s) && DoRetry(s, a).Some?
    ensures Reachable(maxPods, s') && s' == DoRetry(s, a).value.(answered := s'.answered)
  {
    s' := Extend(maxPods, s, Retries(a));
  }

  /** An empty reference ends the process. */
  lemma Unreadable(maxPods: nat, s: State) returns (s': State)
    requires Reachable(maxPods, s) && s.tick.phase == Attaching && s.tick.kept != [] && s.tick.kept[0].runtimeRef == ""
    ensures Reachable(maxPods, s') && s' == s.Stopped().(answered := s'.answered)
  {
    assert SplitRef("").None?;
    s' := Extend(maxPods, s, Attaches);
  }

  /** The cluster's answer while the Pod of `t` is there. */
  const Listed := [PodState("oh-t", Some("cmd"))]

  const OnePod := map["oh-t" := Pod("t", "cmd")]

  lemma ListingOne()
    ensures PodListing(Listed, OnePod)
    ensures forall rec: Assignment :: rec.ownerCommandId == "cmd" ==> Labelled(rec, Listed)
  {
    assert Listed[0].name == "oh-t" && Listed[0].commandLabel == Some("cmd");
  }

  lemma ResumesOne(rec: Assignment)
    requires rec.taskId == "t" && rec.ownerCommandId == "cmd" && !Terminal(rec)
    ensures Lists(["t"], {"t"}) && Resumable(["t"], map["t" := rec], Listed) == [rec]
    ensures Reconciled(map["t" := rec], Listed, {}) == map["t" := rec]
  {
    ListingOne();
    assert ["t"][1..] == [];
    assert Resumable([], map["t" := rec], Listed) == [];
  }

  /** A first start on an empty cache, up to polling. */
  lemma FirstListing(maxPods: nat) returns (s: State)
    ensures Reachable(maxPods, s) && s == Init().(tick := NoTick.(phase := Listing), answered := s.answered)
  {
    s := Init();
    assert Exec(maxPods, s, []) == Some(s);
    s := Extend(maxPods, s, Boots);
    s := Extend(maxPods, s, Reconciles([], [], {}));
    assert s.assignments == map[];
  }

  lemma FirstBoot(maxPods: nat) returns (s: State)
    ensures Reachable(maxPods, s) && s == Init().(tick := NoTick.(phase := Idle), answered := s.answered)
  {
    s := FirstListing(maxPods);
    s := RetryStep(maxPods, s, ListPending([]));
    s := PollStep(maxPods, s, Proceed);
    s := PollStep(maxPods, s, Proceed);
  }

  lemma Gated1(maxPods: nat) returns (s: State)
    requires maxPods >= 1
    ensures Reachable(maxPods, s)
    ensures s.tick == NoTick.(phase := Gated, task := "t", command := "cmd")
    ensures s.assignments == map[] && s.pods == map[] && s.log == [] && s.workers == map[]
    ensures s.outbox == map[] && s.minted == map[]
  {
    s := FirstBoot(maxPods);
    s := PollStep(maxPods, s, Discover(["t"]));
    s := PollStep(maxPods, s, Gate("cmd"));
  }

  lemma Granted1(maxPods: nat) returns (s: State)
    requires maxPods >= 1
    ensures Reachable(maxPods, s)
    ensures s.tick == NoTick.(phase := Granted, task := "t", command := "cmd")
    ensures s.assignments == map["t" := Rec("", Claiming)] && s.pods == map[] && s.log == [] && s.workers == map[]
    ensures s.outbox == map[] && s.minted == map[]
  {
    s := Gated1(maxPods);
    s := StartStep(maxPods, s, Intend(Rec("", Claiming), true));
    s := PollStep(maxPods, s, Claim(true, false));
  }

  /** The task is claimed and `running` is about to be posted. */
  lemma Claimed1(maxPods: nat) returns (s: State)
    requires maxPods >= 1
    ensures Reachable(maxPods, s)
    ensures s.tick == NoTick.(phase := Announcing, task := "t", command := "cmd", mail := Posting(Event("1", Running)))
    ensures s.assignments == map["t" := Rec("", Claimed)] && s.pods == map[] && s.log == [] && s.workers == map[]
    ensures s.outbox == map["1" := OutboxRecord(Event("1", Running), Pending)]
    ensures s.minted == map["1" := Event("1", Running)]
  {
    s := Granted1(maxPods);
    s := StartStep(maxPods, s, Announce(Rec("", Claimed), true, Event("1", Running), true));
  }

  lemma Announced1(maxPods: nat) returns (s: State)
    requires maxPods >= 1
    ensures Reachable(maxPods, s) && s.log == [Event("1", Running)]
    ensures s.tick.phase == Announced && s.tick.task == "t" && s.tick.command == "cmd"
    ensures s.tick.mail == NoMail && s.tick.rest == []
    ensures s.assignments == map["t" := Rec("", Claimed)] && s.pods == map[] && s.workers == map[]
    ensures s.outbox == map["1" := OutboxRecord(Event("1", Running), Accepted)]
    ensures s.minted == map["1" := Event("1", Running)]
  {
    s := Claimed1(maxPods);
    s := StartStep(maxPods, s, PostRunning(Answered));
    s := StartStep(maxPods, s, ConfirmRunning(true));
  }

  lemma Created1(maxPods: nat) returns (s: State)
    requires maxPods >= 1
    ensures Reachable(maxPods, s) && s.log == [Event("1", Running)]
    ensures s.assignments == map["t" := Rec("", Claimed)] && s.pods == OnePod
    ensures s.outbox == map["1" := OutboxRecord(Event("1", Running), Accepted)]
    ensures s.minted == map["1" := Event("1", Running)]
    ensures s.workers == map["t" := Worker(Unspawned, NoMail, "cmd", "oh-t", "u")]
    ensures s.tick.phase == Created && s.tick.task == "t" && s.tick.command == "cmd"
    ensures s.tick.rest == [] && s.tick.mail == NoMail
  {
    Names();
    s := Announced1(maxPods);
    s := StartStep(maxPods, s, CreatePod(Answered, "u"));
  }

  lemma Records1(s: State)
    requires s.tick.phase == Created && s.tick.task == "t" && s.tick.command == "cmd"
    requires s.workers == map["t" := Worker(Unspawned, NoMail, "cmd", "oh-t", "u")]
    ensures DoStart(s, Record(Rec(Ref, InProgress), true)) == Some(s.(
      assignments := s.assignments["t" := Rec(Ref, InProgress)], tick := s.tick.(phase := Scan),
      workers := map["t" := Worker(Working, NoMail, "cmd", "oh-t", "u")]))
  {
    Names();
    OverwriteOnly("t", s.workers["t"], s.workers["t"].(phase := Working));
  }

  /** The Pod runs and its goroutine works. */
  lemma Running1(maxPods: nat) returns (s: State)
    requires maxPods >= 1
    ensures Reachable(maxPods, s) && s.log == [Event("1", Running)]
    ensures s.assignments == map["t" := Rec(Ref, InProgress)] && s.pods == map["oh-t" := Pod("t", "cmd")]
    ensures s.outbox == map["1" := OutboxRecord(Event("1", Running), Accepted)]
    ensures s.minted == map["1" := Event("1", Running)]
    ensures s.workers == map["t" := Worker(Working, NoMail, "cmd", "oh-t", "u")]
    ensures s.tick.phase == Scan && s.tick.rest == [] && s.tick.mail == NoMail
  {
    s := Created1(maxPods);
    Records1(s);
    OverwriteOnly("t", Rec("", Claimed), Rec(Ref, InProgress));
    s := StartStep(maxPods, s, Record(Rec(Ref, InProgress), true));
  }

  const OneLeft := map[
    "1" := OutboxRecord(Event("1", Running), Accepted), "2" := OutboxRecord(Event("2", Failed), Pending)]

  lemma ListsOneLeft()
    ensures IsPendingList([Event("2", Failed)], OneLeft)
  {
    assert PendingIds(OneLeft) == {"2"};
    assert Ids([Event("2", Failed)]) == ["2"];
  }

  /** The goroutine is about to post `failed`. */
  lemma Failing2(maxPods: nat) returns (s: State)
    requires maxPods >= 1
    ensures Reachable(maxPods, s) && s.log == [Event("1", Running)]
    ensures s.assignments == map["t" := Rec(Ref, InProgress)] && s.pods == OnePod
    ensures s.outbox == OneLeft && s.minted == map["1" := Event("1", Running), "2" := Event("2", Failed)]
    ensures s.workers == map["t" := Worker(Sending, Posting(Event("2", Failed)), "cmd", "oh-t", "u")]
    ensures s.tick.phase == Scan && s.tick.rest == [] && s.tick.mail == NoMail
  {
    s := Running1(maxPods);
    s := WorkStep(maxPods, s, "t", Finish(Event("2", Failed), true));
  }

  /** The terminal event reaches the Registry, its answer is lost, and the process dies. */
  lemma LostAnswer(maxPods: nat) returns (s: State)
    requires maxPods >= 1
    ensures Reachable(maxPods, s) && s.tick == NoTick && s.workers == map[]
    ensures s.log == [Event("1", Running), Event("2", Failed)]
    ensures s.assignments == map["t" := Rec(Ref, InProgress)] && s.pods == map["oh-t" := Pod("t", "cmd")]
    ensures s.outbox == OneLeft
    ensures s.minted.Keys == {"1", "2"}
  {
    s := Failing2(maxPods);
    assert forall i :: 0 <= i < |s.log| ==> s.log[i].eventId != "2";
    s := WorkStep(maxPods, s, "t", PostTerminal(Lost));
    s := Extend(maxPods, s, Crash);
  }

  lemma Reconciled1(maxPods: nat) returns (s: State)
    requires maxPods >= 1
    ensures Reachable(maxPods, s) && s.log == [Event("1", Running), Event("2", Failed)] && s.workers == map[]
    ensures s.tick.phase == Listing && s.tick.kept == [Rec(Ref, InProgress)]
    ensures s.outbox == OneLeft
    ensures s.minted.Keys == {"1", "2"}
  {
    s := LostAnswer(maxPods);
    s := Extend(maxPods, s, Boots);
    ListingOne();
    ResumesOne(Rec(Ref, InProgress));
    s := Extend(maxPods, s, Reconciles(["t"], Listed, {}));
  }

  lemma Redelivered(maxPods: nat) returns (s: State)
    requires maxPods >= 1
    ensures Reachable(maxPods, s) && s.log == [Event("1", Running), Event("2", Failed)] && s.workers == map[]
    ensures s.tick.phase == Retrying && s.tick.kept == [Rec(Ref, InProgress)]
    ensures s.tick.pending == [] && s.minted.Keys == {"1", "2"}
  {
    s := Reconciled1(maxPods);
    ListsOneLeft();
    s := RetryStep(maxPods, s, ListPending([Event("2", Failed)]));
    assert s.log[1].eventId in LogIds(s.log);
    s := RetryStep(maxPods, s, RetryPost(Answered));
    s := RetryStep(maxPods, s, RetryMark(true));
  }

  /** The restart delivers the pending event again, without effect, and reconnects to the Pod. */
  lemma Reattached(maxPods: nat) returns (s: State)
    requires maxPods >= 1
    ensures Reachable(maxPods, s) && s.log == [Event("1", Running), Event("2", Failed)]
    ensures s.workers == map["t" := Worker(Working, NoMail, "cmd", "oh-t", "u")]
    ensures s.minted.Keys == {"1", "2"}
  {
    Names();
    s := Redelivered(maxPods);
    s := PollStep(maxPods, s, Proceed);
    s := Extend(maxPods, s, Attaches);
  }

  /**
   * `exactly one of finished or failed` does not survive a lost answer: the assignment is kept, and after the restart
   * the reconnected goroutine reports the task again, under a new event id.
   */
  lemma TwoTerminalEvents(maxPods: nat) returns (s: State)
    requires maxPods >= 1
    ensures Reachable(maxPods, s)
    ensures s.log == [Event("1", Running), Event("2", Failed), Event("3", Finished)]
  {
    s := Reattached(maxPods);
    s := WorkStep(maxPods, s, "t", Finish(Event("3", Finished), true));
    assert forall i :: 0 <= i < |s.log| ==> s.log[i].eventId != "3";
    s := WorkStep(maxPods, s, "t", PostTerminal(Answered));
  }

  /** The record of a second task whose start got no further than its claim intent. */
  const Intent := Assignment("b", "team", "cmd", "", "", "", Claiming)

  const Two := map["t" := Rec(Ref, InProgress), "b" := Intent]

  lemma IntentLeftBehind(maxPods: nat) returns (s: State)
    requires maxPods >= 2
    ensures Reachable(maxPods, s) && s.tick == NoTick && s.workers == map[]
    ensures s.assignments == Two && s.pods == OnePod
    ensures s.outbox == map["1" := OutboxRecord(Event("1", Running), Accepted)]
  {
    s := Running1(maxPods);
    s := PollStep(maxPods, s, Gate(""));
    s := PollStep(maxPods, s, Discover(["b"]));
    s := PollStep(maxPods, s, Gate("cmd"));
    s := StartStep(maxPods, s, Intend(Intent, true));
    s := Extend(maxPods, s, Crash);
  }

  lemma ResumesTwo()
    ensures Lists(["b", "t"], {"t", "b"}) && Resumable(["b", "t"], Two, Listed) == [Intent, Rec(Ref, InProgress)]
    ensures Reconciled(Two, Listed, {}) == Two
  {
    ListingOne();
    assert Less("b", "t");
    assert ["b", "t"][1..] == ["t"] && ["t"][1..] == [];
    assert Resumable(["t"], Two, Listed) == [Rec(Ref, InProgress)] + Resumable([], Two, Listed);
  }

  lemma IntentKept(maxPods: nat) returns (s: State)
    requires maxPods >= 2
    ensures Reachable(maxPods, s) && s.tick == NoTick.(phase := Listing, kept := [Intent, Rec(Ref, InProgress)])
    ensures s.assignments == Two && PendingIds(s.outbox) == {}
  {
    s := IntentLeftBehind(maxPods);
    s := Extend(maxPods, s, Boots);
    ListingOne();
    ResumesTwo();
    assert s.assignments.Keys == {"t", "b"};
    s := Extend(maxPods, s, Reconciles(["b", "t"], Listed, {}));
  }

  lemma IntentAttaching(maxPods: nat) returns (s: State)
    requires maxPods >= 2
    ensures Reachable(maxPods, s) && s.tick.phase == Attaching && s.tick.kept == [Intent, Rec(Ref, InProgress)]
    ensures s.assignments == Two
  {
    s := IntentKept(maxPods);
    s := RetryStep(maxPods, s, ListPending([]));
    s := PollStep(maxPods, s, Proceed);
  }

  /**
   * Two tasks that share a command id: after a crash, the Pod of one answers for the bare intent of the other, the
   * restart tries to reconnect the intent, and the process stops with both records still in place.
   */
  lemma SharedCommandStopsRestart(maxPods: nat) returns (before: State, after: State)
    requires maxPods >= 2
    ensures Reachable(maxPods, before) && before.tick.phase == Attaching
    ensures before.tick.kept == [Intent, Rec(Ref, InProgress)]
    ensures Reachable(maxPods, after) && after == before.Stopped().(answered := after.answered)
    ensures after.assignments == Two
  {
    before := IntentAttaching(maxPods);
    after := Unreadable(maxPods, before);
  }

  // ---- One task is enough ----

  /** The Pod is created and the process dies before its reference is recorded. */
  lemma ReferenceLost(maxPods: nat) returns (s: State)
    requires maxPods >= 1
    ensures Reachable(maxPods, s) && s.tick == NoTick && s.workers == map[]
    ensures s.assignments == map["t" := Rec("", Claimed)] && s.pods == OnePod && PendingIds(s.outbox) == {}
  {
    s := Created1(maxPods);
    s := Extend(maxPods, s, Crash);
  }

  lemma ReferenceMissing(maxPods: nat) returns (s: State)
    requires maxPods >= 1
    ensures Reachable(maxPods, s) && s.tick == NoTick.(phase := Listing, kept := [Rec("", Claimed)])
    ensures s.assignments == map["t" := Rec("", Claimed)] && PendingIds(s.outbox) == {}
  {
    s := ReferenceLost(maxPods);
    s := Extend(maxPods, s, Boots);
    ListingOne();
    ResumesOne(Rec("", Claimed));
    s := Extend(maxPods, s, Reconciles(["t"], Listed, {}));
  }

  /** A crash between creating the Pod and recording it stops every restart, with the record still in place. */
  lemma LostReferenceStopsRestart(maxPods: nat) returns (before: State, after: State)
    requires maxPods >= 1
    ensures Reachable(maxPods, before) && before.tick.phase == Attaching && before.tick.kept == [Rec("", Claimed)]
    ensures Reachable(maxPods, after) && after == before.Stopped().(answered := after.answered)
    ensures after.assignments == map["t" := Rec("", Claimed)]
  {
    var s := ReferenceMissing(maxPods);
    s := RetryStep(maxPods, s, ListPending([]));
    before := PollStep(maxPods, s, Proceed);
    after := Unreadable(maxPods, before);
  }

  // ---- An event left in the outbox ----

  /** The terminal event is refused and stays pending; the Pod goes, and the task is offered again. */
  lemma RefusedReport(maxPods: nat) returns (s: State)
    requires maxPods >= 1
    ensures Reachable(maxPods, s) && s.log == [Event("1", Running)] && s.workers == map[] && s.pods == map[]
    ensures s.tick.phase == Scan && s.tick.rest == [] && s.tick.mail == NoMail
    ensures s.outbox == OneLeft && s.minted == map["1" := Event("1", Running), "2" := Event("2", Failed)]
  {
    s := Failing2(maxPods);
    s := WorkStep(maxPods, s, "t", PostTerminal(Refused));
    s := WorkStep(maxPods, s, "t", Leave);
    s := Extend(maxPods, s, PodVanishes("oh-t"));
  }

  lemma Regated(maxPods: nat) returns (s: State)
    requires maxPods >= 1
    ensures Reachable(maxPods, s) && s.log == [Event("1", Running)] && s.workers == map[] && s.pods == map[]
    ensures s.tick.phase == Gated && s.tick.task == "t" && s.tick.command == "cmd" && s.tick.mail == NoMail
    ensures s.outbox == OneLeft && s.minted == map["1" := Event("1", Running), "2" := Event("2", Failed)]
  {
    s := RefusedReport(maxPods);
    s := PollStep(maxPods, s, Gate(""));
    s := PollStep(maxPods, s, Discover(["t"]));
    s := PollStep(maxPods, s, Gate("cmd"));
  }

  lemma Regranted(maxPods: nat) returns (s: State)
    requires maxPods >= 1
    ensures Reachable(maxPods, s) && s.log == [Event("1", Running)] && s.workers == map[] && s.pods == map[]
    ensures s.tick.phase == Granted && s.tick.task == "t" && s.tick.command == "cmd" && s.tick.mail == NoMail
    ensures s.outbox == OneLeft && s.minted == map["1" := Event("1", Running), "2" := Event("2", Failed)]
  {
    s := Regated(maxPods);
    s := StartStep(maxPods, s, Intend(Rec("", Claiming), true));
    s := PollStep(maxPods, s, Claim(true, false));
  }

  lemma Announcing4(maxPods: nat) returns (s: State)
    requires maxPods >= 1
    ensures Reachable(maxPods, s) && s.log == [Event("1", Running)] && s.workers == map[] && s.pods == map[]
    ensures s.tick.phase == Announcing && s.tick.task == "t" && s.tick.command == "cmd"
    ensures s.tick.mail == Posting(Event("4", Running))
    ensures "2" in s.outbox && s.outbox["2"] == OneLeft["2"] && "3" !in s.minted
  {
    s := Regranted(maxPods);
    s := StartStep(maxPods, s, Announce(Rec("", Claimed), true, Event("4", Running), true));
  }

  lemma Reannounced(maxPods: nat) returns (s: State)
    requires maxPods >= 1
    ensures Reachable(maxPods, s) && s.log == [Event("1", Running), Event("4", Running)] && s.workers == map[]
    ensures s.tick.phase == Announced && s.tick.task == "t" && s.tick.command == "cmd" && s.pods == map[]
    ensures "2" in s.outbox && s.outbox["2"] == OneLeft["2"] && "3" !in s.minted
  {
    s := Announcing4(maxPods);
    assert forall i :: 0 <= i < |s.log| ==> s.log[i].eventId != "4";
    s := StartStep(maxPods, s, PostRunning(Answered));
    s := StartStep(maxPods, s, ConfirmRunning(true));
  }

  lemma Recreated(maxPods: nat) returns (s: State)
    requires maxPods >= 1
    ensures Reachable(maxPods, s) && s.log == [Event("1", Running), Event("4", Running)]
    ensures s.tick.phase == Created && s.tick.task == "t" && s.tick.command == "cmd"
    ensures s.workers == map["t" := Worker(Unspawned, NoMail, "cmd", "oh-t", "u")]
    ensures "2" in s.outbox && s.outbox["2"] == OneLeft["2"] && "3" !in s.minted
  {
    Names();
    s := Reannounced(maxPods);
    s := StartStep(maxPods, s, CreatePod(Answered, "u"));
  }

  lemma Reworking(maxPods: nat) returns (s: State)
    requires maxPods >= 1
    ensures Reachable(maxPods, s) && s.log == [Event("1", Running), Event("4", Running)]
    ensures s.workers == map["t" := Worker(Working, NoMail, "cmd", "oh-t", "u")]
    ensures "2" in s.outbox && s.outbox["2"] == OneLeft["2"] && "3" !in s.minted
  {
    s := Recreated(maxPods);
    Records1(s);
    s := StartStep(maxPods, s, Record(Rec(Ref, InProgress), true));
  }

  lemma Reposted(maxPods: nat) returns (s: State)
    requires maxPods >= 1
    ensures Reachable(maxPods, s) && s.log == [Event("1", Running), Event("4", Running), Event("3", Finished)]
    ensures s.workers == map["t" := Worker(Sending, Confirming(Event("3", Finished)), "cmd", "oh-t", "u")]
    ensures "2" in s.outbox && s.outbox["2"] == OneLeft["2"]
  {
    s := Reworking(maxPods);
    s := WorkStep(maxPods, s, "t", Finish(Event("3", Finished), true));
    assert forall i :: 0 <= i < |s.log| ==> s.log[i].eventId != "3";
    s := WorkStep(maxPods, s, "t", PostTerminal(Answered));
  }

  /** The second grant is answered and retired while the first grant's refused event waits to follow it. */
  lemma RefusedEventFollows(maxPods: nat) returns (s: State)
    requires maxPods >= 1
    ensures Reachable(maxPods, s) && DoWork(s, "t", Retire(true)).Some?
    ensures s.log == [Event("1", Running), Event("4", Running), Event("3", Finished)]
    ensures Undelivered(s.outbox, s.log, "2", "t")
    ensures CanLogAnother(maxPods, DoWork(s, "t", Retire(true)).value, "t")
  {
    s := Reposted(maxPods);
    s := WorkStep(maxPods, s, "t", ConfirmTerminal(true));
    assert forall i :: 0 <= i < |s.log| ==> s.log[i].eventId != "2";
    assert Undelivered(s.outbox, s.log, "2", "t");
    RetiredExactly(maxPods, s, "t");
  }
}
