/** Which claims leave a task with neither a terminal event nor a way to be claimed again. */
module DockerStranding {
  import opened Basics
  import opened DockerShared
  import opened DockerMachine
  import opened DockerInvariants
  import opened DockerTheorems

  /** The task's most recent claim. */
  ghost predicate Last(history: seq<Claim>, c: nat) {
    c < |history| && forall d :: c < d < |history| ==> history[d].task != history[c].task
  }

  /** The start of this claim is in progress. */
  predicate Busy(k: Tick, c: nat) { HasClaim(k.stage) && k.claim == c }

  /** `running` was accepted for a reply whose launch parameters lack their scope token. */
  predicate Unscoped(claim: Claim) { !claim.scoped && |claim.events| >= 1 && claim.events[0].accepted }

  /** The stages past the scope-token guard. */
  predicate PastGuard(stage: Stage) {
    stage.Prepared? || HasPort(stage) || stage.Installed? || stage.Report?
  }

  /** What a start in progress knows about its own claim. */
  predicate StartStands(k: Tick, claim: Claim, marked: bool) {
    && (PastGuard(k.stage) ==> k.scoped)
    && (k.stage.UndoMark? ==> !Unscoped(claim))
    && (k.stage.Report? ==> !marked)
    && (k.stage.Unreserve? ==> (marked <==> Unscoped(claim)) && (Unscoped(claim) ==> |claim.events| == 1))
  }

  /** A claim that is over: the mark stands exactly for a slot and for the scope-token exit. */
  ghost predicate ClaimStands(claim: Claim, last: bool, slotted: bool, marked: bool) {
    && (slotted ==> claim.scoped)
    && (Unscoped(claim) ==> |claim.events| == 1)
    && (last ==> (marked <==> slotted || Unscoped(claim)))
  }

  ghost predicate Standing(k: Tick, objs: Objects, history: seq<Claim>, accepted: map<TaskId, Lifecycle>) {
    && (HasClaim(k.stage) && k.claim < |history| ==>
          StartStands(k, history[k.claim], history[k.claim].task in accepted))
    && (forall c :: 0 <= c < |history| && !Busy(k, c) ==>
          ClaimStands(history[c], Last(history, c), c in objs, history[c].task in accepted))
  }

  // ---- Every action keeps it ----

  lemma DecideStart(cfg: Config, sh: Shared, k: Tick, d: Decision, claim: Claim, marked: bool)
    requires Decide(cfg, sh, k, d).Some? && HasClaim(k.stage)
    requires StartStands(k, claim, marked) && TickEvents(k, claim.events) && claim.scoped == k.scoped
    requires MarkedOnly(k.stage) ==> marked
    ensures StartStands(Decide(cfg, sh, k, d).value, claim, marked)
  {}

  lemma DecideBusy(cfg: Config, sh: Shared, k: Tick, d: Decision)
    requires Decide(cfg, sh, k, d).Some?
    ensures var k' := Decide(cfg, sh, k, d).value; HasClaim(k'.stage) == HasClaim(k.stage) && k'.claim == k.claim
  {}

  lemma DecideStands(cfg: Config, s: State, d: Decision)
    requires Shape(s.tick, s.objs, s.history) && TickMark(s.tick, s.objs, s.sh.accepted)
    requires Events(s.tick, s.objs, s.history) && Standing(s.tick, s.objs, s.history, s.sh.accepted)
    requires Decide(cfg, s.sh, s.tick, d).Some?
    ensures Standing(Decide(cfg, s.sh, s.tick, d).value, s.objs, s.history, s.sh.accepted)
  {
    DecideBusy(cfg, s.sh, s.tick, d);
    if HasClaim(s.tick.stage) {
      var claim := s.history[s.tick.claim];
      DecideStart(cfg, s.sh, s.tick, d, claim, claim.task in s.sh.accepted);
    }
  }

  /** Only the start in progress changes a mark, and its claim is the last of its task. */
  lemma MarkElsewhere(k: Tick, objs: Objects, history: seq<Claim>, accepted: map<TaskId, Lifecycle>,
                      accepted': map<TaskId, Lifecycle>, c: nat)
    requires Shape(k, objs, history) && Standing(k, objs, history, accepted) && HasClaim(k.stage)
    requires forall t :: t != k.task ==> (t in accepted <==> t in accepted')
    requires c < |history| && !Busy(k, c)
    ensures ClaimStands(history[c], Last(history, c), c in objs, history[c].task in accepted')
  {
    assert Last(history, c) ==> history[k.claim].task != history[c].task;
  }

  /** A write of the start leaves its own claim in order, in progress or over. */
  lemma WriteStart(cfg: Config, sh: Shared, k: Tick, w: Write, claim: Claim)
    requires DoWrite(cfg, sh, k, w).Some? && HasClaim(k.stage) && !k.stage.Installed?
    requires claim.task == k.task && claim.scoped == k.scoped && TickEvents(k, claim.events)
    requires StartStands(k, claim, k.task in sh.accepted)
    requires (k.stage.Claimed? ==> k.task !in sh.accepted) && (MarkedOnly(k.stage) ==> k.task in sh.accepted)
    ensures var (sh', k') := DoWrite(cfg, sh, k, w).value;
            if HasClaim(k'.stage) then StartStands(k', claim, k.task in sh'.accepted)
            else ClaimStands(claim, true, false, k.task in sh'.accepted)
  {}

  lemma WriteBusy(cfg: Config, sh: Shared, k: Tick, w: Write)
    requires DoWrite(cfg, sh, k, w).Some?
    ensures var (sh', k') := DoWrite(cfg, sh, k, w).value;
            && k'.claim == k.claim && (HasClaim(k'.stage) ==> HasClaim(k.stage))
            && (forall t :: t != k.task || !HasClaim(k.stage) ==> (t in sh.accepted <==> t in sh'.accepted))
  {}

  lemma WriteStands(cfg: Config, s: State, w: Write)
    requires Shape(s.tick, s.objs, s.history) && TickMark(s.tick, s.objs, s.sh.accepted)
    requires Events(s.tick, s.objs, s.history) && Standing(s.tick, s.objs, s.history, s.sh.accepted)
    requires DoWrite(cfg, s.sh, s.tick, w).Some?
    ensures var (sh, k) := DoWrite(cfg, s.sh, s.tick, w).value; Standing(k, s.objs, s.history, sh.accepted)
  {
    var (sh, k) := DoWrite(cfg, s.sh, s.tick, w).value;
    WriteBusy(cfg, s.sh, s.tick, w);
    if HasClaim(s.tick.stage) {
      WriteStart(cfg, s.sh, s.tick, w, s.history[s.tick.claim]);
      forall c: nat | c < |s.history| && !Busy(s.tick, c)
        ensures ClaimStands(s.history[c], Last(s.history, c), c in s.objs, s.history[c].task in sh.accepted)
      {
        MarkElsewhere(s.tick, s.objs, s.history, s.sh.accepted, sh.accepted, c);
      }
      assert Last(s.history, s.tick.claim);
    }
  }

  lemma LastShrinks(history: seq<Claim>, claim: Claim, c: nat)
    requires c < |history| && Last(history + [claim], c)
    ensures Last(history, c) && claim.task != history[c].task
  {
    var longer := history + [claim];
    assert longer[|history|] == claim;
    assert forall d :: c < d < |history| ==> longer[d] == history[d];
  }

  lemma LastKept(history: seq<Claim>, history': seq<Claim>, c: nat)
    requires |history| == |history'| && forall d :: 0 <= d < |history| ==> history[d].task == history'[d].task
    ensures Last(history, c) == Last(history', c)
  {}

  lemma GrantStands(s: State, scoped: bool)
    requires Shape(s.tick, s.objs, s.history) && TickMark(s.tick, s.objs, s.sh.accepted)
    requires Standing(s.tick, s.objs, s.history, s.sh.accepted) && DoPost(s, PostClaim(Granted(scoped))).Some?
    ensures var s' := DoPost(s, PostClaim(Granted(scoped))).value;
            Standing(s'.tick, s'.objs, s'.history, s'.sh.accepted)
  {
    var s' := DoPost(s, PostClaim(Granted(scoped))).value;
    forall c: nat | c < |s'.history| && !Busy(s'.tick, c)
      ensures ClaimStands(s'.history[c], Last(s'.history, c), c in s'.objs, s'.history[c].task in s'.sh.accepted)
    {
      assert s'.history[c] == s.history[c];
      if Last(s'.history, c) { LastShrinks(s.history, s'.history[|s.history|], c); }
    }
  }

  /** Posting under a claim leaves the other claims as they were. */
  lemma AppendStands(s: State, c: nat, e: Event, d: nat)
    requires c < |s.history| && d < |s.history| && d != c && !Busy(s.tick, d)
    requires Standing(s.tick, s.objs, s.history, s.sh.accepted)
    ensures var history := s.Append(c, e).history;
            ClaimStands(history[d], Last(history, d), d in s.objs, history[d].task in s.sh.accepted)
  {
    LastKept(s.history, s.Append(c, e).history, d);
  }

  lemma PostStands(s: State, p: Post)
    requires Shape(s.tick, s.objs, s.history) && TickMark(s.tick, s.objs, s.sh.accepted)
    requires Events(s.tick, s.objs, s.history) && Standing(s.tick, s.objs, s.history, s.sh.accepted)
    requires DoPost(s, p).Some?
    ensures var s' := DoPost(s, p).value; Standing(s'.tick, s'.objs, s'.history, s'.sh.accepted)
  {
    if p.PostClaim? {
      if p.reply.Granted? { GrantStands(s, p.reply.scoped); }
    } else {
      var s' := DoPost(s, p).value;
      var e := Event(if p.PostRunning? then EvRunning else EvFailed, p.ok);
      forall d: nat | d < |s'.history| && !Busy(s'.tick, d)
        ensures ClaimStands(s'.history[d], Last(s'.history, d), d in s'.objs, s'.history[d].task in s'.sh.accepted)
      {
        AppendStands(s, s.tick.claim, e, d);
      }
    }
  }

  lemma InstallStands(s: State)
    requires Shape(s.tick, s.objs, s.history) && Standing(s.tick, s.objs, s.history, s.sh.accepted)
    requires DoInstall(s).Some?
    ensures var s' := DoInstall(s).value; Standing(s'.tick, s'.objs, s'.history, s'.sh.accepted)
  {}

  lemma SettleStands(s: State)
    requires Shape(s.tick, s.objs, s.history) && Distinct(s.objs, s.sh.accepted)
    requires Standing(s.tick, s.objs, s.history, s.sh.accepted) && DoSettle(s).Some?
    ensures var s' := DoSettle(s).value; Standing(s'.tick, s'.objs, s'.history, s'.sh.accepted)
  {}

  lemma MoveStands(s: State, c: nat, a: SlotAction)
    requires Shape(s.tick, s.objs, s.history) && Standing(s.tick, s.objs, s.history, s.sh.accepted)
    requires DoMove(s, c, a).Some?
    ensures var s' := DoMove(s, c, a).value; Standing(s'.tick, s'.objs, s'.history, s'.sh.accepted)
  {
    var s' := DoMove(s, c, a).value;
    var m := Move(s.objs[c], a).value;
    if m.posted.Some? {
      forall d: nat | d < |s'.history| && !Busy(s'.tick, d)
        ensures ClaimStands(s'.history[d], Last(s'.history, d), d in s'.objs, s'.history[d].task in s'.sh.accepted)
      {
        LastKept(s.history, s'.history, d);
      }
    }
  }

  lemma TeardownStands(cfg: Config, s: State, c: nat)
    requires Distinct(s.objs, s.sh.accepted) && Standing(s.tick, s.objs, s.history, s.sh.accepted)
    requires DoTeardown(cfg, s, c).Some?
    ensures var s' := DoTeardown(cfg, s, c).value; Standing(s'.tick, s'.objs, s'.history, s'.sh.accepted)
  {
    var s' := DoTeardown(cfg, s, c).value;
    assert s'.sh.accepted.Keys == s.sh.accepted.Keys && s'.objs.Keys == s.objs.Keys;
  }

  lemma StepStands(cfg: Config, s: State, a: Action)
    requires Inv(cfg, s) && Standing(s.tick, s.objs, s.history, s.sh.accepted) && Do(cfg, s, a).Some?
    ensures var s' := Do(cfg, s, a).value; Standing(s'.tick, s'.objs, s'.history, s'.sh.accepted)
  {
    ActStands(cfg, s, a);
  }

  lemma ActStands(cfg: Config, s: State, a: Action)
    requires Inv(cfg, s) && Standing(s.tick, s.objs, s.history, s.sh.accepted) && Act(cfg, s, a).Some?
    ensures var s' := Act(cfg, s, a).value; Standing(s'.tick, s'.objs, s'.history, s'.sh.accepted)
  {
    match a
    case Decides(d) => DecideStands(cfg, s, d);
    case Writes(w) => WriteStands(cfg, s, w);
    case Posts(p) => PostStands(s, p);
    case Installs => InstallStands(s);
    case Settles => SettleStands(s);
    case Moves(c, m) => MoveStands(s, c, m);
    case TearsDown(c) => TeardownStands(cfg, s, c);
  }

  lemma {:induction false} RunStands(cfg: Config, s: State, trace: seq<Action>)
    requires Inv(cfg, s) && Standing(s.tick, s.objs, s.history, s.sh.accepted) && Exec(cfg, s, trace).Some?
    ensures var s' := Exec(cfg, s, trace).value;
            Inv(cfg, s') && Standing(s'.tick, s'.objs, s'.history, s'.sh.accepted)
    decreases |trace|
  {
    if trace != [] {
      StepStands(cfg, s, trace[0]);
      StepKeeps(cfg, s, trace[0]);
      RunStands(cfg, Do(cfg, s, trace[0]).value, trace[1..]);
    }
  }

  // ---- The exact condition ----

  /** The slot's three goroutines have returned. */
  predicate Ended(o: SlotObject) { o.run == Done && o.control == Off && o.exit == NoWatch }

  /** The claim is its task's last, its start is over, and so are its slot's goroutines. */
  ghost predicate Over(s: State, c: nat) {
    Last(s.history, c) && !Busy(s.tick, c) && (c in s.objs ==> Ended(s.objs[c]))
  }

  /** The teardown, after a normal closure of the stream, set the terminal flag before anyone could report. */
  predicate Silenced(s: State, c: nat) { c in s.objs && s.objs[c].silent && s.objs[c].closed }

  /** The one terminal event was posted and its acceptance did not come back. */
  predicate Unconfirmed(s: State, c: nat) {
    c in s.objs && c < |s.history| && |s.history[c].events| == 2 && !s.history[c].events[1].accepted
  }

  /** The mark that keeps the task from being claimed is still there. */
  predicate MarkStands(s: State, c: nat)
    requires c < |s.history|
  {
    s.history[c].task in s.sh.accepted
  }

  predicate Reported(claim: Claim) { exists i :: 0 <= i < |claim.events| && claim.events[i].kind != EvRunning }

  predicate Confirmed(claim: Claim) {
    exists i :: 0 <= i < |claim.events| && claim.events[i].kind != EvRunning && claim.events[i].accepted
  }

  lemma OverFacts(cfg: Config, s: State, c: nat)
    requires cfg.Valid() && Reachable(cfg, s) && Over(s, c)
    ensures Ordered(s.history[c].events)
    ensures ClaimStands(s.history[c], true, c in s.objs, MarkStands(s, c))
    ensures c in s.objs ==> SlotEvents(s.objs[c], s.history[c].events) && s.objs[c].terminal && Pending(s.objs[c]) == 0
  {
    var trace :| Exec(cfg, Init(cfg), trace) == Some(s);
    RunStands(cfg, Init(cfg), trace);
  }

  /** A slot whose goroutines are done has reported, unless its teardown was silent. */
  lemma SlotAccount(claim: Claim, o: SlotObject)
    requires Ordered(claim.events) && SlotEvents(o, claim.events) && o.terminal && Pending(o) == 0
    ensures !Reported(claim) <==> o.silent
    ensures !Confirmed(claim) <==> o.silent || !claim.events[1].accepted
    ensures o.silent ==> o.closed
    ensures |claim.events| == 2 <==> !o.silent
  {
    assert |claim.events| == 2 ==> claim.events[1].kind != EvRunning;
  }

  lemma StartAccount(claim: Claim)
    requires Ordered(claim.events) && |claim.events| <= 1
    ensures !Reported(claim) && !Confirmed(claim)
  {}

  /**
   * A claim that is over leaves its task marked and without a terminal event exactly when the reply lacked its scope
   * token and `running` was accepted, or the teardown silenced the slot. Counting only accepted terminal events, a
   * lost one is the third cause.
   */
  lemma StrandedExactly(cfg: Config, s: State, c: nat)
    requires cfg.Valid() && Reachable(cfg, s) && Over(s, c)
    ensures MarkStands(s, c) && !Reported(s.history[c]) <==> Unscoped(s.history[c]) || Silenced(s, c)
    ensures MarkStands(s, c) && !Confirmed(s.history[c]) <==>
              Unscoped(s.history[c]) || Silenced(s, c) || Unconfirmed(s, c)
  {
    OverFacts(cfg, s, c);
    if c in s.objs {
      SlotAccount(s.history[c], s.objs[c]);
    } else if Unscoped(s.history[c]) {
      StartAccount(s.history[c]);
    }
  }

  /** While the mark of such a claim stands, no later run of the process claims the task again. */
  lemma NeverAgain(cfg: Config, s: State, c: nat, trace: seq<Action>)
    requires cfg.Valid() && Reachable(cfg, s) && Over(s, c) && MarkStands(s, c) && Exec(cfg, s, trace).Some?
    ensures Unclaimed(Exec(cfg, s, trace).value.history, |s.history|, s.history[c].task)
  {
    ReachableInv(cfg, s);
    assert HasClaim(s.tick.stage) ==> s.history[s.tick.claim].task == s.tick.task;
    ClosedForever(cfg, s, trace, s.history[c].task, |s.history|);
  }
}
