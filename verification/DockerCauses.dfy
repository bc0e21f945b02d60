/** Which event the Docker Executor posts for which cause. */
module DockerCauses {
  import opened Basics
  import opened DockerShared
  import opened DockerMachine
  import opened DockerInvariants
  import opened DockerStranding

  // ---- Slots ----

  /** The steps that can win a slot's terminal flag. */
  predicate Claiming(a: SlotAction) {
    || a == CheckHealth(false) || a == SubmitPrompt(false) || a.TerminalFrame? || a.StreamFails?
    || a.ControlClaims? || a.ContainerDies?
  }

  /** Only a `finished` frame finishes the task. */
  function KindFor(a: SlotAction): EventType { if a == TerminalFrame(true) then EvFinished else EvFailed }

  /** A frame or a cancellation sets the retention record with its event, a dead container once that is accepted. */
  predicate Retains(a: SlotAction, accepted: bool) {
    a.TerminalFrame? || a.ControlClaims? || (a.ContainerDies? && accepted)
  }

  function WinnerOf(winners: map<nat, SlotAction>, c: nat): Option<SlotAction> {
    if c in winners then Some(winners[c]) else None
  }

  predicate SlotCause(o: SlotObject, es: seq<Event>, w: Option<SlotAction>) {
    && (w.Some? <==> o.terminal && !o.silent)
    && (w.Some? ==> Claiming(w.value))
    && (o.run.Reporting? ==>
          && w.Some? && o.run.kind == KindFor(w.value) && o.run.record == w.value.TerminalFrame?
          && !w.value.ControlClaims? && !w.value.ContainerDies?)
    && (o.control.Failing? ==> w == Some(ControlClaims))
    && (o.exit.Dying? ==> w == Some(ContainerDies))
    && (|es| == 2 ==>
          && w.Some? && es[1].kind == KindFor(w.value)
          && (o.recorded.Some? <==> Retains(w.value, es[1].accepted)))
  }

  lemma MoveCause(o: SlotObject, a: SlotAction, es: seq<Event>, w: Option<SlotAction>)
    requires Move(o, a).Some? && SlotEvents(o, es) && ControlStage(o) && SlotCause(o, es, w)
    ensures var m := Move(o, a).value;
            SlotCause(m.slot, if m.posted.Some? then es + [m.posted.value] else es,
                      if !o.terminal && m.slot.terminal then Some(a) else w)
  {
    var m := Move(o, a).value;
    if m.posted.Some? { assert |es| == 1 ==> es == [es[0]]; }
  }

  lemma TornCause(cfg: Config, o: SlotObject, es: seq<Event>, w: Option<SlotAction>)
    requires Torn(cfg, o).Some? && SlotEvents(o, es) && SlotCause(o, es, w)
    ensures SlotCause(Torn(cfg, o).value, es, w)
  {}

  ghost predicate SlotCauses(objs: Objects, history: seq<Claim>, winners: map<nat, SlotAction>) {
    && (forall c :: c in objs && c < |history| ==> SlotCause(objs[c], history[c].events, WinnerOf(winners, c)))
    && (forall c :: c in winners ==> c in objs)
  }

  lemma SlotsElsewhere(objs: Objects, history: seq<Claim>, history': seq<Claim>, winners: map<nat, SlotAction>)
    requires SlotCauses(objs, history, winners) && |history| <= |history'|
    requires forall c :: c in objs ==> c < |history| && history'[c].events == history[c].events
    ensures SlotCauses(objs, history', winners)
  {}

  lemma SlotUpdated(objs: Objects, history: seq<Claim>, winners: map<nat, SlotAction>, c: nat, o: SlotObject,
                    es: seq<Event>, w: Option<SlotAction>)
    requires SlotCauses(objs, history, winners) && c in objs && c < |history| && SlotCause(o, es, w)
    requires w == WinnerOf(winners, c) || w.Some?
    ensures SlotCauses(objs[c := o], history[c := history[c].(events := es)],
                       if w.Some? then winners[c := w.value] else winners)
  {}

  /** What a move leaves, component by component. */
  lemma MoveEffect(cfg: Config, s: State, c: nat, a: SlotAction)
    requires DoMove(s, c, a).Some?
    ensures var m, o, s' := Move(s.objs[c], a).value, s.objs[c], Do(cfg, s, Moves(c, a)).value;
            var es := s.history[c].events;
            && s'.tick == s.tick && s'.objs == s.objs[c := m.slot] && s'.failures == s.failures
            && s'.history == s.history[c := s.history[c].(
                               events := if m.posted.Some? then es + [m.posted.value] else es)]
            && s'.winners == if !o.terminal && m.slot.terminal then s.winners[c := a] else s.winners
  {
    Untouched(s.history, c);
  }

  lemma MoveCauses(cfg: Config, s: State, c: nat, a: SlotAction)
    requires Inv(cfg, s) && SlotCauses(s.objs, s.history, s.winners) && DoMove(s, c, a).Some?
    ensures var s' := Do(cfg, s, Moves(c, a)).value; SlotCauses(s'.objs, s'.history, s'.winners)
  {
    var o, es := s.objs[c], s.history[c].events;
    var m := Move(o, a).value;
    var es' := if m.posted.Some? then es + [m.posted.value] else es;
    var w' := if !o.terminal && m.slot.terminal then Some(a) else WinnerOf(s.winners, c);
    MoveCause(o, a, es, WinnerOf(s.winners, c));
    SlotUpdated(s.objs, s.history, s.winners, c, m.slot, es', w');
    KeepWinner(s.winners, c);
    MoveEffect(cfg, s, c, a);
  }

  lemma Untouched(history: seq<Claim>, c: nat)
    requires c < |history|
    ensures history[c := history[c].(events := history[c].events)] == history
  {}

  lemma KeepWinner(winners: map<nat, SlotAction>, c: nat)
    ensures c in winners ==> winners[c := winners[c]] == winners
  {}

  lemma TornCauses(cfg: Config, s: State, c: nat)
    requires Inv(cfg, s) && SlotCauses(s.objs, s.history, s.winners) && DoTeardown(cfg, s, c).Some?
    ensures var s' := DoTeardown(cfg, s, c).value; SlotCauses(s'.objs, s'.history, s.winners)
  {
    TornCause(cfg, s.objs[c], s.history[c].events, WinnerOf(s.winners, c));
    SlotUpdated(s.objs, s.history, s.winners, c, Torn(cfg, s.objs[c]).value, s.history[c].events,
                WinnerOf(s.winners, c));
    Untouched(s.history, c);
    KeepWinner(s.winners, c);
  }

  lemma PostKeepsSlots(cfg: Config, s: State, p: Post)
    requires Inv(cfg, s) && SlotCauses(s.objs, s.history, s.winners) && DoPost(s, p).Some?
    ensures var s' := DoPost(s, p).value; SlotCauses(s'.objs, s'.history, s.winners)
  {
    PostTick(s, p);
    PostElsewhere(s, p);
    SlotsElsewhere(s.objs, s.history, DoPost(s, p).value.history, s.winners);
  }

  lemma PostElsewhere(s: State, p: Post)
    requires Shape(s.tick, s.objs, s.history) && DoPost(s, p).Some?
    ensures var history := DoPost(s, p).value.history;
            && |s.history| <= |history|
            && forall c :: c in s.objs ==> c < |s.history| && history[c].events == s.history[c].events
  {}

  lemma InstallCauses(s: State)
    requires Shape(s.tick, s.objs, s.history) && Events(s.tick, s.objs, s.history)
    requires SlotCauses(s.objs, s.history, s.winners) && DoInstall(s).Some?
    ensures var s' := DoInstall(s).value; SlotCauses(s'.objs, s'.history, s.winners)
  {}

  lemma SettleCauses(s: State)
    requires Shape(s.tick, s.objs, s.history) && Events(s.tick, s.objs, s.history)
    requires SlotCauses(s.objs, s.history, s.winners) && DoSettle(s).Some?
    ensures var s' := DoSettle(s).value; SlotCauses(s'.objs, s'.history, s.winners)
  {}

  lemma StepCauses(cfg: Config, s: State, a: Action)
    requires Inv(cfg, s) && SlotCauses(s.objs, s.history, s.winners) && Do(cfg, s, a).Some?
    ensures var s' := Do(cfg, s, a).value; SlotCauses(s'.objs, s'.history, s'.winners)
  {
    match a
    case Decides(_) =>
    case Writes(_) =>
    case Posts(p) => PostKeepsSlots(cfg, s, p);
    case Installs => InstallCauses(s);
    case Settles => SettleCauses(s);
    case Moves(c, m) => MoveCauses(cfg, s, c, m);
    case TearsDown(c) => TornCauses(cfg, s, c);
  }

  // ---- Starts ----

  /** What had been posted when the start gave up. */
  function PostedBefore(f: Action): seq<Event> {
    if f == Decides(Abandon) then []
    else if f == Posts(PostRunning(false)) then [Event(EvRunning, false)]
    else [Event(EvRunning, true)]
  }

  /** The failures a start reports: the environment, the image pull and the container start. */
  predicate Reports(f: Action, scoped: bool) {
    && scoped
    && (f == Decides(Prepare(EnvironmentFailed)) || f == Decides(Pull(false)) || f == Decides(StartContainer(false)))
  }

  /** Everything posted under the claim of a start that gave up. */
  predicate PostedAfter(f: Action, scoped: bool, es: seq<Event>) {
    if Reports(f, scoped) then |es| == 2 && es[0] == Event(EvRunning, true) && es[1].kind == EvFailed
    else es == PostedBefore(f)
  }

  predicate Unwound(k: Tick, es: seq<Event>, f: Action) {
    if k.stage.Unreserve? then PostedAfter(f, k.scoped, es)
    else es == PostedBefore(f) && k.report == Reports(f, k.scoped) && (k.stage.Report? ==> k.report)
  }

  predicate InProgress(k: Tick, es: seq<Event>, failures: map<nat, Action>) {
    && (PastGuard(k.stage) ==> k.scoped)
    && if Unwinding(k.stage) then k.claim in failures && Unwound(k, es, failures[k.claim]) else k.claim !in failures
  }

  ghost predicate StartCauses(k: Tick, objs: Objects, history: seq<Claim>, failures: map<nat, Action>) {
    && (forall c :: c in failures ==> c < |history|)
    && (HasClaim(k.stage) && k.claim < |history| ==> InProgress(k, history[k.claim].events, failures))
    && (forall c :: 0 <= c < |history| && c !in objs && !Busy(k, c) ==>
          c in failures && PostedAfter(failures[c], history[c].scoped, history[c].events))
  }

  function Noted(failures: map<nat, Action>, k: Tick, k': Tick, a: Action): map<nat, Action> {
    if !Unwinding(k.stage) && Unwinding(k'.stage) then failures[k.claim := a] else failures
  }

  lemma DecideNoted(cfg: Config, sh: Shared, k: Tick, d: Decision, es: seq<Event>, failures: map<nat, Action>)
    requires Decide(cfg, sh, k, d).Some? && HasClaim(k.stage) && TickEvents(k, es) && InProgress(k, es, failures)
    ensures var k' := Decide(cfg, sh, k, d).value;
            HasClaim(k'.stage) && k'.claim == k.claim && InProgress(k', es, Noted(failures, k, k', Decides(d)))
  {
    assert |es| == 1 ==> es == [es[0]];
  }

  lemma WriteNoted(cfg: Config, sh: Shared, k: Tick, w: Write, es: seq<Event>, failures: map<nat, Action>)
    requires DoWrite(cfg, sh, k, w).Some? && HasClaim(k.stage) && TickEvents(k, es) && InProgress(k, es, failures)
    requires k.stage.Claimed? ==> k.task !in sh.accepted
    ensures var k' := DoWrite(cfg, sh, k, w).value.1;
            && k'.claim == k.claim
            && (HasClaim(k'.stage) ==> InProgress(k', es, Noted(failures, k, k', Writes(w))))
            && (!HasClaim(k'.stage) ==> k.claim in failures && Noted(failures, k, k', Writes(w)) == failures
                                        && PostedAfter(failures[k.claim], k.scoped, es))
  {
    assert |es| == 1 ==> es == [es[0]];
  }

  lemma StartDecides(cfg: Config, s: State, d: Decision)
    requires Shape(s.tick, s.objs, s.history) && Events(s.tick, s.objs, s.history)
    requires StartCauses(s.tick, s.objs, s.history, s.failures) && Decide(cfg, s.sh, s.tick, d).Some?
    ensures var k := Decide(cfg, s.sh, s.tick, d).value;
            StartCauses(k, s.objs, s.history, Noted(s.failures, s.tick, k, Decides(d)))
  {
    DecideBusy(cfg, s.sh, s.tick, d);
    if HasClaim(s.tick.stage) {
      DecideNoted(cfg, s.sh, s.tick, d, s.history[s.tick.claim].events, s.failures);
    }
  }

  lemma StartWrites(cfg: Config, s: State, w: Write)
    requires Shape(s.tick, s.objs, s.history) && Events(s.tick, s.objs, s.history)
    requires TickMark(s.tick, s.objs, s.sh.accepted)
    requires StartCauses(s.tick, s.objs, s.history, s.failures) && DoWrite(cfg, s.sh, s.tick, w).Some?
    ensures var k := DoWrite(cfg, s.sh, s.tick, w).value.1;
            StartCauses(k, s.objs, s.history, Noted(s.failures, s.tick, k, Writes(w)))
  {
    WriteBusy(cfg, s.sh, s.tick, w);
    if HasClaim(s.tick.stage) {
      WriteNoted(cfg, s.sh, s.tick, w, s.history[s.tick.claim].events, s.failures);
    }
  }

  lemma StartGranted(k: Tick, objs: Objects, history: seq<Claim>, failures: map<nat, Action>, claim: Claim, k': Tick)
    requires Shape(k, objs, history) && StartCauses(k, objs, history, failures) && !HasClaim(k.stage)
    requires k'.stage == Claimed && k'.claim == |history|
    ensures StartCauses(k', objs, history + [claim], failures)
  {}

  lemma StartAppends(k: Tick, objs: Objects, history: seq<Claim>, failures: map<nat, Action>,
                     es: seq<Event>, k': Tick, failures': map<nat, Action>)
    requires Shape(k, objs, history) && StartCauses(k, objs, history, failures) && HasClaim(k.stage)
    requires HasClaim(k'.stage) && k'.claim == k.claim && InProgress(k', es, failures')
    requires failures' == failures || (k.claim in failures' && failures' == failures[k.claim := failures'[k.claim]])
    ensures StartCauses(k', objs, history[k.claim := history[k.claim].(events := es)], failures')
  {}

  lemma PostNoted(s: State, p: Post)
    requires Shape(s.tick, s.objs, s.history) && Events(s.tick, s.objs, s.history)
    requires !p.PostClaim? && DoPost(s, p).Some? && s.tick.claim < |s.history|
    requires InProgress(s.tick, s.history[s.tick.claim].events, s.failures)
    ensures var s' := DoPost(s, p).value;
            InProgress(s'.tick, s'.history[s.tick.claim].events, Noted(s.failures, s.tick, s'.tick, Posts(p)))
  {
    var es := s.history[s.tick.claim].events;
    assert es == [] ==> es + [Event(EvRunning, false)] == [Event(EvRunning, false)];
  }

  lemma StartClaims(s: State, reply: Reply)
    requires Shape(s.tick, s.objs, s.history) && StartCauses(s.tick, s.objs, s.history, s.failures)
    requires DoPost(s, PostClaim(reply)).Some?
    ensures var s' := DoPost(s, PostClaim(reply)).value;
            StartCauses(s'.tick, s'.objs, s'.history, Noted(s.failures, s.tick, s'.tick, Posts(PostClaim(reply))))
  {
    var s' := DoPost(s, PostClaim(reply)).value;
    if reply.Granted? {
      StartGranted(s.tick, s.objs, s.history, s.failures, s'.history[|s.history|], s'.tick);
    }
  }

  lemma StartPosts(s: State, p: Post)
    requires Shape(s.tick, s.objs, s.history) && Events(s.tick, s.objs, s.history)
    requires StartCauses(s.tick, s.objs, s.history, s.failures) && DoPost(s, p).Some?
    ensures var s' := DoPost(s, p).value;
            StartCauses(s'.tick, s'.objs, s'.history, Noted(s.failures, s.tick, s'.tick, Posts(p)))
  {
    if p.PostClaim? {
      StartClaims(s, p.reply);
    } else {
      var s' := DoPost(s, p).value;
      PostNoted(s, p);
      StartAppends(s.tick, s.objs, s.history, s.failures, s'.history[s.tick.claim].events, s'.tick,
                   Noted(s.failures, s.tick, s'.tick, Posts(p)));
    }
  }

  lemma StartInstalls(s: State)
    requires Shape(s.tick, s.objs, s.history) && StartCauses(s.tick, s.objs, s.history, s.failures)
    ensures DoInstall(s).Some? ==> var s' := DoInstall(s).value; StartCauses(s'.tick, s'.objs, s'.history, s.failures)
    ensures DoSettle(s).Some? ==> var s' := DoSettle(s).value; StartCauses(s'.tick, s'.objs, s'.history, s.failures)
  {}

  /** Slots come and go without touching the claims that have none. */
  lemma StartElsewhere(k: Tick, objs: Objects, history: seq<Claim>, failures: map<nat, Action>, c: nat,
                       o: SlotObject, es: seq<Event>)
    requires Shape(k, objs, history) && StartCauses(k, objs, history, failures) && c in objs && c < |history|
    ensures StartCauses(k, objs[c := o], history[c := history[c].(events := es)], failures)
  {}

  lemma StepStarts(cfg: Config, s: State, a: Action)
    requires Ownership(cfg, s) && Events(s.tick, s.objs, s.history)
    requires StartCauses(s.tick, s.objs, s.history, s.failures) && Do(cfg, s, a).Some?
    ensures var s' := Do(cfg, s, a).value; StartCauses(s'.tick, s'.objs, s'.history, s'.failures)
  {
    match a
    case Decides(d) => StartDecides(cfg, s, d);
    case Writes(w) => StartWrites(cfg, s, w);
    case Posts(p) => StartPosts(s, p);
    case Installs => StartInstalls(s);
    case Settles => StartInstalls(s);
    case Moves(c, m) =>
      var s' := Do(cfg, s, a).value;
      MoveEffect(cfg, s, c, m);
      StartElsewhere(s.tick, s.objs, s.history, s.failures, c, s'.objs[c], s'.history[c].events);
    case TearsDown(c) =>
      var s' := Do(cfg, s, a).value;
      Untouched(s.history, c);
      StartElsewhere(s.tick, s.objs, s.history, s.failures, c, s'.objs[c], s.history[c].events);
  }

  // ---- Marks ----

  /** A slot's mark turns terminal with a silent teardown and only then. */
  predicate MarkFor(o: SlotObject, mark: Lifecycle) {
    && (o.run.Marking? ==> o.silent) && (o.silent ==> LateRun(o.run))
    && mark == if o.silent && !o.run.Marking? then Terminal else Running
  }

  ghost predicate SlotMarks(objs: Objects, accepted: map<TaskId, Lifecycle>) {
    forall c :: c in objs && objs[c].task in accepted ==> MarkFor(objs[c], accepted[objs[c].task])
  }

  predicate StartMark(k: Tick, accepted: map<TaskId, Lifecycle>) {
    MarkedOnly(k.stage) && k.task in accepted ==> accepted[k.task] == Running
  }

  lemma DecideMark(cfg: Config, sh: Shared, k: Tick, d: Decision)
    requires StartMark(k, sh.accepted) && Decide(cfg, sh, k, d).Some?
    ensures StartMark(Decide(cfg, sh, k, d).value, sh.accepted)
  {}

  lemma WriteMark(cfg: Config, sh: Shared, k: Tick, w: Write, objs: Objects)
    requires StartMark(k, sh.accepted) && SlotMarks(objs, sh.accepted) && Distinct(objs, sh.accepted)
    requires TickMark(k, objs, sh.accepted) && DoWrite(cfg, sh, k, w).Some?
    ensures var (sh', k') := DoWrite(cfg, sh, k, w).value; StartMark(k', sh'.accepted) && SlotMarks(objs, sh'.accepted)
  {}

  lemma PostMark(s: State, p: Post)
    requires StartMark(s.tick, s.sh.accepted) && DoPost(s, p).Some?
    ensures StartMark(DoPost(s, p).value.tick, s.sh.accepted)
  {}

  lemma InstallMark(s: State)
    requires Shape(s.tick, s.objs, s.history) && SlotMarks(s.objs, s.sh.accepted) && StartMark(s.tick, s.sh.accepted)
    ensures DoInstall(s).Some? ==> SlotMarks(DoInstall(s).value.objs, s.sh.accepted)
    ensures DoSettle(s).Some? ==> SlotMarks(DoSettle(s).value.objs, s.sh.accepted)
  {}

  lemma MoveMark(o: SlotObject, a: SlotAction, mark: Lifecycle)
    requires Move(o, a).Some? && MarkFor(o, mark)
    ensures MarkFor(Move(o, a).value.slot, mark) && Move(o, a).value.slot.task == o.task
  {}

  lemma TornMark(cfg: Config, o: SlotObject, sh: Shared)
    requires Torn(cfg, o).Some? && o.task in sh.accepted && MarkFor(o, sh.accepted[o.task])
    ensures var accepted := TornShared(cfg, sh, o).accepted;
            && o.task in accepted && MarkFor(Torn(cfg, o).value, accepted[o.task]) && Torn(cfg, o).value.task == o.task
            && accepted == sh.accepted[o.task := accepted[o.task]]
  {
    assert sh.accepted[o.task := sh.accepted[o.task]] == sh.accepted;
  }

  lemma SlotMarked(objs: Objects, accepted: map<TaskId, Lifecycle>, c: nat, o: SlotObject, mark: Lifecycle)
    requires SlotMarks(objs, accepted) && Distinct(objs, accepted) && c in objs && o.task == objs[c].task
    requires MarkFor(o, mark)
    ensures SlotMarks(objs[c := o], accepted[o.task := mark])
  {}

  lemma MovesMark(objs: Objects, accepted: map<TaskId, Lifecycle>, c: nat, a: SlotAction)
    requires SlotMarks(objs, accepted) && Distinct(objs, accepted) && c in objs && Move(objs[c], a).Some?
    ensures SlotMarks(objs[c := Move(objs[c], a).value.slot], accepted)
  {
    var o := objs[c];
    MoveMark(o, a, accepted[o.task]);
    SlotMarked(objs, accepted, c, Move(o, a).value.slot, accepted[o.task]);
    assert accepted[o.task := accepted[o.task]] == accepted;
  }

  lemma TearsMark(cfg: Config, objs: Objects, sh: Shared, c: nat)
    requires SlotMarks(objs, sh.accepted) && Distinct(objs, sh.accepted) && c in objs && Torn(cfg, objs[c]).Some?
    ensures SlotMarks(objs[c := Torn(cfg, objs[c]).value], TornShared(cfg, sh, objs[c]).accepted)
  {
    var o := objs[c];
    TornMark(cfg, o, sh);
    SlotMarked(objs, sh.accepted, c, Torn(cfg, o).value, TornShared(cfg, sh, o).accepted[o.task]);
  }

  lemma TearsStart(cfg: Config, k: Tick, objs: Objects, sh: Shared, c: nat)
    requires StartMark(k, sh.accepted) && TickMark(k, objs, sh.accepted) && c in objs
    ensures StartMark(k, TornShared(cfg, sh, objs[c]).accepted)
  {}

  ghost predicate MarkKinds(k: Tick, objs: Objects, accepted: map<TaskId, Lifecycle>) {
    SlotMarks(objs, accepted) && StartMark(k, accepted)
  }

  lemma StepMarks(cfg: Config, s: State, a: Action)
    requires Ownership(cfg, s) && MarkKinds(s.tick, s.objs, s.sh.accepted) && Act(cfg, s, a).Some?
    ensures var s' := Act(cfg, s, a).value; MarkKinds(s'.tick, s'.objs, s'.sh.accepted)
  {
    match a
    case Decides(d) => DecideMark(cfg, s.sh, s.tick, d);
    case Writes(w) => WriteMark(cfg, s.sh, s.tick, w, s.objs);
    case Posts(p) => PostMark(s, p);
    case Installs => InstallMark(s);
    case Settles => InstallMark(s);
    case Moves(c, m) => MovesMark(s.objs, s.sh.accepted, c, m);
    case TearsDown(c) =>
      TearsMark(cfg, s.objs, s.sh, c);
      TearsStart(cfg, s.tick, s.objs, s.sh, c);
  }

  // ---- Over every run ----

  ghost predicate Caused(s: State) {
    && SlotCauses(s.objs, s.history, s.winners)
    && StartCauses(s.tick, s.objs, s.history, s.failures)
    && MarkKinds(s.tick, s.objs, s.sh.accepted)
  }

  lemma {:induction false} RunCauses(cfg: Config, s: State, trace: seq<Action>)
    requires Inv(cfg, s) && Caused(s) && Exec(cfg, s, trace).Some?
    ensures Inv(cfg, Exec(cfg, s, trace).value) && Caused(Exec(cfg, s, trace).value)
    decreases |trace|
  {
    if trace != [] {
      StepCauses(cfg, s, trace[0]);
      StepStarts(cfg, s, trace[0]);
      StepMarks(cfg, s, trace[0]);
      StepKeeps(cfg, s, trace[0]);
      RunCauses(cfg, Do(cfg, s, trace[0]).value, trace[1..]);
    }
  }

  lemma ReachableCaused(cfg: Config, s: State)
    requires cfg.Valid() && Reachable(cfg, s)
    ensures Inv(cfg, s) && Caused(s)
  {
    var trace :| Exec(cfg, Init(cfg), trace) == Some(s);
    RunCauses(cfg, Init(cfg), trace);
  }

  /** A slot's terminal event is `finished` exactly when a `finished` frame won the flag, and `failed` otherwise. */
  lemma TerminalKindExact(cfg: Config, s: State, c: nat)
    requires cfg.Valid() && Reachable(cfg, s) && c in s.objs && c < |s.history| && |s.history[c].events| == 2
    ensures c in s.winners && Claiming(s.winners[c])
    ensures s.history[c].events[1].kind == EvFinished <==> s.winners[c] == TerminalFrame(true)
    ensures s.history[c].events[1].kind == EvFailed <==> s.winners[c] != TerminalFrame(true)
    ensures s.objs[c].recorded.Some? <==>
              || s.winners[c].TerminalFrame? || s.winners[c].ControlClaims?
              || (s.winners[c].ContainerDies? && s.history[c].events[1].accepted)
  {
    ReachableCaused(cfg, s);
    assert SlotCause(s.objs[c], s.history[c].events, WinnerOf(s.winners, c));
  }

  /** A start that gave up posted `failed` exactly after a failed environment, pull or container start. */
  lemma StartEventsExact(cfg: Config, s: State, c: nat)
    requires cfg.Valid() && Reachable(cfg, s) && c < |s.history| && c !in s.objs && !Busy(s.tick, c)
    ensures c in s.failures
    ensures s.failures[c] == Decides(Abandon) ==> s.history[c].events == []
    ensures s.failures[c] == Posts(PostRunning(false)) ==> s.history[c].events == [Event(EvRunning, false)]
    ensures |s.history[c].events| == 2 <==>
              && s.history[c].scoped
              && (|| s.failures[c] == Decides(Prepare(EnvironmentFailed))
                  || s.failures[c] == Decides(Pull(false)) || s.failures[c] == Decides(StartContainer(false)))
    ensures |s.history[c].events| == 2 ==> s.history[c].events[1].kind == EvFailed
  {
    ReachableCaused(cfg, s);
  }

  /** A slot's mark is terminal exactly when its teardown was silent and has written it. */
  lemma TerminalMarkExact(cfg: Config, s: State, c: nat)
    requires cfg.Valid() && Reachable(cfg, s) && c in s.objs
    ensures s.objs[c].task in s.sh.accepted
    ensures s.sh.accepted[s.objs[c].task] == Terminal <==> s.objs[c].silent && s.objs[c].run != Marking
  {
    ReachableCaused(cfg, s);
  }
}
