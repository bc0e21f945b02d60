/** Issuing a working token while other requests commit between the handler's store calls. */
module TokenIssue {
  import opened Basics
  import opened SessionTables
  import opened SessionTheorems
  import SessionFrames
  import SessionStore

  /** `maxAge <= 0` refreshes every time. */
  datatype Config = Config(refreshConfigured: bool, maxAge: int)

  /** What the provider and the crypto answered to a refresh: new ids and sealed state, or a failure. */
  datatype Refresh = Refreshed(ids: seq<string>, state: string) | RefreshFailed

  /** The optional display refresh: the Registry's canonical team, or its failure. */
  datatype Presentation = NotConfigured | Unavailable | Canonical(team: string, name: string, archivedAt: Option<int>)

  /** One request: its clock readings, the outside answers, the signed token's id and times. */
  datatype Request = Request(
    session: string, team: string, checkedAt: int, refresh: Refresh, readAt: int,
    presentation: Presentation, jti: string, issuedAt: int, expiresAt: int)

  /** What other requests commit before each of the handler's writes and before its context read. */
  datatype Others = Others(
    beforeReplace: seq<Op>, beforeRead: seq<Op>, beforePresent: seq<Op>, beforeRecord: seq<Op>)

  /** The tables so far, and whether the request goes on. */
  datatype Step = Go(tables: Tables) | Stop(tables: Tables)

  predicate Fresh(cfg: Config, now: int, observedAt: int) { cfg.maxAge > 0 && now - observedAt <= cfg.maxAge }

  /** One of the handler's own transactions. */
  ghost function Commit(t: Tables, op: Op): (r: Step)
    requires OneToOne(t.mappings)
    ensures OneToOne(r.tables.mappings)
  {
    if Attempt(t, op).Some? then Go(Apply(t, op)) else Stop(t)
  }

  /** The check, and the replacement if it is due. */
  ghost function AfterCheck(cfg: Config, t: Tables, req: Request, others: Others): (r: Step)
    requires OneToOne(t.mappings)
    ensures OneToOne(r.tables.mappings)
  {
    if !cfg.refreshConfigured then Go(t)
    else if LiveSession(t, req.session, req.checkedAt).None? then Stop(t)
    else if Fresh(cfg, req.checkedAt, t.sessions[req.session].observedAt) then Go(t)
    else if req.refresh.RefreshFailed? then Stop(t)
    else
      Commit(Run(t, others.beforeReplace),
        OpReplace(req.session, req.refresh.state, req.refresh.ids, req.checkedAt))
  }

  /** The tables the context read sees, once the check has let the request pass. */
  ghost function AtRead(cfg: Config, t: Tables, req: Request, others: Others): (seen: Tables)
    requires OneToOne(t.mappings)
    ensures OneToOne(seen.mappings)
  {
    Run(AfterCheck(cfg, t, req, others).tables, others.beforeRead)
  }

  ghost function AfterPresent(seen: Tables, req: Request, others: Others): (r: Step)
    requires OneToOne(seen.mappings)
    ensures OneToOne(r.tables.mappings)
  {
    match req.presentation
    case NotConfigured => Go(seen)
    case Unavailable => Stop(seen)
    case Canonical(team, name, archivedAt) =>
      Commit(Run(seen, others.beforePresent), OpPresent(team, name, archivedAt))
  }

  function TokenOf(req: Request, operator: string, team: string): Token {
    Token(req.session, operator, team, req.issuedAt, req.expiresAt)
  }

  /** From the context read to the recorded token. */
  ghost function AfterRead(seen: Tables, req: Request, others: Others): Step
    requires OneToOne(seen.mappings)
  {
    match TokenContext(seen, req.session, req.team, req.readAt)
    case NotAccessible => Stop(seen)
    case NotFound => Stop(seen)
    case Found(_, operator, team) =>
      var presented := AfterPresent(seen, req, others);
      if presented.Stop? then presented
      else Commit(Run(presented.tables, others.beforeRecord), OpRecord(req.jti, TokenOf(req, operator, team)))
  }

  /** A request from the tables it starts on to the tables it leaves; `Go` when it issued a token. */
  ghost function Issue(cfg: Config, t: Tables, req: Request, others: Others): Step
    requires OneToOne(t.mappings)
  {
    if AfterCheck(cfg, t, req, others).Stop? then AfterCheck(cfg, t, req, others)
    else AfterRead(AtRead(cfg, t, req, others), req, others)
  }

  // ----- which observation a run leaves behind

  /** The observation time that `op` gives session `h`, if it succeeds in giving one. */
  ghost function Gives(t: Tables, op: Op, h: string): Option<int>
    requires OneToOne(t.mappings)
  {
    if Attempt(t, op).None? then None
    else if op.OpCreate? && op.input.session == h then Some(op.input.observedAt)
    else if op.OpReplace? && op.session == h then Some(op.observedAt)
    else None
  }

  /** The last observation time other requests gave `h`, or `start` when they gave none. */
  ghost function LastGiven(t: Tables, ops: seq<Op>, h: string, start: int): int
    requires OneToOne(t.mappings)
  {
    if ops == [] then start
    else
      var front := ops[..|ops| - 1];
      var given := Gives(Run(t, front), ops[|ops| - 1], h);
      if given.Some? then given.value else LastGiven(t, front, h, start)
  }

  lemma ObservationStep(t: Tables, op: Op, h: string)
    requires Inv(t) && h in Apply(t, op).sessions
    ensures Apply(t, op).sessions[h].observedAt ==
      if Gives(t, op, h).Some? then Gives(t, op, h).value else (if h in t.sessions then t.sessions[h].observedAt else 0)
    ensures Gives(t, op, h).None? ==> h in t.sessions
  {}

  lemma {:induction false} ObservationOf(t: Tables, ops: seq<Op>, h: string)
    requires Inv(t) && h in t.sessions && h in Run(t, ops).sessions
    ensures Run(t, ops).sessions[h].observedAt == LastGiven(t, ops, h, t.sessions[h].observedAt)
  {
    if ops != [] {
      var front, op := ops[..|ops| - 1], ops[|ops| - 1];
      var before := Run(t, front);
      RunKeeps(t, front);
      ObservationStep(before, op, h);
      if Gives(before, op, h).None? { ObservationOf(t, front, h); }
    }
  }

  /** The observation the check left: its own when it refreshed, otherwise the one it found fresh. */
  ghost function Checked(cfg: Config, t: Tables, req: Request): int
    requires req.session in t.sessions
  {
    var found := t.sessions[req.session].observedAt;
    if Fresh(cfg, req.checkedAt, found) then found else req.checkedAt
  }

  lemma CheckKeeps(cfg: Config, t: Tables, req: Request, others: Others)
    requires Inv(t) && cfg.refreshConfigured && AfterCheck(cfg, t, req, others).Go?
    ensures var checked := AfterCheck(cfg, t, req, others).tables;
      && Inv(checked) && req.session in t.sessions && req.session in checked.sessions
      && checked.sessions[req.session].observedAt == Checked(cfg, t, req)
  {
    if !Fresh(cfg, req.checkedAt, t.sessions[req.session].observedAt) {
      RunKeeps(t, others.beforeReplace);
      StepKeeps(Run(t, others.beforeReplace),
                OpReplace(req.session, req.refresh.state, req.refresh.ids, req.checkedAt));
    }
  }

  /**
   * Every recorded token's team was read from an access row of a live session, and that row's observation is the last
   * one other requests gave the session since the check, or else the one the check found fresh or took itself.
   */
  lemma IssuedFrom(cfg: Config, t: Tables, req: Request, others: Others)
    requires Reachable(t) && cfg.refreshConfigured && Issue(cfg, t, req, others).Go?
    ensures OneToOne(t.mappings)
    ensures var checked, seen := AfterCheck(cfg, t, req, others).tables, AtRead(cfg, t, req, others);
      var h := req.session;
      && LiveSession(seen, h, req.readAt).Some?
      && h in t.sessions && h in seen.access && req.team in seen.access[h]
      && (exists oidcTeam :: ObservedAs(seen, h, oidcTeam, req.team))
      && seen.access[h][req.team].observedAt == LastGiven(checked, others.beforeRead, h, Checked(cfg, t, req))
  {
    ReachableInv(t);
    CheckKeeps(cfg, t, req, others);
    var checked, h := AfterCheck(cfg, t, req, others).tables, req.session;
    RunKeeps(checked, others.beforeRead);
    var seen := Run(checked, others.beforeRead);
    var row :| RowFor(seen, h, row, req.team);
    assert RowOk(seen.mappings, seen.sessions[h], seen.memberships[h], row, seen.access[h][row]);
    assert ObservedAs(seen, h, seen.access[h][row].oidcTeam, req.team);
    ObservationOf(checked, others.beforeRead, h);
  }

  /** Other requests gave `h` an observation. */
  ghost predicate GivenAny(t: Tables, ops: seq<Op>, h: string)
    requires OneToOne(t.mappings)
  {
    ops != [] && (Gives(Run(t, ops[..|ops| - 1]), ops[|ops| - 1], h).Some? || GivenAny(t, ops[..|ops| - 1], h))
  }

  lemma {:induction false} GivenOrStart(t: Tables, ops: seq<Op>, h: string, a: int, b: int)
    requires OneToOne(t.mappings)
    ensures GivenAny(t, ops, h) ==> LastGiven(t, ops, h, a) == LastGiven(t, ops, h, b)
    ensures !GivenAny(t, ops, h) ==> LastGiven(t, ops, h, a) == a
  {
    if ops != [] { GivenOrStart(t, ops[..|ops| - 1], h, a, b); }
  }

  /** The request refreshed the membership itself and nobody has replaced it since. */
  ghost predicate TakenHere(cfg: Config, t: Tables, req: Request, others: Others)
    requires OneToOne(t.mappings) && req.session in t.sessions
  {
    && !Fresh(cfg, req.checkedAt, t.sessions[req.session].observedAt)
    && !GivenAny(AfterCheck(cfg, t, req, others).tables, others.beforeRead, req.session)
  }

  /**
   * The row is within the allowed age at the check, or was taken by this very request, exactly when the last
   * observation other requests gave the session in between, if they gave one, is within that age.
   */
  lemma FreshExactly(cfg: Config, t: Tables, req: Request, others: Others)
    requires Reachable(t) && cfg.refreshConfigured && Issue(cfg, t, req, others).Go?
    ensures OneToOne(t.mappings)
    ensures var checked, seen := AfterCheck(cfg, t, req, others).tables, AtRead(cfg, t, req, others);
      var h := req.session;
      && h in t.sessions && h in seen.access && req.team in seen.access[h]
      && (req.checkedAt - seen.access[h][req.team].observedAt <= cfg.maxAge || TakenHere(cfg, t, req, others) <==>
          (GivenAny(checked, others.beforeRead, h) ==>
           req.checkedAt - LastGiven(checked, others.beforeRead, h, req.checkedAt) <= cfg.maxAge))
  {
    IssuedFrom(cfg, t, req, others);
    var checked := AfterCheck(cfg, t, req, others).tables;
    GivenOrStart(checked, others.beforeRead, req.session, Checked(cfg, t, req), req.checkedAt);
  }

  // ----- when a token is issued, and which

  /** The check passes exactly when none is configured, or the live session is fresh or its refresh goes through. */
  lemma CheckExact(cfg: Config, t: Tables, req: Request, others: Others)
    requires OneToOne(t.mappings)
    ensures AfterCheck(cfg, t, req, others).Go? <==>
      cfg.refreshConfigured ==>
        && req.session in t.sessions && t.sessions[req.session].expiresAt > req.checkedAt
        && ((cfg.maxAge > 0 && t.sessions[req.session].observedAt >= req.checkedAt - cfg.maxAge) ||
            (req.refresh.Refreshed? && req.session in Run(t, others.beforeReplace).sessions
             && SessionFrames.Proper(req.refresh.ids)))
  {
    if req.refresh.Refreshed? {
      SessionFrames.ReplaceExact(
        Run(t, others.beforeReplace), req.session, req.refresh.state, req.refresh.ids, req.checkedAt);
    }
  }

  /** The tables the handler's last write meets. */
  ghost function AtRecord(seen: Tables, req: Request, others: Others): (before: Tables)
    requires OneToOne(seen.mappings)
    ensures OneToOne(before.mappings)
  {
    Run(AfterPresent(seen, req, others).tables, others.beforeRecord)
  }

  /** No display refresh is configured, or the Registry answered and its team is mapped. */
  ghost predicate Presentable(seen: Tables, req: Request, others: Others)
    requires OneToOne(seen.mappings)
  {
    match req.presentation
    case NotConfigured => true
    case Unavailable => false
    case Canonical(team, _, _) =>
      var at := Run(seen, others.beforePresent).mappings; exists k :: k in at && at[k].team == team
  }

  /** The token a request records. */
  predicate Records(token: Token, req: Request, operator: string) {
    && token.session == req.session && token.operator == operator && token.team == req.team
    && token.issuedAt == req.issuedAt && token.expiresAt == req.expiresAt
  }

  lemma ReadExact(seen: Tables, req: Request, others: Others)
    requires Inv(seen)
    ensures AfterRead(seen, req, others).Go? <==>
      && req.session in seen.sessions && seen.sessions[req.session].expiresAt > req.readAt
      && SessionFrames.Granted(seen, req.session, req.team)
      && Presentable(seen, req, others)
      && req.jti !in AtRecord(seen, req, others).tokens
      && req.session in AtRecord(seen, req, others).sessions && req.issuedAt < req.expiresAt
    ensures AfterRead(seen, req, others).Go? ==>
      var before, after := AtRecord(seen, req, others), AfterRead(seen, req, others).tables;
      && req.jti in after.tokens && Records(after.tokens[req.jti], req, seen.sessions[req.session].operator)
      && after == before.(tokens := before.tokens[req.jti := after.tokens[req.jti]])
  {
    SessionFrames.TokenContextExact(seen, req.session, req.team, req.readAt);
  }

  /**
   * A request issues a token exactly when its check passes, its session is then live and granted the team, the display
   * refresh goes through, and the session and the token id are still good at the record. It adds that one token: the
   * session's operator, the team asked for, and the signed times.
   */
  lemma IssueExact(cfg: Config, t: Tables, req: Request, others: Others)
    requires Reachable(t)
    ensures OneToOne(t.mappings)
    ensures var seen := AtRead(cfg, t, req, others);
      Issue(cfg, t, req, others).Go? <==>
        && AfterCheck(cfg, t, req, others).Go?
        && req.session in seen.sessions && seen.sessions[req.session].expiresAt > req.readAt
        && SessionFrames.Granted(seen, req.session, req.team)
        && Presentable(seen, req, others)
        && req.jti !in AtRecord(seen, req, others).tokens
        && req.session in AtRecord(seen, req, others).sessions && req.issuedAt < req.expiresAt
    ensures Issue(cfg, t, req, others).Go? ==>
      var seen, after := AtRead(cfg, t, req, others), Issue(cfg, t, req, others).tables;
      var before := AtRecord(seen, req, others);
      && req.jti in after.tokens && Records(after.tokens[req.jti], req, seen.sessions[req.session].operator)
      && after == before.(tokens := before.tokens[req.jti := after.tokens[req.jti]])
  {
    ReachableInv(t);
    if AfterCheck(cfg, t, req, others).Go? {
      CheckInv(cfg, t, req, others);
      RunKeeps(AfterCheck(cfg, t, req, others).tables, others.beforeRead);
      ReadExact(AtRead(cfg, t, req, others), req, others);
    }
  }

  lemma CheckInv(cfg: Config, t: Tables, req: Request, others: Others)
    requires Inv(t) && AfterCheck(cfg, t, req, others).Go?
    ensures Inv(AfterCheck(cfg, t, req, others).tables)
  {
    if cfg.refreshConfigured { CheckKeeps(cfg, t, req, others); }
  }

  // ----- the handler

  /** Other requests' transactions, one after the other. */
  method Perform(store: SessionStore.Store, ops: seq<Op>)
    requires store.Valid()
    modifies store
    ensures store.Valid() && store.View() == Run(old(store.View()), ops)
  {
    ghost var start := store.View();
    var i := 0;
    while i < |ops|
      invariant 0 <= i <= |ops|
      invariant store.Valid() && store.View() == Run(start, ops[..i])
    {
      assert ops[..i + 1][..i] == ops[..i];
      PerformOne(store, ops[i]);
      i := i + 1;
    }
    assert ops[..i] == ops;
  }

  method PerformOne(store: SessionStore.Store, op: Op)
    requires store.Valid()
    modifies store
    ensures store.Valid() && store.View() == Apply(old(store.View()), op)
  {
    var ok: bool;
    match op {
      case OpRegister(issuer, oidcTeam, m) => var r := store.Register(issuer, oidcTeam, m);
      case OpPresent(team, name, archivedAt) => ok := store.RefreshPresentation(team, name, archivedAt);
      case OpCreate(input, clock) => ok := store.Create(input, clock);
      case OpReplace(h, state, ids, observedAt) => ok := store.ReplaceMembership(h, state, ids, observedAt);
      case OpDelete(h) => ok := store.Delete(h);
      case OpRecord(jti, token) => ok := store.RecordToken(jti, token);
    }
  }

  /** Reports whether the request may go on. */
  method RefreshMembership(cfg: Config, store: SessionStore.Store, req: Request, others: Others) returns (ok: bool)
    requires store.Valid()
    modifies store
    ensures store.Valid()
    ensures var after := old(AfterCheck(cfg, store.View(), req, others));
      ok == after.Go? && store.View() == after.tables
  {
    if !cfg.refreshConfigured { return true; }
    var state := store.MembershipState(req.session, req.checkedAt);
    if state.None? { return false; }
    if Fresh(cfg, req.checkedAt, state.value.observedAt) { return true; }
    if req.refresh.RefreshFailed? { return false; }
    Perform(store, others.beforeReplace);
    ok := store.ReplaceMembership(req.session, req.refresh.state, req.refresh.ids, req.checkedAt);
  }

  method RefreshPresentation(store: SessionStore.Store, req: Request, others: Others) returns (ok: bool)
    requires store.Valid()
    modifies store
    ensures store.Valid()
    ensures var after := old(AfterPresent(store.View(), req, others));
      ok == after.Go? && store.View() == after.tables
  {
    match req.presentation
    case NotConfigured => ok := true;
    case Unavailable => ok := false;
    case Canonical(team, name, archivedAt) =>
      Perform(store, others.beforePresent);
      ok := store.RefreshPresentation(team, name, archivedAt);
  }

  method ReadAndRecord(store: SessionStore.Store, req: Request, others: Others) returns (ok: bool)
    requires store.Valid()
    modifies store
    ensures store.Valid()
    ensures var after := old(AfterRead(store.View(), req, others));
      ok == after.Go? && store.View() == after.tables
  {
    var context := store.TokenContext(req.session, req.team, req.readAt);
    if !context.Found? { return false; }
    var presented := RefreshPresentation(store, req, others);
    if !presented { return false; }
    Perform(store, others.beforeRecord);
    ok := store.RecordToken(req.jti, TokenOf(req, context.operator, context.team));
  }

  method IssueToken(cfg: Config, store: SessionStore.Store, req: Request, others: Others) returns (ok: bool)
    requires store.Valid()
    modifies store
    ensures store.Valid()
    ensures var after := old(Issue(cfg, store.View(), req, others));
      ok == after.Go? && store.View() == after.tables
  {
    var checked := RefreshMembership(cfg, store, req, others);
    if !checked { return false; }
    Perform(store, others.beforeRead);
    ok := ReadAndRecord(store, req, others);
  }

  // ----- a run that breaks the age bound

  const CFG := Config(true, 10)

  /** A mapped team and a session created at time 0. */
  const SETUP := [
    OpRegister("iss", "ext", Mapping("team", None, None)),
    OpCreate(SessionInput("h", "op", "iss", "sub", "st", ["ext"], 0, 100), 0)]

  /** A request that checks at time `at`, finds the session stale and refreshes it. */
  function Refreshing(at: int, jti: string): Request {
    Request("h", "team", at, Refreshed(["ext"], "st"), at + 5, NotConfigured, jti, at + 5, at + 50)
  }

  function ReplaceOf(req: Request): Op
    requires req.refresh.Refreshed?
  {
    OpReplace(req.session, req.refresh.state, req.refresh.ids, req.checkedAt)
  }

  /** The earlier request's slow replacement lands between the later one's own and its read. */
  const SLOW := Others([], [ReplaceOf(Refreshing(20, "slow"))], [], [])

  lemma Prepared() returns (t: Tables)
    ensures Reachable(t) && OneToOne(t.mappings)
    ensures t.mappings == map[("iss", "ext") := Mapping("team", None, None)]
    ensures t.sessions == map["h" := Session("op", "iss", "sub", "st", 0, 100)] && t.tokens == map[]
  {
    var first := Apply(EMPTY, SETUP[0]);
    assert Run(EMPTY, []) == EMPTY;
    assert SETUP[..1][..0] == [] && SETUP[..2][..1] == SETUP[..1] && SETUP[..2] == SETUP;
    assert Run(EMPTY, SETUP[..1]) == first;
    assert first.mappings == map[("iss", "ext") := Mapping("team", None, None)];
    t := Apply(first, SETUP[1]);
    assert Run(EMPTY, SETUP) == t;
  }

  lemma ReplaceOnce(t: Tables, at: int) returns (after: Tables)
    requires OneToOne(t.mappings) && t.mappings == map[("iss", "ext") := Mapping("team", None, None)]
    requires "h" in t.sessions && t.sessions["h"].issuer == "iss"
    ensures after == Apply(t, ReplaceOf(Refreshing(at, ""))) && Attempt(t, ReplaceOf(Refreshing(at, ""))).Some?
    ensures after.mappings == t.mappings && after.tokens == t.tokens
    ensures after.sessions == t.sessions["h" := t.sessions["h"].(state := "st", observedAt := at)]
    ensures "h" in after.access && "team" in after.access["h"] && after.access["h"]["team"].observedAt == at
    ensures RowFor(after, "h", "team", "team")
  {
    after := Apply(t, ReplaceOf(Refreshing(at, "")));
    var k := ("iss", "ext");
    assert k in t.mappings && t.mappings[k].team == "team";
    var rows := Derived(t.mappings, "iss", ["ext"], t.sessions["h"].operator, at);
    assert rows[t.mappings[k].team] == Access(t.sessions["h"].operator, "iss", "ext", at);
    assert after.access["h"] == rows;
  }

  lemma SlowSeen(t: Tables) returns (seen: Tables)
    requires OneToOne(t.mappings) && t.mappings == map[("iss", "ext") := Mapping("team", None, None)]
    requires t.sessions == map["h" := Session("op", "iss", "sub", "st", 0, 100)] && t.tokens == map[]
    ensures AfterCheck(CFG, t, Refreshing(40, "fast"), SLOW).Go? && seen == AtRead(CFG, t, Refreshing(40, "fast"), SLOW)
    ensures OneToOne(seen.mappings) && seen.tokens == map[]
    ensures seen.sessions == map["h" := Session("op", "iss", "sub", "st", 20, 100)]
    ensures RowFor(seen, "h", "team", "team") && seen.access["h"]["team"].observedAt == 20
  {
    var mid := ReplaceOnce(t, 40);
    assert Run(t, []) == t;
    seen := ReplaceOnce(mid, 20);
    assert SLOW.beforeRead[..0] == [] && Run(mid, []) == mid;
  }

  lemma ReadsAndRecords(seen: Tables)
    requires OneToOne(seen.mappings) && seen.tokens == map[]
    requires seen.sessions == map["h" := Session("op", "iss", "sub", "st", 20, 100)]
    requires RowFor(seen, "h", "team", "team")
    ensures AfterRead(seen, Refreshing(40, "fast"), SLOW).Go?
  {
    assert Run(seen, []) == seen;
  }

  /**
   * A token can be issued from an observation that was already too old at the request's own check: an earlier request,
   * slow at the provider, overwrites the newer observation with its own.
   */
  lemma SlowRefreshOverwrites() returns (t: Tables)
    ensures Reachable(t) && OneToOne(t.mappings)
    ensures var req, slow := Refreshing(40, "fast"), Refreshing(20, "slow");
      && slow.checkedAt < req.checkedAt && AfterCheck(CFG, t, slow, Others([], [], [], [])).Go?
      && Issue(CFG, t, req, SLOW).Go?
      && var seen := AtRead(CFG, t, req, SLOW);
        && "h" in seen.access && "team" in seen.access["h"]
        && req.checkedAt - seen.access["h"]["team"].observedAt > CFG.maxAge
  {
    t := Prepared();
    var alone := ReplaceOnce(t, 20);
    assert Run(t, []) == t;
    var seen := SlowSeen(t);
    ReadsAndRecords(seen);
  }
}
