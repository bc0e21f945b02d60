/** Every state the gateway's tables can reach, and what a token check means there. */
module SessionTheorems {
  import opened Basics
  import opened SessionTables
  import JsonPointer
  import TeamClaims

  datatype Op =
    | OpRegister(issuer: string, oidcTeam: string, mapping: Mapping)
    | OpPresent(team: string, name: string, archivedAt: Option<int>)
    | OpCreate(input: SessionInput, clock: int)
    | OpReplace(session: string, state: string, ids: seq<string>, observedAt: int)
    | OpDelete(session: string)
    | OpRecord(jti: string, token: Token)

  /** One transaction, committed or rolled back. */
  ghost function Attempt(t: Tables, op: Op): Option<Tables>
    requires OneToOne(t.mappings)
  {
    match op
    case OpRegister(issuer, oidcTeam, m) => Register(t, issuer, oidcTeam, m)
    case OpPresent(team, name, archivedAt) => Present(t, team, name, archivedAt)
    case OpCreate(input, clock) => Create(t, input, clock)
    case OpReplace(h, state, ids, observedAt) => Replace(t, h, state, ids, observedAt)
    case OpDelete(h) => Delete(t, h)
    case OpRecord(jti, token) => Record(t, jti, token)
  }

  ghost function Apply(t: Tables, op: Op): (after: Tables)
    requires OneToOne(t.mappings)
    ensures OneToOne(after.mappings)
  {
    AttemptOneToOne(t, op);
    if Attempt(t, op).Some? then Attempt(t, op).value else t
  }

  lemma AttemptOneToOne(t: Tables, op: Op)
    requires OneToOne(t.mappings)
    ensures Attempt(t, op).Some? ==> OneToOne(Attempt(t, op).value.mappings)
  {}

  ghost function Run(t: Tables, ops: seq<Op>): (after: Tables)
    requires OneToOne(t.mappings)
    ensures OneToOne(after.mappings)
  {
    if ops == [] then t else Apply(Run(t, ops[..|ops| - 1]), ops[|ops| - 1])
  }

  const EMPTY := Tables(map[], map[], map[], map[], map[])

  ghost predicate Reachable(t: Tables) { exists ops :: t == Run(EMPTY, ops) }

  // ----- the invariant, session by session

  /** A derived row: its mapping is the team's, of the session's issuer, and among the last observed ids. */
  ghost predicate RowOk(
      mappings: map<(string, string), Mapping>, s: Session, observed: map<string, int>, team: string, row: Access)
  {
    && (row.issuer, row.oidcTeam) in mappings && mappings[(row.issuer, row.oidcTeam)].team == team
    && row.issuer == s.issuer && row.oidcTeam in observed
    && row.operator == s.operator && row.observedAt == s.observedAt
  }

  ghost predicate SessionOk(
      mappings: map<(string, string), Mapping>, s: Session, observed: map<string, int>, rows: map<string, Access>)
  {
    && (forall id :: id in observed ==> id != "" && observed[id] == s.observedAt)
    && (forall team :: team in rows ==> RowOk(mappings, s, observed, team, rows[team]))
  }

  ghost predicate Inv(t: Tables) {
    && OneToOne(t.mappings)
    && t.memberships.Keys == t.sessions.Keys && t.access.Keys == t.sessions.Keys
    && (forall h :: h in t.sessions ==> SessionOk(t.mappings, t.sessions[h], t.memberships[h], t.access[h]))
    && (forall j :: j in t.tokens ==> t.tokens[j].session in t.sessions)
  }

  lemma DerivedOk(mappings: map<(string, string), Mapping>, s: Session, ids: seq<string>)
    requires OneToOne(mappings) && Insertable(ids)
    ensures SessionOk(mappings, s, Rows(ids, s.observedAt), Derived(mappings, s.issuer, ids, s.operator, s.observedAt))
  {
    var rows := Derived(mappings, s.issuer, ids, s.operator, s.observedAt);
    forall team | team in rows ensures RowOk(mappings, s, Rows(ids, s.observedAt), team, rows[team]) {
      var k :| k in mappings && k.0 == s.issuer && k.1 in ids && mappings[k].team == team;
      assert rows[mappings[k].team] == Access(s.operator, k.0, k.1, s.observedAt);
    }
  }

  /** Mappings are only added and renamed, so what was derived stays derived. */
  ghost predicate Grows(before: map<(string, string), Mapping>, after: map<(string, string), Mapping>) {
    forall k :: k in before ==> k in after && after[k].team == before[k].team
  }

  lemma GrowthKeeps(t: Tables, mappings: map<(string, string), Mapping>)
    requires Inv(t) && OneToOne(mappings) && Grows(t.mappings, mappings)
    ensures Inv(t.(mappings := mappings))
  {
    forall h | h in t.sessions ensures SessionOk(mappings, t.sessions[h], t.memberships[h], t.access[h]) {
      var s, observed, rows := t.sessions[h], t.memberships[h], t.access[h];
      forall team | team in rows ensures RowOk(mappings, s, observed, team, rows[team]) {
        assert RowOk(t.mappings, s, observed, team, rows[team]);
      }
    }
  }

  lemma MappingKeeps(t: Tables, op: Op)
    requires Inv(t) && (op.OpRegister? || op.OpPresent?)
    ensures Inv(Apply(t, op))
  {
    GrowthKeeps(t, Apply(t, op).mappings);
  }

  lemma SessionKeeps(t: Tables, op: Op)
    requires Inv(t) && (op.OpCreate? || op.OpReplace?)
    ensures Inv(Apply(t, op))
  {
    if Attempt(t, op).Some? {
      var h := if op.OpCreate? then op.input.session else op.session;
      var after := Apply(t, op);
      DerivedOk(t.mappings, after.sessions[h], if op.OpCreate? then op.input.ids else op.ids);
      forall g | g in after.sessions
        ensures SessionOk(after.mappings, after.sessions[g], after.memberships[g], after.access[g])
      {
        if g != h { assert SessionOk(t.mappings, t.sessions[g], t.memberships[g], t.access[g]); }
      }
    }
  }

  lemma DeleteKeeps(t: Tables, h: string)
    requires Inv(t)
    ensures Inv(Apply(t, OpDelete(h)))
  {
    if h in t.sessions {
      var after := Apply(t, OpDelete(h));
      forall g | g in after.sessions
        ensures SessionOk(after.mappings, after.sessions[g], after.memberships[g], after.access[g])
      {
        assert SessionOk(t.mappings, t.sessions[g], t.memberships[g], t.access[g]);
      }
    }
  }

  lemma StepKeeps(t: Tables, op: Op)
    requires Inv(t)
    ensures Inv(Apply(t, op))
  {
    match op
    case OpRegister(_, _, _) => MappingKeeps(t, op);
    case OpPresent(_, _, _) => MappingKeeps(t, op);
    case OpCreate(_, _) => SessionKeeps(t, op);
    case OpReplace(_, _, _, _) => SessionKeeps(t, op);
    case OpDelete(h) => DeleteKeeps(t, h);
    case OpRecord(_, _) =>
  }

  lemma {:induction false} RunKeeps(t: Tables, ops: seq<Op>)
    requires Inv(t)
    ensures Inv(Run(t, ops))
  {
    if ops != [] {
      RunKeeps(t, ops[..|ops| - 1]);
      StepKeeps(Run(t, ops[..|ops| - 1]), ops[|ops| - 1]);
    }
  }

  lemma ReachableInv(t: Tables)
    requires Reachable(t)
    ensures Inv(t)
  {
    var ops :| t == Run(EMPTY, ops);
    RunKeeps(EMPTY, ops);
  }

  // ----- what the tables guarantee

  /** An id of the session's last observation that its issuer maps to this team. */
  ghost predicate ObservedAs(t: Tables, h: string, oidcTeam: string, team: string) {
    && h in t.sessions && h in t.memberships && oidcTeam in t.memberships[h]
    && t.memberships[h][oidcTeam] == t.sessions[h].observedAt
    && (t.sessions[h].issuer, oidcTeam) in t.mappings
    && t.mappings[(t.sessions[h].issuer, oidcTeam)].team == team
  }

  /** In every reachable state a session's teams lie within the join of its last observation with the mappings. */
  lemma AccessWithinJoin(t: Tables, h: string, team: string)
    requires Reachable(t)
    requires h in t.access && team in t.access[h]
    ensures exists oidcTeam :: ObservedAs(t, h, oidcTeam, team)
  {
    ReachableInv(t);
    var row := t.access[h][team];
    assert RowOk(t.mappings, t.sessions[h], t.memberships[h], team, row);
    assert ObservedAs(t, h, row.oidcTeam, team);
  }

  /** A token check succeeds only for a live session whose latest observation still maps to the token's team. */
  lemma ValidatedMeansMember(t: Tables, operator: string, team: string, jti: string, now: int)
    requires Reachable(t)
    requires ValidateTokenAccess(t, operator, team, jti, now)
    ensures LiveSession(t, t.tokens[jti].session, now).Some?
    ensures exists oidcTeam :: ObservedAs(t, t.tokens[jti].session, oidcTeam, team)
  {
    AccessWithinJoin(t, t.tokens[jti].session, team);
  }

  /** The row a token query joins is the one filed under the team, so both queries ask the same question. */
  lemma QueriesAgree(t: Tables, h: string, team: string, row: string)
    requires Reachable(t)
    ensures RowFor(t, h, row, team) <==> row == team && h in t.access && team in t.access[h]
  {
    ReachableInv(t);
    if h in t.access && row in t.access[h] {
      assert RowOk(t.mappings, t.sessions[h], t.memberships[h], row, t.access[h][row]);
    }
  }

  lemma RefreshedTeams(t: Tables, h: string, state: string, ids: seq<string>, observedAt: int, team: string)
    requires Inv(t) && h in t.sessions && Insertable(ids)
    ensures var after := Apply(t, OpReplace(h, state, ids, observedAt));
      h in after.access && (team in after.access[h] <==> exists id :: id in ids && ObservedAs(after, h, id, team))
  {
    var after, op := Apply(t, OpReplace(h, state, ids, observedAt)), OpReplace(h, state, ids, observedAt);
    StepKeeps(t, op);
    assert team in after.access[h] ==>
      RowOk(after.mappings, after.sessions[h], after.memberships[h], team, after.access[h][team]);
    assert team in after.access[h] ==> ObservedAs(after, h, after.access[h][team].oidcTeam, team);
  }

  /** A refresh decides: a session's token then validates exactly when a newly observed id maps to its team. */
  lemma RefreshDecides(
      t: Tables, h: string, state: string, ids: seq<string>, observedAt: int, jti: string, now: int)
    requires Reachable(t) && h in t.sessions && Insertable(ids)
    requires jti in t.tokens && t.tokens[jti].session == h
    requires t.tokens[jti].expiresAt > now && t.sessions[h].expiresAt > now
    ensures OneToOne(t.mappings)
    ensures var after, token := Apply(t, OpReplace(h, state, ids, observedAt)), t.tokens[jti];
      ValidateTokenAccess(after, token.operator, token.team, jti, now) <==>
        exists id :: id in ids && ObservedAs(after, h, id, token.team)
  {
    ReachableInv(t);
    RefreshedTeams(t, h, state, ids, observedAt, t.tokens[jti].team);
    var after := Apply(t, OpReplace(h, state, ids, observedAt));
    assert after.tokens == t.tokens && LiveSession(after, h, now).Some?;
  }

  /** Deleting a session ends every token it issued. */
  lemma LogoutRevokes(t: Tables, h: string, operator: string, team: string, jti: string, now: int)
    requires Reachable(t) && jti in t.tokens && t.tokens[jti].session == h
    ensures !ValidateTokenAccess(Apply(t, OpDelete(h)), operator, team, jti, now)
  {
    ReachableInv(t);
  }

  /** What Normalize returns never trips the membership constraints: Create then fails only on the session itself. */
  lemma NormalizedCreates(
      t: Tables, a: TeamClaims.Adapter, claims: map<string, JsonPointer.Value>, input: SessionInput, clock: int)
    requires Reachable(t) && TeamClaims.Normalizable(a, claims)
    requires input.ids == TeamClaims.Normalized(a, claims)
    ensures OneToOne(t.mappings)
    ensures Attempt(t, OpCreate(input, clock)).Some? <==>
      ValidInput(input) && input.session !in t.sessions && input.expiresAt > clock
  {
    ReachableInv(t);
    TeamClaims.NormalizedDistinct(a, claims);
  }

  /** A second registration of the same pair returns the first; of another team, or for a taken team, it conflicts. */
  lemma RegisterIdempotent(t: Tables, issuer: string, oidcTeam: string, m: Mapping, again: Mapping)
    requires OneToOne(t.mappings) && Outcome(t, issuer, oidcTeam, m).Created?
    ensures var after := Apply(t, OpRegister(issuer, oidcTeam, m));
      && Outcome(after, issuer, oidcTeam, m) == Existing(m)
      && Apply(after, OpRegister(issuer, oidcTeam, again)) == after
      && (forall i: string, o: string :: i != "" && o != "" && (i, o) != (issuer, oidcTeam) ==>
          Outcome(after, i, o, m) == Conflict)
  {
    var after := Apply(t, OpRegister(issuer, oidcTeam, m));
    assert after.mappings[(issuer, oidcTeam)] == m;
    forall i: string, o: string | i != "" && o != "" && (i, o) != (issuer, oidcTeam)
      ensures Outcome(after, i, o, m) == Conflict
    {
      assert TeamTaken(after.mappings, m.team);
      assert (i, o) in t.mappings ==> t.mappings[(i, o)].team != m.team;
    }
  }
}
