/** What each transaction writes, row by row, what it leaves alone, and what a token check reads. */
module SessionFrames {
  import opened Basics
  import opened SessionTables
  import opened SessionTheorems

  // ----- the queries, spelt out

  /** The session has an access row for the team, made from an id that is still observed and still maps to it. */
  ghost predicate Granted(t: Tables, h: string, team: string) {
    h in t.access && team in t.access[h] && ObservedAs(t, h, t.access[h][team].oidcTeam, team)
  }

  /**
   * A token check succeeds exactly for a recorded, unexpired token of this operator and team whose session is there,
   * unexpired, and granted the team.
   */
  lemma ValidateExact(t: Tables, operator: string, team: string, jti: string, now: int)
    requires Reachable(t)
    ensures ValidateTokenAccess(t, operator, team, jti, now) <==>
      && jti in t.tokens
      && t.tokens[jti].operator == operator && t.tokens[jti].team == team && t.tokens[jti].expiresAt > now
      && t.tokens[jti].session in t.sessions && t.sessions[t.tokens[jti].session].expiresAt > now
      && Granted(t, t.tokens[jti].session, team)
  {
    ReachableInv(t);
    if jti in t.tokens {
      var h := t.tokens[jti].session;
      assert team in t.access[h] ==> RowOk(t.mappings, t.sessions[h], t.memberships[h], team, t.access[h][team]);
    }
  }

  lemma RowExact(t: Tables, h: string, row: string, team: string)
    requires Inv(t)
    ensures RowFor(t, h, row, team) <==> row == team && Granted(t, h, team)
  {
    if h in t.access && row in t.access[h] {
      assert RowOk(t.mappings, t.sessions[h], t.memberships[h], row, t.access[h][row]);
    }
  }

  /** The token query names the session, its operator and the team exactly for a live session granted the team. */
  lemma TokenContextExact(t: Tables, h: string, team: string, now: int)
    requires Inv(t)
    ensures var c, live := TokenContext(t, h, team, now), h in t.sessions && t.sessions[h].expiresAt > now;
      && (c.NotFound? <==> !live)
      && (c.Found? <==> live && Granted(t, h, team))
      && (c.Found? ==> c.session == h && c.operator == t.sessions[h].operator && c.team == team)
  {
    RowExact(t, h, team, team);
    if row :| RowFor(t, h, row, team) { RowExact(t, h, row, team); }
  }

  // ----- what is written

  /** Each id once, none empty. */
  predicate Proper(ids: seq<string>) {
    && (forall i :: 0 <= i < |ids| ==> ids[i] != "")
    && forall i, j :: 0 <= i < j < |ids| ==> ids[i] != ids[j]
  }

  /** The rows under a session: an observation per id, and an access row per id its issuer maps, under the team. */
  ghost predicate Holds(t: Tables, h: string, ids: seq<string>, at: int) {
    && h in t.sessions && h in t.memberships && h in t.access
    && var s := t.sessions[h];
      && s.observedAt == at
      && (forall id :: id in t.memberships[h] <==> id in ids)
      && (forall id :: id in ids ==> t.memberships[h][id] == at)
      && (forall id :: id in ids && (s.issuer, id) in t.mappings ==>
            var team := t.mappings[(s.issuer, id)].team;
            team in t.access[h] && t.access[h][team] == Access(s.operator, s.issuer, id, at))
      && (forall team :: team in t.access[h] ==>
            exists id :: id in ids && (s.issuer, id) in t.mappings && t.mappings[(s.issuer, id)].team == team)
  }

  lemma DerivedHolds(t: Tables, h: string, ids: seq<string>, at: int)
    requires OneToOne(t.mappings) && h in t.sessions && h in t.memberships && h in t.access
    requires t.sessions[h].observedAt == at && t.memberships[h] == Rows(ids, at)
    requires t.access[h] == Derived(t.mappings, t.sessions[h].issuer, ids, t.sessions[h].operator, at)
    ensures Holds(t, h, ids, at)
  {
    var s, rows := t.sessions[h], t.access[h];
    forall id | id in ids && (s.issuer, id) in t.mappings
      ensures var team := t.mappings[(s.issuer, id)].team;
        team in rows && rows[team] == Access(s.operator, s.issuer, id, at)
    {
      assert rows[t.mappings[(s.issuer, id)].team] == Access(s.operator, s.issuer, id, at);
    }
    forall team | team in rows
      ensures exists id :: id in ids && (s.issuer, id) in t.mappings && t.mappings[(s.issuer, id)].team == team
    {
      var k :| k in t.mappings && k.0 == s.issuer && k.1 in ids && t.mappings[k].team == team;
      assert k == (s.issuer, k.1);
    }
  }

  lemma InsertableExact(ids: seq<string>)
    ensures Insertable(ids) <==> Proper(ids)
  {}

  /** A login commits exactly for full input, an unused hash, a future expiry and proper ids; it then holds them. */
  lemma CreateExact(t: Tables, input: SessionInput, clock: int)
    requires OneToOne(t.mappings)
    ensures Attempt(t, OpCreate(input, clock)).Some? <==>
      && "" !in [input.session, input.operator, input.issuer, input.subject, input.state]
      && input.observedAt < input.expiresAt && clock < input.expiresAt
      && input.session !in t.sessions && Proper(input.ids)
    ensures Attempt(t, OpCreate(input, clock)).Some? ==>
      var after := Attempt(t, OpCreate(input, clock)).value;
      && Holds(after, input.session, input.ids, input.observedAt)
      && var s := after.sessions[input.session];
        && s.operator == input.operator && s.issuer == input.issuer && s.subject == input.subject
        && s.state == input.state && s.expiresAt == input.expiresAt
  {
    InsertableExact(input.ids);
    if Attempt(t, OpCreate(input, clock)).Some? {
      DerivedHolds(Attempt(t, OpCreate(input, clock)).value, input.session, input.ids, input.observedAt);
    }
  }

  /** A refresh commits exactly for a known session and proper ids; it replaces state and rows, nothing else. */
  lemma ReplaceExact(t: Tables, h: string, state: string, ids: seq<string>, at: int)
    requires OneToOne(t.mappings)
    ensures Attempt(t, OpReplace(h, state, ids, at)).Some? <==> h in t.sessions && Proper(ids)
    ensures Attempt(t, OpReplace(h, state, ids, at)).Some? ==>
      var after := Attempt(t, OpReplace(h, state, ids, at)).value;
      && Holds(after, h, ids, at)
      && var s, s' := t.sessions[h], after.sessions[h];
        && s'.state == state && s'.operator == s.operator && s'.issuer == s.issuer && s'.subject == s.subject
        && s'.expiresAt == s.expiresAt
  {
    InsertableExact(ids);
    if Attempt(t, OpReplace(h, state, ids, at)).Some? {
      DerivedHolds(Attempt(t, OpReplace(h, state, ids, at)).value, h, ids, at);
    }
  }

  // ----- what is left alone

  /** The transaction writes the rows of this session. */
  predicate Writes(op: Op, h: string) {
    || (op.OpCreate? && op.input.session == h)
    || ((op.OpReplace? || op.OpDelete?) && op.session == h)
  }

  ghost predicate SameSession(t: Tables, t': Tables, h: string) {
    && (h in t.sessions <==> h in t'.sessions) && (h in t.sessions ==> t.sessions[h] == t'.sessions[h])
    && (h in t.memberships <==> h in t'.memberships)
    && (h in t.memberships ==> t.memberships[h] == t'.memberships[h])
    && (h in t.access <==> h in t'.access) && (h in t.access ==> t.access[h] == t'.access[h])
  }

  /** A session's rows change only by a login, refresh or logout of that session. */
  lemma SessionFrame(t: Tables, op: Op, h: string)
    requires OneToOne(t.mappings)
    ensures !Writes(op, h) ==> SameSession(t, Apply(t, op), h)
    ensures op == OpDelete(h) ==>
      var after := Apply(t, op);
      h !in after.sessions && (h in t.sessions ==> h !in after.access && h !in after.memberships)
  {}

  /**
   * A token is added, as given, exactly by its own record under a fresh id for a known session and a positive lifetime;
   * it goes exactly with its session's logout.
   */
  lemma TokenFrame(t: Tables, op: Op, jti: string)
    requires OneToOne(t.mappings)
    ensures var after := Apply(t, op);
      && (jti in t.tokens ==>
            && (jti in after.tokens <==> !(op == OpDelete(t.tokens[jti].session) && op.session in t.sessions))
            && (jti in after.tokens ==> after.tokens[jti] == t.tokens[jti]))
      && (jti !in t.tokens ==>
            && (jti in after.tokens <==>
                  && op.OpRecord? && op.jti == jti
                  && op.token.session in t.sessions && op.token.issuedAt < op.token.expiresAt)
            && (jti in after.tokens ==> after.tokens[jti] == op.token))
  {}

  /** A mapping, once made, keeps its team; it is added only by its registration and renamed only by its team's. */
  lemma MappingFrame(t: Tables, op: Op, issuer: string, id: string)
    requires OneToOne(t.mappings)
    ensures var after, k := Apply(t, op), (issuer, id);
      && (k in t.mappings ==>
            && k in after.mappings
            && after.mappings[k] ==
              if op.OpPresent? && op.team == t.mappings[k].team then Mapping(op.team, Some(op.name), op.archivedAt)
              else t.mappings[k])
      && (k !in t.mappings ==>
            && (k in after.mappings <==>
                  && op.OpRegister? && op.issuer == issuer && op.oidcTeam == id && "" !in [issuer, id, op.mapping.team]
                  && forall other :: other in t.mappings ==> t.mappings[other].team != op.mapping.team)
            && (k in after.mappings ==> after.mappings[k] == op.mapping))
  {}

  /** A registration reports the standing mapping of the same team; another's claim on the id or the team conflicts. */
  lemma OutcomeExact(t: Tables, issuer: string, id: string, m: Mapping)
    ensures var r, k := Outcome(t, issuer, id, m), (issuer, id);
      && (r.Invalid? <==> "" in [issuer, id, m.team])
      && (r.Conflict? <==>
            && "" !in [issuer, id, m.team]
            && exists other ::
              other in t.mappings && if k in t.mappings then k == other && t.mappings[k].team != m.team
                                     else t.mappings[other].team == m.team)
      && (r.Existing? <==> "" !in [issuer, id, m.team] && k in t.mappings && t.mappings[k].team == m.team)
      && (r.Existing? ==> r.mapping == t.mappings[k])
  {}

  // ----- over runs

  /** None of the transactions refreshes or ends this session. */
  predicate Untroubled(ops: seq<Op>, h: string) { forall i :: 0 <= i < |ops| ==> !Writes(ops[i], h) }

  lemma {:induction false} RunFrame(t: Tables, ops: seq<Op>, h: string, jti: string)
    requires OneToOne(t.mappings) && Untroubled(ops, h) && jti in t.tokens && t.tokens[jti].session == h
    ensures var after := Run(t, ops);
      SameSession(t, after, h) && jti in after.tokens && after.tokens[jti] == t.tokens[jti]
  {
    if ops != [] {
      var front, last := ops[..|ops| - 1], ops[|ops| - 1];
      RunFrame(t, front, h, jti);
      SessionFrame(Run(t, front), last, h);
      TokenFrame(Run(t, front), last, jti);
    }
  }

  /** Between refreshes and the logout of its own session, only the clock changes what a token check says. */
  lemma StandingKept(t: Tables, ops: seq<Op>, operator: string, team: string, jti: string, now: int)
    requires OneToOne(t.mappings) && jti in t.tokens && Untroubled(ops, t.tokens[jti].session)
    ensures ValidateTokenAccess(Run(t, ops), operator, team, jti, now) <==>
      ValidateTokenAccess(t, operator, team, jti, now)
  {
    RunFrame(t, ops, t.tokens[jti].session, jti);
  }
}
