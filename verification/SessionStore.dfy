/** The session and mapping stores: transactions that work on copies of the rows and commit or leave all unchanged. */
module SessionStore {
  import opened Basics
  import opened SessionTables

  predicate Selects(k: (string, string), issuer: string, ids: seq<string>) { k.0 == issuer && k.1 in ids }

  /** `rows` is the join restricted to the mappings in `done`. */
  ghost predicate JoinedSoFar(
      rows: map<string, Access>, done: set<(string, string)>, mappings: map<(string, string), Mapping>,
      issuer: string, ids: seq<string>, operator: string, observedAt: int)
    requires done <= mappings.Keys
  {
    && (forall k :: k in done && Selects(k, issuer, ids) ==>
        mappings[k].team in rows && rows[mappings[k].team] == Access(operator, k.0, k.1, observedAt))
    && (forall team :: team in rows ==>
        exists k :: k in done && Selects(k, issuer, ids) && mappings[k].team == team)
  }

  lemma JoinedAll(
      rows: map<string, Access>, mappings: map<(string, string), Mapping>,
      issuer: string, ids: seq<string>, operator: string, observedAt: int)
    requires OneToOne(mappings)
    requires JoinedSoFar(rows, mappings.Keys, mappings, issuer, ids, operator, observedAt)
    ensures rows == Derived(mappings, issuer, ids, operator, observedAt)
  {
    var derived := Derived(mappings, issuer, ids, operator, observedAt);
    forall team ensures team in rows <==> team in derived {
      if team in rows {
        var k :| k in mappings && Selects(k, issuer, ids) && mappings[k].team == team;
        assert mappings[k].team in derived;
      }
      if team in derived {
        var k :| k in mappings && k.0 == issuer && k.1 in ids && mappings[k].team == team;
        assert Selects(k, issuer, ids);
      }
    }
    forall team | team in rows ensures rows[team] == derived[team] {
      var k :| k in mappings && Selects(k, issuer, ids) && mappings[k].team == team;
      assert derived[mappings[k].team] == Access(operator, k.0, k.1, observedAt);
    }
  }

  method InsertMemberships(ids: seq<string>, observedAt: int) returns (r: Option<map<string, int>>)
    ensures r == if Insertable(ids) then Some(Rows(ids, observedAt)) else None
  {
    var rows: map<string, int> := map[];
    var i := 0;
    while i < |ids|
      invariant 0 <= i <= |ids|
      invariant Insertable(ids[..i]) && rows == Rows(ids[..i], observedAt)
    {
      if ids[i] == "" { return None; }
      if ids[i] in rows {
        var j :| 0 <= j < i && ids[j] == ids[i];
        return None;
      }
      assert ids[..i + 1] == ids[..i] + [ids[i]];
      rows, i := rows[ids[i] := observedAt], i + 1;
    }
    assert ids[..i] == ids;
    r := Some(rows);
  }

  class Store {
    var mappings: map<(string, string), Mapping>
    var sessions: map<string, Session>
    var memberships: map<string, map<string, int>>
    var access: map<string, map<string, Access>>
    var tokens: map<string, Token>

    /** What the schema enforces: unique mappings, and membership and access rows only under an existing session. */
    ghost predicate Valid()
      reads this
    {
      OneToOne(mappings) && memberships.Keys == sessions.Keys && access.Keys == sessions.Keys
    }

    ghost function View(): Tables
      reads this
    {
      Tables(mappings, sessions, memberships, access, tokens)
    }

    constructor ()
      ensures Valid() && View() == Tables(map[], map[], map[], map[], map[])
    {
      mappings, sessions, memberships, access, tokens := map[], map[], map[], map[], map[];
    }

    /** The insert-select; the team constraint on mappings is what keeps its own key from ever clashing. */
    method DeriveAccess(issuer: string, ids: seq<string>, operator: string, observedAt: int)
        returns (rows: map<string, Access>, clash: bool)
      requires Valid()
      ensures !clash && rows == Derived(mappings, issuer, ids, operator, observedAt)
    {
      rows, clash := map[], false;
      var todo := mappings.Keys;
      while todo != {}
        invariant todo <= mappings.Keys && !clash
        invariant JoinedSoFar(rows, mappings.Keys - todo, mappings, issuer, ids, operator, observedAt)
        decreases |todo|
      {
        var k :| k in todo;
        if Selects(k, issuer, ids) {
          clash := clash || mappings[k].team in rows;
          rows := rows[mappings[k].team := Access(operator, k.0, k.1, observedAt)];
        }
        todo := todo - {k};
      }
      assert mappings.Keys - todo == mappings.Keys;
      JoinedAll(rows, mappings, issuer, ids, operator, observedAt);
    }

    method Create(input: SessionInput, clock: int) returns (ok: bool)
      requires Valid()
      modifies this
      ensures Valid()
      ensures var after := old(SessionTables.Create(View(), input, clock));
        ok == after.Some? && View() == if ok then after.value else old(View())
    {
      if !ValidInput(input) || input.session in sessions || input.expiresAt <= clock { return false; }
      var h := input.session;
      var rows := InsertMemberships(input.ids, input.observedAt);
      if rows.None? { return false; }
      var derived, clash := DeriveAccess(input.issuer, input.ids, input.operator, input.observedAt);
      if clash { return false; }
      sessions := sessions[h := Session(
        input.operator, input.issuer, input.subject, input.state, input.observedAt, input.expiresAt)];
      memberships, access := memberships[h := rows.value], access[h := derived];
      ok := true;
    }

    method ReplaceMembership(h: string, state: string, ids: seq<string>, observedAt: int) returns (ok: bool)
      requires Valid()
      modifies this
      ensures Valid()
      ensures var after := old(SessionTables.Replace(View(), h, state, ids, observedAt));
        ok == after.Some? && View() == if ok then after.value else old(View())
    {
      if h !in sessions { return false; }
      var s := sessions[h];
      var rows := InsertMemberships(ids, observedAt);
      if rows.None? { return false; }
      var derived, clash := DeriveAccess(s.issuer, ids, s.operator, observedAt);
      if clash { return false; }
      sessions := sessions[h := s.(state := state, observedAt := observedAt)];
      memberships, access := memberships[h := rows.value], access[h := derived];
      ok := true;
    }

    method Delete(h: string) returns (ok: bool)
      requires Valid()
      modifies this
      ensures Valid()
      ensures var after := SessionTables.Delete(old(View()), h);
        ok == after.Some? && View() == if ok then after.value else old(View())
    {
      if h !in sessions { return false; }
      sessions, memberships, access := sessions - {h}, memberships - {h}, access - {h};
      tokens := map j | j in tokens && tokens[j].session != h :: tokens[j];
      ok := true;
    }

    method RecordToken(jti: string, token: Token) returns (ok: bool)
      requires Valid()
      modifies this
      ensures Valid()
      ensures var after := Record(old(View()), jti, token);
        ok == after.Some? && View() == if ok then after.value else old(View())
    {
      if jti in tokens || token.session !in sessions || token.expiresAt <= token.issuedAt { return false; }
      tokens := tokens[jti := token];
      ok := true;
    }

    method MembershipState(h: string, now: int) returns (s: Option<Session>)
      ensures s == LiveSession(View(), h, now)
    {
      s := if h in sessions && sessions[h].expiresAt > now then Some(sessions[h]) else None;
    }

    /** The row joined to a mapping of this team, or why there is none. */
    method TokenContext(h: string, team: string, now: int) returns (c: Context)
      requires Valid()
      ensures c == SessionTables.TokenContext(View(), h, team, now)
    {
      if h !in sessions || sessions[h].expiresAt <= now { return NotFound; }
      var rows := access[h];
      var todo := rows.Keys;
      while todo != {}
        invariant todo <= rows.Keys
        invariant forall row :: row in rows.Keys - todo ==> !RowFor(View(), h, row, team)
        decreases |todo|
      {
        var row :| row in todo;
        var key := (rows[row].issuer, rows[row].oidcTeam);
        if key in mappings && mappings[key].team == team {
          assert RowFor(View(), h, row, team);
          return Found(h, sessions[h].operator, team);
        }
        todo := todo - {row};
      }
      c := NotAccessible;
    }

    /** One existence query over tokens, sessions and access rows. */
    method ValidateTokenAccess(operator: string, team: string, jti: string, now: int) returns (ok: bool)
      ensures ok == SessionTables.ValidateTokenAccess(View(), operator, team, jti, now)
    {
      if jti !in tokens { return false; }
      var token := tokens[jti];
      if token.operator != operator || token.team != team || token.expiresAt <= now { return false; }
      if token.session !in sessions || sessions[token.session].expiresAt <= now { return false; }
      ok := token.session in access && team in access[token.session];
    }

    /** Insert unless the external id is taken, then compare with what is there. */
    method Register(issuer: string, oidcTeam: string, m: Mapping) returns (r: Registration)
      requires Valid()
      modifies this
      ensures Valid()
      ensures r == old(Outcome(View(), issuer, oidcTeam, m))
      ensures View() ==
        if r.Created? then old(View()).(mappings := old(mappings)[(issuer, oidcTeam) := m]) else old(View())
    {
      if issuer == "" || oidcTeam == "" || m.team == "" { return Invalid; }
      if (issuer, oidcTeam) in mappings {
        var existing := mappings[(issuer, oidcTeam)];
        return if existing.team != m.team then Conflict else Existing(existing);
      }
      if exists k :: k in mappings.Keys && mappings[k].team == m.team { return Conflict; }
      mappings := mappings[(issuer, oidcTeam) := m];
      r := Created;
    }

    /** Succeeds when exactly one row carries the team. */
    method RefreshPresentation(team: string, name: string, archivedAt: Option<int>) returns (ok: bool)
      requires Valid()
      modifies this
      ensures Valid()
      ensures var after := old(Present(View(), team, name, archivedAt));
        ok == after.Some? && View() == if ok then after.value else old(View())
    {
      var affected := set k | k in mappings.Keys && mappings[k].team == team;
      ok := |affected| == 1;
      OneRow(mappings, team, affected);
      mappings := map k | k in mappings :: Presented(mappings[k], team, name, archivedAt);
    }
  }

  lemma OneRow(mappings: map<(string, string), Mapping>, team: string, affected: set<(string, string)>)
    requires OneToOne(mappings)
    requires forall k :: k in affected <==> k in mappings && mappings[k].team == team
    ensures |affected| == 1 <==> TeamTaken(mappings, team)
    ensures affected == {} ==> forall k :: k in mappings ==> mappings[k].team != team
  {
    if k :| k in mappings && mappings[k].team == team {
      assert affected == {k};
    }
  }
}
