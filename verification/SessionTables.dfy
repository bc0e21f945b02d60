/**
 * The gateway's authentication tables and what each transaction makes of them. Rows that belong to a session are
 * grouped under its hash, so the key (session, team) is a key in the session's own map.
 */
module SessionTables {
  import opened Basics
  import TeamClaims

  datatype Mapping = Mapping(team: string, name: Option<string>, archivedAt: Option<int>)

  datatype Session = Session(
    operator: string, issuer: string, subject: string, state: string, observedAt: int, expiresAt: int)

  datatype Access = Access(operator: string, issuer: string, oidcTeam: string, observedAt: int)

  datatype Token = Token(session: string, operator: string, team: string, issuedAt: int, expiresAt: int)

  datatype Tables = Tables(
    mappings: map<(string, string), Mapping>,
    sessions: map<string, Session>,
    memberships: map<string, map<string, int>>,
    access: map<string, map<string, Access>>,
    tokens: map<string, Token>)

  datatype SessionInput = SessionInput(
    session: string, operator: string, issuer: string, subject: string, state: string,
    ids: seq<string>, observedAt: int, expiresAt: int)

  /** Both unique constraints on mappings: the external id is the key, and no team appears twice. */
  ghost predicate OneToOne(mappings: map<(string, string), Mapping>) {
    forall a, b :: a in mappings && b in mappings && mappings[a].team == mappings[b].team ==> a == b
  }

  /** Membership rows insert only non-empty ids, each once. */
  predicate Insertable(ids: seq<string>) { TeamClaims.NoDuplicates(ids) && "" !in ids }

  function Rows(ids: seq<string>, observedAt: int): map<string, int> { map id | id in ids :: observedAt }

  /** The join of a session's observations with its issuer's mappings, one row per team. */
  ghost function Derived(
      mappings: map<(string, string), Mapping>, issuer: string, ids: seq<string>, operator: string, observedAt: int)
      : map<string, Access>
    requires OneToOne(mappings)
  {
    map k | k in mappings && k.0 == issuer && k.1 in ids :: mappings[k].team := Access(operator, k.0, k.1, observedAt)
  }

  predicate ValidInput(input: SessionInput) {
    && input.session != "" && input.operator != "" && input.issuer != "" && input.subject != "" && input.state != ""
    && input.expiresAt > input.observedAt
  }

  // ----- transactions: `None` rolls back

  /** `clock` is the database's own time, which stamps the row. */
  ghost function Create(t: Tables, input: SessionInput, clock: int): Option<Tables>
    requires OneToOne(t.mappings)
  {
    if !ValidInput(input) || input.session in t.sessions || input.expiresAt <= clock || !Insertable(input.ids) then None
    else
      var h := input.session;
      Some(t.(
        sessions := t.sessions[h := Session(
          input.operator, input.issuer, input.subject, input.state, input.observedAt, input.expiresAt)],
        memberships := t.memberships[h := Rows(input.ids, input.observedAt)],
        access := t.access[h := Derived(t.mappings, input.issuer, input.ids, input.operator, input.observedAt)]))
  }

  ghost function Replace(t: Tables, h: string, state: string, ids: seq<string>, observedAt: int): Option<Tables>
    requires OneToOne(t.mappings)
  {
    if h !in t.sessions || !Insertable(ids) then None
    else
      var s := t.sessions[h];
      Some(t.(
        sessions := t.sessions[h := s.(state := state, observedAt := observedAt)],
        memberships := t.memberships[h := Rows(ids, observedAt)],
        access := t.access[h := Derived(t.mappings, s.issuer, ids, s.operator, observedAt)]))
  }

  /** Deleting a session cascades to every row that references it. */
  function Delete(t: Tables, h: string): Option<Tables> {
    if h !in t.sessions then None
    else
      Some(t.(
        sessions := t.sessions - {h}, memberships := t.memberships - {h}, access := t.access - {h},
        tokens := map j | j in t.tokens && t.tokens[j].session != h :: t.tokens[j]))
  }

  function Record(t: Tables, jti: string, token: Token): Option<Tables> {
    if jti in t.tokens || token.session !in t.sessions || token.expiresAt <= token.issuedAt then None
    else Some(t.(tokens := t.tokens[jti := token]))
  }

  datatype Registration = Created | Existing(mapping: Mapping) | Conflict | Invalid

  ghost predicate TeamTaken(mappings: map<(string, string), Mapping>, team: string) {
    exists k :: k in mappings && mappings[k].team == team
  }

  ghost function Outcome(t: Tables, issuer: string, oidcTeam: string, m: Mapping): Registration {
    if issuer == "" || oidcTeam == "" || m.team == "" then Invalid
    else if (issuer, oidcTeam) in t.mappings then
      var existing := t.mappings[(issuer, oidcTeam)];
      if existing.team != m.team then Conflict else Existing(existing)
    else if TeamTaken(t.mappings, m.team) then Conflict
    else Created
  }

  ghost function Register(t: Tables, issuer: string, oidcTeam: string, m: Mapping): Option<Tables> {
    if Outcome(t, issuer, oidcTeam, m).Created? then Some(t.(mappings := t.mappings[(issuer, oidcTeam) := m])) else None
  }

  /** A mapping row whose team matches takes the new name and archive date. */
  function Presented(m: Mapping, team: string, name: string, archivedAt: Option<int>): Mapping {
    if m.team == team then Mapping(team, Some(name), archivedAt) else m
  }

  ghost function Present(t: Tables, team: string, name: string, archivedAt: Option<int>): Option<Tables> {
    if !TeamTaken(t.mappings, team) then None
    else Some(t.(mappings := map k | k in t.mappings :: Presented(t.mappings[k], team, name, archivedAt)))
  }

  // ----- queries

  function LiveSession(t: Tables, h: string, now: int): Option<Session> {
    if h in t.sessions && t.sessions[h].expiresAt > now then Some(t.sessions[h]) else None
  }

  /** The access row that the token query joins to a mapping of this team. */
  predicate RowFor(t: Tables, h: string, row: string, team: string) {
    && h in t.access && row in t.access[h]
    && var key := (t.access[h][row].issuer, t.access[h][row].oidcTeam);
      key in t.mappings && t.mappings[key].team == team
  }

  datatype Context = Found(session: string, operator: string, team: string) | NotAccessible | NotFound

  ghost function TokenContext(t: Tables, h: string, team: string, now: int): Context {
    if LiveSession(t, h, now).None? then NotFound
    else if exists row :: RowFor(t, h, row, team) then Found(h, t.sessions[h].operator, team)
    else NotAccessible
  }

  predicate ValidateTokenAccess(t: Tables, operator: string, team: string, jti: string, now: int) {
    && jti in t.tokens
    && var token := t.tokens[jti];
      && token.operator == operator && token.team == team && token.expiresAt > now
      && LiveSession(t, token.session, now).Some?
      && token.session in t.access && team in t.access[token.session]
  }
}
