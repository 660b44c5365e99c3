/** The database servers behind the SQL engines, and what each engine's statements do to them
    (sqlengine/postgres_engine.go, sqlengine/mysql_engine.go). A function returns None when the call
    returns an error, and then the server is as before; `ok` is false when the call fails for a reason
    of its own. */
module SqlServers {
  import opened Wrappers
  import opened Catalog
  import opened PostgresText

  datatype Role = Role(login: bool, password: string)

  /** `roles` are the roles made by `CreateUser`; a grant is a pair (database, role). `deleting` is set
      from the moment RDS accepts the deletion of the server. */
  datatype Server = Server(deleting: bool, databases: set<string>, roles: map<string, Role>, grants: set<(string, string)>,
                           extensions: map<string, set<string>>)

  function NewServer(databases: set<string>): Server {
    Server(false, databases, map[], {}, map[])
  }

  function CreateDB(s: Server, dbname: string, ok: bool): Option<Server> {
    if ok then Some(s.(databases := s.databases + {dbname})) else None
  }

  /** PostgreSQL drops the grants on a database with it; MySQL keeps them. */
  function DropDB(kind: EngineKind, s: Server, dbname: string, ok: bool): Option<Server> {
    if !ok then None
    else Some(s.(databases := s.databases - {dbname},
                 grants := if kind.Postgres? then set g | g in s.grants && g.0 != dbname else s.grants,
                 extensions := s.extensions - {dbname}))
  }

  /** The password the server reads in the statement. Postgres gets it as a quoted string constant. */
  function SentPassword(kind: EngineKind, password: string): string {
    if kind.MySQL? then password
    else match ReadLiteral(QuoteValue(password)) case Some((value, _)) => value case None => ""
  }

  lemma SentPasswordIs(kind: EngineKind, password: string)
    requires '\0' !in password
    ensures SentPassword(kind, password) == password
  {
    QuoteValueRoundTrip(password, "");
    assert QuoteValue(password) + "" == QuoteValue(password);
  }

  /** Postgres brings a role that was dropped to NOLOGIN back with the new password; MySQL refuses to
      create a user twice. */
  function CreateUser(kind: EngineKind, s: Server, username: string, password: string, ok: bool): Option<Server> {
    if !ok || (kind.MySQL? && username in s.roles) then None
    else Some(s.(roles := s.roles[username := Role(true, SentPassword(kind, password))]))
  }

  /** Postgres keeps the role, which may own objects, and takes its login away; MySQL really drops it. */
  function DropUser(kind: EngineKind, s: Server, username: string, ok: bool): Option<Server> {
    if !ok || username !in s.roles then None
    else match kind
      case Postgres => Some(s.(roles := s.roles[username := s.roles[username].(login := false)]))
      case MySQL => Some(s.(roles := s.roles - {username}, grants := set g | g in s.grants && g.1 != username))
  }

  function GrantPrivileges(kind: EngineKind, s: Server, dbname: string, username: string, ok: bool): Option<Server> {
    if !ok || username !in s.roles || (kind.Postgres? && dbname !in s.databases) then None
    else Some(s.(grants := s.grants + {(dbname, username)}))
  }

  function RevokePrivileges(kind: EngineKind, s: Server, dbname: string, username: string, ok: bool): Option<Server> {
    if !ok || username !in s.roles then None
    else if kind.Postgres? && dbname !in s.databases then None
    else if kind.MySQL? && (dbname, username) !in s.grants then None
    else Some(s.(grants := s.grants - {(dbname, username)}))
  }

  /** The role can log in with that password and holds the database. */
  predicate Usable(s: Server, dbname: string, username: string, password: string) {
    username in s.roles && s.roles[username] == Role(true, password) && (dbname, username) in s.grants
  }
}
