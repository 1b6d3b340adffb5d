/**
 Accounts of the web server: the user tables, the session map and the owners of live resources.

 Each handler is one step.  Tables are maps under their keys; ids come from AUTOINCREMENT, so none
 is given out twice.  Hashing and encryption are outside: a login carries whether its password
 matches, a secret is the sealed blob.
 */
module Accounts {
  import opened Prelude

  type UserId = nat
  type Cookie = string
  type Secret = string

  /** The UTF-8 bytes of a password: its length is counted in them. */
  type Password = seq<bv8>

  type Resource = (Kind, string)

  datatype Kind = DbConn | SshSession | VncSession | Tunnel

  const SESSION_TTL := 604_800_000

  /** `key` is the name as the UNIQUE COLLATE NOCASE index sees it. */
  datatype Account = Account(key: string, isAdmin: bool)

  datatype User = User(id: UserId, isAdmin: bool)

  datatype McpToken = McpToken(token: Secret, enabled: bool)

  datatype Db = Db(
    users: map<UserId, Account>,
    nextId: UserId,
    secrets: map<(UserId, string), Secret>,
    store: map<(UserId, string, string), string>,
    tokens: map<UserId, McpToken>)

  datatype Session = Session(user: User, expires: int)

  /** `connected` remembers who opened each resource, also after it is gone; `minted` every MCP token. */
  datatype Web = Web(
    sessions: map<Cookie, Session>,
    owners: map<Resource, UserId>,
    connected: map<Resource, UserId>,
    minted: set<Secret>)

  datatype State = State(db: Db, web: Web)

  const EMPTY := State(Db(map[], 1, map[], map[], map[]), Web(map[], map[], map[], {}))

  // ---- The tables ----

  function Lower(c: char): char
  {
    if 'A' <= c <= 'Z' then (c as int + 32) as char else c
  }

  /** NOCASE compares ASCII letters without case. */
  function Folded(name: string): (r: string)
    ensures |r| == |name|
  {
    seq(|name|, k requires 0 <= k < |name| => Lower(name[k]))
  }

  predicate Acceptable(name: string, password: Password)
  {
    name != "" && |password| >= 6
  }

  predicate Taken(db: Db, name: string)
  {
    exists id | id in db.users :: db.users[id].key == Folded(name)
  }

  function Insert(db: Db, name: string, isAdmin: bool): Db
  {
    db.(users := db.users[db.nextId := Account(Folded(name), isAdmin)], nextId := db.nextId + 1)
  }

  /** `create_user`; `name` is trimmed. */
  function CreateUser(db: Db, name: string, password: Password, isAdmin: bool): Option<Db>
  {
    if Acceptable(name, password) && !Taken(db, name) then Some(Insert(db, name, isAdmin)) else None
  }

  /** `bootstrap_admin`: only into an empty table. */
  function BootstrapAdmin(db: Db, name: string, password: Password): Option<Db>
  {
    if Acceptable(name, password) && |db.users| == 0 then Some(Insert(db, name, true)) else None
  }

  function Admins(db: Db): set<UserId>
  {
    set id | id in db.users && db.users[id].isAdmin
  }

  /** `delete_user`: the user with everything stored under the id, but not the last admin. */
  function DeleteUser(db: Db, id: UserId): Option<Db>
  {
    if id in db.users && db.users[id].isAdmin && |Admins(db)| <= 1 then None
    else Some(db.(
      users := db.users - {id},
      secrets := map k | k in db.secrets && k.0 != id :: db.secrets[k],
      store := map k | k in db.store && k.0 != id :: db.store[k],
      tokens := db.tokens - {id}))
  }

  /** `mcp_token_upsert` keeps the enabled flag. */
  function UpsertToken(db: Db, id: UserId, token: Secret): Db
  {
    db.(tokens := db.tokens[id := McpToken(token, if id in db.tokens then db.tokens[id].enabled else true)])
  }

  /** `mcp_token_resolve`: the user whose row has the token. */
  predicate Resolves(db: Db, token: Secret, id: UserId)
  {
    id in db.tokens && db.tokens[id].token == token && id in db.users
  }

  // ---- Sessions and owners ----

  predicate ValidSession(web: Web, cookie: Cookie, now: int)
  {
    cookie in web.sessions && web.sessions[cookie].expires > now
  }

  /** `resolve_session` drops an expired entry. */
  function Resolved(web: Web, cookie: Cookie, now: int): Web
  {
    if cookie in web.sessions && web.sessions[cookie].expires <= now then web.(sessions := web.sessions - {cookie}) else web
  }

  function CreateSession(web: Web, user: User, cookie: Cookie, now: int): Web
  {
    var kept := map c | c in web.sessions && web.sessions[c].expires > now :: web.sessions[c];
    web.(sessions := kept[cookie := Session(user, now + SESSION_TTL)])
  }

  function PurgeUser(web: Web, id: UserId): Web
  {
    web.(sessions := map c | c in web.sessions && web.sessions[c].user.id != id :: web.sessions[c])
  }

  /** `owns_resource`. */
  predicate Owns(web: Web, r: Resource, actor: User)
  {
    actor.isAdmin || (r in web.owners && web.owners[r] == actor.id)
  }

  // ---- Commands ----

  datatype Command =
    | UserCreate(name: string, password: Password, isAdmin: bool)
    | UserDelete(id: UserId)
    | SecretRemember(profile: string, secret: Secret)
    | SecretForget(profile: string)
    | StoreSet(owner: Option<UserId>, store: string, item: string, payload: string)
    | StoreDelete(owner: Option<UserId>, store: string, item: string)
    | StoreClear(owner: Option<UserId>, store: string)
    | McpGet(minted: Secret)
    | McpRegenerate(minted: Secret)
    | McpSetEnabled(enabled: bool)
    | Call(ws: bool, cmd: string, args: Args, made: Option<Resource>)

  // ---- Live resources ----

  /** The string fields of a command's arguments. */
  type Args = map<string, string>

  const CONN_FIELDS: seq<string> := ["connId", "sourceConnId", "targetConnId"]
  const TERMINAL_COMMANDS := {"term_open", "term_write", "term_resize", "term_close", "monitor_start", "monitor_stop"}
  const VNC_COMMANDS := {"vnc_pointer", "vnc_key", "vnc_close"}

  function Named(kind: Kind, args: Args, field: string): set<Resource>
  {
    if field in args then {(kind, args[field])} else {}
  }

  /** Over the WebSocket a missing id counts as the empty one. */
  function TheSession(kind: Kind, args: Args): set<Resource>
  {
    {(kind, if "sessionId" in args then args["sessionId"] else "")}
  }

  predicate IsOptical(cmd: string)
  {
    |cmd| >= 8 && cmd[..8] == "optical_"
  }

  /** The live resources that must be the actor's before command `cmd` does anything. */
  function Gated(ws: bool, cmd: string, args: Args): set<Resource>
  {
    if ws then
      if cmd in TERMINAL_COMMANDS then TheSession(SshSession, args)
      else if cmd in VNC_COMMANDS then TheSession(VncSession, args)
      else {}
    else if IsOptical(cmd) then if cmd == "optical_read" then Named(SshSession, args, "sessionId") else {}
    else
      Named(DbConn, args, CONN_FIELDS[0]) + Named(DbConn, args, CONN_FIELDS[1]) + Named(DbConn, args, CONN_FIELDS[2])
      + Named(SshSession, args, "sessionId")
      + (if cmd == "tunnel_close" then Named(Tunnel, args, "tunnelId") else {})
  }

  /** Those it takes off the owner maps. */
  function Closed(ws: bool, cmd: string, args: Args): set<Resource>
  {
    if ws then if cmd == "vnc_close" then TheSession(VncSession, args) else {}
    else if cmd == "db_disconnect" then Named(DbConn, args, "connId")
    else if cmd == "ssh_disconnect" then Named(SshSession, args, "sessionId")
    else if cmd == "tunnel_close" then Named(Tunnel, args, "tunnelId")
    else {}
  }

  /** A command of the streaming and dispatch loops: gate, then whatever it closes and opens. */
  function Dispatch(web: Web, actor: User, ws: bool, cmd: string, args: Args, made: Option<Resource>): (Web, bool)
  {
    if exists r | r in Gated(ws, cmd, args) :: !Owns(web, r, actor) then (web, false)
    else
      var kept := web.owners - Closed(ws, cmd, args);
      if made.None? then (web.(owners := kept), true)
      else (web.(owners := kept[made.value := actor.id], connected := web.connected[made.value := actor.id]), true)
  }

  /** `store_owner`: only an admin may write for somebody else. */
  function StoreOwner(owner: Option<UserId>, actor: User): UserId
  {
    if actor.isAdmin && owner.Some? then owner.value else actor.id
  }

  /** The state after a command of a logged-in user, and whether it was carried out. */
  function Execute(s: State, actor: User, c: Command): (State, bool)
  {
    var db, web := s.db, s.web;
    match c
    case UserCreate(name, password, isAdmin) =>
      if !actor.isAdmin || CreateUser(db, name, password, isAdmin).None? then (s, false)
      else (s.(db := CreateUser(db, name, password, isAdmin).value), true)
    case UserDelete(id) =>
      if !actor.isAdmin || DeleteUser(db, id).None? then (s, false)
      else (State(DeleteUser(db, id).value, PurgeUser(web, id)), true)
    case SecretRemember(profile, secret) =>
      if profile == "" || secret == "" then (s, false)
      else (s.(db := db.(secrets := db.secrets[(actor.id, profile) := secret])), true)
    case SecretForget(profile) => (s.(db := db.(secrets := db.secrets - {(actor.id, profile)})), true)
    case StoreSet(owner, store, item, payload) =>
      if store == "" || item == "" then (s, false)
      else (s.(db := db.(store := db.store[(StoreOwner(owner, actor), store, item) := payload])), true)
    case StoreDelete(owner, store, item) =>
      (s.(db := db.(store := db.store - {(StoreOwner(owner, actor), store, item)})), true)
    case StoreClear(owner, store) =>
      (s.(db := db.(store := map k | k in db.store && !(k.0 == StoreOwner(owner, actor) && k.1 == store) :: db.store[k])), true)
    case McpGet(minted) =>
      if actor.id in db.tokens then (s, true)
      else (State(UpsertToken(db, actor.id, minted), web.(minted := web.minted + {minted})), true)
    case McpRegenerate(minted) =>
      (State(UpsertToken(db, actor.id, minted), web.(minted := web.minted + {minted})), true)
    case McpSetEnabled(enabled) =>
      if actor.id in db.tokens then (s.(db := db.(tokens := db.tokens[actor.id := db.tokens[actor.id].(enabled := enabled)])), true)
      else (s, true)
    case Call(ws, cmd, args, made) =>
      var (web1, ok) := Dispatch(web, actor, ws, cmd, args, made);
      (s.(web := web1), ok)
  }

  datatype Request =
    | Bootstrap(name: string, password: Password, cookie: Cookie, now: int)
    | Register(name: string, password: Password, cookie: Cookie, now: int)
    | Login(name: string, row: UserId, matches: bool, cookie: Cookie, now: int)     // `row` has the name, if any has
    | Logout(cookie: Cookie)
    | Invoke(cookie: Cookie, now: int, command: Command)

  function SignIn(s: State, db: Db, isAdmin: bool, cookie: Cookie, now: int): State
  {
    State(db, CreateSession(s.web, User(s.db.nextId, isAdmin), cookie, now))
  }

  /** One request; the flag tells whether it was carried out. */
  function Handle(s: State, q: Request): (State, bool)
  {
    match q
    case Bootstrap(name, password, cookie, now) =>
      var db := BootstrapAdmin(s.db, name, password);
      if db.None? then (s, false) else (SignIn(s, db.value, true, cookie, now), true)
    case Register(name, password, cookie, now) =>
      var db := CreateUser(s.db, name, password, false);
      if |s.db.users| == 0 || db.None? then (s, false) else (SignIn(s, db.value, false, cookie, now), true)
    case Login(name, row, matches, cookie, now) =>
      if !Taken(s.db, name) || row !in s.db.users || !matches then (s, false)
      else (s.(web := CreateSession(s.web, User(row, s.db.users[row].isAdmin), cookie, now)), true)
    case Logout(cookie) => (s.(web := s.web.(sessions := s.web.sessions - {cookie})), true)
    case Invoke(cookie, now, command) =>
      var s1 := s.(web := Resolved(s.web, cookie, now));
      if !ValidSession(s.web, cookie, now) then (s1, false)
      else Execute(s1, s.web.sessions[cookie].user, command)
  }

  /** Fresh tokens are new, a live resource gets an id that none has had, and a login is given the row of its name. */
  predicate Enabled(s: State, q: Request)
  {
    match q
    case Invoke(_, _, command) =>
      (match command
       case McpGet(minted) => minted !in s.web.minted
       case McpRegenerate(minted) => minted !in s.web.minted
       case Call(_, _, _, made) => made.Some? ==> made.value !in s.web.connected
       case _ => true)
    case Login(name, row, _, _, _) => Taken(s.db, name) ==> row in s.db.users && s.db.users[row].key == Folded(name)
    case _ => true
  }

  ghost predicate IsRun(s: State, qs: seq<Request>)
    decreases |qs|
  {
    qs == [] || (Enabled(s, qs[0]) && IsRun(Handle(s, qs[0]).0, qs[1..]))
  }

  function After(s: State, qs: seq<Request>): State
    decreases |qs|
  {
    if qs == [] then s else After(Handle(s, qs[0]).0, qs[1..])
  }

  // ---- Invariants ----

  /** There is an admin if there is a user; names are unique; what is stored under an id belongs to a user. */
  ghost predicate DbOk(db: Db)
  {
    && (db.users != map[] ==> exists id | id in db.users :: db.users[id].isAdmin)
    && (forall id | id in db.users :: id < db.nextId)
    && (forall i, j | i in db.users && j in db.users && db.users[i].key == db.users[j].key :: i == j)
    && (forall k | k in db.secrets :: k.0 in db.users)
    && (forall id | id in db.tokens :: id in db.users)
  }

  /** Sessions are of existing users, as they are; MCP tokens are minted and not shared; owners are who connected. */
  ghost predicate WebOk(s: State)
  {
    && (forall c | c in s.web.sessions ::
          var u := s.web.sessions[c].user; u.id in s.db.users && s.db.users[u.id].isAdmin == u.isAdmin)
    && (forall id | id in s.db.tokens :: s.db.tokens[id].token in s.web.minted)
    && (forall i, j | i in s.db.tokens && j in s.db.tokens && s.db.tokens[i].token == s.db.tokens[j].token :: i == j)
    && (forall r | r in s.web.owners :: r in s.web.connected && s.web.owners[r] == s.web.connected[r])
    && (forall r | r in s.web.connected :: s.web.connected[r] < s.db.nextId)
  }

  ghost predicate Inv(s: State)
  {
    DbOk(s.db) && WebOk(s)
  }

  lemma InsertKeepsOk(db: Db, name: string, isAdmin: bool)
    requires DbOk(db) && !Taken(db, name) && (db.users == map[] ==> isAdmin)
    ensures DbOk(Insert(db, name, isAdmin))
  {
    var db1 := Insert(db, name, isAdmin);
    if db.users == map[] {
      assert db1.users[db.nextId].isAdmin;
    } else {
      var id :| id in db.users && db.users[id].isAdmin;
      assert db1.users[id].isAdmin;
    }
  }

  lemma DeleteKeepsOk(db: Db, id: UserId)
    requires DbOk(db) && DeleteUser(db, id).Some?
    ensures DbOk(DeleteUser(db, id).value)
  {
    var db1 := DeleteUser(db, id).value;
    if db1.users != map[] {
      AnotherAdmin(db, id);
      var a :| a in db.users && a != id && db.users[a].isAdmin;
      assert a in db1.users && db1.users[a].isAdmin;
    }
  }

  /** Whoever is deleted, an admin remains. */
  lemma AnotherAdmin(db: Db, id: UserId)
    requires DbOk(db) && DeleteUser(db, id).Some? && db.users != map[]
    ensures exists a | a in db.users :: a != id && db.users[a].isAdmin
  {
    var a :| a in db.users && db.users[a].isAdmin;
    if a == id {
      var others := Admins(db) - {id};
      assert Admins(db) == others + {id};
      assert |others| > 0;
      var b :| b in others;
    }
  }

  lemma SessionKeepsOk(s: State, user: User, cookie: Cookie, now: int)
    requires WebOk(s) && user.id in s.db.users && s.db.users[user.id].isAdmin == user.isAdmin
    ensures WebOk(s.(web := CreateSession(s.web, user, cookie, now)))
  {
  }

  lemma SignInKeepsInv(s: State, name: string, isAdmin: bool, cookie: Cookie, now: int)
    requires Inv(s) && !Taken(s.db, name) && (s.db.users == map[] ==> isAdmin)
    ensures Inv(SignIn(s, Insert(s.db, name, isAdmin), isAdmin, cookie, now))
  {
    InsertKeepsOk(s.db, name, isAdmin);
    var s1 := s.(db := Insert(s.db, name, isAdmin));
    assert WebOk(s1);
    SessionKeepsOk(s1, User(s.db.nextId, isAdmin), cookie, now);
  }

  lemma DeleteKeepsInv(s: State, id: UserId)
    requires Inv(s) && DeleteUser(s.db, id).Some?
    ensures Inv(State(DeleteUser(s.db, id).value, PurgeUser(s.web, id)))
  {
    DeleteKeepsOk(s.db, id);
  }

  lemma MintKeepsInv(s: State, id: UserId, minted: Secret)
    requires Inv(s) && id in s.db.users && minted !in s.web.minted
    ensures Inv(State(UpsertToken(s.db, id, minted), s.web.(minted := s.web.minted + {minted})))
  {
  }

  /** Commands that leave users, tokens and owners alone. */
  lemma DataKeepsInv(s: State, actor: User, c: Command)
    requires Inv(s) && actor.id in s.db.users
    requires c.SecretRemember? || c.SecretForget? || c.StoreSet? || c.StoreDelete? || c.StoreClear?
    ensures Inv(Execute(s, actor, c).0)
  {
    hide WebOk, Folded, Insert, DeleteUser;
    var s1 := Execute(s, actor, c).0;
    assert s1.web == s.web && s1.db.users == s.db.users && s1.db.tokens == s.db.tokens && s1.db.nextId == s.db.nextId;
    SameWeb(s, s1);
  }

  lemma SameWeb(s: State, s1: State)
    requires WebOk(s) && s1.web == s.web
    requires s1.db.users == s.db.users && s1.db.tokens == s.db.tokens && s1.db.nextId == s.db.nextId
    ensures WebOk(s1)
  {
  }

  lemma LiveKeepsInv(s: State, actor: User, c: Command)
    requires Inv(s) && actor.id in s.db.users && Enabled(s, Invoke("", 0, c))
    requires c.Call? || c.McpSetEnabled?
    ensures Inv(Execute(s, actor, c).0)
  {
    if c.Call? {
      DispatchKeepsInv(s, actor, c.ws, c.cmd, c.args, c.made);
      hide DbOk, WebOk, Dispatch;
    } else {
      hide Folded, Insert, DeleteUser, Dispatch;
    }
  }

  lemma DispatchKeepsInv(s: State, actor: User, ws: bool, cmd: string, args: Args, made: Option<Resource>)
    requires Inv(s) && actor.id in s.db.users && (made.Some? ==> made.value !in s.web.connected)
    ensures Inv(s.(web := Dispatch(s.web, actor, ws, cmd, args, made).0))
  {
    assert actor.id < s.db.nextId;
    hide DbOk, Gated, Closed, Owns;
  }

  lemma ExecuteKeepsInv(s: State, actor: User, c: Command)
    requires Inv(s) && actor.id in s.db.users && Enabled(s, Invoke("", 0, c))
    ensures Inv(Execute(s, actor, c).0)
  {
    if c.UserCreate? || c.UserDelete? || c.McpGet? || c.McpRegenerate? {
      hide DeleteUser, Insert, UpsertToken, PurgeUser, DbOk, WebOk;
      match c
      case UserCreate(name, password, isAdmin) =>
        if CreateUser(s.db, name, password, isAdmin).Some? {
          CreateKeepsInv(s, name, isAdmin, actor);
        }
      case UserDelete(id) => if DeleteUser(s.db, id).Some? { DeleteKeepsInv(s, id); }
      case McpGet(minted) => if actor.id !in s.db.tokens { MintKeepsInv(s, actor.id, minted); }
      case McpRegenerate(minted) => MintKeepsInv(s, actor.id, minted);
    } else {
      hide Execute, Inv, Enabled;
      if c.Call? || c.McpSetEnabled? {
        LiveKeepsInv(s, actor, c);
      } else {
        DataKeepsInv(s, actor, c);
      }
    }
  }

  lemma CreateKeepsInv(s: State, name: string, isAdmin: bool, actor: User)
    requires Inv(s) && !Taken(s.db, name) && actor.id in s.db.users
    ensures Inv(s.(db := Insert(s.db, name, isAdmin)))
  {
    InsertKeepsOk(s.db, name, isAdmin);
    InsertKeepsWeb(s, name, isAdmin);
  }

  lemma InsertKeepsWeb(s: State, name: string, isAdmin: bool)
    requires Inv(s)
    ensures WebOk(s.(db := Insert(s.db, name, isAdmin)))
  {
  }

  lemma StepKeepsInv(s: State, q: Request)
    requires Inv(s) && Enabled(s, q)
    ensures Inv(Handle(s, q).0)
  {
    hide Insert, Execute, Folded, DbOk, WebOk, CreateSession, Taken;
    match q
    case Bootstrap(name, password, cookie, now) =>
      if BootstrapAdmin(s.db, name, password).Some? {
        NoUserIsTaken(s.db, name);
        SignInKeepsInv(s, name, true, cookie, now);
      }
    case Register(name, password, cookie, now) =>
      if |s.db.users| > 0 && CreateUser(s.db, name, password, false).Some? {
        SignInKeepsInv(s, name, false, cookie, now);
      }
    case Login(_, row, _, cookie, now) =>
      if row in s.db.users {
        SessionKeepsOk(s, User(row, s.db.users[row].isAdmin), cookie, now);
      }
    case Logout(cookie) => LogoutKeepsInv(s, cookie);
    case Invoke(cookie, now, command) =>
      SessionUserExists(s, cookie);
      ResolvedKeepsInv(s, cookie, now);
      if ValidSession(s.web, cookie, now) {
        ExecuteKeepsInv(s.(web := Resolved(s.web, cookie, now)), s.web.sessions[cookie].user, command);
      }
  }

  lemma NoUserIsTaken(db: Db, name: string)
    requires |db.users| == 0
    ensures !Taken(db, name) && db.users == map[]
  {
  }

  lemma LogoutKeepsInv(s: State, cookie: Cookie)
    requires Inv(s)
    ensures Inv(s.(web := s.web.(sessions := s.web.sessions - {cookie})))
  {
    hide DbOk;
  }

  lemma SessionUserExists(s: State, cookie: Cookie)
    requires Inv(s)
    ensures cookie in s.web.sessions ==> s.web.sessions[cookie].user.id in s.db.users
  {
  }

  lemma ResolvedKeepsInv(s: State, cookie: Cookie, now: int)
    requires Inv(s)
    ensures Inv(s.(web := Resolved(s.web, cookie, now)))
  {
    hide DbOk;
  }

  lemma {:induction false} RunKeepsInv(s: State, qs: seq<Request>)
    requires Inv(s) && IsRun(s, qs)
    ensures Inv(After(s, qs))
    decreases |qs|
  {
    hide Inv, Handle, Enabled;
    if qs != [] {
      StepKeepsInv(s, qs[0]);
      RunKeepsInv(Handle(s, qs[0]).0, qs[1..]);
    }
  }

  // ---- What holds in every run ----

  lemma EmptyInv()
    ensures Inv(EMPTY)
  {
  }

  /** If there is any user there is an admin; sessions, secrets and MCP tokens are of users that exist, and sessions know their role. */
  lemma AccountsStayConsistent(qs: seq<Request>)
    requires IsRun(EMPTY, qs)
    ensures var s := After(EMPTY, qs);
            && (s.db.users != map[] ==> exists id | id in s.db.users :: s.db.users[id].isAdmin)
            && (forall c | c in s.web.sessions :: s.web.sessions[c].user.id in s.db.users &&
                  s.db.users[s.web.sessions[c].user.id].isAdmin == s.web.sessions[c].user.isAdmin)
            && (forall k | k in s.db.secrets :: k.0 in s.db.users)
            && (forall id | id in s.db.tokens :: id in s.db.users)
            && (forall i, j | i in s.db.users && j in s.db.users && s.db.users[i].key == s.db.users[j].key :: i == j)
  {
    EmptyInv();
    RunKeepsInv(EMPTY, qs);
  }

  /** An id below the counter is never given to anybody else, and who has it keeps name and role. */
  ghost predicate SameAccounts(s: State, s1: State)
  {
    && s.db.nextId <= s1.db.nextId
    && forall id | id < s.db.nextId && id in s1.db.users :: id in s.db.users && s1.db.users[id] == s.db.users[id]
  }

  lemma ExecuteSameAccounts(s: State, actor: User, c: Command)
    ensures SameAccounts(s, Execute(s, actor, c).0)
  {
    hide Gated, Closed, Folded, PurgeUser, Taken;
  }

  lemma StepSameAccounts(s: State, q: Request)
    ensures SameAccounts(s, Handle(s, q).0)
  {
    hide Gated, Closed, Folded, Execute, Taken;
    if q.Invoke? {
      var s1 := s.(web := Resolved(s.web, q.cookie, q.now));
      if ValidSession(s.web, q.cookie, q.now) {
        ExecuteSameAccounts(s1, s.web.sessions[q.cookie].user, q.command);
      }
    }
  }

  lemma {:induction false} IdsAreNeverReused(s: State, qs: seq<Request>)
    ensures SameAccounts(s, After(s, qs))
    decreases |qs|
  {
    hide Handle;
    if qs != [] {
      StepSameAccounts(s, qs[0]);
      IdsAreNeverReused(Handle(s, qs[0]).0, qs[1..]);
    }
  }

  /** A deleted user never comes back: no session, secret or MCP token under the id, in any later state. */
  lemma DeletedUsersStayGone(s: State, actor: User, id: UserId, qs: seq<Request>)
    requires Inv(s) && id < s.db.nextId && actor.id in s.db.users && Execute(s, actor, UserDelete(id)).1
    requires IsRun(Execute(s, actor, UserDelete(id)).0, qs)
    ensures var s1 := After(Execute(s, actor, UserDelete(id)).0, qs);
            && id !in s1.db.users
            && (forall c | c in s1.web.sessions :: s1.web.sessions[c].user.id != id)
            && (forall k | k in s1.db.secrets :: k.0 != id)
            && id !in s1.db.tokens
  {
    var s0 := Execute(s, actor, UserDelete(id)).0;
    ExecuteKeepsInv(s, actor, UserDelete(id));
    assert id !in s0.db.users && s0.db.nextId == s.db.nextId;
    hide Execute;
    RunKeepsInv(s0, qs);
    IdsAreNeverReused(s0, qs);
  }

  /** What a user who is no admin cannot change: accounts, and what is stored for others. */
  lemma NonAdminsTouchOnlyTheirOwn(s: State, actor: User, c: Command)
    requires !actor.isAdmin
    ensures var s1 := Execute(s, actor, c).0;
            && s1.db.users == s.db.users
            && (forall k: (UserId, string) | k.0 != actor.id && (k in s.db.secrets || k in s1.db.secrets) ::
                  k in s.db.secrets && k in s1.db.secrets && s1.db.secrets[k] == s.db.secrets[k])
            && (forall k: (UserId, string, string) | k.0 != actor.id && (k in s.db.store || k in s1.db.store) ::
                  k in s.db.store && k in s1.db.store && s1.db.store[k] == s.db.store[k])
            && (forall id: UserId | id != actor.id && (id in s.db.tokens || id in s1.db.tokens) ::
                  id in s.db.tokens && id in s1.db.tokens && s1.db.tokens[id] == s.db.tokens[id])
            && (forall r | r in s.web.owners && s.web.owners[r] != actor.id && !(c.Call? && c.made == Some(r)) ::
                  r in s1.web.owners && s1.web.owners[r] == s.web.owners[r])
  {
    if c.Call? {
      ClosedIsGated(c.ws, c.cmd, c.args);
      hide Gated, Closed;
    }
  }

  /** Nothing is closed that the gate has not let through. */
  lemma ClosedIsGated(ws: bool, cmd: string, args: Args)
    ensures Closed(ws, cmd, args) <= Gated(ws, cmd, args)
  {
    assert "vnc_close" in VNC_COMMANDS && "vnc_close" !in TERMINAL_COMMANDS;
    assert "db_disconnect"[0] == 'd' && "ssh_disconnect"[0] == 's' && "tunnel_close"[0] == 't' && "optical_"[0] == 'o';
    assert IsOptical(cmd) ==> cmd[0] == cmd[..8][0] == 'o';
  }

  /** A login opens a session exactly when the name is somebody's and the password matches, and it is for that user, for seven days. */
  lemma LoginIsForTheNamedUser(s: State, name: string, row: UserId, matches: bool, cookie: Cookie, now: int, later: int)
    requires Inv(s) && Enabled(s, Login(name, row, matches, cookie, now))
    ensures var (s1, ok) := Handle(s, Login(name, row, matches, cookie, now));
            && (ok <==> matches && Taken(s.db, name))
            && (ok ==>
                  && (ValidSession(s1.web, cookie, later) <==> later < now + 7 * 24 * 3_600_000)
                  && cookie in s1.web.sessions
                  && (forall id | id in s.db.users :: s.db.users[id].key == Folded(name) <==> id == s1.web.sessions[cookie].user.id))
  {
    hide Folded;
  }

  lemma ConnectedStays(s: State, q: Request, r: Resource)
    requires Enabled(s, q) && r in s.web.connected
    ensures r in Handle(s, q).0.web.connected && Handle(s, q).0.web.connected[r] == s.web.connected[r]
  {
    hide Folded, DeleteUser, Insert, Taken, Gated, Closed, Owns;
  }

  lemma {:induction false} ConnectedForever(s: State, qs: seq<Request>, r: Resource)
    requires IsRun(s, qs) && r in s.web.connected
    ensures r in After(s, qs).web.connected && After(s, qs).web.connected[r] == s.web.connected[r]
    decreases |qs|
  {
    hide Handle, Enabled;
    if qs != [] {
      ConnectedStays(s, qs[0], r);
      ConnectedForever(Handle(s, qs[0]).0, qs[1..], r);
    }
  }

  /** The request that opened resource `r`: a command let through that gave it its id. */
  ghost predicate Opens(s: State, q: Request, r: Resource)
  {
    && q.Invoke? && q.command.Call? && q.command.made == Some(r)
    && ValidSession(s.web, q.cookie, q.now) && Enabled(s, q) && Handle(s, q).1
  }

  /**
   However long after and whoever joined or left in between: a user who is no admin gets a command
   through whose arguments name a live resource only if that was opened under his own id.
   */
  lemma DispatchActsOnlyOnOwn(s: State, q: Request, r: Resource, qs: seq<Request>, cookie: Cookie, now: int, ws: bool, cmd: string, args: Args, made: Option<Resource>)
    requires Inv(s) && Opens(s, q, r) && IsRun(Handle(s, q).0, qs)
    requires r in Gated(ws, cmd, args)
    ensures var s1 := After(Handle(s, q).0, qs);
            Handle(s1, Invoke(cookie, now, Call(ws, cmd, args, made))).1 ==>
              && cookie in s1.web.sessions
              && (s1.web.sessions[cookie].user.isAdmin || s1.web.sessions[cookie].user.id == s.web.sessions[q.cookie].user.id)
  {
    OpenedIsConnected(s, q, r);
    StepKeepsInv(s, q);
    hide Gated, Handle, Opens;
    var s0 := Handle(s, q).0;
    RunKeepsInv(s0, qs);
    ConnectedForever(s0, qs, r);
    LetThroughToOwn(After(s0, qs), r, cookie, now, ws, cmd, args, made);
  }

  lemma OpenedIsConnected(s: State, q: Request, r: Resource)
    requires Opens(s, q, r)
    ensures Enabled(s, q) && q.Invoke? && q.cookie in s.web.sessions
    ensures r in Handle(s, q).0.web.connected && Handle(s, q).0.web.connected[r] == s.web.sessions[q.cookie].user.id
  {
    hide Gated, Closed;
  }

  /** Whoever gets a command through that names `r` is an admin or the one under whose id it was opened. */
  lemma LetThroughToOwn(s: State, r: Resource, cookie: Cookie, now: int, ws: bool, cmd: string, args: Args, made: Option<Resource>)
    requires WebOk(s) && r in s.web.connected && r in Gated(ws, cmd, args)
    ensures Handle(s, Invoke(cookie, now, Call(ws, cmd, args, made))).1 ==>
              cookie in s.web.sessions && (s.web.sessions[cookie].user.isAdmin || s.web.sessions[cookie].user.id == s.web.connected[r])
  {
    hide Gated, Closed;
    var web := Resolved(s.web, cookie, now);
    assert r in web.owners ==> web.owners[r] == web.connected[r];
  }

  /** Which arguments are gated: over HTTP every connection and session field, and the tunnel to be closed. */
  lemma GatedFields(cmd: string, args: Args, field: string)
    requires !IsOptical(cmd) && field in args
    ensures field in CONN_FIELDS ==> (DbConn, args[field]) in Gated(false, cmd, args)
    ensures field == "sessionId" ==> (SshSession, args[field]) in Gated(false, cmd, args)
    ensures field == "tunnelId" && cmd == "tunnel_close" ==> (Tunnel, args[field]) in Gated(false, cmd, args)
    ensures forall r | r in Gated(false, cmd, args) ::
              exists f | f in args :: r.1 == args[f] && (f in CONN_FIELDS || f == "sessionId" || f == "tunnelId")
  {
    forall r | r in Gated(false, cmd, args)
      ensures exists f | f in args :: r.1 == args[f] && (f in CONN_FIELDS || f == "sessionId" || f == "tunnelId")
    {
      var f :| f in {CONN_FIELDS[0], CONN_FIELDS[1], CONN_FIELDS[2], "sessionId", "tunnelId"} && f in args && r.1 == args[f];
      assert f in CONN_FIELDS || f == "sessionId" || f == "tunnelId";
    }
  }

  // ---- MCP tokens ----

  /** A token out of use: minted before, and in nobody's row. */
  ghost predicate Retired(s: State, token: Secret)
  {
    token in s.web.minted && forall id | id in s.db.tokens :: s.db.tokens[id].token != token
  }

  lemma StepKeepsRetired(s: State, q: Request, token: Secret)
    requires Retired(s, token) && Enabled(s, q)
    ensures Retired(Handle(s, q).0, token)
  {
    hide Folded, Taken, Gated, Closed, Owns;
  }

  lemma {:induction false} RetiredForever(s: State, qs: seq<Request>, token: Secret)
    requires Retired(s, token) && IsRun(s, qs)
    ensures Retired(After(s, qs), token)
    decreases |qs|
  {
    hide Retired, Handle, Enabled;
    if qs != [] {
      StepKeepsRetired(s, qs[0], token);
      RetiredForever(Handle(s, qs[0]).0, qs[1..], token);
    }
  }

  /** After a rotation the old token resolves to nobody, ever; the new one to its owner alone, as enabled as before. */
  lemma RotationRetiresTheOldToken(s: State, actor: User, minted: Secret, qs: seq<Request>)
    requires Inv(s) && actor.id in s.db.users && actor.id in s.db.tokens && minted !in s.web.minted
    requires IsRun(Execute(s, actor, McpRegenerate(minted)).0, qs)
    ensures var s1 := Execute(s, actor, McpRegenerate(minted)).0;
            && (forall id :: !Resolves(After(s1, qs).db, s.db.tokens[actor.id].token, id))
            && (forall id :: Resolves(s1.db, minted, id) <==> id == actor.id)
            && s1.db.tokens[actor.id].enabled == s.db.tokens[actor.id].enabled
  {
    var s1 := Execute(s, actor, McpRegenerate(minted)).0;
    var former := s.db.tokens[actor.id].token;
    assert Retired(s1, former);
    RetiredForever(s1, qs, former);
    hide After, IsRun;
  }

  // ---- The tables and maps in place ----

  class AuthDb {
    var users: map<UserId, Account>
    var nextId: UserId
    var secrets: map<(UserId, string), Secret>
    var store: map<(UserId, string, string), string>
    var tokens: map<UserId, McpToken>

    ghost function Abs(): Db
      reads this
    {
      Db(users, nextId, secrets, store, tokens)
    }

    constructor ()
      ensures Abs() == EMPTY.db
    {
      users, nextId, secrets, store, tokens := map[], 1, map[], map[], map[];
    }

    /** The INSERT, which the unique index may refuse. */
    method InsertUser(name: string, isAdmin: bool) returns (id: Option<UserId>)
      modifies this`users, this`nextId
      ensures Abs() == if Taken(old(Abs()), name) then old(Abs()) else Insert(old(Abs()), name, isAdmin)
      ensures id == if Taken(old(Abs()), name) then None else Some(old(nextId))
    {
      hide Folded;
      if exists i | i in users :: users[i].key == Folded(name) {
        return None;
      }
      users := users[nextId := Account(Folded(name), isAdmin)];
      id := Some(nextId);
      nextId := nextId + 1;
    }

    method Create(name: string, password: Password, isAdmin: bool) returns (id: Option<UserId>)
      modifies this`users, this`nextId
      ensures id.Some? <==> CreateUser(old(Abs()), name, password, isAdmin).Some?
      ensures Abs() == if id.Some? then CreateUser(old(Abs()), name, password, isAdmin).value else old(Abs())
      ensures id.Some? ==> id.value == old(nextId)
    {
      hide Insert, Folded, Taken;
      if name == "" || |password| < 6 {
        return None;
      }
      id := InsertUser(name, isAdmin);
    }

    method Bootstrap(name: string, password: Password) returns (id: Option<UserId>)
      modifies this`users, this`nextId
      ensures id.Some? <==> BootstrapAdmin(old(Abs()), name, password).Some?
      ensures Abs() == if id.Some? then BootstrapAdmin(old(Abs()), name, password).value else old(Abs())
      ensures id.Some? ==> id.value == old(nextId)
    {
      hide Insert, Folded;
      if name == "" || |password| < 6 || |users| != 0 {
        return None;
      }
      assert users == map[];
      id := InsertUser(name, true);
    }

    method Delete(id: UserId) returns (ok: bool)
      modifies this
      ensures ok <==> DeleteUser(old(Abs()), id).Some?
      ensures Abs() == if ok then DeleteUser(old(Abs()), id).value else old(Abs())
    {
      if id in users && users[id].isAdmin {
        var admins := set i | i in users && users[i].isAdmin;
        assert admins == Admins(Abs());
        if |admins| <= 1 {
          return false;
        }
      }
      users := users - {id};
      secrets := map k | k in secrets && k.0 != id :: secrets[k];
      store := map k | k in store && k.0 != id :: store[k];
      tokens := tokens - {id};
      ok := true;
    }

    method Upsert(id: UserId, token: Secret)
      modifies this`tokens
      ensures Abs() == UpsertToken(old(Abs()), id, token)
    {
      if id in tokens {
        tokens := tokens[id := tokens[id].(token := token)];
      } else {
        tokens := tokens[id := McpToken(token, true)];
      }
    }
  }

  /** The session map and the owner maps. */
  class LiveState {
    var sessions: map<Cookie, Session>
    var owners: map<Resource, UserId>
    ghost var connected: map<Resource, UserId>
    ghost var minted: set<Secret>

    ghost function Abs(): Web
      reads this
    {
      Web(sessions, owners, connected, minted)
    }

    constructor ()
      ensures Abs() == EMPTY.web
    {
      sessions, owners, connected, minted := map[], map[], map[], {};
    }

    method ResolveSession(cookie: Cookie, now: int) returns (user: Option<User>)
      modifies this`sessions
      ensures Abs() == Resolved(old(Abs()), cookie, now)
      ensures user == if ValidSession(old(Abs()), cookie, now) then Some(old(sessions)[cookie].user) else None
    {
      user := None;
      if cookie in sessions {
        if sessions[cookie].expires > now {
          user := Some(sessions[cookie].user);
        } else {
          sessions := sessions - {cookie};
        }
      }
    }

    /** `retain` goes through the sessions one by one. */
    method CreateSessionFor(user: User, cookie: Cookie, now: int)
      modifies this`sessions
      ensures Abs() == CreateSession(old(Abs()), user, cookie, now)
    {
      var todo := sessions.Keys;
      while todo != {}
        invariant todo <= sessions.Keys
        invariant sessions == map c | c in old(sessions) && (c in todo || old(sessions)[c].expires > now) :: old(sessions)[c]
        decreases todo
      {
        var c :| c in todo;
        todo := todo - {c};
        if sessions[c].expires <= now {
          sessions := sessions - {c};
        }
      }
      sessions := sessions[cookie := Session(user, now + SESSION_TTL)];
    }

    method PurgeSessionsOf(id: UserId)
      modifies this`sessions
      ensures Abs() == PurgeUser(old(Abs()), id)
    {
      var todo := sessions.Keys;
      while todo != {}
        invariant todo <= sessions.Keys
        invariant sessions == map c | c in old(sessions) && (c in todo || old(sessions)[c].user.id != id) :: old(sessions)[c]
        decreases todo
      {
        var c :| c in todo;
        todo := todo - {c};
        if sessions[c].user.id == id {
          sessions := sessions - {c};
        }
      }
    }

    /** The ownership gate of `dispatch`: the first field that names somebody else's resource stops the command. */
    method Gate(cmd: string, args: Args, actor: User) returns (ok: bool)
      requires !IsOptical(cmd)
      ensures ok <==> forall r | r in Gated(false, cmd, args) :: Owns(Abs(), r, actor)
    {
      hide Owns;
      var i := 0;
      while i < |CONN_FIELDS|
        invariant 0 <= i <= |CONN_FIELDS|
        invariant forall k | 0 <= k < i && CONN_FIELDS[k] in args :: Owns(Abs(), (DbConn, args[CONN_FIELDS[k]]), actor)
      {
        var field := CONN_FIELDS[i];
        if field in args && !OwnsHere((DbConn, args[field]), actor) {
          assert (DbConn, args[field]) in Gated(false, cmd, args);
          return false;
        }
        i := i + 1;
      }
      if "sessionId" in args && !OwnsHere((SshSession, args["sessionId"]), actor) {
        assert (SshSession, args["sessionId"]) in Gated(false, cmd, args);
        return false;
      }
      if cmd == "tunnel_close" && "tunnelId" in args && !OwnsHere((Tunnel, args["tunnelId"]), actor) {
        assert (Tunnel, args["tunnelId"]) in Gated(false, cmd, args);
        return false;
      }
      ok := true;
    }

    predicate OwnsHere(r: Resource, actor: User)
      reads this
      ensures OwnsHere(r, actor) == Owns(Abs(), r, actor)
    {
      actor.isAdmin || (r in owners && owners[r] == actor.id)
    }
  }
}
