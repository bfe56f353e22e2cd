/** Accounts, names and login tokens in one file, loaded and saved by every operation. */
module UserStore {
  import opened Prelude

  type UserId = string
  type Name = string
  type Token = string

  datatype User = User(id: UserId, username: Name, passwordHash: string, email: string, avatar: string, displayName: string, createdAt: int)

  datatype UserPublic = UserPublic(id: UserId, username: Name, email: string, avatar: string, displayName: string, createdAt: int)

  datatype UserDB = UserDB(users: map<UserId, User>, tokens: map<Token, UserId>, names: map<Name, UserId>)

  const EMPTY := UserDB(map[], map[], map[])

  function ToPublic(u: User): UserPublic { UserPublic(u.id, u.username, u.email, u.avatar, u.displayName, u.createdAt) }

  // ---- Usernames and passwords ----

  predicate IsSpace(c: char) { c == ' ' || '\t' <= c <= '\r' }

  function LowerChar(c: char): (l: char) {
    if 'A' <= c <= 'Z' then (c as int + 32) as char else c
  }

  function ToLower(s: string): (l: string)
    ensures |l| == |s| && forall i :: 0 <= i < |s| ==> l[i] == LowerChar(s[i])
  {
    if s == [] then [] else [LowerChar(s[0])] + ToLower(s[1..])
  }

  function TrimSpace(s: string): string {
    if s != [] && IsSpace(s[0]) then TrimSpace(s[1..])
    else if s != [] && IsSpace(s[|s| - 1]) then TrimSpace(s[..|s| - 1])
    else s
  }

  function Normalize(username: string): Name { ToLower(TrimSpace(username)) }

  lemma {:induction false} TrimmedEnds(s: string)
    ensures var t := TrimSpace(s); t == [] || (!IsSpace(t[0]) && !IsSpace(t[|t| - 1]))
  {
    if s != [] && IsSpace(s[0]) {
      TrimmedEnds(s[1..]);
    } else if s != [] && IsSpace(s[|s| - 1]) {
      TrimmedEnds(s[..|s| - 1]);
    }
  }

  /** A normalized name is its own normal form. */
  lemma NormalizeOnce(username: string)
    ensures Normalize(Normalize(username)) == Normalize(username)
  {
    var t := TrimSpace(username);
    var n := Normalize(username);
    TrimmedEnds(username);
    assert n != [] ==> IsSpace(n[0]) == IsSpace(t[0]) && IsSpace(n[|n| - 1]) == IsSpace(t[|t| - 1]);
    assert TrimSpace(n) == n;
    assert ToLower(n) == n;
  }

  // ---- Spellings of one name ----

  predicate IsBlank(c: char) { c in {' ', '\t', '\n', 11 as char, 12 as char, '\r'} }

  predicate Blank(s: string) { forall i :: 0 <= i < |s| ==> IsBlank(s[i]) }

  /** Equal, or the upper and the lower case of one letter. */
  predicate SameLetter(a: char, b: char) {
    || a == b
    || ('A' <= a <= 'Z' && b as int == a as int + 32)
    || ('A' <= b <= 'Z' && a as int == b as int + 32)
  }

  predicate SameLetters(a: string, b: string) { |a| == |b| && forall i :: 0 <= i < |a| ==> SameLetter(a[i], b[i]) }

  /** A name between blanks, itself without blanks at its ends. */
  datatype Spelling = Spelling(before: string, name: string, after: string) {
    function Text(): string { before + name + after }

    predicate Valid() {
      Blank(before) && Blank(after) && (name == [] || (!IsBlank(name[0]) && !IsBlank(name[|name| - 1])))
    }
  }

  lemma BlankIsSpace(c: char)
    ensures IsBlank(c) <==> IsSpace(c)
  {
  }

  lemma {:induction false} EverySpelling(s: string) returns (sp: Spelling)
    ensures sp.Valid() && sp.Text() == s
  {
    if s == [] {
      sp := Spelling([], [], []);
      return;
    }
    BlankIsSpace(s[0]);
    BlankIsSpace(s[|s| - 1]);
    hide IsBlank, IsSpace;
    if IsSpace(s[0]) {
      sp := EverySpelling(s[1..]);
      MoreBefore(s, sp);
      sp := sp.(before := [s[0]] + sp.before);
    } else if IsSpace(s[|s| - 1]) {
      sp := EverySpelling(s[..|s| - 1]);
      MoreAfter(s, sp);
      sp := sp.(after := sp.after + [s[|s| - 1]]);
    } else {
      sp := Spelling([], s, []);
      assert sp.Text() == s;
    }
  }

  lemma MoreBefore(s: string, sp: Spelling)
    requires s != [] && IsBlank(s[0]) && sp.Valid() && sp.Text() == s[1..]
    ensures var more := sp.(before := [s[0]] + sp.before); more.Valid() && more.Text() == s
  {
    hide IsBlank;
    assert [s[0]] + sp.before + sp.name + sp.after == [s[0]] + sp.Text();
  }

  lemma MoreAfter(s: string, sp: Spelling)
    requires s != [] && IsBlank(s[|s| - 1]) && sp.Valid() && sp.Text() == s[..|s| - 1]
    ensures var more := sp.(after := sp.after + [s[|s| - 1]]); more.Valid() && more.Text() == s
  {
    hide IsBlank;
    assert sp.before + sp.name + (sp.after + [s[|s| - 1]]) == sp.Text() + [s[|s| - 1]];
  }

  lemma {:induction false} TrimsBefore(before: string, s: string)
    requires Blank(before)
    ensures TrimSpace(before + s) == TrimSpace(s)
  {
    if before == [] {
      assert before + s == s;
    } else {
      BlankIsSpace(before[0]);
      assert (before + s)[1..] == before[1..] + s;
      TrimsBefore(before[1..], s);
    }
  }

  lemma {:induction false} TrimsAfter(s: string, after: string)
    requires Blank(after) && s != [] && !IsBlank(s[0])
    ensures TrimSpace(s + after) == TrimSpace(s)
    decreases |after|
  {
    if after == [] {
      assert s + after == s;
    } else {
      BlankIsSpace(s[0]);
      BlankIsSpace(after[|after| - 1]);
      assert (s + after)[..|s + after| - 1] == s + after[..|after| - 1];
      TrimsAfter(s, after[..|after| - 1]);
    }
  }

  lemma TrimsToName(sp: Spelling)
    requires sp.Valid()
    ensures TrimSpace(sp.Text()) == sp.name
  {
    hide Blank, TrimSpace, IsSpace, IsBlank;
    assert sp.Text() == sp.before + (sp.name + sp.after);
    TrimsBefore(sp.before, sp.name + sp.after);
    if sp.name == [] {
      assert sp.name + sp.after == sp.after + [];
      TrimsBefore(sp.after, []);
      TrimsNothing([]);
    } else {
      TrimsAfter(sp.name, sp.after);
      TrimsNothing(sp.name);
    }
  }

  lemma TrimsNothing(s: string)
    requires s == [] || (!IsBlank(s[0]) && !IsBlank(s[|s| - 1]))
    ensures TrimSpace(s) == s
  {
    if s != [] {
      BlankIsSpace(s[0]);
      BlankIsSpace(s[|s| - 1]);
    }
  }

  lemma LowerIff(a: char, b: char)
    ensures LowerChar(a) == LowerChar(b) <==> SameLetter(a, b)
  {
  }

  /** Two spellings name the same user if and only if they differ in outer blanks and in the case of letters only. */
  lemma SameNameIff(a: Spelling, b: Spelling)
    requires a.Valid() && b.Valid()
    ensures Normalize(a.Text()) == Normalize(b.Text()) <==> SameLetters(a.name, b.name)
  {
    hide LowerChar, SameLetter;
    TrimsToName(a);
    TrimsToName(b);
    var x, y := ToLower(a.name), ToLower(b.name);
    forall c, d ensures LowerChar(c) == LowerChar(d) <==> SameLetter(c, d) { LowerIff(c, d); }
    if SameLetters(a.name, b.name) {
      assert x == y;
    } else if |x| == |y| {
      var i :| 0 <= i < |x| && !SameLetter(a.name[i], b.name[i]);
      assert x[i] != y[i];
    }
  }

  const HASH_PREFIX := "hash_"
  const HASH_SUFFIX := "_salt"

  function HashPassword(password: string): string { HASH_PREFIX + password + HASH_SUFFIX }

  lemma HashInjective(a: string, b: string)
    ensures HashPassword(a) == HashPassword(b) <==> a == b
  {
    assert HashPassword(a)[|HASH_PREFIX|..|HashPassword(a)| - |HASH_SUFFIX|] == a;
    assert HashPassword(b)[|HASH_PREFIX|..|HashPassword(b)| - |HASH_SUFFIX|] == b;
  }

  // ---- Operations ----

  datatype Op =
    | RegisterUser(username: string, password: string, email: string)
    | LoginUser(username: string, password: string)
    | ValidateToken(token: Token)
    | GetUserByID(id: UserId)
    | UpdateUser(id: UserId, displayName: string, email: string, avatar: string)
    | ChangePassword(id: UserId, oldPassword: string, newPassword: string)
    | InvalidateToken(token: Token)

  /** What the operation finds outside: whether the file can be read and written, and
      the next id, random token part and time. */
  datatype Env = Env(readable: bool, writable: bool, id: UserId, random: string, now: int)

  datatype Error = Unreadable | Unsaved | NameTaken | BadCredentials | BadToken | NoUser | WrongPassword | TooShort

  datatype Reply =
    | Registered(user: User)
    | LoggedIn(token: Token, user: User)
    | Holder(id: UserId)
    | Profile(public: UserPublic)
    | Done
    | Failed(error: Error)

  const MIN_PASSWORD: nat := 4

  function NewUser(username: Name, password: string, email: string, env: Env): User {
    User(env.id, username, HashPassword(password), email, "", username, env.now)
  }

  function NewToken(id: UserId, env: Env): Token { "token_" + id + "_" + env.random }

  predicate PasswordIs(db: UserDB, id: UserId, password: string) {
    id in db.users && db.users[id].passwordHash == HashPassword(password)
  }

  function Updated(u: User, displayName: string, email: string, avatar: string): User {
    u.(displayName := if displayName != "" then displayName else u.displayName,
       email := if email != "" then email else u.email,
       avatar := avatar)
  }

  /** What the file should hold after the operation, if it can be written, and the reply. */
  function Attempt(db: UserDB, op: Op, env: Env): (UserDB, Reply) {
    match op
    case RegisterUser(username, password, email) =>
      var name := Normalize(username);
      if name in db.names then (db, Failed(NameTaken))
      else
        var user := NewUser(name, password, email, env);
        (db.(users := db.users[env.id := user], names := db.names[name := env.id]), Registered(user))
    case LoginUser(username, password) =>
      var name := Normalize(username);
      if name !in db.names || !PasswordIs(db, db.names[name], password) then (db, Failed(BadCredentials))
      else
        var id := db.names[name];
        (db.(tokens := db.tokens[NewToken(id, env) := id]), LoggedIn(NewToken(id, env), db.users[id]))
    case ValidateToken(token) => (db, if token in db.tokens then Holder(db.tokens[token]) else Failed(BadToken))
    case GetUserByID(id) => (db, if id in db.users then Profile(ToPublic(db.users[id])) else Failed(NoUser))
    case UpdateUser(id, displayName, email, avatar) =>
      if id !in db.users then (db, Failed(NoUser))
      else
        var user := Updated(db.users[id], displayName, email, avatar);
        (db.(users := db.users[id := user]), Profile(ToPublic(user)))
    case ChangePassword(id, oldPassword, newPassword) =>
      if id !in db.users then (db, Failed(NoUser))
      else if !PasswordIs(db, id, oldPassword) then (db, Failed(WrongPassword))
      else if |newPassword| < MIN_PASSWORD then (db, Failed(TooShort))
      else (db.(users := db.users[id := db.users[id].(passwordHash := HashPassword(newPassword))]), Done)
    case InvalidateToken(token) => (db.(tokens := db.tokens - {token}), Done)
  }

  /** The operation reaches its save. */
  predicate Saves(db: UserDB, op: Op, env: Env) {
    !op.ValidateToken? && !op.GetUserByID? && !Attempt(db, op, env).1.Failed? && (op.InvalidateToken? ==> op.token in db.tokens)
  }

  function Serve(db: UserDB, op: Op, env: Env): (UserDB, Reply) {
    if !env.readable then (db, Failed(Unreadable))
    else if Saves(db, op, env) && !env.writable then (db, Failed(Unsaved))
    else Attempt(db, op, env)
  }

  // ---- The store ----

  class DB {
    var file: Option<UserDB>

    constructor ()
      ensures Contents() == EMPTY
    {
      file := None;
    }

    function Contents(): UserDB
      reads this
    {
      if file.Some? then file.value else EMPTY
    }

    method LoadUserDB(env: Env) returns (udb: Option<UserDB>)
      ensures udb == if env.readable then Some(Contents()) else None
    {
      if !env.readable { return None; }
      udb := Some(Contents());
    }

    method SaveUserDB(udb: UserDB, env: Env) returns (ok: bool)
      modifies this
      ensures ok == env.writable && Contents() == if ok then udb else old(Contents())
    {
      if env.writable {
        file := Some(udb);
      }
      ok := env.writable;
    }

    method RegisterUser(username: string, password: string, email: string, env: Env) returns (reply: Reply)
      modifies this
      ensures (Contents(), reply) == Serve(old(Contents()), Op.RegisterUser(username, password, email), env)
    {
      var name := Normalize(username);
      var loaded := LoadUserDB(env);
      if loaded.None? { return Failed(Unreadable); }
      var udb := loaded.value;
      if name in udb.names { return Failed(NameTaken); }
      var user := User(env.id, name, HashPassword(password), email, "", name, env.now);
      udb := udb.(users := udb.users[env.id := user]);
      udb := udb.(names := udb.names[name := env.id]);
      var ok := SaveUserDB(udb, env);
      reply := if ok then Registered(user) else Failed(Unsaved);
    }

    method LoginUser(username: string, password: string, env: Env) returns (reply: Reply)
      modifies this
      ensures (Contents(), reply) == Serve(old(Contents()), Op.LoginUser(username, password), env)
    {
      var name := Normalize(username);
      var loaded := LoadUserDB(env);
      if loaded.None? { return Failed(Unreadable); }
      var udb := loaded.value;
      if name !in udb.names { return Failed(BadCredentials); }
      var id := udb.names[name];
      if id !in udb.users || udb.users[id].passwordHash != HashPassword(password) { return Failed(BadCredentials); }
      var token := "token_" + id + "_" + env.random;
      udb := udb.(tokens := udb.tokens[token := id]);
      var ok := SaveUserDB(udb, env);
      reply := if ok then LoggedIn(token, udb.users[id]) else Failed(Unsaved);
    }

    method ValidateToken(token: Token, env: Env) returns (reply: Reply)
      ensures (Contents(), reply) == Serve(Contents(), Op.ValidateToken(token), env)
    {
      var loaded := LoadUserDB(env);
      if loaded.None? { return Failed(Unreadable); }
      if token !in loaded.value.tokens { return Failed(BadToken); }
      reply := Holder(loaded.value.tokens[token]);
    }

    method GetUserByID(id: UserId, env: Env) returns (reply: Reply)
      ensures (Contents(), reply) == Serve(Contents(), Op.GetUserByID(id), env)
    {
      var loaded := LoadUserDB(env);
      if loaded.None? { return Failed(Unreadable); }
      if id !in loaded.value.users { return Failed(NoUser); }
      reply := Profile(ToPublic(loaded.value.users[id]));
    }

    method UpdateUser(id: UserId, displayName: string, email: string, avatar: string, env: Env) returns (reply: Reply)
      modifies this
      ensures (Contents(), reply) == Serve(old(Contents()), Op.UpdateUser(id, displayName, email, avatar), env)
    {
      var loaded := LoadUserDB(env);
      if loaded.None? { return Failed(Unreadable); }
      var udb := loaded.value;
      if id !in udb.users { return Failed(NoUser); }
      var user := udb.users[id];
      if displayName != "" {
        user := user.(displayName := displayName);
      }
      if email != "" {
        user := user.(email := email);
      }
      user := user.(avatar := avatar);
      udb := udb.(users := udb.users[id := user]);
      var ok := SaveUserDB(udb, env);
      reply := if ok then Profile(ToPublic(user)) else Failed(Unsaved);
    }

    method ChangePassword(id: UserId, oldPassword: string, newPassword: string, env: Env) returns (reply: Reply)
      modifies this
      ensures (Contents(), reply) == Serve(old(Contents()), Op.ChangePassword(id, oldPassword, newPassword), env)
    {
      var loaded := LoadUserDB(env);
      if loaded.None? { return Failed(Unreadable); }
      var udb := loaded.value;
      if id !in udb.users { return Failed(NoUser); }
      var user := udb.users[id];
      if user.passwordHash != HashPassword(oldPassword) { return Failed(WrongPassword); }
      if |newPassword| < MIN_PASSWORD { return Failed(TooShort); }
      user := user.(passwordHash := HashPassword(newPassword));
      udb := udb.(users := udb.users[id := user]);
      var ok := SaveUserDB(udb, env);
      reply := if ok then Done else Failed(Unsaved);
    }

    method InvalidateToken(token: Token, env: Env) returns (reply: Reply)
      modifies this
      ensures (Contents(), reply) == Serve(old(Contents()), Op.InvalidateToken(token), env)
    {
      var loaded := LoadUserDB(env);
      if loaded.None? { return Failed(Unreadable); }
      var udb := loaded.value;
      if token !in udb.tokens {
        assert udb.tokens - {token} == udb.tokens;
        return Done;
      }
      udb := udb.(tokens := udb.tokens - {token});
      var ok := SaveUserDB(udb, env);
      reply := if ok then Done else Failed(Unsaved);
    }
  }

  // ---- What the clients have been told ----

  /** Everything a bystander who sees only operations and replies can note down:
      registered names, the last password accepted for each user, the tokens out. */
  datatype Ledger = Ledger(names: map<Name, UserId>, passwords: map<UserId, string>, tokens: map<Token, UserId>)

  function Note(l: Ledger, op: Op, reply: Reply): Ledger {
    if op.RegisterUser? && reply.Registered? then
      l.(names := l.names[Normalize(op.username) := reply.user.id], passwords := l.passwords[reply.user.id := op.password])
    else if op.LoginUser? && reply.LoggedIn? then l.(tokens := l.tokens[reply.token := reply.user.id])
    else if op.ChangePassword? && reply.Done? then l.(passwords := l.passwords[op.id := op.newPassword])
    else if op.InvalidateToken? && reply.Done? then l.(tokens := l.tokens - {op.token})
    else l
  }

  /** Names and users are mutually inverse, on normalized names. */
  ghost predicate Inverse(db: UserDB) {
    && (forall name :: name in db.names ==> db.names[name] in db.users && db.users[db.names[name]].username == name)
    && (forall id :: id in db.users ==>
          && db.users[id].id == id && Normalize(db.users[id].username) == db.users[id].username
          && db.users[id].username in db.names && db.names[db.users[id].username] == id)
  }

  /** The file agrees with the ledger, every token belongs to a user, names and users agree. */
  ghost predicate Agrees(db: UserDB, l: Ledger) {
    && Inverse(db)
    && db.names == l.names && db.tokens == l.tokens
    && db.users.Keys == l.passwords.Keys
    && (forall id :: id in db.users ==> db.users[id].passwordHash == HashPassword(l.passwords[id]))
    && (forall token :: token in db.tokens ==> db.tokens[token] in db.users)
  }

  /** A new user's id is one not used yet. */
  predicate FreshId(db: UserDB, op: Op, env: Env) { op.RegisterUser? ==> env.id !in db.users }

  lemma RegisterAgrees(db: UserDB, l: Ledger, username: string, password: string, email: string, env: Env)
    requires Agrees(db, l) && env.id !in db.users && Normalize(username) !in db.names
    ensures var op := Op.RegisterUser(username, password, email);
            var (db', reply) := Attempt(db, op, env);
            Agrees(db', Note(l, op, reply))
  {
    hide Normalize, HashPassword;
    NormalizeOnce(username);
  }

  /** A user's record changes in place, not its id or name. */
  lemma EditAgrees(db: UserDB, l: Ledger, id: UserId, user: User, password: string)
    requires Agrees(db, l) && id in db.users
    requires user.id == id && user.username == db.users[id].username && user.passwordHash == HashPassword(password)
    ensures Agrees(db.(users := db.users[id := user]), l.(passwords := l.passwords[id := password]))
  {
    hide Normalize, HashPassword;
  }

  lemma LoginAgrees(db: UserDB, l: Ledger, token: Token, id: UserId)
    requires Agrees(db, l) && id in db.users
    ensures Agrees(db.(tokens := db.tokens[token := id]), l.(tokens := l.tokens[token := id]))
  {
    hide Normalize, HashPassword;
  }

  lemma LogoutAgrees(db: UserDB, l: Ledger, token: Token)
    requires Agrees(db, l)
    ensures Agrees(db.(tokens := db.tokens - {token}), l.(tokens := l.tokens - {token}))
  {
    hide Normalize, HashPassword;
  }

  lemma AgreeingRecord(db: UserDB, l: Ledger, id: UserId)
    requires Agrees(db, l)
    ensures id in db.users <==> id in l.passwords
    ensures id in db.users ==> db.users[id].id == id && db.users[id].passwordHash == HashPassword(l.passwords[id])
                               && l.passwords[id := l.passwords[id]] == l.passwords
    ensures forall name :: name in db.names ==> db.names[name] in db.users
  {
    hide Normalize, HashPassword;
  }

  lemma AttemptAgrees(db: UserDB, l: Ledger, op: Op, env: Env)
    requires Agrees(db, l) && FreshId(db, op, env)
    ensures var (db', reply) := Attempt(db, op, env);
            Agrees(db', Note(l, op, reply))
  {
    hide Agrees, Normalize, HashPassword;
    match op {
      case RegisterUser(username, password, email) =>
        if Normalize(username) !in db.names { RegisterAgrees(db, l, username, password, email, env); }
      case LoginUser(username, password) =>
        if Normalize(username) in db.names {
          var id := db.names[Normalize(username)];
          AgreeingRecord(db, l, id);
          LoginAgrees(db, l, NewToken(id, env), id);
        }
      case UpdateUser(id, displayName, email, avatar) =>
        AgreeingRecord(db, l, id);
        if id in db.users { EditAgrees(db, l, id, Updated(db.users[id], displayName, email, avatar), l.passwords[id]); }
      case ChangePassword(id, _, newPassword) =>
        AgreeingRecord(db, l, id);
        if id in db.users { EditAgrees(db, l, id, db.users[id].(passwordHash := HashPassword(newPassword)), newPassword); }
      case InvalidateToken(token) => LogoutAgrees(db, l, token);
      case _ =>
    }
  }

  lemma ServeAgrees(db: UserDB, l: Ledger, op: Op, env: Env)
    requires Agrees(db, l) && FreshId(db, op, env)
    ensures var (db', reply) := Serve(db, op, env);
            Agrees(db', Note(l, op, reply))
  {
    hide Agrees, Attempt;
    AttemptAgrees(db, l, op, env);
  }

  // ---- Whole histories ----

  datatype Call = Call(op: Op, env: Env)

  function After(calls: seq<Call>): (UserDB, Ledger) {
    if calls == [] then (EMPTY, Ledger(map[], map[], map[]))
    else
      var (db, l) := After(calls[..|calls| - 1]);
      var call := calls[|calls| - 1];
      var (db', reply) := Serve(db, call.op, call.env);
      (db', Note(l, call.op, reply))
  }

  ghost predicate FreshIds(calls: seq<Call>) {
    forall i :: 0 <= i < |calls| ==> FreshId(After(calls[..i]).0, calls[i].op, calls[i].env)
  }

  lemma {:induction false} HistoryAgrees(calls: seq<Call>)
    requires FreshIds(calls)
    ensures Agrees(After(calls).0, After(calls).1)
    decreases |calls|
  {
    if calls != [] {
      var init := calls[..|calls| - 1];
      forall i | 0 <= i < |init| ensures FreshId(After(init[..i]).0, init[i].op, init[i].env) {
        assert init[..i] == calls[..i];
      }
      HistoryAgrees(init);
      assert FreshId(After(calls[..|calls| - 1]).0, calls[|calls| - 1].op, calls[|calls| - 1].env);
      ServeAgrees(After(init).0, After(init).1, calls[|calls| - 1].op, calls[|calls| - 1].env);
    }
  }

  /** Login. After any history, a login succeeds exactly with a registered name, in any
      spelling that normalizes to it, and the last password accepted for its user. */
  lemma LoginIffLastPassword(calls: seq<Call>, username: string, password: string, env: Env)
    requires FreshIds(calls)
    ensures var (db, l) := After(calls);
            var reply := Serve(db, Op.LoginUser(username, password), env).1;
            var name := Normalize(username);
            && (reply.LoggedIn? <==>
                  env.readable && env.writable && name in l.names && l.names[name] in l.passwords && l.passwords[l.names[name]] == password)
            && (reply.LoggedIn? ==> reply.user.id == l.names[name])
  {
    hide Normalize, HashPassword;
    HistoryAgrees(calls);
    var (db, l) := After(calls);
    var name := Normalize(username);
    if name in l.names {
      HashInjective(password, l.passwords[l.names[name]]);
    }
  }

  /** Tokens. After any history a token validates, as the user it was issued to, exactly
      if it is out: issued by a login and not given back since. */
  lemma ValidIffOut(calls: seq<Call>, token: Token, env: Env)
    requires FreshIds(calls)
    ensures var (db, l) := After(calls);
            var reply := Serve(db, Op.ValidateToken(token), env).1;
            && (reply.Holder? <==> env.readable && token in l.tokens)
            && (reply.Holder? ==> reply.id == l.tokens[token] && reply.id in db.users)
  {
    hide Normalize, HashPassword;
    HistoryAgrees(calls);
  }

  /** A name can be registered exactly once, whatever its spelling. */
  lemma RegisterIffFree(calls: seq<Call>, username: string, password: string, email: string, env: Env)
    requires FreshIds(calls)
    ensures var (db, l) := After(calls);
            Serve(db, Op.RegisterUser(username, password, email), env).1.Registered?
            <==> env.readable && env.writable && forall id :: id in db.users ==> db.users[id].username != Normalize(username)
  {
    hide Normalize, HashPassword;
    HistoryAgrees(calls);
  }

  /** A password changes exactly when the last one is given and the new one is long enough;
      from then on only the new one logs in. */
  lemma ChangedPasswordReplaces(calls: seq<Call>, id: UserId, oldPassword: string, newPassword: string, other: string, env: Env)
    requires FreshIds(calls)
    ensures var (db, l) := After(calls);
            var (db', reply) := Serve(db, Op.ChangePassword(id, oldPassword, newPassword), env);
            && (reply.Done? <==>
                  && env.readable && env.writable
                  && id in l.passwords && l.passwords[id] == oldPassword && |newPassword| >= 4)
            && (reply.Done? ==> (PasswordIs(db', id, other) <==> other == newPassword))
            && (!reply.Done? ==> db' == db)
  {
    hide Normalize, HashPassword;
    HistoryAgrees(calls);
    var (db, l) := After(calls);
    if id in l.passwords { HashInjective(oldPassword, l.passwords[id]); }
    HashInjective(other, newPassword);
  }

  /** A profile update is read back, follows the rules for empty fields, and touches
      no password, name, token or other user. */
  lemma UpdateIsReadBack(db: UserDB, id: UserId, displayName: string, email: string, avatar: string, env: Env, other: UserId, later: Env)
    requires later.readable
    ensures var (db', reply) := Serve(db, Op.UpdateUser(id, displayName, email, avatar), env);
            && (reply.Profile? <==> env.readable && env.writable && id in db.users)
            && (reply.Profile? ==>
                  && Serve(db', Op.GetUserByID(id), later).1 == reply
                  && reply.public.avatar == avatar
                  && reply.public.displayName == (if displayName == "" then db.users[id].displayName else displayName)
                  && reply.public.email == (if email == "" then db.users[id].email else email)
                  && db'.users[id].passwordHash == db.users[id].passwordHash && db'.users[id].username == db.users[id].username)
            && db'.names == db.names && db'.tokens == db.tokens
            && (other != id ==> Serve(db', Op.GetUserByID(other), later).1 == Serve(db, Op.GetUserByID(other), later).1)
  {
  }

  /** Registration. An accepted registration is read back with the very email, and logs in with the password, in any
      spelling that differs in outer blanks and case only, and with no other password. */
  lemma RegistrationIsReadBack(calls: seq<Call>, a: Spelling, b: Spelling, password: string, other: string, email: string, env: Env, later: Env)
    requires FreshIds(calls) && a.Valid() && b.Valid() && SameLetters(a.name, b.name)
    requires FreshId(After(calls).0, Op.RegisterUser(a.Text(), password, email), env) && later.readable && later.writable
    ensures var (db, reply) := Serve(After(calls).0, Op.RegisterUser(a.Text(), password, email), env);
            reply.Registered? ==>
              && Serve(db, Op.GetUserByID(env.id), later).1
                 == Profile(UserPublic(env.id, Normalize(a.Text()), email, "", Normalize(a.Text()), env.now))
              && (Serve(db, Op.LoginUser(b.Text(), other), later).1.LoggedIn? <==> other == password)
              && (other == password ==> Serve(db, Op.LoginUser(b.Text(), other), later).1.user.id == env.id)
              && Serve(db, Op.RegisterUser(b.Text(), other, email), later).1 == Failed(NameTaken)
  {
    hide Normalize, HashPassword;
    SameNameIff(a, b);
    HashInjective(other, password);
  }

  lemma NewTokenTold(id: UserId, other: UserId, env: Env, later: Env)
    requires |id| == |other|
    ensures NewToken(id, env) == NewToken(other, later) <==> id == other && env.random == later.random
  {
    var a, b := NewToken(id, env), NewToken(other, later);
    assert a[6..6 + |id|] == id && b[6..6 + |other|] == other;
    assert a[7 + |id|..] == env.random && b[7 + |other|..] == later.random;
  }

  /** Sessions are independent. After any history, logging in again, as the same user or another, with another random
      part, gives another token, and giving that one back leaves the first one valid. Ids are of one length. */
  lemma LogoutEndsOneSession(db: UserDB, a: string, p: string, b: string, q: string, env: Env, env': Env, out: Env, later: Env)
    requires env.random != env'.random && later.readable
    requires Serve(db, Op.LoginUser(a, p), env).1.LoggedIn?
    requires Serve(Serve(db, Op.LoginUser(a, p), env).0, Op.LoginUser(b, q), env').1.LoggedIn?
    requires Normalize(a) in db.names && Normalize(b) in db.names ==> |db.names[Normalize(a)]| == |db.names[Normalize(b)]|
    ensures var (db1, first) := Serve(db, Op.LoginUser(a, p), env);
            var (db2, second) := Serve(db1, Op.LoginUser(b, q), env');
            var (db3, _) := Serve(db2, Op.InvalidateToken(second.token), out);
            && second.token != first.token
            && Serve(db3, Op.ValidateToken(first.token), later).1 == Holder(db.names[Normalize(a)])
  {
    hide Normalize, HashPassword, NewToken;
    NewTokenTold(db.names[Normalize(a)], db.names[Normalize(b)], env, env');
  }

  /** Why an operation fails. The file comes first; then a taken name, credentials that do not fit for whatever
      reason, a token or user there is not, a wrong old password, a new one of
      fewer than four bytes; and what passes all that fails only if it cannot be saved. */
  predicate FailsWith(db: UserDB, op: Op, env: Env, e: Error) {
    match e
    case Unreadable => !env.readable
    case NameTaken => env.readable && op.RegisterUser? && Normalize(op.username) in db.names
    case BadCredentials =>
      env.readable && op.LoginUser? &&
      (Normalize(op.username) !in db.names || !PasswordIs(db, db.names[Normalize(op.username)], op.password))
    case BadToken => env.readable && op.ValidateToken? && op.token !in db.tokens
    case NoUser => env.readable && (op.GetUserByID? || op.UpdateUser? || op.ChangePassword?) && op.id !in db.users
    case WrongPassword => env.readable && op.ChangePassword? && op.id in db.users && !PasswordIs(db, op.id, op.oldPassword)
    case TooShort => env.readable && op.ChangePassword? && PasswordIs(db, op.id, op.oldPassword) && |op.newPassword| < 4
    case Unsaved =>
      && env.readable && !env.writable
      && match op
         case RegisterUser(username, _, _) => Normalize(username) !in db.names
         case LoginUser(username, password) =>
           Normalize(username) in db.names && PasswordIs(db, db.names[Normalize(username)], password)
         case UpdateUser(id, _, _, _) => id in db.users
         case ChangePassword(id, oldPassword, newPassword) => PasswordIs(db, id, oldPassword) && |newPassword| >= 4
         case InvalidateToken(token) => token in db.tokens
         case _ => false
  }

  lemma FailuresAre(db: UserDB, op: Op, env: Env, e: Error)
    ensures Serve(db, op, env).1 == Failed(e) <==> FailsWith(db, op, env, e)
  {
    hide Normalize, HashPassword;
  }

  /** What cannot be saved has not happened, and what failed has not either. */
  lemma FailureChangesNothing(db: UserDB, op: Op, env: Env)
    ensures Serve(db, op, env).1.Failed? ==> Serve(db, op, env).0 == db
    ensures !env.writable ==> Serve(db, op, env).0 == db
  {
    if op.InvalidateToken? && op.token !in db.tokens {
      assert db.tokens - {op.token} == db.tokens;
    }
  }
}
