/**
 Sessions kept twice: in memory by token, and in a table by the token's digest. `Perform` is one call of
 the session store, with every database access succeeding or failing as the operation says; `Consult` is
 what the table alone would answer. The wall clock and the monotonic clock are taken to advance together.
 */
module AuthSessions {
  import opened Basics

  type Token = nat
  type User = nat

  /** Digests are injective. */
  datatype Digest = Digest(of: Token)

  datatype Session = Session(expiry: int, user: User)

  const SESSION_DURATION: int := 24 * 60 * 60 * 1000

  datatype Auth = Auth(cache: map<Token, Session>, table: map<Digest, Session>, users: set<User>)

  datatype Operation =
    | Create(token: Token, user: User, now: int, writes: bool)
    | Lookup(token: Token, now: int, readsTable: bool, readsUser: bool, deletes: bool)
    | Invalidate(token: Token, deletes: bool)
    | InvalidateUser(user: User, deletes: bool)
    | ClearAll(deletes: bool)
    | Cleanup(now: int, deletes: bool)
    | AddUser(user: User)
    | RemoveUser(user: User, cascades: bool)
    | RevokeInTable(user: User)
    | Restart

  datatype Effect = Effect(auth: Auth, answer: Option<User>)

  /** The answer of the session and user tables alone. */
  function Consult(table: map<Digest, Session>, users: set<User>, token: Token, now: int): Option<User> {
    var d := Digest(token);
    if d in table && table[d].expiry > now && table[d].user in users then Some(table[d].user) else None
  }

  function WithoutUser<K>(m: map<K, Session>, user: User): map<K, Session> {
    map k | k in m && m[k].user != user :: m[k]
  }

  function Unexpired<K>(m: map<K, Session>, now: int): map<K, Session> {
    map k | k in m && m[k].expiry > now :: m[k]
  }

  function Drop(a: Auth, token: Token, deletes: bool): Auth {
    if deletes then a.(cache := a.cache - {token}, table := a.table - {Digest(token)}) else a
  }

  function ExtractUserId(a: Auth, token: Token, now: int, readsTable: bool, readsUser: bool, deletes: bool): Effect {
    var d := Digest(token);
    if token in a.cache && a.cache[token].expiry > now then
      if readsUser && a.cache[token].user in a.users then Effect(a, Some(a.cache[token].user))
      else Effect(Drop(a, token, deletes), None)
    else if readsTable && d in a.table && a.table[d].expiry > now then
      if readsUser && a.table[d].user in a.users
      then Effect(a.(cache := a.cache[token := a.table[d]]), Some(a.table[d].user))
      else Effect(a.(table := if deletes then a.table - {d} else a.table), None)
    else Effect(a, None)
  }

  function Perform(a: Auth, op: Operation): Effect {
    match op
    case Create(token, user, now, writes) =>
      var s := Session(now + SESSION_DURATION, user);
      Effect(if writes then a.(table := a.table[Digest(token) := s], cache := a.cache[token := s]) else a, None)
    case Lookup(token, now, readsTable, readsUser, deletes) =>
      ExtractUserId(a, token, now, readsTable, readsUser, deletes)
    case Invalidate(token, deletes) => Effect(Drop(a, token, deletes), None)
    case InvalidateUser(user, deletes) =>
      Effect(if deletes
             then a.(table := WithoutUser(a.table, user), cache := WithoutUser(a.cache, user)) else a, None)
    case ClearAll(deletes) => Effect(if deletes then a.(table := map[], cache := map[]) else a, None)
    case Cleanup(now, deletes) =>
      Effect(a.(cache := Unexpired(a.cache, now),
                table := if deletes then Unexpired(a.table, now) else a.table), None)
    case AddUser(user) => Effect(a.(users := a.users + {user}), None)
    case RemoveUser(user, cascades) =>
      Effect(a.(users := a.users - {user},
                table := if cascades then WithoutUser(a.table, user) else a.table), None)
    case RevokeInTable(user) => Effect(a.(table := WithoutUser(a.table, user)), None)
    case Restart => Effect(a.(cache := map[]), None)
  }

  /** The session store, updated in place; the database is the part that survives a restart. */
  class AuthState {
    var sessions: map<Token, Session>
    var table: map<Digest, Session>
    var users: set<User>

    ghost function Value(): Auth
      reads this
    {
      Auth(sessions, table, users)
    }

    constructor (table: map<Digest, Session>, users: set<User>)
      ensures Value() == Auth(map[], table, users)
    {
      this.sessions, this.table, this.users := map[], table, users;
    }

    method CreateSession(token: Token, user: User, now: int, writes: bool) returns (ok: bool)
      modifies this
      ensures Value() == Perform(old(Value()), Create(token, user, now, writes)).auth
      ensures ok == writes
    {
      if !writes {
        return false;
      }
      table := table[Digest(token) := Session(now + SESSION_DURATION, user)];
      sessions := sessions[token := Session(now + SESSION_DURATION, user)];
      ok := true;
    }

    method UserOf(token: Token, now: int, readsTable: bool, readsUser: bool, deletes: bool)
      returns (answer: Option<User>)
      modifies this
      ensures Effect(Value(), answer) == ExtractUserId(old(Value()), token, now, readsTable, readsUser, deletes)
    {
      var cached := None;
      if token in sessions {
        var data := sessions[token];
        if data.expiry > now {
          cached := Some(data.user);
        }
      }
      if cached.Some? {
        if readsUser && cached.value in users {
          return cached;
        }
        var _ := InvalidateToken(token, deletes);
        return None;
      }
      var d := Digest(token);
      if readsTable && d in table && table[d].expiry > now {
        if readsUser && table[d].user in users {
          var remaining := table[d].expiry - now;
          sessions := sessions[token := Session(now + remaining, table[d].user)];
          return Some(table[d].user);
        }
        if deletes {
          table := table - {d};
        }
      }
      answer := None;
    }

    method InvalidateToken(token: Token, deletes: bool) returns (ok: bool)
      modifies this
      ensures Value() == Perform(old(Value()), Invalidate(token, deletes)).auth
      ensures ok == deletes
    {
      if !deletes {
        return false;
      }
      table := table - {Digest(token)};
      sessions := sessions - {token};
      ok := true;
    }

    method InvalidateUserSessions(user: User, deletes: bool) returns (ok: bool)
      modifies this
      ensures Value() == Perform(old(Value()), InvalidateUser(user, deletes)).auth
      ensures ok == deletes
    {
      if !deletes {
        return false;
      }
      table := map d | d in table && table[d].user != user :: table[d];
      sessions := map t | t in sessions && sessions[t].user != user :: sessions[t];
      ok := true;
    }

    method ClearAllSessions(deletes: bool) returns (ok: bool)
      modifies this
      ensures Value() == Perform(old(Value()), ClearAll(deletes)).auth
      ensures ok == deletes
    {
      if !deletes {
        return false;
      }
      table, sessions := map[], map[];
      ok := true;
    }

    method CleanupExpired(now: int, deletes: bool)
      modifies this
      ensures Value() == Perform(old(Value()), Cleanup(now, deletes)).auth
    {
      sessions := map t | t in sessions && sessions[t].expiry > now :: sessions[t];
      if deletes {
        table := map d | d in table && table[d].expiry > now :: table[d];
      }
    }
  }

  /** The same operations on the tables alone, without a cache. */
  datatype Tables = Tables(table: map<Digest, Session>, users: set<User>)

  function PerformOnTables(t: Tables, op: Operation): Tables {
    match op
    case Create(token, user, now, writes) =>
      if writes then t.(table := t.table[Digest(token) := Session(now + SESSION_DURATION, user)]) else t
    case Lookup(_, _, _, _, _) => t
    case Invalidate(token, deletes) => if deletes then t.(table := t.table - {Digest(token)}) else t
    case InvalidateUser(user, deletes) => if deletes then t.(table := WithoutUser(t.table, user)) else t
    case ClearAll(deletes) => if deletes then t.(table := map[]) else t
    case Cleanup(now, deletes) => if deletes then t.(table := Unexpired(t.table, now)) else t
    case AddUser(user) => t.(users := t.users + {user})
    case RemoveUser(user, cascades) =>
      Tables(if cascades then WithoutUser(t.table, user) else t.table, t.users - {user})
    case RevokeInTable(user) => t.(table := WithoutUser(t.table, user))
    case Restart => t
  }

  function RunAuth(a: Auth, ops: seq<Operation>): Auth {
    if ops == [] then a else Perform(RunAuth(a, ops[..|ops| - 1]), ops[|ops| - 1]).auth
  }

  function RunTables(t: Tables, ops: seq<Operation>): Tables {
    if ops == [] then t else PerformOnTables(RunTables(t, ops[..|ops| - 1]), ops[|ops| - 1])
  }

  /** User ids that the run has ever had to do with; ids of removed users are never given out again. */
  function Known(t: Tables, ops: seq<Operation>): set<User> {
    if ops == [] then t.users + (set d | d in t.table :: t.table[d].user) else
    var before, op := Known(t, ops[..|ops| - 1]), ops[|ops| - 1];
    if op.AddUser? || op.Create? then before + {op.user} else before
  }

  /** Reads succeed, user ids are new when added, and no session is revoked behind the cache's back. */
  predicate Ordinary(a: Auth, known: set<User>, op: Operation) {
    match op
    case Lookup(_, _, readsTable, readsUser, _) => readsTable && readsUser
    case AddUser(user) => user !in known
    case RevokeInTable(user) => !CachesUser(a, user)
    case _ => true
  }

  predicate CachesUser(a: Auth, user: User) {
    user in a.users && exists t :: t in a.cache && a.cache[t].user == user
  }

  predicate OrdinaryRun(a: Auth, ops: seq<Operation>) {
    ops == [] ||
    var before := ops[..|ops| - 1];
    && OrdinaryRun(a, before)
    && Ordinary(RunAuth(a, before), Known(Tables(a.table, a.users), before), ops[|ops| - 1])
  }

  /** The cached store and the tables differ only in sessions of users that no longer exist. */
  ghost predicate Mirrors(a: Auth, t: Tables, known: set<User>) {
    && a.users == t.users && a.users <= known
    && (forall d :: d in t.table ==> t.table[d].user in known)
    && (forall d :: d in a.table ==> d in t.table && a.table[d] == t.table[d])
    && (forall d :: d in t.table && d !in a.table ==> t.table[d].user !in t.users)
    && (forall k :: k in a.cache ==>
          && a.cache[k].user in known
          && (Digest(k) in t.table ==> t.table[Digest(k)] == a.cache[k])
          && (a.cache[k].user in a.users ==> Digest(k) in a.table))
  }

  lemma MirrorsStep(a: Auth, t: Tables, known: set<User>, op: Operation)
    requires Mirrors(a, t, known) && Ordinary(a, known, op)
    ensures Mirrors(Perform(a, op).auth, PerformOnTables(t, op),
                    if op.AddUser? || op.Create? then known + {op.user} else known)
    ensures op.Lookup? ==> Perform(a, op).answer == Consult(t.table, t.users, op.token, op.now)
  {
  }

  lemma {:induction false} CacheMirrorsTables(a: Auth, ops: seq<Operation>)
    requires a.cache == map[] && OrdinaryRun(a, ops)
    ensures var t := Tables(a.table, a.users);
            Mirrors(RunAuth(a, ops), RunTables(t, ops), Known(t, ops))
  {
    if ops != [] {
      var t := Tables(a.table, a.users);
      var before := ops[..|ops| - 1];
      CacheMirrorsTables(a, before);
      MirrorsStep(RunAuth(a, before), RunTables(t, before), Known(t, before), ops[|ops| - 1]);
    }
  }

  /** At any point of any such run, a lookup answers exactly as the tables alone would. */
  lemma LookupAnswersAsTables(a: Auth, ops: seq<Operation>, token: Token, now: int, deletes: bool)
    requires a.cache == map[] && OrdinaryRun(a, ops)
    ensures var t := RunTables(Tables(a.table, a.users), ops);
            ExtractUserId(RunAuth(a, ops), token, now, true, true, deletes).answer
              == Consult(t.table, t.users, token, now)
  {
    CacheMirrorsTables(a, ops);
    var t := Tables(a.table, a.users);
    MirrorsStep(RunAuth(a, ops), RunTables(t, ops), Known(t, ops), Lookup(token, now, true, true, deletes));
  }

  predicate Gone(a: Auth, token: Token) {
    token !in a.cache && Digest(token) !in a.table
  }

  /** A token that is gone stays rejected through any run, failures included, that does not issue it anew. */
  lemma {:induction false} InvalidatedStaysRejected(a: Auth, ops: seq<Operation>, token: Token, now: int,
                                                    readsTable: bool, readsUser: bool, deletes: bool)
    requires Gone(a, token) && forall i :: 0 <= i < |ops| ==> !(ops[i].Create? && ops[i].token == token)
    ensures Gone(RunAuth(a, ops), token)
    ensures ExtractUserId(RunAuth(a, ops), token, now, readsTable, readsUser, deletes).answer == None
  {
    if ops != [] {
      InvalidatedStaysRejected(a, ops[..|ops| - 1], token, now, readsTable, readsUser, deletes);
    }
  }

  /**
   A lookup that cannot read the user table treats the user as removed and deletes the session. A session
   that the tables hold valid survives a lookup exactly when the user could be read, or nothing could be
   deleted, or the session table could not be read either and the cache did not have it.
   */
  lemma SessionSurvivesIff(a: Auth, t: Tables, known: set<User>, op: Operation)
    requires op.Lookup? && Mirrors(a, t, known)
    requires Consult(t.table, t.users, op.token, op.now).Some?
    ensures ExtractUserId(Perform(a, op).auth, op.token, op.now, true, true, true).answer.Some?
            <==> op.readsUser || !op.deletes || (!op.readsTable && op.token !in a.cache)
  {
    var d := Digest(op.token);
    assert d in a.table;
  }

  /** A creation, invalidation or clearing whose database access fails changes nothing; a lookup then deletes nothing. */
  lemma FailureChangesNothing(a: Auth, op: Operation)
    ensures op.Create? && !op.writes ==> Perform(a, op).auth == a
    ensures (op.Invalidate? || op.InvalidateUser? || op.ClearAll?) && !op.deletes ==> Perform(a, op).auth == a
    ensures op.Lookup? && !op.deletes ==>
              var b := Perform(a, op).auth;
              b.table == a.table && a.cache.Keys <= b.cache.Keys && b.users == a.users
  {
  }

  /** A session once looked up is remembered: until it expires it is answered even when the table cannot be read. */
  lemma AnsweredWithoutTable(a: Auth, token: Token, now: int, at: int, deletes: bool)
    requires ExtractUserId(a, token, now, true, true, deletes).answer.Some?
    ensures var x := ExtractUserId(a, token, now, true, true, deletes);
            && token in x.auth.cache && x.auth.cache[token].user == x.answer.value
            && (ExtractUserId(x.auth, token, at, false, true, deletes).answer == x.answer
                <==> at < x.auth.cache[token].expiry)
            && (token !in a.cache ==> x.auth.cache[token] == a.table[Digest(token)])
  {
  }

  /**
   Revoking a user's sessions in the table alone leaves a cached session accepted: the answers stay those
   of the tables exactly when no unexpired session of that user is cached.
   */
  lemma TableRevocationIff(a: Auth, t: Tables, known: set<User>, user: User, now: int)
    requires Mirrors(a, t, known) && user in t.users
    ensures var b := Perform(a, RevokeInTable(user)).auth;
            var u := PerformOnTables(t, RevokeInTable(user));
            (forall token :: ExtractUserId(b, token, now, true, true, true).answer
                               == Consult(u.table, u.users, token, now))
            <==> !exists token :: token in a.cache && a.cache[token].user == user && a.cache[token].expiry > now
  {
    var b := Perform(a, RevokeInTable(user)).auth;
    var u := PerformOnTables(t, RevokeInTable(user));
    if token :| token in a.cache && a.cache[token].user == user && a.cache[token].expiry > now {
      assert ExtractUserId(b, token, now, true, true, true).answer == Some(user);
      assert Consult(u.table, u.users, token, now) == None;
    } else {
      forall token
        ensures ExtractUserId(b, token, now, true, true, true).answer == Consult(u.table, u.users, token, now)
      {
        assert token in a.cache ==> a.cache[token].user != user || a.cache[token].expiry <= now;
      }
    }
  }

  // ---- Cleanup ----

  /** The two maps hold the same sessions that are still valid at `now`. */
  ghost predicate SameLive<K>(m: map<K, Session>, n: map<K, Session>, now: int) {
    && (forall k :: k in m && m[k].expiry > now ==> k in n && n[k] == m[k])
    && (forall k :: k in n && n[k].expiry > now ==> k in m && m[k] == n[k])
  }

  ghost predicate AlikeAt(a: Auth, b: Auth, now: int) {
    a.users == b.users && SameLive(a.cache, b.cache, now) && SameLive(a.table, b.table, now)
  }

  /**
   A cleanup loses no valid session and leaves no expired one, in the table if it could be written; from
   then on no question is answered differently, by the tables alone or through the cache.
   */
  lemma CleanupLosesNothingValid(a: Auth, now: int, deletes: bool)
    ensures var b := Perform(a, Cleanup(now, deletes)).auth;
            && AlikeAt(a, b, now)
            && (forall k :: k in b.cache ==> b.cache[k].expiry > now)
            && (forall d :: d in b.table ==> !deletes || b.table[d].expiry > now)
            && (forall token, at :: at >= now ==>
                  Consult(b.table, b.users, token, at) == Consult(a.table, a.users, token, at))
            && (forall token, at, r, u, d :: at >= now ==>
                  ExtractUserId(b, token, at, r, u, d).answer == ExtractUserId(a, token, at, r, u, d).answer)
  {
  }

  function TimeOf(op: Operation): Option<int> {
    match op
    case Create(_, _, now, _) => Some(now)
    case Lookup(_, now, _, _, _) => Some(now)
    case Cleanup(now, _) => Some(now)
    case _ => None
  }

  /** The clock never goes back, and shows at most `at` in the end. */
  predicate Timely(ops: seq<Operation>, at: int) {
    ops == [] ||
    var now := TimeOf(ops[|ops| - 1]).GetOr(at);
    now <= at && Timely(ops[..|ops| - 1], now)
  }

  function WithoutCleanups(ops: seq<Operation>): seq<Operation> {
    if ops == [] then [] else
    WithoutCleanups(ops[..|ops| - 1]) + if ops[|ops| - 1].Cleanup? then [] else [ops[|ops| - 1]]
  }

  lemma AlikeLater(a: Auth, b: Auth, now: int, at: int)
    requires AlikeAt(a, b, now) && now <= at
    ensures AlikeAt(a, b, at)
  {
  }

  /** Stores alike at the time of a lookup answer alike and stay alike. */
  lemma AlikeLookup(a: Auth, b: Auth, token: Token, now: int, r: bool, u: bool, d: bool)
    requires AlikeAt(a, b, now)
    ensures var x, y := ExtractUserId(a, token, now, r, u, d), ExtractUserId(b, token, now, r, u, d);
            x.answer == y.answer && AlikeAt(x.auth, y.auth, now)
  {
  }

  lemma AlikeStep(a: Auth, b: Auth, op: Operation, now: int)
    requires AlikeAt(a, b, now) && !op.Lookup?
    ensures AlikeAt(Perform(a, op).auth, Perform(b, op).auth, now)
  {
  }

  lemma AlikeCleanup(a: Auth, b: Auth, now: int, deletes: bool)
    requires AlikeAt(a, b, now)
    ensures AlikeAt(Perform(a, Cleanup(now, deletes)).auth, b, now)
  {
  }

  /** One operation on a store, and on one that is spared cleanups. */
  lemma AlikeAfter(a: Auth, b: Auth, op: Operation, now: int)
    requires AlikeAt(a, b, now) && (TimeOf(op).Some? ==> TimeOf(op).value == now)
    ensures AlikeAt(Perform(a, op).auth, if op.Cleanup? then b else Perform(b, op).auth, now)
  {
    match op
    case Lookup(token, _, r, u, d) => AlikeLookup(a, b, token, now, r, u, d);
    case Cleanup(_, deletes) => AlikeCleanup(a, b, now, deletes);
    case _ => AlikeStep(a, b, op, now);
  }

  /**
   Over every run with a clock that never goes back, with any reads and writes failing, leaving out all
   cleanups changes no answer.
   */
  lemma {:induction false} CleanupsChangeNoAnswer(a: Auth, ops: seq<Operation>, at: int)
    requires Timely(ops, at)
    ensures AlikeAt(RunAuth(a, ops), RunAuth(a, WithoutCleanups(ops)), at)
    ensures forall token, r, u, d ::
              ExtractUserId(RunAuth(a, ops), token, at, r, u, d).answer
              == ExtractUserId(RunAuth(a, WithoutCleanups(ops)), token, at, r, u, d).answer
    decreases |ops|
  {
    if ops != [] {
      var before, op := ops[..|ops| - 1], ops[|ops| - 1];
      var now := TimeOf(op).GetOr(at);
      CleanupsChangeNoAnswer(a, before, now);
      AlikeAfter(RunAuth(a, before), RunAuth(a, WithoutCleanups(before)), op, now);
      var rest := WithoutCleanups(ops);
      if op.Cleanup? {
        assert rest == WithoutCleanups(before);
      } else {
        assert rest[..|rest| - 1] == WithoutCleanups(before);
      }
      AlikeLater(RunAuth(a, ops), RunAuth(a, rest), now, at);
    }
    forall token, r, u, d
      ensures ExtractUserId(RunAuth(a, ops), token, at, r, u, d).answer
              == ExtractUserId(RunAuth(a, WithoutCleanups(ops)), token, at, r, u, d).answer
    {
      AlikeLookup(RunAuth(a, ops), RunAuth(a, WithoutCleanups(ops)), token, at, r, u, d);
    }
  }

  // ---- Answers, told from the history alone ----

  const DAY: int := 86_400_000

  /** The session that the calls have given the token, whether or not it has expired. */
  function Granted(t: Tables, ops: seq<Operation>, token: Token): Option<Session> {
    if ops == [] then (if Digest(token) in t.table then Some(t.table[Digest(token)]) else None) else
    var before, op := Granted(t, ops[..|ops| - 1], token), ops[|ops| - 1];
    match op
    case Create(k, user, now, writes) => if writes && k == token then Some(Session(now + DAY, user)) else before
    case Invalidate(k, deletes) => if deletes && k == token then None else before
    case InvalidateUser(user, deletes) => if deletes && before.Some? && before.value.user == user then None else before
    case ClearAll(deletes) => if deletes then None else before
    case RemoveUser(user, cascades) => if cascades && before.Some? && before.value.user == user then None else before
    case RevokeInTable(user) => if before.Some? && before.value.user == user then None else before
    case _ => before
  }

  function Existing(t: Tables, ops: seq<Operation>): set<User> {
    if ops == [] then t.users else
    var before, op := Existing(t, ops[..|ops| - 1]), ops[|ops| - 1];
    if op.AddUser? then before + {op.user} else if op.RemoveUser? then before - {op.user} else before
  }

  /** Valid sessions in the table are the ones granted. */
  ghost predicate HoldsGranted(t: Tables, ops: seq<Operation>, token: Token, at: int) {
    var u, d, g := RunTables(t, ops), Digest(token), Granted(t, ops, token);
    && u.users == Existing(t, ops)
    && (d in u.table && u.table[d].expiry > at ==> g == Some(u.table[d]))
    && (g.Some? && g.value.expiry > at ==> d in u.table && u.table[d] == g.value)
  }

  lemma {:induction false} TablesHoldGranted(t: Tables, ops: seq<Operation>, token: Token, at: int)
    requires Timely(ops, at)
    ensures HoldsGranted(t, ops, token, at)
    decreases |ops|
  {
    if ops != [] {
      var now := TimeOf(ops[|ops| - 1]).GetOr(at);
      TablesHoldGranted(t, ops[..|ops| - 1], token, now);
    }
  }

  /**
   At any point of any ordinary run a lookup answers with a user exactly when the last session granted for
   the token has neither ended nor expired and the user exists: lookups, cleanups and restarts do not matter.
   */
  lemma AnswersFromHistory(a: Auth, ops: seq<Operation>, token: Token, at: int, deletes: bool)
    requires a.cache == map[] && OrdinaryRun(a, ops) && Timely(ops, at)
    ensures var t := Tables(a.table, a.users);
            var g := Granted(t, ops, token);
            ExtractUserId(RunAuth(a, ops), token, at, true, true, deletes).answer
              == if g.Some? && g.value.expiry > at && g.value.user in Existing(t, ops) then Some(g.value.user) else None
  {
    LookupAnswersAsTables(a, ops, token, at, deletes);
    TablesHoldGranted(Tables(a.table, a.users), ops, token, at);
  }
}
