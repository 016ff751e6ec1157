/**
 * The refresh-token store (internal/user/service.go): a Redis fast path over a Postgres table with expiry.
 * `Config.cached` selects the service with or without its cache; the code is the same.
 */
module RefreshTokens {
  import opened Prelude

  /** `HashToken`, ideal. */
  datatype TokenHash = TokenHash(of: string)

  datatype User = User(id: string, password: string)

  datatype TokenRow = TokenRow(userId: string, expiresAt: int)

  /** `expires` is None for an entry set with a TTL that is not positive: Redis then keeps it forever. */
  datatype CacheEntry = CacheEntry(userId: string, expires: Option<int>)

  /**
   * The lifetime comes from REFRESH_TOKEN_EXPIRY_DAYS, which is not range-checked. bcrypt refuses to hash a password
   * of more than 72 bytes, so not all are `hashable`.
   */
  datatype Config = Config(ttl: int, cached: bool, validEmail: string -> bool, hashable: string -> bool)

  /** Histories: every token ever generated, and those actually handed to a client. */
  datatype State = State(now: nat, users: map<string, User>, tokens: map<TokenHash, TokenRow>,
                         cache: map<TokenHash, CacheEntry>, generated: set<string>, revealed: set<string>)

  /**
   * What goes wrong in one call: accesses of the cache, the two look-ups, the three writes, making the tokens. `lag`
   * is how long after reading the clock for a token's expiry the token is cached.
   */
  datatype Faults = Faults(cacheGet: bool, cacheSet: bool, cacheDelete: bool, dbRead: bool,
                           dbCreate: bool, dbStore: bool, dbDelete: bool, signing: bool, lag: nat)

  datatype Op =
    | Register(email: string, password: string, userId: string, minted: string)
    | Login(email: string, password: string, minted: string)
    | Refresh(token: string, minted: string)
    | Logout(token: string)
    | Tick(dt: nat)

  datatype Failure =
    | InvalidEmail | InvalidPassword | EmailTaken | UserNotFound | InvalidCredentials
    | InvalidRefreshToken | ExpiredRefreshToken | ReadFailed | StoreFailed | HashFailed | SigningFailed

  datatype Response = Issued(userId: string, refreshToken: string) | LoggedOut | Failed(failure: Failure) | Silent

  const Init := State(0, map[], map[], map[], {}, {})

  predicate Live(e: CacheEntry, now: nat) {
    e.expires.None? || now < e.expires.value
  }

  /** `revokeRefreshToken`: the cache error is dropped, the row count of the DELETE is ignored. */
  function Revoke(c: Config, s: State, h: TokenHash, f: Faults): State {
    s.(cache := if c.cached && !f.cacheDelete then s.cache - {h} else s.cache,
       tokens := if f.dbDelete then s.tokens else s.tokens - {h})
  }

  /** `persistRefreshToken` of a token just generated: the cache first, then the row, which is unique by hash. */
  function Persist(c: Config, s: State, userId: string, minted: string, f: Faults): (State, Response) {
    var h, expiresAt, sent := TokenHash(minted), s.now + c.ttl, s.now + f.lag;
    var s1 := s.(now := sent, generated := s.generated + {minted});
    var s2 := if c.cached && !f.cacheSet
              then s1.(cache := s.cache[h := CacheEntry(userId, if c.ttl > 0 then Some(sent + c.ttl) else None)])
              else s1;
    if f.dbStore || h in s.tokens then (s2, Failed(StoreFailed))
    else (s2.(tokens := s.tokens[h := TokenRow(userId, expiresAt)], revealed := s.revealed + {minted}),
          Issued(userId, minted))
  }

  /** `issueTokenPair`. */
  function Issue(c: Config, s: State, userId: string, minted: string, f: Faults): (State, Response) {
    if f.signing then (s, Failed(SigningFailed)) else Persist(c, s, userId, minted, f)
  }

  /** `lookupRefreshToken`: an expired row is purged on the way. */
  function Lookup(c: Config, s: State, h: TokenHash, f: Faults): (State, Result<string, Failure>) {
    if c.cached && !f.cacheGet && h in s.cache && Live(s.cache[h], s.now) then (s, Ok(s.cache[h].userId))
    else if f.dbRead then (s, Err(ReadFailed))
    else if h !in s.tokens then (s, Err(InvalidRefreshToken))
    else if s.now > s.tokens[h].expiresAt then (Revoke(c, s, h, f), Err(ExpiredRefreshToken))
    else (s, Ok(s.tokens[h].userId))
  }

  /** The rest of `Refresh` once the lookup has named a user. */
  function Rotate(c: Config, s: State, userId: string, token: string, minted: string, f: Faults): (State, Response) {
    var s' := Revoke(c, s, TokenHash(token), f);
    if f.dbDelete then (s', Failed(StoreFailed)) else Issue(c, s', userId, minted, f)
  }

  function CredentialsError(c: Config, email: string, password: string): Option<Failure> {
    if !c.validEmail(email) then Some(InvalidEmail)
    else if |password| < 8 then Some(InvalidPassword)
    else None
  }

  /** Generated values have not been seen before, and clients present tokens they were given or made up themselves. */
  predicate Plausible(s: State, op: Op) {
    match op
    case Register(_, _, userId, minted) =>
      minted !in s.generated && forall e :: e in s.users ==> s.users[e].id != userId
    case Login(_, _, minted) => minted !in s.generated
    case Refresh(token, minted) => minted !in s.generated + {token} && token !in s.generated - s.revealed
    case Logout(token) => token !in s.generated - s.revealed
    case Tick(_) => true
  }

  function Perform(c: Config, s: State, op: Op, f: Faults): (State, Response) {
    match op
    case Register(email, password, userId, minted) =>
      var bad := CredentialsError(c, email, password);
      if bad.Some? then (s, Failed(bad.value))
      else if f.dbRead then (s, Failed(ReadFailed))
      else if email in s.users then (s, Failed(EmailTaken))
      else if !c.hashable(password) then (s, Failed(HashFailed))
      else if f.dbCreate then (s, Failed(StoreFailed))
      else Issue(c, s.(users := s.users[email := User(userId, password)]), userId, minted, f)
    case Login(email, password, minted) =>
      var bad := CredentialsError(c, email, password);
      if bad.Some? then (s, Failed(bad.value))
      else if f.dbRead then (s, Failed(ReadFailed))
      else if email !in s.users then (s, Failed(UserNotFound))
      else if s.users[email].password != password then (s, Failed(InvalidCredentials))
      else Issue(c, s, s.users[email].id, minted, f)
    case Refresh(token, minted) =>
      if token == "" then (s, Failed(InvalidRefreshToken))
      else
        var (s', found) := Lookup(c, s, TokenHash(token), f);
        if found.Err? then (s', Failed(found.error)) else Rotate(c, s', found.value, token, minted, f)
    case Logout(token) =>
      if token == "" then (s, Failed(InvalidRefreshToken))
      else (Revoke(c, s, TokenHash(token), f), if f.dbDelete then Failed(StoreFailed) else LoggedOut)
    case Tick(dt) => (s.(now := s.now + dt), Silent)
  }

  /** An operation that cannot happen leaves the state alone. */
  function Step(c: Config, s: State, call: (Op, Faults)): (State, Response) {
    if Plausible(s, call.0) then Perform(c, s, call.0, call.1) else (s, Silent)
  }

  function End(c: Config, s: State, calls: seq<(Op, Faults)>): State
    decreases |calls|
  {
    if calls == [] then s else End(c, Step(c, s, calls[0]).0, calls[1..])
  }

  function Responses(c: Config, s: State, calls: seq<(Op, Faults)>): (rs: seq<Response>)
    ensures |rs| == |calls|
    decreases |calls|
  {
    if calls == [] then []
    else
      var (s', r) := Step(c, s, calls[0]);
      [r] + Responses(c, s', calls[1..])
  }
}

/** The cached service refines the cache-less one. */
module RefreshRefinement {
  import opened Prelude
  import opened RefreshTokens

  ghost predicate CacheDeletesWork(calls: seq<(Op, Faults)>) {
    forall i :: 0 <= i < |calls| ==> !calls[i].1.cacheDelete
  }

  ghost predicate LagWithin(calls: seq<(Op, Faults)>, lag: nat) {
    forall i :: 0 <= i < |calls| ==> calls[i].1.lag <= lag
  }

  /**
   * A cache entry is backed by a row of the same user that expires at most `lag` before it, unless its token never
   * left the server.
   */
  ghost predicate Backed(c: Config, s: State, h: TokenHash, lag: nat)
    requires h in s.cache
  {
    || (h.of in s.generated && h.of !in s.revealed)
    || (h in s.tokens && s.tokens[h].userId == s.cache[h].userId
        && (c.ttl > 0 ==> s.cache[h].expires.Some? && s.cache[h].expires.value <= s.tokens[h].expiresAt + lag))
  }

  /** What every reachable state of the service satisfies as long as cache deletes work. */
  ghost predicate Trusted(c: Config, s: State, lag: nat) {
    && (!c.cached ==> s.cache == map[])
    && (forall h :: h in s.cache ==> Backed(c, s, h, lag))
    && (forall h :: h in s.tokens ==> h.of in s.revealed)
    && s.revealed <= s.generated
  }

  lemma PersistTrusts(c: Config, s: State, userId: string, minted: string, f: Faults, lag: nat)
    requires Trusted(c, s, lag) && minted !in s.generated && f.lag <= lag
    ensures Trusted(c, Persist(c, s, userId, minted, f).0, lag)
  {
    var s' := Persist(c, s, userId, minted, f).0;
    forall h | h in s'.cache
      ensures Backed(c, s', h, lag)
    {
      if h != TokenHash(minted) { assert Backed(c, s, h, lag); }
    }
  }

  lemma RevokeTrusts(c: Config, s: State, h: TokenHash, f: Faults, lag: nat)
    requires Trusted(c, s, lag) && (c.cached ==> !f.cacheDelete)
    ensures Trusted(c, Revoke(c, s, h, f), lag)
  {
    var s' := Revoke(c, s, h, f);
    forall k | k in s'.cache
      ensures Backed(c, s', k, lag)
    {
      assert Backed(c, s, k, lag);
    }
  }

  lemma RefreshTrusts(c: Config, s: State, token: string, minted: string, f: Faults, lag: nat)
    requires Trusted(c, s, lag) && (c.cached ==> !f.cacheDelete) && f.lag <= lag && Plausible(s, Refresh(token, minted))
    ensures Trusted(c, Perform(c, s, Refresh(token, minted), f).0, lag)
  {
    var h := TokenHash(token);
    RevokeTrusts(c, s, h, f, lag);
    var found := Lookup(c, s, h, f).1;
    if found.Ok? { PersistTrusts(c, Revoke(c, s, h, f), found.value, minted, f, lag); }
  }

  lemma UsersTrust(c: Config, s: State, users: map<string, User>, now: nat, lag: nat)
    requires Trusted(c, s, lag)
    ensures Trusted(c, s.(users := users, now := now), lag)
  {
    forall h | h in s.cache
      ensures Backed(c, s.(users := users, now := now), h, lag)
    {
      assert Backed(c, s, h, lag);
    }
  }

  lemma StepTrusts(c: Config, s: State, call: (Op, Faults), lag: nat)
    requires Trusted(c, s, lag) && (c.cached ==> !call.1.cacheDelete) && call.1.lag <= lag
    ensures Trusted(c, Step(c, s, call).0, lag)
  {
    var (op, f) := call;
    if Plausible(s, op) {
      match op {
        case Register(email, password, userId, minted) =>
          var users := s.users[email := User(userId, password)];
          UsersTrust(c, s, users, s.now, lag);
          PersistTrusts(c, s.(users := users), userId, minted, f, lag);
        case Login(email, password, minted) =>
          if email in s.users { PersistTrusts(c, s, s.users[email].id, minted, f, lag); }
        case Refresh(token, minted) => RefreshTrusts(c, s, token, minted, f, lag);
        case Logout(token) => RevokeTrusts(c, s, TokenHash(token), f, lag);
        case Tick(dt) => UsersTrust(c, s, s.users, s.now + dt, lag);
      }
    }
  }

  lemma {:induction false} RunTrusts(c: Config, s: State, calls: seq<(Op, Faults)>, lag: nat)
    requires Trusted(c, s, lag) && (c.cached ==> CacheDeletesWork(calls)) && LagWithin(calls, lag)
    ensures Trusted(c, End(c, s, calls), lag)
    decreases |calls|
  {
    if calls != [] {
      StepTrusts(c, s, calls[0], lag);
      RunTrusts(c, Step(c, s, calls[0]).0, calls[1..], lag);
    }
  }

  function Plain(c: Config): Config {
    c.(cached := false)
  }

  function Cached(c: Config): Config {
    c.(cached := true)
  }

  /** The two services agree on everything but the cache, which holds nothing of its own. */
  ghost predicate Agree(c: Config, plain: State, cached: State) {
    plain == cached.(cache := map[]) && Trusted(Cached(c), cached, 1)
  }

  /** Up to one tick of lag the strict `After` of the row and the expiry of the entry fall together. */
  lemma LookupMatches(c: Config, p: State, q: State, token: string, f: Faults)
    requires c.ttl > 0 && Agree(c, p, q) && token !in q.generated - q.revealed
    ensures var (p', r) := Lookup(Plain(c), p, TokenHash(token), f);
            var (q', r') := Lookup(Cached(c), q, TokenHash(token), f);
            r == Err(ReadFailed) || (r == r' && p' == q'.(cache := map[]))
  {
    var h := TokenHash(token);
    if h in q.cache { assert Backed(Cached(c), q, h, 1); }
  }

  lemma RefreshMatches(c: Config, p: State, q: State, token: string, minted: string, f: Faults)
    requires c.ttl > 0 && Agree(c, p, q) && token != "" && Plausible(q, Refresh(token, minted))
    requires Perform(Plain(c), p, Refresh(token, minted), f).1 != Failed(ReadFailed)
    ensures var (p', r) := Perform(Plain(c), p, Refresh(token, minted), f);
            var (q', r') := Perform(Cached(c), q, Refresh(token, minted), f);
            r == r' && p' == q'.(cache := map[])
  {
    LookupMatches(c, p, q, token, f);
    var (p', r) := Lookup(Plain(c), p, TokenHash(token), f);
    var q' := Lookup(Cached(c), q, TokenHash(token), f).0;
    if r.Ok? {
      assert Rotate(Plain(c), p', r.value, token, minted, f).0 ==
             Rotate(Cached(c), q', r.value, token, minted, f).0.(cache := map[]);
    }
  }

  lemma IssueMatches(c: Config, q: State, userId: string, minted: string, f: Faults)
    ensures Issue(Plain(c), q.(cache := map[]), userId, minted, f).1 == Issue(Cached(c), q, userId, minted, f).1
    ensures Issue(Plain(c), q.(cache := map[]), userId, minted, f).0 ==
            Issue(Cached(c), q, userId, minted, f).0.(cache := map[])
  {
  }

  lemma RegisterMatches(c: Config, q: State, email: string, password: string, userId: string, minted: string, f: Faults)
    ensures var op := Register(email, password, userId, minted);
            && Perform(Plain(c), q.(cache := map[]), op, f).1 == Perform(Cached(c), q, op, f).1
            && Perform(Plain(c), q.(cache := map[]), op, f).0 == Perform(Cached(c), q, op, f).0.(cache := map[])
  {
    var registered := q.(users := q.users[email := User(userId, password)]);
    assert registered.(cache := map[]) == q.(cache := map[]).(users := registered.users);
    IssueMatches(c, registered, userId, minted, f);
  }

  /** A call that does not look a token up does not depend on the cache. */
  lemma OthersMatch(c: Config, q: State, op: Op, f: Faults)
    requires !op.Refresh?
    ensures Perform(Plain(c), q.(cache := map[]), op, f).1 == Perform(Cached(c), q, op, f).1
    ensures Perform(Plain(c), q.(cache := map[]), op, f).0 == Perform(Cached(c), q, op, f).0.(cache := map[])
  {
    match op {
      case Register(email, password, userId, minted) => RegisterMatches(c, q, email, password, userId, minted, f);
      case Login(email, _, minted) => if email in q.users { IssueMatches(c, q, q.users[email].id, minted, f); }
      case Logout(_) =>
      case Tick(_) =>
    }
  }

  lemma StepAgrees(c: Config, p: State, q: State, call: (Op, Faults))
    requires c.ttl > 0 && Agree(c, p, q) && !call.1.cacheDelete && call.1.lag <= 1
    requires call.0.Refresh? ==> Step(Plain(c), p, call).1 != Failed(ReadFailed)
    ensures Step(Plain(c), p, call).1 == Step(Cached(c), q, call).1
    ensures Agree(c, Step(Plain(c), p, call).0, Step(Cached(c), q, call).0)
  {
    StepTrusts(Cached(c), q, call, 1);
    var (op, f) := call;
    assert Plausible(p, op) == Plausible(q, op);
    if Plausible(q, op) {
      if !op.Refresh? { OthersMatch(c, q, op, f); }
      else if op.token != "" { RefreshMatches(c, p, q, op.token, op.minted, f); }
    }
  }

  /** No Refresh of the cache-less service fails because its look-up of the token could not be answered. */
  ghost predicate ReadsAnswered(c: Config, p: State, calls: seq<(Op, Faults)>) {
    forall i :: 0 <= i < |calls| && calls[i].0.Refresh? ==> Responses(Plain(c), p, calls)[i] != Failed(ReadFailed)
  }

  lemma ReadsAnsweredRest(c: Config, p: State, calls: seq<(Op, Faults)>)
    requires calls != [] && ReadsAnswered(c, p, calls)
    ensures calls[0].0.Refresh? ==> Step(Plain(c), p, calls[0]).1 != Failed(ReadFailed)
    ensures ReadsAnswered(c, Step(Plain(c), p, calls[0]).0, calls[1..])
  {
    var rs, rest := Responses(Plain(c), p, calls), Responses(Plain(c), Step(Plain(c), p, calls[0]).0, calls[1..]);
    assert rs[0] == Step(Plain(c), p, calls[0]).1;
    forall i | 0 <= i < |rest| ensures rest[i] == rs[i + 1] {}
  }

  /** From agreeing states, the same calls get the same responses and end in agreeing states. */
  lemma {:induction false} RunAgrees(c: Config, p: State, q: State, calls: seq<(Op, Faults)>)
    requires c.ttl > 0 && Agree(c, p, q) && CacheDeletesWork(calls) && LagWithin(calls, 1) && ReadsAnswered(c, p, calls)
    ensures Responses(Plain(c), p, calls) == Responses(Cached(c), q, calls)
    ensures Agree(c, End(Plain(c), p, calls), End(Cached(c), q, calls))
    decreases |calls|
  {
    if calls != [] {
      ReadsAnsweredRest(c, p, calls);
      StepAgrees(c, p, q, calls[0]);
      RunAgrees(c, Step(Plain(c), p, calls[0]).0, Step(Cached(c), q, calls[0]).0, calls[1..]);
    }
  }

  const NONE := Faults(false, false, false, false, false, false, false, false, 0)

  /** Somebody who can register. */
  predicate CanRegister(c: Config, email: string, password: string) {
    CredentialsError(c, email, password).None? && c.hashable(password)
  }

  /** Registering, waiting and presenting the token: all that the runs below differ in is what goes wrong. */
  function Visit(email: string, password: string, lag: nat, wait: nat, last: Faults): seq<(Op, Faults)> {
    [(Register(email, password, "u", "t0"), NONE.(lag := lag)), (Tick(wait), NONE), (Refresh("t0", "t1"), last)]
  }

  /** The state in which the visitor comes back. */
  function Waited(c: Config, email: string, password: string, lag: nat, wait: nat): State {
    var entry := CacheEntry("u", if c.ttl > 0 then Some(lag + c.ttl) else None);
    State(lag + wait, map[email := User("u", password)], map[TokenHash("t0") := TokenRow("u", c.ttl)],
          if c.cached then map[TokenHash("t0") := entry] else map[], {"t0"}, {"t0"})
  }

  lemma VisitResponses(c: Config, email: string, password: string, lag: nat, wait: nat, last: Faults)
    requires CanRegister(c, email, password)
    ensures var s := Waited(c, email, password, lag, wait);
            && End(c, Init, Visit(email, password, lag, wait, last)[..2]) == s
            && Responses(c, Init, Visit(email, password, lag, wait, last)) ==
                 [Issued("u", "t0"), Silent, Perform(c, s, Refresh("t0", "t1"), last).1]
  {
    var calls := Visit(email, password, lag, wait, last);
    var s1 := Step(c, Init, calls[0]).0;
    var s2 := Step(c, s1, calls[1]).0;
    assert calls[1..] == [calls[1], calls[2]] && calls[1..][1..] == [calls[2]];
    assert calls[..2] == [calls[0], calls[1]] && calls[..2][1..] == [calls[1]] && [calls[1]][1..] == [];
    assert Responses(c, s2, [calls[2]]) == [Step(c, s2, calls[2]).1];
    assert Responses(c, s1, calls[1..]) == [Silent] + Responses(c, s2, [calls[2]]);
    assert End(c, s1, [calls[1]]) == s2;
  }

  /** The services part if they answer the returning visitor differently. */
  lemma VisitDiffers(c: Config, email: string, password: string, lag: nat, wait: nat, last: Faults)
    requires CanRegister(c, email, password)
    requires var p, q := Waited(Plain(c), email, password, lag, wait), Waited(Cached(c), email, password, lag, wait);
             Perform(Plain(c), p, Refresh("t0", "t1"), last).1 != Perform(Cached(c), q, Refresh("t0", "t1"), last).1
    ensures var calls := Visit(email, password, lag, wait, last);
            && Responses(Plain(c), Init, calls) != Responses(Cached(c), Init, calls)
            && (!last.dbRead ==> ReadsAnswered(c, Init, calls))
  {
    var calls := Visit(email, password, lag, wait, last);
    VisitResponses(Plain(c), email, password, lag, wait, last);
    VisitResponses(Cached(c), email, password, lag, wait, last);
    assert Responses(Plain(c), Init, calls)[2] != Responses(Cached(c), Init, calls)[2];
  }

  /** Without a positive lifetime the cache keeps accepting a token that is already expired in the table. */
  lemma NonPositiveLifetimeDiffers(c: Config, email: string, password: string) returns (calls: seq<(Op, Faults)>)
    requires c.ttl <= 0 && CanRegister(c, email, password)
    ensures CacheDeletesWork(calls) && LagWithin(calls, 0) && ReadsAnswered(c, Init, calls)
    ensures Responses(Plain(c), Init, calls) != Responses(Cached(c), Init, calls)
  {
    calls := Visit(email, password, 0, 1, NONE);
    VisitDiffers(c, email, password, 0, 1, NONE);
  }

  /** With a lag of two ticks or more the entry outlives the row, so that an expired token is still accepted. */
  lemma LagDiffers(c: Config, email: string, password: string, lag: nat) returns (calls: seq<(Op, Faults)>)
    requires c.ttl > 0 && lag >= 2 && CanRegister(c, email, password)
    ensures CacheDeletesWork(calls) && LagWithin(calls, lag) && ReadsAnswered(c, Init, calls)
    ensures Responses(Plain(c), Init, calls) != Responses(Cached(c), Init, calls)
  {
    calls := Visit(email, password, lag, c.ttl - 1, NONE);
    VisitDiffers(c, email, password, lag, c.ttl - 1, NONE);
  }

  /** A failing cache delete leaves a logged-out token usable through the cache. */
  lemma CacheDeleteFaultDiffers(c: Config, email: string, password: string) returns (calls: seq<(Op, Faults)>)
    requires CanRegister(c, email, password)
    ensures LagWithin(calls, 0) && ReadsAnswered(c, Init, calls)
    ensures Responses(Plain(c), Init, calls) != Responses(Cached(c), Init, calls)
  {
    calls := [(Register(email, password, "u", "t0"), NONE), (Logout("t0"), NONE.(cacheDelete := true)),
              (Refresh("t0", "t1"), NONE)];
    var p1, q1 := Step(Plain(c), Init, calls[0]).0, Step(Cached(c), Init, calls[0]).0;
    var p2, q2 := Step(Plain(c), p1, calls[1]).0, Step(Cached(c), q1, calls[1]).0;
    assert calls[1..][1..] == [calls[2]];
    assert Step(Plain(c), p2, calls[2]).1 == Failed(InvalidRefreshToken);
    assert Step(Cached(c), q2, calls[2]).1 == Issued("u", "t1");
    assert Responses(Plain(c), p2, [calls[2]])[0] == Failed(InvalidRefreshToken);
    assert Responses(Cached(c), q2, [calls[2]])[0] == Issued("u", "t1");
    assert Responses(Plain(c), p1, calls[1..])[1] != Responses(Cached(c), q1, calls[1..])[1];
    assert Responses(Plain(c), Init, calls)[2] == Failed(InvalidRefreshToken) != Responses(Cached(c), Init, calls)[2];
  }

  /** And a failing look-up is one that the cache can save. */
  lemma ReadFaultDiffers(c: Config, email: string, password: string) returns (calls: seq<(Op, Faults)>)
    requires CanRegister(c, email, password)
    ensures CacheDeletesWork(calls) && LagWithin(calls, 0)
    ensures Responses(Plain(c), Init, calls) != Responses(Cached(c), Init, calls)
  {
    var last := NONE.(dbRead := true);
    calls := Visit(email, password, 0, 0, last);
    VisitDiffers(c, email, password, 0, 0, last);
  }

  /** What can happen in a deployment: its lag, and whether cache deletes and unsaved look-ups may fail. */
  ghost predicate Deployed(c: Config, calls: seq<(Op, Faults)>, lag: nat, deleteFaults: bool, readFaults: bool) {
    && LagWithin(calls, lag)
    && (deleteFaults || CacheDeletesWork(calls))
    && (readFaults || ReadsAnswered(c, Init, calls))
  }

  /**
   * Exactly when the cache is transparent: over every sequence of calls, with any cache reads and writes and any table
   * writes failing, the services respond alike if and only if the token lifetime is positive, a token is cached within
   * a tick of computing its expiry, cache deletes do not fail, and no look-up of a token fails that the cache could
   * answer.
   */
  lemma CacheTransparentIff(c: Config, email: string, password: string, lag: nat, deleteFaults: bool, readFaults: bool)
    requires CanRegister(c, email, password)
    ensures (forall calls | Deployed(c, calls, lag, deleteFaults, readFaults) ::
               Responses(Plain(c), Init, calls) == Responses(Cached(c), Init, calls))
       <==> c.ttl > 0 && lag <= 1 && !deleteFaults && !readFaults
  {
    if c.ttl > 0 && lag <= 1 && !deleteFaults && !readFaults {
      forall calls | Deployed(c, calls, lag, deleteFaults, readFaults)
        ensures Responses(Plain(c), Init, calls) == Responses(Cached(c), Init, calls)
      {
        RunAgrees(c, Init, Init, calls);
      }
    } else {
      var calls;
      if c.ttl <= 0 { calls := NonPositiveLifetimeDiffers(c, email, password); }
      else if lag >= 2 { calls := LagDiffers(c, email, password, lag); }
      else if deleteFaults { calls := CacheDeleteFaultDiffers(c, email, password); }
      else { calls := ReadFaultDiffers(c, email, password); }
      assert Deployed(c, calls, lag, deleteFaults, readFaults);
    }
  }

  /** By how much a token can be accepted after its expiry. */
  function Overstay(c: Config, lag: nat): nat {
    if c.cached && lag > 0 then lag - 1 else 0
  }

  /** With any lag, a token is accepted only while its row is there and at most the lag after the row's expiry. */
  lemma AcceptedInTime(c: Config, calls: seq<(Op, Faults)>, token: string, minted: string, f: Faults, lag: nat)
    requires c.ttl > 0 && (c.cached ==> CacheDeletesWork(calls)) && LagWithin(calls, lag)
    requires Step(c, End(c, Init, calls), (Refresh(token, minted), f)).1.Issued?
    ensures var s, h := End(c, Init, calls), TokenHash(token);
            h in s.tokens && s.now <= s.tokens[h].expiresAt + Overstay(c, lag)
  {
    RunTrusts(c, Init, calls, lag);
    var s, h := End(c, Init, calls), TokenHash(token);
    if h in s.cache { assert Backed(c, s, h, lag); }
  }

  /** That bound is attained for every lifetime and lag. */
  lemma OverstayAttained(c: Config, email: string, password: string, lag: nat) returns (calls: seq<(Op, Faults)>)
    requires c.ttl > 0 && c.cached && lag > 0 && CanRegister(c, email, password)
    ensures CacheDeletesWork(calls) && LagWithin(calls, lag)
    ensures var s := End(c, Init, calls);
            && TokenHash("t0") in s.tokens && s.now == s.tokens[TokenHash("t0")].expiresAt + Overstay(c, lag)
            && Step(c, s, (Refresh("t0", "t1"), NONE)).1.Issued?
  {
    calls := Visit(email, password, lag, c.ttl - 1, NONE)[..2];
    VisitResponses(c, email, password, lag, c.ttl - 1, NONE);
  }
}

/** Conservation of sessions and single use of tokens, with and without the cache. */
module RefreshSessions {
  import opened Prelude
  import opened RefreshTokens
  import opened RefreshRefinement

  /** A user's sessions are their token rows. */
  function Sessions(s: State, userId: string): set<TokenHash> {
    set h | h in s.tokens && s.tokens[h].userId == userId
  }

  /** No token is lost between two writes. */
  ghost predicate WritesWork(calls: seq<(Op, Faults)>) {
    forall i :: 0 <= i < |calls| ==> !calls[i].1.dbStore && !calls[i].1.dbDelete && !calls[i].1.signing
  }

  /** Sessions begun by Register and Login, closed by an effective Logout, and purged as expired. */
  datatype Ledger = Ledger(begun: nat, closed: nat, purged: nat)

  function Enter(c: Config, s: State, call: (Op, Faults), userId: string, l: Ledger): Ledger {
    var r := Step(c, s, call).1;
    var held := (token: string) => TokenHash(token) in s.tokens && s.tokens[TokenHash(token)].userId == userId;
    match call.0
    case Register(_, _, _, _) => if r.Issued? && r.userId == userId then l.(begun := l.begun + 1) else l
    case Login(_, _, _) => if r.Issued? && r.userId == userId then l.(begun := l.begun + 1) else l
    case Refresh(token, _) => if r == Failed(ExpiredRefreshToken) && held(token) then l.(purged := l.purged + 1) else l
    case Logout(token) => if r == LoggedOut && held(token) then l.(closed := l.closed + 1) else l
    case Tick(_) => l
  }

  function Post(c: Config, s: State, calls: seq<(Op, Faults)>, userId: string, l: Ledger): Ledger
    decreases |calls|
  {
    if calls == [] then l
    else Post(c, Step(c, s, calls[0]).0, calls[1..], userId, Enter(c, s, calls[0], userId, l))
  }

  lemma SessionAdded(s: State, s': State, h: TokenHash, row: TokenRow, userId: string)
    requires h !in s.tokens && s'.tokens == s.tokens[h := row]
    ensures |Sessions(s', userId)| == |Sessions(s, userId)| + if row.userId == userId then 1 else 0
  {
    if row.userId == userId {
      assert Sessions(s', userId) == Sessions(s, userId) + {h};
    } else {
      assert Sessions(s', userId) == Sessions(s, userId);
    }
  }

  lemma SessionRemoved(s: State, s': State, h: TokenHash, userId: string)
    requires s'.tokens == s.tokens - {h}
    ensures |Sessions(s', userId)| == |Sessions(s, userId)| -
              if h in s.tokens && s.tokens[h].userId == userId then 1 else 0
  {
    if h in Sessions(s, userId) {
      assert Sessions(s', userId) == Sessions(s, userId) - {h};
    } else {
      assert Sessions(s', userId) == Sessions(s, userId);
    }
  }

  lemma PersistBalances(c: Config, s: State, userId: string, minted: string, f: Faults, user: string)
    requires TokenHash(minted) !in s.tokens && !f.dbStore
    ensures var (s', r) := Persist(c, s, userId, minted, f);
            && r == Issued(userId, minted)
            && |Sessions(s', user)| == |Sessions(s, user)| + if userId == user then 1 else 0
  {
    SessionAdded(s, Persist(c, s, userId, minted, f).0, TokenHash(minted), TokenRow(userId, s.now + c.ttl), user);
  }

  /** A token that is looked up has a row of the user it names, even if only the cache was asked. */
  lemma FoundHasRow(c: Config, s: State, token: string, f: Faults, lag: nat)
    requires Trusted(c, s, lag) && token !in s.generated - s.revealed && Lookup(c, s, TokenHash(token), f).1.Ok?
    ensures TokenHash(token) in s.tokens
    ensures s.tokens[TokenHash(token)].userId == Lookup(c, s, TokenHash(token), f).1.value
  {
    var h := TokenHash(token);
    if h in s.cache { assert Backed(c, s, h, lag); }
  }

  lemma RefreshBalances(c: Config, s: State, token: string, minted: string, f: Faults, user: string, lag: nat)
    requires Trusted(c, s, lag) && Plausible(s, Refresh(token, minted)) && !f.dbStore && !f.dbDelete && !f.signing
    ensures var (s', r) := Perform(c, s, Refresh(token, minted), f);
            var h := TokenHash(token);
            |Sessions(s', user)| == |Sessions(s, user)| -
              if r == Failed(ExpiredRefreshToken) && h in s.tokens && s.tokens[h].userId == user then 1 else 0
  {
    var h := TokenHash(token);
    var s1 := Revoke(c, s, h, f);
    SessionRemoved(s, s1, h, user);
    var found := Lookup(c, s, h, f).1;
    if token != "" && found.Ok? {
      FoundHasRow(c, s, token, f, lag);
      PersistBalances(c, s1, found.value, minted, f, user);
    }
  }

  lemma RegisterBalances(c: Config, s: State, email: string, password: string, userId: string, minted: string,
                         f: Faults, user: string)
    requires TokenHash(minted) !in s.tokens && !f.dbStore && !f.signing
    ensures var (s', r) := Perform(c, s, Register(email, password, userId, minted), f);
            |Sessions(s', user)| == |Sessions(s, user)| + if r.Issued? && r.userId == user then 1 else 0
  {
    var s1 := s.(users := s.users[email := User(userId, password)]);
    assert Sessions(s1, user) == Sessions(s, user);
    PersistBalances(c, s1, userId, minted, f, user);
  }

  lemma LoginBalances(c: Config, s: State, email: string, password: string, minted: string, f: Faults, user: string)
    requires TokenHash(minted) !in s.tokens && !f.dbStore && !f.signing
    ensures var (s', r) := Perform(c, s, Login(email, password, minted), f);
            |Sessions(s', user)| == |Sessions(s, user)| + if r.Issued? && r.userId == user then 1 else 0
  {
    if email in s.users { PersistBalances(c, s, s.users[email].id, minted, f, user); }
  }

  lemma StepBalances(c: Config, s: State, call: (Op, Faults), user: string, l: Ledger, lag: nat)
    requires Trusted(c, s, lag) && !call.1.dbStore && !call.1.dbDelete && !call.1.signing
    requires |Sessions(s, user)| == l.begun - l.closed - l.purged
    ensures var s', l' := Step(c, s, call).0, Enter(c, s, call, user, l);
            |Sessions(s', user)| == l'.begun - l'.closed - l'.purged
  {
    var (op, f) := call;
    if Plausible(s, op) {
      match op {
        case Register(email, password, userId, minted) =>
          RegisterBalances(c, s, email, password, userId, minted, f, user);
        case Login(email, password, minted) => LoginBalances(c, s, email, password, minted, f, user);
        case Refresh(token, minted) => RefreshBalances(c, s, token, minted, f, user, lag);
        case Logout(token) =>
          if token != "" { SessionRemoved(s, Revoke(c, s, TokenHash(token), f), TokenHash(token), user); }
        case Tick(dt) => assert Sessions(s.(now := s.now + dt), user) == Sessions(s, user);
      }
    }
  }

  lemma {:induction false} RunBalances(c: Config, s: State, calls: seq<(Op, Faults)>, user: string, l: Ledger, lag: nat)
    requires Trusted(c, s, lag) && WritesWork(calls) && (c.cached ==> CacheDeletesWork(calls)) && LagWithin(calls, lag)
    requires |Sessions(s, user)| == l.begun - l.closed - l.purged
    ensures var l' := Post(c, s, calls, user, l);
            |Sessions(End(c, s, calls), user)| == l'.begun - l'.closed - l'.purged
    decreases |calls|
  {
    if calls != [] {
      StepTrusts(c, s, calls[0], lag);
      StepBalances(c, s, calls[0], user, l, lag);
      RunBalances(c, Step(c, s, calls[0]).0, calls[1..], user, Enter(c, s, calls[0], user, l), lag);
    }
  }

  lemma {:induction false} SomeLag(calls: seq<(Op, Faults)>) returns (lag: nat)
    ensures LagWithin(calls, lag)
  {
    if calls == [] {
      lag := 0;
    } else {
      var before := SomeLag(calls[..|calls| - 1]);
      lag := Max(before, calls[|calls| - 1].1.lag);
    }
  }

  /**
   * Conservation: over every sequence of complete calls without write failures, whatever the lifetime and with any
   * reads and cache writes failing, a user's token rows are the sessions begun minus those closed and purged;
   * refreshing swaps one row for another.
   */
  lemma SessionsConserved(c: Config, calls: seq<(Op, Faults)>, user: string)
    requires WritesWork(calls) && (c.cached ==> CacheDeletesWork(calls))
    ensures var l := Post(c, Init, calls, user, Ledger(0, 0, 0));
            |Sessions(End(c, Init, calls), user)| == l.begun - l.closed - l.purged
  {
    assert Sessions(Init, user) == {};
    var lag := SomeLag(calls);
    RunBalances(c, Init, calls, user, Ledger(0, 0, 0), lag);
  }

  ghost predicate TokensKnown(c: Config, s: State) {
    && (!c.cached ==> s.cache == map[])
    && (forall h :: h in s.tokens ==> h.of in s.generated)
    && (forall h :: h in s.cache ==> h.of in s.generated)
    && s.revealed <= s.generated
  }

  /** The stores and what clients hold grow by nothing but tokens generated just now. */
  ghost predicate Grows(c: Config, s: State, s': State) {
    var minted := s'.generated - s.generated;
    && s.generated <= s'.generated && s'.revealed <= s.revealed + minted
    && (!c.cached ==> s'.cache == s.cache)
    && (forall h :: h in s'.tokens ==> h in s.tokens || h.of in minted)
    && (forall h :: h in s'.cache ==> h in s.cache || h.of in minted)
  }

  lemma PersistGrows(c: Config, s: State, userId: string, minted: string, f: Faults)
    requires minted !in s.generated
    ensures Grows(c, s, Persist(c, s, userId, minted, f).0)
  {
  }

  lemma StepGrows(c: Config, s: State, call: (Op, Faults))
    ensures Grows(c, s, Step(c, s, call).0)
  {
    var (op, f) := call;
    if Plausible(s, op) {
      match op {
        case Register(email, password, userId, minted) =>
          PersistGrows(c, s.(users := s.users[email := User(userId, password)]), userId, minted, f);
        case Login(email, password, minted) =>
          if email in s.users { PersistGrows(c, s, s.users[email].id, minted, f); }
        case Refresh(token, minted) =>
          var found := Lookup(c, s, TokenHash(token), f).1;
          if found.Ok? { PersistGrows(c, Revoke(c, s, TokenHash(token), f), found.value, minted, f); }
        case Logout(_) =>
        case Tick(_) =>
      }
    }
  }

  /** A generated token that neither store knows stays unknown and is refused from then on. */
  lemma {:induction false} GoneStaysGone(c: Config, s: State, calls: seq<(Op, Faults)>, token: string, j: nat)
    requires token in s.generated && TokenHash(token) !in s.tokens && TokenHash(token) !in s.cache
    requires j < |calls| && calls[j].0.Refresh? && calls[j].0.token == token
    ensures !Responses(c, s, calls)[j].Issued?
    decreases |calls|
  {
    if j > 0 {
      StepGrows(c, s, calls[0]);
      GoneStaysGone(c, Step(c, s, calls[0]).0, calls[1..], token, j - 1);
    }
  }

  /** The call uses the token up: it is traded for a new one, or logged out after having been handed out. */
  predicate Spends(s: State, call: (Op, Faults), r: Response, token: string) {
    || (call.0.Refresh? && call.0.token == token && r.Issued?)
    || (call.0.Logout? && call.0.token == token && r.LoggedOut? && token in s.revealed)
  }

  lemma SpendingRemoves(c: Config, s: State, call: (Op, Faults), token: string)
    requires TokensKnown(c, s) && (c.cached ==> !call.1.cacheDelete)
    requires Spends(s, call, Step(c, s, call).1, token)
    ensures var s' := Step(c, s, call).0;
            token in s'.generated && TokenHash(token) !in s'.tokens && TokenHash(token) !in s'.cache
  {
  }

  lemma {:induction false} SpentOnce(c: Config, s: State, calls: seq<(Op, Faults)>, token: string, i: nat, j: nat)
    requires TokensKnown(c, s) && (c.cached ==> CacheDeletesWork(calls)) && i < j < |calls|
    requires Spends(End(c, s, calls[..i]), calls[i], Responses(c, s, calls)[i], token)
    requires calls[j].0.Refresh? && calls[j].0.token == token
    ensures !Responses(c, s, calls)[j].Issued?
    decreases |calls|
  {
    var s' := Step(c, s, calls[0]).0;
    if i == 0 {
      assert calls[..0] == [];
      SpendingRemoves(c, s, calls[0], token);
      GoneStaysGone(c, s', calls[1..], token, j - 1);
    } else {
      assert calls[..i][0] == calls[0] && calls[..i][1..] == calls[1..][..i - 1];
      StepGrows(c, s, calls[0]);
      SpentOnce(c, s', calls[1..], token, i - 1, j - 1);
    }
  }

  /**
   * Single use: once Refresh or Logout has accepted a token, no later Refresh accepts it, whatever else fails, as
   * long as cache deletes work.
   */
  lemma SingleUse(c: Config, calls: seq<(Op, Faults)>, token: string, i: nat, j: nat)
    requires c.cached ==> CacheDeletesWork(calls)
    requires i < j < |calls| && Spends(End(c, Init, calls[..i]), calls[i], Responses(c, Init, calls)[i], token)
    requires calls[j].0.Refresh? && calls[j].0.token == token
    ensures !Responses(c, Init, calls)[j].Issued?
  {
    SpentOnce(c, Init, calls, token, i, j);
  }
}

/** What the calls mean to users: who is registered, who can log in, and what each answer says about the stores. */
module RefreshUsers {
  import opened Prelude
  import opened RefreshTokens
  import opened RefreshRefinement

  predicate WellFormed(c: Config, email: string, password: string) {
    c.validEmail(email) && |password| >= 8
  }

  /** A new row of the user and a cache entry for it, if there is a cache and it can be written; nothing else. */
  ghost predicate TokenGiven(c: Config, s: State, s': State, userId: string, minted: string, f: Faults) {
    && TokenHash(minted) in s'.tokens && s'.tokens == s.tokens[TokenHash(minted) := TokenRow(userId, s.now + c.ttl)]
    && s'.revealed == s.revealed + {minted}
    && s'.cache == if c.cached && !f.cacheSet
                   then var expires := if c.ttl > 0 then Some(s.now + f.lag + c.ttl) else None;
                        s.cache[TokenHash(minted) := CacheEntry(userId, expires)]
                   else s.cache
  }

  /** The answer to Register: when the user is created, when tokens are given, and the reason when not. */
  ghost predicate RegisterMeans(c: Config, s: State, email: string, password: string, userId: string, minted: string,
                                f: Faults, s': State, r: Response) {
    var asked := WellFormed(c, email, password) && !f.dbRead;
    var made := asked && email !in s.users && c.hashable(password) && !f.dbCreate;
    && s'.users == (if made then s.users[email := User(userId, password)] else s.users)
    && (r.Issued? <==> made && !f.signing && !f.dbStore && TokenHash(minted) !in s.tokens)
    && (if r.Issued? then r == Issued(userId, minted) && TokenGiven(c, s, s', userId, minted, f)
        else r.Failed? && s'.tokens == s.tokens && s'.revealed == s.revealed)
    && (r == Failed(InvalidEmail) <==> !c.validEmail(email))
    && (r == Failed(InvalidPassword) <==> c.validEmail(email) && |password| < 8)
    && (r == Failed(ReadFailed) <==> WellFormed(c, email, password) && f.dbRead)
    && (r == Failed(EmailTaken) <==> asked && email in s.users)
    && (r == Failed(HashFailed) <==> asked && email !in s.users && !c.hashable(password))
    && (r == Failed(SigningFailed) <==> made && f.signing)
  }

  /** The answer to Login: tokens for the right password only, and the reason otherwise. */
  ghost predicate LoginMeans(c: Config, s: State, email: string, password: string, minted: string, f: Faults,
                             s': State, r: Response) {
    var asked := WellFormed(c, email, password) && !f.dbRead;
    var known := asked && email in s.users && s.users[email].password == password;
    && s'.users == s.users
    && (r.Issued? <==> known && !f.signing && !f.dbStore && TokenHash(minted) !in s.tokens)
    && (if r.Issued? then r == Issued(s.users[email].id, minted) && TokenGiven(c, s, s', r.userId, minted, f)
        else r.Failed? && s'.tokens == s.tokens && s'.revealed == s.revealed)
    && (r == Failed(InvalidEmail) <==> !c.validEmail(email))
    && (r == Failed(InvalidPassword) <==> c.validEmail(email) && |password| < 8)
    && (r == Failed(ReadFailed) <==> WellFormed(c, email, password) && f.dbRead)
    && (r == Failed(UserNotFound) <==> asked && email !in s.users)
    && (r == Failed(InvalidCredentials) <==> asked && email in s.users && s.users[email].password != password)
    && (r == Failed(SigningFailed) <==> known && f.signing)
  }

  predicate CacheAnswers(c: Config, s: State, h: TokenHash, f: Faults) {
    c.cached && !f.cacheGet && h in s.cache && (s.cache[h].expires.None? || s.now < s.cache[h].expires.value)
  }

  predicate RowAnswers(s: State, h: TokenHash, f: Faults) {
    !f.dbRead && h in s.tokens && s.now <= s.tokens[h].expiresAt
  }

  /** The answer to Refresh: whose token it was, that it is traded for one of the same user, or the reason why not. */
  ghost predicate RefreshMeans(c: Config, s: State, token: string, minted: string, f: Faults, s': State, r: Response) {
    var h := TokenHash(token);
    var hit := CacheAnswers(c, s, h, f);
    var good := token != "" && (hit || RowAnswers(s, h, f));
    && s'.users == s.users
    && (r.Issued? <==> good && !f.dbDelete && !f.signing && !f.dbStore && TokenHash(minted) !in s.tokens - {h})
    && (r.Issued? ==>
          && r == Issued(if hit then s.cache[h].userId else s.tokens[h].userId, minted)
          && s'.tokens == (s.tokens - {h})[TokenHash(minted) := TokenRow(r.userId, s.now + c.ttl)]
          && s'.revealed == s.revealed + {minted})
    && (!r.Issued? ==> r.Failed? && s'.revealed == s.revealed)
    && (!r.Issued? ==>
          s'.tokens == if token != "" && !f.dbDelete && (good || r == Failed(ExpiredRefreshToken)) then s.tokens - {h}
                       else s.tokens)
    && (r == Failed(ReadFailed) <==> token != "" && !hit && f.dbRead)
    && (r == Failed(InvalidRefreshToken) <==> token == "" || (!hit && !f.dbRead && h !in s.tokens))
    && (r == Failed(ExpiredRefreshToken) <==>
          token != "" && !hit && !f.dbRead && h in s.tokens && s.now > s.tokens[h].expiresAt)
    && (r == Failed(SigningFailed) <==> good && !f.dbDelete && f.signing)
  }

  /** The answer to Logout: the token is gone from the table and, unless its delete fails, from the cache. */
  ghost predicate LogoutMeans(c: Config, s: State, token: string, f: Faults, s': State, r: Response) {
    var h := TokenHash(token);
    && s'.users == s.users && s'.revealed == s.revealed
    && (r == LoggedOut <==> token != "" && !f.dbDelete)
    && (r != LoggedOut ==> r == Failed(if token == "" then InvalidRefreshToken else StoreFailed))
    && s'.tokens == (if r == LoggedOut then s.tokens - {h} else s.tokens)
    && s'.cache == (if token != "" && c.cached && !f.cacheDelete then s.cache - {h} else s.cache)
  }

  lemma IssueGives(c: Config, s: State, userId: string, minted: string, f: Faults)
    ensures var (s', r) := Issue(c, s, userId, minted, f);
            && s'.users == s.users
            && (r.Issued? <==> !f.signing && !f.dbStore && TokenHash(minted) !in s.tokens)
            && (if r.Issued? then r == Issued(userId, minted) && TokenGiven(c, s, s', userId, minted, f)
                else s'.tokens == s.tokens && s'.revealed == s.revealed)
            && (r == Failed(SigningFailed) <==> f.signing)
            && (!r.Issued? ==> r == Failed(SigningFailed) || r == Failed(StoreFailed))
  {
  }

  lemma RegisterDone(c: Config, s: State, email: string, password: string, userId: string, minted: string, f: Faults)
    ensures var (s', r) := Perform(c, s, Register(email, password, userId, minted), f);
            RegisterMeans(c, s, email, password, userId, minted, f, s', r)
  {
    IssueGives(c, s.(users := s.users[email := User(userId, password)]), userId, minted, f);
  }

  lemma LoginDone(c: Config, s: State, email: string, password: string, minted: string, f: Faults)
    ensures var (s', r) := Perform(c, s, Login(email, password, minted), f);
            LoginMeans(c, s, email, password, minted, f, s', r)
  {
    if email in s.users { IssueGives(c, s, s.users[email].id, minted, f); }
  }

  lemma RefreshDone(c: Config, s: State, token: string, minted: string, f: Faults)
    ensures var (s', r) := Perform(c, s, Refresh(token, minted), f);
            RefreshMeans(c, s, token, minted, f, s', r)
  {
    var h := TokenHash(token);
    var (s1, found) := Lookup(c, s, h, f);
    if token != "" && found.Ok? { IssueGives(c, Revoke(c, s1, h, f), found.value, minted, f); }
  }

  lemma LogoutDone(c: Config, s: State, token: string, f: Faults)
    ensures var (s', r) := Perform(c, s, Logout(token), f);
            LogoutMeans(c, s, token, f, s', r)
  {
  }

  /** No call replaces or removes a user. */
  lemma StepKeepsUsers(c: Config, s: State, call: (Op, Faults), email: string)
    requires email in s.users
    ensures var s' := Step(c, s, call).0; email in s'.users && s'.users[email] == s.users[email]
  {
    UsersChange(c, s, call);
  }

  /** The call registers this user: nobody had the e-mail before, and the password was the one given. */
  ghost predicate Registers(s: State, call: (Op, Faults), s': State, email: string, user: User) {
    && call.0.Register? && call.0.email == email && call.0.password == user.password && call.0.userId == user.id
    && email !in s.users && s'.users == s.users[email := user]
  }

  /** Users change by registration only. */
  lemma UsersChange(c: Config, s: State, call: (Op, Faults))
    ensures var s' := Step(c, s, call).0;
            s'.users != s.users ==>
              call.0.Register? && Registers(s, call, s', call.0.email, User(call.0.userId, call.0.password))
  {
    var (op, f) := call;
    if Plausible(s, op) {
      match op {
        case Register(email, password, userId, minted) => RegisterDone(c, s, email, password, userId, minted, f);
        case Login(email, password, minted) => LoginDone(c, s, email, password, minted, f);
        case Refresh(token, minted) => RefreshDone(c, s, token, minted, f);
        case Logout(token) => LogoutDone(c, s, token, f);
        case Tick(_) =>
      }
    }
  }

  lemma {:induction false} UsersStay(c: Config, s: State, calls: seq<(Op, Faults)>, email: string)
    requires email in s.users
    ensures email in End(c, s, calls).users && End(c, s, calls).users[email] == s.users[email]
    decreases |calls|
  {
    if calls != [] {
      StepKeepsUsers(c, s, calls[0], email);
      UsersStay(c, Step(c, s, calls[0]).0, calls[1..], email);
    }
  }

  /** The state before a call, and what the call is answered there. */
  lemma {:induction false} ResponseAt(c: Config, s: State, calls: seq<(Op, Faults)>, j: nat)
    requires j < |calls|
    ensures Responses(c, s, calls)[j] == Step(c, End(c, s, calls[..j]), calls[j]).1
    decreases |calls|
  {
    if j > 0 {
      ResponseAt(c, Step(c, s, calls[0]).0, calls[1..], j - 1);
      assert calls[..j][1..] == calls[1..][..j - 1];
    }
  }

  lemma {:induction false} EndSplits(c: Config, s: State, calls: seq<(Op, Faults)>, k: nat)
    requires k <= |calls|
    ensures End(c, s, calls) == End(c, End(c, s, calls[..k]), calls[k..])
    decreases |calls|
  {
    if k == 0 {
      assert calls[..0] == [] && calls[0..] == calls;
    } else {
      EndSplits(c, Step(c, s, calls[0]).0, calls[1..], k - 1);
      assert calls[..k][1..] == calls[1..][..k - 1] && calls[k..] == calls[1..][k - 1..];
    }
  }

  lemma NextEnd(c: Config, calls: seq<(Op, Faults)>, k: nat)
    requires k < |calls|
    ensures End(c, Init, calls[..k + 1]) == Step(c, End(c, Init, calls[..k]), calls[k]).0
  {
    EndSplits(c, Init, calls[..k + 1], k);
    assert calls[..k + 1][..k] == calls[..k] && calls[..k + 1][k..] == [calls[k]];
    assert [calls[k]][1..] == [];
    assert End(c, Step(c, End(c, Init, calls[..k]), calls[k]).0, []) == Step(c, End(c, Init, calls[..k]), calls[k]).0;
  }

  /** Every user was registered by one of the calls, under that e-mail and with that password and ID. */
  lemma {:induction false} UsersWereRegistered(c: Config, calls: seq<(Op, Faults)>, n: nat, email: string)
    returns (i: nat)
    requires n <= |calls| && email in End(c, Init, calls[..n]).users
    ensures i < n && Registers(End(c, Init, calls[..i]), calls[i], End(c, Init, calls[..i + 1]), email,
                               End(c, Init, calls[..n]).users[email])
  {
    if n > 0 {
      var before := End(c, Init, calls[..n - 1]);
      NextEnd(c, calls, n - 1);
      UsersChange(c, before, calls[n - 1]);
      if email in before.users {
        StepKeepsUsers(c, before, calls[n - 1], email);
        i := UsersWereRegistered(c, calls, n - 1, email);
      } else {
        i := n - 1;
      }
    }
  }

  /**
   * Logging in needs the password: over all call sequences, a Login that is answered with tokens of a user was given
   * the e-mail and the password with which that user had registered before.
   */
  lemma LoginNeedsRegistration(c: Config, calls: seq<(Op, Faults)>, j: nat) returns (i: nat)
    requires j < |calls| && calls[j].0.Login? && Responses(c, Init, calls)[j].Issued?
    ensures i < j && Registers(End(c, Init, calls[..i]), calls[i], End(c, Init, calls[..i + 1]), calls[j].0.email,
                               User(Responses(c, Init, calls)[j].userId, calls[j].0.password))
  {
    ResponseAt(c, Init, calls, j);
    var s := End(c, Init, calls[..j]);
    LoginDone(c, s, calls[j].0.email, calls[j].0.password, calls[j].0.minted, calls[j].1);
    i := UsersWereRegistered(c, calls, j, calls[j].0.email);
  }

  lemma {:induction false} TokensStayKnown(c: Config, s: State, calls: seq<(Op, Faults)>)
    requires (forall h :: h in s.tokens ==> h.of in s.generated)
    ensures forall h :: h in End(c, s, calls).tokens ==> h.of in End(c, s, calls).generated
    decreases |calls|
  {
    if calls != [] { TokensStayKnown(c, Step(c, s, calls[0]).0, calls[1..]); }
  }

  /** And it suffices: whoever has registered can log in from then on, as the same user, if nothing fails. */
  lemma RegisteredCanLogin(c: Config, calls: seq<(Op, Faults)>, i: nat, j: nat)
    requires i < j < |calls| && calls[i].0.Register? && Responses(c, Init, calls)[i].Issued?
    requires calls[j].0.Login? && calls[j].1 == NONE
    requires calls[j].0.email == calls[i].0.email && calls[j].0.password == calls[i].0.password
    requires Plausible(End(c, Init, calls[..j]), calls[j].0)
    ensures Responses(c, Init, calls)[j] == Issued(calls[i].0.userId, calls[j].0.minted)
  {
    var (email, password) := (calls[i].0.email, calls[i].0.password);
    var s := End(c, Init, calls[..i]);
    ResponseAt(c, Init, calls, i);
    RegisterDone(c, s, email, password, calls[i].0.userId, calls[i].0.minted, calls[i].1);
    NextEnd(c, calls, i);
    EndSplits(c, Init, calls[..j], i + 1);
    assert calls[..j][..i + 1] == calls[..i + 1];
    UsersStay(c, End(c, Init, calls[..i + 1]), calls[..j][i + 1..], email);
    TokensStayKnown(c, Init, calls[..j]);
    ResponseAt(c, Init, calls, j);
    LoginDone(c, End(c, Init, calls[..j]), email, password, calls[j].0.minted, NONE);
  }
}

/** The service as the source writes it, over its two stores; each method is proved against the specification above. */
module RefreshService {
  import opened Prelude
  import opened RefreshTokens
  import opened RefreshUsers

  class Service {
    const config: Config
    var now: nat
    var users: map<string, User>
    var tokens: map<TokenHash, TokenRow>
    var cache: map<TokenHash, CacheEntry>
    ghost var generated: set<string>
    ghost var revealed: set<string>

    ghost function Snapshot(): State
      reads this
    {
      State(now, users, tokens, cache, generated, revealed)
    }

    constructor (config: Config)
      ensures this.config == config && Snapshot() == Init
    {
      this.config, now, users, tokens, cache := config, 0, map[], map[], map[];
      generated, revealed := {}, {};
    }

    method RevokeRefreshToken(h: TokenHash, f: Faults) returns (ok: bool)
      modifies this`tokens, this`cache
      ensures Snapshot() == Revoke(config, old(Snapshot()), h, f) && ok == !f.dbDelete
    {
      if config.cached && !f.cacheDelete {
        cache := cache - {h};
      }
      if f.dbDelete {
        return false;
      }
      tokens := tokens - {h};
      return true;
    }

    method PersistRefreshToken(userId: string, minted: string, f: Faults) returns (r: Response)
      modifies this`now, this`tokens, this`cache, this`generated, this`revealed
      ensures (Snapshot(), r) == Persist(config, old(Snapshot()), userId, minted, f)
    {
      var h := TokenHash(minted);
      var expiresAt := now + config.ttl;
      now := now + f.lag;
      generated := generated + {minted};
      if config.cached && !f.cacheSet {
        cache := cache[h := CacheEntry(userId, if config.ttl > 0 then Some(now + config.ttl) else None)];
      }
      if f.dbStore || h in tokens {
        return Failed(StoreFailed);
      }
      tokens := tokens[h := TokenRow(userId, expiresAt)];
      revealed := revealed + {minted};
      return Issued(userId, minted);
    }

    method IssueTokenPair(userId: string, minted: string, f: Faults) returns (r: Response)
      modifies this`now, this`tokens, this`cache, this`generated, this`revealed
      ensures (Snapshot(), r) == Issue(config, old(Snapshot()), userId, minted, f)
    {
      if f.signing {
        return Failed(SigningFailed);
      }
      r := PersistRefreshToken(userId, minted, f);
    }

    method LookupRefreshToken(h: TokenHash, f: Faults) returns (r: Result<string, Failure>)
      modifies this`tokens, this`cache
      ensures (Snapshot(), r) == Lookup(config, old(Snapshot()), h, f)
    {
      if config.cached && !f.cacheGet && h in cache && Live(cache[h], now) {
        return Ok(cache[h].userId);
      }
      if f.dbRead {
        return Err(ReadFailed);
      }
      if h !in tokens {
        return Err(InvalidRefreshToken);
      }
      var stored := tokens[h];
      if now > stored.expiresAt {
        var _ := RevokeRefreshToken(h, f);
        return Err(ExpiredRefreshToken);
      }
      return Ok(stored.userId);
    }

    method Refresh(token: string, minted: string, f: Faults) returns (r: Response)
      modifies this`now, this`tokens, this`cache, this`generated, this`revealed
      ensures (Snapshot(), r) == Perform(config, old(Snapshot()), Op.Refresh(token, minted), f)
      ensures RefreshMeans(config, old(Snapshot()), token, minted, f, Snapshot(), r)
    {
      RefreshDone(config, Snapshot(), token, minted, f);
      if token == "" {
        return Failed(InvalidRefreshToken);
      }
      var found := LookupRefreshToken(TokenHash(token), f);
      if found.Err? {
        return Failed(found.error);
      }
      var ok := RevokeRefreshToken(TokenHash(token), f);
      if !ok {
        return Failed(StoreFailed);
      }
      r := IssueTokenPair(found.value, minted, f);
    }

    method Logout(token: string, f: Faults) returns (r: Response)
      modifies this`tokens, this`cache
      ensures (Snapshot(), r) == Perform(config, old(Snapshot()), Op.Logout(token), f)
      ensures LogoutMeans(config, old(Snapshot()), token, f, Snapshot(), r)
    {
      LogoutDone(config, Snapshot(), token, f);
      if token == "" {
        return Failed(InvalidRefreshToken);
      }
      var ok := RevokeRefreshToken(TokenHash(token), f);
      return if ok then LoggedOut else Failed(StoreFailed);
    }

    method Register(email: string, password: string, userId: string, minted: string, f: Faults) returns (r: Response)
      modifies this`now, this`users, this`tokens, this`cache, this`generated, this`revealed
      ensures (Snapshot(), r) == Perform(config, old(Snapshot()), Op.Register(email, password, userId, minted), f)
      ensures RegisterMeans(config, old(Snapshot()), email, password, userId, minted, f, Snapshot(), r)
    {
      RegisterDone(config, Snapshot(), email, password, userId, minted, f);
      var bad := CredentialsError(config, email, password);
      if bad.Some? {
        return Failed(bad.value);
      }
      if f.dbRead {
        return Failed(ReadFailed);
      }
      if email in users {
        return Failed(EmailTaken);
      }
      if !config.hashable(password) {
        return Failed(HashFailed);
      }
      if f.dbCreate {
        return Failed(StoreFailed);
      }
      users := users[email := User(userId, password)];
      r := IssueTokenPair(userId, minted, f);
    }

    method Login(email: string, password: string, minted: string, f: Faults) returns (r: Response)
      modifies this`now, this`tokens, this`cache, this`generated, this`revealed
      ensures (Snapshot(), r) == Perform(config, old(Snapshot()), Op.Login(email, password, minted), f)
      ensures LoginMeans(config, old(Snapshot()), email, password, minted, f, Snapshot(), r)
    {
      LoginDone(config, Snapshot(), email, password, minted, f);
      var bad := CredentialsError(config, email, password);
      if bad.Some? {
        return Failed(bad.value);
      }
      if f.dbRead {
        return Failed(ReadFailed);
      }
      if email !in users {
        return Failed(UserNotFound);
      }
      if users[email].password != password {
        return Failed(InvalidCredentials);
      }
      r := IssueTokenPair(users[email].id, minted, f);
    }
  }
}
