/**
 * Refresh and Logout as the single accesses they are made of, with any number of calls in flight and calls cut off
 * anywhere (internal/user/service.go). The stores are those of RefreshTokens.
 */
module RefreshOverlap {
  import opened Prelude
  import opened RefreshTokens

  /** What the two deletes of a call are for. */
  datatype Why = Serve(userId: string) | Purge | Close

  /** Where a call stands: the access it performs next, or its response. */
  datatype Pc =
    | AtCacheGet
    | AtRowGet
    | AtCacheDelete(why: Why)
    | AtRowDelete(why: Why)
    | AtMint(userId: string)
    | AtCacheSet(userId: string, minted: string, expiresAt: int)
    | AtRowInsert(userId: string, minted: string, expiresAt: int)
    | Done(response: Response)

  /**
   * One Refresh, or with `closing` one Logout. Histories: `due` - its look-up was answered while the token was due;
   * `clean` - it was not cut off and nothing failed that its response depends on.
   */
  datatype Flight = Flight(token: string, closing: bool, due: bool, clean: bool, pc: Pc)

  /**
   * The stores and the calls in flight. Histories: the row with which each token was handed out, the tokens whose row
   * somebody has deleted, and the tokens presented by any call.
   */
  datatype World = World(store: State, handed: map<string, TokenRow>, deleted: set<string>, presented: set<string>,
                         flights: map<nat, Flight>)

  /**
   * What a deployment rules out: with `turns`, Refreshes of one token do not overlap; without `deleteFaults`, cache
   * deletes do not fail; a token is cached within `lag` of computing its expiry.
   */
  datatype Rules = Rules(turns: bool, deleteFaults: bool, lag: nat)

  datatype Action =
    | Other(op: Op, f: Faults)
    | Start(fid: nat, token: string, closing: bool)
    | Access(fid: nat, fault: bool, minted: string)
    | CutOff(fid: nat)

  /** A handed-out token is due until its row is first deleted or has expired. */
  predicate Due(w: World, token: string) {
    token in w.handed && token !in w.deleted && w.store.now <= w.handed[token].expiresAt
  }

  /** One access; `fault` makes it fail. */
  function AccessStep(c: Config, s: State, token: string, pc: Pc, fault: bool, minted: string): (State, Pc) {
    var h := TokenHash(token);
    match pc
    case AtCacheGet =>
      (s, if c.cached && !fault && h in s.cache && Live(s.cache[h], s.now) then AtCacheDelete(Serve(s.cache[h].userId))
          else AtRowGet)
    case AtRowGet =>
      (s, if fault then Done(Failed(ReadFailed))
          else if h !in s.tokens then Done(Failed(InvalidRefreshToken))
          else AtCacheDelete(if s.now > s.tokens[h].expiresAt then Purge else Serve(s.tokens[h].userId)))
    case AtCacheDelete(why) => (if c.cached && !fault then s.(cache := s.cache - {h}) else s, AtRowDelete(why))
    case AtRowDelete(why) =>
      (if fault then s else s.(tokens := s.tokens - {h}),
       if why.Purge? then Done(Failed(ExpiredRefreshToken))
       else if fault then Done(Failed(StoreFailed))
       else if why.Close? then Done(LoggedOut)
       else AtMint(why.userId))
    case AtMint(userId) =>
      if fault then (s, Done(Failed(SigningFailed)))
      else (s.(generated := s.generated + {minted}), AtCacheSet(userId, minted, s.now + c.ttl))
    case AtCacheSet(userId, m, expiresAt) =>
      var e := CacheEntry(userId, if c.ttl > 0 then Some(s.now + c.ttl) else None);
      (if c.cached && !fault then s.(cache := s.cache[TokenHash(m) := e]) else s, AtRowInsert(userId, m, expiresAt))
    case AtRowInsert(userId, m, expiresAt) =>
      if fault || TokenHash(m) in s.tokens then (s, Done(Failed(StoreFailed)))
      else (s.(tokens := s.tokens[TokenHash(m) := TokenRow(userId, expiresAt)], revealed := s.revealed + {m}),
            Done(Issued(userId, m)))
    case Done(_) => (s, pc)
  }

  predicate Active(f: Flight) {
    !f.pc.Done?
  }

  /** No call that is about to cache a token has waited too long by this time. */
  ghost predicate OnTime(c: Config, r: Rules, w: World, now: nat) {
    forall fid :: fid in w.flights && w.flights[fid].pc.AtCacheSet? ==>
      now <= w.flights[fid].pc.expiresAt - c.ttl + r.lag
  }

  ghost predicate Enabled(c: Config, r: Rules, w: World, a: Action) {
    match a
    case Other(op, f) =>
      && !op.Refresh? && !op.Logout? && Plausible(w.store, op) && f.lag <= r.lag
      && (op.Register? || op.Login? ==> op.minted !in w.presented)
      && OnTime(c, r, w, Perform(c, w.store, op, f).0.now)
    case Start(fid, token, closing) =>
      && fid !in w.flights && token !in w.store.generated - w.store.revealed
      && (r.turns && !closing ==>
            forall i :: i in w.flights && w.flights[i].token == token && !w.flights[i].closing ==>
              !Active(w.flights[i]))
    case Access(fid, fault, minted) =>
      && fid in w.flights && Active(w.flights[fid])
      && (c.cached && fault && w.flights[fid].pc.AtCacheDelete? ==> r.deleteFaults)
      && (w.flights[fid].pc.AtMint? ==> minted !in w.store.generated + w.presented)
    case CutOff(fid) => fid in w.flights && Active(w.flights[fid])
  }

  function Begin(token: string, closing: bool): Pc {
    if token == "" then Done(Failed(InvalidRefreshToken)) else if closing then AtCacheDelete(Close) else AtCacheGet
  }

  /** The access decides the look-up. */
  predicate Decides(before: Pc, after: Pc) {
    before.AtRowGet? || (before.AtCacheGet? && after.AtCacheDelete?)
  }

  /** Failures of these accesses do not show in the response. */
  predicate Harmless(pc: Pc) {
    pc.AtCacheGet? || pc.AtCacheDelete? || pc.AtCacheSet?
  }

  function Advance(w: World, f: Flight, pc: Pc, fault: bool): Flight {
    f.(pc := pc,
       due := if Decides(f.pc, pc) then Due(w, f.token) else f.due,
       clean := f.clean && (!fault || Harmless(f.pc)))
  }

  /** The rows handed out, with that of the token this response carries. */
  function HandedWith(w: World, s: State, r: Response): map<string, TokenRow> {
    if r.Issued? && TokenHash(r.refreshToken) in s.tokens
    then w.handed[r.refreshToken := s.tokens[TokenHash(r.refreshToken)]] else w.handed
  }

  function Act(c: Config, w: World, a: Action): World
    requires a.Access? || a.CutOff? ==> a.fid in w.flights
  {
    match a
    case Other(op, f) =>
      var (s, r) := Perform(c, w.store, op, f);
      w.(store := s, handed := HandedWith(w, s, r))
    case Start(fid, token, closing) =>
      w.(presented := w.presented + {token},
         flights := w.flights[fid := Flight(token, closing, false, true, Begin(token, closing))])
    case Access(fid, fault, minted) =>
      var f := w.flights[fid];
      var (s, pc) := AccessStep(c, w.store, f.token, f.pc, fault, minted);
      World(s,
            if f.pc.AtRowInsert? && pc.response.Issued?
            then w.handed[f.pc.minted := TokenRow(f.pc.userId, f.pc.expiresAt)]
            else w.handed,
            if f.pc.AtRowDelete? && !fault then w.deleted + {f.token} else w.deleted,
            w.presented,
            w.flights[fid := Advance(w, f, pc, fault)])
    case CutOff(fid) => w.(flights := w.flights[fid := w.flights[fid].(pc := Done(Silent), clean := false)])
  }

  ghost function Next(c: Config, r: Rules, w: World, a: Action): World {
    if Enabled(c, r, w, a) then Act(c, w, a) else w
  }

  const EMPTY := World(Init, map[], {}, {}, map[])

  ghost function Run(c: Config, r: Rules, run: seq<Action>): World {
    if run == [] then EMPTY else Next(c, r, Run(c, r, run[..|run| - 1]), run[|run| - 1])
  }

  /** The rows are those handed out and not deleted since, and nobody can present what was never handed out. */
  ghost predicate RowsOk(w: World) {
    && (forall h :: h in w.store.tokens ==>
          h.of in w.handed && h.of !in w.deleted && w.store.tokens[h] == w.handed[h.of])
    && (forall t :: t in w.handed && t !in w.deleted ==> TokenHash(t) in w.store.tokens)
    && w.handed.Keys == w.store.revealed && w.store.revealed <= w.store.generated
    && w.deleted <= w.presented
    && (forall t :: t in w.presented && t in w.store.generated ==> t in w.store.revealed)
  }

  /** An entry of this user that may expire at most `lag` after a row that expires at this time. */
  predicate EntryFits(c: Config, r: Rules, e: CacheEntry, userId: string, expiresAt: int) {
    e.userId == userId && (c.ttl > 0 ==> e.expires.Some? && e.expires.value <= expiresAt + r.lag)
  }

  ghost predicate EntryOk(c: Config, r: Rules, w: World, h: TokenHash)
    requires h in w.store.cache
  {
    && c.cached && h.of in w.store.generated
    && (h.of in w.handed ==> EntryFits(c, r, w.store.cache[h], w.handed[h.of].userId, w.handed[h.of].expiresAt))
    && (!r.deleteFaults ==> h.of !in w.deleted)
  }

  predicate Minting(f: Flight) {
    f.pc.AtCacheSet? || f.pc.AtRowInsert?
  }

  ghost predicate FlightOk(c: Config, r: Rules, w: World, f: Flight) {
    && f.token in w.presented
    && (f.pc.AtRowDelete? && !r.deleteFaults ==> TokenHash(f.token) !in w.store.cache)
    && (Minting(f) ==> f.pc.minted in w.store.generated && f.pc.minted !in w.store.revealed)
    && (f.pc.AtCacheSet? ==> w.store.now <= f.pc.expiresAt - c.ttl + r.lag && TokenHash(f.pc.minted) !in w.store.cache)
    && (f.pc.AtRowInsert? && TokenHash(f.pc.minted) in w.store.cache ==>
          EntryFits(c, r, w.store.cache[TokenHash(f.pc.minted)], f.pc.userId, f.pc.expiresAt))
  }

  /** Two calls make different tokens. */
  ghost predicate Distinct(f: Flight, g: Flight) {
    Minting(f) && Minting(g) ==> f.pc.minted != g.pc.minted
  }

  ghost predicate Inv(c: Config, r: Rules, w: World) {
    && RowsOk(w)
    && (forall h :: h in w.store.cache ==> EntryOk(c, r, w, h))
    && (forall i :: i in w.flights ==> FlightOk(c, r, w, w.flights[i]))
    && (forall i, j {:trigger Distinct(w.flights[i], w.flights[j])} :: i in w.flights && j in w.flights && i != j ==>
          Distinct(w.flights[i], w.flights[j]))
  }

  /** What a change of the stores by one token that nobody had yet leaves right. */
  ghost predicate Issues(c: Config, r: Rules, w: World, w': World, m: string) {
    && m !in w.store.generated + w.presented && w'.presented == w.presented && w'.deleted == w.deleted
    && w'.flights == w.flights && w'.store.generated == w.store.generated + {m}
    && OnTime(c, r, w, w'.store.now)
    && (w'.store.cache == w.store.cache || (c.cached && w'.store.cache.Keys == w.store.cache.Keys + {TokenHash(m)}))
    && (forall h :: h in w.store.cache && h.of != m ==> h in w'.store.cache && w'.store.cache[h] == w.store.cache[h])
    && ((w'.store.tokens, w'.store.revealed, w'.handed) == (w.store.tokens, w.store.revealed, w.handed)
        || exists row ::
             && w'.store.tokens == w.store.tokens[TokenHash(m) := row] && w'.store.revealed == w.store.revealed + {m}
             && w'.handed == w.handed[m := row]
             && (TokenHash(m) in w'.store.cache ==>
                   EntryFits(c, r, w'.store.cache[TokenHash(m)], row.userId, row.expiresAt)))
  }

  lemma Uncached(c: Config, r: Rules, w: World, m: string)
    requires Inv(c, r, w) && m !in w.store.generated
    ensures TokenHash(m) !in w.store.cache
  {
    forall h | h in w.store.cache ensures h.of != m { assert EntryOk(c, r, w, h); }
  }

  lemma IssuingKeeps(c: Config, r: Rules, w: World, w': World, m: string)
    requires Inv(c, r, w) && Issues(c, r, w, w', m)
    ensures Inv(c, r, w')
  {
    Uncached(c, r, w, m);
    forall h | h in w'.store.cache
      ensures EntryOk(c, r, w', h)
    {
      if h.of != m { assert EntryOk(c, r, w, h); } else { assert h == TokenHash(m); }
    }
    forall i | i in w'.flights
      ensures FlightOk(c, r, w', w'.flights[i])
    {
      assert FlightOk(c, r, w, w.flights[i]);
    }
  }

  /** Registering and logging in issue a token whose row and entry differ by the lag at most. */
  lemma PersistIssues(c: Config, r: Rules, w: World, s: State, userId: string, m: string, f: Faults)
    requires Inv(c, r, w) && s == w.store.(users := s.users) && m !in w.store.generated + w.presented && f.lag <= r.lag
    requires OnTime(c, r, w, w.store.now + f.lag)
    ensures var (s', resp) := Persist(c, s, userId, m, f);
            Issues(c, r, w, w.(store := s', handed := HandedWith(w, s', resp)), m)
  {
    var (s', resp) := Persist(c, s, userId, m, f);
    Uncached(c, r, w, m);
    if resp.Issued? {
      assert s'.tokens == w.store.tokens[TokenHash(m) := TokenRow(userId, w.store.now + c.ttl)];
    }
  }

  lemma UsersKeep(c: Config, r: Rules, w: World, users: map<string, User>, now: nat)
    requires Inv(c, r, w) && OnTime(c, r, w, now)
    ensures Inv(c, r, w.(store := w.store.(users := users, now := now)))
  {
    var w' := w.(store := w.store.(users := users, now := now));
    forall h | h in w'.store.cache ensures EntryOk(c, r, w', h) { assert EntryOk(c, r, w, h); }
    forall i | i in w'.flights ensures FlightOk(c, r, w', w'.flights[i]) { assert FlightOk(c, r, w, w.flights[i]); }
  }

  lemma OtherKeeps(c: Config, r: Rules, w: World, a: Action)
    requires Inv(c, r, w) && Enabled(c, r, w, a) && a.Other?
    ensures Inv(c, r, Act(c, w, a))
  {
    var op, f := a.op, a.f;
    var s' := Perform(c, w.store, op, f).0;
    if s'.generated == w.store.generated {
      ChangesUsers(c, w, op, f);
      UsersKeep(c, r, w, s'.users, s'.now);
    } else {
      var userId := if op.Register? then op.userId else w.store.users[op.email].id;
      PersistIssues(c, r, w, w.store.(users := s'.users), userId, op.minted, f);
      IssuingKeeps(c, r, w, Act(c, w, a), op.minted);
    }
  }

  lemma ChangesUsers(c: Config, w: World, op: Op, f: Faults)
    requires !op.Refresh? && !op.Logout? && Plausible(w.store, op)
    requires Perform(c, w.store, op, f).0.generated == w.store.generated
    ensures var s' := Perform(c, w.store, op, f).0;
            Act(c, w, Other(op, f)) == w.(store := w.store.(users := s'.users, now := s'.now))
  {
  }

  lemma StartKeeps(c: Config, r: Rules, w: World, a: Action)
    requires Inv(c, r, w) && Enabled(c, r, w, a) && (a.Start? || a.CutOff?)
    ensures Inv(c, r, Act(c, w, a))
  {
    var w' := Act(c, w, a);
    forall h | h in w'.store.cache ensures EntryOk(c, r, w', h) { assert EntryOk(c, r, w, h); }
    forall i | i in w'.flights
      ensures FlightOk(c, r, w', w'.flights[i])
    {
      if i in w.flights { assert FlightOk(c, r, w, w.flights[i]); }
    }
    forall i, j | i in w'.flights && j in w'.flights && i != j
      ensures Distinct(w'.flights[i], w'.flights[j])
    {
      if i in w.flights && j in w.flights { assert Distinct(w.flights[i], w.flights[j]); }
    }
  }

  lemma AccessKeepsRows(c: Config, r: Rules, w: World, a: Action)
    requires Inv(c, r, w) && Enabled(c, r, w, a) && a.Access?
    ensures RowsOk(Act(c, w, a))
  {
    var pc := w.flights[a.fid].pc;
    assert FlightOk(c, r, w, w.flights[a.fid]);
    if !pc.AtRowDelete? && !pc.AtRowInsert? {
      var s := Act(c, w, a).store;
      assert (s.tokens, s.revealed) == (w.store.tokens, w.store.revealed);
    }
  }

  lemma AccessKeepsEntries(c: Config, r: Rules, w: World, a: Action)
    requires Inv(c, r, w) && Enabled(c, r, w, a) && a.Access?
    ensures var w' := Act(c, w, a); forall h :: h in w'.store.cache ==> EntryOk(c, r, w', h)
  {
    var w', f := Act(c, w, a), w.flights[a.fid];
    assert FlightOk(c, r, w, f);
    forall h | h in w'.store.cache
      ensures EntryOk(c, r, w', h)
    {
      if h in w.store.cache { assert EntryOk(c, r, w, h); }
    }
  }

  lemma AccessKeepsOwn(c: Config, r: Rules, w: World, a: Action)
    requires Inv(c, r, w) && Enabled(c, r, w, a) && a.Access?
    ensures FlightOk(c, r, Act(c, w, a), Act(c, w, a).flights[a.fid])
  {
    var f := w.flights[a.fid];
    assert FlightOk(c, r, w, f);
    if f.pc.AtMint? { Uncached(c, r, w, a.minted); }
  }

  /** Another call keeps what it holds when the stores change by deletes, or by entries and rows of other tokens. */
  lemma OtherKeepsHold(c: Config, r: Rules, w: World, w': World, g: Flight)
    requires FlightOk(c, r, w, g) && g.token in w'.presented && w'.store.now == w.store.now
    requires w.store.generated <= w'.store.generated
    requires g.pc.AtRowDelete? && TokenHash(g.token) in w'.store.cache ==> TokenHash(g.token) in w.store.cache
    requires Minting(g) ==> g.pc.minted !in w'.store.revealed
    requires Minting(g) ==> TokenHash(g.pc.minted) in w'.store.cache ==>
               TokenHash(g.pc.minted) in w.store.cache
               && w'.store.cache[TokenHash(g.pc.minted)] == w.store.cache[TokenHash(g.pc.minted)]
    ensures FlightOk(c, r, w', g)
  {
  }

  lemma AccessKeepsOther(c: Config, r: Rules, w: World, a: Action, i: nat)
    requires Inv(c, r, w) && Enabled(c, r, w, a) && a.Access? && i in w.flights && i != a.fid
    ensures FlightOk(c, r, Act(c, w, a), w.flights[i])
    ensures Distinct(w.flights[i], Act(c, w, a).flights[a.fid])
  {
    var f, g := w.flights[a.fid], w.flights[i];
    assert FlightOk(c, r, w, f) && FlightOk(c, r, w, g) && Distinct(g, f);
    OtherKeepsHold(c, r, w, Act(c, w, a), g);
  }

  lemma AccessKeeps(c: Config, r: Rules, w: World, a: Action)
    requires Inv(c, r, w) && Enabled(c, r, w, a) && a.Access?
    ensures Inv(c, r, Act(c, w, a))
  {
    var w' := Act(c, w, a);
    AccessKeepsRows(c, r, w, a);
    AccessKeepsEntries(c, r, w, a);
    AccessKeepsOwn(c, r, w, a);
    forall i | i in w'.flights && i != a.fid
      ensures FlightOk(c, r, w', w'.flights[i])
    {
      AccessKeepsOther(c, r, w, a, i);
    }
    forall i, j | i in w'.flights && j in w'.flights && i != j
      ensures Distinct(w'.flights[i], w'.flights[j])
    {
      assert Distinct(w.flights[i], w.flights[j]);
      if i != a.fid { AccessKeepsOther(c, r, w, a, i); }
      if j != a.fid { AccessKeepsOther(c, r, w, a, j); }
    }
  }

  lemma {:induction false} RunKeeps(c: Config, r: Rules, run: seq<Action>)
    ensures Inv(c, r, Run(c, r, run))
  {
    if run != [] {
      var w, a := Run(c, r, run[..|run| - 1]), run[|run| - 1];
      RunKeeps(c, r, run[..|run| - 1]);
      if Enabled(c, r, w, a) {
        if a.Other? { OtherKeeps(c, r, w, a); }
        else if a.Access? { AccessKeeps(c, r, w, a); }
        else { StartKeeps(c, r, w, a); }
      }
    }
  }

  /** The call has been told that its token is good. */
  predicate Serving(pc: Pc) {
    match pc
    case AtCacheDelete(why) => why.Serve?
    case AtRowDelete(why) => why.Serve?
    case AtMint(_) => true
    case AtCacheSet(_, _, _) => true
    case AtRowInsert(_, _, _) => true
    case Done(response) => response.Issued?
    case _ => false
  }

  predicate Undecided(pc: Pc) {
    pc.AtCacheGet? || pc.AtRowGet?
  }

  /** The cache says of no token that it is good when its row does not. */
  predicate CacheFaithful(c: Config, r: Rules) {
    c.cached ==> c.ttl > 0 && r.lag <= 1 && !r.deleteFaults
  }

  ghost predicate Judged(f: Flight) {
    && (Serving(f.pc) ==> f.due && !f.closing)
    && (Undecided(f.pc) ==> !f.due && !f.closing)
    && (f.clean && !f.closing && !Serving(f.pc) ==> !f.due)
  }

  ghost predicate AllJudged(w: World) {
    forall i :: i in w.flights ==> Judged(w.flights[i])
  }

  lemma AccessJudges(c: Config, r: Rules, w: World, a: Action)
    requires CacheFaithful(c, r) && Inv(c, r, w) && Enabled(c, r, w, a) && a.Access? && Judged(w.flights[a.fid])
    ensures Judged(Act(c, w, a).flights[a.fid])
  {
    var f := w.flights[a.fid];
    var h := TokenHash(f.token);
    assert FlightOk(c, r, w, f);
    if f.pc.AtCacheGet? && h in w.store.cache { assert EntryOk(c, r, w, h); }
  }

  lemma {:induction false} RunJudges(c: Config, r: Rules, run: seq<Action>)
    requires CacheFaithful(c, r)
    ensures AllJudged(Run(c, r, run))
  {
    if run != [] {
      var w, a := Run(c, r, run[..|run| - 1]), run[|run| - 1];
      RunJudges(c, r, run[..|run| - 1]);
      RunKeeps(c, r, run[..|run| - 1]);
      if Enabled(c, r, w, a) && a.Access? { AccessJudges(c, r, w, a); }
    }
  }

  /** The finished Refreshes of a token that were served, and those whose look-up came while the token was due. */
  function Served(w: World, token: string): set<nat> {
    set i | i in w.flights && w.flights[i].token == token && !w.flights[i].closing
            && w.flights[i].pc.Done? && w.flights[i].pc.response.Issued?
  }

  function LookedUpDue(w: World, token: string): set<nat> {
    set i | i in w.flights && w.flights[i].token == token && !w.flights[i].closing
            && w.flights[i].pc.Done? && w.flights[i].due
  }

  /**
   * However Refreshes and Logouts overlap, and with or without the cache: nobody is served whose look-up came after
   * the token's first delete or expiry, and everybody else is unless cut off or failed by a store. So when none of
   * them was, a token was served exactly as often as it was looked up before its first delete and expiry.
   */
  lemma OverlapDecidesReuse(c: Config, r: Rules, run: seq<Action>, token: string)
    requires CacheFaithful(c, r)
    ensures var w := Run(c, r, run);
            && Served(w, token) <= LookedUpDue(w, token)
            && (forall i :: i in LookedUpDue(w, token) && w.flights[i].clean ==> i in Served(w, token))
            && ((forall i :: i in LookedUpDue(w, token) ==> w.flights[i].clean) ==>
                  |Served(w, token)| == |LookedUpDue(w, token)|)
  {
    RunJudges(c, r, run);
    var w := Run(c, r, run);
    forall i | i in LookedUpDue(w, token) && w.flights[i].clean
      ensures i in Served(w, token)
    {
      assert Judged(w.flights[i]);
    }
    forall i | i in Served(w, token) ensures i in LookedUpDue(w, token) { assert Judged(w.flights[i]); }
    if forall i :: i in LookedUpDue(w, token) ==> w.flights[i].clean {
      assert Served(w, token) == LookedUpDue(w, token);
    }
  }

  function FaultAt(f: Faults, pc: Pc): bool {
    match pc
    case AtCacheGet => f.cacheGet
    case AtRowGet => f.dbRead
    case AtCacheDelete(_) => f.cacheDelete
    case AtRowDelete(_) => f.dbDelete
    case AtMint(_) => f.signing
    case AtCacheSet(_, _, _) => f.cacheSet
    case AtRowInsert(_, _, _) => f.dbStore
    case Done(_) => false
  }

  function Rank(pc: Pc): nat {
    match pc
    case AtCacheGet => 7
    case AtRowGet => 6
    case AtCacheDelete(_) => 5
    case AtRowDelete(_) => 4
    case AtMint(_) => 3
    case AtCacheSet(_, _, _) => 2
    case AtRowInsert(_, _, _) => 1
    case Done(_) => 0
  }

  /** A call performing its remaining accesses with nothing in between but the lag before it caches its token. */
  function Drive(c: Config, s: State, token: string, pc: Pc, f: Faults, minted: string): (State, Pc)
    decreases Rank(pc)
  {
    if pc.Done? then (s, pc)
    else
      var before := if pc.AtCacheSet? then s.(now := s.now + f.lag) else s;
      var (s', pc') := AccessStep(c, before, token, pc, FaultAt(f, pc), minted);
      Drive(c, s', token, pc', f, minted)
  }

  lemma DriveMint(c: Config, s: State, token: string, userId: string, f: Faults, minted: string)
    ensures var (s', r) := Issue(c, s, userId, minted, f);
            Drive(c, s, token, AtMint(userId), f, minted) == (s', Done(r))
  {
    if !f.signing {
      var (s1, pc1) := AccessStep(c, s, token, AtMint(userId), false, minted);
      var (s2, pc2) := AccessStep(c, s1.(now := s1.now + f.lag), token, pc1, f.cacheSet, minted);
      assert Drive(c, s2, token, pc2, f, minted) == AccessStep(c, s2, token, pc2, f.dbStore, minted);
    }
  }

  lemma DriveRevoke(c: Config, s: State, token: string, why: Why, f: Faults, minted: string)
    ensures var s' := Revoke(c, s, TokenHash(token), f);
            Drive(c, s, token, AtCacheDelete(why), f, minted) ==
            if why.Serve? && !f.dbDelete then Drive(c, s', token, AtMint(why.userId), f, minted)
            else (s', Done(if why.Purge? then Failed(ExpiredRefreshToken)
                           else if f.dbDelete then Failed(StoreFailed)
                           else LoggedOut))
  {
    var s1 := AccessStep(c, s, token, AtCacheDelete(why), f.cacheDelete, minted).0;
    var (s2, pc2) := AccessStep(c, s1, token, AtRowDelete(why), f.dbDelete, minted);
    assert Drive(c, s, token, AtCacheDelete(why), f, minted) == Drive(c, s1, token, AtRowDelete(why), f, minted);
    assert s2 == Revoke(c, s, TokenHash(token), f);
    assert Drive(c, s1, token, AtRowDelete(why), f, minted) == Drive(c, s2, token, pc2, f, minted);
  }

  /** An uninterrupted Refresh does what the service without interruption is specified to do. */
  lemma RefreshIsSteps(c: Config, s: State, token: string, minted: string, f: Faults)
    ensures var (s', r) := Perform(c, s, Refresh(token, minted), f);
            Drive(c, s, token, Begin(token, false), f, minted) == (s', Done(r))
  {
    if token != "" {
      var h := TokenHash(token);
      var pc := AccessStep(c, s, token, AtCacheGet, f.cacheGet, minted).1;
      var pc' := if pc.AtRowGet? then AccessStep(c, s, token, AtRowGet, f.dbRead, minted).1 else pc;
      assert Drive(c, s, token, AtCacheGet, f, minted) == Drive(c, s, token, pc', f, minted);
      if pc'.AtCacheDelete? {
        DriveRevoke(c, s, token, pc'.why, f, minted);
        if pc'.why.Serve? { DriveMint(c, Revoke(c, s, h, f), token, pc'.why.userId, f, minted); }
      }
    }
  }

  /** And so does an uninterrupted Logout. */
  lemma LogoutIsSteps(c: Config, s: State, token: string, minted: string, f: Faults)
    ensures var (s', r) := Perform(c, s, Logout(token), f);
            Drive(c, s, token, Begin(token, true), f, minted) == (s', Done(r))
  {
    DriveRevoke(c, s, token, Close, f, minted);
  }
}

/** Exactly when a refresh token is good for one Refresh only. */
module RefreshReuse {
  import opened Prelude
  import opened RefreshTokens
  import opened RefreshRefinement
  import opened RefreshOverlap

  predicate WasServed(f: Flight) {
    f.pc.Done? && f.pc.response.Issued?
  }

  /** Two Refreshes of one token. */
  predicate SameToken(f: Flight, g: Flight) {
    f.token == g.token && !f.closing && !g.closing
  }

  /** No token has been traded for two others. */
  ghost predicate OnceOnly(w: World) {
    forall i, j ::
      (i in w.flights && j in w.flights && SameToken(w.flights[i], w.flights[j])
       && WasServed(w.flights[i]) && WasServed(w.flights[j])) ==> i == j
  }

  /**
   * Two Refreshes of one token are not both under way, and once one has been served the other is not told that the
   * token is good.
   */
  predicate Apart(f: Flight, g: Flight) {
    SameToken(f, g) ==>
      && !(Active(f) && Active(g))
      && !(Serving(f.pc) && WasServed(g)) && !(Serving(g.pc) && WasServed(f))
  }

  /** Whoever gets past the delete of the row leaves the token deleted. */
  predicate Spent(w: World, f: Flight) {
    !f.closing && Serving(f.pc) && !f.pc.AtCacheDelete? && !f.pc.AtRowDelete? ==> f.token in w.deleted
  }

  ghost predicate Alone(w: World) {
    && (forall i :: i in w.flights ==> Spent(w, w.flights[i]))
    && (forall i, j {:trigger Apart(w.flights[i], w.flights[j])} :: i in w.flights && j in w.flights && i != j ==>
          Apart(w.flights[i], w.flights[j]))
  }

  /** Cache deletes that work keep the cache from vouching for a token whose row is gone. */
  predicate Strict(c: Config, r: Rules) {
    r.turns && !(c.cached && r.deleteFaults)
  }

  /** A look-up that says a token is good says so before anybody has deleted its row. */
  lemma LookedUpBeforeDelete(c: Config, r: Rules, w: World, f: Flight, fault: bool, minted: string)
    requires Strict(c, r) && Inv(c, r, w) && Undecided(f.pc)
    requires Serving(AccessStep(c, w.store, f.token, f.pc, fault, minted).1)
    ensures f.token !in w.deleted
  {
    var h := TokenHash(f.token);
    if h in w.store.cache { assert EntryOk(c, r, w, h); }
  }

  lemma AccessApart(c: Config, r: Rules, w: World, a: Action, j: nat)
    requires Strict(c, r) && Inv(c, r, w) && Alone(w) && Enabled(c, r, w, a) && a.Access?
    requires j in w.flights && j != a.fid
    ensures Apart(Act(c, w, a).flights[a.fid], w.flights[j]) && Apart(w.flights[j], Act(c, w, a).flights[a.fid])
  {
    var f, g := w.flights[a.fid], w.flights[j];
    assert Apart(f, g) && Spent(w, g);
    if Undecided(f.pc) && Serving(AccessStep(c, w.store, f.token, f.pc, a.fault, a.minted).1) {
      LookedUpBeforeDelete(c, r, w, f, a.fault, a.minted);
    }
  }

  lemma AccessAlone(c: Config, r: Rules, w: World, a: Action)
    requires Strict(c, r) && Inv(c, r, w) && Alone(w) && Enabled(c, r, w, a) && a.Access?
    ensures Alone(Act(c, w, a))
  {
    var w' := Act(c, w, a);
    forall i | i in w'.flights ensures Spent(w', w'.flights[i]) { assert Spent(w, w.flights[i]); }
    forall i, j | i in w'.flights && j in w'.flights && i != j
      ensures Apart(w'.flights[i], w'.flights[j])
    {
      assert Apart(w.flights[i], w.flights[j]);
      if i == a.fid { AccessApart(c, r, w, a, j); }
      if j == a.fid { AccessApart(c, r, w, a, i); }
    }
  }

  lemma OtherAlone(c: Config, r: Rules, w: World, a: Action)
    requires Strict(c, r) && Alone(w) && Enabled(c, r, w, a) && !a.Access?
    ensures Alone(Act(c, w, a))
  {
    var w' := Act(c, w, a);
    forall i | i in w'.flights
      ensures Spent(w', w'.flights[i])
    {
      if i in w.flights { assert Spent(w, w.flights[i]); }
    }
    forall i, j | i in w'.flights && j in w'.flights && i != j
      ensures Apart(w'.flights[i], w'.flights[j])
    {
      if i in w.flights && j in w.flights { assert Apart(w.flights[i], w.flights[j]); }
    }
  }

  lemma {:induction false} RunAlone(c: Config, r: Rules, run: seq<Action>)
    requires Strict(c, r)
    ensures Alone(Run(c, r, run))
  {
    if run != [] {
      var w, a := Run(c, r, run[..|run| - 1]), run[|run| - 1];
      RunAlone(c, r, run[..|run| - 1]);
      RunKeeps(c, r, run[..|run| - 1]);
      if Enabled(c, r, w, a) {
        if a.Access? { AccessAlone(c, r, w, a); } else { OtherAlone(c, r, w, a); }
      }
    }
  }

  lemma AloneIsOnce(w: World)
    requires Alone(w)
    ensures OnceOnly(w)
  {
    forall i, j | i in w.flights && j in w.flights && i != j ensures Apart(w.flights[i], w.flights[j]) {}
  }

  /** Without a cache and with a lifetime below zero every row is expired as soon as it is there. */
  ghost predicate NothingGood(w: World) {
    && (forall t :: t in w.handed ==> w.handed[t].expiresAt < w.store.now)
    && (forall i :: i in w.flights ==> !Serving(w.flights[i].pc))
  }

  lemma OtherServesNobody(c: Config, r: Rules, w: World, a: Action)
    requires !c.cached && c.ttl < 0 && NothingGood(w) && Enabled(c, r, w, a) && a.Other?
    ensures NothingGood(Act(c, w, a))
  {
    assert w.store.now <= Act(c, w, a).store.now;
  }

  lemma AccessServesNobody(c: Config, r: Rules, w: World, a: Action)
    requires !c.cached && c.ttl < 0 && NothingGood(w) && RowsOk(w) && Enabled(c, r, w, a) && !a.Other?
    ensures NothingGood(Act(c, w, a))
  {
    if a.Access? {
      var f := w.flights[a.fid];
      assert TokenHash(f.token) in w.store.tokens ==> f.token in w.handed;
      assert !Serving(AccessStep(c, w.store, f.token, f.pc, a.fault, a.minted).1);
    }
  }

  lemma {:induction false} RunServesNobody(c: Config, r: Rules, run: seq<Action>)
    requires !c.cached && c.ttl < 0
    ensures NothingGood(Run(c, r, run))
  {
    if run != [] {
      var w, a := Run(c, r, run[..|run| - 1]), run[|run| - 1];
      RunServesNobody(c, r, run[..|run| - 1]);
      RunKeeps(c, r, run[..|run| - 1]);
      if Enabled(c, r, w, a) {
        if a.Other? { OtherServesNobody(c, r, w, a); } else { AccessServesNobody(c, r, w, a); }
      }
    }
  }

  lemma Extend(c: Config, r: Rules, run: seq<Action>, a: Action) returns (run': seq<Action>)
    requires Enabled(c, r, Run(c, r, run), a)
    ensures Run(c, r, run') == Act(c, Run(c, r, run), a)
  {
    run' := run + [a];
    assert run'[..|run'| - 1] == run;
  }

  /** What one access of a call changes and what it leaves alone. */
  lemma Go(c: Config, r: Rules, run: seq<Action>, fid: nat, fault: bool, minted: string) returns (run': seq<Action>)
    requires Enabled(c, r, Run(c, r, run), Access(fid, fault, minted))
    ensures Run(c, r, run').flights.Keys == Run(c, r, run).flights.Keys
    ensures var w, w' := Run(c, r, run), Run(c, r, run');
            var g, g' := w.flights[fid], w'.flights[fid];
            && w'.presented == w.presented
            && (forall i :: i in w.flights && i != fid ==> w'.flights[i] == w.flights[i])
            && g'.token == g.token && g'.closing == g.closing
            && (w'.store, g'.pc) == AccessStep(c, w.store, g.token, g.pc, fault, minted)
  {
    run' := Extend(c, r, run, Access(fid, fault, minted));
  }

  /** Driving a call to its end is itself a run, and leaves the other calls alone. */
  lemma {:induction false} DriveIsRun(c: Config, r: Rules, run: seq<Action>, fid: nat, f: Faults, minted: string)
    returns (run': seq<Action>)
    requires var w := Run(c, r, run);
             && fid in w.flights && f.lag == 0 && (c.cached && f.cacheDelete ==> r.deleteFaults)
             && (Rank(w.flights[fid].pc) >= 3 ==> minted !in w.store.generated + w.presented)
    ensures Run(c, r, run').flights.Keys == Run(c, r, run).flights.Keys
    ensures var w, w' := Run(c, r, run), Run(c, r, run');
            var g, g' := w.flights[fid], w'.flights[fid];
            && w'.presented == w.presented
            && (forall i :: i in w.flights && i != fid ==> w'.flights[i] == w.flights[i])
            && g'.token == g.token && g'.closing == g.closing
            && (w'.store, g'.pc) == Drive(c, w.store, g.token, g.pc, f, minted)
    decreases Rank(Run(c, r, run).flights[fid].pc)
  {
    var w := Run(c, r, run);
    var g := w.flights[fid];
    if g.pc.Done? {
      run' := run;
    } else {
      run' := Go(c, r, run, fid, FaultAt(f, g.pc), minted);
      run' := DriveIsRun(c, r, run', fid, f, minted);
    }
  }

  /** A call that was told its token is good goes on to be served, whatever has happened to the token since. */
  lemma GoesOn(c: Config, r: Rules, run: seq<Action>, fid: nat, f: Faults, minted: string) returns (run': seq<Action>)
    requires var w := Run(c, r, run);
             && fid in w.flights && w.flights[fid].pc.AtCacheDelete? && w.flights[fid].pc.why.Serve?
             && f == NONE.(cacheDelete := f.cacheDelete) && (c.cached && f.cacheDelete ==> r.deleteFaults)
             && minted !in w.store.generated + w.presented
    ensures Run(c, r, run').flights.Keys == Run(c, r, run).flights.Keys
    ensures var w, w' := Run(c, r, run), Run(c, r, run');
            var g, g' := w.flights[fid], w'.flights[fid];
            && w'.presented == w.presented
            && (forall i :: i in w.flights && i != fid ==> w'.flights[i] == w.flights[i])
            && g'.token == g.token && g'.closing == g.closing && WasServed(g')
            && w'.store == Persist(c, Revoke(c, w.store, TokenHash(g.token), f), g.pc.why.userId, minted, f).0
  {
    var w := Run(c, r, run);
    var g := w.flights[fid];
    RunKeeps(c, r, run);
    DriveRevoke(c, w.store, g.token, g.pc.why, f, minted);
    DriveMint(c, Revoke(c, w.store, TokenHash(g.token), f), g.token, g.pc.why.userId, f, minted);
    run' := DriveIsRun(c, r, run, fid, f, minted);
  }

  /** The stores after one registration. */
  function Registered(c: Config, email: string, password: string): State {
    var entry := CacheEntry("u", if c.ttl > 0 then Some(c.ttl) else None);
    State(0, map[email := User("u", password)], map[TokenHash("t") := TokenRow("u", c.ttl)],
          if c.cached then map[TokenHash("t") := entry] else map[], {"t"}, {"t"})
  }

  lemma Registers(c: Config, r: Rules, email: string, password: string) returns (run: seq<Action>)
    requires CanRegister(c, email, password)
    ensures Run(c, r, run) ==
            World(Registered(c, email, password), map["t" := TokenRow("u", c.ttl)], {}, {}, map[])
  {
    run := Extend(c, r, [], Other(Register(email, password, "u", "t"), NONE));
  }

  /** A Refresh starts and is told that the token is good, by the cache if there is one and else by the row. */
  lemma LooksUp(c: Config, r: Rules, run: seq<Action>, fid: nat) returns (run': seq<Action>)
    requires var w := Run(c, r, run);
             && fid !in w.flights && "t" !in w.store.generated - w.store.revealed
             && (r.turns ==> forall i :: i in w.flights ==> !Active(w.flights[i]))
             && (if c.cached then TokenHash("t") in w.store.cache && Live(w.store.cache[TokenHash("t")], w.store.now)
                 else TokenHash("t") in w.store.tokens && w.store.now <= w.store.tokens[TokenHash("t")].expiresAt)
    ensures var w, w' := Run(c, r, run), Run(c, r, run');
            && fid in w'.flights
            && w' == w.(presented := w.presented + {"t"}, flights := w.flights[fid := w'.flights[fid]])
            && w'.flights[fid].token == "t" && !w'.flights[fid].closing
            && w'.flights[fid].pc.AtCacheDelete? && w'.flights[fid].pc.why.Serve?
  {
    run' := Extend(c, r, run, Start(fid, "t", false));
    run' := Extend(c, r, run', Access(fid, false, ""));
    if !c.cached { run' := Extend(c, r, run', Access(fid, false, "")); }
  }

  /** Two Refreshes that look the token up before either deletes it are both served. */
  lemma OverlapServesTwice(c: Config, r: Rules, email: string, password: string) returns (run: seq<Action>)
    requires !r.turns && (c.cached || c.ttl >= 0) && CanRegister(c, email, password)
    ensures !OnceOnly(Run(c, r, run))
  {
    run := Registers(c, r, email, password);
    run := LooksUp(c, r, run, 1);
    run := LooksUp(c, r, run, 2);
    run := GoesOn(c, r, run, 1, NONE, "t1");
    run := GoesOn(c, r, run, 2, NONE, "t2");
    var w := Run(c, r, run);
    assert 1 in w.flights && 2 in w.flights && WasServed(w.flights[1]) && WasServed(w.flights[2]);
  }

  /** And so are two in turn, if the first could not delete the cache entry. */
  lemma CacheServesTwice(c: Config, r: Rules, email: string, password: string) returns (run: seq<Action>)
    requires c.cached && r.deleteFaults && CanRegister(c, email, password)
    ensures !OnceOnly(Run(c, r, run))
  {
    var f := NONE.(cacheDelete := true);
    run := Registers(c, r, email, password);
    run := LooksUp(c, r, run, 1);
    run := GoesOn(c, r, run, 1, f, "t1");
    run := LooksUp(c, r, run, 2);
    run := GoesOn(c, r, run, 2, f, "t2");
    var w := Run(c, r, run);
    assert 1 in w.flights && 2 in w.flights && WasServed(w.flights[1]) && WasServed(w.flights[2]);
  }

  /**
   * Exactly when refresh tokens are single-use: in no run is a token traded twice if and only if Refreshes of one token
   * take turns and no cache delete fails (or nothing is ever served, there being no cache and a lifetime below zero).
   */
  lemma SingleUseIff(c: Config, r: Rules, email: string, password: string)
    requires CanRegister(c, email, password)
    ensures (forall run :: OnceOnly(Run(c, r, run))) <==>
            (r.turns && !(c.cached && r.deleteFaults)) || (!c.cached && c.ttl < 0)
  {
    if Strict(c, r) {
      forall run ensures OnceOnly(Run(c, r, run)) { RunAlone(c, r, run); AloneIsOnce(Run(c, r, run)); }
    } else if !c.cached && c.ttl < 0 {
      forall run ensures OnceOnly(Run(c, r, run)) { RunServesNobody(c, r, run); }
    } else {
      var run;
      if !r.turns { run := OverlapServesTwice(c, r, email, password); }
      else { run := CacheServesTwice(c, r, email, password); }
    }
  }
}
