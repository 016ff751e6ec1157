/**
 * The API-key validity cache (internal/auth/keycache.go) over the key table, as a state machine whose
 * steps are single Redis or Postgres accesses. Any number of Resolves can be in flight.
 * Times are milliseconds on one clock; an entry set at t with a TTL is live while now < t + TTL.
 */
module KeyCache {
  import opened Prelude
  import opened ApiKeys

  type Pos = x: int | 0 < x witness 1

  /** The tombstone lifetime, `time.Hour`. */
  const HOUR: nat := 3_600_000

  /** A presented key as the format check sees it: rejected, or split into its lookup prefix and full text. */
  datatype RawKey = Malformed(text: string) | Keyed(prefix: string, text: string)

  function Parse(text: string): RawKey {
    match ExtractAPIKeyPrefix(text)
    case Ok(prefix) => Keyed(prefix, text)
    case Err(_) => Malformed(text)
  }

  /** The ideal bcrypt hash of one raw key: it accepts that key and no other. */
  datatype KeyHash = KeyHash(of: RawKey)

  datatype Identity = Identity(id: string, serviceId: string, orgId: string)

  datatype Record = Record(identity: Identity, prefix: string, keyHash: KeyHash, revoked: bool)

  datatype KeyRow = KeyRow(identity: Identity, keyHash: KeyHash, revokedAt: Option<nat>)

  datatype ServiceRow = ServiceRow(orgId: string, deletedAt: Option<nat>)

  /** Postgres: services by id, keys by their UNIQUE prefix. */
  datatype Database = Database(services: map<string, ServiceRow>, keys: map<string, KeyRow>)

  datatype Entry<T> = Entry(value: T, expires: nat)

  /** Redis: `apikey:prefix:*`, `apikey:validated:*` (by raw key, SHA-256 being ideal), `apikey:revoked:*`. */
  datatype Redis = Redis(prefixes: map<string, Entry<Record>>,
                         validated: map<RawKey, Entry<Identity>>,
                         revoked: map<string, nat>)

  datatype Store = Store(now: nat, db: Database, redis: Redis)

  datatype Reason = BadFormat | Revoked | NotFound | InvalidKey | RedisError | DatabaseError

  datatype Outcome = Accepted(identity: Identity) | Rejected(reason: Reason)

  /** Where a Resolve stands: the access it performs next, or its outcome. */
  datatype Pc =
    | AtExists
    | AtGetValidated
    | AtGetPrefix
    | AtLookup
    | AtSetPrefix(record: Record)
    | AtSetValidated(identity: Identity)
    | Done(outcome: Outcome)

  /**
   * `maxFlight` bounds how long a Resolve stays in flight. `existsFaults` says whether the tombstone
   * check may fail in this deployment. Each process decides once, when it connects, whether it has Redis.
   */
  datatype Config = Config(prefixTTL: Pos, validationTTL: Pos, maxFlight: nat,
                           existsFaults: bool, resolverRedis: bool, apiRedis: bool)

  function KeyPrefix(raw: RawKey): string {
    if raw.Keyed? then raw.prefix else ""
  }

  function RecordOf(prefix: string, row: KeyRow): Record {
    Record(row.identity, prefix, row.keyHash, false)
  }

  function Earliest(a: Option<nat>, b: Option<nat>): Option<nat> {
    match (a, b)
    case (None, _) => b
    case (_, None) => a
    case (Some(x), Some(y)) => if x <= y then a else b
  }

  /** When the key with this prefix stopped being active: revoked, or its service deleted, whichever came first. */
  function DeadAt(db: Database, prefix: string): Option<nat> {
    if prefix !in db.keys then None
    else
      var row := db.keys[prefix];
      Earliest(row.revokedAt,
               if row.identity.serviceId in db.services then db.services[row.identity.serviceId].deletedAt else None)
  }

  /** `GetActiveAPIKeyByPrefix`: the row, if it is not revoked and its service is not deleted. */
  function ActiveRecord(db: Database, prefix: string): Option<Record> {
    if prefix !in db.keys || db.keys[prefix].revokedAt.Some? then None
    else
      var row := db.keys[prefix];
      if row.identity.serviceId in db.services && db.services[row.identity.serviceId].deletedAt.None?
      then Some(RecordOf(prefix, row))
      else None
  }

  predicate Live<K, T>(entries: map<K, Entry<T>>, key: K, now: nat) {
    key in entries && now < entries[key].expires
  }

  predicate Tombstoned(redis: Redis, prefix: string, now: nat) {
    prefix in redis.revoked && now < redis.revoked[prefix]
  }

  /** What `Resolve` does with a loaded record (keycache.go:80-94). */
  function Check(c: Config, raw: RawKey, record: Record): Pc {
    if record.revoked then Done(Rejected(Revoked))
    else if record.keyHash != KeyHash(raw) then Done(Rejected(InvalidKey))
    else if c.resolverRedis then AtSetValidated(record.identity)
    else Done(Accepted(record.identity))
  }

  /** The first access of a Resolve. */
  function Begin(c: Config, raw: RawKey): Pc {
    if raw.Malformed? then Done(Rejected(BadFormat))
    else if c.resolverRedis then AtExists
    else AtLookup
  }

  /** One access of a Resolve; `fault` makes that access fail. */
  function Step(c: Config, st: Store, raw: RawKey, pc: Pc, fault: bool): (Store, Pc) {
    var prefix := KeyPrefix(raw);
    match pc
    case AtExists =>
      (st, if !fault && Tombstoned(st.redis, prefix, st.now) then Done(Rejected(Revoked)) else AtGetValidated)
    case AtGetValidated =>
      (st, if !fault && Live(st.redis.validated, raw, st.now)
           then Done(Accepted(st.redis.validated[raw].value)) else AtGetPrefix)
    case AtGetPrefix =>
      (st, if fault then Done(Rejected(RedisError))
           else if Live(st.redis.prefixes, prefix, st.now) then Check(c, raw, st.redis.prefixes[prefix].value)
           else AtLookup)
    case AtLookup =>
      (st, if fault then Done(Rejected(DatabaseError))
           else match ActiveRecord(st.db, prefix)
                case None => Done(Rejected(NotFound))
                case Some(record) => if c.resolverRedis then AtSetPrefix(record) else Check(c, raw, record))
    case AtSetPrefix(record) =>
      (if fault then st
       else st.(redis := st.redis.(prefixes := st.redis.prefixes[prefix := Entry(record, st.now + c.prefixTTL)])),
       Check(c, raw, record))
    case AtSetValidated(identity) =>
      (if fault then st
       else st.(redis := st.redis.(validated := st.redis.validated[raw := Entry(identity, st.now + c.validationTTL)])),
       Done(Accepted(identity)))
    case Done(_) => (st, pc)
  }

  /**
   * One Resolve. Histories: `last` - when it started or made its latest access; `listed` - a key with its prefix
   * existed when it started; `late` - it started after the key had been invalidated; `existsOk` - its tombstone
   * check has not failed; `unread` - which of its own reads of the prefix entry and the tables has failed, if one has.
   */
  datatype Flight = Flight(raw: RawKey, started: nat, last: nat, listed: bool, late: bool, existsOk: bool,
                           unread: Option<Reason>, pc: Pc)

  /**
   * `invalidated` records when a prefix was first invalidated: when its tombstone was written, which comes before
   * Invalidate can report success, or when an Invalidate without Redis reported success having written nothing.
   */
  datatype State = State(store: Store, invalidated: map<string, nat>, flights: map<nat, Flight>)

  datatype Action =
    | Tick(dt: nat)
    | CreateService(serviceId: string, orgId: string)
    | DeleteService(serviceId: string)
    | CreateKey(id: string, serviceId: string, orgId: string, raw: RawKey)
    | RevokeKey(prefix: string)
    | InvalidateDel(prefix: string)
    | InvalidateSet(prefix: string)
    | InvalidateSkip(prefix: string)
    | Start(fid: nat, raw: RawKey)
    | Access(fid: nat, fault: bool)

  predicate IsRevoked(db: Database, prefix: string) {
    prefix in db.keys && db.keys[prefix].revokedAt.Some?
  }

  predicate Owns(db: Database, prefix: string, raw: RawKey) {
    prefix in db.keys && db.keys[prefix].keyHash == KeyHash(raw)
  }

  predicate Enabled(c: Config, s: State, a: Action) {
    var db := s.store.db;
    match a
    case Tick(dt) =>
      forall fid :: fid in s.flights && !s.flights[fid].pc.Done? ==>
        s.store.now + dt <= s.flights[fid].started + c.maxFlight
    case CreateService(serviceId, _) => serviceId !in db.services
    case DeleteService(serviceId) => serviceId in db.services && db.services[serviceId].deletedAt.None?
    // The service was checked earlier and may be deleted by now; its organisation never changes.
    case CreateKey(_, serviceId, orgId, raw) =>
      && raw.Keyed? && KeyPrefix(raw) !in db.keys
      && serviceId in db.services && db.services[serviceId].orgId == orgId
    // Revoke and the first statement of the rotate transaction.
    case RevokeKey(prefix) => prefix in db.keys && db.keys[prefix].revokedAt.None?
    // The two pipelined commands of Invalidate, sent only after the row was revoked.
    case InvalidateDel(prefix) => c.apiRedis && IsRevoked(db, prefix)
    case InvalidateSet(prefix) => c.apiRedis && IsRevoked(db, prefix)
    // The early return of Invalidate, which reports success.
    case InvalidateSkip(prefix) => !c.apiRedis && IsRevoked(db, prefix)
    case Start(fid, _) => fid !in s.flights
    case Access(fid, fault) =>
      && fid in s.flights && !s.flights[fid].pc.Done?
      && (fault && s.flights[fid].pc.AtExists? ==> c.existsFaults)
  }

  function DeletePrefix(st: Store, prefix: string): Store {
    st.(redis := st.redis.(prefixes := st.redis.prefixes - {prefix}))
  }

  function SetTombstone(st: Store, prefix: string): Store {
    st.(redis := st.redis.(revoked := st.redis.revoked[prefix := st.now + HOUR]))
  }

  function Recorded(s: State, prefix: string): map<string, nat> {
    if prefix in s.invalidated then s.invalidated else s.invalidated[prefix := s.store.now]
  }

  function Perform(c: Config, s: State, a: Action): State
    requires Enabled(c, s, a)
  {
    var st := s.store;
    var db := st.db;
    match a
    case Tick(dt) => s.(store := st.(now := st.now + dt))
    case CreateService(serviceId, orgId) =>
      s.(store := st.(db := db.(services := db.services[serviceId := ServiceRow(orgId, None)])))
    case DeleteService(serviceId) =>
      var row := db.services[serviceId].(deletedAt := Some(st.now));
      s.(store := st.(db := db.(services := db.services[serviceId := row])))
    case CreateKey(id, serviceId, orgId, raw) =>
      var row := KeyRow(Identity(id, serviceId, orgId), KeyHash(raw), None);
      s.(store := st.(db := db.(keys := db.keys[KeyPrefix(raw) := row])))
    case RevokeKey(prefix) =>
      s.(store := st.(db := db.(keys := db.keys[prefix := db.keys[prefix].(revokedAt := Some(st.now))])))
    case InvalidateDel(prefix) =>
      s.(store := DeletePrefix(st, prefix))
    case InvalidateSet(prefix) =>
      s.(store := SetTombstone(st, prefix), invalidated := Recorded(s, prefix))
    case InvalidateSkip(prefix) => s.(invalidated := Recorded(s, prefix))
    case Start(fid, raw) =>
      var late := KeyPrefix(raw) in s.invalidated;
      var listed := KeyPrefix(raw) in db.keys;
      s.(flights := s.flights[fid := Flight(raw, st.now, st.now, listed, late, true, None, Begin(c, raw))])
    case Access(fid, fault) =>
      var f := s.flights[fid];
      var (st', pc') := Step(c, st, f.raw, f.pc, fault);
      s.(store := st', flights := s.flights[fid := Advance(f, st.now, pc', fault)])
  }

  /** The Resolve after an access that failed or not and left it at `pc`. */
  function Advance(f: Flight, now: nat, pc: Pc, fault: bool): Flight {
    f.(pc := pc, last := now, existsOk := f.existsOk && !(fault && f.pc.AtExists?),
       unread := if !fault then f.unread else if f.pc.AtGetPrefix? then Some(RedisError)
                 else if f.pc.AtLookup? then Some(DatabaseError) else f.unread)
  }

  /** A disabled action leaves the state alone, so every sequence of actions is a run. */
  function Next(c: Config, s: State, a: Action): State {
    if Enabled(c, s, a) then Perform(c, s, a) else s
  }

  const Init := State(Store(0, Database(map[], map[]), Redis(map[], map[], map[])), map[], map[])

  function Run(c: Config, run: seq<Action>): State {
    if run == [] then Init
    else Next(c, Run(c, run[..|run| - 1]), run[|run| - 1])
  }
}

/** What every reachable state of the cache satisfies. */
module KeyCacheSafety {
  import opened Prelude
  import opened KeyCache

  /** Every key belongs to the organisation of its service. */
  ghost predicate RowOk(st: Store, prefix: string)
    requires prefix in st.db.keys
  {
    var row := st.db.keys[prefix];
    && row.keyHash.of.Keyed? && row.keyHash.of.prefix == prefix
    && row.identity.serviceId in st.db.services
    && row.identity.orgId == st.db.services[row.identity.serviceId].orgId
    && (row.revokedAt.Some? ==> row.revokedAt.value <= st.now)
  }

  ghost predicate PrefixEntryOk(c: Config, st: Store, prefix: string)
    requires prefix in st.redis.prefixes
  {
    var e := st.redis.prefixes[prefix];
    && prefix in st.db.keys
    && e.value == RecordOf(prefix, st.db.keys[prefix])
    && e.expires <= st.now + c.prefixTTL
    && (var dead := DeadAt(st.db, prefix);
        dead.Some? ==> e.expires <= dead.value + c.maxFlight + c.prefixTTL)
  }

  ghost predicate ValidatedEntryOk(c: Config, st: Store, raw: RawKey)
    requires raw in st.redis.validated
  {
    var e := st.redis.validated[raw];
    var prefix := KeyPrefix(raw);
    && Owns(st.db, prefix, raw)
    && e.value == st.db.keys[prefix].identity
    && e.expires <= st.now + c.validationTTL
    && (var dead := DeadAt(st.db, prefix);
        dead.Some? ==> e.expires <= dead.value + 2 * c.maxFlight + c.prefixTTL + c.validationTTL - 1)
  }

  /** The latest time, counted from the death of the key, at which a Resolve can still be accepted. */
  function StaleBound(c: Config): nat {
    2 * c.maxFlight + c.prefixTTL + c.validationTTL - 2
  }

  /** What a Resolve carries is its own row's data, and if that row is dead the Resolve started early enough. */
  ghost predicate FlightOk(c: Config, st: Store, f: Flight) {
    var prefix := KeyPrefix(f.raw);
    var dead := DeadAt(st.db, prefix);
    && f.started <= f.last <= st.now
    && (!f.pc.Done? ==> f.raw.Keyed? && st.now <= f.started + c.maxFlight)
    && (f.listed && f.raw.Keyed? ==> prefix in st.db.keys)
    && (f.unread.Some? ==> f.pc == Done(Rejected(f.unread.value)))
    && match f.pc
       case AtSetPrefix(record) =>
         && prefix in st.db.keys && record == RecordOf(prefix, st.db.keys[prefix])
         && (dead.Some? ==> f.started <= dead.value)
       case AtSetValidated(identity) =>
         && Owns(st.db, prefix, f.raw) && identity == st.db.keys[prefix].identity
         && (dead.Some? ==> f.started < dead.value + c.maxFlight + c.prefixTTL)
       case Done(Accepted(identity)) =>
         && Owns(st.db, prefix, f.raw) && identity == st.db.keys[prefix].identity
         && (dead.Some? ==> f.last <= dead.value + StaleBound(c))
       case Done(Rejected(reason)) => Justified(st, f, reason)
       case _ => true
  }

  /** No reason stands in for another: each says what the tables held, or that a read of this very Resolve failed. */
  ghost predicate Justified(st: Store, f: Flight, reason: Reason) {
    var prefix := KeyPrefix(f.raw);
    && (reason == BadFormat <==> f.raw.Malformed?)
    && match reason
       case BadFormat => true
       case Revoked => IsRevoked(st.db, prefix)
       case NotFound => f.listed ==> DeadAt(st.db, prefix).Some?
       case InvalidKey => prefix in st.db.keys && st.db.keys[prefix].keyHash != KeyHash(f.raw)
       case RedisError => f.unread == Some(RedisError)
       case DatabaseError => f.unread == Some(DatabaseError)
  }

  ghost predicate TombstoneOk(c: Config, s: State, prefix: string)
    requires prefix in s.invalidated
  {
    && IsRevoked(s.store.db, prefix)
    && s.invalidated[prefix] <= s.store.now
    && s.store.db.keys[prefix].revokedAt.value <= s.invalidated[prefix]
    && (c.apiRedis ==>
          && prefix in s.store.redis.revoked
          && s.invalidated[prefix] + HOUR <= s.store.redis.revoked[prefix])
  }

  ghost predicate StoreOk(c: Config, st: Store) {
    && (forall k :: k in st.db.services && st.db.services[k].deletedAt.Some? ==>
          st.db.services[k].deletedAt.value <= st.now)
    && (forall p :: p in st.db.keys ==> RowOk(st, p))
    && (forall p :: p in st.redis.prefixes ==> PrefixEntryOk(c, st, p))
    && (forall r :: r in st.redis.validated ==> ValidatedEntryOk(c, st, r))
    && (forall p :: p in st.redis.revoked ==> IsRevoked(st.db, p))
  }

  ghost predicate Inv(c: Config, s: State) {
    && StoreOk(c, s.store)
    && (forall fid :: fid in s.flights ==> FlightOk(c, s.store, s.flights[fid]))
    && (forall p :: p in s.invalidated ==> TombstoneOk(c, s, p))
  }

  /** One access keeps the caches right. */
  lemma StepKeepsStore(c: Config, st: Store, f: Flight, fault: bool)
    requires StoreOk(c, st) && FlightOk(c, st, f) && !f.pc.Done?
    ensures StoreOk(c, Step(c, st, f.raw, f.pc, fault).0)
  {
    var st' := Step(c, st, f.raw, f.pc, fault).0;
    if !fault && f.pc.AtSetPrefix? {
      forall p | p in st'.redis.prefixes
        ensures PrefixEntryOk(c, st', p)
      {
        if p != KeyPrefix(f.raw) { assert PrefixEntryOk(c, st, p); }
      }
    }
  }

  /** A correct record in the hands of a Resolve that started early enough is judged correctly. */
  lemma CheckKeepsFlight(c: Config, st: Store, f: Flight, f': Flight, record: Record)
    requires FlightOk(c, st, f) && !f.pc.Done? && f' == f.(pc := Check(c, f.raw, record), last := st.now)
    requires KeyPrefix(f.raw) in st.db.keys && record == RecordOf(KeyPrefix(f.raw), st.db.keys[KeyPrefix(f.raw)])
    requires var dead := DeadAt(st.db, KeyPrefix(f.raw));
             dead.Some? ==> f.started < dead.value + c.maxFlight + c.prefixTTL
    ensures FlightOk(c, st, f')
  {
  }

  /** One access leaves the Resolve carrying its own row's data. */
  lemma StepKeepsFlight(c: Config, st: Store, f: Flight, fault: bool, f': Flight)
    requires StoreOk(c, st) && FlightOk(c, st, f) && !f.pc.Done?
    requires f' == Advance(f, st.now, Step(c, st, f.raw, f.pc, fault).1, fault)
    ensures FlightOk(c, st, f')
  {
    var prefix := KeyPrefix(f.raw);
    match f.pc {
      case AtExists =>
        assert prefix in st.redis.revoked ==> IsRevoked(st.db, prefix);
      case AtGetValidated =>
        assert f.raw in st.redis.validated ==> ValidatedEntryOk(c, st, f.raw);
      case AtGetPrefix =>
        if !fault && Live(st.redis.prefixes, prefix, st.now) {
          assert PrefixEntryOk(c, st, prefix);
          CheckKeepsFlight(c, st, f.(existsOk := f'.existsOk), f', st.redis.prefixes[prefix].value);
        }
      case AtLookup =>
        assert prefix in st.db.keys ==> RowOk(st, prefix);
        LookupKeepsFlight(c, st, f, fault, f');
      case AtSetPrefix(record) =>
        CheckKeepsFlight(c, st, f.(existsOk := f'.existsOk), f', record);
      case AtSetValidated(identity) =>
    }
  }

  lemma LookupKeepsFlight(c: Config, st: Store, f: Flight, fault: bool, f': Flight)
    requires FlightOk(c, st, f) && f.pc.AtLookup?
    requires f' == Advance(f, st.now, Step(c, st, f.raw, f.pc, fault).1, fault)
    requires KeyPrefix(f.raw) in st.db.keys ==> RowOk(st, KeyPrefix(f.raw))
    ensures FlightOk(c, st, f')
  {
    var prefix := KeyPrefix(f.raw);
    var found := ActiveRecord(st.db, prefix);
    if found.Some? && !fault && !c.resolverRedis {
      CheckKeepsFlight(c, st, f, f', found.value);
    }
  }

  /** A row dies now or keeps its time of death, and nothing else about it changes. */
  ghost predicate RowAged(st: Store, st': Store, prefix: string)
    requires prefix in st.db.keys
  {
    var dead, dead' := DeadAt(st.db, prefix), DeadAt(st'.db, prefix);
    && prefix in st'.db.keys
    && st'.db.keys[prefix].identity == st.db.keys[prefix].identity
    && st'.db.keys[prefix].keyHash == st.db.keys[prefix].keyHash
    && (st.db.keys[prefix].revokedAt.Some? ==> st'.db.keys[prefix].revokedAt.Some?)
    && (dead' == dead || (dead.None? && dead' == Some(st.now)))
  }

  /** Time passes and the tables change, the caches do not. */
  ghost predicate Ages(st: Store, st': Store) {
    && st.now <= st'.now
    && st'.redis == st.redis
    && (forall p :: p in st.db.keys ==> RowAged(st, st', p))
  }

  lemma AgingKeepsEntries(c: Config, st: Store, st': Store)
    requires StoreOk(c, st) && Ages(st, st')
    ensures forall p :: p in st'.redis.prefixes ==> PrefixEntryOk(c, st', p)
    ensures forall r :: r in st'.redis.validated ==> ValidatedEntryOk(c, st', r)
  {
    forall p | p in st'.redis.prefixes
      ensures PrefixEntryOk(c, st', p)
    {
      assert PrefixEntryOk(c, st, p);
    }
    forall r | r in st'.redis.validated
      ensures ValidatedEntryOk(c, st', r)
    {
      assert ValidatedEntryOk(c, st, r);
    }
  }

  lemma AgingKeepsFlight(c: Config, st: Store, st': Store, f: Flight)
    requires Ages(st, st') && FlightOk(c, st, f)
    requires !f.pc.Done? ==> st'.now <= f.started + c.maxFlight
    ensures FlightOk(c, st', f)
  {
  }

  predicate ChangesTables(a: Action) {
    a.Tick? || a.CreateService? || a.DeleteService? || a.CreateKey? || a.RevokeKey?
  }

  lemma RowAges(c: Config, s: State, a: Action, prefix: string)
    requires StoreOk(c, s.store) && Enabled(c, s, a) && ChangesTables(a) && prefix in s.store.db.keys
    ensures RowAged(s.store, Perform(c, s, a).store, prefix)
  {
    var db := s.store.db;
    assert RowOk(s.store, prefix);
    match a
    case Tick(_) =>
    case CreateService(_, _) =>
    case CreateKey(_, _, _, _) =>
    case DeleteService(serviceId) => assert db.services[serviceId].deletedAt.None?;
    case RevokeKey(p) => assert db.keys[p].revokedAt.None?;
  }

  lemma TablesAge(c: Config, s: State, a: Action)
    requires StoreOk(c, s.store) && Enabled(c, s, a) && ChangesTables(a)
    ensures Ages(s.store, Perform(c, s, a).store)
  {
    forall p | p in s.store.db.keys
      ensures RowAged(s.store, Perform(c, s, a).store, p)
    {
      RowAges(c, s, a, p);
    }
  }

  lemma TablesKeepRows(c: Config, s: State, a: Action)
    requires StoreOk(c, s.store) && Enabled(c, s, a) && ChangesTables(a)
    ensures var st := Perform(c, s, a).store;
            && (forall k :: k in st.db.services && st.db.services[k].deletedAt.Some? ==>
                  st.db.services[k].deletedAt.value <= st.now)
            && (forall p :: p in st.db.keys ==> RowOk(st, p))
  {
    forall p | p in s.store.db.keys
      ensures RowOk(Perform(c, s, a).store, p)
    {
      assert RowOk(s.store, p);
    }
  }

  lemma TablesKeep(c: Config, s: State, a: Action)
    requires Inv(c, s) && Enabled(c, s, a) && ChangesTables(a)
    ensures Inv(c, Next(c, s, a))
  {
    var s' := Next(c, s, a);
    TablesAge(c, s, a);
    AgingKeepsEntries(c, s.store, s'.store);
    TablesKeepRows(c, s, a);
    forall fid | fid in s'.flights
      ensures FlightOk(c, s'.store, s'.flights[fid])
    {
      AgingKeepsFlight(c, s.store, s'.store, s.flights[fid]);
    }
    forall p | p in s'.invalidated
      ensures TombstoneOk(c, s', p)
    {
      assert TombstoneOk(c, s, p);
    }
  }

  lemma InvalidateKeepsStore(c: Config, st: Store, prefix: string)
    requires StoreOk(c, st) && IsRevoked(st.db, prefix)
    ensures StoreOk(c, DeletePrefix(st, prefix)) && StoreOk(c, SetTombstone(st, prefix))
  {
    forall p | p in st.redis.prefixes
      ensures p != prefix ==> PrefixEntryOk(c, DeletePrefix(st, prefix), p)
      ensures PrefixEntryOk(c, SetTombstone(st, prefix), p)
    {
      assert PrefixEntryOk(c, st, p);
    }
  }

  lemma InvalidateKeeps(c: Config, s: State, a: Action)
    requires Inv(c, s) && Enabled(c, s, a) && (a.InvalidateDel? || a.InvalidateSet? || a.InvalidateSkip?)
    ensures Inv(c, Next(c, s, a))
  {
    var s' := Next(c, s, a);
    InvalidateKeepsStore(c, s.store, a.prefix);
    forall fid | fid in s'.flights
      ensures FlightOk(c, s'.store, s'.flights[fid])
    {
      assert FlightOk(c, s.store, s.flights[fid]);
    }
    forall p | p in s'.invalidated
      ensures TombstoneOk(c, s', p)
    {
      if p in s.invalidated { assert TombstoneOk(c, s, p); }
      assert p in s'.store.db.keys ==> RowOk(s.store, p);
    }
  }

  lemma AccessKeeps(c: Config, s: State, a: Action)
    requires Inv(c, s) && Enabled(c, s, a) && a.Access?
    ensures Inv(c, Next(c, s, a))
  {
    var f := s.flights[a.fid];
    var s' := Next(c, s, a);
    StepKeepsStore(c, s.store, f, a.fault);
    AccessKeepsFlight(c, s, a);
    forall fid | fid in s'.flights
      ensures FlightOk(c, s'.store, s'.flights[fid])
    {
      if fid != a.fid { OthersKeepFlight(c, s, a, s.flights[fid]); }
    }
    forall p | p in s'.invalidated
      ensures TombstoneOk(c, s', p)
    {
      assert TombstoneOk(c, s, p);
    }
  }

  /** What a Resolve carries is judged by the tables, which no access changes. */
  lemma OthersKeepFlight(c: Config, s: State, a: Action, g: Flight)
    requires Inv(c, s) && Enabled(c, s, a) && a.Access? && FlightOk(c, s.store, g)
    ensures FlightOk(c, Next(c, s, a).store, g)
  {
    assert Next(c, s, a).store.db == s.store.db && Next(c, s, a).store.now == s.store.now;
  }

  lemma AccessKeepsFlight(c: Config, s: State, a: Action)
    requires Inv(c, s) && Enabled(c, s, a) && a.Access?
    ensures FlightOk(c, Next(c, s, a).store, Next(c, s, a).flights[a.fid])
  {
    var f := s.flights[a.fid];
    var f' := Advance(f, s.store.now, Step(c, s.store, f.raw, f.pc, a.fault).1, a.fault);
    assert FlightOk(c, s.store, f);
    StepKeepsFlight(c, s.store, f, a.fault, f');
    OthersKeepFlight(c, s, a, f');
  }

  lemma StartKeeps(c: Config, s: State, a: Action)
    requires Inv(c, s) && Enabled(c, s, a) && a.Start?
    ensures Inv(c, Next(c, s, a))
  {
    var s' := Next(c, s, a);
    assert KeyPrefix(a.raw) in s.store.db.keys ==> RowOk(s.store, KeyPrefix(a.raw));
    forall fid | fid in s'.flights
      ensures FlightOk(c, s'.store, s'.flights[fid])
    {
      if fid != a.fid { assert FlightOk(c, s.store, s.flights[fid]); }
    }
    forall p | p in s'.invalidated
      ensures TombstoneOk(c, s', p)
    {
      assert TombstoneOk(c, s, p);
    }
  }

  lemma NextKeeps(c: Config, s: State, a: Action)
    requires Inv(c, s)
    ensures Inv(c, Next(c, s, a))
  {
    if !Enabled(c, s, a) {
    } else if ChangesTables(a) {
      TablesKeep(c, s, a);
    } else if a.Access? {
      AccessKeeps(c, s, a);
    } else if a.Start? {
      StartKeeps(c, s, a);
    } else {
      InvalidateKeeps(c, s, a);
    }
  }

  lemma {:induction false} RunSafe(c: Config, run: seq<Action>)
    ensures Inv(c, Run(c, run))
  {
    if run != [] {
      RunSafe(c, run[..|run| - 1]);
      NextKeeps(c, Run(c, run[..|run| - 1]), run[|run| - 1]);
    }
  }

  /**
   * Bounded staleness: whatever Redis faults occur and whether or not the cache was ever invalidated, a
   * Resolve accepted for a dead key made its last read, and so was accepted, no later than StaleBound after the
   * key died.
   */
  lemma BoundedStaleness(c: Config, run: seq<Action>, fid: nat)
    requires var s := Run(c, run);
             fid in s.flights && s.flights[fid].pc.Done? && s.flights[fid].pc.outcome.Accepted?
    ensures var s := Run(c, run);
            var dead := DeadAt(s.store.db, KeyPrefix(s.flights[fid].raw));
            dead.Some? ==> s.flights[fid].started <= s.flights[fid].last <= dead.value + StaleBound(c)
  {
    RunSafe(c, run);
    assert FlightOk(c, Run(c, run).store, Run(c, run).flights[fid]);
  }

  /**
   * In every reachable state the caches agree with the tables: each entry, live or not, carries exactly the data
   * of the row with its prefix (and, for a validated entry, the row whose hash accepts the raw key), tombstones
   * exist only for revoked keys, and every key belongs to its service's organisation.
   */
  lemma CacheAgreesWithTable(c: Config, run: seq<Action>)
    ensures var st := Run(c, run).store;
            && (forall p :: p in st.redis.prefixes ==>
                  p in st.db.keys && st.redis.prefixes[p].value == RecordOf(p, st.db.keys[p]))
            && (forall r :: r in st.redis.validated ==>
                  Owns(st.db, KeyPrefix(r), r) && st.redis.validated[r].value == st.db.keys[KeyPrefix(r)].identity)
            && (forall p :: p in st.redis.revoked ==> IsRevoked(st.db, p))
            && (forall p :: p in st.db.keys ==>
                  var id := st.db.keys[p].identity;
                  id.serviceId in st.db.services && st.db.services[id.serviceId].orgId == id.orgId)
  {
    RunSafe(c, run);
    var st := Run(c, run).store;
    forall p | p in st.redis.prefixes ensures PrefixEntryOk(c, st, p) {}
    forall r | r in st.redis.validated ensures ValidatedEntryOk(c, st, r) {}
    forall p | p in st.db.keys ensures RowOk(st, p) {}
  }

  /** An accepted Resolve names the one row whose prefix and hash fit the raw key, under its service's organisation. */
  lemma AcceptedIdentity(c: Config, run: seq<Action>, fid: nat)
    requires var s := Run(c, run);
             fid in s.flights && s.flights[fid].pc.Done? && s.flights[fid].pc.outcome.Accepted?
    ensures var s := Run(c, run);
            var f, db := s.flights[fid], s.store.db;
            && (exists p :: Owns(db, p, f.raw))
            && (forall p :: Owns(db, p, f.raw) ==>
                  && p == KeyPrefix(f.raw)
                  && f.pc.outcome.identity == db.keys[p].identity
                  && db.keys[p].identity.serviceId in db.services
                  && db.services[db.keys[p].identity.serviceId].orgId == f.pc.outcome.identity.orgId)
  {
    RunSafe(c, run);
    var s := Run(c, run);
    var f, db := s.flights[fid], s.store.db;
    assert FlightOk(c, s.store, f);
    assert Owns(db, KeyPrefix(f.raw), f.raw);
    forall p | Owns(db, p, f.raw)
      ensures p == KeyPrefix(f.raw) && RowOk(s.store, p)
    {
      assert RowOk(s.store, p);
    }
  }

  /**
   * The cache never refuses an active key: a finished Resolve of a key that existed when it started and is still
   * active was accepted, with or without Redis, unless one of its own reads failed.
   */
  lemma ActiveKeyResolves(c: Config, run: seq<Action>, fid: nat)
    requires var s := Run(c, run);
             && fid in s.flights && s.flights[fid].pc.Done? && s.flights[fid].listed && s.flights[fid].unread.None?
             && Owns(s.store.db, KeyPrefix(s.flights[fid].raw), s.flights[fid].raw)
             && DeadAt(s.store.db, KeyPrefix(s.flights[fid].raw)).None?
    ensures var s := Run(c, run);
            var f := s.flights[fid];
            f.pc.outcome == Accepted(s.store.db.keys[KeyPrefix(f.raw)].identity)
  {
    RunSafe(c, run);
    var s := Run(c, run);
    assert FlightOk(c, s.store, s.flights[fid]);
    assert RowOk(s.store, KeyPrefix(s.flights[fid].raw));
  }

  /** Nor does it accept another key with an active key's prefix: that is told to be invalid. */
  lemma WrongKeyRefused(c: Config, run: seq<Action>, fid: nat)
    requires var s := Run(c, run);
             && fid in s.flights && s.flights[fid].pc.Done? && s.flights[fid].listed && s.flights[fid].unread.None?
             && s.flights[fid].raw.Keyed? && !Owns(s.store.db, KeyPrefix(s.flights[fid].raw), s.flights[fid].raw)
             && DeadAt(s.store.db, KeyPrefix(s.flights[fid].raw)).None?
    ensures Run(c, run).flights[fid].pc.outcome == Rejected(InvalidKey)
  {
    RunSafe(c, run);
    var s := Run(c, run);
    assert FlightOk(c, s.store, s.flights[fid]);
    assert RowOk(s.store, KeyPrefix(s.flights[fid].raw));
  }

  /** And a prefix that no key has is told not to be found. */
  lemma UnknownKeyRefused(c: Config, run: seq<Action>, fid: nat)
    requires var s := Run(c, run);
             && fid in s.flights && s.flights[fid].pc.Done? && s.flights[fid].unread.None?
             && s.flights[fid].raw.Keyed? && KeyPrefix(s.flights[fid].raw) !in s.store.db.keys
    ensures Run(c, run).flights[fid].pc.outcome == Rejected(NotFound)
  {
    RunSafe(c, run);
    var s := Run(c, run);
    assert FlightOk(c, s.store, s.flights[fid]);
  }

  /** Every rejection in every run is justified by the tables, or by a read of that Resolve that failed. */
  lemma RejectionsJustified(c: Config, run: seq<Action>, fid: nat)
    requires var s := Run(c, run);
             fid in s.flights && s.flights[fid].pc.Done? && s.flights[fid].pc.outcome.Rejected?
    ensures var f := Run(c, run).flights[fid];
            && Justified(Run(c, run).store, f, f.pc.outcome.reason)
            && (f.unread.Some? ==> f.pc.outcome.reason == f.unread.value)
  {
    RunSafe(c, run);
    assert FlightOk(c, Run(c, run).store, Run(c, run).flights[fid]);
  }
}

/** When a revocation is final: the tombstone must outlive everything written by Resolves it did not stop. */
module KeyCacheFinality {
  import opened Prelude
  import opened KeyCache
  import opened KeyCacheSafety

  /**
   * With reliable tombstone checks only Resolves older than the tombstone can still write. If other
   * Resolves can skip a failing check, the staleness bound has to fit under the tombstone instead.
   */
  predicate TombstoneOutlivesCache(c: Config) {
    if c.existsFaults then 2 * c.maxFlight + c.prefixTTL + c.validationTTL - 1 <= HOUR
    else c.maxFlight + Max(c.prefixTTL, c.validationTTL) <= HOUR
  }

  ghost predicate LateRejected(s: State) {
    forall fid :: fid in s.flights ==>
      var f := s.flights[fid];
      f.late && f.existsOk ==> f.pc.Done? ==> f.pc.outcome.Rejected?
  }

  /** No run accepts a Resolve that started after the key was invalidated and whose own check worked. */
  ghost predicate RevocationFinal(c: Config) {
    forall run :: LateRejected(Run(c, run))
  }

  /** With reliable checks, the cache holds nothing about an invalidated key past the older Resolves' deadline. */
  ghost predicate PrefixSettled(c: Config, s: State, prefix: string) {
    prefix in s.invalidated && prefix in s.store.redis.prefixes && !c.existsFaults ==>
      s.store.redis.prefixes[prefix].expires <= s.invalidated[prefix] + c.maxFlight + c.prefixTTL
  }

  ghost predicate ValidatedSettled(c: Config, s: State, raw: RawKey) {
    var prefix := KeyPrefix(raw);
    prefix in s.invalidated && raw in s.store.redis.validated && !c.existsFaults ==>
      s.store.redis.validated[raw].expires <= s.invalidated[prefix] + c.maxFlight + c.validationTTL
  }

  ghost predicate FlightSettled(c: Config, s: State, f: Flight) {
    var prefix := KeyPrefix(f.raw);
    && (!f.existsOk ==> c.existsFaults)
    && (f.late ==> prefix in s.invalidated)
    && (!f.late && prefix in s.invalidated ==> f.started <= s.invalidated[prefix])
    && (f.late && f.existsOk ==>
          match f.pc
          case AtExists => true
          case AtGetValidated => s.invalidated[prefix] + HOUR <= s.store.now
          case AtGetPrefix => s.invalidated[prefix] + HOUR <= s.store.now
          case AtLookup => true
          case Done(outcome) => outcome.Rejected?
          case _ => false)
  }

  ghost predicate Settled(c: Config, s: State) {
    && (forall p :: PrefixSettled(c, s, p))
    && (forall r :: ValidatedSettled(c, s, r))
    && (forall fid :: fid in s.flights ==> FlightSettled(c, s, s.flights[fid]))
  }

  /** Once the tombstone's hour is over, no entry of the key is live. */
  lemma NothingLive(c: Config, s: State, raw: RawKey)
    requires c.apiRedis && TombstoneOutlivesCache(c) && Inv(c, s) && Settled(c, s)
    requires KeyPrefix(raw) in s.invalidated && s.invalidated[KeyPrefix(raw)] + HOUR <= s.store.now
    ensures !Live(s.store.redis.prefixes, KeyPrefix(raw), s.store.now)
    ensures !Live(s.store.redis.validated, raw, s.store.now)
  {
    var prefix := KeyPrefix(raw);
    assert TombstoneOk(c, s, prefix);
    assert PrefixSettled(c, s, prefix) && ValidatedSettled(c, s, raw);
    assert prefix in s.store.redis.prefixes ==> PrefixEntryOk(c, s.store, prefix);
    assert raw in s.store.redis.validated ==> ValidatedEntryOk(c, s.store, raw);
  }

  /** One access of a Resolve writes nothing that outlasts the tombstone. */
  lemma AccessSettlesEntries(c: Config, s: State, a: Action)
    requires Inv(c, s) && Settled(c, s) && Enabled(c, s, a) && a.Access?
    ensures forall p :: PrefixSettled(c, Next(c, s, a), p)
    ensures forall r :: ValidatedSettled(c, Next(c, s, a), r)
  {
    var s', f := Next(c, s, a), s.flights[a.fid];
    assert FlightOk(c, s.store, f) && FlightSettled(c, s, f);
    forall p
      ensures PrefixSettled(c, s', p)
    {
      assert PrefixSettled(c, s, p);
    }
    forall r: RawKey
      ensures ValidatedSettled(c, s', r)
    {
      assert ValidatedSettled(c, s, r);
    }
  }

  /** A late Resolve gets past a working tombstone check only when nothing is left to accept it. */
  lemma StepSettlesFlight(c: Config, s: State, f: Flight, fault: bool, f': Flight)
    requires c.apiRedis && TombstoneOutlivesCache(c) && Inv(c, s) && Settled(c, s)
    requires FlightSettled(c, s, f) && !f.pc.Done?
    requires fault && f.pc.AtExists? ==> c.existsFaults
    requires f' == Advance(f, s.store.now, Step(c, s.store, f.raw, f.pc, fault).1, fault)
    ensures FlightSettled(c, s, f')
  {
    var prefix := KeyPrefix(f.raw);
    if f'.late && f'.existsOk {
      assert TombstoneOk(c, s, prefix);
      match f.pc {
        case AtExists =>
        case AtGetValidated => NothingLive(c, s, f.raw);
        case AtGetPrefix => NothingLive(c, s, f.raw);
        case AtLookup => assert ActiveRecord(s.store.db, prefix).None?;
      }
    }
  }

  lemma AccessSettles(c: Config, s: State, a: Action)
    requires c.apiRedis && TombstoneOutlivesCache(c) && Inv(c, s) && Settled(c, s) && Enabled(c, s, a) && a.Access?
    ensures Settled(c, Next(c, s, a))
  {
    var s' := Next(c, s, a);
    AccessSettlesEntries(c, s, a);
    var f := s.flights[a.fid];
    assert FlightSettled(c, s, f);
    StepSettlesFlight(c, s, f, a.fault, s'.flights[a.fid]);
    forall fid | fid in s'.flights
      ensures FlightSettled(c, s', s'.flights[fid])
    {
      if fid != a.fid { assert FlightSettled(c, s, s.flights[fid]); }
    }
  }

  lemma OtherSettlesPrefix(c: Config, s: State, a: Action, prefix: string)
    requires Inv(c, s) && PrefixSettled(c, s, prefix) && Enabled(c, s, a) && !a.Access?
    ensures PrefixSettled(c, Next(c, s, a), prefix)
  {
    assert prefix in s.store.redis.prefixes ==> PrefixEntryOk(c, s.store, prefix);
  }

  lemma OtherSettlesValidated(c: Config, s: State, a: Action, raw: RawKey)
    requires Inv(c, s) && ValidatedSettled(c, s, raw) && Enabled(c, s, a) && !a.Access?
    ensures ValidatedSettled(c, Next(c, s, a), raw)
  {
    assert raw in s.store.redis.validated ==> ValidatedEntryOk(c, s.store, raw);
  }

  /** What a non-access action does to the tombstone history and to the Resolves. */
  ghost predicate Carries(s: State, s': State) {
    && s.store.now <= s'.store.now
    && (forall p :: p in s.invalidated ==> p in s'.invalidated && s'.invalidated[p] == s.invalidated[p])
    && (forall p :: p in s'.invalidated && p !in s.invalidated ==> s'.invalidated[p] == s.store.now)
    && (forall fid :: fid in s.flights ==> fid in s'.flights && s'.flights[fid] == s.flights[fid])
    && (forall fid :: fid in s'.flights && fid !in s.flights ==>
          var f := s'.flights[fid];
          && f.started == s.store.now && f.existsOk && (f.late <==> KeyPrefix(f.raw) in s'.invalidated)
          && (f.pc == AtExists || f.pc == AtLookup || f.pc == Done(Rejected(BadFormat))))
  }

  lemma OtherCarries(c: Config, s: State, a: Action)
    requires Enabled(c, s, a) && !a.Access?
    ensures Carries(s, Next(c, s, a))
  {
  }

  lemma OtherSettles(c: Config, s: State, a: Action)
    requires Inv(c, s) && Settled(c, s) && Enabled(c, s, a) && !a.Access?
    ensures Settled(c, Next(c, s, a))
  {
    var s' := Next(c, s, a);
    OtherCarries(c, s, a);
    forall p ensures PrefixSettled(c, s', p) { OtherSettlesPrefix(c, s, a, p); }
    forall r ensures ValidatedSettled(c, s', r) { OtherSettlesValidated(c, s, a, r); }
    forall fid | fid in s'.flights
      ensures FlightSettled(c, s', s'.flights[fid])
    {
      if fid in s.flights {
        assert FlightSettled(c, s, s.flights[fid]) && FlightOk(c, s.store, s.flights[fid]);
      }
    }
  }

  lemma {:induction false} RunSettles(c: Config, run: seq<Action>)
    requires c.apiRedis && TombstoneOutlivesCache(c)
    ensures Settled(c, Run(c, run))
  {
    if run != [] {
      var before, a := run[..|run| - 1], run[|run| - 1];
      RunSettles(c, before);
      RunSafe(c, before);
      if Enabled(c, Run(c, before), a) {
        if a.Access? { AccessSettles(c, Run(c, before), a); } else { OtherSettles(c, Run(c, before), a); }
      }
    }
  }

  lemma LateStaysRejected(c: Config, s: State)
    requires Settled(c, s)
    ensures LateRejected(s)
  {
    forall fid | fid in s.flights
      ensures s.flights[fid].late && s.flights[fid].existsOk && s.flights[fid].pc.Done? ==>
                s.flights[fid].pc.outcome.Rejected?
    {
      assert FlightSettled(c, s, s.flights[fid]);
    }
  }

  /** Without Redis in the API process no tombstone is ever written, although Invalidate reports success. */
  lemma {:induction false} NoTombstone(c: Config, run: seq<Action>)
    requires !c.apiRedis
    ensures Run(c, run).store.redis.revoked == map[]
  {
    if run != [] {
      NoTombstone(c, run[..|run| - 1]);
    }
  }

  ghost predicate FromTables(s: State, f: Flight) {
    && (f.pc.AtLookup? || f.pc.Done?)
    && (f.late ==> KeyPrefix(f.raw) in s.invalidated && (f.pc.Done? ==> f.pc.outcome.Rejected?))
  }

  /** Without Redis in the resolving process every Resolve reads the tables, where the key is already revoked. */
  lemma {:induction false} NothingCached(c: Config, run: seq<Action>)
    requires !c.resolverRedis
    ensures forall fid :: fid in Run(c, run).flights ==> FromTables(Run(c, run), Run(c, run).flights[fid])
  {
    if run != [] {
      var before, a := run[..|run| - 1], run[|run| - 1];
      NothingCached(c, before);
      RunSafe(c, before);
      var s, s' := Run(c, before), Run(c, run);
      if Enabled(c, s, a) && a.Access? {
        var f := s.flights[a.fid];
        assert FromTables(s, f);
        assert f.late ==> TombstoneOk(c, s, KeyPrefix(f.raw));
        assert FromTables(s', s'.flights[a.fid]);
      } else if Enabled(c, s, a) {
        OtherCarries(c, s, a);
      }
      forall fid | fid in s'.flights
        ensures FromTables(s', s'.flights[fid])
      {
        if fid in s.flights { assert FromTables(s, s.flights[fid]); }
      }
    }
  }
}
