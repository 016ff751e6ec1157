/**
 * The cache as the source writes it: methods that read, set and delete Redis entries in order. Each is
 * proved to be an uninterrupted run of the single accesses of the state machine.
 */
module KeyCacheClient {
  import opened Prelude
  import opened KeyCache
  import opened KeyCacheWitness

  /** Which accesses of one Resolve fail. */
  datatype Faults = Faults(tombstone: bool, getValidated: bool, getPrefix: bool, lookup: bool,
                           setPrefix: bool, setValidated: bool)

  function FaultAt(f: Faults, pc: Pc): bool {
    match pc
    case AtExists => f.tombstone
    case AtGetValidated => f.getValidated
    case AtGetPrefix => f.getPrefix
    case AtLookup => f.lookup
    case AtSetPrefix(_) => f.setPrefix
    case AtSetValidated(_) => f.setValidated
    case Done(_) => false
  }

  function Rank(pc: Pc): nat {
    match pc
    case AtExists => 6
    case AtGetValidated => 5
    case AtGetPrefix => 4
    case AtLookup => 3
    case AtSetPrefix(_) => 2
    case AtSetValidated(_) => 1
    case Done(_) => 0
  }

  /** A Resolve performing its remaining accesses with nothing in between. */
  function Drive(c: Config, st: Store, raw: RawKey, pc: Pc, f: Faults): (Store, Pc)
    decreases Rank(pc)
  {
    if pc.Done? then (st, pc)
    else
      var (st', pc') := Step(c, st, raw, pc, FaultAt(f, pc));
      Drive(c, st', raw, pc', f)
  }

  /** Driving a Resolve is itself a run of the state machine, so every safety result covers it. */
  lemma {:induction false} DriveIsRun(c: Config, run: seq<Action>, fid: nat, f: Faults) returns (run': seq<Action>)
    requires fid in Run(c, run).flights && (f.tombstone ==> c.existsFaults)
    ensures var s, s' := Run(c, run), Run(c, run');
            var g := s.flights[fid];
            && s'.flights.Keys == s.flights.Keys
            && (s'.store, s'.flights[fid].pc) == Drive(c, s.store, g.raw, g.pc, f)
            && s'.flights[fid].raw == g.raw
            && (forall i :: i in s.flights && i != fid ==> s'.flights[i] == s.flights[i])
    decreases Rank(Run(c, run).flights[fid].pc)
  {
    var g := Run(c, run).flights[fid];
    if g.pc.Done? {
      run' := run;
    } else {
      var (st, pc) := Step(c, Run(c, run).store, g.raw, g.pc, FaultAt(f, g.pc));
      run' := Go(c, run, fid, FaultAt(f, g.pc), st, pc);
      run' := DriveIsRun(c, run', fid, f);
    }
  }

  /** What `Invalidate` does to the stores: two pipelined commands, or nothing in a process without Redis. */
  function AfterInvalidate(c: Config, st: Store, prefix: string, delFault: bool, setFault: bool): Store {
    if !c.apiRedis then st
    else
      var st' := if delFault then st else DeletePrefix(st, prefix);
      if setFault then st' else SetTombstone(st', prefix)
  }

  predicate ReportsSuccess(c: Config, delFault: bool, setFault: bool) {
    !c.apiRedis || (!delFault && !setFault)
  }

  /**
   * An Invalidate after a revocation is itself a run; once it has reported success, with or without Redis, every
   * Resolve that starts is one whose rejection finality promises.
   */
  lemma InvalidateIsRun(c: Config, run: seq<Action>, prefix: string, delFault: bool, setFault: bool)
    returns (run': seq<Action>)
    requires IsRevoked(Run(c, run).store.db, prefix)
    ensures Run(c, run').store == AfterInvalidate(c, Run(c, run).store, prefix, delFault, setFault)
    ensures Run(c, run').flights == Run(c, run).flights
    ensures ReportsSuccess(c, delFault, setFault) ==> prefix in Run(c, run').invalidated
    ensures ReportsSuccess(c, delFault, setFault) ==>
              forall fid, raw :: KeyPrefix(raw) == prefix && fid !in Run(c, run).flights ==>
              Next(c, Run(c, run'), Start(fid, raw)).flights[fid].late
  {
    run' := run;
    if !c.apiRedis {
      run' := Extend(c, run', InvalidateSkip(prefix));
    } else {
      if !delFault { run' := Extend(c, run', InvalidateDel(prefix)); }
      if !setFault { run' := Extend(c, run', InvalidateSet(prefix)); }
    }
  }

  /**
   * What deleting the prefix entry is for: once the row is revoked, even a Resolve whose tombstone check fails
   * gets no further than a validated entry of its own.
   */
  lemma DeletionStopsReload(c: Config, st: Store, raw: RawKey, f: Faults)
    requires raw.Keyed? && IsRevoked(st.db, raw.prefix) && !Live(st.redis.validated, raw, st.now)
    ensures var (st', pc) := Drive(c, DeletePrefix(st, raw.prefix), raw, Begin(c, raw), f);
            st' == DeletePrefix(st, raw.prefix) && pc.Done? && pc.outcome.Rejected?
  {
    var st1 := DeletePrefix(st, raw.prefix);
    assert ActiveRecord(st1.db, raw.prefix).None?;
    DriveLookup(c, st1, raw, f);
    assert Drive(c, st1, raw, AtGetPrefix, f).1.Done?;
    assert Drive(c, st1, raw, AtGetValidated, f) == Drive(c, st1, raw, AtGetPrefix, f);
  }

  lemma DriveLookup(c: Config, st: Store, raw: RawKey, f: Faults)
    requires raw.Keyed? && ActiveRecord(st.db, raw.prefix).None? && raw.prefix !in st.redis.prefixes
    ensures Drive(c, st, raw, AtLookup, f).0 == st && Drive(c, st, raw, AtLookup, f).1.Done?
    ensures Drive(c, st, raw, AtLookup, f).1.outcome.Rejected?
    ensures Drive(c, st, raw, AtGetPrefix, f).0 == st && Drive(c, st, raw, AtGetPrefix, f).1.Done?
    ensures Drive(c, st, raw, AtGetPrefix, f).1.outcome.Rejected?
  {
  }

  /** The prefix is not tombstoned, or the check for it fails, and nothing is known about the key itself. */
  predicate GetsPast(c: Config, st: Store, raw: RawKey, f: Faults) {
    c.resolverRedis ==>
      && (f.tombstone || !Tombstoned(st.redis, KeyPrefix(raw), st.now))
      && (f.getValidated || !Live(st.redis.validated, raw, st.now))
  }

  /** The prefix entries and validated entries after a Resolve; the tombstones and the tables stay. */
  predicate Leaves(st: Store, st': Store, prefixes: map<string, Entry<Record>>,
                   validated: map<RawKey, Entry<Identity>>) {
    st' == st.(redis := Redis(prefixes, validated, st.redis.revoked))
  }

  /** A live tombstone, then a live validated entry, answers before anything else is read, and nothing is written. */
  lemma AnsweredAtOnce(c: Config, st: Store, raw: RawKey, f: Faults)
    requires raw.Keyed? && !GetsPast(c, st, raw, f)
    ensures var (st', pc) := Drive(c, st, raw, Begin(c, raw), f);
            && st' == st
            && pc == Done(if !f.tombstone && Tombstoned(st.redis, raw.prefix, st.now) then Rejected(Revoked)
                          else Accepted(st.redis.validated[raw].value))
  {
    assert FaultAt(f, AtExists) == f.tombstone;
    assert Drive(c, st, raw, Done(Rejected(Revoked)), f) == (st, Done(Rejected(Revoked)));
  }

  /**
   * A live prefix entry answers instead of the tables, which need not be readable: for the key that it was made for
   * with its identity, which is then kept as validated.
   */
  lemma AnsweredFromEntry(c: Config, st: Store, raw: RawKey, f: Faults)
    requires raw.Keyed? && c.resolverRedis && GetsPast(c, st, raw, f) && !f.getPrefix
    requires raw.prefix in st.redis.prefixes && st.now < st.redis.prefixes[raw.prefix].expires
    ensures var (st', pc) := Drive(c, st, raw, Begin(c, raw), f);
            var record := st.redis.prefixes[raw.prefix].value;
            if record.revoked then st' == st && pc == Done(Rejected(Revoked))
            else if record.keyHash != KeyHash(raw) then st' == st && pc == Done(Rejected(InvalidKey))
            else
              && pc == Done(Accepted(record.identity))
              && Leaves(st, st', st.redis.prefixes,
                        if f.setValidated then st.redis.validated
                        else st.redis.validated[raw := Entry(record.identity, st.now + c.validationTTL)])
  {
    PassesTwoReads(c, st, raw, f);
  }

  /**
   * A Resolve of a key the cache knows nothing about is answered from the tables: the prefix entry is filled for any
   * active key with that prefix, even if the key presented is another one, and the validated entry for the right key.
   */
  lemma AnsweredFromTables(c: Config, st: Store, raw: RawKey, f: Faults)
    requires raw.Keyed? && GetsPast(c, st, raw, f) && !f.lookup
    requires c.resolverRedis ==> !f.getPrefix && !Live(st.redis.prefixes, raw.prefix, st.now)
    ensures var (st', pc) := Drive(c, st, raw, Begin(c, raw), f);
            var active := raw.prefix in st.db.keys && DeadAt(st.db, raw.prefix).None? &&
                          st.db.keys[raw.prefix].identity.serviceId in st.db.services;
            if !active then st' == st && pc == Done(Rejected(NotFound))
            else
              var row := st.db.keys[raw.prefix];
              var right := row.keyHash == KeyHash(raw);
              && pc == Done(if right then Accepted(row.identity) else Rejected(InvalidKey))
              && Leaves(st, st',
                        if !c.resolverRedis || f.setPrefix then st.redis.prefixes
                        else st.redis.prefixes[raw.prefix :=
                                                 Entry(RecordOf(raw.prefix, row), st.now + c.prefixTTL)],
                        if !c.resolverRedis || f.setValidated || !right then st.redis.validated
                        else st.redis.validated[raw := Entry(row.identity, st.now + c.validationTTL)])
  {
    if c.resolverRedis { PassesTwoReads(c, st, raw, f); }
    var record := ActiveRecord(st.db, raw.prefix);
    if record.Some? && c.resolverRedis {
      var (st', pc) := Step(c, st, raw, AtSetPrefix(record.value), f.setPrefix);
      KeepsValidated(c, st', raw, record.value.identity, f);
      assert Drive(c, st, raw, AtSetPrefix(record.value), f) == Drive(c, st', raw, pc, f);
      assert Drive(c, st, raw, AtLookup, f) == Drive(c, st, raw, AtSetPrefix(record.value), f);
    }
  }

  lemma KeepsValidated(c: Config, st: Store, raw: RawKey, identity: Identity, f: Faults)
    ensures Drive(c, st, raw, AtSetValidated(identity), f) ==
            (Step(c, st, raw, AtSetValidated(identity), f.setValidated).0, Done(Accepted(identity)))
  {
  }

  lemma PassesTwoReads(c: Config, st: Store, raw: RawKey, f: Faults)
    requires raw.Keyed? && c.resolverRedis && GetsPast(c, st, raw, f)
    ensures Drive(c, st, raw, Begin(c, raw), f) == Drive(c, st, raw, AtGetPrefix, f)
  {
    assert Drive(c, st, raw, AtGetValidated, f) == Drive(c, st, raw, AtGetPrefix, f);
  }

  class APIKeyCache {
    const config: Config
    /** What the cache reaches: the clock, the tables behind `lookup`, and Redis. */
    var now: nat
    var db: Database
    var redis: Redis

    constructor (config: Config, now: nat, db: Database, redis: Redis)
      ensures this.config == config && Snapshot() == Store(now, db, redis)
    {
      this.config, this.now, this.db, this.redis := config, now, db, redis;
    }

    function Snapshot(): Store
      reads this
    {
      Store(now, db, redis)
    }

    method Resolve(text: string, f: Faults) returns (outcome: Outcome)
      modifies this`redis
      ensures (Snapshot(), Done(outcome)) == Drive(config, old(Snapshot()), Parse(text), Begin(config, Parse(text)), f)
    {
      var raw := Parse(text);
      if raw.Malformed? {
        return Rejected(BadFormat);
      }
      if config.resolverRedis {
        if !f.tombstone && Tombstoned(redis, raw.prefix, now) {
          return Rejected(Revoked);
        }
        if !f.getValidated && Live(redis.validated, raw, now) {
          return Accepted(redis.validated[raw].value);
        }
      }
      var loaded := LoadRecord(raw, f);
      if loaded.Err? {
        return Rejected(loaded.error);
      }
      var record := loaded.value;
      if record.revoked {
        return Rejected(Revoked);
      }
      if record.keyHash != KeyHash(raw) {
        return Rejected(InvalidKey);
      }
      if config.resolverRedis && !f.setValidated {
        redis := redis.(validated := redis.validated[raw := Entry(record.identity, now + config.validationTTL)]);
      }
      outcome := Accepted(record.identity);
    }

    /** The record for the key's prefix, from the prefix entry or else from the tables, which refills the entry. */
    method LoadRecord(raw: RawKey, f: Faults) returns (r: Result<Record, Reason>)
      requires raw.Keyed?
      modifies this`redis
      ensures Drive(config, old(Snapshot()), raw, if config.resolverRedis then AtGetPrefix else AtLookup, f)
           == match r
              case Ok(record) => Drive(config, Snapshot(), raw, Check(config, raw, record), f)
              case Err(reason) => (Snapshot(), Done(Rejected(reason)))
    {
      if config.resolverRedis {
        if f.getPrefix {
          return Err(RedisError);
        }
        if Live(redis.prefixes, raw.prefix, now) {
          return Ok(redis.prefixes[raw.prefix].value);
        }
      }
      if f.lookup {
        return Err(DatabaseError);
      }
      var record := ActiveRecord(db, raw.prefix);
      if record.None? {
        return Err(NotFound);
      }
      if config.resolverRedis && !f.setPrefix {
        redis := redis.(prefixes := redis.prefixes[raw.prefix := Entry(record.value, now + config.prefixTTL)]);
      }
      return Ok(record.value);
    }

    /** Reports success when both pipelined commands went through, or when this process has no Redis at all. */
    method Invalidate(prefix: string, delFault: bool, setFault: bool) returns (ok: bool)
      modifies this`redis
      ensures ok == ReportsSuccess(config, delFault, setFault)
      ensures Snapshot() == AfterInvalidate(config, old(Snapshot()), prefix, delFault, setFault)
      ensures config.apiRedis && !delFault ==> redis.prefixes == old(redis.prefixes) - {prefix}
      ensures config.apiRedis && !setFault ==> redis.revoked == old(redis.revoked)[prefix := now + 3_600_000]
    {
      if !config.apiRedis {
        return true;
      }
      if !delFault {
        redis := redis.(prefixes := redis.prefixes - {prefix});
      }
      if !setFault {
        redis := redis.(revoked := redis.revoked[prefix := now + HOUR]);
      }
      return !delFault && !setFault;
    }
  }
}
