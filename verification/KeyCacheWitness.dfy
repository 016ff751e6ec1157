/** Runs that attain the staleness bound and runs that break finality, for every configuration that allows them. */
module KeyCacheWitness {
  import opened Prelude
  import opened ApiKeys
  import opened KeyCache
  import opened KeyCacheSafety
  import opened KeyCacheFinality

  /**
   * The cast of a witness run: a key, and a raw key with the same prefix but the wrong secret. Presenting
   * the latter loads the prefix entry without ever being accepted.
   */
  datatype Cast = Cast(prefix: string, key: RawKey, wrong: RawKey)

  ghost predicate ValidCast(w: Cast) {
    && w.key.Keyed? && w.wrong.Keyed? && w.key.prefix == w.prefix == w.wrong.prefix
    && w.key != w.wrong
  }

  const OWNER := Identity("k", "s", "o")

  function Row(w: Cast, revokedAt: Option<nat>): KeyRow {
    KeyRow(OWNER, KeyHash(w.key), revokedAt)
  }

  function Tables(w: Cast, deletedAt: Option<nat>, revokedAt: Option<nat>): Database {
    Database(map["s" := ServiceRow("o", deletedAt)], map[w.prefix := Row(w, revokedAt)])
  }

  lemma CastExists() returns (w: Cast)
    ensures ValidCast(w) && Parse(w.key.text) == w.key && Parse(w.wrong.text) == w.wrong
  {
    var part := seq(PREFIX_LEN, _ => 'a');
    ExtractRecovers(part, "0");
    ExtractRecovers(part, "1");
    w := Cast(SCHEME + part, Parse(SCHEME + part + "_" + "0"), Parse(SCHEME + part + "_" + "1"));
    assert w.key.text[12] != w.wrong.text[12];
  }

  lemma Extend(c: Config, run: seq<Action>, a: Action) returns (run': seq<Action>)
    requires Enabled(c, Run(c, run), a)
    ensures Run(c, run') == Perform(c, Run(c, run), a)
  {
    run' := run + [a];
    assert run'[..|run'| - 1] == run;
  }

  /** One access of a Resolve whose effect is known. */
  lemma Go(c: Config, run: seq<Action>, fid: nat, fault: bool, st: Store, pc: Pc) returns (run': seq<Action>)
    requires fid in Run(c, run).flights && !Run(c, run).flights[fid].pc.Done?
    requires var f := Run(c, run).flights[fid];
             && Step(c, Run(c, run).store, f.raw, f.pc, fault) == (st, pc)
             && (fault && f.pc.AtExists? ==> c.existsFaults)
    ensures var s := Run(c, run);
            var f := s.flights[fid];
            Run(c, run') == s.(store := st,
              flights := s.flights[fid := Advance(f, s.store.now, pc, fault)])
  {
    run' := Extend(c, run, Access(fid, fault));
  }

  /** A Resolve of `raw` that has read the active row and is about to write the prefix entry. */
  function Loading(w: Cast, raw: RawKey): Flight {
    Flight(raw, 0, 0, true, false, true, None, AtSetPrefix(RecordOf(w.prefix, Row(w, None))))
  }

  const EMPTY := Redis(map[], map[], map[])

  lemma Setup(c: Config, w: Cast, raw: RawKey) returns (run: seq<Action>)
    requires ValidCast(w) && c.resolverRedis && raw in {w.key, w.wrong}
    ensures Run(c, run) ==
            State(Store(0, Tables(w, None, None), EMPTY), map[], map[1 := Loading(w, raw).(pc := AtExists)])
  {
    run := Extend(c, [], CreateService("s", "o"));
    run := Extend(c, run, CreateKey("k", "s", "o", w.key));
    run := Extend(c, run, Start(1, raw));
  }

  lemma Load(c: Config, w: Cast, raw: RawKey) returns (run: seq<Action>)
    requires ValidCast(w) && c.resolverRedis && raw in {w.key, w.wrong}
    ensures Run(c, run) == State(Store(0, Tables(w, None, None), EMPTY), map[], map[1 := Loading(w, raw)])
  {
    run := Setup(c, w, raw);
    var st := Run(c, run).store;
    run := Go(c, run, 1, false, st, AtGetValidated);
    run := Go(c, run, 1, false, st, AtGetPrefix);
    run := Go(c, run, 1, false, st, AtLookup);
    run := Go(c, run, 1, false, st, Loading(w, raw).pc);
    assert Run(c, run).flights == map[1 := Loading(w, raw)];
  }

  /** The tables after the key died at time 0, by revocation or by deletion of its service. */
  function Dead(w: Cast, revoked: bool): Database {
    if revoked then Tables(w, None, Some(0)) else Tables(w, Some(0), None)
  }

  /** The state after a loading Resolve of the wrong key saw the key die and wrote the prefix entry at the last. */
  function Warmed(c: Config, w: Cast, invalidated: bool): State {
    var record := Entry(RecordOf(w.prefix, Row(w, None)), c.maxFlight + c.prefixTTL);
    State(Store(c.maxFlight, Dead(w, invalidated),
                Redis(map[w.prefix := record], map[], if invalidated then map[w.prefix := HOUR] else map[])),
          if invalidated then map[w.prefix := 0] else map[],
          map[1 := Loading(w, w.wrong).(pc := Done(Rejected(InvalidKey)), last := c.maxFlight)])
  }

  lemma Invalidated(c: Config, w: Cast, run: seq<Action>, raw: RawKey) returns (run': seq<Action>)
    requires ValidCast(w) && c.apiRedis
    requires Run(c, run) == State(Store(0, Tables(w, None, None), EMPTY), map[], map[1 := Loading(w, raw)])
    ensures Run(c, run') == State(Store(0, Dead(w, true), EMPTY.(revoked := map[w.prefix := HOUR])), map[w.prefix := 0],
                                  map[1 := Loading(w, raw)])
  {
    run' := Extend(c, run, RevokeKey(w.prefix));
    assert Run(c, run').store.db == Dead(w, true);
    run' := Extend(c, run', InvalidateDel(w.prefix));
    assert Run(c, run').store == Store(0, Dead(w, true), EMPTY);
    run' := Extend(c, run', InvalidateSet(w.prefix));
  }

  /** The key dies right after it was read; with `revoked`, by a revocation whose invalidation succeeds at once. */
  lemma Die(c: Config, w: Cast, run: seq<Action>, raw: RawKey, revoked: bool) returns (run': seq<Action>)
    requires ValidCast(w) && (revoked ==> c.apiRedis)
    requires Run(c, run) == State(Store(0, Tables(w, None, None), EMPTY), map[], map[1 := Loading(w, raw)])
    ensures Run(c, run') == State(Store(c.maxFlight, Dead(w, revoked),
                                        Redis(map[], map[], if revoked then map[w.prefix := HOUR] else map[])),
                                  if revoked then map[w.prefix := 0] else map[],
                                  map[1 := Loading(w, raw)])
  {
    if revoked {
      run' := Invalidated(c, w, run, raw);
    } else {
      run' := Extend(c, run, DeleteService("s"));
    }
    run' := Extend(c, run', Tick(c.maxFlight));
  }

  lemma Warm(c: Config, w: Cast, revoked: bool) returns (run: seq<Action>)
    requires ValidCast(w) && c.resolverRedis && (revoked ==> c.apiRedis)
    ensures Run(c, run) == Warmed(c, w, revoked)
  {
    run := Load(c, w, w.wrong);
    run := Die(c, w, run, w.wrong, revoked);
    run := Go(c, run, 1, false, Warmed(c, w, revoked).store, Done(Rejected(InvalidKey)));
    assert Run(c, run).flights == Warmed(c, w, revoked).flights;
  }

  ghost predicate AllDone(s: State) {
    forall fid :: fid in s.flights ==> s.flights[fid].pc.Done?
  }

  /** A Resolve of the true key that starts now, with nothing read yet. */
  function Starting(w: Cast, now: nat, late: bool): Flight {
    Flight(w.key, now, now, true, late, true, None, AtExists)
  }

  lemma Begins(c: Config, w: Cast, run: seq<Action>, dt: nat, fid: nat) returns (run': seq<Action>)
    requires ValidCast(w) && c.resolverRedis && AllDone(Run(c, run)) && fid !in Run(c, run).flights
    requires Owns(Run(c, run).store.db, w.prefix, w.key)
    ensures var s := Run(c, run);
            Run(c, run') == s.(store := s.store.(now := s.store.now + dt),
              flights := s.flights[fid := Starting(w, s.store.now + dt, w.prefix in s.invalidated)])
  {
    run' := Extend(c, run, Tick(dt));
    run' := Extend(c, run', Start(fid, w.key));
  }

  /** The last moment at which the warmed prefix entry can be turned into a validated entry, and that entry. */
  function RenewedAt(c: Config): nat {
    2 * c.maxFlight + c.prefixTTL - 1
  }

  function Renewed(c: Config, w: Cast, revoked: bool): Store {
    var st := Warmed(c, w, revoked).store;
    st.(now := RenewedAt(c),
        redis := st.redis.(validated := map[w.key := Entry(OWNER, RenewedAt(c) + c.validationTTL)]))
  }

  function Rewarmed(c: Config, w: Cast, revoked: bool): Store {
    Warmed(c, w, revoked).store.(now := c.maxFlight + c.prefixTTL - 1)
  }

  lemma Reread(c: Config, w: Cast, revoked: bool) returns (run: seq<Action>)
    requires ValidCast(w) && c.resolverRedis && (revoked ==> c.apiRedis && c.existsFaults)
    ensures var s := Run(c, run);
            && s.store == Rewarmed(c, w, revoked) && s.flights.Keys == {1, 2}
            && s.flights[1].pc.Done? && s.invalidated == Warmed(c, w, revoked).invalidated
            && s.flights[2] == Starting(w, Rewarmed(c, w, revoked).now, revoked)
                                 .(existsOk := !revoked, pc := AtSetValidated(OWNER))
  {
    run := Restart(c, w, revoked);
    var st := Rewarmed(c, w, revoked);
    run := Go(c, run, 2, revoked, st, AtGetValidated);
    run := Go(c, run, 2, false, st, AtGetPrefix);
    run := Go(c, run, 2, false, st, AtSetValidated(OWNER));
  }

  lemma Restart(c: Config, w: Cast, revoked: bool) returns (run: seq<Action>)
    requires ValidCast(w) && c.resolverRedis && (revoked ==> c.apiRedis)
    ensures var s := Run(c, run);
            && s.store == Rewarmed(c, w, revoked) && s.flights.Keys == {1, 2}
            && s.flights[1].pc.Done? && s.invalidated == Warmed(c, w, revoked).invalidated
            && s.flights[2] == Starting(w, Rewarmed(c, w, revoked).now, revoked)
  {
    run := Warm(c, w, revoked);
    run := Begins(c, w, run, c.prefixTTL - 1, 2);
  }

  lemma Renew(c: Config, w: Cast, revoked: bool) returns (run: seq<Action>)
    requires ValidCast(w) && c.resolverRedis && (revoked ==> c.apiRedis && c.existsFaults)
    ensures var s := Run(c, run);
            && s.store == Renewed(c, w, revoked) && AllDone(s) && s.flights.Keys == {1, 2}
            && s.invalidated == Warmed(c, w, revoked).invalidated
  {
    run := Reread(c, w, revoked);
    run := Extend(c, run, Tick(c.maxFlight));
    run := Go(c, run, 2, false, Renewed(c, w, revoked), Done(Accepted(OWNER)));
  }

  /** A validated entry that is still live is accepted when no tombstone is. */
  lemma Reuse(c: Config, w: Cast, run: seq<Action>, dt: nat, fid: nat) returns (run': seq<Action>)
    requires ValidCast(w) && c.resolverRedis && AllDone(Run(c, run)) && fid !in Run(c, run).flights
    requires Owns(Run(c, run).store.db, w.prefix, w.key)
    requires var st := Run(c, run).store;
             && Live(st.redis.validated, w.key, st.now + dt) && st.redis.validated[w.key].value == OWNER
             && !Tombstoned(st.redis, w.prefix, st.now + dt)
    ensures var s := Run(c, run);
            && Run(c, run').store == s.store.(now := s.store.now + dt)
            && fid in Run(c, run').flights
            && Run(c, run').flights[fid] ==
                 Starting(w, s.store.now + dt, w.prefix in s.invalidated).(pc := Done(Accepted(OWNER)))
  {
    var st := Run(c, run).store.(now := Run(c, run).store.now + dt);
    run' := Begins(c, w, run, dt, fid);
    run' := Go(c, run', fid, false, st, AtGetValidated);
    run' := Go(c, run', fid, false, st, Done(Accepted(OWNER)));
  }

  /**
   * The staleness bound is attained in every configuration with Redis: a service is deleted at time 0, no
   * access fails, and a Resolve of its key that starts and reads exactly StaleBound later is still accepted.
   */
  lemma StaleBoundAttained(c: Config) returns (run: seq<Action>, fid: nat)
    requires c.resolverRedis
    ensures var s := Run(c, run);
            && fid in s.flights && s.flights[fid].pc == Done(Accepted(OWNER))
            && DeadAt(s.store.db, KeyPrefix(s.flights[fid].raw)) == Some(0)
            && s.flights[fid].started == s.flights[fid].last == StaleBound(c)
  {
    var w := CastExists();
    run := Renew(c, w, false);
    run := Reuse(c, w, run, c.validationTTL - 1, 3);
    fid := 3;
  }

  /** Reliable checks, and a prefix entry that outlives the tombstone. */
  lemma PrefixOutlives(c: Config) returns (run: seq<Action>)
    requires c.resolverRedis && c.apiRedis && c.maxFlight + c.prefixTTL > HOUR
    ensures !LateRejected(Run(c, run))
  {
    var w := CastExists();
    run := Warm(c, w, true);
    var dt := Max(HOUR - c.maxFlight, 0);
    run := Begins(c, w, run, dt, 2);
    var st := Warmed(c, w, true).store.(now := c.maxFlight + dt);
    run := Go(c, run, 2, false, st, AtGetValidated);
    run := Go(c, run, 2, false, st, AtGetPrefix);
    run := Go(c, run, 2, false, st, AtSetValidated(OWNER));
    run := Go(c, run, 2, true, st, Done(Accepted(OWNER)));
    assert 2 in Run(c, run).flights;
  }

  /** Reliable checks, and a validated entry that outlives the tombstone: nothing ever deletes one. */
  lemma ValidatedOutlives(c: Config) returns (run: seq<Action>)
    requires c.resolverRedis && c.apiRedis && c.maxFlight + c.validationTTL > HOUR
    ensures !LateRejected(Run(c, run))
  {
    var w := CastExists();
    run := Load(c, w, w.key);
    run := Die(c, w, run, w.key, true);
    var st := Run(c, run).store;
    run := Go(c, run, 1, true, st, AtSetValidated(OWNER));
    run := Go(c, run, 1, false,
              st.(redis := st.redis.(validated := map[w.key := Entry(OWNER, c.maxFlight + c.validationTTL)])),
              Done(Accepted(OWNER)));
    run := Reuse(c, w, run, Max(HOUR - c.maxFlight, 0), 2);
    assert 2 in Run(c, run).flights;
  }

  /** One other Resolve whose check failed renews the key under the tombstone. */
  lemma FaultyCheckOutlives(c: Config) returns (run: seq<Action>)
    requires c.resolverRedis && c.apiRedis && c.existsFaults
    requires 2 * c.maxFlight + c.prefixTTL + c.validationTTL - 1 > HOUR
    ensures !LateRejected(Run(c, run))
  {
    var w := CastExists();
    run := Renew(c, w, true);
    run := Reuse(c, w, run, Max(HOUR - RenewedAt(c), 0), 3);
    assert 3 in Run(c, run).flights;
  }

  /** An Invalidate without Redis reports success and leaves the validated entry to live out its TTL. */
  lemma SkippedInvalidate(c: Config) returns (run: seq<Action>)
    requires c.resolverRedis && !c.apiRedis
    ensures !LateRejected(Run(c, run))
  {
    var w := CastExists();
    run := Load(c, w, w.key);
    var st := Run(c, run).store;
    run := Go(c, run, 1, true, st, AtSetValidated(OWNER));
    st := st.(redis := st.redis.(validated := map[w.key := Entry(OWNER, c.validationTTL)]));
    run := Go(c, run, 1, false, st, Done(Accepted(OWNER)));
    run := Extend(c, run, RevokeKey(w.prefix));
    run := Extend(c, run, InvalidateSkip(w.prefix));
    run := Reuse(c, w, run, c.validationTTL - 1, 2);
    assert 2 in Run(c, run).flights;
  }

  /**
   * Exactly when a revocation is final: a Resolve that starts after the key was invalidated, and whose own
   * tombstone check works, is rejected in every run if and only if the resolving process has no Redis to cache in,
   * or the API process has one too and the tombstone outlives the cache.
   */
  lemma RevocationFinalIff(c: Config)
    ensures RevocationFinal(c) <==> (c.resolverRedis ==> c.apiRedis && TombstoneOutlivesCache(c))
  {
    if !c.resolverRedis {
      forall run ensures LateRejected(Run(c, run)) { NothingCached(c, run); }
    } else if c.apiRedis && TombstoneOutlivesCache(c) {
      forall run
        ensures LateRejected(Run(c, run))
      {
        RunSettles(c, run);
        LateStaysRejected(c, Run(c, run));
      }
    } else {
      var run;
      if !c.apiRedis {
        run := SkippedInvalidate(c);
      } else if c.existsFaults {
        run := FaultyCheckOutlives(c);
      } else if c.maxFlight + c.prefixTTL > HOUR {
        run := PrefixOutlives(c);
      } else {
        run := ValidatedOutlives(c);
      }
    }
  }
}
