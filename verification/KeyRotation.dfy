/**
 * Generating, revoking and rotating API keys (internal/service). The pre-checks of a rotation run before and
 * apart from its transaction, so other requests can come in between.
 */
module KeyRotation {
  import opened Prelude

  datatype Service = Service(orgId: string, deleted: bool)

  /** `order` is the position of the row among all inserts, a history. */
  datatype KeyRow = KeyRow(serviceId: string, orgId: string, prefix: string, revoked: bool,
                           rotatedFrom: Option<string>, order: nat)

  /**
   * `checked` holds the rotations whose pre-check has passed, with the key they will replace; `owed` the
   * prefixes whose row was revoked and whose cache entry is still to be invalidated; `lost` those for which that was
   * never done, as the process died or did not learn that its transaction committed. Histories: how often each service
   * had a key generated and a key revoked other than by rotation.
   */
  datatype State = State(services: map<string, Service>, keys: map<string, KeyRow>, checked: map<nat, string>,
                         owed: set<string>, lost: set<string>, invalidated: set<string>,
                         created: nat, generated: multiset<string>, revocations: multiset<string>)

  datatype Failure = ServiceNotFound | KeyNotFound | AlreadyRevoked | DuplicatePrefix

  const Init := State(map[], map[], map[], {}, {}, {}, 0, multiset{}, multiset{})

  predicate ServiceActive(s: State, orgId: string, serviceId: string) {
    serviceId in s.services && s.services[serviceId].orgId == orgId && !s.services[serviceId].deleted
  }

  predicate KeyOf(s: State, orgId: string, serviceId: string, keyId: string) {
    keyId in s.keys && s.keys[keyId].serviceId == serviceId && s.keys[keyId].orgId == orgId
  }

  predicate PrefixTaken(s: State, prefix: string) {
    exists id :: id in s.keys && s.keys[id].prefix == prefix
  }

  function InsertKey(s: State, id: string, row: KeyRow): State {
    s.(keys := s.keys[id := row], created := s.created + 1)
  }

  /** `CreateAPIKey`; the service was looked up before and may have been deleted since. */
  function Create(s: State, orgId: string, serviceId: string, id: string, prefix: string)
    : (State, Result<string, Failure>)
  {
    if PrefixTaken(s, prefix) then (s, Err(DuplicatePrefix))
    else (InsertKey(s, id, KeyRow(serviceId, orgId, prefix, false, None, s.created))
            .(generated := s.generated + multiset{serviceId}), Ok(id))
  }

  /** The guarded UPDATE of `RevokeAPIKey`, and the look-up that tells why no row matched. */
  function Revoke(s: State, orgId: string, serviceId: string, keyId: string): (State, Result<string, Failure>) {
    if !KeyOf(s, orgId, serviceId, keyId) then (s, Err(KeyNotFound))
    else if s.keys[keyId].revoked then (s, Err(AlreadyRevoked))
    else (s.(keys := s.keys[keyId := s.keys[keyId].(revoked := true)],
             owed := s.owed + {s.keys[keyId].prefix},
             revocations := s.revocations + multiset{serviceId}), Ok(keyId))
  }

  /** The pre-check of `RotateAPIKey` in the service. */
  function Check(s: State, orgId: string, serviceId: string, keyId: string): Result<string, Failure> {
    if !ServiceActive(s, orgId, serviceId) then Err(ServiceNotFound)
    else if !KeyOf(s, orgId, serviceId, keyId) then Err(KeyNotFound)
    else if s.keys[keyId].revoked then Err(AlreadyRevoked)
    else Ok(keyId)
  }

  /** The transaction of `RotateAPIKey`: revoke the old row if active and insert its successor, or change nothing. */
  function Rotate(s: State, oldId: string, id: string, prefix: string): (State, Result<string, Failure>)
    requires oldId in s.keys
  {
    var row := s.keys[oldId];
    if row.revoked then (s, Err(AlreadyRevoked))
    else if PrefixTaken(s, prefix) then (s, Err(DuplicatePrefix))
    else
      var revoked := s.(keys := s.keys[oldId := row.(revoked := true)], owed := s.owed + {row.prefix});
      (InsertKey(revoked, id, KeyRow(row.serviceId, row.orgId, prefix, false, Some(oldId), s.created)), Ok(id))
  }

  datatype Action =
    | CreateService(serviceId: string, orgId: string)
    | DeleteService(serviceId: string)
    | Generate(orgId: string, serviceId: string, id: string, prefix: string)
    | RevokeKey(orgId: string, serviceId: string, keyId: string)
    | RotateCheck(op: nat, orgId: string, serviceId: string, keyId: string)
    | RotateCommit(op: nat, id: string, prefix: string)
    | Invalidate(prefix: string)
    | Lose(prefix: string)

  function Next(s: State, a: Action): State {
    match a
    case CreateService(serviceId, orgId) =>
      if serviceId in s.services then s else s.(services := s.services[serviceId := Service(orgId, false)])
    case DeleteService(serviceId) =>
      if serviceId !in s.services then s
      else s.(services := s.services[serviceId := s.services[serviceId].(deleted := true)])
    case Generate(orgId, serviceId, id, prefix) =>
      if id !in s.keys && serviceId in s.services && s.services[serviceId].orgId == orgId
      then Create(s, orgId, serviceId, id, prefix).0 else s
    case RevokeKey(orgId, serviceId, keyId) => Revoke(s, orgId, serviceId, keyId).0
    case RotateCheck(op, orgId, serviceId, keyId) =>
      if Check(s, orgId, serviceId, keyId).Ok? then s.(checked := s.checked[op := keyId]) else s
    case RotateCommit(op, id, prefix) =>
      if op in s.checked && s.checked[op] in s.keys && id !in s.keys
      then Rotate(s.(checked := s.checked - {op}), s.checked[op], id, prefix).0 else s
    case Invalidate(prefix) =>
      if prefix in s.owed then s.(owed := s.owed - {prefix}, invalidated := s.invalidated + {prefix}) else s
    case Lose(prefix) => if prefix in s.owed then s.(owed := s.owed - {prefix}, lost := s.lost + {prefix}) else s
  }

  function Run(run: seq<Action>): State {
    if run == [] then Init else Next(Run(run[..|run| - 1]), run[|run| - 1])
  }

  function Active(s: State, serviceId: string): set<string> {
    set id | id in s.keys && s.keys[id].serviceId == serviceId && !s.keys[id].revoked
  }

  /** The prefixes whose cache entries were, are or should be invalidated. */
  function Due(s: State): set<string> {
    s.owed + s.lost + s.invalidated
  }

  ghost predicate RowOk(s: State, id: string)
    requires id in s.keys
  {
    var row := s.keys[id];
    && row.order < s.created
    && row.serviceId in s.services && s.services[row.serviceId].orgId == row.orgId
    && (row.revoked <==> row.prefix in Due(s))
    && (row.rotatedFrom.Some? ==>
          var p := row.rotatedFrom.value;
          && p in s.keys && s.keys[p].revoked && s.keys[p].order < row.order
          && s.keys[p].serviceId == row.serviceId && s.keys[p].orgId == row.orgId)
  }

  ghost predicate Linear(s: State, a: string, b: string)
    requires a in s.keys && b in s.keys
  {
    && (s.keys[a].rotatedFrom.Some? && s.keys[a].rotatedFrom == s.keys[b].rotatedFrom ==> a == b)
    && (s.keys[a].prefix == s.keys[b].prefix ==> a == b)
  }

  ghost predicate Inv(s: State) {
    && (forall id :: id in s.keys ==> RowOk(s, id))
    && (forall a, b {:trigger Linear(s, a, b)} :: a in s.keys && b in s.keys ==> Linear(s, a, b))
    && (forall p :: p in Due(s) ==> PrefixTaken(s, p))
  }

  ghost predicate Counted(s: State, serviceId: string) {
    s.generated[serviceId] == |Active(s, serviceId)| + s.revocations[serviceId]
  }

  /** A new active row that names a just-revoked predecessor of the same service, or none. */
  ghost predicate FreshRow(s: State, id: string, row: KeyRow) {
    && id !in s.keys && !PrefixTaken(s, row.prefix) && !row.revoked && row.order == s.created
    && row.serviceId in s.services && s.services[row.serviceId].orgId == row.orgId
    && (row.rotatedFrom.Some? ==>
          var p := row.rotatedFrom.value;
          && p in s.keys && s.keys[p].revoked
          && s.keys[p].serviceId == row.serviceId && s.keys[p].orgId == row.orgId
          && (forall k :: k in s.keys ==> s.keys[k].rotatedFrom != Some(p)))
  }

  lemma InsertKeeps(s: State, id: string, row: KeyRow)
    requires Inv(s) && FreshRow(s, id, row)
    ensures Inv(InsertKey(s, id, row))
  {
    var s' := InsertKey(s, id, row);
    forall k | k in s'.keys
      ensures RowOk(s', k)
    {
      if k in s.keys { assert RowOk(s, k); }
    }
    forall a, b | a in s'.keys && b in s'.keys
      ensures Linear(s', a, b)
    {
      if a in s.keys && b in s.keys { assert Linear(s, a, b); }
    }
    forall p | p in Due(s')
      ensures PrefixTaken(s', p)
    {
      var k :| k in s.keys && s.keys[k].prefix == p;
      assert s'.keys[k].prefix == p;
    }
  }

  /** Marks an active row revoked and its cache entry as due for invalidation. */
  function MarkRevoked(s: State, id: string): State
    requires id in s.keys
  {
    s.(keys := s.keys[id := s.keys[id].(revoked := true)], owed := s.owed + {s.keys[id].prefix})
  }

  lemma MarkKeeps(s: State, id: string)
    requires Inv(s) && id in s.keys && !s.keys[id].revoked
    ensures Inv(MarkRevoked(s, id))
    ensures forall k :: k in s.keys ==> s.keys[k].rotatedFrom != Some(id)
  {
    var s' := MarkRevoked(s, id);
    forall k | k in s'.keys
      ensures RowOk(s', k) && s.keys[k].rotatedFrom != Some(id)
    {
      assert RowOk(s, k) && Linear(s, k, id);
    }
    forall a, b | a in s'.keys && b in s'.keys
      ensures Linear(s', a, b)
    {
      assert Linear(s, a, b);
    }
    forall p | p in Due(s')
      ensures PrefixTaken(s', p)
    {
      if p == s.keys[id].prefix {
        assert s'.keys[id].prefix == p;
      } else {
        var k :| k in s.keys && s.keys[k].prefix == p;
        assert s'.keys[k].prefix == p;
      }
    }
  }

  /** Tables other than the keys do not matter to the invariant as long as services keep their organisation. */
  lemma OthersKeep(s: State, s': State)
    requires Inv(s) && s'.keys == s.keys && s'.created == s.created && Due(s') == Due(s)
    requires forall k :: k in s.services ==> k in s'.services && s'.services[k].orgId == s.services[k].orgId
    ensures Inv(s')
  {
    forall k | k in s'.keys
      ensures RowOk(s', k)
    {
      assert RowOk(s, k);
    }
    forall a, b | a in s'.keys && b in s'.keys
      ensures Linear(s', a, b)
    {
      assert Linear(s, a, b);
    }
    forall p | p in Due(s')
      ensures PrefixTaken(s', p)
    {
      var k :| k in s.keys && s.keys[k].prefix == p;
      assert s'.keys[k].prefix == p;
    }
  }

  lemma RotateKeeps(s: State, oldId: string, id: string, prefix: string)
    requires Inv(s) && oldId in s.keys && id !in s.keys
    ensures Inv(Rotate(s, oldId, id, prefix).0)
  {
    var row := s.keys[oldId];
    if !row.revoked && !PrefixTaken(s, prefix) {
      MarkKeeps(s, oldId);
      var s1 := MarkRevoked(s, oldId);
      assert RowOk(s, oldId);
      forall k | k in s1.keys
        ensures s1.keys[k].prefix != prefix
      {
        assert s1.keys[k].prefix == s.keys[k].prefix;
      }
      InsertKeeps(s1, id, KeyRow(row.serviceId, row.orgId, prefix, false, Some(oldId), s.created));
    }
  }

  lemma CommitKeeps(s: State, op: nat, id: string, prefix: string)
    requires Inv(s)
    ensures Inv(Next(s, RotateCommit(op, id, prefix)))
  {
    if op in s.checked && s.checked[op] in s.keys && id !in s.keys {
      var s1 := s.(checked := s.checked - {op});
      OthersKeep(s, s1);
      RotateKeeps(s1, s.checked[op], id, prefix);
    }
  }

  lemma GenerateKeeps(s: State, orgId: string, serviceId: string, id: string, prefix: string)
    requires Inv(s)
    ensures Inv(Next(s, Generate(orgId, serviceId, id, prefix)))
  {
    var s' := Next(s, Generate(orgId, serviceId, id, prefix));
    if s' != s {
      var row := KeyRow(serviceId, orgId, prefix, false, None, s.created);
      InsertKeeps(s, id, row);
      OthersKeep(InsertKey(s, id, row), s');
    }
  }

  lemma RevokeKeeps(s: State, orgId: string, serviceId: string, keyId: string)
    requires Inv(s)
    ensures Inv(Next(s, RevokeKey(orgId, serviceId, keyId)))
  {
    var s' := Next(s, RevokeKey(orgId, serviceId, keyId));
    if s' != s {
      MarkKeeps(s, keyId);
      OthersKeep(MarkRevoked(s, keyId), s');
    }
  }

  lemma NextKeeps(s: State, a: Action)
    requires Inv(s)
    ensures Inv(Next(s, a))
  {
    var s' := Next(s, a);
    match a {
      case Generate(orgId, serviceId, id, prefix) => GenerateKeeps(s, orgId, serviceId, id, prefix);
      case RevokeKey(orgId, serviceId, keyId) => RevokeKeeps(s, orgId, serviceId, keyId);
      case RotateCommit(op, id, prefix) => CommitKeeps(s, op, id, prefix);
      case _ => OthersKeep(s, s');
    }
  }

  lemma {:induction false} RunKeeps(run: seq<Action>)
    ensures Inv(Run(run))
  {
    if run != [] {
      RunKeeps(run[..|run| - 1]);
      NextKeeps(Run(run[..|run| - 1]), run[|run| - 1]);
    }
  }

  lemma ActiveInserted(s: State, id: string, row: KeyRow, serviceId: string)
    requires id !in s.keys && !row.revoked
    ensures |Active(InsertKey(s, id, row), serviceId)| ==
            |Active(s, serviceId)| + if row.serviceId == serviceId then 1 else 0
  {
    var s' := InsertKey(s, id, row);
    if row.serviceId == serviceId {
      assert Active(s', serviceId) == Active(s, serviceId) + {id};
    } else {
      assert Active(s', serviceId) == Active(s, serviceId);
    }
  }

  lemma ActiveMarked(s: State, id: string, serviceId: string)
    requires id in s.keys && !s.keys[id].revoked
    ensures |Active(MarkRevoked(s, id), serviceId)| ==
            |Active(s, serviceId)| - if s.keys[id].serviceId == serviceId then 1 else 0
  {
    var s' := MarkRevoked(s, id);
    if s.keys[id].serviceId == serviceId {
      assert id in Active(s, serviceId) && Active(s', serviceId) == Active(s, serviceId) - {id};
    } else {
      assert Active(s', serviceId) == Active(s, serviceId);
    }
  }

  lemma NextCounts(s: State, a: Action, serviceId: string)
    requires Counted(s, serviceId)
    ensures Counted(Next(s, a), serviceId)
  {
    var s' := Next(s, a);
    match a {
      case Generate(orgId, service, id, prefix) =>
        if s' != s {
          var row := KeyRow(service, orgId, prefix, false, None, s.created);
          ActiveInserted(s, id, row, serviceId);
          assert Active(s', serviceId) == Active(InsertKey(s, id, row), serviceId);
        }
      case RevokeKey(orgId, service, keyId) =>
        if s' != s {
          ActiveMarked(s, keyId, serviceId);
          assert Active(s', serviceId) == Active(MarkRevoked(s, keyId), serviceId);
        }
      case RotateCommit(op, id, prefix) =>
        if op in s.checked && s.checked[op] in s.keys && id !in s.keys {
          var s1 := s.(checked := s.checked - {op});
          assert Active(s1, serviceId) == Active(s, serviceId);
          RotateCounts(s1, s.checked[op], id, prefix, serviceId);
        }
      case _ => assert Active(s', serviceId) == Active(s, serviceId);
    }
  }

  lemma RotateCounts(s: State, oldId: string, id: string, prefix: string, serviceId: string)
    requires oldId in s.keys && id !in s.keys && Counted(s, serviceId)
    ensures Counted(Rotate(s, oldId, id, prefix).0, serviceId)
  {
    var row := s.keys[oldId];
    if !row.revoked && !PrefixTaken(s, prefix) {
      ActiveMarked(s, oldId, serviceId);
      var newRow := KeyRow(row.serviceId, row.orgId, prefix, false, Some(oldId), s.created);
      ActiveInserted(MarkRevoked(s, oldId), id, newRow, serviceId);
    }
  }

  /**
   * Under any interleaving, a service's active keys are those generated minus those revoked; a rotation
   * changes neither side.
   */
  lemma {:induction false} ActiveCount(run: seq<Action>, serviceId: string)
    ensures var s := Run(run);
            s.generated[serviceId] == |Active(s, serviceId)| + s.revocations[serviceId]
  {
    if run == [] {
      assert Active(Init, serviceId) == {};
    } else {
      ActiveCount(run[..|run| - 1], serviceId);
      NextCounts(Run(run[..|run| - 1]), run[|run| - 1], serviceId);
    }
  }

  /** The key n rotations back. */
  function Back(s: State, id: string, n: nat): Option<string>
    decreases n
  {
    if n == 0 then Some(id)
    else if id in s.keys && s.keys[id].rotatedFrom.Some? then Back(s, s.keys[id].rotatedFrom.value, n - 1)
    else None
  }

  lemma {:induction false} BackDecreases(s: State, id: string, n: nat)
    requires Inv(s) && id in s.keys && Back(s, id, n).Some?
    ensures var p := Back(s, id, n).value;
            && p in s.keys && s.keys[p].order + n <= s.keys[id].order
            && (n > 0 ==> s.keys[p].revoked)
            && s.keys[p].serviceId == s.keys[id].serviceId && s.keys[p].orgId == s.keys[id].orgId
    decreases n
  {
    if n > 0 {
      assert RowOk(s, id);
      BackDecreases(s, s.keys[id].rotatedFrom.value, n - 1);
    }
  }

  /** Going back the same number of rotations to the same key means starting from the same key. */
  lemma {:induction false} BackInjective(s: State, a: string, b: string, n: nat)
    requires Inv(s) && a in s.keys && b in s.keys && Back(s, a, n).Some? && Back(s, a, n) == Back(s, b, n)
    ensures a == b
    decreases n
  {
    if n > 0 {
      var a', b' := s.keys[a].rotatedFrom.value, s.keys[b].rotatedFrom.value;
      assert a' in s.keys && b' in s.keys by { assert RowOk(s, a) && RowOk(s, b); }
      BackInjective(s, a', b', n - 1);
      assert Linear(s, a, b);
    }
  }

  lemma {:induction false} BackSplits(s: State, id: string, m: nat, n: nat)
    requires Back(s, id, m + n).Some?
    ensures Back(s, id, m).Some? && Back(s, Back(s, id, m).value, n) == Back(s, id, m + n)
    decreases m
  {
    if m > 0 { BackSplits(s, s.keys[id].rotatedFrom.value, m - 1, n); }
  }

  /**
   * Rotation chains, under any interleaving of requests: no key is its own ancestor, every ancestor is revoked
   * and belongs to the same service, and no key has two successors.
   */
  lemma ChainsAreLines(run: seq<Action>, id: string, n: nat, a: string, b: string)
    requires var s := Run(run); id in s.keys && a in s.keys && b in s.keys
    requires n > 0 && Back(Run(run), id, n).Some?
    ensures var s := Run(run);
            var p := Back(s, id, n).value;
            && p != id && p in s.keys && s.keys[p].revoked
            && s.keys[p].serviceId == s.keys[id].serviceId && s.keys[p].orgId == s.keys[id].orgId
            && (s.keys[a].rotatedFrom == s.keys[b].rotatedFrom == Some(p) ==> a == b)
  {
    RunKeeps(run);
    BackDecreases(Run(run), id, n);
    assert Linear(Run(run), a, b);
  }

  /** An active key that has the nearer common ancestor is where the other key's chain leads back to. */
  lemma NearerIsLater(s: State, a: string, b: string, m: nat, n: nat)
    requires Inv(s) && a in s.keys && b in s.keys && !s.keys[a].revoked && m <= n
    requires Back(s, a, m).Some? && Back(s, a, m) == Back(s, b, n)
    ensures a == b
  {
    BackSplits(s, b, n - m, m);
    var p := Back(s, b, n - m).value;
    BackDecreases(s, b, n - m);
    BackInjective(s, a, p, m);
  }

  /** Two keys of one chain, that is with a common ancestor or one the ancestor of the other, are never both active. */
  lemma OneActivePerChain(run: seq<Action>, a: string, b: string, m: nat, n: nat)
    requires var s := Run(run);
             && a in s.keys && b in s.keys && !s.keys[a].revoked && !s.keys[b].revoked
             && Back(s, a, m).Some? && Back(s, a, m) == Back(s, b, n)
    ensures a == b
  {
    RunKeeps(run);
    if m <= n { NearerIsLater(Run(run), a, b, m, n); } else { NearerIsLater(Run(run), b, a, n, m); }
  }

  /** Only revoked keys are ever passed to the cache; and each revoked key is, will be, or was lost on the way. */
  lemma InvalidatedAreRevoked(run: seq<Action>, id: string)
    requires id in Run(run).keys
    ensures var s := Run(run);
            && (s.keys[id].prefix in s.invalidated ==> s.keys[id].revoked)
            && (s.keys[id].revoked <==> s.keys[id].prefix in s.owed + s.lost + s.invalidated)
  {
    RunKeeps(run);
    assert RowOk(Run(run), id);
  }

  ghost predicate NoLosses(run: seq<Action>) {
    forall k :: 0 <= k < |run| ==> !run[k].Lose?
  }

  lemma {:induction false} NothingIsLost(run: seq<Action>)
    requires NoLosses(run)
    ensures Run(run).lost == {}
  {
    if run != [] { NothingIsLost(run[..|run| - 1]); }
  }

  /** Every revoked key has been passed to the cache or is about to be. */
  ghost predicate RevokedReachCache(s: State) {
    forall id :: id in s.keys && s.keys[id].revoked ==> s.keys[id].prefix in s.owed + s.invalidated
  }

  lemma Extend(run: seq<Action>, a: Action) returns (run': seq<Action>)
    ensures Run(run') == Next(Run(run), a)
  {
    run' := run + [a];
    assert run'[..|run'| - 1] == run;
  }

  /** A process that dies after revoking leaves the key to the cache. */
  lemma LossLeavesKey() returns (run: seq<Action>)
    ensures !RevokedReachCache(Run(run))
  {
    run := Extend([], CreateService("s", "o"));
    run := Extend(run, Generate("o", "s", "k", "p"));
    run := Extend(run, RevokeKey("o", "s", "k"));
    run := Extend(run, Lose("p"));
    assert "k" in Run(run).keys;
  }

  /** Exactly when revocations reach the cache, over all runs: no process dies between the tables and the cache. */
  lemma RevokedReachCacheIff(losses: bool)
    ensures (forall run | losses || NoLosses(run) :: RevokedReachCache(Run(run))) <==> !losses
  {
    if losses {
      var run := LossLeavesKey();
    } else {
      forall run | NoLosses(run)
        ensures RevokedReachCache(Run(run))
      {
        NothingIsLost(run);
        RunKeeps(run);
        forall id | id in Run(run).keys ensures RowOk(Run(run), id) {}
      }
    }
  }
}

/** The key operations as the service writes them: tables first, cache invalidation last. */
module KeyService {
  import opened Prelude
  import opened KeyRotation

  /** A state as runs reach it: the lineage invariant holds and every service's keys are accounted for. */
  ghost predicate Consistent(s: State) {
    Inv(s) && forall serviceId :: Counted(s, serviceId)
  }

  lemma NextConsistent(s: State, a: Action)
    requires Consistent(s)
    ensures Consistent(Next(s, a))
  {
    NextKeeps(s, a);
    forall serviceId ensures Counted(Next(s, a), serviceId) { NextCounts(s, a, serviceId); }
  }

  /** An uninterrupted rotation is its pre-check followed by its transaction, which a failed pre-check prevents. */
  lemma RotateIsSteps(s: State, op: nat, orgId: string, serviceId: string, keyId: string, id: string, prefix: string)
    requires op !in s.checked && id !in s.keys
    ensures Next(Next(s, RotateCheck(op, orgId, serviceId, keyId)), RotateCommit(op, id, prefix)) ==
            if Check(s, orgId, serviceId, keyId).Ok? then Rotate(s, keyId, id, prefix).0 else s
  {
    assert s.checked[op := keyId] - {op} == s.checked;
  }

  /** So is one that ends in invalidating the replaced key, and it keeps the state consistent. */
  lemma RotationConsistent(s: State, orgId: string, serviceId: string, keyId: string, id: string, prefix: string)
    requires Consistent(s) && s.checked == map[] && Check(s, orgId, serviceId, keyId).Ok? && id !in s.keys
    ensures Consistent(Rotate(s, keyId, id, prefix).0)
    ensures Consistent(Next(Rotate(s, keyId, id, prefix).0, Invalidate(s.keys[keyId].prefix)))
  {
    var check, commit := RotateCheck(0, orgId, serviceId, keyId), RotateCommit(0, id, prefix);
    RotateIsSteps(s, 0, orgId, serviceId, keyId, id, prefix);
    NextConsistent(s, check);
    NextConsistent(Next(s, check), commit);
    NextConsistent(Rotate(s, keyId, id, prefix).0, Invalidate(s.keys[keyId].prefix));
  }

  /** What an uninterrupted revocation leaves behind: the key revoked, its prefix invalidated and nothing owed. */
  lemma RevocationEffect(s: State, orgId: string, serviceId: string, keyId: string)
    requires s.owed == {} && Revoke(s, orgId, serviceId, keyId).1.Ok?
    ensures Next(Revoke(s, orgId, serviceId, keyId).0, Invalidate(s.keys[keyId].prefix)) ==
            s.(keys := s.keys[keyId := s.keys[keyId].(revoked := true)],
               revocations := s.revocations + multiset{serviceId},
               invalidated := s.invalidated + {s.keys[keyId].prefix})
  {
    var p := s.keys[keyId].prefix;
    assert {} + {p} - {p} == {};
  }

  /** And an uninterrupted rotation, besides the new key. */
  lemma RotationEffect(s: State, keyId: string, id: string, prefix: string)
    requires s.owed == {} && keyId in s.keys && Rotate(s, keyId, id, prefix).1.Ok?
    ensures var row := s.keys[keyId];
            var rows := s.keys[keyId := row.(revoked := true)];
            Next(Rotate(s, keyId, id, prefix).0, Invalidate(row.prefix)) ==
            s.(keys := rows[id := KeyRow(row.serviceId, row.orgId, prefix, false, Some(keyId), s.created)],
               created := s.created + 1, invalidated := s.invalidated + {row.prefix})
  {
    var p := s.keys[keyId].prefix;
    assert {} + {p} - {p} == {};
  }

  /** A revocation and its invalidation keep the state consistent. */
  lemma RevocationConsistent(s: State, orgId: string, serviceId: string, keyId: string)
    requires Consistent(s)
    ensures var s' := Revoke(s, orgId, serviceId, keyId).0;
            && Consistent(s')
            && (keyId in s.keys ==> Consistent(Next(s', Invalidate(s.keys[keyId].prefix))))
  {
    var revoke := RevokeKey(orgId, serviceId, keyId);
    NextConsistent(s, revoke);
    if keyId in s.keys { NextConsistent(Next(s, revoke), Invalidate(s.keys[keyId].prefix)); }
  }

  class KeyManager {
    var services: map<string, Service>
    var keys: map<string, KeyRow>
    /** The prefixes passed to the cache's Invalidate. */
    var invalidated: set<string>
    /** Insertion order, as `created_at` records it. */
    var created: nat
    ghost var generated: multiset<string>
    ghost var revocations: multiset<string>

    ghost function Snapshot(): State
      reads this
    {
      State(services, keys, map[], {}, {}, invalidated, created, generated, revocations)
    }

    /** What every method keeps; the callers of the service never see it broken. */
    ghost predicate Valid()
      reads this
    {
      Consistent(Snapshot())
    }

    /** The service is there, of the organisation, and not deleted. */
    ghost predicate InUse(orgId: string, serviceId: string)
      reads this
    {
      serviceId in services && services[serviceId] == Service(orgId, false)
    }

    ghost predicate HasKey(orgId: string, serviceId: string, keyId: string)
      reads this
    {
      keyId in keys && keys[keyId].serviceId == serviceId && keys[keyId].orgId == orgId
    }

    constructor ()
      ensures Snapshot() == Init && Valid()
    {
      services, keys, invalidated := map[], map[], {};
      created, generated, revocations := 0, multiset{}, multiset{};
      new;
      forall serviceId ensures Counted(Snapshot(), serviceId) { assert Active(Snapshot(), serviceId) == {}; }
    }

    method CreateService(orgId: string, serviceId: string)
      requires Valid() && serviceId !in services
      modifies this`services
      ensures Valid() && Snapshot() == Next(old(Snapshot()), Action.CreateService(serviceId, orgId))
    {
      NextConsistent(Snapshot(), Action.CreateService(serviceId, orgId));
      services := services[serviceId := Service(orgId, false)];
    }

    method DeleteService(orgId: string, serviceId: string) returns (ok: bool)
      requires Valid()
      modifies this`services
      ensures Valid()
      ensures ok <==> old(InUse(orgId, serviceId))
      ensures services == if ok then old(services)[serviceId := Service(orgId, true)] else old(services)
      ensures Snapshot() == if ok then Next(old(Snapshot()), Action.DeleteService(serviceId)) else old(Snapshot())
    {
      NextConsistent(Snapshot(), Action.DeleteService(serviceId));
      ok := serviceId in services && services[serviceId].orgId == orgId && !services[serviceId].deleted;
      if ok {
        services := services[serviceId := services[serviceId].(deleted := true)];
      }
    }

    method GenerateAPIKey(orgId: string, serviceId: string, id: string, prefix: string)
      returns (r: Result<string, Failure>)
      requires Valid() && id !in keys
      modifies this
      ensures (Snapshot(), r) == if ServiceActive(old(Snapshot()), orgId, serviceId)
                                 then Create(old(Snapshot()), orgId, serviceId, id, prefix)
                                 else (old(Snapshot()), Err(ServiceNotFound))
      ensures r == Err(ServiceNotFound) <==> !old(InUse(orgId, serviceId))
      ensures r.Ok? <==> old(InUse(orgId, serviceId)) && forall k :: k in old(keys) ==> old(keys)[k].prefix != prefix
      ensures r.Ok? ==> r.value == id && created == old(created) + 1 &&
                        keys == old(keys)[id := KeyRow(serviceId, orgId, prefix, false, None, old(created))]
      ensures r.Err? ==> r.error in {ServiceNotFound, DuplicatePrefix} && keys == old(keys)
      ensures services == old(services) && invalidated == old(invalidated)
      ensures Valid()
    {
      if !(serviceId in services && services[serviceId].orgId == orgId && !services[serviceId].deleted) {
        return Err(ServiceNotFound);
      }
      NextConsistent(Snapshot(), Generate(orgId, serviceId, id, prefix));
      if exists k :: k in keys && keys[k].prefix == prefix {
        return Err(DuplicatePrefix);
      }
      keys := keys[id := KeyRow(serviceId, orgId, prefix, false, None, created)];
      created, generated := created + 1, generated + multiset{serviceId};
      return Ok(id);
    }

    /** Completed, a revocation has also been passed on to the cache. */
    method RevokeAPIKey(orgId: string, serviceId: string, keyId: string) returns (r: Result<string, Failure>)
      requires Valid()
      modifies this
      ensures !ServiceActive(old(Snapshot()), orgId, serviceId) ==>
                r == Err(ServiceNotFound) && Snapshot() == old(Snapshot())
      ensures ServiceActive(old(Snapshot()), orgId, serviceId) ==>
                var (s, found) := Revoke(old(Snapshot()), orgId, serviceId, keyId);
                r == found && Snapshot() == if found.Ok? then Next(s, Invalidate(s.keys[keyId].prefix)) else s
      ensures r == Err(ServiceNotFound) <==> !old(InUse(orgId, serviceId))
      ensures r == Err(KeyNotFound) <==> old(InUse(orgId, serviceId) && !HasKey(orgId, serviceId, keyId))
      ensures r.Ok? <==> old(InUse(orgId, serviceId) && HasKey(orgId, serviceId, keyId) && !keys[keyId].revoked)
      ensures r.Ok? ==> keys == old(keys)[keyId := old(keys)[keyId].(revoked := true)] &&
                        invalidated == old(invalidated) + {old(keys)[keyId].prefix}
      ensures r.Err? ==> r.error in {ServiceNotFound, KeyNotFound, AlreadyRevoked} && Snapshot() == old(Snapshot())
      ensures services == old(services)
      ensures Valid()
    {
      if !(serviceId in services && services[serviceId].orgId == orgId && !services[serviceId].deleted) {
        return Err(ServiceNotFound);
      }
      if !(keyId in keys && keys[keyId].serviceId == serviceId && keys[keyId].orgId == orgId) {
        return Err(KeyNotFound);
      }
      if keys[keyId].revoked {
        return Err(AlreadyRevoked);
      }
      RevocationConsistent(Snapshot(), orgId, serviceId, keyId);
      RevocationEffect(Snapshot(), orgId, serviceId, keyId);
      keys := keys[keyId := keys[keyId].(revoked := true)];
      revocations := revocations + multiset{serviceId};
      invalidated := invalidated + {keys[keyId].prefix};
      return Ok(keyId);
    }

    /** Only the replaced key's prefix is passed on to the cache, and only after the transaction committed. */
    method RotateAPIKey(orgId: string, serviceId: string, keyId: string, id: string, prefix: string)
      returns (r: Result<string, Failure>)
      requires Valid() && id !in keys
      modifies this
      ensures var s0 := old(Snapshot());
              var check := Check(s0, orgId, serviceId, keyId);
              if check.Err? then r == check && Snapshot() == s0
              else
                var (s, done) := Rotate(s0, keyId, id, prefix);
                r == done && Snapshot() == if done.Ok? then Next(s, Invalidate(s0.keys[keyId].prefix)) else s
      ensures r == Err(ServiceNotFound) <==> !old(InUse(orgId, serviceId))
      ensures r == Err(KeyNotFound) <==> old(InUse(orgId, serviceId) && !HasKey(orgId, serviceId, keyId))
      ensures r == Err(AlreadyRevoked) <==>
              old(InUse(orgId, serviceId) && HasKey(orgId, serviceId, keyId) && keys[keyId].revoked)
      ensures r.Ok? <==> && old(InUse(orgId, serviceId) && HasKey(orgId, serviceId, keyId) && !keys[keyId].revoked)
                         && forall k :: k in old(keys) ==> old(keys)[k].prefix != prefix
      ensures r.Ok? ==> var row := old(keys)[keyId];
                        && keys == old(keys)[keyId := row.(revoked := true)]
                                            [id := KeyRow(serviceId, orgId, prefix, false, Some(keyId), old(created))]
                        && invalidated == old(invalidated) + {row.prefix}
      ensures r.Err? ==> Snapshot() == old(Snapshot())
      ensures services == old(services)
      ensures Valid()
    {
      if !(serviceId in services && services[serviceId].orgId == orgId && !services[serviceId].deleted) {
        return Err(ServiceNotFound);
      }
      if !(keyId in keys && keys[keyId].serviceId == serviceId && keys[keyId].orgId == orgId) {
        return Err(KeyNotFound);
      }
      var oldKey := keys[keyId];
      if oldKey.revoked {
        return Err(AlreadyRevoked);
      }
      RotationConsistent(Snapshot(), orgId, serviceId, keyId, id, prefix);
      if exists k :: k in keys && keys[k].prefix == prefix {
        return Err(DuplicatePrefix);
      }
      RotationEffect(Snapshot(), keyId, id, prefix);
      keys := keys[keyId := oldKey.(revoked := true)];
      keys := keys[id := KeyRow(oldKey.serviceId, oldKey.orgId, prefix, false, Some(keyId), created)];
      created := created + 1;
      invalidated := invalidated + {oldKey.prefix};
      return Ok(id);
    }

    /** What the service reports as active is what was generated and not revoked since; rotations do not show in it. */
    method CountActiveAPIKeys(serviceId: string) returns (count: nat)
      requires Valid()
      ensures generated[serviceId] == count + revocations[serviceId]
      ensures count == |Active(Snapshot(), serviceId)|
    {
      assert Counted(Snapshot(), serviceId);
      count := |set id | id in keys && keys[id].serviceId == serviceId && !keys[id].revoked|;
    }
  }
}
