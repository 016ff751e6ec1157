/**
 * The log pipeline: one Kafka partition, the consumer loop with its delayed commits, the `logs` table, and the
 * retention job running beside it (cmd/consumer/main.go, internal/telemetry). Assumed of the Kafka client:
 * each fetch advances the in-memory position, commits are buffered and flushed later, and a restart resumes
 * at the committed offset.
 */
module Pipeline {
  import opened Prelude

  datatype LogEntry = LogEntry(id: string, timestamp: int, body: string)

  /** A message value that is not valid JSON makes `Fetch` fail after the position has moved. */
  datatype Message = Undecodable | Decoded(entry: LogEntry)

  datatype Row = Row(entry: LogEntry, insertedAt: nat)

  /** What the consumer has in hand. */
  datatype Stage =
    | Idle
    | Fetched(offset: nat)
    | Inserted(offset: nat)
    | Committed(offset: nat)
    | Down

  /** Fate of an insert that does not violate the primary key; it may also be stored and yet reported as failed. */
  datatype InsertFate = Stored | Refused | StoredUnseen

  /** `maxGap`: if given, the clock never runs further than this past the cutoff time of the last retention run. */
  datatype Config = Config(retention: nat, maxGap: Option<nat>)

  /**
   * `lastRun` is the moment whose cutoff the last completed retention run applied, `cut` the moment taken by a
   * run that has not deleted yet. Histories: successful inserts, retention deletions and publications by ID,
   * and the offsets at which some delivery's insert failed although its ID was not in the table.
   */
  datatype State = State(
    now: nat,
    log: seq<Message>,
    position: nat, buffered: nat, committed: nat, stage: Stage,
    table: map<string, Row>,
    lastRun: nat, cut: Option<nat>,
    inserts: multiset<string>, deletions: multiset<string>, publishes: multiset<string>, failed: set<nat>)

  datatype Action =
    | Append(message: Message)
    | Fetch
    | Handle(fate: InsertFate, commitOk: bool)
    | Commit(ok: bool)
    | Publish(ok: bool)
    | Flush
    | Crash
    | Restart
    | RetentionCut
    | RetentionDelete(ok: bool)
    | Tick(dt: nat)

  predicate Malformed(m: Message) {
    m.Undecodable? || m.entry.id == ""
  }

  const Init := State(0, [], 0, 0, 0, Idle, map[], 0, None, multiset{}, multiset{}, multiset{}, {})

  /** `CommitMessages`: the buffer keeps the highest offset to resume from. */
  function Buffer(s: State, offset: nat, ok: bool): State {
    s.(buffered := if ok then Max(s.buffered, offset + 1) else s.buffered)
  }

  function Insert(s: State, entry: LogEntry): State {
    s.(table := s.table[entry.id := Row(entry, s.now)], inserts := s.inserts + multiset{entry.id})
  }

  /** The loop body after a fetch, up to and including the insert (main.go:50-70). */
  function HandleFetched(s: State, offset: nat, fate: InsertFate, commitOk: bool): State
    requires offset < |s.log|
  {
    var idle := s.(stage := Idle);
    match s.log[offset]
    case Undecodable => idle
    case Decoded(entry) =>
      if entry.id == "" then Buffer(idle, offset, commitOk)
      else if entry.id in s.table then idle
      else match fate
           case Stored => Insert(s.(stage := Inserted(offset)), entry)
           case Refused => idle.(failed := s.failed + {offset})
           case StoredUnseen => Insert(idle, entry)
  }

  /** The rows `DELETE FROM logs WHERE timestamp < cutoff` removes. */
  function Expired(table: map<string, Row>, cutoff: int): set<string> {
    set id | id in table && table[id].entry.timestamp < cutoff
  }

  function Next(c: Config, s: State, a: Action): State {
    match a
    case Append(m) => s.(log := s.log + [m])
    case Fetch =>
      if s.stage.Idle? && s.position < |s.log| then s.(position := s.position + 1, stage := Fetched(s.position)) else s
    case Handle(fate, commitOk) =>
      if s.stage.Fetched? && s.stage.offset < |s.log| then HandleFetched(s, s.stage.offset, fate, commitOk) else s
    case Commit(ok) =>
      if s.stage.Inserted? then Buffer(s, s.stage.offset, ok).(stage := Committed(s.stage.offset)) else s
    case Publish(ok) =>
      if s.stage.Committed? && s.stage.offset < |s.log| && s.log[s.stage.offset].Decoded? then
        s.(stage := Idle,
           publishes := if ok then s.publishes + multiset{s.log[s.stage.offset].entry.id} else s.publishes)
      else s
    case Flush => if s.stage.Down? then s else s.(committed := Max(s.committed, s.buffered))
    case Crash => s.(position := s.committed, buffered := s.committed, stage := Down, cut := None)
    case Restart => if s.stage.Down? then s.(stage := Idle) else s
    case RetentionCut => if s.stage.Down? || s.cut.Some? then s else s.(cut := Some(s.now))
    case RetentionDelete(ok) =>
      if s.cut.None? then s
      else if !ok then s.(cut := None)
      else
        var gone := Expired(s.table, s.cut.value - c.retention);
        s.(table := s.table - gone, deletions := s.deletions + multiset(gone), lastRun := s.cut.value, cut := None)
    case Tick(dt) =>
      if c.maxGap.Some? && s.now + dt > s.lastRun + c.maxGap.value then s else s.(now := s.now + dt)
  }

  function Do(c: Config, s: State, actions: seq<Action>): State {
    if actions == [] then s
    else Next(c, Do(c, s, actions[..|actions| - 1]), actions[|actions| - 1])
  }

  function Run(c: Config, run: seq<Action>): State {
    Do(c, Init, run)
  }

  /** The ID whose delivery has been stored but not yet been offered to the subscribers. */
  function InHand(s: State): Option<string> {
    if (s.stage.Inserted? || s.stage.Committed?) && s.stage.offset < |s.log| && s.log[s.stage.offset].Decoded?
    then Some(s.log[s.stage.offset].entry.id) else None
  }

  ghost predicate Covered(s: State, offset: nat)
    requires offset < |s.log|
  {
    Malformed(s.log[offset]) || s.log[offset].entry.id in s.inserts || offset in s.failed
  }

  /** Offsets are ordered, and everything behind the position except the message in hand is accounted for. */
  ghost predicate OffsetsOk(s: State) {
    && s.committed <= s.buffered <= s.position <= |s.log|
    && (s.stage.Fetched? ==> s.stage.offset == s.position - 1 && s.buffered <= s.stage.offset)
    && (s.stage.Inserted? || s.stage.Committed? ==>
          s.stage.offset < s.position && !Malformed(s.log[s.stage.offset]))
    && (forall o :: 0 <= o < (if s.stage.Fetched? then s.stage.offset else s.position) ==> Covered(s, o))
  }

  /** Inserts are the rows present plus the rows deleted; publications and the row in hand are among the inserts. */
  ghost predicate CountOk(s: State, id: string) {
    && s.inserts[id] == (if id in s.table then 1 else 0) + s.deletions[id]
    && s.publishes[id] + (if InHand(s) == Some(id) then 1 else 0) <= s.inserts[id]
  }

  /** Every row was appended to the log, was inserted already, and has survived the last retention run. */
  ghost predicate RowOk(c: Config, s: State, id: string)
    requires id in s.table
  {
    var row := s.table[id];
    && row.entry.id == id
    && Decoded(row.entry) in s.log
    && row.insertedAt <= s.now
    && (s.lastRun <= row.insertedAt || s.lastRun <= row.entry.timestamp + c.retention)
  }

  ghost predicate ClockOk(c: Config, s: State) {
    && s.lastRun <= s.now
    && (s.cut.Some? ==> s.lastRun <= s.cut.value <= s.now)
    && (c.maxGap.Some? ==> s.now <= s.lastRun + c.maxGap.value)
  }

  ghost predicate Inv(c: Config, s: State) {
    && OffsetsOk(s) && ClockOk(c, s)
    && (forall id :: CountOk(s, id))
    && (forall id :: id in s.table ==> RowOk(c, s, id))
  }

  /** The message in hand is accounted for once it has been handled. */
  lemma HandleCovers(s: State, fate: InsertFate, commitOk: bool)
    requires OffsetsOk(s) && s.stage.Fetched? && forall id :: CountOk(s, id)
    ensures OffsetsOk(HandleFetched(s, s.stage.offset, fate, commitOk))
  {
    var offset, s' := s.stage.offset, HandleFetched(s, s.stage.offset, fate, commitOk);
    if s.log[offset].Decoded? { assert CountOk(s, s.log[offset].entry.id); }
    assert Covered(s', offset);
    forall o | 0 <= o < s'.position
      ensures Covered(s', o)
    {
      if o != offset { assert Covered(s, o); }
    }
  }

  lemma NextKeepsOffsets(c: Config, s: State, a: Action)
    requires OffsetsOk(s) && forall id :: CountOk(s, id)
    ensures OffsetsOk(Next(c, s, a))
  {
    var s' := Next(c, s, a);
    if a.Handle? && s.stage.Fetched? {
      HandleCovers(s, a.fate, a.commitOk);
    } else {
      forall o | 0 <= o < (if s'.stage.Fetched? then s'.stage.offset else s'.position)
        ensures Covered(s', o)
      {
        assert Covered(s, o);
      }
    }
  }

  lemma HandleCounts(s: State, fate: InsertFate, commitOk: bool, id: string)
    requires OffsetsOk(s) && s.stage.Fetched? && CountOk(s, id)
    ensures CountOk(HandleFetched(s, s.stage.offset, fate, commitOk), id)
  {
  }

  lemma RetentionCounts(c: Config, s: State, ok: bool, id: string)
    requires CountOk(s, id)
    ensures CountOk(Next(c, s, RetentionDelete(ok)), id)
  {
    assert InHand(Next(c, s, RetentionDelete(ok))) == InHand(s);
  }

  lemma PublishCounts(c: Config, s: State, ok: bool, id: string)
    requires CountOk(s, id)
    ensures CountOk(Next(c, s, Publish(ok)), id)
  {
  }

  lemma NextKeepsCounts(c: Config, s: State, a: Action, id: string)
    requires OffsetsOk(s) && CountOk(s, id)
    ensures CountOk(Next(c, s, a), id)
  {
    if a.Handle? && s.stage.Fetched? {
      HandleCounts(s, a.fate, a.commitOk, id);
    } else if a.RetentionDelete? {
      RetentionCounts(c, s, a.ok, id);
    } else if a.Publish? {
      PublishCounts(c, s, a.ok, id);
    } else {
      assert InHand(Next(c, s, a)) in {InHand(s), None};
    }
  }

  /** A row that was there before stays right for as long as it is there. */
  lemma NextKeepsRow(c: Config, s: State, a: Action, id: string)
    requires ClockOk(c, s) && id in s.table && RowOk(c, s, id) && id in Next(c, s, a).table
    ensures RowOk(c, Next(c, s, a), id)
  {
  }

  lemma NextKeepsRows(c: Config, s: State, a: Action)
    requires OffsetsOk(s) && ClockOk(c, s) && forall id :: id in s.table ==> RowOk(c, s, id)
    ensures forall id :: id in Next(c, s, a).table ==> RowOk(c, Next(c, s, a), id)
  {
    var s' := Next(c, s, a);
    forall id | id in s'.table
      ensures RowOk(c, s', id)
    {
      if id in s.table {
        NextKeepsRow(c, s, a, id);
      } else {
        assert a.Handle? && Decoded(s'.table[id].entry) == s.log[s.stage.offset];
      }
    }
  }

  lemma NextKeepsClock(c: Config, s: State, a: Action)
    requires ClockOk(c, s)
    ensures ClockOk(c, Next(c, s, a))
  {
  }

  lemma NextKeeps(c: Config, s: State, a: Action)
    requires Inv(c, s)
    ensures Inv(c, Next(c, s, a))
  {
    NextKeepsOffsets(c, s, a);
    NextKeepsClock(c, s, a);
    NextKeepsRows(c, s, a);
    forall id
      ensures CountOk(Next(c, s, a), id)
    {
      NextKeepsCounts(c, s, a, id);
    }
  }

  lemma {:induction false} RunAccounts(c: Config, run: seq<Action>)
    ensures Inv(c, Run(c, run))
  {
    if run != [] {
      RunAccounts(c, run[..|run| - 1]);
      NextKeeps(c, Run(c, run[..|run| - 1]), run[|run| - 1]);
    }
  }

  /**
   * Exact accounting: in every run with crashes, redelivery and retention, each offset below the committed one
   * holds a malformed message, or one whose ID was stored, or one whose insert failed on delivery without the
   * ID being a duplicate.
   */
  lemma CommittedAccounted(c: Config, run: seq<Action>, offset: nat)
    requires offset < Run(c, run).committed
    ensures var s := Run(c, run);
            && offset < |s.log|
            && (Malformed(s.log[offset]) || s.log[offset].entry.id in s.inserts || offset in s.failed)
  {
    RunAccounts(c, run);
    assert Covered(Run(c, run), offset);
  }

  /** No insert fails for another reason than a duplicate. */
  ghost predicate NoRefusals(run: seq<Action>) {
    forall k :: 0 <= k < |run| && run[k].Handle? ==> !run[k].fate.Refused?
  }

  lemma {:induction false} NothingFailed(c: Config, run: seq<Action>)
    requires NoRefusals(run)
    ensures Run(c, run).failed == {}
  {
    if run != [] { NothingFailed(c, run[..|run| - 1]); }
  }

  /** Every well-formed log behind the committed offset is in the table or was deleted by retention. */
  ghost predicate NothingLost(s: State) {
    && s.committed <= |s.log|
    && forall o :: 0 <= o < s.committed && !Malformed(s.log[o]) ==>
         s.log[o].entry.id in s.table || s.log[o].entry.id in s.deletions
  }

  /** If inserts fail only on duplicates, no well-formed committed log is lost. */
  lemma NoCommittedLogLost(c: Config, run: seq<Action>)
    requires Run(c, run).failed == {}
    ensures NothingLost(Run(c, run))
  {
    RunAccounts(c, run);
    var s := Run(c, run);
    forall o | 0 <= o < s.committed && !Malformed(s.log[o])
      ensures s.log[o].entry.id in s.table || s.log[o].entry.id in s.deletions
    {
      CommittedAccounted(c, run, o);
      assert CountOk(s, s.log[o].entry.id);
    }
  }

  /**
   * Counting: successful inserts of an ID are its row, if present, plus the rows retention deleted, and there
   * are at least as many inserts as publications. So without retention a log is published at most once, and
   * only after it was stored.
   */
  lemma InsertsBalance(c: Config, run: seq<Action>, id: string)
    ensures var s := Run(c, run);
            && s.inserts[id] == (if id in s.table then 1 else 0) + s.deletions[id]
            && s.publishes[id] <= s.inserts[id]
            && (s.deletions[id] == 0 ==> s.publishes[id] <= 1)
            && (s.deletions[id] == 0 && s.publishes[id] > 0 ==> id in s.table)
  {
    RunAccounts(c, run);
    assert CountOk(Run(c, run), id);
  }

  /** Nothing is invented: every row holds, under its own ID, an entry that was appended to the log. */
  lemma RowsComeFromLog(c: Config, run: seq<Action>, id: string)
    requires id in Run(c, run).table
    ensures var s := Run(c, run);
            s.table[id].entry.id == id && Decoded(s.table[id].entry) in s.log
  {
    RunAccounts(c, run);
    assert RowOk(c, Run(c, run), id);
  }

  /**
   * What the resume point may move for, in every run: the reader buffers offset o + 1 only while o is in hand, when its
   * message is decodable with an empty ID, or when this delivery has stored it; and only a flush commits, and only what
   * was buffered.
   */
  lemma ResumePointMoves(c: Config, run: seq<Action>, a: Action)
    ensures var s, s' := Run(c, run), Run(c, run + [a]);
            && (s'.buffered > s.buffered ==>
                  && (s.stage.Fetched? || s.stage.Inserted?) && s.stage.offset < |s.log|
                  && s'.buffered == s.stage.offset + 1 && s.log[s.stage.offset].Decoded?
                  && (if s.log[s.stage.offset].entry.id == "" then a.Handle? && s.stage.Fetched?
                      else a.Commit? && s.stage.Inserted?))
            && (s'.committed != s.committed ==> a.Flush? && s'.committed == s.buffered)
            && (s'.publishes != s.publishes ==>
                  a.Publish? && s.stage.Committed? && InHand(s).Some?
                  && s'.publishes == s.publishes + multiset{InHand(s).value})
  {
    assert (run + [a])[..|run + [a]| - 1] == run;
    RunAccounts(c, run);
  }

  /**
   * A delivery is stored and seen to be, so that it may be committed and published, exactly if its ID is new and its
   * insert succeeds; no other action leads there.
   */
  lemma StoredByDelivery(c: Config, run: seq<Action>, a: Action)
    ensures var s, s' := Run(c, run), Run(c, run + [a]);
            s'.stage.Inserted? && s'.stage != s.stage <==>
            && a.Handle? && a.fate.Stored? && s.stage.Fetched?
            && s.stage.offset < |s.log| && !Malformed(s.log[s.stage.offset])
            && s.log[s.stage.offset].entry.id !in s.table
    ensures var s, s' := Run(c, run), Run(c, run + [a]);
            s'.stage.Inserted? && s'.stage != s.stage ==>
              && s.stage.offset < |s.log| && s'.stage.offset == s.stage.offset
              && s'.table == s.table[s.log[s.stage.offset].entry.id := Row(s.log[s.stage.offset].entry, s.now)]
    ensures var s, s' := Run(c, run), Run(c, run + [a]);
            s'.stage.Committed? && s'.stage != s.stage ==>
              a.Commit? && s.stage.Inserted? && s'.stage.offset == s.stage.offset
  {
    assert (run + [a])[..|run + [a]| - 1] == run;
    RunAccounts(c, run);
  }

  /**
   * A delivery whose insert fails, for a duplicate ID or any other reason, leaves the resume point and the publications
   * alone, and so does one that cannot be decoded; the consumer goes on to the next message.
   */
  lemma FailedDeliveryMovesNothing(c: Config, run: seq<Action>, fate: InsertFate, commitOk: bool)
    requires var s := Run(c, run);
             && s.stage.Fetched? && s.stage.offset < |s.log|
             && (s.log[s.stage.offset].Undecodable?
                 || (s.log[s.stage.offset].entry.id != ""
                     && (s.log[s.stage.offset].entry.id in s.table || !fate.Stored?)))
    ensures var s, s' := Run(c, run), Run(c, run + [Handle(fate, commitOk)]);
            && s'.buffered == s.buffered && s'.committed == s.committed && s'.publishes == s.publishes
            && s'.position == s.position && s'.stage.Idle?
            && (s'.table == s.table <==> !(fate.StoredUnseen? && s.log[s.stage.offset].Decoded?
                                           && s.log[s.stage.offset].entry.id !in s.table))
  {
    assert (run + [Handle(fate, commitOk)])[..|run|] == run;
    RunAccounts(c, run);
  }

  /** A message without an ID is committed at once, if the commit succeeds, and never stored. */
  lemma BlankDeliveryIsCommitted(c: Config, run: seq<Action>, fate: InsertFate, commitOk: bool)
    requires var s := Run(c, run);
             && s.stage.Fetched? && s.stage.offset < |s.log|
             && s.log[s.stage.offset].Decoded? && s.log[s.stage.offset].entry.id == ""
    ensures var s, s' := Run(c, run), Run(c, run + [Handle(fate, commitOk)]);
            && s'.buffered == (if commitOk then s.stage.offset + 1 else s.buffered) && s'.stage.Idle?
            && s'.table == s.table && s'.publishes == s.publishes && s'.position == s.position
  {
    assert (run + [Handle(fate, commitOk)])[..|run|] == run;
    RunAccounts(c, run);
  }

  /**
   * A retention run deletes exactly the rows that are older than its cutoff, which was computed when the run began,
   * and counts each; a failed one deletes nothing. Either way the consumer is left alone.
   */
  lemma RetentionDeletesExpired(c: Config, run: seq<Action>, ok: bool)
    requires Run(c, run).cut.Some?
    ensures var s, s' := Run(c, run), Run(c, run + [RetentionDelete(ok)]);
            && s.lastRun <= s.cut.value <= s.now
            && (forall id :: id in s'.table <==>
                  id in s.table && (ok ==> s.table[id].entry.timestamp >= s.cut.value - c.retention))
            && (forall id :: id in s'.table ==> s'.table[id] == s.table[id])
            && (forall id :: s'.deletions[id] == s.deletions[id] + if id in s.table && id !in s'.table then 1 else 0)
            && s' == s.(table := s'.table, deletions := s'.deletions, cut := None,
                        lastRun := if ok then s.cut.value else s.lastRun)
  {
    assert (run + [RetentionDelete(ok)])[..|run|] == run;
    RunAccounts(c, run);
  }

  /** Dwell bound: how long a row can stay when the clock never runs more than `gap` past a completed retention run. */
  lemma DwellBound(c: Config, run: seq<Action>, gap: nat, id: string)
    requires c.maxGap == Some(gap) && id in Run(c, run).table
    ensures var s := Run(c, run);
            s.now <= Max(s.table[id].insertedAt, s.table[id].entry.timestamp + c.retention) + gap
  {
    RunAccounts(c, run);
    assert RowOk(c, Run(c, run), id);
  }
}

/** Runs showing that each hypothesis of the pipeline results is needed and each bound attained. */
module PipelineWitness {
  import opened Prelude
  import opened Pipeline

  lemma Extend(c: Config, run: seq<Action>, a: Action) returns (run': seq<Action>)
    ensures run' == run + [a] && Run(c, run') == Next(c, Run(c, run), a)
  {
    run' := run + [a];
    assert run'[..|run'| - 1] == run;
  }

  /** An entry that arrives, is stored and whose delivery commits, from a state with nothing in hand. */
  lemma Deliver(c: Config, run: seq<Action>, fate: InsertFate, publish: bool) returns (run': seq<Action>)
    requires var s := Run(c, run);
             && s.stage.Idle? && s.position < |s.log| && !Malformed(s.log[s.position])
             && s.log[s.position].entry.id !in s.table && fate != StoredUnseen
    ensures var s := Run(c, run);
            var entry := s.log[s.position].entry;
            var s' := s.(position := s.position + 1);
            Run(c, run') == if fate.Refused? then s'.(failed := s.failed + {s.position})
                            else Insert(s', entry).(buffered := Max(s.buffered, s.position + 1),
                                                    publishes := s.publishes +
                                                                 if publish then multiset{entry.id} else multiset{})
  {
    run' := Extend(c, run, Fetch);
    run' := Extend(c, run', Handle(fate, true));
    if fate.Stored? {
      run' := Extend(c, run', Commit(true));
      run' := Extend(c, run', Publish(publish));
    }
  }

  /**
   * An insert error does not bring the message back: the position has moved on, the next message's commit
   * covers it, and the log is lost. So CommittedAccounted cannot drop its third case.
   */
  lemma RefusedLogIsLost(c: Config) returns (run: seq<Action>)
    ensures var s := Run(c, run);
            && s.committed == 2 == |s.log| && s.stage.Idle? && !Malformed(s.log[0])
            && s.log[0].entry.id !in s.inserts && s.failed == {0}
  {
    run := Extend(c, [], Append(Decoded(LogEntry("a", 0, ""))));
    run := Extend(c, run, Append(Decoded(LogEntry("b", 0, ""))));
    run := Deliver(c, run, Refused, true);
    run := Deliver(c, run, Stored, true);
    run := Extend(c, run, Flush);
  }

  /** Exactly when no committed log is lost, over all runs with crashes and retention: if no insert is refused. */
  lemma NothingLostIff(c: Config, refusals: bool)
    ensures (forall run | refusals || NoRefusals(run) :: NothingLost(Run(c, run))) <==> !refusals
  {
    if refusals {
      var run := RefusedLogIsLost(c);
      var s := Run(c, run);
      RunAccounts(c, run);
      assert CountOk(s, s.log[0].entry.id);
      assert !NothingLost(s);
    } else {
      forall run | NoRefusals(run)
        ensures NothingLost(Run(c, run))
      {
        NothingFailed(c, run);
        NoCommittedLogLost(c, run);
      }
    }
  }

  lemma {:induction false} RunThen(c: Config, run: seq<Action>, rest: seq<Action>)
    ensures Do(c, Run(c, run), rest) == Run(c, run + rest)
  {
    if rest == [] {
      assert run + rest == run;
    } else {
      RunThen(c, run, rest[..|rest| - 1]);
      assert (run + rest)[..|run + rest| - 1] == run + rest[..|rest| - 1];
    }
  }

  /** The committed offset never goes back. */
  lemma {:induction false} CommitStays(c: Config, s: State, rest: seq<Action>)
    ensures s.committed <= Do(c, s, rest).committed
  {
    if rest != [] { CommitStays(c, s, rest[..|rest| - 1]); }
  }

  /** A delivery that ends without a commit leaves the consumer ready for the next message. */
  lemma Skips(c: Config, run: seq<Action>) returns (run': seq<Action>)
    requires var s := Run(c, run); s.stage.Idle? && s.position < |s.log|
    ensures run' == run + [Fetch, Handle(StoredUnseen, false)]
    ensures var s, s' := Run(c, run), Run(c, run');
            s'.stage.Idle? && s'.position == s.position + 1 && s'.log == s.log
  {
    run' := Extend(c, run, Fetch);
    run' := Extend(c, run', Handle(StoredUnseen, false));
    assert run' == run + [Fetch, Handle(StoredUnseen, false)];
  }

  /** A consumer with nothing in hand reaches any message ahead of it. */
  lemma {:induction false} Reaches(c: Config, run: seq<Action>, offset: nat) returns (rest: seq<Action>)
    requires var s := Run(c, run); s.stage.Idle? && s.position <= offset < |s.log|
    ensures Run(c, run + rest).stage == Fetched(offset)
    decreases offset - Run(c, run).position
  {
    if Run(c, run).position == offset {
      var run' := Extend(c, run, Fetch);
      rest := [Fetch];
    } else {
      var next := Skips(c, run);
      var more := Reaches(c, next, offset);
      rest := [Fetch, Handle(StoredUnseen, false)] + more;
      assert run + rest == next + more;
    }
  }

  /**
   * Exactly when a message that was delivered, say one whose insert was refused, can be delivered again: as long as no
   * flushed commit has passed it, a crash and a restart bring it back; after that no run does.
   */
  lemma RedeliveredIff(c: Config, run: seq<Action>, offset: nat)
    requires offset < |Run(c, run).log|
    ensures (exists rest :: Do(c, Run(c, run), rest).stage == Fetched(offset)) <==> Run(c, run).committed <= offset
  {
    var s := Run(c, run);
    if s.committed <= offset {
      var down := Extend(c, run, Crash);
      var up := Extend(c, down, Restart);
      var more := Reaches(c, up, offset);
      var rest := [Crash, Restart] + more;
      assert run + rest == up + more;
      RunThen(c, run, rest);
      assert Do(c, s, rest).stage == Fetched(offset);
    } else {
      forall rest
        ensures Do(c, s, rest).stage != Fetched(offset)
      {
        RunThen(c, run, rest);
        RunAccounts(c, run + rest);
        CommitStays(c, s, rest);
      }
    }
  }

  /** With retention a redelivered log is stored and published again, so the count of one needs its hypothesis. */
  lemma RetentionRepublishes(c: Config) returns (run: seq<Action>)
    ensures Run(c, run).publishes["a"] == 2 && Run(c, run).deletions["a"] == 1
  {
    run := Extend(c, [], Append(Decoded(LogEntry("a", -1 - c.retention, ""))));
    run := Deliver(c, run, Stored, true);
    run := Extend(c, run, RetentionCut);
    run := Extend(c, run, RetentionDelete(true));
    run := Extend(c, run, Crash);
    run := Extend(c, run, Restart);
    run := Deliver(c, run, Stored, true);
  }

  /** The dwell bound is attained by an entry that arrives already expired, right after a retention run. */
  lemma DwellAttainedOnArrival(c: Config, gap: nat) returns (run: seq<Action>)
    requires c.maxGap == Some(gap)
    ensures var s := Run(c, run);
            && "a" in s.table && s.table["a"].entry.timestamp + c.retention < 0
            && s.now == Max(s.table["a"].insertedAt, s.table["a"].entry.timestamp + c.retention) + gap
  {
    run := Extend(c, [], Append(Decoded(LogEntry("a", -1 - c.retention, ""))));
    run := Deliver(c, run, Stored, true);
    run := Extend(c, run, Tick(gap));
  }

  /** The clock can be brought to any time with retention running every `gap`, keeping a row not yet past its cutoff. */
  lemma {:induction false} Wait(c: Config, gap: nat, run: seq<Action>, until: nat) returns (run': seq<Action>)
    requires c.maxGap == Some(gap) && gap > 0
    requires var s := Run(c, run);
             && s.stage.Idle? && s.cut.None? && s.lastRun == s.now <= until
             && (forall id :: id in s.table ==> until <= s.table[id].entry.timestamp + c.retention)
    ensures var s, s' := Run(c, run), Run(c, run');
            s'.now == s'.lastRun == until && s'.table == s.table && s'.stage.Idle? && s'.cut.None?
    decreases until - Run(c, run).now
  {
    var s := Run(c, run);
    if s.now == until {
      run' := run;
    } else {
      var now' := Min(s.now + gap, until);
      run' := Extend(c, run, Tick(now' - s.now));
      run' := Extend(c, run', RetentionCut);
      assert Expired(s.table, now' - c.retention) == {};
      run' := Extend(c, run', RetentionDelete(true));
      assert Run(c, run').table == s.table;
      run' := Wait(c, gap, run', until);
    }
  }

  /** And by an ordinary entry: at the instant its age equals the retention the cutoff is not yet past it. */
  lemma DwellAttainedAtCutoff(c: Config, gap: nat) returns (run: seq<Action>)
    requires c.maxGap == Some(gap) && gap > 0
    ensures var s := Run(c, run);
            && "a" in s.table && s.lastRun == s.table["a"].entry.timestamp + c.retention
            && s.now == Max(s.table["a"].insertedAt, s.table["a"].entry.timestamp + c.retention) + gap
  {
    run := Extend(c, [], Append(Decoded(LogEntry("a", 0, ""))));
    run := Deliver(c, run, Stored, true);
    run := Wait(c, gap, run, c.retention);
    run := Extend(c, run, Tick(gap));
  }
}

/**
 * The consumer process as the source writes it: an object that advances the reader position, inserts rows,
 * buffers commits and publishes. One turn of its loop is proved to be the steps of the state machine in order.
 */
module PipelineConsumer {
  import opened Prelude
  import opened Pipeline

  /** What the environment decides in one turn of the loop. */
  datatype Turn = Turn(fate: InsertFate, commitOk: bool, publishOk: bool)

  /** What one turn does to a consumer with nothing in hand. */
  function OneTurn(s: State, t: Turn): State {
    if s.position >= |s.log| then s
    else
      var offset, s' := s.position, s.(position := s.position + 1);
      match s.log[offset]
      case Undecodable => s'
      case Decoded(entry) =>
        if entry.id == "" then Buffer(s', offset, t.commitOk)
        else if entry.id in s.table then s'
        else match t.fate
             case Refused => s'.(failed := s.failed + {offset})
             case StoredUnseen => Insert(s', entry)
             case Stored =>
               Buffer(Insert(s', entry), offset, t.commitOk).(
                 publishes := if t.publishOk then s.publishes + multiset{entry.id} else s.publishes)
  }

  /** The next message is well-formed, its ID is new, and its insert is not refused. */
  predicate Stores(s: State, t: Turn) {
    && s.position < |s.log| && !Malformed(s.log[s.position])
    && s.log[s.position].entry.id !in s.table && !t.fate.Refused?
  }

  /**
   * What a turn must have done by its end: gone on to the next message, stored a new entry unless refused, and moved
   * the resume point and published for nothing but an entry it stored and saw stored, or moved it past a blank message.
   */
  ghost predicate TurnMeans(s: State, s': State, t: Turn) {
    && s'.position == (if s.position < |s.log| then s.position + 1 else s.position)
    && s'.log == s.log && s'.committed == s.committed && s'.now == s.now && s'.deletions == s.deletions
    && s'.table == (if Stores(s, t) then s.table[s.log[s.position].entry.id := Row(s.log[s.position].entry, s.now)]
                    else s.table)
    && (if Stores(s, t) && t.fate.Stored? then
          && s'.buffered == (if t.commitOk then Max(s.buffered, s.position + 1) else s.buffered)
          && s'.publishes == s.publishes + if t.publishOk then multiset{s.log[s.position].entry.id} else multiset{}
        else
          && s'.publishes == s.publishes
          && s'.buffered == if t.commitOk && s.position < |s.log| && s.log[s.position].Decoded?
                               && s.log[s.position].entry.id == ""
                            then Max(s.buffered, s.position + 1) else s.buffered)
  }

  lemma TurnDone(s: State, t: Turn)
    ensures TurnMeans(s, OneTurn(s, t), t)
  {
  }

  /** It is the steps fetch, handle, commit, publish in order; those that do not apply leave the state alone. */
  lemma OneTurnIsSteps(c: Config, s: State, t: Turn)
    requires s.stage.Idle?
    ensures OneTurn(s, t) ==
            Next(c, Next(c, Next(c, Next(c, s, Fetch), Handle(t.fate, t.commitOk)),
                         Commit(t.commitOk)), Publish(t.publishOk))
    ensures OneTurn(s, t).stage.Idle?
  {
    if s.position >= |s.log| {
      IdleSkips(c, s, t);
    } else {
      var s1 := Next(c, s, Fetch);
      var s2 := Next(c, s1, Handle(t.fate, t.commitOk));
      assert s2 == HandleFetched(s1, s.position, t.fate, t.commitOk);
      if s2.stage.Idle? {
        IdleSkips(c, s2, t);
      } else {
        StoredTurn(c, s2, t);
      }
    }
  }

  lemma IdleSkips(c: Config, s: State, t: Turn)
    requires s.stage.Idle?
    ensures Next(c, s, Handle(t.fate, t.commitOk)) == s
    ensures Next(c, s, Commit(t.commitOk)) == Next(c, s, Publish(t.publishOk)) == s
  {
  }

  lemma StoredTurn(c: Config, s: State, t: Turn)
    requires s.stage.Inserted? && s.stage.offset < |s.log| && s.log[s.stage.offset].Decoded?
    ensures Next(c, Next(c, s, Commit(t.commitOk)), Publish(t.publishOk)) ==
            Buffer(s, s.stage.offset, t.commitOk).(
              stage := Idle,
              publishes := if t.publishOk then s.publishes + multiset{s.log[s.stage.offset].entry.id} else s.publishes)
  {
  }

  function Turns(s: State, turns: seq<Turn>): State {
    if turns == [] then s
    else OneTurn(Turns(s, turns[..|turns| - 1]), turns[|turns| - 1])
  }

  /** The turns of the loop form a run of the state machine, so every pipeline result covers them. */
  lemma {:induction false} TurnsAreRun(c: Config, s: State, turns: seq<Turn>) returns (actions: seq<Action>)
    requires s.stage.Idle?
    ensures Do(c, s, actions) == Turns(s, turns) && Turns(s, turns).stage.Idle?
  {
    if turns == [] {
      actions := [];
    } else {
      var t := turns[|turns| - 1];
      actions := TurnsAreRun(c, s, turns[..|turns| - 1]);
      OneTurnIsSteps(c, Turns(s, turns[..|turns| - 1]), t);
      actions := Then(c, s, actions, Fetch);
      actions := Then(c, s, actions, Handle(t.fate, t.commitOk));
      actions := Then(c, s, actions, Commit(t.commitOk));
      actions := Then(c, s, actions, Publish(t.publishOk));
    }
  }

  lemma Then(c: Config, s: State, actions: seq<Action>, a: Action) returns (actions': seq<Action>)
    ensures Do(c, s, actions') == Next(c, Do(c, s, actions), a)
  {
    actions' := actions + [a];
    assert actions'[..|actions|] == actions;
  }

  /** A completed retention run with nothing in between. */
  function Retained(c: Config, s: State): State {
    var gone := Expired(s.table, s.now - c.retention);
    s.(table := s.table - gone, deletions := s.deletions + multiset(gone), lastRun := s.now)
  }

  lemma RetainedIsSteps(c: Config, s: State, ok: bool)
    requires s.stage.Idle? && s.cut.None?
    ensures Next(c, Next(c, s, RetentionCut), RetentionDelete(ok)) == if ok then Retained(c, s) else s
  {
  }

  /** The reported row count is what the table lost. */
  lemma RetainedSize(c: Config, s: State)
    ensures |Retained(c, s).table| == |s.table| - |Expired(s.table, s.now - c.retention)|
  {
    var gone := Expired(s.table, s.now - c.retention);
    assert (s.table - gone).Keys == s.table.Keys - gone && gone <= s.table.Keys;
  }

  class LogConsumer {
    const config: Config
    var now: nat
    /** The partition and the offset the broker would resume the group from. */
    var log: seq<Message>
    var committed: nat
    /** The reader: position and commits not yet flushed. */
    var position: nat
    var buffered: nat
    /** The `logs` table by primary key. */
    var table: map<string, Row>
    /** When the last completed retention run took its cutoff. */
    var lastRun: nat
    ghost var inserts: multiset<string>
    ghost var deletions: multiset<string>
    ghost var publishes: multiset<string>
    ghost var failed: set<nat>

    ghost function Snapshot(): State
      reads this
    {
      State(now, log, position, buffered, committed, Idle, table, lastRun, None, inserts, deletions, publishes, failed)
    }

    constructor (config: Config)
      ensures this.config == config && Snapshot() == Init
    {
      this.config, now, log, committed, position, buffered, table, lastRun := config, 0, [], 0, 0, 0, map[], 0;
      inserts, deletions, publishes, failed := multiset{}, multiset{}, multiset{}, {};
    }

    method CommitMessage(offset: nat, ok: bool)
      modifies this`buffered
      ensures Snapshot() == Buffer(old(Snapshot()), offset, ok)
      ensures buffered == if ok then Max(old(buffered), offset + 1) else old(buffered)
    {
      if ok && offset + 1 > buffered {
        buffered := offset + 1;
      }
    }

    /** Fails on a duplicate ID whatever the fate, and reports failure for a row it could not see stored. */
    method InsertLog(entry: LogEntry, offset: nat, fate: InsertFate) returns (ok: bool)
      modifies this`table, this`inserts, this`failed
      ensures ok <==> entry.id !in old(table) && fate.Stored?
      ensures Snapshot() == if entry.id in old(table) then old(Snapshot())
                            else if fate.Refused? then old(Snapshot()).(failed := old(failed) + {offset})
                            else Insert(old(Snapshot()), entry)
      ensures table == if entry.id in old(table) || fate.Refused? then old(table)
                       else old(table)[entry.id := Row(entry, now)]
    {
      if entry.id in table {
        return false;
      }
      if fate.Refused? {
        failed := failed + {offset};
        return false;
      }
      table := table[entry.id := Row(entry, now)];
      inserts := inserts + multiset{entry.id};
      return fate.Stored?;
    }

    /** One turn of the loop in `main`. */
    method Iterate(t: Turn)
      modifies this
      ensures Snapshot() == OneTurn(old(Snapshot()), t)
      ensures TurnMeans(old(Snapshot()), Snapshot(), t)
    {
      TurnDone(Snapshot(), t);
      if position >= |log| {
        return;
      }
      var offset := position;
      position := position + 1;
      assert Snapshot() == old(Snapshot()).(position := offset + 1);
      if log[offset].Undecodable? {
        return;
      }
      var entry := log[offset].entry;
      if entry.id == "" {
        CommitMessage(offset, t.commitOk);
        return;
      }
      var ok := InsertLog(entry, offset, t.fate);
      if !ok {
        return;
      }
      CommitMessage(offset, t.commitOk);
      if t.publishOk {
        publishes := publishes + multiset{entry.id};
      }
    }

    /** The loop itself, for as many turns as the process lives. */
    method Consume(turns: seq<Turn>)
      modifies this
      ensures Snapshot() == Turns(old(Snapshot()), turns)
    {
      var i := 0;
      while i < |turns|
        invariant 0 <= i <= |turns|
        invariant Snapshot() == Turns(old(Snapshot()), turns[..i])
      {
        Iterate(turns[i]);
        assert turns[..i + 1][..i] == turns[..i];
        i := i + 1;
      }
      assert turns[..i] == turns;
    }

    /** One retention run with nothing in between: take the cutoff, delete, and count what was deleted. */
    method RunOnce(ok: bool) returns (deleted: nat)
      modifies this`table, this`deletions, this`lastRun
      ensures Snapshot() == if ok then Retained(config, old(Snapshot())) else old(Snapshot())
      ensures deleted == |old(table)| - |table|
      ensures !ok ==> table == old(table)
      ensures ok ==> forall id :: id in table <==>
                id in old(table) && old(table)[id].entry.timestamp >= now - config.retention
      ensures forall id :: id in table ==> table[id] == old(table)[id]
    {
      if !ok {
        return 0;
      }
      ghost var after := Retained(config, Snapshot());
      RetainedSize(config, Snapshot());
      var gone := Expired(table, now - config.retention);
      deleted, table, lastRun := |gone|, table - gone, now;
      deletions := after.deletions;
    }
  }
}
