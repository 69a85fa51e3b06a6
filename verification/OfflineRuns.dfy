/** Runs of one honest node against the archive: requests and replies may be lost, the database
    may fail, and other nodes may send anything under their own names. */
module OfflineRuns {
  import opened Basics
  import opened OfflineSync

  /** A local row; its id is its position + 1. */
  datatype LocalRow = LocalRow(payload: Payload, synced: bool)

  /** Ids of the first `limit` rows not yet synced, oldest first. */
  function PendingFrom(rows: seq<LocalRow>, from: nat, limit: nat): (ids: seq<nat>)
    ensures forall k :: 0 <= k < |ids| ==> from < ids[k] <= |rows| && !rows[ids[k] - 1].synced
    ensures forall j, k :: 0 <= j < k < |ids| ==> ids[j] < ids[k]
    decreases |rows| - from
  {
    if from >= |rows| || limit == 0 then []
    else if rows[from].synced then PendingFrom(rows, from + 1, limit)
    else [from + 1] + PendingFrom(rows, from + 1, limit - 1)
  }

  /** Only rows beyond a full batch stay out of it. */
  lemma {:induction false} PendingIsComplete(rows: seq<LocalRow>, from: nat, limit: nat, id: nat)
    requires from < id <= |rows| && !rows[id - 1].synced && |PendingFrom(rows, from, limit)| < limit
    ensures id in PendingFrom(rows, from, limit)
    decreases |rows| - from
  {
    if rows[from].synced {
      PendingIsComplete(rows, from + 1, limit, id);
    } else if id != from + 1 {
      PendingIsComplete(rows, from + 1, limit - 1, id);
    }
  }

  /** One step of the query: the row at `from` comes first in the batch, or is skipped. */
  lemma PendingStep(rows: seq<LocalRow>, ids: seq<nat>, from: nat, limit: nat)
    requires from < |rows| && |ids| < limit
    ensures var next := if rows[from].synced then ids else ids + [from + 1];
            ids + PendingFrom(rows, from, limit - |ids|) == next + PendingFrom(rows, from + 1, limit - |next|)
  {}

  lemma NothingLeft(rows: seq<LocalRow>, from: nat, limit: nat)
    requires from >= |rows| || limit == 0
    ensures PendingFrom(rows, from, limit) == []
  {}

  function Pending(rows: seq<LocalRow>, limit: nat): seq<nat> { PendingFrom(rows, 0, limit) }

  predicate AreIds(rows: seq<LocalRow>, ids: seq<nat>) { forall k :: 0 <= k < |ids| ==> 1 <= ids[k] <= |rows| }

  function Records(rows: seq<LocalRow>, ids: seq<nat>): (rs: seq<Record>)
    requires AreIds(rows, ids)
    ensures |rs| == |ids|
  {
    seq(|ids|, k requires 0 <= k < |ids| => Record(ids[k], Object(rows[ids[k] - 1].payload)))
  }

  function Marked(rows: seq<LocalRow>, ids: seq<nat>): seq<LocalRow> {
    seq(|rows|, i requires 0 <= i < |rows| => rows[i].(synced := rows[i].synced || i + 1 in ids))
  }

  // -------------------------------------------------------------------- the node

  class LocalStore {
    const node: string
    var rows: seq<LocalRow>

    constructor (node: string)
      ensures this.node == node && rows == []
    {
      this.node, rows := node, [];
    }

    method StoreHeartbeat(run: string, body: nat, delivered: bool)
      modifies this`rows
      ensures rows == old(rows) + [LocalRow(Payload(node, run, body), delivered)]
    {
      rows := rows + [LocalRow(Payload(node, run, body), delivered)];
    }

    /** pending_records */
    method PendingRecords(limit: nat) returns (ids: seq<nat>)
      ensures ids == Pending(rows, limit) && AreIds(rows, ids)
    {
      hide PendingFrom;
      ids := [];
      var i := 0;
      while i < |rows| && |ids| < limit
        invariant i <= |rows| && |ids| <= limit
        invariant Pending(rows, limit) == ids + PendingFrom(rows, i, limit - |ids|)
      {
        PendingStep(rows, ids, i, limit);
        if !rows[i].synced { ids := ids + [i + 1]; }
        i := i + 1;
      }
      NothingLeft(rows, i, limit - |ids|);
    }

    /** mark_records_synced */
    method MarkRecordsSynced(ids: seq<nat>)
      modifies this`rows
      ensures rows == Marked(old(rows), ids)
    {
      for i := 0 to |rows|
        invariant |rows| == |old(rows)|
        invariant forall k :: 0 <= k < i ==> rows[k] == old(rows)[k].(synced := old(rows)[k].synced || k + 1 in ids)
        invariant forall k :: i <= k < |rows| ==> rows[k] == old(rows)[k]
      {
        if i + 1 in ids { rows := rows[i := rows[i].(synced := true)]; }
      }
    }
  }

  // -------------------------------------------------------------------- the runs

  /** `primary` is whether PostgreSQL is the primary projection: only then is a failed archive
      write reported to the node; otherwise the sync is acknowledged all the same. */
  datatype Config = Config(node: string, primary: bool)

  /** `replayed` holds the ids that a sync has marked. */
  datatype State = State(rows: seq<LocalRow>, archive: Archive, replayed: set<nat>)

  datatype Link = RequestLost | ReplyLost | Answered

  datatype Action =
    | Store(run: string, body: nat, delivered: bool)
    | Sync(limit: nat, link: Link, dbFails: bool)
    | Foreign(sender: string, records: seq<Record>)

  const INITIAL := State([], Archive(map[], []), {})

  /** record_node_records and its status: the archive afterwards, and whether it answers 2xx. An
      error that is not a ValueError is treated as a failed write. */
  function Handle(c: Config, a: Archive, node: string, records: seq<Record>, dbFails: bool, hash: Hash): (Archive, bool) {
    if dbFails then (a, !c.primary)
    else
      var r := Persist(a, node, records, hash);
      if r.Ok? then (r.value.archive, true) else (a, r.error.NoFields? && !c.primary)
  }

  function SyncStep(c: Config, s: State, limit: nat, link: Link, dbFails: bool, hash: Hash): State {
    var ids := Pending(s.rows, limit);
    if ids == [] || link.RequestLost? then s
    else
      var (archive, ok) := Handle(c, s.archive, c.node, Records(s.rows, ids), dbFails, hash);
      if ok && link.Answered?
      then State(Marked(s.rows, ids), archive, s.replayed + set k | 0 <= k < |ids| :: ids[k])
      else s.(archive := archive)
  }

  function Next(c: Config, s: State, a: Action, hash: Hash): State {
    match a
    case Store(run, body, delivered) => s.(rows := s.rows + [LocalRow(Payload(c.node, run, body), delivered)])
    case Sync(limit, link, dbFails) => SyncStep(c, s, limit, link, dbFails, hash)
    case Foreign(sender, records) =>
      if sender == c.node then s else s.(archive := Handle(c, s.archive, sender, records, false, hash).0)
  }

  function Run(c: Config, actions: seq<Action>, hash: Hash): State {
    if actions == [] then INITIAL
    else Next(c, Run(c, actions[..|actions| - 1], hash), actions[|actions| - 1], hash)
  }

  // ------------------------------------------------------------------- invariant

  function RowKey(c: Config, s: State, id: nat): Key
    requires 1 <= id <= |s.rows|
  {
    Key(c.node, s.rows[id - 1].payload.run, id)
  }

  /** The node's receipts are receipts of its own rows. */
  predicate OwnReceipt(c: Config, s: State, key: Key, hash: Hash)
    requires key in s.archive.receipts
  {
    && 1 <= key.localId <= |s.rows|
    && key == RowKey(c, s, key.localId)
    && s.archive.receipts[key] == hash(s.rows[key.localId - 1].payload)
  }

  predicate RowReceipted(c: Config, s: State, id: nat, hash: Hash)
    requires 1 <= id <= |s.rows|
  {
    RowKey(c, s, id) in s.archive.receipts && s.archive.receipts[RowKey(c, s, id)] == hash(s.rows[id - 1].payload)
  }

  ghost predicate Inv(c: Config, s: State, hash: Hash) {
    && ArchivedOnce(s.archive)
    && (forall i :: 0 <= i < |s.rows| ==> s.rows[i].payload.node == c.node)
    && (forall key :: key in s.archive.receipts && key.node == c.node ==> OwnReceipt(c, s, key, hash))
    && (forall id :: id in s.replayed ==> 1 <= id <= |s.rows| && s.rows[id - 1].synced)
  }

  predicate ReplayedReceipted(c: Config, s: State, hash: Hash) {
    forall id :: id in s.replayed ==> 1 <= id <= |s.rows| && RowReceipted(c, s, id, hash)
  }

  /** An honest batch never conflicts with the archive. */
  lemma OwnBatchIsSound(c: Config, s: State, ids: seq<nat>, hash: Hash)
    requires Inv(c, s, hash) && AreIds(s.rows, ids)
    ensures Sound(s.archive, c.node, Records(s.rows, ids), hash)
  {
    hide ArchivedOnce;
    var rs := Records(s.rows, ids);
    forall r | r in rs
      ensures 1 <= r.localId <= |s.rows| && r.raw == Object(s.rows[r.localId - 1].payload)
    {
      var k :| 0 <= k < |rs| && rs[k] == r;
    }
  }

  /** What archiving one of the node's own batches does. */
  lemma OwnBatchArchived(c: Config, s: State, ids: seq<nat>, hash: Hash)
    requires Inv(c, s, hash) && AreIds(s.rows, ids)
    ensures var r := Persist(s.archive, c.node, Records(s.rows, ids), hash);
            && r.Ok? && r.value.accepted + r.value.duplicates == |ids|
            && Kept(s.archive, r.value.archive) && Inv(c, s.(archive := r.value.archive), hash)
            && forall k :: 0 <= k < |ids| ==> RowReceipted(c, s.(archive := r.value.archive), ids[k], hash)
  {
    hide ArchivedOnce, Persist, Sound, Records;
    var rs := Records(s.rows, ids);
    OwnBatchIsSound(c, s, ids, hash);
    BatchAcceptedIff(s.archive, c.node, rs, hash);
    BatchIsArchivedOnce(s.archive, c.node, rs, hash);
    var t := s.(archive := Persist(s.archive, c.node, rs, hash).value.archive);
    forall key | key in t.archive.receipts && key.node == c.node
      ensures OwnReceipt(c, t, key, hash)
    {
      if key !in s.archive.receipts {
        var r :| r in rs && IsKeyOf(key, c.node, r);
        OwnRecord(s.rows, ids, r);
      } else {
        assert OwnReceipt(c, s, key, hash);
      }
    }
    forall k | 0 <= k < |ids|
      ensures RowReceipted(c, t, ids[k], hash)
    {
      RecordAt(s.rows, ids, k);
      assert Receipted(t.archive, c.node, rs[k], hash);
    }
  }

  lemma RecordAt(rows: seq<LocalRow>, ids: seq<nat>, k: nat)
    requires AreIds(rows, ids) && k < |ids|
    ensures Records(rows, ids)[k] == Record(ids[k], Object(rows[ids[k] - 1].payload))
    ensures Records(rows, ids)[k] in Records(rows, ids)
  {}

  lemma OwnRecord(rows: seq<LocalRow>, ids: seq<nat>, r: Record)
    requires AreIds(rows, ids) && r in Records(rows, ids)
    ensures 1 <= r.localId <= |rows| && r.raw == Object(rows[r.localId - 1].payload)
  {}

  /** Marking rows changes nothing else about them. */
  lemma MarkingKeepsReceipts(c: Config, s: State, ids: seq<nat>, hash: Hash)
    requires Inv(c, s, hash) && AreIds(s.rows, ids)
    ensures var t := State(Marked(s.rows, ids), s.archive, s.replayed + set k | 0 <= k < |ids| :: ids[k]);
            && Inv(c, t, hash)
            && (ReplayedReceipted(c, s, hash) && (forall k :: 0 <= k < |ids| ==> RowReceipted(c, s, ids[k], hash)) ==>
                  ReplayedReceipted(c, t, hash))
  {
    hide ArchivedOnce;
    var t := State(Marked(s.rows, ids), s.archive, s.replayed + set k | 0 <= k < |ids| :: ids[k]);
    assert forall i :: 0 <= i < |s.rows| ==> t.rows[i].payload == s.rows[i].payload;
    assert forall key :: key in t.archive.receipts && key.node == c.node ==> OwnReceipt(c, s, key, hash);
    forall id | id in t.replayed && ReplayedReceipted(c, s, hash) && (forall k :: 0 <= k < |ids| ==> RowReceipted(c, s, ids[k], hash))
      ensures 1 <= id <= |t.rows| && RowReceipted(c, t, id, hash)
    {
      assert RowReceipted(c, s, id, hash);
    }
  }

  lemma ArchiveGrowthKeepsReplayed(c: Config, s: State, archive: Archive, hash: Hash)
    requires ReplayedReceipted(c, s, hash) && Kept(s.archive, archive)
    ensures ReplayedReceipted(c, s.(archive := archive), hash)
  {}

  lemma SyncKeepsInv(c: Config, s: State, limit: nat, link: Link, dbFails: bool, hash: Hash)
    requires Inv(c, s, hash)
    ensures var t := SyncStep(c, s, limit, link, dbFails, hash);
            && Inv(c, t, hash)
            && (ReplayedReceipted(c, s, hash) && (c.primary || !dbFails) ==> ReplayedReceipted(c, t, hash))
  {
    hide Inv, ReplayedReceipted, RowReceipted, Persist, Records, Kept;
    var ids := Pending(s.rows, limit);
    OwnBatchArchived(c, s, ids, hash);
    var received := s.(archive := Persist(s.archive, c.node, Records(s.rows, ids), hash).value.archive);
    MarkingKeepsReceipts(c, s, ids, hash);
    MarkingKeepsReceipts(c, received, ids, hash);
    if ReplayedReceipted(c, s, hash) { ArchiveGrowthKeepsReplayed(c, s, received.archive, hash); }
  }

  lemma ForeignKeepsInv(c: Config, s: State, sender: string, records: seq<Record>, hash: Hash)
    requires Inv(c, s, hash)
    ensures var t := Next(c, s, Foreign(sender, records), hash);
            Inv(c, t, hash) && (ReplayedReceipted(c, s, hash) ==> ReplayedReceipted(c, t, hash))
  {
    hide Persist, ArchivedOnce, RowReceipted;
    if sender != c.node && Persist(s.archive, sender, records, hash).Ok? {
      BatchIsArchivedOnce(s.archive, sender, records, hash);
      var t := Next(c, s, Foreign(sender, records), hash);
      forall key | key in t.archive.receipts && key.node == c.node
        ensures OwnReceipt(c, t, key, hash)
      {
        assert OwnReceipt(c, s, key, hash);
      }
      if ReplayedReceipted(c, s, hash) { ArchiveGrowthKeepsReplayed(c, s, t.archive, hash); }
    }
  }

  lemma StoreKeepsInv(c: Config, s: State, run: string, body: nat, delivered: bool, hash: Hash)
    requires Inv(c, s, hash)
    ensures var t := Next(c, s, Store(run, body, delivered), hash);
            Inv(c, t, hash) && (ReplayedReceipted(c, s, hash) ==> ReplayedReceipted(c, t, hash))
  {
    hide ArchivedOnce;
    var t := Next(c, s, Store(run, body, delivered), hash);
    assert forall key :: key in s.archive.receipts && key.node == c.node ==> OwnReceipt(c, s, key, hash);
    assert ReplayedReceipted(c, s, hash) ==> forall id :: id in s.replayed ==> RowReceipted(c, s, id, hash);
  }

  /** No archive write of this run failed. */
  predicate NoFailure(actions: seq<Action>) {
    forall i :: 0 <= i < |actions| && actions[i].Sync? ==> !actions[i].dbFails
  }

  lemma {:induction false} RunKeepsInv(c: Config, actions: seq<Action>, hash: Hash)
    ensures Inv(c, Run(c, actions, hash), hash)
    ensures c.primary || NoFailure(actions) ==> ReplayedReceipted(c, Run(c, actions, hash), hash)
    decreases |actions|
  {
    if actions == [] {
      InitialIsSound(c, hash);
    } else {
      hide Inv, ReplayedReceipted;
      var before := actions[..|actions| - 1];
      var s := Run(c, before, hash);
      RunKeepsInv(c, before, hash);
      match actions[|actions| - 1]
      case Store(run, body, delivered) => StoreKeepsInv(c, s, run, body, delivered, hash);
      case Sync(limit, link, dbFails) => SyncKeepsInv(c, s, limit, link, dbFails, hash);
      case Foreign(sender, records) => ForeignKeepsInv(c, s, sender, records, hash);
    }
  }

  lemma InitialIsSound(c: Config, hash: Hash)
    ensures Inv(c, INITIAL, hash) && ReplayedReceipted(c, INITIAL, hash)
  {}

  // -------------------------------------------------------------------- theorems

  /** In every run, the node's next sync is never refused: no identity conflict, and every
      record of the batch is counted once, as accepted or as a duplicate. */
  lemma HonestNodeNeverConflicts(c: Config, actions: seq<Action>, limit: nat, hash: Hash)
    ensures var s := Run(c, actions, hash);
            var ids := Pending(s.rows, limit);
            var r := Persist(s.archive, c.node, Records(s.rows, ids), hash);
            r.Ok? && r.value.accepted + r.value.duplicates == |ids|
  {
    hide Run, Persist, Inv;
    var s := Run(c, actions, hash);
    RunKeepsInv(c, actions, hash);
    OwnBatchArchived(c, s, Pending(s.rows, limit), hash);
  }

  /** The receipts of a node are exactly of its own rows, with their payload hashes, and each is
      archived at exactly one place. */
  lemma NoPhantomReceipts(c: Config, actions: seq<Action>, key: Key, hash: Hash)
    requires key in Run(c, actions, hash).archive.receipts && key.node == c.node
    ensures OwnReceipt(c, Run(c, actions, hash), key, hash)
    ensures multiset(Run(c, actions, hash).archive.archived)[key] == 1
  {
    hide Run;
    RunKeepsInv(c, actions, hash);
    OnceIsOne(Run(c, actions, hash).archive.archived, key);
  }

  lemma {:induction false} OnceIsOne(s: seq<Key>, key: Key)
    requires forall i, j :: 0 <= i < j < |s| ==> s[i] != s[j]
    ensures multiset(s)[key] == if key in s then 1 else 0
  {
    if s == [] {
    } else {
      OnceIsOne(s[..|s| - 1], key);
      assert s == s[..|s| - 1] + [s[|s| - 1]];
    }
  }

  /** Exactly-once: a row that a sync marked has its receipt, archived exactly once. */
  lemma MarkedRowsArchivedOnce(c: Config, actions: seq<Action>, id: nat, hash: Hash)
    requires c.primary || NoFailure(actions)
    requires id in Run(c, actions, hash).replayed
    ensures var s := Run(c, actions, hash);
            && 1 <= id <= |s.rows| && s.rows[id - 1].synced && RowReceipted(c, s, id, hash)
            && multiset(s.archive.archived)[RowKey(c, s, id)] == 1
  {
    hide Run;
    RunKeepsInv(c, actions, hash);
    var s := Run(c, actions, hash);
    assert RowReceipted(c, s, id, hash);
    NoPhantomReceipts(c, actions, RowKey(c, s, id), hash);
  }

  /** A failed write that is not reported loses the record: the node marks a row that was never
      archived. */
  function SwallowedFailure(): seq<Action> { [Store("run", 0, false), Sync(20, Answered, true)] }

  lemma SwallowedFailureLosesRow(node: string, hash: Hash)
    ensures var s := Run(Config(node, false), SwallowedFailure(), hash);
            1 in s.replayed && s.archive.receipts == map[]
  {
    var c := Config(node, false);
    var store, sync := Store("run", 0, false), Sync(20, Answered, true);
    assert SwallowedFailure()[..1] == [store] && [store][..0] == [];
    assert Run(c, [], hash) == INITIAL;
    var s := Run(c, [store], hash);
    assert s == Next(c, INITIAL, store, hash);
    assert s.rows == [LocalRow(Payload(node, "run", 0), false)];
    assert PendingFrom(s.rows, 1, 19) == [];
    assert Pending(s.rows, 20) == [1];
    assert Run(c, SwallowedFailure(), hash) == SyncStep(c, s, 20, Answered, true, hash);
    assert [1][0] == 1;
  }

  /** So marked rows are archived in every run exactly when archive failures are reported, that
      is, when the durable store is the primary projection. */
  lemma ExactlyOnceIffFailuresReported(c: Config, hash: Hash)
    ensures (forall actions :: ReplayedReceipted(c, Run(c, actions, hash), hash)) <==> c.primary
  {
    hide ReplayedReceipted, Run;
    if c.primary {
      forall actions ensures ReplayedReceipted(c, Run(c, actions, hash), hash) { RunKeepsInv(c, actions, hash); }
    } else {
      SwallowedFailureLosesRow(c.node, hash);
      NotReceipted(c, Run(c, SwallowedFailure(), hash), 1, hash);
    }
  }

  lemma NotReceipted(c: Config, s: State, id: nat, hash: Hash)
    requires id in s.replayed && s.archive.receipts == map[]
    ensures !ReplayedReceipted(c, s, hash)
  {}

  /** Every record of an acknowledged batch is on receipt, when no write fails. */
  predicate AckMeansArchived(c: Config, a: Archive, node: string, records: seq<Record>, hash: Hash) {
    var (after, ok) := Handle(c, a, node, records, false, hash);
    ok ==> forall r :: r in records ==> Receipted(after, node, r, hash)
  }

  const EMPTY_ARCHIVE := Archive(map[], [])

  /** For any sender: what is acknowledged is archived exactly when the durable store is primary;
      otherwise a text that decodes to no object is acknowledged and dropped. */
  lemma AckMeansArchivedIff(c: Config, node: string, hash: Hash)
    ensures (forall a, records :: ArchivedOnce(a) ==> AckMeansArchived(c, a, node, records, hash)) <==> c.primary
  {
    hide Persist, ArchivedOnce;
    if c.primary {
      forall a, records | ArchivedOnce(a)
        ensures AckMeansArchived(c, a, node, records, hash)
      {
        if Persist(a, node, records, hash).Ok? { BatchIsArchivedOnce(a, node, records, hash); }
      }
    } else {
      OddTextIsDropped(c, node, hash);
    }
  }

  lemma OddTextIsRefused(o: Outcome, node: string, odd: Record, hash: Hash)
    requires odd.raw == Text(OtherJson)
    ensures ArchiveAll(o, node, SortedById([odd]), hash) == Err(NoFields)
  {
    hide Place;
    assert [odd][..0] == [];
    assert SortedById([]) == [];
    PlaceFirst(odd);
    assert SortedById([odd]) == [odd];
    assert ArchiveAll(o, node, [], hash) == Ok(o);
  }

  lemma PlaceFirst(r: Record)
    ensures Place([], r) == [r]
  {}

  lemma OddTextIsDropped(c: Config, node: string, hash: Hash)
    requires !c.primary
    ensures ArchivedOnce(EMPTY_ARCHIVE)
    ensures !AckMeansArchived(c, EMPTY_ARCHIVE, node, [Record(1, Text(OtherJson))], hash)
  {
    var odd := Record(1, Text(OtherJson));
    OddTextIsRefused(Outcome(EMPTY_ARCHIVE, 0, 0), node, odd, hash);
    assert odd in [odd];
  }

  // ------------------------------------------------------------------- what a sync marks

  function Unsynced(): LocalRow -> bool { (r: LocalRow) => !r.synced }

  /** A row is in the batch exactly when it is unsynced and fewer than `limit` unsynced rows are
      older. */
  lemma {:induction false} PendingIff(rows: seq<LocalRow>, from: nat, limit: nat, id: nat)
    requires from < id <= |rows|
    ensures id in PendingFrom(rows, from, limit) <==> !rows[id - 1].synced && Count(rows[from..id - 1], Unsynced()) < limit
    decreases |rows| - from
  {
    if limit == 0 {
    } else if id == from + 1 {
      assert rows[from..id - 1] == [];
    } else {
      assert rows[from..id - 1][1..] == rows[from + 1..id - 1];
      PendingIff(rows, from + 1, if rows[from].synced then limit else limit - 1, id);
      assert id in [from + 1] + PendingFrom(rows, from + 1, limit - 1) <==> id in PendingFrom(rows, from + 1, limit - 1);
    }
  }

  /** In every run a sync marks exactly the rows of its batch, when the answer arrives and the write
      did not fail or its failure is not reported; and it archives them exactly when the request
      arrives and the write does not fail. */
  lemma SyncMarksIff(c: Config, actions: seq<Action>, limit: nat, link: Link, dbFails: bool, i: nat, hash: Hash)
    requires i < |Run(c, actions, hash).rows|
    ensures var s := Run(c, actions, hash);
            var t := Next(c, s, Sync(limit, link, dbFails), hash);
            var due := !s.rows[i].synced && Count(s.rows[..i], Unsynced()) < limit;
            && |t.rows| == |s.rows| && t.rows[i].payload == s.rows[i].payload
            && (t.rows[i].synced <==> s.rows[i].synced || (due && link.Answered? && !(dbFails && c.primary)))
            && (due && !link.RequestLost? && !dbFails ==> RowReceipted(c, t, i + 1, hash))
            && (link.RequestLost? || dbFails ==> t.archive == s.archive)
  {
    hide Run, Inv, Persist, Records, RowReceipted, PendingFrom;
    RunKeepsInv(c, actions, hash);
    var s := Run(c, actions, hash);
    var ids := Pending(s.rows, limit);
    PendingIff(s.rows, 0, limit, i + 1);
    assert s.rows[0..i] == s.rows[..i];
    OwnBatchArchived(c, s, ids, hash);
    var received := s.(archive := Persist(s.archive, c.node, Records(s.rows, ids), hash).value.archive);
    if i + 1 in ids {
      assert RowReceipted(c, received, i + 1, hash);
      MarkedRowKeepsReceipt(c, received, ids, i + 1, hash);
    }
  }

  lemma MarkedRowKeepsReceipt(c: Config, s: State, ids: seq<nat>, id: nat, hash: Hash)
    requires 1 <= id <= |s.rows| && RowReceipted(c, s, id, hash)
    ensures forall replayed :: RowReceipted(c, State(Marked(s.rows, ids), s.archive, replayed), id, hash)
  {}
}
