/** Offline archival: a node keeps heartbeats it could not deliver and replays them in batches;
    the central side archives each record once, whatever is lost on the way. */
module OfflineSync {
  import opened Basics

  /** A decoded heartbeat; an empty node code means the field is missing. */
  datatype Payload = Payload(node: string, run: string, body: nat)

  /** What a text decodes to. */
  datatype Json = Invalid | Fields(payload: Payload) | OtherJson

  /** The payload as received: an object, a text or something else. */
  datatype Raw = Object(payload: Payload) | Text(json: Json) | NotAnObject

  datatype Record = Record(localId: int, raw: Raw)

  datatype Key = Key(node: string, run: string, localId: int)

  /** `NoFields` is the error of reading fields of a decoded list, number or null; unlike the
      others it is not a ValueError. */
  datatype SyncError = InvalidJson | PayloadNotObject | NoFields | NodeMismatch | IdentityConflict

  /** The receipt table, and the records archived, in order. */
  datatype Archive = Archive(receipts: map<Key, nat>, archived: seq<Key>)

  datatype Outcome = Outcome(archive: Archive, accepted: nat, duplicates: nat)

  type Hash = Payload -> nat

  // -------------------------------------------------------------- stable ordering

  predicate Ordered(rs: seq<Record>) { forall i, j :: 0 <= i < j < |rs| ==> rs[i].localId <= rs[j].localId }

  /** Puts r behind every record with the same or a smaller id. */
  function Place(rs: seq<Record>, r: Record): (s: seq<Record>)
    ensures multiset(s) == multiset(rs) + multiset{r} && |s| == |rs| + 1
    ensures Ordered(rs) ==> Ordered(s)
  {
    if rs == [] || rs[|rs| - 1].localId <= r.localId then rs + [r]
    else
      var front := rs[..|rs| - 1];
      var last := rs[|rs| - 1];
      assert rs == front + [last];
      var s := Place(front, r);
      assert Ordered(rs) ==> forall x :: x in s ==> x.localId <= last.localId by { PlaceMembers(front, r, s, last); }
      s + [last]
  }

  lemma PlaceMembers(front: seq<Record>, r: Record, s: seq<Record>, last: Record)
    requires multiset(s) == multiset(front) + multiset{r} && r.localId <= last.localId
    ensures Ordered(front + [last]) ==> forall x :: x in s ==> x.localId <= last.localId
  {
    if Ordered(front + [last]) {
      forall x | x in s ensures x.localId <= last.localId {
        assert x in multiset(s);
        assert x == r || x in front;
        if x in front {
          var i :| 0 <= i < |front| && front[i] == x;
          assert (front + [last])[i] == x && (front + [last])[|front|] == last;
        }
      }
    }
  }

  function SortedById(rs: seq<Record>): (s: seq<Record>)
    ensures multiset(s) == multiset(rs) && |s| == |rs| && Ordered(s)
  {
    if rs == [] then []
    else
      assert rs == rs[..|rs| - 1] + [rs[|rs| - 1]];
      Place(SortedById(rs[..|rs| - 1]), rs[|rs| - 1])
  }

  // -------------------------------------------------------------- central archival

  function Decode(raw: Raw): Result<Payload, SyncError> {
    match raw
    case Object(p) => Ok(p)
    case Text(Fields(p)) => Ok(p)
    case Text(Invalid) => Err(InvalidJson)
    case Text(OtherJson) => Err(NoFields)
    case NotAnObject => Err(PayloadNotObject)
  }

  function ArchiveOne(o: Outcome, node: string, r: Record, hash: Hash): Result<Outcome, SyncError> {
    var decoded := Decode(r.raw);
    if decoded.Err? then Err(decoded.error)
    else
      var p := decoded.value;
      var key := Key(node, p.run, r.localId);
      if p.node != "" && p.node != node then Err(NodeMismatch)
      else if key in o.archive.receipts then
        if o.archive.receipts[key] != hash(p) then Err(IdentityConflict)
        else Ok(o.(duplicates := o.duplicates + 1))
      else
        Ok(Outcome(Archive(o.archive.receipts[key := hash(p)], o.archive.archived + [key]), o.accepted + 1, o.duplicates))
  }

  function ArchiveAll(o: Outcome, node: string, rs: seq<Record>, hash: Hash): Result<Outcome, SyncError> {
    if rs == [] then Ok(o)
    else
      var before := ArchiveAll(o, node, rs[..|rs| - 1], hash);
      if before.Err? then before else ArchiveOne(before.value, node, rs[|rs| - 1], hash)
  }

  function Persist(a: Archive, node: string, records: seq<Record>, hash: Hash): Result<Outcome, SyncError> {
    ArchiveAll(Outcome(a, 0, 0), node, SortedById(records), hash)
  }

  class RecordArchive {
    var receipts: map<Key, nat>
    var archived: seq<Key>

    function State(): Archive
      reads this
    {
      Archive(receipts, archived)
    }

    constructor ()
      ensures State() == Archive(map[], [])
    {
      receipts, archived := map[], [];
    }

    /** persist_synced_node_records: one transaction, so an error leaves nothing behind. */
    method PersistSyncedNodeRecords(node: string, records: seq<Record>, hash: Hash)
      returns (result: Result<(nat, nat), SyncError>)
      modifies this
      ensures var r := Persist(old(State()), node, records, hash);
              match result
              case Ok(counts) => r.Ok? && State() == r.value.archive && counts == (r.value.accepted, r.value.duplicates)
              case Err(e) => r == Err(e) && State() == old(State())
    {
      hide ArchiveAll, SortedById, Decode;
      var sorted := SortedById(records);
      var rows: map<Key, nat>, log: seq<Key> := receipts, archived;
      var accepted: nat, duplicates: nat := 0, 0;
      ghost var start := Outcome(old(State()), 0, 0);
      assert ArchiveAll(start, node, sorted[..0], hash) == Ok(start) by { ArchiveNothing(start, node, sorted[..0], hash); }
      for i := 0 to |sorted|
        invariant State() == old(State())
        invariant ArchiveAll(start, node, sorted[..i], hash) == Ok(Outcome(Archive(rows, log), accepted, duplicates))
      {
        var r := sorted[i];
        ghost var soFar := Outcome(Archive(rows, log), accepted, duplicates);
        ArchiveStep(start, soFar, node, sorted, hash, i);
        ArchiveErrorStays(start, node, sorted, hash, i + 1);
        var decoded := Decode(r.raw);
        if decoded.Err? { return Err(decoded.error); }
        var payload := decoded.value;
        if payload.node != "" && payload.node != node { return Err(NodeMismatch); }
        var key := Key(node, payload.run, r.localId);
        if key in rows {
          if rows[key] != hash(payload) { return Err(IdentityConflict); }
          duplicates := duplicates + 1;
        } else {
          rows := rows[key := hash(payload)];
          log := log + [key];
          accepted := accepted + 1;
        }
      }
      assert sorted[..|sorted|] == sorted;
      receipts, archived := rows, log;
      return Ok((accepted, duplicates));
    }
  }

  lemma ArchiveNothing(o: Outcome, node: string, rs: seq<Record>, hash: Hash)
    requires |rs| == 0
    ensures ArchiveAll(o, node, rs, hash) == Ok(o)
  {}

  lemma ArchiveStep(o: Outcome, u: Outcome, node: string, rs: seq<Record>, hash: Hash, i: nat)
    requires i < |rs| && ArchiveAll(o, node, rs[..i], hash) == Ok(u)
    ensures ArchiveAll(o, node, rs[..i + 1], hash) == ArchiveOne(u, node, rs[i], hash)
  {
    assert rs[..i + 1][..i] == rs[..i];
  }

  lemma {:induction false} ArchiveErrorStays(o: Outcome, node: string, rs: seq<Record>, hash: Hash, k: nat)
    requires k <= |rs|
    ensures ArchiveAll(o, node, rs[..k], hash).Err? ==> ArchiveAll(o, node, rs, hash) == ArchiveAll(o, node, rs[..k], hash)
    decreases |rs|
  {
    hide ArchiveOne;
    if k == |rs| {
      assert rs[..k] == rs;
    } else {
      ArchiveErrorStays(o, node, rs[..|rs| - 1], hash, k);
      assert rs[..|rs| - 1][..k] == rs[..k];
    }
  }

  // ------------------------------------------------------------- batch properties

  /** Receipts and archived records correspond one to one. */
  ghost predicate ArchivedOnce(a: Archive) {
    && (forall i, j :: 0 <= i < j < |a.archived| ==> a.archived[i] != a.archived[j])
    && (forall key :: key in a.receipts <==> key in a.archived)
  }

  /** Receipts are never changed or dropped. */
  predicate Kept(a: Archive, b: Archive) {
    && (forall key :: key in a.receipts ==> key in b.receipts && b.receipts[key] == a.receipts[key])
    && a.archived <= b.archived
  }

  /** The record has its receipt, with the hash of its payload. */
  predicate Receipted(a: Archive, node: string, r: Record, hash: Hash) {
    var p := Decode(r.raw);
    && p.Ok?
    && var key := Key(node, p.value.run, r.localId);
       key in a.receipts && a.receipts[key] == hash(p.value)
  }

  lemma ArchiveOneFacts(o: Outcome, node: string, r: Record, hash: Hash)
    requires ArchivedOnce(o.archive) && ArchiveOne(o, node, r, hash).Ok?
    ensures var t := ArchiveOne(o, node, r, hash).value;
            && ArchivedOnce(t.archive) && Kept(o.archive, t.archive) && Receipted(t.archive, node, r, hash)
            && t.accepted + t.duplicates == o.accepted + o.duplicates + 1
            && t.accepted - o.accepted == |t.archive.archived| - |o.archive.archived|
            && (forall key :: key in t.archive.receipts && key !in o.archive.receipts ==> IsKeyOf(key, node, r))
  {}

  lemma KeptIsTransitive(a: Archive, b: Archive, c: Archive)
    requires Kept(a, b) && Kept(b, c)
    ensures Kept(a, c)
  {}

  lemma KeptIsReflexive(a: Archive)
    ensures Kept(a, a)
  {}

  lemma ReceiptsStay(a: Archive, b: Archive, node: string, r: Record, hash: Hash)
    requires Kept(a, b) && Receipted(a, node, r, hash)
    ensures Receipted(b, node, r, hash)
  {}

  /** An accepted batch, in any grouping and with repeats: every record has exactly its receipt,
      nothing else was added, and accepted + duplicates is the batch size. */
  lemma {:induction false} ArchiveAllFacts(o: Outcome, node: string, rs: seq<Record>, hash: Hash)
    requires ArchivedOnce(o.archive) && ArchiveAll(o, node, rs, hash).Ok?
    ensures var t := ArchiveAll(o, node, rs, hash).value;
            && ArchivedOnce(t.archive) && Kept(o.archive, t.archive)
            && (forall i :: 0 <= i < |rs| ==> Receipted(t.archive, node, rs[i], hash))
            && t.accepted + t.duplicates == o.accepted + o.duplicates + |rs|
            && t.accepted - o.accepted == |t.archive.archived| - |o.archive.archived|
            && (forall key :: key in t.archive.receipts && key !in o.archive.receipts ==>
                  exists i :: 0 <= i < |rs| && IsKeyOf(key, node, rs[i]))
    decreases |rs|
  {
    hide ArchiveOne, ArchivedOnce, Kept, Receipted, IsKeyOf;
    KeptIsReflexive(o.archive);
    if rs == [] {
    } else {
      var front := rs[..|rs| - 1];
      ArchiveAllFacts(o, node, front, hash);
      var u := ArchiveAll(o, node, front, hash).value;
      ArchiveOneFacts(u, node, rs[|rs| - 1], hash);
      var t := ArchiveAll(o, node, rs, hash).value;
      hide ArchiveAll;
      KeptIsTransitive(o.archive, u.archive, t.archive);
      forall i | 0 <= i < |rs|
        ensures Receipted(t.archive, node, rs[i], hash)
      {
        if i < |front| { ReceiptsStay(u.archive, t.archive, node, front[i], hash); }
      }
      forall key | key in t.archive.receipts && key !in o.archive.receipts
        ensures exists i :: 0 <= i < |rs| && IsKeyOf(key, node, rs[i])
      {
        if key in u.archive.receipts {
          var i :| 0 <= i < |front| && IsKeyOf(key, node, front[i]);
          assert IsKeyOf(key, node, rs[i]);
        } else {
          assert IsKeyOf(key, node, rs[|front|]);
        }
      }
    }
  }

  predicate IsKeyOf(key: Key, node: string, r: Record) {
    Decode(r.raw).Ok? && key == Key(node, Decode(r.raw).value.run, r.localId)
  }

  lemma SameRecords(rs: seq<Record>, s: seq<Record>, x: Record)
    requires multiset(rs) == multiset(s) && x in rs
    ensures x in s
  {
    assert x in multiset(rs);
  }

  lemma BatchIsArchivedOnce(a: Archive, node: string, records: seq<Record>, hash: Hash)
    requires ArchivedOnce(a) && Persist(a, node, records, hash).Ok?
    ensures var t := Persist(a, node, records, hash).value;
            && ArchivedOnce(t.archive) && Kept(a, t.archive)
            && (forall r :: r in records ==> Receipted(t.archive, node, r, hash))
            && t.accepted + t.duplicates == |records|
            && t.accepted == |t.archive.archived| - |a.archived|
            && (forall key :: key in t.archive.receipts && key !in a.receipts ==>
                  exists r :: r in records && IsKeyOf(key, node, r))
  {
    hide ArchiveAll, Receipted, IsKeyOf, SortedById, ArchivedOnce, Kept;
    var sorted := SortedById(records);
    ArchiveAllFacts(Outcome(a, 0, 0), node, sorted, hash);
    var t := Persist(a, node, records, hash).value;
    forall r | r in records ensures Receipted(t.archive, node, r, hash) { SameRecords(records, sorted, r); }
    forall key | key in t.archive.receipts && key !in a.receipts
      ensures exists r :: r in records && IsKeyOf(key, node, r)
    {
      var i :| 0 <= i < |sorted| && IsKeyOf(key, node, sorted[i]);
      SameRecords(sorted, records, sorted[i]);
    }
  }

  /** Replaying a batch that was received changes nothing and counts only duplicates. */
  lemma {:induction false} ReplayIsAllDuplicates(o: Outcome, node: string, rs: seq<Record>, hash: Hash)
    requires forall i :: 0 <= i < |rs| ==> Receipted(o.archive, node, rs[i], hash) && NodeMatches(node, rs[i])
    ensures ArchiveAll(o, node, rs, hash) == Ok(o.(duplicates := o.duplicates + |rs|))
    decreases |rs|
  {
    if rs == [] {
    } else {
      ReplayIsAllDuplicates(o, node, rs[..|rs| - 1], hash);
      assert Receipted(o.archive, node, rs[|rs| - 1], hash);
    }
  }

  predicate NodeMatches(node: string, r: Record) {
    Decode(r.raw).Ok? && (Decode(r.raw).value.node == "" || Decode(r.raw).value.node == node)
  }

  // ---------------------------------------------------------- when a batch is taken

  /** The record is this node's and agrees with its receipt, if it has one. */
  predicate Acceptable(a: Archive, node: string, r: Record, hash: Hash) {
    && NodeMatches(node, r)
    && var p := Decode(r.raw).value;
       var key := Key(node, p.run, r.localId);
       key in a.receipts ==> a.receipts[key] == hash(p)
  }

  /** Two records that claim the same identity have the same contents. */
  predicate Agree(r: Record, q: Record, hash: Hash) {
    Decode(r.raw).Ok? && Decode(q.raw).Ok? && r.localId == q.localId && Decode(r.raw).value.run == Decode(q.raw).value.run ==>
      hash(Decode(r.raw).value) == hash(Decode(q.raw).value)
  }

  predicate Sound(a: Archive, node: string, rs: seq<Record>, hash: Hash) {
    && (forall r :: r in rs ==> Acceptable(a, node, r, hash))
    && (forall r, q :: r in rs && q in rs ==> Agree(r, q, hash))
  }

  lemma LastRecordIff(o: Outcome, u: Outcome, node: string, front: seq<Record>, r: Record, hash: Hash)
    requires Sound(o.archive, node, front, hash)
    requires ArchivedOnce(o.archive) && ArchiveAll(o, node, front, hash) == Ok(u)
    ensures ArchiveOne(u, node, r, hash).Ok?
            <==> Acceptable(o.archive, node, r, hash) && forall q :: q in front ==> Agree(q, r, hash) && Agree(r, q, hash)
  {
    hide Decode, ArchiveAll, ArchivedOnce, Sound;
    ArchiveAllFacts(o, node, front, hash);
    if NodeMatches(node, r) {
      var key := Key(node, Decode(r.raw).value.run, r.localId);
      forall q | q in front
        ensures Receipted(u.archive, node, q, hash)
      {
        var i :| 0 <= i < |front| && front[i] == q;
      }
      if key in u.archive.receipts && key !in o.archive.receipts {
        var i :| 0 <= i < |front| && IsKeyOf(key, node, front[i]);
        assert front[i] in front && Receipted(u.archive, node, front[i], hash);
      }
    }
  }

  lemma {:induction false} ArchiveAllOkIff(o: Outcome, node: string, rs: seq<Record>, hash: Hash)
    requires ArchivedOnce(o.archive)
    ensures ArchiveAll(o, node, rs, hash).Ok? <==> Sound(o.archive, node, rs, hash)
    decreases |rs|
  {
    hide ArchiveOne, ArchivedOnce, Acceptable, Agree;
    if rs == [] {
    } else {
      var front, last := rs[..|rs| - 1], rs[|rs| - 1];
      ArchiveAllOkIff(o, node, front, hash);
      SoundAppend(o.archive, node, front, last, hash);
      assert rs == front + [last];
      if ArchiveAll(o, node, front, hash).Ok? {
        LastRecordIff(o, ArchiveAll(o, node, front, hash).value, node, front, last, hash);
      }
    }
  }

  lemma SoundAppend(a: Archive, node: string, front: seq<Record>, r: Record, hash: Hash)
    ensures Sound(a, node, front + [r], hash)
            <==> Sound(a, node, front, hash) && Acceptable(a, node, r, hash)
                 && forall q :: q in front ==> Agree(q, r, hash) && Agree(r, q, hash)
  {}

  /** A batch is accepted exactly when each record is this node's and agrees with its receipt
      and with every other record of the batch, in whatever order they were sent. */
  lemma BatchAcceptedIff(a: Archive, node: string, records: seq<Record>, hash: Hash)
    requires ArchivedOnce(a)
    ensures Persist(a, node, records, hash).Ok? <==> Sound(a, node, records, hash)
  {
    hide ArchiveAll, SortedById, ArchivedOnce, Acceptable, Agree;
    var sorted := SortedById(records);
    ArchiveAllOkIff(Outcome(a, 0, 0), node, sorted, hash);
    forall r ensures r in records <==> r in sorted {
      if r in records { SameRecords(records, sorted, r); }
      if r in sorted { SameRecords(sorted, records, r); }
    }
  }

  // ------------------------------------------------------------ why a batch is refused

  /** What is wrong with a record, given the archive as it stands when its turn comes. */
  predicate HasDefect(a: Archive, node: string, r: Record, hash: Hash, e: SyncError) {
    match e
    case InvalidJson => r.raw == Text(Invalid)
    case PayloadNotObject => r.raw == NotAnObject
    case NoFields => r.raw == Text(OtherJson)
    case NodeMismatch => Decode(r.raw).Ok? && Decode(r.raw).value.node != "" && Decode(r.raw).value.node != node
    case IdentityConflict => NodeMatches(node, r) && !Acceptable(a, node, r, hash)
  }

  lemma RefusedForDefect(o: Outcome, node: string, r: Record, hash: Hash, e: SyncError)
    ensures ArchiveOne(o, node, r, hash) == Err(e) <==> HasDefect(o.archive, node, r, hash, e)
  {}

  /** A refused batch is refused for the defect of its first bad record, in id order. */
  lemma {:induction false} FirstDefectDecides(o: Outcome, node: string, rs: seq<Record>, hash: Hash, e: SyncError) returns (i: nat)
    requires ArchiveAll(o, node, rs, hash) == Err(e)
    ensures i < |rs| && ArchiveAll(o, node, rs[..i], hash).Ok?
    ensures HasDefect(ArchiveAll(o, node, rs[..i], hash).value.archive, node, rs[i], hash, e)
    decreases |rs|
  {
    hide ArchiveOne, HasDefect;
    var front := rs[..|rs| - 1];
    var before := ArchiveAll(o, node, front, hash);
    if before.Ok? {
      i := |rs| - 1;
      RefusedForDefect(before.value, node, rs[i], hash, e);
    } else {
      i := FirstDefectDecides(o, node, front, hash, e);
      assert front[..i] == rs[..i];
    }
  }
}
