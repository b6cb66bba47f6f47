/**
  Copying tables row by row: chunked inserts, resumption after a crash at any
  persisted write, the reset of a destination, and the foreign keys in between.
*/
module CopyEngines {
  import opened Base
  import opened MigrationProtocol
  import opened MigrationSafety
  import TableOrder

  datatype Reference = Reference(table: Table, key: nat)

  datatype Row = Row(key: nat, references: set<Reference>, cells: seq<string>)

  type Contents = map<Table, seq<Row>>

  /** What is recorded of a verified table: the digest of its rows. */
  type Record = map<Table, seq<Row>>

  /** What is on disk after a persisted write. */
  datatype Snapshot = Snapshot(destination: Contents, recorded: Record)

  const CHUNK := 250

  /** Tables that are not copied, and that a reset empties as well. */
  const EPHEMERAL: seq<Table> := ["cache", "cache_locks", "jobs", "sessions"]

  datatype CopyError =
    | DestinationNotEmpty
    | CopyMismatch(table: Table)
    | VerificationMismatch(table: Table)
    | SourceChanged(table: Table)

  function RowsAt(contents: Contents, t: Table): seq<Row> {
    if t in contents then contents[t] else []
  }

  function KeysOf(rows: seq<Row>): set<nat> {
    set row | row in rows :: row.key
  }

  /** A foreign key to another durable table; self-references and references to
      excluded tables do not count. */
  predicate CrossTable(order: seq<Table>, t: Table, reference: Reference) {
    reference.table != t && reference.table in order
  }

  /** Every cross-table reference has the row it points to. */
  ghost predicate ReferencesHold(order: seq<Table>, contents: Contents) {
    forall t, row, reference |
      t in order && row in RowsAt(contents, t) && reference in row.references && CrossTable(order, t, reference) ::
      reference.key in KeysOf(RowsAt(contents, reference.table))
  }

  /** Rows reference only tables that come earlier in the order. */
  ghost predicate ReferencesGoBack(order: seq<Table>, contents: Contents) {
    forall i, row, reference |
      0 <= i < |order| && row in RowsAt(contents, order[i]) && reference in row.references
      && CrossTable(order, order[i], reference) ::
      reference.table in order[..i]
  }

  /** What the sorted order of tables is for: the references of rows that keep
      to the declared foreign keys all go back. */
  lemma DeclaredReferencesGoBack(g: TableOrder.Graph, order: seq<Table>, contents: Contents)
    requires TableOrder.Closed(g) && TableOrder.Lists(order, g.Keys) && TableOrder.InOrder(g, order)
    requires forall t, row, reference |
               t in order && row in RowsAt(contents, t) && reference in row.references
               && CrossTable(order, t, reference) ::
               t in g && reference.table in g[t]
    ensures ReferencesGoBack(order, contents)
  {
    forall i, row, reference |
      0 <= i < |order| && row in RowsAt(contents, order[i]) && reference in row.references
      && CrossTable(order, order[i], reference)
      ensures reference.table in order[..i]
    {
      TableOrder.ReferencedFirst(g, order, i, reference.table);
    }
  }

  /** No row of another table points at t: deleting t's rows can neither be
      refused by a foreign key nor reach another table through one. */
  ghost predicate NothingPointsAt(order: seq<Table>, contents: Contents, t: Table) {
    forall u, row, reference |
      u in order && u != t && row in RowsAt(contents, u) && reference in row.references ::
      reference.table != t
  }

  lemma DeletingKeepsReferences(order: seq<Table>, contents: Contents, t: Table)
    requires ReferencesHold(order, contents) && ReferencesGoBack(order, contents)
    requires NothingPointsAt(order, contents, t)
    ensures ReferencesHold(order, contents[t := []])
    ensures ReferencesGoBack(order, contents[t := []])
  {
    var emptied := contents[t := []];
    forall u, row, reference |
      u in order && row in RowsAt(emptied, u) && reference in row.references && CrossTable(order, u, reference)
      ensures reference.key in KeysOf(RowsAt(emptied, reference.table))
    {
      assert u != t && row in RowsAt(contents, u);
      assert reference.table != t;
    }
  }

  /** When every later table is empty, nothing points at this one. */
  lemma NothingPointsAtTheLast(order: seq<Table>, contents: Contents, left: nat)
    requires Distinct(order) && ReferencesGoBack(order, contents)
    requires 0 < left <= |order| && forall j | left <= j < |order| :: RowsAt(contents, order[j]) == []
    ensures NothingPointsAt(order, contents, order[left - 1])
  {
    forall u, row, reference |
      u in order && u != order[left - 1] && row in RowsAt(contents, u) && reference in row.references
      ensures reference.table != order[left - 1]
    {
      var i :| 0 <= i < |order| && order[i] == u;
      assert order[left - 1] !in order[..i];
      assert CrossTable(order, u, reference) ==> reference.table in order[..i];
    }
  }

  /** The tables in copying order, the rows of the source, the rows a freshly
      migrated schema is seeded with, what the destination's column types make
      of a row, and what is hashed of it. */
  datatype Transfer = Transfer(
    order: seq<Table>,
    source: Contents,
    seed: Contents,
    normalize: Row -> Row,
    canonical: Row -> Row)
  {
    ghost predicate Valid() {
      && Distinct(order) && (forall t | t in EPHEMERAL :: t !in order)
      && ReferencesHold(order, source) && ReferencesGoBack(order, source)
      && (forall row :: normalize(row).key == row.key && normalize(row).references == row.references)
      && (forall t, row | t in order && row in RowsAt(seed, t) :: row.references == {})
    }

    function Normalized(rows: seq<Row>): (r: seq<Row>)
      ensures |r| == |rows|
    {
      seq(|rows|, i requires 0 <= i < |rows| => normalize(rows[i]))
    }

    /** `hashTable`, hashing taken to be injective. */
    function Digest(rows: seq<Row>): seq<Row> {
      seq(|rows|, i requires 0 <= i < |rows| => canonical(normalize(rows[i])))
    }

    function Copied(t: Table): seq<Row> {
      Normalized(RowsAt(source, t))
    }

    /** The copy of a table hashes like the table itself. */
    predicate Faithful(t: Table) {
      Digest(Copied(t)) == Digest(RowsAt(source, t))
    }

    // What these are, row by row.

    /** Every row as the column types leave it, in order. */
    predicate IsCopy(copy: seq<Row>, rows: seq<Row>) {
      |copy| == |rows| && forall i | 0 <= i < |rows| :: copy[i] == normalize(rows[i])
    }

    /** One hash a row, in order. */
    predicate HashesOf(hashes: seq<Row>, rows: seq<Row>) {
      |hashes| == |rows| && forall i | 0 <= i < |rows| :: hashes[i] == canonical(normalize(rows[i]))
    }

    predicate HashAlike(a: seq<Row>, b: seq<Row>) {
      |a| == |b| && forall i | 0 <= i < |a| :: canonical(normalize(a[i])) == canonical(normalize(b[i]))
    }

    /** No row hashes differently for having been normalised before. */
    predicate HashesLikeItsCopy(t: Table) {
      forall row | row in RowsAt(source, t) :: canonical(normalize(normalize(row))) == canonical(normalize(row))
    }

    /** A record of every durable table of the source. */
    ghost predicate RecordsAll(record: Record) {
      && (forall t :: t in record <==> t in order)
      && forall t | t in order :: t in record && HashesOf(record[t], RowsAt(source, t))
    }

    lemma CopiedIs(t: Table, rows: seq<Row>)
      ensures rows == Copied(t) <==> IsCopy(rows, RowsAt(source, t))
    {
    }

    lemma DigestIs(rows: seq<Row>, hashes: seq<Row>)
      ensures hashes == Digest(rows) <==> HashesOf(hashes, rows)
    {
    }

    lemma SameDigestIs(a: seq<Row>, b: seq<Row>)
      ensures Digest(a) == Digest(b) <==> HashAlike(a, b)
    {
      DigestIs(a, Digest(b));
      DigestIs(b, Digest(b));
    }

    lemma FaithfulIs(t: Table)
      ensures Faithful(t) <==> HashesLikeItsCopy(t)
    {
      var rows := RowsAt(source, t);
      SameDigestIs(Copied(t), rows);
      CopiedIs(t, Copied(t));
      if HashAlike(Copied(t), rows) {
        forall row | row in rows ensures canonical(normalize(normalize(row))) == canonical(normalize(row)) {
          var i :| 0 <= i < |rows| && rows[i] == row;
          assert Copied(t)[i] == normalize(row);
        }
      }
    }

    lemma RecordOfAllIs(record: Record)
      ensures record == RecordOf(|order|) ==> RecordsAll(record)
    {
      assert order[..|order|] == order;
      forall t | t in order ensures HashesOf(Digest(RowsAt(source, t)), RowsAt(source, t)) {
        DigestIs(RowsAt(source, t), Digest(RowsAt(source, t)));
      }
    }

    /** All tables are copied, all hashes recorded, and none is in doubt. */
    ghost predicate Transferred(contents: Contents, record: Record) {
      RecordsAll(record) && forall t | t in order :: IsCopy(RowsAt(contents, t), RowsAt(source, t))
    }

    lemma TransferredIs(contents: Contents, record: Record)
      requires record == RecordOf(|order|) && forall t | t in order :: RowsAt(contents, t) == Copied(t)
      ensures Transferred(contents, record)
    {
      RecordOfAllIs(record);
      forall t | t in order ensures IsCopy(RowsAt(contents, t), RowsAt(source, t)) {
        CopiedIs(t, RowsAt(contents, t));
      }
    }

    lemma AllFaithfulIs()
      ensures (forall t | t in order :: Faithful(t)) <==> (forall t | t in order :: HashesLikeItsCopy(t))
    {
      forall t ensures Faithful(t) <==> HashesLikeItsCopy(t) {
        FaithfulIs(t);
      }
    }

    predicate Fresh(t: Table, rows: seq<Row>) {
      rows == [] || rows == RowsAt(seed, t)
    }

    /** The first k tables are there in full, the next may have been started,
        and the rest are as the schema migrations left them. */
    ghost predicate Partway(contents: Contents, k: nat) {
      && k <= |order|
      && (forall j | 0 <= j < k :: RowsAt(contents, order[j]) == Copied(order[j]))
      && (k < |order| ==> Fresh(order[k], RowsAt(contents, order[k])) || RowsAt(contents, order[k]) <= Copied(order[k]))
      && (forall j | k < j < |order| :: Fresh(order[j], RowsAt(contents, order[j])))
    }

    /** The record of the first k tables. */
    function RecordOf(k: nat): Record
      requires k <= |order|
    {
      map t | t in order[..k] :: Digest(RowsAt(source, t))
    }

    /** The tables recorded as verified are a prefix of the order, and each of
        them equals its source. */
    ghost predicate UpTo(snapshot: Snapshot, k: nat) {
      && Partway(snapshot.destination, k)
      && snapshot.recorded == RecordOf(k)
      && (forall j | 0 <= j < k :: Faithful(order[j]))
    }

    ghost predicate Resumable(snapshot: Snapshot) {
      exists k: nat :: UpTo(snapshot, k)
    }

    ghost predicate SameElsewhere(a: Contents, b: Contents, k: nat) {
      forall j | 0 <= j < |order| && j != k :: RowsAt(b, order[j]) == RowsAt(a, order[j])
    }

    /** Replacing the started table by more of its copy. */
    lemma WriteToOne(contents: Contents, k: nat, n: nat)
      requires Distinct(order) && k < |order| && Partway(contents, k) && n <= |Copied(order[k])|
      ensures Partway(contents[order[k] := Copied(order[k])[..n]], k)
      ensures SameElsewhere(contents, contents[order[k] := Copied(order[k])[..n]], k)
    {
    }

    /** A chunk, normalised, is the next part of the copy. */
    lemma NextChunk(t: Table, read: nat, size: nat)
      requires read + size <= |RowsAt(source, t)|
      ensures Copied(t)[..read + size] == Copied(t)[..read] + Normalized(RowsAt(source, t)[read..read + size])
    {
      var rows := RowsAt(source, t);
      var chunk := Normalized(rows[read..read + size]);
      forall i | read <= i < read + size ensures Copied(t)[i] == chunk[i - read] {
        assert rows[read..read + size][i - read] == rows[i];
      }
      var whole, parts := Copied(t)[..read + size], Copied(t)[..read] + chunk;
      assert |whole| == |parts|;
      forall i | 0 <= i < |whole| ensures whole[i] == parts[i] {
      }
    }

    lemma CopiedKeys(t: Table)
      requires Valid()
      ensures KeysOf(Copied(t)) == KeysOf(RowsAt(source, t))
    {
      var rows := RowsAt(source, t);
      forall key ensures key in KeysOf(Copied(t)) <==> key in KeysOf(rows) {
        if key in KeysOf(rows) {
          var i :| 0 <= i < |rows| && rows[i].key == key;
          assert Copied(t)[i] in Copied(t);
        }
      }
    }

    /** A row that references anything is a copy of a source row, in one of the
        tables reached so far. */
    lemma ReferencingRow(contents: Contents, k: nat, i: nat, row: Row) returns (original: Row)
      requires Valid() && Partway(contents, k) && i < |order|
      requires row in RowsAt(contents, order[i]) && row.references != {}
      ensures i <= k && original in RowsAt(source, order[i]) && original.references == row.references
    {
      assert row !in RowsAt(seed, order[i]);
      assert row in Copied(order[i]);
      var r :| 0 <= r < |RowsAt(source, order[i])| && Copied(order[i])[r] == row;
      original := RowsAt(source, order[i])[r];
    }

    /** Every state on the way has all its references, and they all go back. */
    lemma PartwayReferences(contents: Contents, k: nat)
      requires Valid() && Partway(contents, k)
      ensures ReferencesHold(order, contents) && ReferencesGoBack(order, contents)
    {
      forall t, row, reference |
        t in order && row in RowsAt(contents, t) && reference in row.references && CrossTable(order, t, reference)
        ensures reference.key in KeysOf(RowsAt(contents, reference.table))
      {
        var i :| 0 <= i < |order| && order[i] == t;
        var original := ReferencingRow(contents, k, i, row);
        assert reference.table in order[..i];
        var j :| 0 <= j < i && order[j] == reference.table;
        CopiedKeys(reference.table);
      }
      forall i, row, reference |
        0 <= i < |order| && row in RowsAt(contents, order[i]) && reference in row.references
        && CrossTable(order, order[i], reference)
        ensures reference.table in order[..i]
      {
        var original := ReferencingRow(contents, k, i, row);
      }
    }

    /** Clearing the table a resumed copy starts with reaches no other table,
        in particular none that is already verified. */
    lemma NothingPointsAtTheNext(contents: Contents, k: nat)
      requires Valid() && Partway(contents, k) && k < |order|
      ensures NothingPointsAt(order, contents, order[k])
    {
      PartwayReferences(contents, k);
      forall u, row, reference |
        u in order && u != order[k] && row in RowsAt(contents, u) && reference in row.references
        ensures reference.table != order[k]
      {
        var i :| 0 <= i < |order| && order[i] == u;
        var original := ReferencingRow(contents, k, i, row);
        assert order[k] !in order[..i];
        assert CrossTable(order, u, reference) ==> reference.table in order[..i];
      }
    }

    lemma RecordOfNext(k: nat)
      requires k < |order|
      ensures RecordOf(k + 1) == RecordOf(k)[order[k] := Digest(RowsAt(source, order[k]))]
    {
      assert order[..k + 1] == order[..k] + [order[k]];
    }

    lemma RecordOfNextAfter(before: Record, k: nat)
      requires k < |order|
      ensures before + RecordOf(k + 1) == (before + RecordOf(k))[order[k] := Digest(RowsAt(source, order[k]))]
    {
      RecordOfNext(k);
    }

    ghost predicate EmptyFrom(contents: Contents, k: nat) {
      forall j | k <= j < |order| :: RowsAt(contents, order[j]) == []
    }

    lemma PartwayNext(contents: Contents, k: nat)
      requires k < |order| && Partway(contents, k) && RowsAt(contents, order[k]) == Copied(order[k])
      ensures Partway(contents, k + 1)
    {
    }

    /** Recording the table just copied extends the prefix by one. */
    lemma RecordedNext(contents: Contents, recorded: Record, k: nat)
      requires k < |order| && UpTo(Snapshot(contents, recorded), k)
      requires RowsAt(contents, order[k]) == Copied(order[k]) && Faithful(order[k])
      ensures UpTo(Snapshot(contents, recorded[order[k] := Digest(RowsAt(source, order[k]))]), k + 1)
    {
      RecordOfNext(k);
      PartwayNext(contents, k);
    }

    /** Writes to the table after the first k, with nothing recorded. */
    ghost predicate WritesTo(k: nat, recorded: Record, writes: seq<Snapshot>) {
      forall s | s in writes :: Partway(s.destination, k) && s.recorded == recorded
    }

    ghost predicate AllResumable(snapshots: seq<Snapshot>) {
      forall s | s in snapshots :: Resumable(s)
    }

    /** Whatever the writes to the next table leave behind can be resumed. */
    lemma WritesAreResumable(before: seq<Snapshot>, writes: seq<Snapshot>, last: Snapshot, now: Snapshot, k: nat)
      requires UpTo(last, k) && AllResumable(before) && WritesTo(k, last.recorded, writes)
      requires Partway(now.destination, k) && now.recorded == last.recorded
      ensures AllResumable(before + writes) && UpTo(now, k)
    {
      forall s | s in before + writes ensures Resumable(s) {
        if s !in before {
          assert UpTo(s, k);
        }
      }
    }

    lemma SkippedWhenRecorded(i: nat, done: nat)
      requires Valid() && i < |order| && i <= done <= |order|
      ensures order[i] in RecordOf(done) <==> i < done
    {
      if order[i] in RecordOf(done) {
        var j :| 0 <= j < done && order[j] == order[i];
      }
    }

    lemma Complete(snapshot: Snapshot, done: nat)
      requires UpTo(snapshot, done) && done >= |order|
      ensures snapshot.recorded == RecordOf(|order|)
      ensures forall t | t in order :: Faithful(t) && RowsAt(snapshot.destination, t) == Copied(t)
    {
      assert done == |order|;
    }

    ghost predicate FaithfulUpTo(k: nat) {
      k <= |order| && forall j | 0 <= j < k :: Faithful(order[j])
    }

    lemma RecordOfNothing(before: Record)
      ensures before + RecordOf(0) == before && RecordOf(0) == map[]
    {
    }

    lemma AllEmpty(contents: Contents)
      requires forall t | t in order :: RowsAt(contents, t) == []
      ensures Partway(contents, 0) && EmptyFrom(contents, 0)
    {
    }

    lemma AllCopied(contents: Contents)
      requires Partway(contents, |order|)
      ensures forall t | t in order :: RowsAt(contents, t) == Copied(t)
    {
    }

    predicate SameDigest(contents: Contents, t: Table) {
      Digest(RowsAt(source, t)) == Digest(RowsAt(contents, t))
    }

    /** What a verification asks of one table. */
    predicate Agrees(contents: Contents, expected: Record, t: Table) {
      SameDigest(contents, t) && (t in expected ==> expected[t] == Digest(RowsAt(source, t)))
    }

    /** Both sides hash alike row by row, and like what is expected of the table. */
    predicate AgreesRowByRow(contents: Contents, expected: Record, t: Table) {
      && HashAlike(RowsAt(source, t), RowsAt(contents, t))
      && (t in expected ==> HashesOf(expected[t], RowsAt(source, t)))
    }

    lemma AgreesIs(contents: Contents, expected: Record, t: Table)
      ensures Agrees(contents, expected, t) <==> AgreesRowByRow(contents, expected, t)
      ensures SameDigest(contents, t) <==> HashAlike(RowsAt(source, t), RowsAt(contents, t))
    {
      SameDigestIs(RowsAt(source, t), RowsAt(contents, t));
      if t in expected {
        DigestIs(RowsAt(source, t), expected[t]);
      }
    }

    /** What verification says of table k when it is the first not to agree. */
    ghost function Mismatch(contents: Contents, k: int): CopyError
      requires 0 <= k < |order|
    {
      if HashAlike(RowsAt(source, order[k]), RowsAt(contents, order[k])) then SourceChanged(order[k])
      else VerificationMismatch(order[k])
    }

    /** A completed copy passes its verification. */
    lemma CompletedCopyVerifies(contents: Contents)
      requires forall t | t in order :: Faithful(t) && RowsAt(contents, t) == Copied(t)
      ensures forall t | t in order :: Agrees(contents, RecordOf(|order|), t)
    {
      forall t | t in order ensures Agrees(contents, RecordOf(|order|), t) {
        assert Faithful(t);
      }
    }

    /** No durable table has rows. */
    ghost predicate NoRows(contents: Contents) {
      forall t | t in order :: RowsAt(contents, t) == []
    }

    /** A record of the first tables, all of them empty in the source. */
    ghost predicate RecordsNoRows(recorded: Record) {
      exists k: nat :: IsRecordOf(recorded, k) && forall j | 0 <= j < k :: RowsAt(source, order[j]) == []
    }

    ghost predicate IsRecordOf(recorded: Record, k: nat) {
      k <= |order| && recorded == RecordOf(k)
    }

    /** A record that outlives a reset can be resumed from exactly when none of
        the tables recorded had any rows to lose: otherwise the next copy would
        skip a table that is now empty. */
    lemma ResetIsResumableExactly(snapshot: Snapshot)
      requires Valid() && NoRows(snapshot.destination)
      ensures Resumable(snapshot) <==> RecordsNoRows(snapshot.recorded)
    {
      if RecordsNoRows(snapshot.recorded) {
        NothingToLose(snapshot);
      }
      if Resumable(snapshot) {
        var k: nat :| UpTo(snapshot, k);
        NothingWasLost(snapshot, k);
        assert IsRecordOf(snapshot.recorded, k);
      }
    }

    lemma NothingToLose(snapshot: Snapshot)
      requires Valid() && NoRows(snapshot.destination) && RecordsNoRows(snapshot.recorded)
      ensures Resumable(snapshot)
    {
      var k: nat :| IsRecordOf(snapshot.recorded, k) && forall j | 0 <= j < k :: RowsAt(source, order[j]) == [];
      forall j | 0 <= j < k ensures Faithful(order[j]) && RowsAt(snapshot.destination, order[j]) == Copied(order[j]) {
        assert Copied(order[j]) == [];
      }
      assert UpTo(snapshot, k);
    }

    lemma NothingWasLost(snapshot: Snapshot, k: nat)
      requires NoRows(snapshot.destination) && UpTo(snapshot, k)
      ensures forall j | 0 <= j < k :: RowsAt(source, order[j]) == []
    {
      forall j | 0 <= j < k ensures RowsAt(source, order[j]) == [] {
        assert |Copied(order[j])| == |RowsAt(source, order[j])|;
      }
    }

    /** The disk right after a reset: nothing in the tables, the old record. */
    ghost predicate ResetIn(writes: seq<Snapshot>, recorded: Record) {
      exists s :: s in writes && s.recorded == recorded && NoRows(s.destination)
    }

    lemma ResetInMore(writes: seq<Snapshot>, more: seq<Snapshot>, recorded: Record)
      requires ResetIn(writes, recorded) && writes <= more
      ensures ResetIn(more, recorded)
    {
      var s :| s in writes && s.recorded == recorded && NoRows(s.destination);
      assert s in more;
    }

    lemma ResetIsACrashPoint(writes: seq<Snapshot>, recorded: Record)
      requires Valid() && ResetIn(writes, recorded)
      ensures AllResumable(writes) ==> RecordsNoRows(recorded)
    {
      var s :| s in writes && s.recorded == recorded && NoRows(s.destination);
      ResetIsResumableExactly(s);
    }

    /** When normalising twice changes nothing that is hashed, no copy can fail
        its verification. */
    lemma StableNormalizationIsFaithful(t: Table)
      requires forall row :: canonical(normalize(normalize(row))) == canonical(normalize(row))
      ensures Faithful(t)
    {
      var rows := RowsAt(source, t);
      forall i | 0 <= i < |rows| ensures Digest(Copied(t))[i] == Digest(rows)[i] {
      }
    }
  }

  class CopyEngine {
    const transfer: Transfer
    var destination: Contents
    /** Whether the destination has tables at all. */
    var migrated: bool
    /** The `tables` of the plan file. */
    var recorded: Record
    /** The disk after every persisted write so far. */
    ghost var history: seq<Snapshot>

    ghost predicate Valid()
      reads this
    {
      && transfer.Valid()
      && ReferencesHold(transfer.order, destination) && ReferencesGoBack(transfer.order, destination)
      && (!migrated ==> transfer.NoRows(destination) && recorded == map[])
      && forall s | s in history :: ReferencesHold(transfer.order, s.destination)
    }

    /** No crash so far could have left anything a resumed copy cannot use. */
    ghost predicate Intact()
      reads this
    {
      && transfer.Resumable(Snapshot(destination, recorded))
      && transfer.AllResumable(history)
    }

    /** The destination of a new plan: no tables, nothing recorded. */
    constructor (transfer: Transfer)
      requires transfer.Valid()
      ensures Valid() && Intact() && this.transfer == transfer && !migrated && recorded == map[]
    {
      this.transfer := transfer;
      destination, migrated, recorded, history := map[], false, map[], [];
      new;
      assert transfer.UpTo(Snapshot(destination, recorded), 0);
    }

    /** What a crash left on disk, taken up again. */
    constructor Resumed(transfer: Transfer, disk: Snapshot)
      requires transfer.Valid() && transfer.Resumable(disk)
      ensures Valid() && Intact() && this.transfer == transfer && migrated
      ensures destination == disk.destination && recorded == disk.recorded
    {
      this.transfer := transfer;
      destination, migrated, recorded, history := disk.destination, true, disk.recorded, [];
      new;
      ghost var k :| transfer.UpTo(disk, k);
      transfer.PartwayReferences(destination, k);
    }

    // -------------------------------------------------------------------
    // Persisted writes

    method DeleteRows(t: Table)
      requires Valid() && NothingPointsAt(transfer.order, destination, t)
      modifies `destination, `history
      ensures Valid() && destination == old(destination)[t := []]
      ensures history == old(history) + [Snapshot(destination, recorded)]
    {
      DeletingKeepsReferences(transfer.order, destination, t);
      destination := destination[t := []];
      history := history + [Snapshot(destination, recorded)];
    }

    method InsertRows(t: Table, rows: seq<Row>, ghost k: nat)
      requires Valid() && migrated && k < |transfer.order| && transfer.order[k] == t
      requires transfer.Partway(destination[t := RowsAt(destination, t) + rows], k)
      modifies `destination, `history
      ensures Valid() && destination == old(destination)[t := RowsAt(old(destination), t) + rows]
      ensures history == old(history) + [Snapshot(destination, recorded)]
    {
      destination := destination[t := RowsAt(destination, t) + rows];
      transfer.PartwayReferences(destination, k);
      history := history + [Snapshot(destination, recorded)];
    }

    method RecordTable(t: Table, digest: seq<Row>)
      requires Valid() && migrated
      modifies `recorded, `history
      ensures Valid() && recorded == old(recorded)[t := digest]
      ensures history == old(history) + [Snapshot(destination, recorded)]
    {
      recorded := recorded[t := digest];
      history := history + [Snapshot(destination, recorded)];
    }

    // -------------------------------------------------------------------
    // Copying

    method InsertChunk(k: nat, read: nat, size: nat)
      requires Valid() && migrated && k < |transfer.order| && transfer.Partway(destination, k)
      requires read + size <= |RowsAt(transfer.source, transfer.order[k])|
      requires RowsAt(destination, transfer.order[k]) == transfer.Copied(transfer.order[k])[..read]
      modifies `destination, `history
      ensures Valid() && transfer.Partway(destination, k)
      ensures RowsAt(destination, transfer.order[k]) == transfer.Copied(transfer.order[k])[..read + size]
      ensures transfer.SameElsewhere(old(destination), destination, k)
      ensures history == old(history) + [Snapshot(destination, recorded)]
    {
      var t := transfer.order[k];
      var chunk := transfer.Normalized(RowsAt(transfer.source, t)[read..read + size]);
      transfer.NextChunk(t, read, size);
      transfer.WriteToOne(destination, k, read + size);
      InsertRows(t, chunk, k);
    }

    /** Reads the source 250 rows at a time and inserts each chunk; a short
        chunk is the last. */
    method InsertChunks(k: nat)
      requires Valid() && migrated && k < |transfer.order| && transfer.Partway(destination, k)
      requires RowsAt(destination, transfer.order[k]) == []
      modifies `destination, `history
      ensures Valid() && transfer.Partway(destination, k)
      ensures RowsAt(destination, transfer.order[k]) == transfer.Copied(transfer.order[k])
      ensures transfer.IsCopy(RowsAt(destination, transfer.order[k]), RowsAt(transfer.source, transfer.order[k]))
      ensures transfer.SameElsewhere(old(destination), destination, k)
      ensures old(history) <= history
      ensures |history| == |old(history)| + (|RowsAt(transfer.source, transfer.order[k])| + 249) / 250
      ensures transfer.WritesTo(k, recorded, history[|old(history)|..])
    {
      var t := transfer.order[k];
      var rows := RowsAt(transfer.source, t);
      var read, more := 0, true;
      while more
        invariant read <= |rows| && (!more ==> read == |rows|) && (more ==> read % 250 == 0)
        invariant |history| == |old(history)| + (read + 249) / 250
        invariant Valid() && transfer.Partway(destination, k)
        invariant RowsAt(destination, t) == transfer.Copied(t)[..read]
        invariant transfer.SameElsewhere(old(destination), destination, k)
        invariant old(history) <= history
        invariant transfer.WritesTo(k, recorded, history[|old(history)|..])
        decreases if more then |rows| - read + 1 else 0
      {
        var size := if |rows| - read < CHUNK then |rows| - read else CHUNK;
        if size > 0 {
          InsertChunk(k, read, size);
          read := read + size;
        }
        more := size == CHUNK;
      }
      assert transfer.Copied(t)[..|rows|] == transfer.Copied(t);
      transfer.CopiedIs(t, RowsAt(destination, t));
    }

    /** `copyTable`. Nothing but the table itself changes. */
    method CopyTable(k: nat, clear: bool) returns (r: Result<seq<Row>, CopyError>)
      requires Valid() && migrated && k < |transfer.order| && transfer.Partway(destination, k)
      requires clear || RowsAt(destination, transfer.order[k]) == []
      modifies `destination, `history
      ensures Valid() && transfer.Partway(destination, k)
      ensures RowsAt(destination, transfer.order[k]) == transfer.Copied(transfer.order[k])
      ensures transfer.SameElsewhere(old(destination), destination, k)
      ensures r == if transfer.Faithful(transfer.order[k])
                   then Ok(transfer.Digest(RowsAt(transfer.source, transfer.order[k])))
                   else Err(CopyMismatch(transfer.order[k]))
      ensures transfer.IsCopy(RowsAt(destination, transfer.order[k]), RowsAt(transfer.source, transfer.order[k]))
      ensures r.Ok? <==> transfer.HashesLikeItsCopy(transfer.order[k])
      ensures r.Ok? ==> transfer.HashesOf(r.value, RowsAt(transfer.source, transfer.order[k]))
      ensures old(history) <= history
      ensures transfer.WritesTo(k, recorded, history[|old(history)|..])
    {
      var t := transfer.order[k];
      transfer.FaithfulIs(t);
      transfer.DigestIs(RowsAt(transfer.source, t), transfer.Digest(RowsAt(transfer.source, t)));
      if clear {
        transfer.NothingPointsAtTheNext(destination, k);
        DeleteRows(t);
      }
      InsertChunks(k);
      var source := transfer.Digest(RowsAt(transfer.source, t));
      var copied := transfer.Digest(RowsAt(destination, t));
      if source != copied {
        return Err(CopyMismatch(t));
      }
      r := Ok(source);
    }

    /** Empties the tables from the last to the first, then the ephemeral ones. */
    method ResetDestinationTables()
      requires Valid()
      modifies `destination, `history
      ensures Valid() && old(history) <= history
      ensures forall t | t in transfer.order || t in ["cache", "cache_locks", "jobs", "sessions"] ::
                RowsAt(destination, t) == []
      ensures transfer.order != [] ==> transfer.ResetIn(history[|old(history)|..], recorded)
    {
      EmptyTables();
      ghost var emptied := history;
      EmptyEphemeralTables();
      if transfer.order != [] {
        StillResetIn(old(history), emptied, history, recorded);
      }
    }

    method EmptyTables()
      requires Valid()
      modifies `destination, `history
      ensures Valid() && old(history) <= history
      ensures transfer.NoRows(destination)
      ensures transfer.order != [] ==> transfer.ResetIn(history[|old(history)|..], recorded)
    {
      var left := |transfer.order|;
      while left > 0
        invariant 0 <= left <= |transfer.order| && Valid() && old(history) <= history
        invariant forall j | left <= j < |transfer.order| :: RowsAt(destination, transfer.order[j]) == []
        invariant left < |transfer.order| ==>
                    |history| > |old(history)| && history[|history| - 1] == Snapshot(destination, recorded)
      {
        NothingPointsAtTheLast(transfer.order, destination, left);
        left := left - 1;
        DeleteRows(transfer.order[left]);
      }
      if transfer.order != [] {
        assert history[|old(history)|..][|history| - 1 - |old(history)|] == Snapshot(destination, recorded);
      }
    }

    /** Tables the destination does not have are left out. */
    method EmptyEphemeralTables()
      requires Valid() && transfer.NoRows(destination)
      modifies `destination, `history
      ensures Valid() && old(history) <= history && transfer.NoRows(destination)
      ensures forall t | t in EPHEMERAL :: RowsAt(destination, t) == []
    {
      for i := 0 to |EPHEMERAL|
        invariant Valid() && old(history) <= history && transfer.NoRows(destination)
        invariant forall j | 0 <= j < i :: RowsAt(destination, EPHEMERAL[j]) == []
      {
        if EPHEMERAL[i] in destination {
          DeleteRows(EPHEMERAL[i]);
        }
      }
    }

    /** `prepareDestination`: the schema migrations seed the tables they
        create, and change nothing the second time. */
    method PrepareDestination(isResume: bool) returns (ok: bool)
      requires Valid()
      modifies `destination, `migrated, `history
      ensures ok <==> (isResume || !old(migrated))
      ensures !ok ==> destination == old(destination) && migrated == old(migrated) && history == old(history)
      ensures ok ==> migrated
      ensures old(migrated) ==> destination == old(destination) && history == old(history)
      ensures ok && !old(migrated) ==>
                forall t | t in transfer.order :: RowsAt(destination, t) == RowsAt(transfer.seed, t)
      ensures !old(migrated) ==> transfer.Partway(destination, 0)
                                 && history == old(history) + [Snapshot(destination, recorded)]
      ensures Valid()
    {
      if !isResume && migrated {
        return false;
      }
      if !migrated {
        destination := map t | t in transfer.order + EPHEMERAL :: RowsAt(transfer.seed, t);
        migrated := true;
        transfer.PartwayReferences(destination, 0);
        history := history + [Snapshot(destination, recorded)];
      }
      ok := true;
    }

    /** The progress callback after table k. */
    method Progress(k: nat, digest: seq<Row>)
      requires Valid() && migrated && Intact() && k < |transfer.order|
               && transfer.UpTo(Snapshot(destination, recorded), k)
      requires RowsAt(destination, transfer.order[k]) == transfer.Copied(transfer.order[k])
      requires transfer.Faithful(transfer.order[k])
               && digest == transfer.Digest(RowsAt(transfer.source, transfer.order[k]))
      modifies `recorded, `history
      ensures Valid() && Intact() && old(history) <= history
      ensures recorded == old(recorded)[transfer.order[k] := digest]
      ensures transfer.UpTo(Snapshot(destination, recorded), k + 1)
    {
      transfer.RecordedNext(destination, recorded, k);
      RecordTable(transfer.order[k], digest);
    }

    method CopyPending(k: nat) returns (r: Result<seq<Row>, CopyError>)
      requires Valid() && migrated && Intact() && k < |transfer.order|
               && transfer.UpTo(Snapshot(destination, recorded), k)
      modifies `destination, `history
      ensures Valid() && Intact() && old(history) <= history
      ensures transfer.UpTo(Snapshot(destination, recorded), k)
      ensures RowsAt(destination, transfer.order[k]) == transfer.Copied(transfer.order[k])
      ensures r == if transfer.Faithful(transfer.order[k])
                   then Ok(transfer.Digest(RowsAt(transfer.source, transfer.order[k])))
                   else Err(CopyMismatch(transfer.order[k]))
    {
      r := CopyTable(k, true);
      ghost var writes := history[|old(history)|..];
      assert history == old(history) + writes;
      transfer.WritesAreResumable(
        old(history), writes, Snapshot(old(destination), recorded), Snapshot(destination, recorded), k);
    }

    /** One table of the copy, recorded when its copy hashes like it. */
    method CopyNext(k: nat) returns (r: Result<seq<Row>, CopyError>)
      requires Valid() && migrated && Intact() && k < |transfer.order|
               && transfer.UpTo(Snapshot(destination, recorded), k)
      modifies `destination, `recorded, `history
      ensures Valid() && Intact() && old(history) <= history
      ensures r.Ok? <==> transfer.Faithful(transfer.order[k])
      ensures r.Ok? ==> && transfer.UpTo(Snapshot(destination, recorded), k + 1)
                        && recorded == old(recorded)[transfer.order[k] := r.value]
      ensures r.Err? ==> && transfer.UpTo(Snapshot(destination, recorded), k)
                         && r.error == CopyMismatch(transfer.order[k]) && recorded == old(recorded)
    {
      r := CopyPending(k);
      if r.Ok? {
        Progress(k, r.value);
      }
    }

    /** A copy from Planned, or resumed from Copying: whatever persisted write
        it stops at, the tables recorded are a prefix of the order and equal to
        the source, so the next resume can go on from there; and it completes
        exactly when every table hashes like its copy. */
    method Copy(isResume: bool) returns (r: Result<Record, CopyError>)
      requires Valid() && Intact()
      modifies this
      ensures Valid() && Intact() && old(history) <= history
      ensures !isResume && old(migrated) ==>
                r == Err(DestinationNotEmpty) && destination == old(destination) && recorded == old(recorded)
      ensures isResume || !old(migrated) ==>
                (r.Ok? <==> forall t | t in transfer.order :: transfer.Faithful(t))
      ensures r.Ok? ==> && r.value == recorded == transfer.RecordOf(|transfer.order|)
                        && forall t | t in transfer.order :: RowsAt(destination, t) == transfer.Copied(t)
      ensures r.Err? && (isResume || !old(migrated)) ==>
                exists k: nat | k < |transfer.order| ::
                  && r.error == CopyMismatch(transfer.order[k]) && !transfer.Faithful(transfer.order[k])
                  && transfer.UpTo(Snapshot(destination, recorded), k)
      ensures isResume || !old(migrated) ==>
                (r.Ok? <==> forall t | t in transfer.order :: transfer.HashesLikeItsCopy(t))
      ensures r.Ok? ==> recorded == r.value && transfer.Transferred(destination, r.value)
    {
      transfer.AllFaithfulIs();
      var ok := PrepareDestination(isResume);
      if !ok {
        return Err(DestinationNotEmpty);
      }
      if !old(migrated) {
        assert transfer.RecordOf(0) == map[];
        assert transfer.UpTo(Snapshot(destination, recorded), 0);
      }
      r := CopyTables();
      if r.Ok? {
        transfer.TransferredIs(destination, r.value);
      }
    }

    /** The copying loop: recorded tables are skipped. */
    method CopyTables() returns (r: Result<Record, CopyError>)
      requires Valid() && migrated && Intact()
      modifies `destination, `recorded, `history
      ensures Valid() && Intact() && old(history) <= history
      ensures r.Ok? <==> forall t | t in transfer.order :: transfer.Faithful(t)
      ensures r.Ok? ==> && r.value == recorded == transfer.RecordOf(|transfer.order|)
                        && forall t | t in transfer.order :: RowsAt(destination, t) == transfer.Copied(t)
      ensures r.Err? ==> exists k: nat | k < |transfer.order| ::
                           && r.error == CopyMismatch(transfer.order[k]) && !transfer.Faithful(transfer.order[k])
                           && transfer.UpTo(Snapshot(destination, recorded), k)
    {
      ghost var done: nat :| transfer.UpTo(Snapshot(destination, recorded), done);
      var completed := recorded;
      for i := 0 to |transfer.order|
        invariant Valid() && Intact() && old(history) <= history && completed == recorded
        invariant i <= done && transfer.UpTo(Snapshot(destination, recorded), done)
      {
        var t := transfer.order[i];
        transfer.SkippedWhenRecorded(i, done);
        if t in completed {
          continue;
        }
        var result := CopyNext(i);
        if result.Err? {
          return Err(result.error);
        }
        completed := completed[t := result.value];
        done := done + 1;
      }
      transfer.Complete(Snapshot(destination, recorded), done);
      r := Ok(completed);
    }

    /** One table of a copy into an emptied destination. */
    method CopyEmptied(k: nat, ghost before: Record) returns (r: Result<seq<Row>, CopyError>)
      requires Valid() && migrated && k < |transfer.order| && transfer.Partway(destination, k)
      requires transfer.EmptyFrom(destination, k)
      requires recorded == before + transfer.RecordOf(k)
      modifies `destination, `recorded, `history
      ensures Valid() && old(history) <= history
      ensures transfer.EmptyFrom(destination, k + 1)
      ensures r == if transfer.Faithful(transfer.order[k])
                   then Ok(transfer.Digest(RowsAt(transfer.source, transfer.order[k])))
                   else Err(CopyMismatch(transfer.order[k]))
      ensures r.Ok? ==> transfer.Partway(destination, k + 1) && recorded == before + transfer.RecordOf(k + 1)
      ensures r.Err? ==> recorded == old(recorded)
    {
      r := CopyTable(k, false);
      if r.Ok? {
        transfer.PartwayNext(destination, k);
        RecordTable(transfer.order[k], r.value);
        transfer.RecordOfNextAfter(before, k);
      }
    }

    /** A copy restarted from Copied or Failed: the destination is emptied, but
        the plan keeps its old record until the new one is complete. */
    method RestartCopy() returns (r: Result<Record, CopyError>)
      requires Valid()
      modifies this
      ensures Valid() && migrated && old(history) <= history
      ensures r.Ok? <==> forall t | t in transfer.order :: transfer.Faithful(t)
      ensures r.Ok? ==> && r.value == transfer.RecordOf(|transfer.order|) && recorded == old(recorded) + r.value
                        && forall t | t in transfer.order :: RowsAt(destination, t) == transfer.Copied(t)
      ensures r.Err? ==> exists k: nat | k < |transfer.order| ::
                           && r.error == CopyMismatch(transfer.order[k]) && !transfer.Faithful(transfer.order[k])
                           && recorded == old(recorded) + transfer.RecordOf(k)
      ensures transfer.order != [] ==> transfer.ResetIn(history[|old(history)|..], old(recorded))
      ensures transfer.order != [] && transfer.AllResumable(history[|old(history)|..]) ==>
                transfer.RecordsNoRows(old(recorded))
      ensures r.Ok? <==> forall t | t in transfer.order :: transfer.HashesLikeItsCopy(t)
      ensures r.Ok? ==> transfer.Transferred(destination, r.value)
    {
      transfer.AllFaithfulIs();
      Prepared();
      ghost var prepared := history;
      r := ResetAndCopy();
      if r.Ok? {
        transfer.TransferredIs(destination, r.value);
      }
      if transfer.order != [] {
        ResetInLonger(old(history), prepared, history, old(recorded));
        transfer.ResetIsACrashPoint(history[|old(history)|..], old(recorded));
      }
    }

    method ResetAndCopy() returns (r: Result<Record, CopyError>)
      requires Valid() && migrated
      modifies `destination, `recorded, `history
      ensures Valid() && old(history) <= history
      ensures r.Ok? <==> forall t | t in transfer.order :: transfer.Faithful(t)
      ensures r.Ok? ==> && r.value == transfer.RecordOf(|transfer.order|) && recorded == old(recorded) + r.value
                        && forall t | t in transfer.order :: RowsAt(destination, t) == transfer.Copied(t)
      ensures r.Err? ==> exists k: nat | k < |transfer.order| ::
                           && r.error == CopyMismatch(transfer.order[k]) && !transfer.Faithful(transfer.order[k])
                           && recorded == old(recorded) + transfer.RecordOf(k)
      ensures transfer.order != [] ==> transfer.ResetIn(history[|old(history)|..], old(recorded))
    {
      ResetDestinationTables();
      transfer.AllEmpty(destination);
      ghost var reset := history;
      ghost var done;
      r, done := CopyAllEmptied();
      if r.Ok? {
        transfer.AllCopied(destination);
      }
      if transfer.order != [] {
        StillResetIn(old(history), reset, history, old(recorded));
      }
    }

    lemma StillResetIn(a: seq<Snapshot>, b: seq<Snapshot>, c: seq<Snapshot>, recorded: Record)
      requires a <= b <= c && transfer.ResetIn(b[|a|..], recorded)
      ensures transfer.ResetIn(c[|a|..], recorded)
    {
      assert b[|a|..] <= c[|a|..];
      transfer.ResetInMore(b[|a|..], c[|a|..], recorded);
    }

    /** A restart prepares its destination like a resumed copy, which never fails. */
    method Prepared()
      requires Valid()
      modifies `destination, `migrated, `history
      ensures Valid() && migrated && old(history) <= history
    {
      var ok := PrepareDestination(true);
    }

    lemma ResetInLonger(a: seq<Snapshot>, b: seq<Snapshot>, c: seq<Snapshot>, recorded: Record)
      requires a <= b <= c && transfer.ResetIn(c[|b|..], recorded)
      ensures transfer.ResetIn(c[|a|..], recorded)
    {
      var s :| s in c[|b|..] && s.recorded == recorded && transfer.NoRows(s.destination);
      var i :| 0 <= i < |c| - |b| && c[|b|..][i] == s;
      assert c[|a|..][|b| - |a| + i] == s;
    }

    /** The copying loop into an emptied destination, as far as it gets. */
    method CopyAllEmptied() returns (r: Result<Record, CopyError>, ghost done: nat)
      requires Valid() && migrated && transfer.Partway(destination, 0) && transfer.EmptyFrom(destination, 0)
      modifies `destination, `recorded, `history
      ensures Valid() && old(history) <= history
      ensures done <= |transfer.order| && recorded == old(recorded) + transfer.RecordOf(done)
      ensures transfer.FaithfulUpTo(done)
      ensures r.Ok? ==> && done == |transfer.order| && r.value == transfer.RecordOf(done)
                        && transfer.Partway(destination, done)
      ensures r.Err? ==> && done < |transfer.order| && !transfer.Faithful(transfer.order[done])
                         && r.error == CopyMismatch(transfer.order[done])
    {
      done := 0;
      ghost var before := recorded;
      var completed: Record := map[];
      transfer.RecordOfNothing(before);
      for i := 0 to |transfer.order|
        invariant Valid() && old(history) <= history && done == i
        invariant transfer.Partway(destination, i) && transfer.EmptyFrom(destination, i)
        invariant transfer.FaithfulUpTo(i)
        invariant completed == transfer.RecordOf(i) && recorded == before + transfer.RecordOf(i)
      {
        var result := CopyEmptied(i, before);
        if result.Err? {
          return Err(result.error), i;
        }
        transfer.RecordOfNext(i);
        completed := completed[transfer.order[i] := result.value];
        done := i + 1;
      }
      r := Ok(completed);
    }

    /** `verify`: every table hashes the same on both sides, row by row, and like
        what was recorded when it was copied. */
    method Verify(expected: Record) returns (r: Result<Record, CopyError>)
      requires Valid()
      ensures r.Ok? <==> forall t | t in transfer.order :: transfer.AgreesRowByRow(destination, expected, t)
      ensures r.Ok? ==> r.value == transfer.RecordOf(|transfer.order|) && transfer.RecordsAll(r.value)
      ensures r.Err? ==> exists k :: FailsFirst(expected, k) && r.error == transfer.Mismatch(destination, k)
    {
      r := VerifyTables(expected);
      if r.Ok? {
        assert AgreeBefore(expected, |transfer.order|);
      }
      transfer.RecordOfAllIs(transfer.RecordOf(|transfer.order|));
    }

    /** Table k is the first that does not agree. */
    ghost predicate FailsFirst(expected: Record, k: int)
      reads this
    {
      && 0 <= k < |transfer.order| && AgreeBefore(expected, k)
      && !transfer.AgreesRowByRow(destination, expected, transfer.order[k])
    }

    ghost predicate AgreeBefore(expected: Record, k: int)
      requires k <= |transfer.order|
      reads this
    {
      forall j | 0 <= j < k :: transfer.AgreesRowByRow(destination, expected, transfer.order[j])
    }

    /** Its loop, which stops at the first table that does not agree. */
    method VerifyTables(expected: Record) returns (r: Result<Record, CopyError>)
      requires Valid()
      ensures r.Ok? ==> AgreeBefore(expected, |transfer.order|) && r.value == transfer.RecordOf(|transfer.order|)
      ensures r.Err? ==> exists k :: FailsFirst(expected, k) && r.error == transfer.Mismatch(destination, k)
    {
      var verified: Record := map[];
      for i := 0 to |transfer.order|
        invariant AgreeBefore(expected, i) && verified == transfer.RecordOf(i)
      {
        var t := transfer.order[i];
        var result := transfer.Digest(RowsAt(transfer.source, t));
        transfer.AgreesIs(destination, expected, t);
        if result != transfer.Digest(RowsAt(destination, t)) {
          assert FailsFirst(expected, i);
          return Err(VerificationMismatch(t));
        }
        if t in expected && expected[t] != result {
          assert FailsFirst(expected, i);
          return Err(SourceChanged(t));
        }
        transfer.RecordOfNext(i);
        verified := verified[t := result];
      }
      r := Ok(verified);
    }
  }
}
