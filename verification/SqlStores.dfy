/** The SQL store: a transaction per position-group that refines appending the group and folding the position. */
module SqlStores {
  import opened Base
  import opened Positions
  import opened Streams
  import opened Store
  import opened Decimal
  import opened Sql

  datatype Read = Found(position: Option<Position>) | Failed

  /** Block numbers as decimal text. */
  const BLOCK_CODEC: Codec := Codec(
    (p: Position) => Render(p.key),
    (s: string) => match Parse(s) case Some(n) => Some(FromSortKey(n)) case None => None)

  function CreateTables(db: Db, schema: Schema): Db {
    Db(if db.progress.Absent? then Current(map[]) else db.progress,
       if schema.table in db.tables then db.tables else db.tables[schema.table := []])
  }

  function AddPositionColumn(rows: map<string, Option<int>>): map<string, Progress> {
    map t | t in rows :: Progress(rows[t], None)
  }

  function BackfillPosition(rows: map<string, Progress>): map<string, Progress> {
    map t | t in rows :: if rows[t].position.Some? || rows[t].lastBlock.None? then rows[t]
                         else rows[t].(position := Some(RenderInt(rows[t].lastBlock.value)))
  }

  function Migrated(p: ProgressTable): ProgressTable {
    if p.Legacy? then Current(BackfillPosition(AddPositionColumn(p.old_rows))) else p
  }

  function LastBlock(p: ProgressTable, table: string): Option<Option<int>> {
    match p
    case Absent => None
    case Legacy(rows) => if table in rows then Some(rows[table]) else None
    case Current(rows) => if table in rows then Some(rows[table].lastBlock) else None
  }

  function Decoded(codec: Codec, text: string): Read {
    var p := codec.decode(text);
    if p.None? then Failed else Found(p)
  }

  function ResumeFromLastBlock(codec: Codec, p: ProgressTable, table: string): Read {
    match LastBlock(p, table)
    case None => Found(None)
    case Some(None) => Failed
    case Some(Some(b)) => Decoded(codec, RenderInt(b))
  }

  function StoredPosition(codec: Codec, db: Db, table: string): Read {
    match db.progress
    case Absent => Found(None)
    case Legacy(_) => ResumeFromLastBlock(codec, db.progress, table)
    case Current(rows) =>
      if table !in rows then Found(None)
      else if rows[table].position.Some? then Decoded(codec, rows[table].position.value)
      else ResumeFromLastBlock(codec, db.progress, table)
  }

  /** The previous position as the write transaction reads it: a NULL cell is taken for "no previous". */
  function Previous(codec: Codec, rows: map<string, Progress>, table: string): Read {
    if table !in rows || rows[table].position.None? then Found(None) else Decoded(codec, rows[table].position.value)
  }

  function Advanced(codec: Codec, rows: map<string, Progress>, table: string, p: Position): Option<map<string,
                    Progress>> {
    match Previous(codec, rows, table)
    case Failed => None
    case Found(prev) =>
      var next := Advance(prev, p);
      if next.key > I64_MAX then None else Some(rows[table := Progress(Some(next.key), Some(codec.encode(next)))])
  }

  /** What one committed write makes of the database; `None` where it must fail. */
  function Written(codec: Codec, schema: Schema, db: Db, g: Group): Option<Db> {
    var base := CreateTables(db, schema);
    var migrated := Migrated(base.progress);
    if g.position.key > I64_MAX || !AllShaped(schema, g.rows) then None
    else
      match Advanced(codec, migrated.rows, schema.table, g.position)
      case None => None
      case Some(rows) =>
        Some(Appended(Db(Current(rows), base.tables), schema.table, Images(Tag(g.position.key, g.rows))))
  }

  /** The rows stored for a schema's table. */
  function RowsOf(db: Db, table: string): seq<seq<Value>> {
    if table in db.tables then db.tables[table] else []
  }

  /** A stored row: its sort key, then the event columns. */
  predicate IsRow(row: seq<Value>) {
    row != [] && row[0].Integer? && row[0].number >= 0
  }

  function Stored(rows: seq<seq<Value>>): seq<Keyed<Row>>
    requires forall row | row in rows :: IsRow(row)
  {
    seq(|rows|, i requires 0 <= i < |rows| && IsRow(rows[i]) => Keyed(rows[i][0].number, Row(rows[i][1..])))
  }

  function Place<T>(es: seq<Keyed<T>>, e: Keyed<T>): seq<Keyed<T>> {
    if es == [] || es[|es| - 1].key <= e.key then es + [e]
    else Place(es[..|es| - 1], e) + [es[|es| - 1]]
  }

  /** Ascending by key, insertion order among equal keys (the tie-breaker column). */
  function Sorted<T>(es: seq<Keyed<T>>): seq<Keyed<T>> {
    if es == [] then [] else Place(Sorted(es[..|es| - 1]), es[|es| - 1])
  }

  /** Stored rows up to a position, in key order. */
  function Replay(db: Db, table: string, upTo: Position): Option<seq<Keyed<Row>>>
    requires forall row | row in RowsOf(db, table) :: IsRow(row)
  {
    if upTo.key > I64_MAX then None
    else if table !in db.tables then Some([])
    else Some(Sorted(Range(Stored(db.tables[table]), 0, upTo.key)))
  }

  class SqlStore {
    const codec: Codec
    const faults: nat -> bool
    var db: Db
    var migrationChecked: bool
    var statements: nat

    constructor (codec: Codec, faults: nat -> bool, db: Db)
      ensures Valid() && this.codec == codec && this.faults == faults && this.db == db
    {
      this.codec, this.faults, this.db := codec, faults, db;
      migrationChecked, statements := false, 0;
    }

    /** The migration probe is skipped only once a commit has shown the column present. */
    ghost predicate Valid()
      reads this
    {
      migrationChecked ==> db.progress.Current?
    }

    /** Sends a statement; it may fail. */
    method Execute() returns (ok: bool)
      modifies this`statements
      ensures ok == !faults(old(statements))
    {
      ok := !faults(statements);
      statements := statements + 1;
    }

    method MigrateIfNeeded(progress: ProgressTable) returns (ok: bool, migrated: ProgressTable)
      requires Valid() && !progress.Absent? && (migrationChecked ==> progress.Current?)
      modifies this`statements
      ensures ok ==> migrated == Migrated(progress)
      ensures (forall n :: !faults(n)) ==> ok
    {
      migrated := progress;
      if migrationChecked {
        return true, migrated;
      }
      ok := Execute();
      if ok {
        ok := Execute();
      }
      if ok && progress.Legacy? {
        ok := Execute();
        if ok {
          var rows := AddPositionColumn(progress.old_rows);
          ok := Execute();
          migrated := Current(BackfillPosition(rows));
        }
      }
    }

    /** Inserts the rows as multi-row statements that stay under the bind cap. */
    method InsertRows(tx: Db, schema: Schema, key: nat, rows: seq<Row>) returns (ok: bool, tx': Db)
      requires schema.table in tx.tables
      modifies this`statements
      ensures ok ==> AllShaped(schema, rows)
      ensures ok ==> tx' == Appended(tx, schema.table, Images(Tag(key, rows)))
      ensures (forall n :: !faults(n)) && AllShaped(schema, rows) ==> ok
    {
      hide Images, Joined, Tag, InsertStatement;
      var perRow := 1 + schema.columns;
      var chunkRows := RowsPerChunk(perRow);
      var i := 0;
      tx' := tx;
      assert rows[..0] == [];
      AppendedNone(tx, schema.table, key);
      while i < |rows|
        invariant 0 <= i <= |rows| && schema.table in tx'.tables && AllShaped(schema, rows[..i])
        invariant tx' == Appended(tx, schema.table, Images(Tag(key, rows[..i])))
        decreases |rows| - i
      {
        var chunk := rows[i..Min(i + chunkRows, |rows|)];
        var insert := InsertStatement(perRow, |chunk|);
        var bound, args := BindRows(schema, key, chunk);
        if !bound {
          Misshapen(schema, rows, i, i + |chunk|);
          return false, tx';
        }
        StatementFits(schema, key, chunk);
        ok := Execute();
        if !ok {
          return false, tx';
        }
        ChunkInserts(tx', schema, key, chunk);
        ChunksJoin(schema, key, rows, i, i + |chunk|);
        AppendedTwice(tx, schema.table, Images(Tag(key, rows[..i])), Images(Tag(key, chunk)));
        tx' := Inserted(tx', schema.table, insert, args).value;
        i := i + |chunk|;
      }
      assert rows[..i] == rows;
      ok := true;
    }

    method BindRows(schema: Schema, key: nat, chunk: seq<Row>) returns (ok: bool, args: seq<Value>)
      ensures ok == AllShaped(schema, chunk)
      ensures ok ==> args == Joined(Images(Tag(key, chunk)))
    {
      args := [];
      for i := 0 to |chunk|
        invariant AllShaped(schema, chunk[..i])
        invariant args == Joined(Images(Tag(key, chunk[..i])))
      {
        var row := chunk[i];
        if !Shaped(schema, row) {
          assert row in chunk;
          return false, args;
        }
        assert chunk[..i + 1] == chunk[..i] + [row];
        ImagesPush(key, chunk[..i], row);
        JoinedPush(Images(Tag(key, chunk[..i])), Image(Keyed(key, row)));
        args := args + [Integer(key)];
        ghost var before := args;
        for c := 0 to |row.cells|
          invariant args == before + row.cells[..c]
        {
          args := args + [row.cells[c]];
        }
        assert args == Joined(Images(Tag(key, chunk[..i]))) + Image(Keyed(key, row));
      }
      assert chunk[..|chunk|] == chunk;
      ok := true;
    }

    /** Reads the previous position, advances it, and upserts sort key and encoded position. */
    method AdvanceWatermark(rows: map<string, Progress>, table: string, p: Position)
      returns (ok: bool, rows': map<string, Progress>)
      modifies this`statements
      ensures ok ==> Advanced(codec, rows, table, p) == Some(rows')
      ensures (forall n :: !faults(n)) ==> (ok <==> Advanced(codec, rows, table, p).Some?)
    {
      rows' := rows;
      ok := Execute();
      if !ok { return; }
      var prev := Previous(codec, rows, table);
      if prev.Failed? {
        return false, rows;
      }
      var next := Advance(prev.position, p);
      if next.key > I64_MAX {
        return false, rows;
      }
      ok := Execute();
      rows' := rows[table := Progress(Some(next.key), Some(codec.encode(next)))];
    }

    /** One transaction: all of it, or nothing. */
    method WriteOnce(schema: Schema, g: Group) returns (ok: bool)
      requires Valid()
      modifies this
      ensures Valid()
      ensures ok ==> Written(codec, schema, old(db), g) == Some(db)
      ensures !ok ==> db == old(db) && migrationChecked == old(migrationChecked)
      ensures (forall n :: !faults(n)) ==> (ok <==> Written(codec, schema, old(db), g).Some?)
    {
      hide Images, Tag;
      ok := Execute();
      if !ok { return; }
      ok := Execute();
      if !ok { return; }
      var tx := CreateTables(db, schema);
      var progress;
      ok, progress := MigrateIfNeeded(tx.progress);
      if !ok { return; }
      if g.position.key > I64_MAX {
        return false;
      }
      ok, tx := InsertRows(tx.(progress := progress), schema, g.position.key, g.rows);
      if !ok { return; }
      var rows;
      ok, rows := AdvanceWatermark(tx.progress.rows, schema.table, g.position);
      if !ok { return; }
      tx := tx.(progress := Current(rows));
      ok := Execute();
      if !ok { return; }
      db := tx;
      migrationChecked := true;
    }
  }

  function Appended(db: Db, table: string, rows: seq<seq<Value>>): Db
    requires table in db.tables
  {
    db.(tables := db.tables[table := db.tables[table] + rows])
  }

  lemma AppendedNone(db: Db, table: string, key: nat)
    requires table in db.tables
    ensures Appended(db, table, Images(Tag(key, []))) == db
  {
    assert Images(Tag(key, [])) == [];
    assert db.tables[table] + [] == db.tables[table];
    assert db.tables[table := db.tables[table]] == db.tables;
  }

  lemma AppendedTwice(db: Db, table: string, a: seq<seq<Value>>, b: seq<seq<Value>>)
    requires table in db.tables
    ensures Appended(Appended(db, table, a), table, b) == Appended(db, table, a + b)
  {
    assert (db.tables[table] + a) + b == db.tables[table] + (a + b);
  }

  lemma Misshapen(schema: Schema, rows: seq<Row>, i: nat, j: nat)
    requires i <= j <= |rows| && !AllShaped(schema, rows[i..j])
    ensures !AllShaped(schema, rows)
  {
    var r :| r in rows[i..j] && !Shaped(schema, r);
    assert r in rows;
  }

  /** One statement binds at most the cap, whenever a single row does. */
  lemma StatementFits(schema: Schema, key: nat, chunk: seq<Row>)
    requires AllShaped(schema, chunk) && |chunk| <= RowsPerChunk(1 + schema.columns)
    ensures |Joined(Images(Tag(key, chunk)))| == |Joined(InsertStatement(1 + schema.columns, |chunk|))|
    ensures 1 + schema.columns <= 999 ==> |Joined(Images(Tag(key, chunk)))| <= 999
  {
    JoinedLength(schema, key, chunk);
    PlaceholdersCount(1 + schema.columns, |chunk|);
    SlotMonotone(1 + schema.columns, |chunk|, RowsPerChunk(1 + schema.columns));
  }

  lemma SlotMonotone(width: nat, a: nat, b: nat)
    requires a <= b
    ensures Slot(width, a, 0) <= Slot(width, b, 0) == b * width
  {
    assert b * width == a * width + (b - a) * width;
  }

  lemma ChunksJoin(schema: Schema, key: nat, rows: seq<Row>, i: nat, j: nat)
    requires i <= j <= |rows|
    ensures Images(Tag(key, rows[..i])) + Images(Tag(key, rows[i..j])) == Images(Tag(key, rows[..j]))
    ensures AllShaped(schema, rows[..i]) && AllShaped(schema, rows[i..j]) ==> AllShaped(schema, rows[..j])
  {
    forall r | r in rows[..j] ensures r in rows[..i] || r in rows[i..j] {
      var n :| 0 <= n < j && rows[n] == r;
      if n >= i { assert rows[i..j][n - i] == r; } else { assert rows[..i][n] == r; }
    }
  }
}
