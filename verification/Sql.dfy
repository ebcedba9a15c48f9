/** Statements and tables: multi-row inserts, the progress table and its migration, replay. */
module Sql {
  import opened Base
  import opened Positions
  import opened Streams
  import opened Store

  const I64_MAX: nat := 0x7FFF_FFFF_FFFF_FFFF
  const BIND_PARAM_CAP: nat := 999

  datatype Schema = Schema(table: string, columns: nat)

  /** A progress row; `position` is NULL where only an old binary has written. */
  datatype Progress = Progress(lastBlock: Option<int>, position: Option<string>)

  /** The progress table: never created, with the old two columns, or with the encoded position. */
  datatype ProgressTable = Absent | Legacy(old_rows: map<string, Option<int>>) | Current(rows: map<string, Progress>)

  /** A database; each event table row is the `block_number` cell followed by the event columns. */
  datatype Db = Db(progress: ProgressTable, tables: map<string, seq<seq<Value>>>)

  /** How positions become text; `decode` fails loudly. */
  datatype Codec = Codec(encode: Position -> string, decode: string -> Option<Position>)

  function RowsPerChunk(paramsPerRow: nat): (n: nat)
    ensures n >= 1
    ensures 1 <= paramsPerRow <= 999 ==> n * paramsPerRow <= 999 < n * paramsPerRow + paramsPerRow
  {
    var p := Max(paramsPerRow, 1);
    Division(BIND_PARAM_CAP, p);
    Max(BIND_PARAM_CAP / p, 1)
  }

  lemma Division(a: nat, p: nat)
    requires p >= 1
    ensures var q := a / p; q * p <= a < q * p + p && (p <= a ==> q >= 1)
  {
    var q := a / p;
    assert a == q * p + a % p;
    assert q == 0 ==> q * p == 0;
  }

  /** Where cell `c` of row `r` sits when rows of `width` cells are laid end to end. */
  function Slot(width: nat, r: nat, c: nat): nat {
    r * width + c
  }

  lemma SlotWithin(width: nat, rows: nat, r: nat, c: nat)
    requires r < rows && c < width
    ensures Slot(width, r, c) < Slot(width, rows, 0) == Slot(width, rows - 1, 0) + width
    ensures Slot(width, rows - 1, c) == Slot(width, rows - 1, 0) + c
  {
    var rest := rows - r - 1;
    assert rows * width == r * width + width + rest * width;
    assert rows * width == (rows - 1) * width + width;
  }

  /** The placeholder numbers of a multi-row insert, one group per row. */
  function InsertStatement(width: nat, rows: nat): (groups: seq<seq<nat>>)
    ensures |groups| == rows && forall r | 0 <= r < rows :: |groups[r]| == width
  {
    seq(rows, r requires 0 <= r < rows => seq(width, i requires 0 <= i < width => Slot(width, r, i + 1)))
  }

  function Joined<T>(groups: seq<seq<T>>): seq<T> {
    if groups == [] then [] else Joined(groups[..|groups| - 1]) + groups[|groups| - 1]
  }

  /** Placeholders are numbered exactly 1, 2, .. up to the number of bound values. */
  lemma {:induction false} PlaceholdersCount(width: nat, rows: nat)
    ensures |Joined(InsertStatement(width, rows))| == Slot(width, rows, 0)
    ensures forall i | 0 <= i < Slot(width, rows, 0) :: Joined(InsertStatement(width, rows))[i] == i + 1
  {
    if rows > 0 {
      PlaceholdersCount(width, rows - 1);
      var all, front := InsertStatement(width, rows), InsertStatement(width, rows - 1);
      assert all[..rows - 1] == front;
      assert Slot(width, rows, 0) == Slot(width, rows - 1, 0) + width;
      var last := all[rows - 1];
      assert forall i | 0 <= i < width :: last[i] == Slot(width, rows - 1, 0) + (i + 1);
    }
  }

  /** A full row as the table holds it. */
  function Image(e: Keyed<Row>): seq<Value> {
    [Integer(e.key)] + e.value.cells
  }

  function Images(es: seq<Keyed<Row>>): seq<seq<Value>> {
    seq(|es|, i requires 0 <= i < |es| => Image(es[i]))
  }

  /** Every placeholder numbers a bound argument. */
  predicate Binds(groups: seq<seq<nat>>, args: seq<Value>) {
    forall r, c | 0 <= r < |groups| && 0 <= c < |groups[r]| :: 1 <= groups[r][c] <= |args|
  }

  function Bound(groups: seq<seq<nat>>, args: seq<Value>): (added: seq<seq<Value>>)
    requires Binds(groups, args)
    ensures |added| == |groups|
    ensures forall r | 0 <= r < |groups| ::
        |added[r]| == |groups[r]| && forall c | 0 <= c < |groups[r]| :: added[r][c] == args[groups[r][c] - 1]
  {
    seq(|groups|, r requires 0 <= r < |groups| => seq(|groups[r]|,
        c requires 0 <= c < |groups[r]| => args[groups[r][c] - 1]))
  }

  /** Executing an insert: each placeholder takes the argument it numbers. */
  function Inserted(db: Db, table: string, groups: seq<seq<nat>>, args: seq<Value>): Option<Db> {
    if table !in db.tables || !Binds(groups, args) then None
    else Some(db.(tables := db.tables[table := db.tables[table] + Bound(groups, args)]))
  }

  predicate Shaped(schema: Schema, row: Row) {
    |row.cells| == schema.columns
  }

  predicate AllShaped(schema: Schema, rows: seq<Row>) {
    forall r | r in rows :: Shaped(schema, r)
  }

  lemma {:induction false} JoinedLength(schema: Schema, key: nat, rows: seq<Row>)
    requires AllShaped(schema, rows)
    ensures |Joined(Images(Tag(key, rows)))| == Slot(1 + schema.columns, |rows|, 0)
  {
    if rows != [] {
      var front, last := rows[..|rows| - 1], rows[|rows| - 1];
      assert last in rows && front + [last] == rows;
      JoinedLength(schema, key, front);
      ImagesPush(key, front, last);
      JoinedPush(Images(Tag(key, front)), Image(Keyed(key, last)));
      SlotWithin(1 + schema.columns, |rows|, |front|, 0);
    }
  }

  lemma {:induction false} JoinedCell(schema: Schema, key: nat, rows: seq<Row>, r: nat, c: nat)
    requires AllShaped(schema, rows) && r < |rows| && c < 1 + schema.columns
    ensures Slot(1 + schema.columns, r, c) < |Joined(Images(Tag(key, rows)))|
    ensures |rows[r].cells| == schema.columns
    ensures Joined(Images(Tag(key, rows)))[Slot(1 + schema.columns, r, c)] == Image(Keyed(key, rows[r]))[c]
  {
    hide Joined, Images, Slot;
    var front, last := rows[..|rows| - 1], rows[|rows| - 1];
    assert rows[r] in rows && last in rows && front + [last] == rows;
    JoinedLength(schema, key, front);
    JoinedLength(schema, key, rows);
    ImagesPush(key, front, last);
    JoinedPush(Images(Tag(key, front)), Image(Keyed(key, last)));
    SlotWithin(1 + schema.columns, |rows|, r, c);
    if r < |front| {
      JoinedCell(schema, key, front, r, c);
      assert front[r] == rows[r];
    }
  }

  lemma JoinedPush<T>(groups: seq<seq<T>>, g: seq<T>)
    ensures Joined(groups + [g]) == Joined(groups) + g
  {
    assert (groups + [g])[..|groups|] == groups;
  }

  lemma ImagesPush(key: nat, front: seq<Row>, last: Row)
    ensures Images(Tag(key, front + [last])) == Images(Tag(key, front)) + [Image(Keyed(key, last))]
  {
  }

  /** Binding a chunk row by row and inserting it appends exactly the chunk's rows, in order, under the key. */
  lemma ChunkInserts(db: Db, schema: Schema, key: nat, rows: seq<Row>)
    requires AllShaped(schema, rows) && schema.table in db.tables
    ensures Inserted(db, schema.table, InsertStatement(1 + schema.columns, |rows|), Joined(Images(Tag(key, rows))))
         == Some(db.(tables := db.tables[schema.table := db.tables[schema.table] + Images(Tag(key, rows))]))
  {
    hide Joined, Images, Slot;
    var w, args := 1 + schema.columns, Joined(Images(Tag(key, rows)));
    var groups := InsertStatement(w, |rows|);
    forall r | 0 <= r < |rows| ensures |rows[r].cells| == schema.columns { assert rows[r] in rows; }
    forall r, c | 0 <= r < |rows| && 0 <= c < w ensures 1 <= groups[r][c] <= |args|
        && args[groups[r][c] - 1] == Image(Keyed(key, rows[r]))[c] {
      JoinedCell(schema, key, rows, r, c);
      SlotNext(w, r, c);
    }
    var added := Bound(groups, args);
    ImagesAt(key, rows);
    forall r | 0 <= r < |rows| ensures added[r] == Images(Tag(key, rows))[r] {
      assert rows[r] in rows;
    }
    assert added == Images(Tag(key, rows));
  }

  lemma SlotNext(width: nat, r: nat, c: nat)
    ensures Slot(width, r, c + 1) == Slot(width, r, c) + 1
  {
  }

  lemma ImagesAt(key: nat, rows: seq<Row>)
    ensures |Images(Tag(key, rows))| == |rows|
    ensures forall r | 0 <= r < |rows| :: Images(Tag(key, rows))[r] == Image(Keyed(key, rows[r]))
  {
  }
}
