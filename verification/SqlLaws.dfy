/** What the SQL store means: it refines the abstract store of the writers, through migration and replay. */
module SqlLaws {
  import opened Base
  import opened Positions
  import opened Streams
  import opened Store
  import opened Chain
  import opened Decimal
  import opened Sql
  import opened SqlStores

  predicate Survives(codec: Codec, p: Position) {
    codec.decode(codec.encode(p)) == Some(p)
  }

  /** Every progress row carries its encoded position: no old binary wrote after the migration. */
  predicate NoNull(db: Db, table: string) {
    db.progress.Current? && table in db.progress.rows ==> db.progress.rows[table].position.Some?
  }

  /** The database holds the abstract store's rows, in order, and its position. */
  ghost predicate Represents(codec: Codec, schema: Schema, db: Db, s: StoreState) {
    && RowsOf(db, schema.table) == Images(Flat(s.log))
    && StoredPosition(codec, db, schema.table) == Found(s.position)
    && NoNull(db, schema.table)
  }

  /** Migrating an archive never changes where it resumes, for any table and any codec. */
  lemma MigrationKeepsPosition(codec: Codec, db: Db, table: string)
    ensures StoredPosition(codec, db.(progress := Migrated(db.progress)), table) == StoredPosition(codec, db, table)
    ensures Migrated(Migrated(db.progress)) == Migrated(db.progress)
    ensures LastBlock(Migrated(db.progress), table) == LastBlock(db.progress, table)
  {
  }

  /** The position the write transaction folds onto is the position a subscribe would resume from. */
  lemma PreviousIsStored(codec: Codec, schema: Schema, db: Db)
    requires NoNull(db, schema.table) && StoredPosition(codec, db, schema.table).Found?
    ensures var p := Migrated(CreateTables(db, schema).progress);
      p.Current? && Previous(codec, p.rows, schema.table) == StoredPosition(codec, db, schema.table)
  {
  }

  lemma ImagesAppend(log: seq<Group>, g: Group)
    ensures Images(Flat(log + [g])) == Images(Flat(log)) + Images(Tag(g.position.key, g.rows))
  {
    assert (log + [g])[..|log|] == log;
  }

  /** A write either fails whole, exactly when a row is misshapen or a key does not fit 64 signed bits, or appends
      the group's rows in order and folds its position with `Advance`: the abstract store's successful write. */
  lemma WriteRefines(codec: Codec, schema: Schema, db: Db, s: StoreState, g: Group)
    requires Represents(codec, schema, db, s) && Survives(codec, Advance(s.position, g.position))
    ensures var w := Written(codec, schema, db, g);
      && (w.Some? <==>
            && AllShaped(schema, g.rows) && g.position.key <= 0x7FFF_FFFF_FFFF_FFFF
            && Advance(s.position, g.position).key <= 0x7FFF_FFFF_FFFF_FFFF)
      && (w.Some? ==> Represents(codec, schema, w.value, Write(n => false, s, g).0))
  {
    hide Images, Flat, Tag;
    PreviousIsStored(codec, schema, db);
    ImagesAppend(s.log, g);
    if RowsOf(db, schema.table) == [] { assert [] + Images(Tag(g.position.key, g.rows))
        == Images(Tag(g.position.key, g.rows)); }
  }

  /** A write to one table leaves every other table's rows and resume point alone, migration included. */
  lemma WriteTouchesOneTable(codec: Codec, schema: Schema, db: Db, g: Group, other: string)
    requires other != schema.table && Written(codec, schema, db, g).Some?
    ensures var w := Written(codec, schema, db, g).value;
      RowsOf(w, other) == RowsOf(db, other) && StoredPosition(codec, w, other) == StoredPosition(codec, db, other)
  {
    hide Images, Tag;
  }

  /** A run of writes, each committed or lost; a lost one leaves no trace. */
  function WriteAll(codec: Codec, schema: Schema, db: Db, groups: seq<Group>, lost: nat -> bool): Db {
    if groups == [] then db else
      var n := |groups| - 1;
      var before := WriteAll(codec, schema, db, groups[..n], lost);
      var w := Written(codec, schema, before, groups[n]);
      if lost(n) || w.None? then before else w.value
  }

  function StoreAll(s: StoreState, groups: seq<Group>, lost: nat -> bool): StoreState {
    if groups == [] then s else
      var n := |groups| - 1;
      Write(lost, StoreAll(s, groups[..n], lost), groups[n]).0
  }

  predicate Fits(schema: Schema, g: Group) {
    AllShaped(schema, g.rows) && g.position.key <= I64_MAX
  }

  /** Every position a history can fold: closed under `Advance`, and surviving the codec while its key fits. */
  ghost predicate Storable(codec: Codec, kind: Position -> bool) {
    && (forall p, q | kind(p) && kind(q) :: kind(Advance(Some(p), q)))
    && (forall p | kind(p) && p.key <= I64_MAX :: Survives(codec, p))
  }

  /** Whole histories: from an empty database, any sequence of well-shaped writes at positions of a storable kind,
      with any pattern of failures, leaves exactly what the abstract store holds after the same history. */
  lemma {:induction false} HistoryRefines(codec: Codec, kind: Position -> bool, schema: Schema, groups: seq<Group>,
                                          lost: nat -> bool)
    requires Storable(codec, kind)
    requires forall g | g in groups :: Fits(schema, g) && kind(g.position)
    ensures var s := StoreAll(StoreState([], None, 0), groups, lost);
      && Represents(codec, schema, WriteAll(codec, schema, Db(Absent, map[]), groups, lost), s)
      && s.attempts == |groups| && (s.position.Some? ==> s.position.value.key <= I64_MAX && kind(s.position.value))
  {
    if groups != [] {
      hide Images, Flat, Tag, StoredPosition, Written;
      var n, g := |groups| - 1, groups[|groups| - 1];
      assert g in groups;
      HistoryRefines(codec, kind, schema, groups[..n], lost);
      WriteRefines(codec, schema, WriteAll(codec, schema, Db(Absent, map[]), groups[..n], lost),
                   StoreAll(StoreState([], None, 0), groups[..n], lost), g);
    }
  }

  /** The block archive is an instance: any history of block writes. */
  lemma BlockHistoryRefines(schema: Schema, groups: seq<Group>, lost: nat -> bool)
    requires forall g | g in groups :: Fits(schema, g) && g.position.seen == {}
    ensures var s := StoreAll(StoreState([], None, 0), groups, lost);
      && Represents(BLOCK_CODEC, schema, WriteAll(BLOCK_CODEC, schema, Db(Absent, map[]), groups, lost), s)
      && s.attempts == |groups|
  {
    hide Represents, WriteAll, StoreAll, BLOCK_CODEC;
    var block := (p: Position) => p.seen == {};
    forall p | block(p) && p.key <= I64_MAX ensures Survives(BLOCK_CODEC, p) {
      BlocksSurvive(p);
    }
    forall p, q | block(p) && block(q) ensures block(Advance(Some(p), q)) {
      assert p.seen + q.seen == {};
    }
    HistoryRefines(BLOCK_CODEC, block, schema, groups, lost);
  }

  /** A block archive: both columns name the same block. */
  predicate ColumnsAgree(db: Db, table: string) {
    db.progress.Current? && table in db.progress.rows ==>
      var r := db.progress.rows[table];
      r.lastBlock.Some? && r.position == Some(RenderInt(r.lastBlock.value))
  }

  /** Blocks below 2^64 survive their encoding. */
  lemma BlocksSurvive(p: Position)
    requires p.seen == {} && p.key <= U64_MAX
    ensures Survives(BLOCK_CODEC, p)
  {
    RenderParses(p.key);
  }

  /** Every write of a block archive leaves the columns agreeing, so a reader of either resumes at the same block. */
  lemma BlockColumnsAgree(schema: Schema, db: Db, g: Group)
    requires Written(BLOCK_CODEC, schema, db, g).Some?
    ensures var w := Written(BLOCK_CODEC, schema, db, g).value;
      && ColumnsAgree(w, schema.table)
      && StoredPosition(BLOCK_CODEC, w, schema.table) == ResumeFromLastBlock(BLOCK_CODEC, w.progress, schema.table)
  {
    hide Images, Tag;
  }

  /** An archive of the old layout resumes at its last block, and its first write continues from there. */
  lemma LegacyArchiveContinues(schema: Schema, db: Db, b: nat, g: Group)
    requires db.progress.Legacy? && schema.table in db.progress.old_rows
        && db.progress.old_rows[schema.table] == Some(b)
    requires b <= I64_MAX && g.position.seen == {} && Fits(schema, g)
    ensures StoredPosition(BLOCK_CODEC, db, schema.table) == Found(Some(FromSortKey(b)))
    ensures var w := Written(BLOCK_CODEC, schema, db, g);
      w.Some? && StoredPosition(BLOCK_CODEC, w.value, schema.table) == Found(Some(FromSortKey(Max(b, g.position.key))))
  {
    hide Images, Tag, Render, Parse;
    RenderParses(b);
    RenderParses(Max(b, g.position.key));
    assert Advance(Some(FromSortKey(b)), g.position) == FromSortKey(Max(b, g.position.key)) by {
      assert g.position.seen + g.position.seen == g.position.seen;
    }
  }

  /** A NULL position is read as "no previous": the fold survives such a row exactly when the write is not behind it. */
  lemma NullForgetsExactlyBackwards(schema: Schema, db: Db, b: nat, g: Group)
    requires db.progress.Current? && schema.table in db.progress.rows
    requires db.progress.rows[schema.table] == Progress(Some(b), None)
    requires b <= I64_MAX && g.position.seen == {} && Fits(schema, g)
    ensures StoredPosition(BLOCK_CODEC, db, schema.table) == Found(Some(FromSortKey(b)))
    ensures var w := Written(BLOCK_CODEC, schema, db, g);
      && w.Some?
      && (StoredPosition(BLOCK_CODEC, w.value, schema.table) == Found(Some(Advance(Some(FromSortKey(b)), g.position)))
          <==> b <= g.position.key)
  {
    hide Images, Tag, Render, Parse;
    RenderParses(b);
    RenderParses(g.position.key);
    if b == g.position.key { assert FromSortKey(b).seen + g.position.seen == g.position.seen; }
  }

  lemma ImagesAreRows(es: seq<Keyed<Row>>)
    ensures forall row | row in Images(es) :: IsRow(row)
    ensures Stored(Images(es)) == es
  {
    forall i | 0 <= i < |es| ensures Images(es)[i][1..] == es[i].value.cells {}
  }

  lemma {:induction false} PlaceOrdered<T(!new)>(es: seq<Keyed<T>>, e: Keyed<T>)
    requires Ordered(es)
    ensures Ordered(Place(es, e)) && forall x | x in Place(es, e) :: x in es || x == e
  {
    if es != [] {
      var front, last := es[..|es| - 1], es[|es| - 1];
      assert es == front + [last];
      PlaceOrdered(front, e);
      assert forall x | x in front :: x.key <= last.key;
      if last.key > e.key { OrderedPush(Place(front, e), last); } else { OrderedPush(es, e); }
    }
  }

  lemma {:induction false} PlaceAt<T>(es: seq<Keyed<T>>, e: Keyed<T>, k: nat)
    ensures At(Place(es, e), k) == At(es + [e], k)
  {
    if es != [] && es[|es| - 1].key > e.key {
      var front, last := es[..|es| - 1], es[|es| - 1];
      assert es == front + [last];
      PlaceAt(front, e, k);
      hide At;
      AtPush(Place(front, e), last, k);
      AtPush(front, e, k);
      AtPush(es, e, k);
      AtPush(front, last, k);
    }
  }

  /** `ORDER BY` key then tie-breaker: in key order, each key's rows in the order they were written. */
  lemma {:induction false} SortedIsStable<T(!new)>(es: seq<Keyed<T>>)
    ensures Ordered(Sorted(es)) && SameAt(Sorted(es), es)
  {
    if es != [] {
      var front, last := es[..|es| - 1], es[|es| - 1];
      SortedIsStable(front);
      PlaceOrdered(Sorted(front), last);
      assert es == front + [last];
      forall k: nat ensures At(Sorted(es), k) == At(es, k) {
        PlaceAt(Sorted(front), last, k);
        AtPush(Sorted(front), last, k);
        AtPush(front, last, k);
        assert At(Sorted(front), k) == At(front, k);
      }
    }
  }

  lemma {:induction false} AtRanged<T>(es: seq<Keyed<T>>, hi: nat, k: nat)
    ensures At(Range(es, 0, hi), k) == if k <= hi then At(es, k) else []
  {
    if es != [] {
      var front, last := es[..|es| - 1], es[|es| - 1];
      AtRanged(front, hi, k);
      AtPush(Range(front, 0, hi), last, k);
    }
  }

  /** Replay returns exactly the rows written at or below the bound: ordered by key, and within a key as written. */
  lemma ReplayReturns(codec: Codec, schema: Schema, db: Db, s: StoreState, upTo: Position)
    requires Represents(codec, schema, db, s) && upTo.key <= I64_MAX
    ensures forall row | row in RowsOf(db, schema.table) :: IsRow(row)
    ensures var r := Replay(db, schema.table, upTo);
      r.Some? && Ordered(r.value) && forall k: nat :: At(r.value, k) == if k <= upTo.key then LogAt(s.log, k) else []
  {
    hide Flat, Images, At, LogAt, Sorted, Range;
    ImagesAreRows(Flat(s.log));
    var r := Replay(db, schema.table, upTo).value;
    EmptyReplay<Row>();
    SortedIsStable(Range(Flat(s.log), 0, upTo.key));
    forall k: nat ensures At(r, k) == if k <= upTo.key then LogAt(s.log, k) else [] {
      AtRanged(Flat(s.log), upTo.key, k);
      AtFlat(s.log, k);
      assert At(Sorted(Range(Flat(s.log), 0, upTo.key)), k) == At(Range(Flat(s.log), 0, upTo.key), k);
      EmptyFlat(Flat(s.log), upTo.key);
    }
  }

  lemma EmptyReplay<T>()
    ensures Sorted<T>([]) == []
  {
  }

  lemma EmptyFlat<T>(es: seq<Keyed<T>>, hi: nat)
    ensures es == [] ==> Range(es, 0, hi) == []
  {
  }

  /** A log in key order replays as it was written. */
  lemma OrderedReplay(codec: Codec, schema: Schema, db: Db, s: StoreState, upTo: Position)
    requires Represents(codec, schema, db, s) && upTo.key <= I64_MAX && Ordered(Flat(s.log))
    ensures forall row | row in RowsOf(db, schema.table) :: IsRow(row)
    ensures Replay(db, schema.table, upTo) == Some(Range(Flat(s.log), 0, upTo.key))
  {
    hide Flat, Images, At, LogAt, Sorted, Range;
    ReplayReturns(codec, schema, db, s, upTo);
    RangeStaysOrdered(Flat(s.log), upTo.key);
    var r := Replay(db, schema.table, upTo).value;
    forall k: nat ensures At(r, k) == At(Range(Flat(s.log), 0, upTo.key), k) {
      AtRanged(Flat(s.log), upTo.key, k);
      AtFlat(s.log, k);
    }
    OrderedDetermined(r, Range(Flat(s.log), 0, upTo.key));
  }

  lemma {:induction false} RangeStaysOrdered<T(!new)>(es: seq<Keyed<T>>, hi: nat)
    requires Ordered(es)
    ensures Ordered(Range(es, 0, hi)) && forall e | e in Range(es, 0, hi) :: e in es
  {
    if es != [] {
      var front, last := es[..|es| - 1], es[|es| - 1];
      RangeStaysOrdered(front, hi);
      assert es == front + [last];
      assert forall e | e in front :: e.key <= last.key;
    }
  }

  predicate HasProgress(p: ProgressTable, table: string) {
    match p
    case Absent => false
    case Legacy(rows) => table in rows
    case Current(rows) => table in rows
  }

  /** An archive starts from nothing exactly when it has no progress row: a row that cannot be read, with both columns
      NULL or text that does not decode, is an error and never a silent restart. */
  lemma NeverRestartsSilently(codec: Codec, db: Db, table: string)
    ensures StoredPosition(codec, db, table) == Found(None) <==> !HasProgress(db.progress, table)
    ensures StoredPosition(codec, db, table).Failed? ==> HasProgress(db.progress, table)
  {
  }

  /** Replay refuses exactly the positions whose key does not fit 64 signed bits. */
  lemma ReplayRefusesExactly(db: Db, table: string, upTo: Position)
    requires forall row | row in RowsOf(db, table) :: IsRow(row)
    ensures Replay(db, table, upTo).None? <==> upTo.key > 0x7FFF_FFFF_FFFF_FFFF
    ensures table !in db.tables && upTo.key <= 0x7FFF_FFFF_FFFF_FFFF ==> Replay(db, table, upTo) == Some([])
  {
  }
}
