/**
 The target database as the replayer sees it (replayer/server.py): a table is a
 list of rows, a row maps the columns that are not NULL to their values, and a
 table carries unique constraints.  `Effect` is what one change record does to
 its table; `Replay` folds a sequence of records over the whole target.
 */
module Target {
  import opened Prelude

  type Row = map<string, string>
  type Table = seq<Row>
  type Database = map<string, Table>

  /** The unique constraints of every table, each a set of columns. */
  type Schema = map<string, set<set<string>>>

  datatype Operation = Insert | Update | Delete | Truncate | Other(name: string)

  datatype Record = Record(
    timestamp: Option<int>, table: string, operation: Operation, oldRow: Row, newRow: Row, key: string)

  /** How a statement on the target ends: done and reported, done but reported as
      failed (the connection broke after it took effect), or not done. */
  datatype Outcome = Done | DoneUnreported | Refused

  function Uniques(schema: Schema, table: string): set<set<string>> {
    if table in schema then schema[table] else {}
  }

  /** `WHERE c1 = v1 AND c2 = v2 ...`; a NULL column matches nothing. */
  predicate Matches(row: Row, cond: Row) {
    forall c | c in cond :: c in row && row[c] == cond[c]
  }

  /** Two rows collide on a constraint when both have all its columns, with equal values. */
  predicate Agree(a: Row, b: Row, unique: set<string>) {
    forall c | c in unique :: c in a && c in b && a[c] == b[c]
  }

  predicate Conflicts(uniques: set<set<string>>, table: Table, row: Row) {
    exists u, i | u in uniques && 0 <= i < |table| :: Agree(table[i], row, u)
  }

  predicate Respects(uniques: set<set<string>>, table: Table) {
    forall u, i, j | u in uniques && 0 <= i < j < |table| :: !Agree(table[i], table[j], u)
  }

  function Updated(table: Table, cond: Row, values: Row): (r: Table)
    ensures |r| == |table|
    ensures forall i | 0 <= i < |table| :: r[i] == if Matches(table[i], cond) then table[i] + values else table[i]
  {
    seq(|table|, i requires 0 <= i < |table| => if Matches(table[i], cond) then table[i] + values else table[i])
  }

  function Deleted(table: Table, cond: Row): (r: Table)
    ensures forall row :: row in r <==> row in table && !Matches(row, cond)
  {
    if table == [] then []
    else if Matches(table[0], cond) then Deleted(table[1..], cond)
    else [table[0]] + Deleted(table[1..], cond)
  }

  /** Whether the statement can succeed: only an unknown operation and an UPDATE that breaks a constraint cannot. */
  predicate Succeeds(uniques: set<set<string>>, table: Table, e: Record) {
    match e.operation
    case Update => e.newRow == map[] || e.oldRow == map[] || Respects(uniques, Updated(table, e.oldRow, e.newRow))
    case Other(_) => false
    case _ => true
  }

  /** The table after one attempt to apply `e`; a statement that fails changes nothing. */
  function Effect(uniques: set<set<string>>, table: Table, e: Record): Table {
    if !Succeeds(uniques, table, e) then table
    else match e.operation
      case Insert => if e.newRow == map[] || Conflicts(uniques, table, e.newRow) then table else table + [e.newRow]
      case Update => if e.newRow == map[] || e.oldRow == map[] then table else Updated(table, e.oldRow, e.newRow)
      case Delete => if e.oldRow == map[] then table else Deleted(table, e.oldRow)
      case Truncate => []
      case Other(_) => table
  }

  // ---- What each statement does --------------------------------------------

  /** The record names the row: there are old columns, and the row has them all with the old values. */
  predicate Names(e: Record, row: Row) {
    e.oldRow != map[] && e.oldRow.Items <= row.Items
  }

  lemma NamesMatch(e: Record, row: Row)
    ensures Names(e, row) <==> e.oldRow != map[] && Matches(row, e.oldRow)
  {
    if Names(e, row) {
      forall c | c in e.oldRow ensures c in row && row[c] == e.oldRow[c] {
        assert (c, e.oldRow[c]) in row.Items;
      }
    }
  }

  /** INSERT appends the new row, unless it is empty or collides with a row; for a table that respects its
      constraints that is to say, unless appending it would break one. */
  lemma InsertMeaning(uniques: set<set<string>>, table: Table, e: Record)
    requires e.operation == Insert
    ensures var after := Effect(uniques, table, e);
            && Succeeds(uniques, table, e)
            && (after == table || after == table + [e.newRow])
            && (after == table <==> e.newRow == map[] || exists row, u | row in table && u in uniques ::
                  Agree(row, e.newRow, u))
            && (Respects(uniques, table) && e.newRow != map[] ==>
                  (after == table + [e.newRow] <==> Respects(uniques, table + [e.newRow])))
  {
    var after := table + [e.newRow];
    if row, u :| row in table && u in uniques && Agree(row, e.newRow, u) {
      var i :| 0 <= i < |table| && table[i] == row;
      assert Agree(after[i], after[|table|], u);
    }
  }

  /** UPDATE overlays the new columns on every row that the record names and leaves the others; it fails,
      and changes nothing, exactly when that would break a constraint. */
  lemma UpdateMeaning(uniques: set<set<string>>, table: Table, e: Record, would: Table)
    requires e.operation == Update && |would| == |table|
    requires forall i | 0 <= i < |table| :: would[i] == if Names(e, table[i]) then table[i] + e.newRow else table[i]
    ensures Succeeds(uniques, table, e) <==> e.newRow == map[] || e.oldRow == map[] || Respects(uniques, would)
    ensures Effect(uniques, table, e) == if Succeeds(uniques, table, e) then would else table
  {
    forall i | 0 <= i < |table|
      ensures would[i] == if e.oldRow != map[] && e.newRow != map[] && Matches(table[i], e.oldRow)
                          then table[i] + e.newRow else table[i]
    {
      NamesMatch(e, table[i]);
      assert e.newRow == map[] ==> table[i] + e.newRow == table[i];
    }
    assert (e.newRow == map[] || e.oldRow == map[]) ==> would == table;
    assert e.newRow != map[] && e.oldRow != map[] ==> would == Updated(table, e.oldRow, e.newRow);
  }

  /** DELETE treats every row by itself, in place: the rows that the record names go, and all others stay, each
      as often as it occurs and in order. */
  lemma {:induction false} DeleteMeaning(uniques: set<set<string>>, a: Table, row: Row, b: Table, e: Record)
    requires e.operation == Delete
    ensures Effect(uniques, [], e) == []
    ensures Effect(uniques, a + ([row] + b), e)
         == Effect(uniques, a, e) + ((if Names(e, row) then [] else [row]) + Effect(uniques, b, e))
  {
    NamesMatch(e, row);
    if e.oldRow != map[] {
      DeletedInPlace(a, row, b, e.oldRow);
    }
  }

  // ---- One table ----------------------------------------------------------

  /** No record can break a constraint. */
  lemma EffectKeepsConstraints(uniques: set<set<string>>, table: Table, e: Record)
    requires Respects(uniques, table)
    ensures Respects(uniques, Effect(uniques, table, e))
  {
    if e.operation.Delete? && e.oldRow != map[] {
      DeletedRespects(uniques, table, e.oldRow);
    }
  }

  lemma {:induction false} DeletedRespects(uniques: set<set<string>>, table: Table, cond: Row)
    requires Respects(uniques, table)
    ensures Respects(uniques, Deleted(table, cond))
  {
    if table != [] {
      var rest := Deleted(table[1..], cond);
      assert Respects(uniques, table[1..]);
      DeletedRespects(uniques, table[1..], cond);
      if !Matches(table[0], cond) {
        var kept := [table[0]] + rest;
        forall u, i, j | u in uniques && 0 <= i < j < |kept| ensures !Agree(kept[i], kept[j], u) {
          if i == 0 {
            assert kept[j] in rest;
            var k :| 0 < k < |table| && table[k] == kept[j];
            assert !Agree(table[0], table[k], u);
          }
        }
      }
    }
  }

  lemma {:induction false} DeletedInPlace(a: Table, row: Row, b: Table, cond: Row)
    ensures Deleted(a + ([row] + b), cond)
         == Deleted(a, cond) + ((if Matches(row, cond) then [] else [row]) + Deleted(b, cond))
  {
    hide Matches;
    if a == [] {
      assert a + ([row] + b) == [row] + b && ([row] + b)[1..] == b;
    } else {
      assert (a + ([row] + b))[1..] == a[1..] + ([row] + b);
      DeletedInPlace(a[1..], row, b, cond);
    }
  }

  lemma {:induction false} DeletedTwice(table: Table, cond: Row)
    ensures Deleted(Deleted(table, cond), cond) == Deleted(table, cond)
  {
    if table != [] {
      DeletedTwice(table[1..], cond);
      if !Matches(table[0], cond) {
        assert Deleted(table, cond)[1..] == Deleted(table[1..], cond);
      }
    }
  }

  lemma UpdatedTwice(table: Table, cond: Row, values: Row)
    ensures Updated(Updated(table, cond, values), cond, values) == Updated(table, cond, values)
  {
    var once := Updated(table, cond, values);
    forall i | 0 <= i < |table| ensures Updated(once, cond, values)[i] == once[i] {
      assert table[i] + values + values == table[i] + values;
    }
  }

  /** The statement may be run again without harm: an INSERT needs a unique constraint among its columns. */
  predicate Repeatable(uniques: set<set<string>>, e: Record) {
    e.operation != Insert || e.newRow == map[] || exists u | u in uniques :: u <= e.newRow.Keys
  }

  lemma EffectTwice(uniques: set<set<string>>, table: Table, e: Record)
    requires Repeatable(uniques, e)
    ensures Effect(uniques, Effect(uniques, table, e), e) == Effect(uniques, table, e)
    ensures Succeeds(uniques, table, e) ==> Succeeds(uniques, Effect(uniques, table, e), e)
  {
    match e.operation
    case Insert =>
      if e.newRow != map[] && !Conflicts(uniques, table, e.newRow) {
        var u :| u in uniques && u <= e.newRow.Keys;
        var after := table + [e.newRow];
        assert Agree(after[|table|], e.newRow, u);
      }
    case Update => UpdatedTwice(table, e.oldRow, e.newRow);
    case Delete => DeletedTwice(table, e.oldRow);
    case _ =>
  }

  /** Exactly the repeatable records are idempotent on every table. */
  lemma IdempotentIff(uniques: set<set<string>>, e: Record)
    ensures (forall table: Table :: Effect(uniques, Effect(uniques, table, e), e) == Effect(uniques, table, e))
       <==> Repeatable(uniques, e)
  {
    if Repeatable(uniques, e) {
      forall table: Table ensures Effect(uniques, Effect(uniques, table, e), e) == Effect(uniques, table, e) {
        EffectTwice(uniques, table, e);
      }
    } else {
      var empty: Table := [];
      var once := Effect(uniques, empty, e);
      assert once == [e.newRow];
      forall u | u in uniques ensures !Agree(once[0], e.newRow, u) {
        var c :| c in u && c !in e.newRow.Keys;
      }
      assert !Conflicts(uniques, once, e.newRow);
      assert |Effect(uniques, once, e)| == 2;
    }
  }

  // ---- The whole target ---------------------------------------------------

  function TableAt(db: Database, table: string): Table {
    if table in db then db[table] else []
  }

  function Apply(schema: Schema, db: Database, e: Record): Database {
    db[e.table := Effect(Uniques(schema, e.table), TableAt(db, e.table), e)]
  }

  function Replay(schema: Schema, db: Database, events: seq<Record>): Database {
    if events == [] then db
    else Apply(schema, Replay(schema, db, events[..|events| - 1]), events[|events| - 1])
  }

  /** What a sequence of records does to one table: only that table's records matter. */
  function TableAfter(schema: Schema, before: Table, table: string, events: seq<Record>): Table {
    if events == [] then before
    else
      var e := events[|events| - 1];
      var prior := TableAfter(schema, before, table, events[..|events| - 1]);
      if e.table == table then Effect(Uniques(schema, table), prior, e) else prior
  }

  lemma {:induction false} ReplayByTable(schema: Schema, db: Database, events: seq<Record>, table: string)
    ensures TableAt(Replay(schema, db, events), table) == TableAfter(schema, TableAt(db, table), table, events)
  {
    if events != [] {
      ReplayByTable(schema, db, events[..|events| - 1], table);
    }
  }

  lemma TableAfterSnoc(schema: Schema, before: Table, table: string, events: seq<Record>, e: Record)
    ensures TableAfter(schema, before, table, events + [e])
         == if e.table == table
            then Effect(Uniques(schema, table), TableAfter(schema, before, table, events), e)
            else TableAfter(schema, before, table, events)
  {
    assert (events + [e])[..|events|] == events;
  }

  /** Records on different tables commute. */
  lemma TablesCommute(schema: Schema, db: Database, a: Record, b: Record, table: string)
    requires a.table != b.table
    ensures Apply(schema, Apply(schema, db, a), b) == Apply(schema, Apply(schema, db, b), a)
    ensures TableAt(Apply(schema, Apply(schema, db, a), b), table)
         == if table == a.table then TableAt(Apply(schema, db, a), table) else TableAt(Apply(schema, db, b), table)
  {
  }

  // ---- Delivery orders ----------------------------------------------------

  /** The records of one partition, in the order given; `part` places tables in partitions. */
  function Partition(part: string -> nat, events: seq<Record>, p: nat): seq<Record> {
    if events == [] then []
    else
      var e := events[|events| - 1];
      var prior := Partition(part, events[..|events| - 1], p);
      if part(e.table) == p then prior + [e] else prior
  }

  lemma {:induction false} OwnPartitionSuffices(
    schema: Schema, part: string -> nat, before: Table, table: string, events: seq<Record>)
    ensures TableAfter(schema, before, table, events)
         == TableAfter(schema, before, table, Partition(part, events, part(table)))
  {
    if events != [] {
      var init, e := events[..|events| - 1], events[|events| - 1];
      OwnPartitionSuffices(schema, part, before, table, init);
      TableAfterSnoc(schema, before, table, Partition(part, init, part(table)), e);
    }
  }

  /** Two delivery orders that agree on every partition leave the same target. */
  lemma InterleavingIndependence(
    schema: Schema, part: string -> nat, db: Database, a: seq<Record>, b: seq<Record>, table: string)
    requires forall p: nat :: Partition(part, a, p) == Partition(part, b, p)
    ensures TableAt(Replay(schema, db, a), table) == TableAt(Replay(schema, db, b), table)
  {
    ReplayByTable(schema, db, a, table);
    ReplayByTable(schema, db, b, table);
    OwnPartitionSuffices(schema, part, TableAt(db, table), table, a);
    OwnPartitionSuffices(schema, part, TableAt(db, table), table, b);
  }
}
