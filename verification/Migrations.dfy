/** Ordered migrations over a schema and a ledger, re-applied after crashes and stale reads. */
module Migrations {
  import opened Common

  datatype Table = Table(columns: map<string, string>, props: map<string, string>)

  /** The statements migrations are made of. A backfill changes rows, and nothing in the schema. */
  datatype Statement<T> =
    | CreateTable(table: T, columns: map<string, string>, props: map<string, string>) // IF NOT EXISTS
    | AddColumn(table: T, column: string, type_: string)
    | SetProperty(table: T, key: string, value: string)
    | DropTable(table: T)                                                              // IF EXISTS
    | Backfill(name: string)

  /** What the recorded digest is a digest of; digests are equal only when this is. */
  datatype Digest<T> = Digest(statements: seq<Statement<T>>, backfill: Option<string>)

  datatype Migration<T> = Migration(id: nat, statements: seq<Statement<T>>, backfill: Option<string>)

  function Checksum<T>(m: Migration<T>): Digest<T> { Digest(m.statements, m.backfill) }

  /** What a run sends to the database: statements, and the ledger row that closes a migration. */
  datatype Op<T> = Do(st: Statement<T>) | Record(id: nat, digest: Digest<T>)

  datatype Db<T(==)> = Db(tables: map<T, Table>, ledger: map<nat, Digest<T>>)

  // ---- one statement ----------------------------------------------------------------------

  /** The database's answer. `ColumnExists` is the error an ADD of a column already there draws. */
  datatype Reply = Done | ColumnExists | Failed

  function Answer<T>(db: Db<T>, op: Op<T>): Reply {
    if op.Do? && op.st.AddColumn? then
      if op.st.table !in db.tables then Failed
      else if op.st.column in db.tables[op.st.table].columns then ColumnExists
      else Done
    else if op.Do? && op.st.SetProperty? && op.st.table !in db.tables then Failed
    else Done
  }

  /** The runner takes a column that is already there as success. */
  predicate Succeeds<T>(db: Db<T>, op: Op<T>) { Answer(db, op) != Failed }

  function Exec<T>(db: Db<T>, op: Op<T>): Db<T> {
    if op.Record? then db.(ledger := db.ledger[op.id := op.digest])
    else if op.st.CreateTable? then
      if op.st.table in db.tables then db
      else db.(tables := db.tables[op.st.table := Table(op.st.columns, op.st.props)])
    else if op.st.AddColumn? then
      if Answer(db, op) != Done then db
      else
        var t := db.tables[op.st.table];
        db.(tables := db.tables[op.st.table := t.(columns := t.columns[op.st.column := op.st.type_])])
    else if op.st.SetProperty? then
      if op.st.table !in db.tables then db
      else
        var t := db.tables[op.st.table];
        db.(tables := db.tables[op.st.table := t.(props := t.props[op.st.key := op.st.value])])
    else if op.st.DropTable? then db.(tables := db.tables - {op.st.table})
    else db
  }

  function Apply<T>(ops: seq<Op<T>>, db: Db<T>): Db<T> {
    if ops == [] then db else Apply(ops[1..], Exec(db, ops[0]))
  }

  lemma {:induction false} ApplySplits<T>(a: seq<Op<T>>, b: seq<Op<T>>, db: Db<T>)
    ensures Apply(a + b, db) == Apply(b, Apply(a, db))
  {
    if a == [] {
      assert a + b == b;
    } else {
      assert (a + b)[1..] == a[1..] + b;
      ApplySplits(a[1..], b, Exec(db, a[0]));
    }
  }

  // ---- one table at a time ----------------------------------------------------------------

  function TableOf<T>(db: Db<T>, t: T): Option<Table> { if t in db.tables then Some(db.tables[t]) else None }

  /** What an operation does to one table, present or not. */
  function Touch<T(==)>(op: Op<T>, t: T, x: Option<Table>): Option<Table> {
    if op.Record? || op.st.Backfill? || op.st.table != t then x
    else if op.st.CreateTable? then (if x.Some? then x else Some(Table(op.st.columns, op.st.props)))
    else if op.st.DropTable? then None
    else if x.None? then None
    else if op.st.AddColumn? then
      if op.st.column in x.value.columns then x
      else Some(x.value.(columns := x.value.columns[op.st.column := op.st.type_]))
    else Some(x.value.(props := x.value.props[op.st.key := op.st.value]))
  }

  function Fold<T(==)>(ops: seq<Op<T>>, t: T, x: Option<Table>): Option<Table> {
    if ops == [] then x else Fold(ops[1..], t, Touch(ops[0], t, x))
  }

  lemma ExecTouches<T>(db: Db<T>, op: Op<T>, t: T)
    ensures TableOf(Exec(db, op), t) == Touch(op, t, TableOf(db, t))
  {
  }

  lemma {:induction false} ApplyFolds<T>(ops: seq<Op<T>>, db: Db<T>, t: T)
    ensures TableOf(Apply(ops, db), t) == Fold(ops, t, TableOf(db, t))
  {
    if ops != [] {
      ExecTouches(db, ops[0], t);
      ApplyFolds(ops[1..], Exec(db, ops[0]), t);
    }
  }

  lemma {:induction false} FoldSplits<T>(a: seq<Op<T>>, b: seq<Op<T>>, t: T, x: Option<Table>)
    ensures Fold(a + b, t, x) == Fold(b, t, Fold(a, t, x))
  {
    if a == [] {
      assert a + b == b;
    } else {
      assert (a + b)[1..] == a[1..] + b;
      FoldSplits(a[1..], b, t, Touch(a[0], t, x));
    }
  }

  predicate Creates<T(==)>(op: Op<T>, t: T) { op.Do? && op.st.CreateTable? && op.st.table == t }

  predicate Alters<T(==)>(op: Op<T>, t: T) { op.Do? && (op.st.AddColumn? || op.st.SetProperty?) && op.st.table == t }

  predicate Drops<T(==)>(op: Op<T>, t: T) { op.Do? && op.st.DropTable? && op.st.table == t }

  predicate NeverDrops<T(==)>(ops: seq<Op<T>>, t: T) { forall i :: 0 <= i < |ops| ==> !Drops(ops[i], t) }

  predicate NeverCreates<T(==)>(ops: seq<Op<T>>, t: T) { forall i :: 0 <= i < |ops| ==> !Creates(ops[i], t) }

  // ---- a table that is never dropped ------------------------------------------------------

  function AddedBy<T(==)>(op: Op<T>, t: T): map<string, string> {
    if Alters(op, t) && op.st.AddColumn? then map[op.st.column := op.st.type_] else map[]
  }

  function AssignedBy<T(==)>(op: Op<T>, t: T): map<string, string> {
    if Alters(op, t) && op.st.SetProperty? then map[op.st.key := op.st.value] else map[]
  }

  /** The columns the list adds to an existing table; the first to name one decides its type. */
  function Added<T(==)>(ops: seq<Op<T>>, t: T): map<string, string> {
    if ops == [] then map[] else Added(ops[1..], t) + AddedBy(ops[0], t)
  }

  /** The properties the list sets on an existing table; the last to set one decides its value. */
  function Assigned<T(==)>(ops: seq<Op<T>>, t: T): map<string, string> {
    if ops == [] then map[] else AssignedBy(ops[0], t) + Assigned(ops[1..], t)
  }

  function Grown<T(==)>(ops: seq<Op<T>>, t: T, x: Table): Table {
    Table(Added(ops, t) + x.columns, x.props + Assigned(ops, t))
  }

  lemma TouchGrows<T>(op: Op<T>, t: T, x: Table)
    requires !Drops(op, t)
    ensures Touch(op, t, Some(x)) == Some(Table(AddedBy(op, t) + x.columns, x.props + AssignedBy(op, t)))
  {
    var e: map<string, string> := map[];
    assert e + x.columns == x.columns && x.props + e == x.props;
    if Alters(op, t) && op.st.AddColumn? {
      if op.st.column in x.columns {
        assert AddedBy(op, t) + x.columns == x.columns;
      } else {
        assert AddedBy(op, t) + x.columns == x.columns[op.st.column := op.st.type_];
      }
    } else if Alters(op, t) {
      assert x.props + AssignedBy(op, t) == x.props[op.st.key := op.st.value];
    }
  }

  lemma MergeIsAssociative<K, V>(a: map<K, V>, b: map<K, V>, c: map<K, V>)
    ensures (a + b) + c == a + (b + c)
  {
  }

  /** On a table that is there and never dropped, a list adds its columns and sets its properties. */
  lemma {:induction false} FoldGrows<T>(ops: seq<Op<T>>, t: T, x: Table)
    requires NeverDrops(ops, t)
    ensures Fold(ops, t, Some(x)) == Some(Grown(ops, t, x))
  {
    if ops == [] {
      assert Added(ops, t) + x.columns == x.columns && x.props + Assigned(ops, t) == x.props;
    } else {
      var rest, a, b := ops[1..], AddedBy(ops[0], t), AssignedBy(ops[0], t);
      TouchGrows(ops[0], t, x);
      FoldGrows(rest, t, Table(a + x.columns, x.props + b));
      MergeIsAssociative(Added(rest, t), a, x.columns);
      MergeIsAssociative(x.props, b, Assigned(rest, t));
    }
  }

  lemma GrowsOnce<T>(ops: seq<Op<T>>, t: T, x: Table)
    ensures Grown(ops, t, Grown(ops, t, x)) == Grown(ops, t, x)
  {
    var a, b := Added(ops, t), Assigned(ops, t);
    assert a + (a + x.columns) == a + x.columns;
    assert (x.props + b) + b == x.props + b;
  }

  /** No statement meets a table it needs and that is not there. */
  predicate Grounded<T(==)>(ops: seq<Op<T>>, t: T, x: Option<Table>) {
    ops == [] || ((Alters(ops[0], t) ==> x.Some?) && Grounded(ops[1..], t, Touch(ops[0], t, x)))
  }

  /** A list that drops no table does nothing the second time. */
  lemma {:induction false} FoldOnce<T>(ops: seq<Op<T>>, t: T, x: Option<Table>)
    requires NeverDrops(ops, t) && Grounded(ops, t, x)
    ensures Fold(ops, t, Fold(ops, t, x)) == Fold(ops, t, x)
  {
    if x.Some? {
      FoldGrows(ops, t, x.value);
      FoldGrows(ops, t, Grown(ops, t, x.value));
      GrowsOnce(ops, t, x.value);
    } else if ops != [] {
      var w := Fold(ops, t, x);
      if Creates(ops[0], t) {
        var base := Touch(ops[0], t, x).value;
        FoldGrows(ops[1..], t, base);
        FoldGrows(ops[1..], t, Grown(ops[1..], t, base));
        GrowsOnce(ops[1..], t, base);
      } else {
        assert Touch(ops[0], t, x) == x && Touch(ops[0], t, w) == w by { TouchesOther(ops[0], t); }
        FoldOnce(ops[1..], t, x);
      }
    }
  }

  lemma TouchesOther<T>(op: Op<T>, t: T)
    requires !Creates(op, t) && !Alters(op, t) && !Drops(op, t)
    ensures forall x :: Touch(op, t, x) == x
  {
  }

  // ---- a table that is dropped ------------------------------------------------------------

  lemma {:induction false} StaysGone<T>(ops: seq<Op<T>>, t: T)
    requires NeverCreates(ops, t)
    ensures Fold(ops, t, None) == None
  {
    if ops != [] { StaysGone(ops[1..], t); }
  }

  /** Once dropped, and created no more, a table is gone whatever was there before. */
  lemma GoneAfterDrop<T>(ops: seq<Op<T>>, t: T, d: nat, x: Option<Table>)
    requires d < |ops| && Drops(ops[d], t) && NeverCreates(ops[d + 1..], t)
    ensures Fold(ops, t, x) == None
  {
    assert ops == ops[..d] + ([ops[d]] + ops[d + 1..]);
    FoldSplits(ops[..d], [ops[d]] + ops[d + 1..], t, x);
    FoldSplits([ops[d]], ops[d + 1..], t, Fold(ops[..d], t, x));
    assert Fold([ops[d]], t, Fold(ops[..d], t, x)) == None by { assert [ops[d]][1..] == []; }
    StaysGone(ops[d + 1..], t);
  }

  // ---- lists in order ---------------------------------------------------------------------

  /** No table is created again once it has been dropped. */
  predicate DropsForGood<T(==)>(ops: seq<Op<T>>) {
    forall i, j :: 0 <= i < j < |ops| && ops[i].Do? && ops[i].st.DropTable? ==> !Creates(ops[j], ops[i].st.table)
  }

  predicate CreatedBefore<T(==)>(ops: seq<Op<T>>, i: nat, t: T)
    requires i <= |ops|
  {
    exists j :: 0 <= j < i && Creates(ops[j], t)
  }

  predicate IsAlter<T>(op: Op<T>) { op.Do? && (op.st.AddColumn? || op.st.SetProperty?) }

  /** A table that is altered was created earlier in the list, and is dropped nowhere in it. */
  predicate AltersStandingTables<T(==)>(ops: seq<Op<T>>) {
    forall i :: 0 <= i < |ops| && IsAlter(ops[i]) ==>
      CreatedBefore(ops, i, ops[i].st.table) && NeverDrops(ops, ops[i].st.table)
  }

  predicate Orderly<T(==)>(ops: seq<Op<T>>) { DropsForGood(ops) && AltersStandingTables(ops) }

  lemma {:induction false} Present<T>(ops: seq<Op<T>>, t: T, x: Option<Table>)
    requires NeverDrops(ops, t) && (x.Some? || !NeverCreates(ops, t))
    ensures Fold(ops, t, x).Some?
  {
    if ops != [] { Present(ops[1..], t, Touch(ops[0], t, x)); }
  }

  /** What a list needs of a table it is about to be started on at `a`. */
  predicate Ready<T(==)>(ops: seq<Op<T>>, a: nat, t: T, x: Option<Table>)
    requires a <= |ops|
  {
    NeverDrops(ops, t) && CreatedBefore(ops, a, t) ==> x.Some?
  }

  lemma StaysReady<T>(ops: seq<Op<T>>, a: nat, t: T, x: Option<Table>)
    requires a < |ops| && Ready(ops, a, t, x)
    ensures Ready(ops, a + 1, t, Touch(ops[a], t, x))
  {
    if NeverDrops(ops, t) && CreatedBefore(ops, a + 1, t) {
      var j :| 0 <= j < a + 1 && Creates(ops[j], t);
      assert !Drops(ops[a], t);
      if j < a { assert CreatedBefore(ops, a, t); }
    }
  }

  /** An orderly list meets no missing table, from wherever it is started. */
  lemma {:induction false} OrderlyIsGrounded<T>(ops: seq<Op<T>>, a: nat, p: nat, t: T, x: Option<Table>)
    requires AltersStandingTables(ops) && a <= p <= |ops| && Ready(ops, a, t, x)
    ensures Grounded(ops[a..p], t, x)
    decreases p - a
  {
    if a < p {
      assert ops[a..p][1..] == ops[a + 1..p];
      StaysReady(ops, a, t, x);
      OrderlyIsGrounded(ops, a + 1, p, t, Touch(ops[a], t, x));
      assert Alters(ops[a], t) ==> IsAlter(ops[a]);
    }
  }

  lemma PrefixIsReady<T>(ops: seq<Op<T>>, a: nat, t: T, x: Option<Table>)
    requires a <= |ops|
    ensures Ready(ops, a, t, Fold(ops[..a], t, x))
  {
    if NeverDrops(ops, t) && CreatedBefore(ops, a, t) {
      var j :| 0 <= j < a && Creates(ops[j], t);
      assert Creates(ops[..a][j], t);
      Present(ops[..a], t, x);
    }
  }

  // ---- starting over from an earlier place ------------------------------------------------

  lemma RerunDropped<T>(ops: seq<Op<T>>, a: nat, p: nat, t: T, d: nat, x: Option<Table>)
    requires DropsForGood(ops) && a <= p <= |ops| && d < |ops| && Drops(ops[d], t)
    ensures Fold(ops[a..], t, Fold(ops[..p], t, x)) == None == Fold(ops, t, x)
  {
    GoneAfterDrop(ops, t, d, x);
    if a <= d {
      assert ops[a..][d - a] == ops[d] && ops[a..][d - a + 1..] == ops[d + 1..];
      GoneAfterDrop(ops[a..], t, d - a, Fold(ops[..p], t, x));
    } else {
      assert ops[..p][d] == ops[d];
      assert NeverCreates(ops[..p][d + 1..], t);
      GoneAfterDrop(ops[..p], t, d, x);
      StaysGone(ops[a..], t);
    }
  }

  lemma RerunKept<T>(ops: seq<Op<T>>, a: nat, p: nat, t: T, x: Option<Table>)
    requires AltersStandingTables(ops) && a <= p <= |ops| && NeverDrops(ops, t)
    ensures Fold(ops[a..], t, Fold(ops[..p], t, x)) == Fold(ops, t, x)
  {
    var before, middle, rest := ops[..a], ops[a..p], ops[p..];
    assert ops[..p] == before + middle && ops[a..] == middle + rest && ops == (before + middle) + rest;
    FoldSplits(before, middle, t, x);
    FoldSplits(middle, rest, t, Fold(ops[..p], t, x));
    FoldSplits(before + middle, rest, t, x);
    PrefixIsReady(ops, a, t, x);
    OrderlyIsGrounded(ops, a, p, t, Fold(before, t, x));
    FoldOnce(middle, t, Fold(before, t, x));
  }

  function RecordedBy<T>(op: Op<T>): map<nat, Digest<T>> { if op.Record? then map[op.id := op.digest] else map[] }

  /** The ledger rows the list writes. */
  function Recorded<T>(ops: seq<Op<T>>): map<nat, Digest<T>> {
    if ops == [] then map[] else RecordedBy(ops[0]) + Recorded(ops[1..])
  }

  lemma MergeOne<K, V>(a: map<K, V>, k: K, v: V)
    ensures a + map[k := v] == a[k := v]
  {
  }

  lemma MergeNone<K, V>(a: map<K, V>)
    ensures a + map[] == a && map[] + a == a
  {
  }

  lemma {:induction false} ApplyRecords<T>(ops: seq<Op<T>>, db: Db<T>)
    ensures Apply(ops, db).ledger == db.ledger + Recorded(ops)
  {
    if ops != [] {
      ApplyRecords(ops[1..], Exec(db, ops[0]));
      MergeIsAssociative(db.ledger, RecordedBy(ops[0]), Recorded(ops[1..]));
      if ops[0].Record? { MergeOne(db.ledger, ops[0].id, ops[0].digest); } else { MergeNone(db.ledger); }
    }
  }

  lemma RerunLedger<T>(ops: seq<Op<T>>, a: nat, p: nat, db: Db<T>)
    requires a <= p <= |ops|
    ensures Apply(ops[a..], Apply(ops[..p], db)).ledger == Apply(ops, db).ledger
  {
    var before, middle, rest := ops[..a], ops[a..p], ops[p..];
    assert ops[..p] == before + middle && ops[a..] == middle + rest && ops == (before + middle) + rest;
    ApplySplits(before, middle, db);
    ApplySplits(middle, rest, Apply(ops[..p], db));
    ApplySplits(before + middle, rest, db);
    var x := Apply(before, db);
    ApplyRecords(middle, x);
    ApplyRecords(middle, Apply(middle, x));
    MergedTwice(x.ledger, Recorded(middle));
    ApplyRecords(rest, Apply(middle, x));
    ApplyRecords(rest, Apply(middle, Apply(middle, x)));
  }

  lemma MergedTwice<K, V>(a: map<K, V>, b: map<K, V>)
    ensures (a + b) + b == a + b
  {
  }

  lemma SameDb<T>(a: Db<T>, b: Db<T>)
    requires a.ledger == b.ledger && forall t :: TableOf(a, t) == TableOf(b, t)
    ensures a == b
  {
    assert a.tables == b.tables by {
      forall t ensures (t in a.tables) == (t in b.tables) && (t in a.tables ==> a.tables[t] == b.tables[t]) {
        assert TableOf(a, t) == TableOf(b, t);
      }
    }
  }

  /** Running an orderly list again from any earlier place, over a database the list has already
      taken to any later one, ends exactly where running it once does. */
  lemma Rerun<T>(ops: seq<Op<T>>, a: nat, p: nat, db: Db<T>)
    requires Orderly(ops) && a <= p <= |ops|
    ensures Apply(ops[a..], Apply(ops[..p], db)) == Apply(ops, db)
  {
    var twice, once := Apply(ops[a..], Apply(ops[..p], db)), Apply(ops, db);
    forall t ensures TableOf(twice, t) == TableOf(once, t) {
      RerunTable(ops, a, p, t, db);
    }
    RerunLedger(ops, a, p, db);
    SameDb(twice, once);
  }

  lemma RerunTable<T>(ops: seq<Op<T>>, a: nat, p: nat, t: T, db: Db<T>)
    requires Orderly(ops) && a <= p <= |ops|
    ensures TableOf(Apply(ops[a..], Apply(ops[..p], db)), t) == TableOf(Apply(ops, db), t)
  {
    ApplyFolds(ops[a..], Apply(ops[..p], db), t);
    ApplyFolds(ops[..p], db, t);
    ApplyFolds(ops, db, t);
    if NeverDrops(ops, t) {
      RerunKept(ops, a, p, t, TableOf(db, t));
    } else {
      var d :| 0 <= d < |ops| && Drops(ops[d], t);
      RerunDropped(ops, a, p, t, d, TableOf(db, t));
    }
  }

  /** Nor does any statement fail on the way. */
  lemma RerunSucceeds<T>(ops: seq<Op<T>>, a: nat, p: nat, i: nat, db: Db<T>)
    requires Orderly(ops) && a <= p <= |ops| && a <= i < |ops|
    ensures Succeeds(Apply(ops[a..i], Apply(ops[..p], db)), ops[i])
  {
    if IsAlter(ops[i]) {
      var t := ops[i].st.table;
      var j :| 0 <= j < i && Creates(ops[j], t);
      ApplyFolds(ops[a..i], Apply(ops[..p], db), t);
      ApplyFolds(ops[..p], db, t);
      if j < p {
        assert Creates(ops[..p][j], t);
        Present(ops[..p], t, TableOf(db, t));
      } else {
        assert Creates(ops[a..i][j - a], t);
      }
      Present(ops[a..i], t, TableOf(Apply(ops[..p], db), t));
    }
  }

  // ---- starting over inside one migration -------------------------------------------------

  /** Statements that can be repeated in part: no table is both created and dropped among them, no
      property is given two values, and no ledger row is among them. */
  predicate Calm<T(==)>(ops: seq<Op<T>>) {
    && (forall i :: 0 <= i < |ops| ==> ops[i].Do?)
    && (forall i, j :: 0 <= i < |ops| && 0 <= j < |ops| && ops[i].Do? && ops[i].st.DropTable? ==> !Creates(ops[j], ops[i].st.table))
    && Consonant(ops)
  }

  /** No property is given two values. */
  predicate Consonant<T(==)>(ops: seq<Op<T>>) {
    forall i, j :: 0 <= i < |ops| && 0 <= j < |ops| ==> !Contradict(ops[i], ops[j])
  }

  predicate Contradict<T(==)>(a: Op<T>, b: Op<T>) {
    && a.Do? && b.Do? && a.st.SetProperty? && b.st.SetProperty?
    && a.st.table == b.st.table && a.st.key == b.st.key && a.st.value != b.st.value
  }

  lemma {:induction false} GroundedAt<T>(ops: seq<Op<T>>, t: T, x: Option<Table>, i: nat)
    requires Grounded(ops, t, x) && i < |ops| && Alters(ops[i], t)
    ensures Fold(ops[..i], t, x).Some?
  {
    if i > 0 {
      GroundedAt(ops[1..], t, Touch(ops[0], t, x), i - 1);
      assert ops[..i][1..] == ops[1..][..i - 1];
    }
  }

  lemma {:induction false} AssignedSomewhere<T>(ops: seq<Op<T>>, t: T, key: string)
    requires key in Assigned(ops, t)
    ensures exists i :: 0 <= i < |ops| && Alters(ops[i], t) && ops[i].st.SetProperty? && ops[i].st.key == key
                        && ops[i].st.value == Assigned(ops, t)[key]
  {
    if key in Assigned(ops[1..], t) {
      AssignedSomewhere(ops[1..], t, key);
      var i :| 0 <= i < |ops[1..]| && Alters(ops[1..][i], t) && ops[1..][i].st.SetProperty? && ops[1..][i].st.key == key
               && ops[1..][i].st.value == Assigned(ops[1..], t)[key];
      assert ops[i + 1] == ops[1..][i];
    } else {
      assert ops[0].st.key == key;
    }
  }

  /** The table as statement `i` leaves it, and what the rest of the list makes of it. */
  lemma FoldThrough<T>(ops: seq<Op<T>>, t: T, x: Option<Table>, i: nat)
    requires i < |ops|
    ensures Fold(ops, t, x) == Fold(ops[i + 1..], t, Touch(ops[i], t, Fold(ops[..i], t, x)))
  {
    assert ops == ops[..i] + ops[i..] && ops[i..][0] == ops[i] && ops[i..][1..] == ops[i + 1..];
    FoldSplits(ops[..i], ops[i..], t, x);
  }

  lemma AbsorbsAlter<T>(ops: seq<Op<T>>, t: T, x: Option<Table>, i: nat)
    requires Consonant(ops) && Grounded(ops, t, x) && NeverDrops(ops, t) && i < |ops| && Alters(ops[i], t)
    ensures Touch(ops[i], t, Fold(ops, t, x)) == Fold(ops, t, x)
  {
    GroundedAt(ops, t, x, i);
    FoldThrough(ops, t, x, i);
    var here := Touch(ops[i], t, Fold(ops[..i], t, x)).value;
    var rest := ops[i + 1..];
    FoldGrows(rest, t, here);
    if ops[i].st.SetProperty? {
      var key := ops[i].st.key;
      if key in Assigned(rest, t) {
        AssignedSomewhere(rest, t, key);
        var j :| 0 <= j < |rest| && Alters(rest[j], t) && rest[j].st.SetProperty? && rest[j].st.key == key
                 && rest[j].st.value == Assigned(rest, t)[key];
        assert !Contradict(ops[i], ops[i + 1 + j]);
      }
      SetAgain(Fold(ops, t, x).value, key, ops[i].st.value);
    }
  }

  lemma SetAgain(x: Table, key: string, value: string)
    requires key in x.props && x.props[key] == value
    ensures x.(props := x.props[key := value]) == x
  {
    assert x.props[key := value] == x.props;
  }

  /** What a list asks of a table for its parts to be repeatable there. */
  predicate Absorbs<T(==)>(ops: seq<Op<T>>, t: T) {
    && Consonant(ops)
    && (NeverDrops(ops, t) || (NeverCreates(ops, t) && forall i :: 0 <= i < |ops| ==> !Alters(ops[i], t)))
  }

  lemma AbsorbsOne<T>(ops: seq<Op<T>>, t: T, x: Option<Table>, i: nat)
    requires Absorbs(ops, t) && Grounded(ops, t, x) && i < |ops|
    ensures Touch(ops[i], t, Fold(ops, t, x)) == Fold(ops, t, x)
  {
    if Alters(ops[i], t) {
      AbsorbsAlter(ops, t, x, i);
    } else if Creates(ops[i], t) {
      assert NeverDrops(ops, t);
      Present(ops, t, x);
    } else if Drops(ops[i], t) {
      GoneAfterDrop(ops, t, i, x);
    } else {
      TouchesOther(ops[i], t);
    }
  }

  lemma {:induction false} AbsorbsPrefix<T>(ops: seq<Op<T>>, t: T, x: Option<Table>, k: nat)
    requires Absorbs(ops, t) && Grounded(ops, t, x) && k <= |ops|
    ensures Fold(ops[..k], t, Fold(ops, t, x)) == Fold(ops, t, x)
  {
    if k > 0 {
      var w := Fold(ops, t, x);
      AbsorbsPrefix(ops, t, x, k - 1);
      AbsorbsOne(ops, t, x, k - 1);
      assert ops[..k] == ops[..k - 1] + [ops[k - 1]];
      FoldSplits(ops[..k - 1], [ops[k - 1]], t, w);
      assert Fold([ops[k - 1]], t, w) == Touch(ops[k - 1], t, w) by { assert [ops[k - 1]][1..] == []; }
    }
  }

  /** Repeating part of a stretch leaves a table that absorbs it as it was. */
  lemma StaysTable<T>(ops: seq<Op<T>>, a: nat, r: nat, q: nat, t: T, db: Db<T>)
    requires Orderly(ops) && a <= r <= q <= |ops| && Absorbs(ops[a..q], t)
    ensures TableOf(Apply(ops[a..r], Apply(ops[..q], db)), t) == TableOf(Apply(ops[..q], db), t)
  {
    ApplyFolds(ops[a..r], Apply(ops[..q], db), t);
    ApplyFolds(ops[..q], db, t);
    assert ops[..q] == ops[..a] + ops[a..q] && ops[a..r] == ops[a..q][..r - a];
    FoldSplits(ops[..a], ops[a..q], t, TableOf(db, t));
    PrefixIsReady(ops, a, t, TableOf(db, t));
    OrderlyIsGrounded(ops, a, q, t, Fold(ops[..a], t, TableOf(db, t)));
    AbsorbsPrefix(ops[a..q], t, Fold(ops[..a], t, TableOf(db, t)), r - a);
  }

  /** A calm stretch of an orderly list is absorbed by every table. */
  lemma CalmAbsorbs<T>(ops: seq<Op<T>>, a: nat, q: nat, t: T)
    requires Orderly(ops) && a <= q <= |ops| && Calm(ops[a..q])
    ensures Absorbs(ops[a..q], t)
  {
    var part := ops[a..q];
    if !NeverDrops(part, t) {
      var d :| 0 <= d < |part| && Drops(part[d], t);
      assert part[d] == ops[a + d];
      forall i | 0 <= i < |part| ensures !Alters(part[i], t) {
        assert part[i] == ops[a + i];
        assert IsAlter(ops[a + i]) ==> NeverDrops(ops, ops[a + i].st.table);
      }
    }
  }

  lemma {:induction false} NothingRecorded<T>(ops: seq<Op<T>>)
    requires forall i :: 0 <= i < |ops| ==> ops[i].Do?
    ensures Recorded(ops) == map[]
  {
    if ops != [] { NothingRecorded(ops[1..]); }
  }

  /** Repeating part of what was already run of a calm stretch changes nothing. */
  lemma Stays<T>(ops: seq<Op<T>>, a: nat, r: nat, q: nat, db: Db<T>)
    requires Orderly(ops) && a <= r <= q <= |ops| && Calm(ops[a..q])
    ensures Apply(ops[a..r], Apply(ops[..q], db)) == Apply(ops[..q], db)
  {
    var again, once := Apply(ops[a..r], Apply(ops[..q], db)), Apply(ops[..q], db);
    forall t ensures TableOf(again, t) == TableOf(once, t) {
      CalmAbsorbs(ops, a, q, t);
      StaysTable(ops, a, r, q, t, db);
    }
    forall i | 0 <= i < |ops[a..r]| ensures ops[a..r][i].Do? {
      assert ops[a..r][i] == ops[a..q][i];
    }
    ApplyRecords(ops[a..r], once);
    NothingRecorded(ops[a..r]);
    SameDb(again, once);
  }
}
