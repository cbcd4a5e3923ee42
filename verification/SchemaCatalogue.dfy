/** The repository's own list of migrations, and why its runs can be repeated. */
module SchemaCatalogue {
  import opened Common
  import opened Migrations
  import opened SchemaRuns

  datatype TableName =
    | CatalystTasks | ClusterSettings | ConsoleMetrics | ConsoleSessions | DagurRuns
    | DagurSchedules | GatowayNetworks | HyliaJobs | HyliaLogs | LanayruClusters | LanayruK8sState
    | LcmInventory | LcmUpdateState | LogosMetrics | MimirResults | MimirSchedules | Nodes
    | Sessions | StorageContainers | UrbosaFirewallRules | UrbosaSegments | UrbosaT0Routers
    | UrbosaT1Routers | UrbosaTunnelMetrics | Users | ValhallaImages | ValiDrsHistory
    | ValiDrsStatus | ValiTasks | VmNvram | Vms | ClusterLocks | UrbosaTransitPool | DfsVdisks
    | DfsBlockMap | DfsEgroups | DfsEgroupReplicas | GatowayVlanClaims | CatalystTaskSequence
    | DfsEgroupAccess | DfsExtentIdMap | DfsSnapshotPolicies | DfsSnapshotIndex
    | DfsProtectionDomains | DfsProtectionDomainMembers | DfsProtectionSets

  /** What each table is created as; nothing below depends on it. */
  type Shape = TableName -> Table

  type Migr = Migration<TableName>

  function Create(shape: Shape, t: TableName): Statement<TableName> { CreateTable(t, shape(t).columns, shape(t).props) }

  function CreateAll(shape: Shape, ts: seq<TableName>): (sts: seq<Statement<TableName>>)
    ensures |sts| == |ts| && forall i :: 0 <= i < |ts| ==> sts[i] == Create(shape, ts[i])
  {
    seq(|ts|, i requires 0 <= i < |ts| => Create(shape, ts[i]))
  }

  const BaselineTables := [
    CatalystTasks, ClusterSettings, ConsoleMetrics, ConsoleSessions, DagurRuns, DagurSchedules, GatowayNetworks,
    HyliaJobs, HyliaLogs, LanayruClusters, LanayruK8sState, LcmInventory, LcmUpdateState, LogosMetrics, MimirResults,
    MimirSchedules, Nodes, Sessions, StorageContainers, UrbosaFirewallRules, UrbosaSegments, UrbosaT0Routers,
    UrbosaT1Routers, UrbosaTunnelMetrics, Users, ValhallaImages, ValiDrsHistory, ValiDrsStatus, ValiTasks, VmNvram, Vms]

  function One(id: nat, st: Statement<TableName>): Migr { Migration(id, [st], None) }

  function Creating(shape: Shape, id: nat, t: TableName): Migr { One(id, Create(shape, t)) }

  /** 0001 to 0005: every table that is altered later is made here. */
  function Founding(shape: Shape): seq<Migr> {
    [Migration(1, CreateAll(shape, BaselineTables), None),
     Creating(shape, 2, ClusterLocks),
     One(3, SetProperty(CatalystTasks, "default_time_to_live", "2592000")),
     Creating(shape, 4, UrbosaTransitPool),
     Migration(5, CreateAll(shape, [DfsVdisks, DfsBlockMap, DfsEgroups]), None)]
  }

  /** 0006 makes the table that 0025 drops. */
  function Replication(shape: Shape): Migr {
    Migration(6, [AddColumn(DfsVdisks, "replicas", "list<text>"), AddColumn(DfsVdisks, "rf", "int"),
                  Create(shape, DfsEgroupReplicas)], None)
  }

  /** 0007 to 0032. */
  function Later(shape: Shape): seq<Migr> {
    [One(7, AddColumn(DfsBlockMap, "vdisk_hash", "bigint")),
     Migration(8, [AddColumn(StorageContainers, "compression", "text"), AddColumn(ValhallaImages, "container", "text")], None),
     Migration(9, [Create(shape, GatowayVlanClaims)], Some("backfill_vlan_claims")),
     One(10, AddColumn(Vms, "graphics", "text")),
     One(11, AddColumn(CatalystTasks, "parent_task_id", "uuid")),
     One(12, AddColumn(CatalystTasks, "component", "text")),
     One(13, AddColumn(CatalystTasks, "sequence_id", "bigint")),
     One(14, AddColumn(CatalystTasks, "task_type", "text")),
     One(15, AddColumn(CatalystTasks, "completed_at", "timestamp")),
     Creating(shape, 16, CatalystTaskSequence),
     Creating(shape, 17, DfsEgroupAccess),
     Creating(shape, 20, DfsExtentIdMap),
     One(21, AddColumn(DfsBlockMap, "extent_id", "text")),
     Creating(shape, 22, DfsSnapshotPolicies),
     Creating(shape, 23, DfsSnapshotIndex),
     One(25, DropTable(DfsEgroupReplicas)),
     Creating(shape, 30, DfsProtectionDomains),
     Creating(shape, 31, DfsProtectionDomainMembers),
     Creating(shape, 32, DfsProtectionSets)]
  }

  function All(shape: Shape): seq<Migr> { Founding(shape) + [Replication(shape)] + Later(shape) }

  // ---- reading the list in order ----------------------------------------------------------

  /** What has been done to the tables so far, reading the operations from the front. */
  datatype Books = Books(created: set<TableName>, altered: set<TableName>, dropped: set<TableName>)

  const Blank := Books({}, {}, {})

  predicate Fits(b: Books, op: Op<TableName>) {
    op.Record? || op.st.Backfill? ||
    (if op.st.CreateTable? then op.st.table !in b.dropped
     else if op.st.DropTable? then op.st.table !in b.altered
     else op.st.table in b.created && op.st.table !in b.dropped)
  }

  function Noted(b: Books, op: Op<TableName>): Books {
    if op.Record? || op.st.Backfill? then b
    else if op.st.CreateTable? then b.(created := b.created + {op.st.table})
    else if op.st.DropTable? then b.(dropped := b.dropped + {op.st.table})
    else b.(altered := b.altered + {op.st.table})
  }

  predicate Scans(ops: seq<Op<TableName>>, b: Books) {
    ops == [] || (Fits(b, ops[0]) && Scans(ops[1..], Noted(b, ops[0])))
  }

  function BooksAfter(ops: seq<Op<TableName>>, b: Books): Books {
    if ops == [] then b else BooksAfter(ops[1..], Noted(b, ops[0]))
  }

  lemma {:induction false} ScansOn(x: seq<Op<TableName>>, y: seq<Op<TableName>>, b: Books)
    requires Scans(x, b) && Scans(y, BooksAfter(x, b))
    ensures Scans(x + y, b) && BooksAfter(x + y, b) == BooksAfter(y, BooksAfter(x, b))
  {
    if x == [] {
      assert x + y == y;
    } else {
      assert (x + y)[1..] == x[1..] + y;
      ScansOn(x[1..], y, Noted(b, x[0]));
    }
  }

  lemma {:induction false} NeverDroppedLater(ops: seq<Op<TableName>>, b: Books, t: TableName)
    requires Scans(ops, b) && t in b.altered
    ensures NeverDrops(ops, t)
  {
    if ops != [] {
      NeverDroppedLater(ops[1..], Noted(b, ops[0]), t);
      assert forall i :: 0 < i < |ops| ==> ops[i] == ops[1..][i - 1];
    }
  }

  lemma {:induction false} NeverCreatedLater(ops: seq<Op<TableName>>, b: Books, t: TableName)
    requires Scans(ops, b) && t in b.dropped
    ensures NeverCreates(ops, t)
  {
    if ops != [] {
      NeverCreatedLater(ops[1..], Noted(b, ops[0]), t);
      assert forall i :: 0 < i < |ops| ==> ops[i] == ops[1..][i - 1];
    }
  }

  lemma {:induction false} ScansRest(x: seq<Op<TableName>>, y: seq<Op<TableName>>, b: Books)
    requires Scans(x + y, b)
    ensures Scans(y, BooksAfter(x, b))
  {
    if x == [] {
      assert x + y == y;
    } else {
      assert (x + y)[1..] == x[1..] + y;
      ScansRest(x[1..], y, Noted(b, x[0]));
    }
  }

  lemma {:induction false} BooksAreTrue(ops: seq<Op<TableName>>, b: Books, t: TableName)
    ensures t in BooksAfter(ops, b).created ==> t in b.created || !NeverCreates(ops, t)
    ensures t !in BooksAfter(ops, b).dropped ==> t !in b.dropped && NeverDrops(ops, t)
  {
    if ops != [] {
      BooksAreTrue(ops[1..], Noted(b, ops[0]), t);
      assert forall i :: 0 < i < |ops| ==> ops[i] == ops[1..][i - 1];
      if !NeverCreates(ops[1..], t) {
        var i :| 0 <= i < |ops[1..]| && Creates(ops[1..][i], t);
        assert Creates(ops[i + 1], t);
      }
    }
  }

  lemma ScansAt(ops: seq<Op<TableName>>, i: nat)
    requires Scans(ops, Blank) && i < |ops|
    ensures Fits(BooksAfter(ops[..i], Blank), ops[i])
    ensures Scans(ops[i + 1..], Noted(BooksAfter(ops[..i], Blank), ops[i]))
  {
    assert ops == ops[..i] + ops[i..];
    ScansRest(ops[..i], ops[i..], Blank);
    assert ops[i..][0] == ops[i] && ops[i..][1..] == ops[i + 1..];
  }

  lemma AlterStands(ops: seq<Op<TableName>>, i: nat)
    requires Scans(ops, Blank) && i < |ops| && IsAlter(ops[i])
    ensures CreatedBefore(ops, i, ops[i].st.table) && NeverDrops(ops, ops[i].st.table)
  {
    var t := ops[i].st.table;
    ScansAt(ops, i);
    BooksAreTrue(ops[..i], Blank, t);
    var j :| 0 <= j < i && Creates(ops[..i][j], t);
    assert Creates(ops[j], t);
    NeverDroppedLater(ops[i + 1..], Noted(BooksAfter(ops[..i], Blank), ops[i]), t);
    forall k | 0 <= k < |ops| ensures !Drops(ops[k], t) {
      if k < i { assert !Drops(ops[..i][k], t); } else if k > i { assert !Drops(ops[i + 1..][k - i - 1], t); }
    }
  }

  /** A list that scans is orderly. */
  lemma ScanIsOrderly(ops: seq<Op<TableName>>)
    requires Scans(ops, Blank)
    ensures Orderly(ops)
  {
    forall i | 0 <= i < |ops| && IsAlter(ops[i])
      ensures CreatedBefore(ops, i, ops[i].st.table) && NeverDrops(ops, ops[i].st.table)
    {
      AlterStands(ops, i);
    }
    forall i, j | 0 <= i < j < |ops| && ops[i].Do? && ops[i].st.DropTable? ensures !Creates(ops[j], ops[i].st.table) {
      ScansAt(ops, i);
      NeverCreatedLater(ops[i + 1..], Noted(BooksAfter(ops[..i], Blank), ops[i]), ops[i].st.table);
      assert !Creates(ops[i + 1..][j - i - 1], ops[i].st.table);
    }
  }

  // ---- this list --------------------------------------------------------------------------

  const Altered := {CatalystTasks, DfsVdisks, DfsBlockMap, StorageContainers, ValhallaImages, Vms}

  /** Reading on from here, only the tables above may be altered and only 0006's may be dropped. */
  predicate Founded(b: Books) { Altered <= b.created && b.altered <= Altered && b.dropped <= {DfsEgroupReplicas} }

  predicate Plain(st: Statement<TableName>) {
    match st
    case CreateTable(t, _, _) => t != DfsEgroupReplicas
    case AddColumn(t, _, _) => t in Altered
    case SetProperty(t, _, _) => t in Altered
    case DropTable(t) => t == DfsEgroupReplicas
    case Backfill(_) => true
  }

  predicate PlainOps(ops: seq<Op<TableName>>) { forall op <- ops :: op.Do? ==> Plain(op.st) }

  lemma PlainFits(op: Op<TableName>, b: Books)
    requires Founded(b) && (op.Do? ==> Plain(op.st))
    ensures Fits(b, op) && Founded(Noted(b, op))
  {
  }

  lemma {:induction false} PlainScans(ops: seq<Op<TableName>>, b: Books)
    requires Founded(b) && PlainOps(ops)
    ensures Scans(ops, b)
  {
    if ops != [] {
      PlainFits(ops[0], b);
      PlainScans(ops[1..], Noted(b, ops[0]));
    }
  }

  lemma {:induction false} PlainMigrations(ms: seq<Migr>)
    requires forall i :: 0 <= i < |ms| ==> forall st <- ms[i].statements :: Plain(st)
    ensures PlainOps(Ops(ms))
  {
    if ms != [] {
      assert forall i :: 0 <= i < |ms[1..]| ==> ms[1..][i] == ms[i + 1];
      PlainMigrations(ms[1..]);
      forall op | op in OpsOf(ms[0]) && op.Do? ensures Plain(op.st) {
        var k :| 0 <= k < |OpsOf(ms[0])| && OpsOf(ms[0])[k] == op;
        if k < |ms[0].statements| {
          assert ms[0].statements[k] in ms[0].statements;
        } else {
          assert op.st.Backfill?;
        }
      }
    }
  }

  /** Creating tables fits as long as none of them was dropped, and notes them all. */
  lemma {:induction false} CreatesScan(ops: seq<Op<TableName>>, b: Books, t: TableName)
    requires b.dropped == {} && forall op <- ops :: op.Do? ==> op.st.CreateTable?
    ensures Scans(ops, b) && BooksAfter(ops, b).altered == b.altered && BooksAfter(ops, b).dropped == {}
    ensures t in b.created || !NeverCreates(ops, t) ==> t in BooksAfter(ops, b).created
  {
    if ops != [] {
      CreatesScan(ops[1..], Noted(b, ops[0]), t);
      if !NeverCreates(ops, t) && !Creates(ops[0], t) {
        var i :| 0 <= i < |ops| && Creates(ops[i], t);
        assert Creates(ops[1..][i - 1], t);
      }
    }
  }

  lemma BaselineHas(t: TableName)
    requires t == CatalystTasks || t == StorageContainers || t == ValhallaImages || t == Vms
    ensures t in BaselineTables
  {
    assert BaselineTables[0] == CatalystTasks && BaselineTables[18] == StorageContainers
        && BaselineTables[25] == ValhallaImages && BaselineTables[30] == Vms;
  }

  lemma CreatesListed(shape: Shape, id: nat, ts: seq<TableName>, b: Books, t: TableName)
    requires b.dropped == {}
    ensures var ops := OpsOf(Migration(id, CreateAll(shape, ts), None)); var after := BooksAfter(ops, b);
      Scans(ops, b) && after.dropped == {} && after.altered == b.altered && (t in b.created || t in ts ==> t in after.created)
  {
    var ops := OpsOf(Migration(id, CreateAll(shape, ts), None));
    if t in ts {
      var i :| 0 <= i < |ts| && ts[i] == t;
      assert Creates(ops[i], t);
    }
    CreatesScan(ops, b, t);
  }

  /** A migration that only creates tables, read with nothing dropped yet. */
  lemma CreatingScans(shape: Shape, m: Migr, ts: seq<TableName>, b: Books)
    requires b.dropped == {} && m.statements == CreateAll(shape, ts) && m.backfill.None?
    ensures Scans(OpsOf(m), b) && BooksAfter(OpsOf(m), b).dropped == {} && BooksAfter(OpsOf(m), b).altered == b.altered
    ensures forall t :: t in b.created || t in ts ==> t in BooksAfter(OpsOf(m), b).created
  {
    assert m == Migration(m.id, CreateAll(shape, ts), None);
    forall t ensures t in b.created || t in ts ==> t in BooksAfter(OpsOf(m), b).created {
      CreatesListed(shape, m.id, ts, b, t);
    }
    CreatesListed(shape, m.id, ts, b, Nodes);
  }

  lemma {:induction false} OpsAppend(ms: seq<Migr>, m: Migr, b: Books)
    requires Scans(Ops(ms), b) && Scans(OpsOf(m), BooksAfter(Ops(ms), b))
    ensures Scans(Ops(ms + [m]), b) && BooksAfter(Ops(ms + [m]), b) == BooksAfter(OpsOf(m), BooksAfter(Ops(ms), b))
  {
    OpsSplit(ms, [m]);
    assert Ops([m]) == OpsOf(m) by { assert [m][1..] == []; }
    ScansOn(Ops(ms), OpsOf(m), b);
  }

  lemma ReadsFirst(op: Op<TableName>, rest: seq<Op<TableName>>, b: Books)
    ensures Scans([op] + rest, b) == (Fits(b, op) && Scans(rest, Noted(b, op)))
    ensures BooksAfter([op] + rest, b) == BooksAfter(rest, Noted(b, op))
  {
    assert ([op] + rest)[1..] == rest;
  }

  lemma SettingScans(b: Books, id: nat, key: string, value: string)
    requires b.dropped == {} && CatalystTasks in b.created
    ensures var ops := OpsOf(One(id, SetProperty(CatalystTasks, key, value)));
      Scans(ops, b) && BooksAfter(ops, b) == b.(altered := b.altered + {CatalystTasks})
  {
    var m := One(id, SetProperty(CatalystTasks, key, value));
    var x, y := Do(SetProperty(CatalystTasks, key, value)), Record(id, Checksum(m));
    assert OpsOf(m) == [x] + ([y] + []);
    ReadsFirst(x, [y] + [], b);
    ReadsFirst(y, [], Noted(b, x));
  }

  /** The first `n` migrations of `f` scan, and leave these books. */
  predicate Leaves(f: seq<Migr>, n: nat, b: Books) {
    n <= |f| && Scans(Ops(f[..n]), Blank) && BooksAfter(Ops(f[..n]), Blank) == b
  }

  lemma LeavesNext(f: seq<Migr>, n: nat, b: Books)
    requires Leaves(f, n, b) && n < |f| && Scans(OpsOf(f[n]), b)
    ensures Leaves(f, n + 1, BooksAfter(OpsOf(f[n]), b))
  {
    OpsAppend(f[..n], f[n], Blank);
    assert f[..n + 1] == f[..n] + [f[n]];
  }

  predicate HasBaseline(b: Books) {
    b.dropped == {} && CatalystTasks in b.created && StorageContainers in b.created && ValhallaImages in b.created && Vms in b.created
  }

  lemma AfterBaseline(shape: Shape) returns (b: Books)
    ensures Leaves(Founding(shape), 1, b) && HasBaseline(b) && b.altered == {}
  {
    var f := Founding(shape);
    var m := f[0];
    assert Leaves(f, 0, Blank) by { assert Ops(f[..0]) == []; }
    CreatingScans(shape, m, BaselineTables, Blank);
    LeavesNext(f, 0, Blank);
    b := BooksAfter(OpsOf(m), Blank);
    assert HasBaseline(b) by {
      BaselineHas(CatalystTasks);
      BaselineHas(StorageContainers);
      BaselineHas(ValhallaImages);
      BaselineHas(Vms);
    }
  }

  lemma AfterRetention(shape: Shape) returns (b: Books)
    ensures Leaves(Founding(shape), 3, b) && HasBaseline(b) && b.altered == {CatalystTasks}
  {
    var f := Founding(shape);
    var b1 := AfterBaseline(shape);
    assert f[1].statements == CreateAll(shape, [ClusterLocks]);
    CreatingScans(shape, f[1], [ClusterLocks], b1);
    LeavesNext(f, 1, b1);
    var b2 := BooksAfter(OpsOf(f[1]), b1);
    SettingScans(b2, 3, "default_time_to_live", "2592000");
    LeavesNext(f, 2, b2);
    b := BooksAfter(OpsOf(f[2]), b2);
  }

  lemma FoundingScans(shape: Shape)
    ensures Scans(Ops(Founding(shape)), Blank)
    ensures Founded(BooksAfter(Ops(Founding(shape)), Blank)) && BooksAfter(Ops(Founding(shape)), Blank).dropped == {}
  {
    var f := Founding(shape);
    var b3 := AfterRetention(shape);
    assert f[3].statements == CreateAll(shape, [UrbosaTransitPool]);
    CreatingScans(shape, f[3], [UrbosaTransitPool], b3);
    LeavesNext(f, 3, b3);
    var b4 := BooksAfter(OpsOf(f[3]), b3);
    CreatingScans(shape, f[4], [DfsVdisks, DfsBlockMap, DfsEgroups], b4);
    LeavesNext(f, 4, b4);
    assert f[..5] == f;
    assert DfsVdisks in [DfsVdisks, DfsBlockMap, DfsEgroups] && DfsBlockMap in [DfsVdisks, DfsBlockMap, DfsEgroups];
  }

  lemma ReplicationScans(shape: Shape, b: Books)
    requires Founded(b) && b.dropped == {}
    ensures Scans(OpsOf(Replication(shape)), b) && Founded(BooksAfter(OpsOf(Replication(shape)), b))
  {
    var m := Replication(shape);
    var sts := m.statements;
    var x, y, z, w := Do(sts[0]), Do(sts[1]), Do(sts[2]), Record(6, Checksum(m));
    assert OpsOf(m) == [x] + ([y] + ([z] + ([w] + [])));
    ReadsFirst(x, [y] + ([z] + ([w] + [])), b);
    ReadsFirst(y, [z] + ([w] + []), Noted(b, x));
    ReadsFirst(z, [w] + [], Noted(Noted(b, x), y));
    ReadsFirst(w, [], Noted(Noted(Noted(b, x), y), z));
  }

  lemma LaterIsPlain(shape: Shape)
    ensures PlainOps(Ops(Later(shape)))
  {
    var ms := Later(shape);
    forall i | 0 <= i < |ms| ensures forall st <- ms[i].statements :: Plain(st) {
      LaterPlainAt(shape, i);
    }
    PlainMigrations(ms);
  }

  lemma LaterPlainAt(shape: Shape, i: nat)
    requires i < |Later(shape)|
    ensures forall st <- Later(shape)[i].statements :: Plain(st)
  {
  }

  lemma AllScans(shape: Shape)
    ensures Scans(Ops(All(shape)), Blank)
  {
    FoundingScans(shape);
    ReplicationScans(shape, BooksAfter(Ops(Founding(shape)), Blank));
    OpsAppend(Founding(shape), Replication(shape), Blank);
    LaterIsPlain(shape);
    OpsSplit(Founding(shape) + [Replication(shape)], Later(shape));
    PlainScans(Ops(Later(shape)), BooksAfter(Ops(Founding(shape) + [Replication(shape)]), Blank));
    ScansOn(Ops(Founding(shape) + [Replication(shape)]), Ops(Later(shape)), Blank);
  }

  // ---- repeatable -------------------------------------------------------------------------

  /** Statements of which none drops or sets anything, or which stand alone. */
  predicate Quiet(m: Migr) {
    || (|m.statements| == 1 && m.backfill.None?)
    || forall st <- m.statements :: st.CreateTable? || st.AddColumn?
  }

  lemma QuietIsCalm(m: Migr)
    requires Quiet(m)
    ensures Calm(Body(m))
  {
    var ops := Body(m);
    forall i | 0 <= i < |ops| ensures ops[i].Do? {}
    if !(|m.statements| == 1 && m.backfill.None?) {
      forall i | 0 <= i < |ops| ensures !ops[i].st.DropTable? && !ops[i].st.SetProperty? {
        if i < |m.statements| { assert m.statements[i] in m.statements; }
      }
    }
  }

  predicate Rising(ms: seq<Migr>) { forall i :: 0 <= i < |ms| - 1 ==> ms[i].id < ms[i + 1].id }

  lemma {:induction false} RisingApart(ms: seq<Migr>, i: nat, j: nat)
    requires Rising(ms) && i < j < |ms|
    ensures ms[i].id < ms[j].id
  {
    if i < j - 1 { RisingApart(ms, i, j - 1); }
  }

  lemma AllQuiet(shape: Shape, i: nat)
    requires i < |All(shape)|
    ensures Quiet(All(shape)[i])
  {
    var a, f, l := All(shape), Founding(shape), Later(shape);
    if i < 5 {
      assert a[i] == f[i];
    } else if i > 5 {
      assert a[i] == l[i - 6];
    }
  }

  lemma AllRising(shape: Shape)
    ensures Rising(All(shape))
  {
    var a, f, l := All(shape), Founding(shape), Later(shape);
    forall i | 0 <= i < |a| - 1 ensures a[i].id < a[i + 1].id {
      if i < 5 { assert a[i] == f[i]; } else if i > 5 { assert a[i] == l[i - 6]; }
      if i + 1 < 5 { assert a[i + 1] == f[i + 1]; } else if i + 1 > 5 { assert a[i + 1] == l[i + 1 - 6]; }
    }
  }

  /** The repository's list is repeatable, whatever its tables are created as. */
  lemma AllIsRepeatable(shape: Shape)
    ensures Repeatable(All(shape))
  {
    var a := All(shape);
    AllScans(shape);
    ScanIsOrderly(Ops(a));
    AllRising(shape);
    forall i, j | 0 <= i < j < |a| ensures a[i].id != a[j].id {
      RisingApart(a, i, j);
    }
    forall m | m in a ensures Calm(Body(m)) {
      var i :| 0 <= i < |a| && a[i] == m;
      AllQuiet(shape, i);
      QuietIsCalm(m);
    }
  }

  /** Every finished run, after whatever runs came before it, leaves the fully migrated schema; the
      table 0006 creates and 0025 drops is not in it, even where it had been created again. */
  lemma RunsConverge(shape: Shape, ws: seq<World<TableName>>, es: seq<Event>, i: nat)
    requires History(All(shape), ws, es) && i < |es| && es[i].Finish?
    ensures ws[i + 1].db == Apply(Ops(All(shape)), ws[0].db)
    ensures ws[i + 1].db.ledger == LedgerOf(All(shape))
    ensures DfsEgroupReplicas !in ws[i + 1].db.tables
  {
    AllIsRepeatable(shape);
    FinishedRunsConverge(All(shape), ws, es, i);
    var ops, t := Ops(All(shape)), DfsEgroupReplicas;
    DropIsListed(shape);
    var d :| 0 <= d < |ops| && Drops(ops[d], t);
    ApplyFolds(ops, ws[0].db, t);
    GoneAfterDrop(ops, t, d, TableOf(ws[0].db, t));
  }

  lemma DropIsListed(shape: Shape)
    ensures exists d :: 0 <= d < |Ops(All(shape))| && Drops(Ops(All(shape))[d], DfsEgroupReplicas)
  {
    var a := All(shape);
    assert a[21] == Later(shape)[15];
    NextStart(a, 21);
    assert Ops(a)[Start(a, 21)] == OpsOf(a[21])[0] by {
      assert Ops(a)[Start(a, 21)..Start(a, 22)][0] == Ops(a)[Start(a, 21)];
    }
    assert Drops(Ops(a)[Start(a, 21)], DfsEgroupReplicas);
  }

  // ---- a crash in the middle of a stale run -------------------------------------------------

  /** The one property the list sets is set once. */
  lemma AllConsonant(shape: Shape)
    ensures Consonant(Ops(All(shape)))
  {
    var ops := Ops(All(shape));
    forall i, j | 0 <= i < |ops| && 0 <= j < |ops| ensures !Contradict(ops[i], ops[j]) {
      OneProperty(shape, i);
      OneProperty(shape, j);
    }
  }

  lemma OneProperty(shape: Shape, i: nat)
    requires i < |Ops(All(shape))|
    ensures var op := Ops(All(shape))[i];
      op.Do? && op.st.SetProperty? ==> op.st == SetProperty(CatalystTasks, "default_time_to_live", "2592000")
  {
    StatementOf(All(shape), i);
    var m: nat, k: nat :| FoundAt(All(shape), i, m, k);
    if k < |All(shape)[m].statements| { Singular(shape, m, k); }
  }

  /** The operation is statement `k` of migration `m`, or no statement of a migration. */
  predicate Written(op: Op<TableName>, ms: seq<Migr>, m: nat, k: nat) {
    m < |ms| && (op.Do? && !op.st.Backfill? ==> k < |ms[m].statements| && op.st == ms[m].statements[k])
  }

  predicate FoundAt(ms: seq<Migr>, i: nat, m: nat, k: nat)
    requires i < |Ops(ms)|
  {
    Written(Ops(ms)[i], ms, m, k)
  }

  lemma {:induction false} OwnStatement(m: Migr, i: nat)
    requires i < |OpsOf(m)| && OpsOf(m)[i].Do? && !OpsOf(m)[i].st.Backfill?
    ensures i < |m.statements| && OpsOf(m)[i].st == m.statements[i]
  {
  }

  lemma {:induction false} FoundFirst(ms: seq<Migr>, i: nat)
    requires ms != [] && i < |OpsOf(ms[0])| && i < |Ops(ms)|
    ensures FoundAt(ms, i, 0, i)
  {
    assert Ops(ms)[i] == OpsOf(ms[0])[i];
    if Ops(ms)[i].Do? && !Ops(ms)[i].st.Backfill? { OwnStatement(ms[0], i); }
  }

  lemma InTail(s: seq<Op<TableName>>, head: seq<Op<TableName>>, tail: seq<Op<TableName>>, i: nat)
    requires s == head + tail && |head| <= i < |s|
    ensures i - |head| < |tail| && s[i] == tail[i - |head|]
  {
  }

  lemma {:induction false} OpsTail(ms: seq<Migr>, i: nat)
    requires ms != [] && |OpsOf(ms[0])| <= i < |Ops(ms)|
    ensures i - |OpsOf(ms[0])| < |Ops(ms[1..])| && Ops(ms)[i] == Ops(ms[1..])[i - |OpsOf(ms[0])|]
  {
    InTail(Ops(ms), OpsOf(ms[0]), Ops(ms[1..]), i);
  }

  lemma {:induction false} FoundLater(ms: seq<Migr>, i: nat, m: nat, k: nat)
    requires ms != [] && |OpsOf(ms[0])| <= i < |Ops(ms)|
    requires i - |OpsOf(ms[0])| < |Ops(ms[1..])| && FoundAt(ms[1..], i - |OpsOf(ms[0])|, m, k)
    ensures FoundAt(ms, i, m + 1, k)
  {
    OpsTail(ms, i);
    WrittenLater(Ops(ms)[i], ms, m, k);
  }

  lemma WrittenLater(op: Op<TableName>, ms: seq<Migr>, m: nat, k: nat)
    requires ms != [] && Written(op, ms[1..], m, k)
    ensures Written(op, ms, m + 1, k)
  {
    assert ms[1..][m] == ms[m + 1];
  }

  lemma {:induction false} StatementOf(ms: seq<Migr>, i: nat)
    requires i < |Ops(ms)|
    ensures exists m: nat, k: nat :: FoundAt(ms, i, m, k)
  {
    var n := |OpsOf(ms[0])|;
    if i < n {
      FoundFirst(ms, i);
    } else {
      OpsTail(ms, i);
      StatementOf(ms[1..], i - n);
      var m: nat, k: nat :| FoundAt(ms[1..], i - n, m, k);
      FoundLater(ms, i, m, k);
    }
  }

  /** Among all the statements one sets a property and one drops a table. */
  lemma Singular(shape: Shape, m: nat, k: nat)
    requires m < |All(shape)| && k < |All(shape)[m].statements|
    ensures var st := All(shape)[m].statements[k];
      && (st.SetProperty? ==> st == SetProperty(CatalystTasks, "default_time_to_live", "2592000"))
      && (st.DropTable? ==> st.table == DfsEgroupReplicas)
  {
    var a, f, l := All(shape), Founding(shape), Later(shape);
    assert m < 5 ==> a[m] == f[m];
    assert m > 5 ==> a[m] == l[m - 6];
  }

  /** Only the one table is ever dropped. */
  lemma DropsOnlyOne(shape: Shape, t: TableName)
    requires t != DfsEgroupReplicas
    ensures NeverDrops(Ops(All(shape)), t)
  {
    var ops := Ops(All(shape));
    forall i | 0 <= i < |ops| ensures !Drops(ops[i], t) {
      StatementOf(All(shape), i);
      var m: nat, k: nat :| FoundAt(All(shape), i, m, k);
      if k < |All(shape)[m].statements| { Singular(shape, m, k); }
    }
  }

  /** Wherever a run from a stale read stops short of what had been applied before it, the database it
      leaves differs from the one it found in that table alone. */
  lemma StaleCrashTouchesOneTable(shape: Shape, r: Runner, d0: Db<TableName>, t: TableName)
    requires InRun(All(shape), r) && r.pos <= r.base && t != DfsEgroupReplicas
    ensures TableOf(DbInRun(All(shape), d0, r), t) == TableOf(Apply(Ops(All(shape))[..r.base], d0), t)
    ensures DbInRun(All(shape), d0, r).ledger == Apply(Ops(All(shape))[..r.base], d0).ledger
  {
    AllIsRepeatable(shape);
    AllConsonant(shape);
    DropsOnlyOne(shape, t);
    StaleCrashKeepsTable(All(shape), d0, r, t);
  }

  /** A run that read the ledger before 0006 was recorded, over a fully migrated database, and died
      right after 0006's own statements. */
  function DeadRunner(shape: Shape): Runner { Runner(5, Start(All(shape), 5) + 3, |Ops(All(shape))|) }

  lemma DeadRunnerRuns(shape: Shape)
    ensures InRun(All(shape), DeadRunner(shape)) && !Fresh(All(shape), DeadRunner(shape))
    ensures var ops, from := Ops(All(shape)), Start(All(shape), 5); from + 3 <= |ops| && ops[from..from + 3] == Body(Replication(shape))
  {
    var a := All(shape);
    assert a[5] == Replication(shape);
    NextStart(a, 5);
    assert |Body(Replication(shape))| == 3;
    Reslice(Ops(a), Start(a, 5), Start(a, 5) + 3, Start(a, 6));
    assert OpsOf(a[5])[..3] == Body(a[5]);
    NextStart(a, 6);
  }

  /** It leaves the table 0025 had dropped, with a ledger that says 0025 has run. */
  lemma DeadRunnerBringsTableBack(shape: Shape, d0: Db<TableName>)
    requires d0.ledger == map[]
    ensures InRun(All(shape), DeadRunner(shape))
    ensures DfsEgroupReplicas !in Apply(Ops(All(shape)), d0).tables
    ensures DfsEgroupReplicas in DbInRun(All(shape), d0, DeadRunner(shape)).tables
    ensures DbInRun(All(shape), d0, DeadRunner(shape)).ledger == LedgerOf(All(shape))
  {
    DeadRunnerRuns(shape);
    AllIsRepeatable(shape);
    DropIsListed(shape);
    BringsBack(All(shape), DeadRunner(shape), DfsEgroupReplicas, d0, shape);
    FullLedger(All(shape), DeadRunner(shape), d0);
  }

  lemma ReplicationCreates(shape: Shape, again: seq<Op<TableName>>)
    requires again == Body(Replication(shape))
    ensures !NeverCreates(again, DfsEgroupReplicas) && NeverDrops(again, DfsEgroupReplicas)
  {
    assert Creates(again[2], DfsEgroupReplicas);
  }

  lemma BringsBack(ms: seq<Migr>, r: Runner, t: TableName, d0: Db<TableName>, shape: Shape)
    requires Repeatable(ms) && InRun(ms, r) && r.base == |Ops(ms)| && r.pos <= r.base && t == DfsEgroupReplicas
    requires exists d :: 0 <= d < |Ops(ms)| && Drops(Ops(ms)[d], t)
    requires Ops(ms)[Start(ms, r.j)..r.pos] == Body(Replication(shape))
    ensures t !in Apply(Ops(ms), d0).tables && t in DbInRun(ms, d0, r).tables
  {
    var ops, from := Ops(ms), Start(ms, r.j);
    var d :| 0 <= d < |ops| && Drops(ops[d], t);
    assert ops[..|ops|] == ops;
    ReplicationCreates(shape, ops[from..r.pos]);
    StaleCrashBringsBack(ops, from, r.pos, |ops|, t, d, d0);
  }

  lemma FullLedger(ms: seq<Migr>, r: Runner, d0: Db<TableName>)
    requires Repeatable(ms) && InRun(ms, r) && r.base == |Ops(ms)| && d0.ledger == map[]
    ensures DbInRun(ms, d0, r).ledger == LedgerOf(ms)
  {
    LedgerInRun(ms, d0, r);
    assert Ops(ms)[..|Ops(ms)|] == Ops(ms);
    ApplyRecords(Ops(ms), d0);
    WholeRecords(ms);
    MergeNone(LedgerOf(ms));
  }

  /** No statement of these mentions the table. */
  predicate LeavesAlone(ms: seq<Migr>, t: TableName) {
    forall i, st :: 0 <= i < |ms| && st in ms[i].statements ==> !st.Backfill? && st.table != t
  }

  lemma {:induction false} UntouchedByAll(ops: seq<Op<TableName>>, t: TableName, x: Option<Table>)
    requires forall op <- ops :: op.Do? ==> op.st.Backfill? || op.st.table != t
    ensures Fold(ops, t, x) == x
  {
    if ops != [] {
      assert ops[0] in ops;
      UntouchedByAll(ops[1..], t, x);
    }
  }

  lemma OpsLeaveAlone(ms: seq<Migr>, t: TableName, i: nat)
    requires LeavesAlone(ms, t) && i < |Ops(ms)|
    ensures Ops(ms)[i].Do? ==> Ops(ms)[i].st.Backfill? || Ops(ms)[i].st.table != t
  {
    StatementOf(ms, i);
    var m: nat, k: nat :| FoundAt(ms, i, m, k);
    if Ops(ms)[i].Do? && !Ops(ms)[i].st.Backfill? { assert ms[m].statements[k] in ms[m].statements; }
  }

  /** And once 0025 is recorded no later run removes it: what is then pending, however far a run of it
      comes, does not mention the table. */
  lemma NothingRemovesItAgain(shape: Shape, j: nat, n: nat, db: Db<TableName>)
    requires 22 <= j <= |All(shape)| && n <= |Ops(All(shape)[j..])|
    ensures Pending(All(shape), LedgerOf(All(shape)[..j])) == Ok(All(shape)[j..])
    ensures TableOf(Apply(Ops(All(shape)[j..])[..n], db), DfsEgroupReplicas) == TableOf(db, DfsEgroupReplicas)
  {
    AllIsRepeatable(shape);
    PendingOfPrefix(All(shape), j);
    TailLeavesAlone(shape, All(shape)[j..], j);
    LeftAlone(All(shape)[j..], DfsEgroupReplicas, n, db);
  }

  predicate CreatesOther(m: Migr) {
    |m.statements| == 1 && m.statements[0].CreateTable? && m.statements[0].table != DfsEgroupReplicas
  }

  lemma LaterAt(shape: Shape, m: nat)
    requires 6 <= m < |All(shape)|
    ensures m - 6 < |Later(shape)| && All(shape)[m] == Later(shape)[m - 6]
  {
  }

  lemma LastThree(shape: Shape, k: nat)
    requires 16 <= k < |Later(shape)|
    ensures CreatesOther(Later(shape)[k])
  {
  }

  lemma CreatesOtherLeaves(ms: seq<Migr>)
    requires forall i :: 0 <= i < |ms| ==> CreatesOther(ms[i])
    ensures LeavesAlone(ms, DfsEgroupReplicas)
  {
    forall i, st | 0 <= i < |ms| && st in ms[i].statements ensures !st.Backfill? && st.table != DfsEgroupReplicas {
      assert CreatesOther(ms[i]);
    }
  }

  lemma TailLeavesAlone(shape: Shape, ms: seq<Migr>, j: nat)
    requires 22 <= j <= |All(shape)| && ms == All(shape)[j..]
    ensures LeavesAlone(ms, DfsEgroupReplicas)
  {
    forall i | 0 <= i < |ms| ensures CreatesOther(ms[i]) {
      LaterAt(shape, j + i);
      LastThree(shape, j + i - 6);
    }
    CreatesOtherLeaves(ms);
  }

  lemma LeftAlone(ms: seq<Migr>, t: TableName, n: nat, db: Db<TableName>)
    requires LeavesAlone(ms, t) && n <= |Ops(ms)|
    ensures TableOf(Apply(Ops(ms)[..n], db), t) == TableOf(db, t)
  {
    var ops := Ops(ms)[..n];
    forall op | op in ops ensures op.Do? ==> op.st.Backfill? || op.st.table != t {
      var i :| 0 <= i < |ops| && ops[i] == op;
      OpsLeaveAlone(ms, t, i);
    }
    ApplyFolds(ops, db, t);
    UntouchedByAll(ops, t, TableOf(db, t));
  }
}
