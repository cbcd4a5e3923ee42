/** Daruk's typed compare-and-swap endpoints.

    Every endpoint is one guarded update of one row. A request body is bound to the
    endpoint's declared parameters, the guard is evaluated against the row as it stands,
    and either every assigned cell is written or nothing is. Cells and row markers carry
    their own expiry, because that is what the cluster locks depend on.
 */
module Daruk {
  import opened Common

  // ---- request bodies and column values -------------------------------------------------

  datatype Json =
    | JNull
    | JBool(b: bool)
    | JInt(i: int)
    | JText(s: string)
    | JList(items: seq<Json>)
    | JObject(fields: map<Field, Json>)
    | JNumber            // a number that is not an integer

  datatype Value = Null | Text(s: string) | Int(i: int) | Bool(b: bool) | Texts(items: seq<string>)

  /** Column names and request parameter names. */
  datatype Field =
    | AcquiredAtMs | AudioEnabled | BootDevice | ClaimedAtMs | Class | Component | Container | CpuModel
    | CreatedAtMs | DiskPath | DiskSize | DisksList | DrainSeq | EgroupBytes | Epoch | ExpectedDrainSeq
    | ExpectedEpoch | ExpectedHostIp | ExpectedLastRunEpoch | ExpectedNetId | ExpectedOwner
    | ExpectedReplicas | ExpectedSequenceId | ExtentBytes | Firmware | Graphics | Holder | HolderToken
    | HostIp | Iso | JobName | LastRunEpoch | Lock | Memory | Name | NetId | NetworkId | NextSequenceId
    | Owner | ParentVdisk | Reason | ReleasedHostIp | Replicas | Rf | SizeBytes | State | Status
    | TtlSeconds | Vcpu | VdiskId | VlanId
    | Undeclared(text: string)

  datatype Kind = TextKind | IntKind | BoolKind | ListKind

  datatype Spec =
    | Required(kind: Kind, nullable: bool)
    | Optional(kind: Kind, default: Value, nullable: bool)

  function Elements(items: seq<Json>): (r: seq<string>)
    requires forall j <- items :: j.JText?
    ensures |r| == |items| && forall k :: 0 <= k < |items| ==> items[k] == JText(r[k])
  {
    if items == [] then [] else [items[0].s] + Elements(items[1..])
  }

  /** The value a parameter is bound to, or Err when the body holds the wrong type for it. */
  function Coerce(spec: Spec, j: Json): Result<Value, string> {
    match (spec.kind, j)
    case (_, JNull) => if spec.nullable then Ok(Null) else Err("may not be null")
    case (TextKind, JText(s)) => Ok(Text(s))
    case (IntKind, JInt(i)) => Ok(Int(i))
    case (BoolKind, JBool(b)) => Ok(Bool(b))
    case (ListKind, JList(items)) =>
      if forall x <- items :: x.JText? then Ok(Texts(Elements(items))) else Err("must contain only strings")
    case _ => Err("has the wrong type")
  }

  /** How a bound value is written back as a request value. */
  function Rendered(v: Value): Json {
    match v
    case Null => JNull
    case Text(s) => JText(s)
    case Int(i) => JInt(i)
    case Bool(b) => JBool(b)
    case Texts(items) => JList(seq(|items|, k requires 0 <= k < |items| => JText(items[k])))
  }

  predicate HasKind(v: Value, spec: Spec) {
    match v
    case Null => spec.nullable
    case Text(_) => spec.kind.TextKind?
    case Int(_) => spec.kind.IntKind?
    case Bool(_) => spec.kind.BoolKind?
    case Texts(_) => spec.kind.ListKind?
  }

  /** Coercion never converts: what is accepted is exactly the rendering of a value of the
      declared kind, so a boolean is never read as an integer. */
  lemma CoerceAcceptsExactly(spec: Spec, j: Json)
    ensures Coerce(spec, j).Ok? ==> HasKind(Coerce(spec, j).value, spec) && Rendered(Coerce(spec, j).value) == j
    ensures forall v: Value {:trigger Rendered(v)} :: HasKind(v, spec) && Rendered(v) == j ==> Coerce(spec, j) == Ok(v)
  {
    forall v: Value | HasKind(v, spec) && Rendered(v) == j
      ensures Coerce(spec, j) == Ok(v)
    {
      if v.Texts? {
        assert Elements(j.items) == v.items;
      }
    }
  }

  // ---- endpoints ------------------------------------------------------------------------

  datatype Table = ClusterLocks | DagurSchedules | TaskSequence | Vdisks | VlanClaims | Vms

  datatype Comparison = Eq | Ne

  /** `column` compared with the parameter bound to it. */
  datatype Condition = Condition(comparison: Comparison, param: Field)

  datatype Guard = IfNotExists | If(tests: map<Field, Condition>)

  /** Which parameter each assigned column takes its value from. */
  datatype Effect =
    | Insert(cells: map<Field, Field>, ttl: Option<Field>)
    | Update(cells: map<Field, Field>, ttl: Option<Field>)
    | Delete

  datatype Endpoint = Endpoint(
    table: Table, key: Field, guard: Guard, effect: Effect, fixed: map<Field, Value>, params: map<Field, Spec>)

  const MIGRATION_LOCK := Text("migrating")
  const UNLOCKED_STATUS := Text("running")

  function Need(kind: Kind): Spec { Required(kind, false) }
  function NeedOrNull(kind: Kind): Spec { Required(kind, true) }
  function Default(kind: Kind, v: Value): Spec { Optional(kind, v, false) }

  datatype Op =
    | VmClaim | VmRelease | VmSetState | MigrateLock | MigrateUnlock | MigrateCommit | VmCreate
    | ClaimJob | ClaimSequence
    | LockAcquire | LockRenew | LockRelease
    | ClaimVlan | ReleaseVlan | ReclaimVlan
    | VdiskCreate | VdiskClaim | DrainCommit | SetReplicas

  function VmClaimEndpoint(): (e: Endpoint)
    ensures e.table == Vms && Lasting(e)
  {
    Endpoint(Vms, Name,
             If(map[HostIp := Condition(Eq, ExpectedHostIp)]),
             Update(map[HostIp := HostIp, State := State], None),
             map[],
             map[Name := Need(TextKind), HostIp := Need(TextKind),
                 ExpectedHostIp := Optional(TextKind, Text(""), true), State := Default(TextKind, Text("Running"))])
  }

  function VmReleaseEndpoint(): (e: Endpoint)
    ensures e.table == Vms && Lasting(e)
  {
    Endpoint(Vms, Name,
             If(map[HostIp := Condition(Eq, ExpectedHostIp)]),
             Update(map[HostIp := ReleasedHostIp, State := State], None),
             map[ReleasedHostIp := Text("")],
             map[Name := Need(TextKind), ExpectedHostIp := NeedOrNull(TextKind),
                 State := Default(TextKind, Text("Stopped"))])
  }

  function VmSetStateEndpoint(): (e: Endpoint)
    ensures e.table == Vms && Lasting(e)
  {
    Endpoint(Vms, Name,
             If(map[HostIp := Condition(Eq, ExpectedHostIp)]),
             Update(map[State := State], None),
             map[],
             map[Name := Need(TextKind), State := Need(TextKind), ExpectedHostIp := NeedOrNull(TextKind)])
  }

  function MigrateLockEndpoint(): (e: Endpoint)
    ensures e.table == Vms && Lasting(e)
  {
    Endpoint(Vms, Name,
             If(map[Status := Condition(Ne, Lock)]),
             Update(map[Status := Lock], None),
             map[Lock := MIGRATION_LOCK],
             map[Name := Need(TextKind)])
  }

  function MigrateUnlockEndpoint(): (e: Endpoint)
    ensures e.table == Vms && Lasting(e)
  {
    Endpoint(Vms, Name,
             If(map[Status := Condition(Eq, Lock)]),
             Update(map[Status := Status], None),
             map[Lock := MIGRATION_LOCK],
             map[Name := Need(TextKind), Status := Default(TextKind, UNLOCKED_STATUS)])
  }

  function MigrateCommitEndpoint(): (e: Endpoint)
    ensures e.table == Vms && Lasting(e)
  {
    Endpoint(Vms, Name,
             If(map[HostIp := Condition(Eq, ExpectedHostIp), Status := Condition(Eq, Lock)]),
             Update(map[HostIp := HostIp, Status := Status], None),
             map[Lock := MIGRATION_LOCK],
             map[Name := Need(TextKind), HostIp := Need(TextKind), ExpectedHostIp := NeedOrNull(TextKind),
                 Status := Default(TextKind, UNLOCKED_STATUS)])
  }

  function VmCreateEndpoint(): (e: Endpoint)
    ensures e.table == Vms && Lasting(e)
  {
    Endpoint(Vms, Name,
             IfNotExists,
             Insert(map[Vcpu := Vcpu, Memory := Memory, DiskPath := DiskPath, DiskSize := DiskSize, State := State,
                        HostIp := HostIp, DisksList := DisksList, Firmware := Firmware, Iso := Iso,
                        BootDevice := BootDevice, NetworkId := NetworkId, CpuModel := CpuModel,
                        AudioEnabled := AudioEnabled, Status := Status, Graphics := Graphics], None),
             map[],
             map[Name := Need(TextKind), Vcpu := Default(IntKind, Int(1)), Memory := Default(IntKind, Int(1024)),
                 DiskPath := Default(TextKind, Text("")), DiskSize := Default(IntKind, Int(0)),
                 State := Default(TextKind, Text("Stopped")), HostIp := Default(TextKind, Text("")),
                 DisksList := Default(TextKind, Text("NONE")), Firmware := Default(TextKind, Text("uefi")),
                 Iso := Default(TextKind, Text("")), BootDevice := Default(TextKind, Text("")),
                 NetworkId := Default(TextKind, Text("")), CpuModel := Default(TextKind, Text("")),
                 AudioEnabled := Default(BoolKind, Bool(false)), Status := Optional(TextKind, Null, true),
                 Graphics := Default(TextKind, Text("vnc"))])
  }

  function ClaimJobEndpoint(): (e: Endpoint)
    ensures e.table == DagurSchedules && Lasting(e)
  {
    Endpoint(DagurSchedules, JobName,
             If(map[LastRunEpoch := Condition(Eq, ExpectedLastRunEpoch)]),
             Update(map[LastRunEpoch := LastRunEpoch], None),
             map[],
             map[JobName := Need(TextKind), LastRunEpoch := Need(IntKind),
                 ExpectedLastRunEpoch := NeedOrNull(IntKind)])
  }

  function ClaimSequenceEndpoint(): (e: Endpoint)
    ensures e.table == TaskSequence && Lasting(e)
  {
    Endpoint(TaskSequence, Component,
             If(map[NextSequenceId := Condition(Eq, ExpectedSequenceId)]),
             Update(map[NextSequenceId := NextSequenceId], None),
             map[],
             map[Component := Need(TextKind), NextSequenceId := Need(IntKind),
                 ExpectedSequenceId := NeedOrNull(IntKind)])
  }

  function LockAcquireEndpoint(): (e: Endpoint)
    ensures e.table == ClusterLocks && Lasting(e)
  {
    Endpoint(ClusterLocks, Name,
             IfNotExists,
             Insert(map[Holder := Holder, HolderToken := HolderToken, Reason := Reason,
                        AcquiredAtMs := AcquiredAtMs], Some(TtlSeconds)),
             map[],
             map[Name := Need(TextKind), Holder := Need(TextKind), HolderToken := Need(TextKind),
                 Reason := Default(TextKind, Text("")), AcquiredAtMs := Need(IntKind), TtlSeconds := Need(IntKind)])
  }

  function LockRenewEndpoint(): (e: Endpoint)
    ensures e.table == ClusterLocks && Lasting(e)
  {
    Endpoint(ClusterLocks, Name,
             If(map[HolderToken := Condition(Eq, HolderToken)]),
             Update(map[Holder := Holder, HolderToken := HolderToken, Reason := Reason,
                        AcquiredAtMs := AcquiredAtMs], Some(TtlSeconds)),
             map[],
             map[Name := Need(TextKind), Holder := Need(TextKind), HolderToken := Need(TextKind),
                 Reason := Default(TextKind, Text("")), AcquiredAtMs := Need(IntKind), TtlSeconds := Need(IntKind)])
  }

  function LockReleaseEndpoint(): (e: Endpoint)
    ensures e.table == ClusterLocks && Lasting(e)
  {
    Endpoint(ClusterLocks, Name,
             If(map[HolderToken := Condition(Eq, HolderToken)]),
             Delete,
             map[],
             map[Name := Need(TextKind), HolderToken := Need(TextKind)])
  }

  function ClaimVlanEndpoint(): (e: Endpoint)
    ensures e.table == VlanClaims && Lasting(e)
  {
    Endpoint(VlanClaims, VlanId,
             IfNotExists,
             Insert(map[NetId := NetId, Name := Name, ClaimedAtMs := ClaimedAtMs], None),
             map[],
             map[VlanId := Need(IntKind), NetId := Need(TextKind), Name := Default(TextKind, Text("")),
                 ClaimedAtMs := Need(IntKind)])
  }

  function ReleaseVlanEndpoint(): (e: Endpoint)
    ensures e.table == VlanClaims && Lasting(e)
  {
    Endpoint(VlanClaims, VlanId,
             If(map[NetId := Condition(Eq, NetId)]),
             Delete,
             map[],
             map[VlanId := Need(IntKind), NetId := Need(TextKind)])
  }

  function ReclaimVlanEndpoint(): (e: Endpoint)
    ensures e.table == VlanClaims && Lasting(e)
  {
    Endpoint(VlanClaims, VlanId,
             If(map[NetId := Condition(Eq, ExpectedNetId)]),
             Update(map[NetId := NetId, Name := Name, ClaimedAtMs := ClaimedAtMs], None),
             map[],
             map[VlanId := Need(IntKind), NetId := Need(TextKind), Name := Default(TextKind, Text("")),
                 ClaimedAtMs := Need(IntKind), ExpectedNetId := NeedOrNull(TextKind)])
  }

  function VdiskCreateEndpoint(): (e: Endpoint)
    ensures e.table == Vdisks && Lasting(e)
  {
    Endpoint(Vdisks, VdiskId,
             IfNotExists,
             Insert(map[Container := Container, SizeBytes := SizeBytes, Class := Class, Owner := Owner,
                        Epoch := Epoch, DrainSeq := DrainSeq, ExtentBytes := ExtentBytes,
                        EgroupBytes := EgroupBytes, CreatedAtMs := CreatedAtMs, Replicas := Replicas, Rf := Rf,
                        ParentVdisk := ParentVdisk], None),
             map[],
             map[VdiskId := Need(TextKind), Container := Default(TextKind, Text("default")),
                 SizeBytes := Need(IntKind), Class := Default(TextKind, Text("rw")),
                 Owner := Default(TextKind, Text("")), Epoch := Default(IntKind, Int(0)),
                 DrainSeq := Default(IntKind, Int(0)), ExtentBytes := Default(IntKind, Int(1048576)),
                 EgroupBytes := Default(IntKind, Int(4194304)), CreatedAtMs := Need(IntKind),
                 Replicas := Need(ListKind), Rf := Default(IntKind, Int(1)),
                 ParentVdisk := Default(TextKind, Text(""))])
  }

  function VdiskClaimEndpoint(): (e: Endpoint)
    ensures e.table == Vdisks && Lasting(e)
  {
    Endpoint(Vdisks, VdiskId,
             If(map[Owner := Condition(Eq, ExpectedOwner), Epoch := Condition(Eq, ExpectedEpoch)]),
             Update(map[Owner := Owner, Epoch := Epoch], None),
             map[],
             map[VdiskId := Need(TextKind), Owner := Need(TextKind), Epoch := Need(IntKind),
                 ExpectedOwner := NeedOrNull(TextKind), ExpectedEpoch := NeedOrNull(IntKind)])
  }

  function DrainCommitEndpoint(): (e: Endpoint)
    ensures e.table == Vdisks && Lasting(e)
  {
    Endpoint(Vdisks, VdiskId,
             If(map[DrainSeq := Condition(Eq, ExpectedDrainSeq), Epoch := Condition(Eq, ExpectedEpoch)]),
             Update(map[DrainSeq := DrainSeq], None),
             map[],
             map[VdiskId := Need(TextKind), DrainSeq := Need(IntKind), ExpectedDrainSeq := Need(IntKind),
                 ExpectedEpoch := Need(IntKind)])
  }

  function SetReplicasEndpoint(): (e: Endpoint)
    ensures e.table == Vdisks && Lasting(e)
  {
    Endpoint(Vdisks, VdiskId,
             If(map[Replicas := Condition(Eq, ExpectedReplicas), Epoch := Condition(Eq, ExpectedEpoch)]),
             Update(map[Replicas := Replicas], None),
             map[],
             map[VdiskId := Need(TextKind), Replicas := Need(ListKind), ExpectedReplicas := Need(ListKind),
                 ExpectedEpoch := Need(IntKind)])
  }

  /** The table an operation writes. */
  function TableFor(op: Op): Table {
    match op
    case VmClaim | VmRelease | VmSetState | MigrateLock | MigrateUnlock | MigrateCommit | VmCreate => Vms
    case ClaimJob => DagurSchedules
    case ClaimSequence => TaskSequence
    case LockAcquire | LockRenew | LockRelease => ClusterLocks
    case ClaimVlan | ReleaseVlan | ReclaimVlan => VlanClaims
    case VdiskCreate | VdiskClaim | DrainCommit | SetReplicas => Vdisks
  }

  /** The operation table. */
  function LwtOp(op: Op): (e: Endpoint)
    ensures e.table == TableFor(op) && Lasting(e)
  {
    match op
    case VmClaim => VmClaimEndpoint()
    case VmRelease => VmReleaseEndpoint()
    case VmSetState => VmSetStateEndpoint()
    case MigrateLock => MigrateLockEndpoint()
    case MigrateUnlock => MigrateUnlockEndpoint()
    case MigrateCommit => MigrateCommitEndpoint()
    case VmCreate => VmCreateEndpoint()
    case ClaimJob => ClaimJobEndpoint()
    case ClaimSequence => ClaimSequenceEndpoint()
    case LockAcquire => LockAcquireEndpoint()
    case LockRenew => LockRenewEndpoint()
    case LockRelease => LockReleaseEndpoint()
    case ClaimVlan => ClaimVlanEndpoint()
    case ReleaseVlan => ReleaseVlanEndpoint()
    case ReclaimVlan => ReclaimVlanEndpoint()
    case VdiskCreate => VdiskCreateEndpoint()
    case VdiskClaim => VdiskClaimEndpoint()
    case DrainCommit => DrainCommitEndpoint()
    case SetReplicas => SetReplicasEndpoint()
  }

  // ---- binding a request body -----------------------------------------------------------

  /** One declared parameter: taken from the body, or defaulted, or refused. */
  function BindParam(spec: Spec, fields: map<Field, Json>, f: Field): Result<Value, string> {
    if f in fields then Coerce(spec, fields[f])
    else if spec.Required? then Err("parameter is required")
    else Ok(spec.default)
  }

  predicate Bindable(ep: Endpoint, fields: map<Field, Json>, f: Field)
    requires f in ep.params
  {
    BindParam(ep.params[f], fields, f).Ok?
  }

  predicate Acceptable(ep: Endpoint, body: Json) {
    && body.JObject?
    && body.fields.Keys <= ep.params.Keys
    && (forall f <- ep.params.Keys :: Bindable(ep, body.fields, f))
  }

  function BoundParam(ep: Endpoint, fields: map<Field, Json>, f: Field): Value
    requires f in ep.params && Bindable(ep, fields, f)
  {
    BindParam(ep.params[f], fields, f).value
  }

  /** What the handler's loop has filled in once the parameters of `done` are bound. */
  function Filled(ep: Endpoint, fields: map<Field, Json>, done: set<Field>): map<Field, Value>
    requires done <= ep.params.Keys && forall f <- done :: Bindable(ep, fields, f)
  {
    ep.fixed + map f | f in done :: BoundParam(ep, fields, f)
  }

  lemma FilledOneMore(ep: Endpoint, fields: map<Field, Json>, done: set<Field>, f: Field)
    requires done + {f} <= ep.params.Keys && forall g <- done + {f} :: Bindable(ep, fields, g)
    ensures Filled(ep, fields, done + {f}) == Filled(ep, fields, done)[f := BoundParam(ep, fields, f)]
  {
    assert Filled(ep, fields, done + {f}).Keys == Filled(ep, fields, done)[f := BoundParam(ep, fields, f)].Keys;
  }

  /** The value a request binds to a name: its parameter, else the endpoint's fixed value;
      null when the request is malformed or the name is unknown. */
  function Arg(ep: Endpoint, body: Json, f: Field): Value {
    if !Acceptable(ep, body) then Null
    else if f in ep.params then (if Bindable(ep, body.fields, f) then BoundParam(ep, body.fields, f) else Null)
    else if f in ep.fixed then ep.fixed[f]
    else Null
  }

  /** Everything an accepted request binds. */
  function Bound(ep: Endpoint, body: Json): map<Field, Value> {
    map f | f in ep.fixed.Keys + ep.params.Keys :: Arg(ep, body, f)
  }

  /** The handler's loop: fill the values one declared parameter at a time, giving up at
      the first one that cannot be bound. */
  method FillParams(ep: Endpoint, fields: map<Field, Json>) returns (r: Result<map<Field, Value>, string>)
    ensures r.Ok? <==> forall f <- ep.params.Keys :: Bindable(ep, fields, f)
    ensures r.Ok? ==> r.value == Filled(ep, fields, ep.params.Keys)
  {
    var values, done, todo := ep.fixed, {}, ep.params.Keys;
    assert values == Filled(ep, fields, done);
    while todo != {}
      invariant todo + done == ep.params.Keys
      invariant forall f <- done :: Bindable(ep, fields, f)
      invariant values == Filled(ep, fields, done)
      decreases |todo|
    {
      var f :| f in todo;
      var v := BindParam(ep.params[f], fields, f);
      if v.Err? {
        assert !Bindable(ep, fields, f);
        return Err(v.error);
      }
      FilledOneMore(ep, fields, done, f);
      values, done, todo := values[f := v.value], done + {f}, todo - {f};
    }
    assert done == ep.params.Keys;
    r := Ok(values);
  }

  /** Binding as the handler does it: the body must be an object, unknown names are refused
      rather than ignored, and every declared parameter must bind. */
  method BindLwt(ep: Endpoint, body: Json) returns (r: Result<map<Field, Value>, string>)
    ensures r.Ok? <==> Acceptable(ep, body)
    ensures r.Ok? ==> r.value == Bound(ep, body)
  {
    if !body.JObject? {
      r := Err("request body must be a JSON object of parameters");
    } else if !(body.fields.Keys <= ep.params.Keys) {
      r := Err("unknown parameter(s)");
    } else {
      r := FillParams(ep, body.fields);
      if r.Ok? {
        assert r.value.Keys == Bound(ep, body).Keys;
      }
    }
  }

  // ---- rows -----------------------------------------------------------------------------

  datatype Expiry = Never | Until(t: int)

  datatype Cell = Cell(value: Value, expiry: Expiry)

  /** `marker` is what INSERT leaves and UPDATE does not: it keeps a row existing by itself. */
  datatype Row = Row(marker: Option<Expiry>, cells: map<Field, Cell>)

  datatype Key = Key(table: Table, id: Value)

  type Db = map<Key, Row>

  predicate Live(e: Expiry, now: int) { e.Never? || now < e.t }

  /** A cell that is absent, expired, or in a row that does not exist reads as null. */
  function Read(db: Db, key: Key, col: Field, now: int): Value {
    if key in db && col in db[key].cells && Live(db[key].cells[col].expiry, now) then db[key].cells[col].value else Null
  }

  predicate Exists(db: Db, key: Key, now: int) {
    && key in db
    && (|| (db[key].marker.Some? && Live(db[key].marker.value, now))
        || exists c <- db[key].cells.Keys :: Read(db, key, c, now) != Null)
  }

  predicate Satisfies(v: Value, c: Comparison, w: Value) {
    match c case Eq => v == w case Ne => v != w
  }

  /** The row a request names. */
  function Target(ep: Endpoint, body: Json): Key { Key(ep.table, Arg(ep, body, ep.key)) }

  predicate GuardHolds(db: Db, now: int, ep: Endpoint, body: Json) {
    match ep.guard
    case IfNotExists => !Exists(db, Target(ep, body), now)
    case If(tests) =>
      forall c <- tests.Keys ::
        Satisfies(Read(db, Target(ep, body), c, now), tests[c].comparison, Arg(ep, body, tests[c].param))
  }

  /** When the cells a write leaves will expire. TTL 0 is how the dialect writes "never". */
  function WriteExpiry(ep: Endpoint, body: Json, now: int): Expiry
    requires !ep.effect.Delete?
  {
    if ep.effect.ttl.None? then Never
    else
      var ttl := Arg(ep, body, ep.effect.ttl.value);
      if ttl.Int? && ttl.i != 0 then Until(now + ttl.i) else Never
  }

  /** What the target row of a write holds afterwards: the assigned cells take the bound
      values, every other cell is what it was; only INSERT refreshes the marker. */
  function RowAfter(db: Db, now: int, ep: Endpoint, body: Json): Row
    requires !ep.effect.Delete?
  {
    var key := Target(ep, body);
    var before := if key in db then db[key] else Row(None, map[]);
    var e := WriteExpiry(ep, body, now);
    Row(if ep.effect.Insert? then Some(e) else before.marker,
        before.cells + map c | c in ep.effect.cells.Keys :: Cell(Arg(ep, body, ep.effect.cells[c]), e))
  }

  /** The columns a refused statement reports, as they stand. */
  function Current(db: Db, now: int, ep: Endpoint, key: Key): map<Field, Value> {
    match ep.guard
    case If(tests) => map c | c in tests.Keys :: Read(db, key, c, now)
    case IfNotExists => if key in db then map c | c in db[key].cells.Keys :: Read(db, key, c, now) else map[]
  }

  datatype Answer =
    | BadRequest
    | Failed                                    // the database rejected the statement
    | Applied
    | Refused(current: map<Field, Value>)

  predicate NegativeTtl(ep: Endpoint, body: Json) {
    && !ep.effect.Delete? && ep.effect.ttl.Some?
    && Arg(ep, body, ep.effect.ttl.value).Int? && Arg(ep, body, ep.effect.ttl.value).i < 0
  }

  datatype Request = Request(op: Op, body: Json, now: int)

  /** Every placeholder of the statement is a declared parameter or a fixed value, and a
      TTL is a required integer. */
  predicate Closed(ep: Endpoint) {
    var names := ep.fixed.Keys + ep.params.Keys;
    && ep.key in names
    && (ep.guard.If? ==> forall c <- ep.guard.tests.Keys :: ep.guard.tests[c].param in names)
    && (!ep.effect.Delete? ==>
          && (forall c <- ep.effect.cells.Keys :: ep.effect.cells[c] in names)
          && (ep.effect.ttl.Some? ==> ep.effect.ttl.value in ep.params && ep.params[ep.effect.ttl.value] == Need(IntKind)))
  }

  lemma VmCreateIsClosed()
    ensures Closed(VmCreateEndpoint())
  {
  }

  lemma VdiskCreateIsClosed()
    ensures Closed(VdiskCreateEndpoint())
  {
  }

  lemma VmTableIsClosed(op: Op)
    requires TableFor(op) == Vms
    ensures Closed(LwtOp(op))
  {
    if op == VmCreate { VmCreateIsClosed(); } else { OtherVmOpsAreClosed(op); }
  }

  lemma OtherVmOpsAreClosed(op: Op)
    requires TableFor(op) == Vms && op != VmCreate
    ensures Closed(LwtOp(op))
  {
  }

  lemma VdiskTableIsClosed(op: Op)
    requires TableFor(op) == Vdisks
    ensures Closed(LwtOp(op))
  {
    if op == VdiskCreate { VdiskCreateIsClosed(); } else { OtherVdiskOpsAreClosed(op); }
  }

  lemma OtherVdiskOpsAreClosed(op: Op)
    requires TableFor(op) == Vdisks && op != VdiskCreate
    ensures Closed(LwtOp(op))
  {
  }

  lemma OtherTablesAreClosed(op: Op)
    requires TableFor(op) != Vms && TableFor(op) != Vdisks
    ensures Closed(LwtOp(op))
  {
  }

  predicate ClosedOp(op: Op) { Closed(LwtOp(op)) }

  lemma TableIsClosed(op: Op)
    ensures ClosedOp(op)
  {
    if TableFor(op) == Vms { VmTableIsClosed(op); }
    else if TableFor(op) == Vdisks { VdiskTableIsClosed(op); }
    else { OtherTablesAreClosed(op); }
  }

  /** One request against the store: the new store and the answer sent back. */
  function Execute(db: Db, now: int, ep: Endpoint, body: Json): (Db, Answer) {
    if !Acceptable(ep, body) then (db, BadRequest)
    else if NegativeTtl(ep, body) then (db, Failed)
    else if !GuardHolds(db, now, ep, body) then (db, Refused(Current(db, now, ep, Target(ep, body))))
    else if ep.effect.Delete? then (db - {Target(ep, body)}, Applied)
    else (db[Target(ep, body) := RowAfter(db, now, ep, body)], Applied)
  }

  /** A request applied to exactly this row. */
  predicate Lands(db: Db, now: int, ep: Endpoint, body: Json, key: Key) {
    Execute(db, now, ep, body).1.Applied? && Target(ep, body) == key
  }

  /** Outside the lock table nothing carries an expiry. */
  predicate Permanent(db: Db) {
    forall k <- db.Keys :: k.table != ClusterLocks ==>
      forall c <- db[k].cells.Keys :: db[k].cells[c].expiry == Never
  }

  /** What a column of a permanent row holds, at every clock value. */
  function Get(db: Db, key: Key, c: Field): Value {
    if key in db && c in db[key].cells then db[key].cells[c].value else Null
  }

  lemma GetIsRead(db: Db, key: Key, c: Field, now: int)
    requires Permanent(db) && key.table != ClusterLocks
    ensures Get(db, key, c) == Read(db, key, c, now)
    ensures Get(db, key, c) != Null ==> Exists(db, key, now)
  {
  }

  predicate Lasting(ep: Endpoint) {
    ep.effect.Delete? || ep.table == ClusterLocks || ep.effect.ttl.None?
  }

  lemma StaysPermanent(db: Db, now: int, ep: Endpoint, body: Json)
    requires Permanent(db) && Lasting(ep)
    ensures Permanent(Execute(db, now, ep, body).0)
  {
  }

  /** What column `c` of row `key` holds once the call has applied to that row. */
  function Assigned(db: Db, ep: Endpoint, body: Json, key: Key, c: Field): Value {
    if ep.effect.Delete? then Null
    else if c in ep.effect.cells then Arg(ep, body, ep.effect.cells[c])
    else Get(db, key, c)
  }

  /** A call that does not apply to a row leaves every column of it alone. */
  lemma ColumnKept(db: Db, now: int, ep: Endpoint, body: Json, key: Key, c: Field)
    requires !Lands(db, now, ep, body, key)
    ensures Get(Execute(db, now, ep, body).0, key, c) == Get(db, key, c)
  {
  }

  /** A call that applies assigns the bound values and keeps every other column. */
  lemma ColumnAssigned(db: Db, now: int, ep: Endpoint, body: Json, key: Key, c: Field)
    requires Lands(db, now, ep, body, key)
    ensures Get(Execute(db, now, ep, body).0, key, c) == Assigned(db, ep, body, key, c)
  {
  }

  /** A call that applies met its guard. */
  lemma GuardThrough(db: Db, now: int, ep: Endpoint, body: Json, key: Key, c: Field)
    requires Permanent(db) && key.table != ClusterLocks && Lands(db, now, ep, body, key)
    ensures Acceptable(ep, body)
    ensures ep.guard.If? && c in ep.guard.tests ==>
              Satisfies(Get(db, key, c), ep.guard.tests[c].comparison, Arg(ep, body, ep.guard.tests[c].param))
    ensures ep.guard.IfNotExists? ==> Get(db, key, c) == Null
  {
    GetIsRead(db, key, c, now);
  }

  /** Outside the lock table a well-formed conditional call applies exactly when every condition holds. */
  lemma GuardDecides(db: Db, now: int, ep: Endpoint, body: Json, key: Key)
    requires Permanent(db) && key.table != ClusterLocks && Lasting(ep) && ep.guard.If?
    requires Acceptable(ep, body) && Target(ep, body) == key
    ensures Execute(db, now, ep, body).1.Applied? <==>
      forall c <- ep.guard.tests.Keys :: Satisfies(Get(db, key, c), ep.guard.tests[c].comparison, Arg(ep, body, ep.guard.tests[c].param))
  {
    forall c | c in ep.guard.tests.Keys ensures Get(db, key, c) == Read(db, key, c, now) {
      GetIsRead(db, key, c, now);
    }
  }

  /** A statement that tests these two columns, each for equality, and nothing else. */
  predicate TestsTwo(ep: Endpoint, c: Field, want: Field, d: Field, like: Field) {
    && ep.guard.If? && ep.guard.tests.Keys == {c, d}
    && ep.guard.tests[c] == Condition(Eq, want) && ep.guard.tests[d] == Condition(Eq, like)
  }

  lemma TwoDecide(db: Db, now: int, ep: Endpoint, body: Json, key: Key, c: Field, want: Field, d: Field, like: Field)
    requires Permanent(db) && key.table != ClusterLocks && Lasting(ep) && TestsTwo(ep, c, want, d, like)
    requires Acceptable(ep, body) && Target(ep, body) == key
    ensures Execute(db, now, ep, body).1.Applied? <==> Get(db, key, c) == Arg(ep, body, want) && Get(db, key, d) == Arg(ep, body, like)
  {
    GuardDecides(db, now, ep, body, key);
    assert c in ep.guard.tests.Keys && d in ep.guard.tests.Keys;
  }

  lemma OneDecides(db: Db, now: int, ep: Endpoint, body: Json, key: Key, c: Field, want: Field)
    requires Permanent(db) && key.table != ClusterLocks && Lasting(ep) && ep.guard == If(map[c := Condition(Eq, want)])
    requires Acceptable(ep, body) && Target(ep, body) == key
    ensures Execute(db, now, ep, body).1.Applied? <==> Get(db, key, c) == Arg(ep, body, want)
  {
    GuardDecides(db, now, ep, body, key);
    assert c in ep.guard.tests.Keys;
  }

  /** A create that sets each column it declares, but its key, to the parameter of that name. */
  predicate SetsItsOwn(ep: Endpoint) {
    ep.effect.Insert? && ep.effect.cells.Keys == ep.params.Keys - {ep.key} && forall c <- ep.effect.cells.Keys :: ep.effect.cells[c] == c
  }

  lemma VmCreateSetsItsOwn()
    ensures SetsItsOwn(VmCreateEndpoint())
  {
  }

  lemma VdiskCreateSetsItsOwn()
    ensures SetsItsOwn(VdiskCreateEndpoint())
  {
    VdiskCreateColumns();
  }

  lemma VdiskCreateColumns()
    ensures VdiskCreateEndpoint().effect.Insert? && VdiskCreateEndpoint().effect.cells.Keys == VdiskCreateEndpoint().params.Keys - {VdiskId}
  {
  }

  lemma ClaimVlanSetsItsOwn()
    ensures SetsItsOwn(ClaimVlanEndpoint())
  {
  }

  /** All the creates do. */
  lemma CreatesSetTheirOwn()
    ensures SetsItsOwn(VmCreateEndpoint()) && SetsItsOwn(VdiskCreateEndpoint()) && SetsItsOwn(ClaimVlanEndpoint())
  {
    VmCreateSetsItsOwn();
    VdiskCreateSetsItsOwn();
    ClaimVlanSetsItsOwn();
  }

  /** What such a create leaves where it applies: in each column it declares, what the request bound, given
      or by default. */
  lemma CreateWritesAll(db: Db, now: int, ep: Endpoint, body: Json, f: Field)
    requires SetsItsOwn(ep) && Execute(db, now, ep, body).1.Applied? && f in ep.params && f != ep.key
    ensures Get(Execute(db, now, ep, body).0, Target(ep, body), f) == Arg(ep, body, f)
  {
    ColumnAssigned(db, now, ep, body, Target(ep, body), f);
  }

  /** A well-formed insert that must not overwrite applies exactly when there is no row, whatever is in the
      table beside it. */
  lemma InsertDecides(db: Db, now: int, ep: Endpoint, body: Json)
    requires ep.guard.IfNotExists? && Acceptable(ep, body) && !NegativeTtl(ep, body)
    ensures Execute(db, now, ep, body).1.Applied? <==> !Exists(db, Target(ep, body), now)
  {
  }

  /** What a refusal reports are the row's own values as they stand: of the tested columns, or where the
      row was not to exist, of every column it has. */
  lemma RefusalTells(db: Db, now: int, ep: Endpoint, body: Json)
    requires Execute(db, now, ep, body).1.Refused?
    ensures var key, current := Target(ep, body), Execute(db, now, ep, body).1.current;
      && (forall c <- current.Keys :: current[c] == Read(db, key, c, now))
      && (ep.guard.If? ==> current.Keys == ep.guard.tests.Keys)
      && (ep.guard.IfNotExists? ==> Exists(db, key, now) && key in db && current.Keys == db[key].cells.Keys)
    ensures Execute(db, now, ep, body).0 == db
  {
  }

  /** An endpoint that swaps one column, conditioned on that column alone. */
  predicate Swaps(ep: Endpoint, c: Field, expected: Field) {
    && ep.table != ClusterLocks && ep.guard.If? && ep.guard.tests.Keys == {c} && ep.guard.tests[c] == Condition(Eq, expected)
    && ep.effect == Update(map[c := c], None)
  }

  /** A swap applies exactly when the column holds the expected value, and then assigns the new one. */
  lemma SwapExecutes(db: Db, now: int, ep: Endpoint, body: Json, c: Field, expected: Field)
    requires Permanent(db) && Swaps(ep, c, expected) && Acceptable(ep, body)
    ensures Execute(db, now, ep, body).1.Applied? == (Get(db, Target(ep, body), c) == Arg(ep, body, expected))
    ensures Get(Execute(db, now, ep, body).0, Target(ep, body), c)
         == if Execute(db, now, ep, body).1.Applied? then Arg(ep, body, c) else Get(db, Target(ep, body), c)
  {
    GetIsRead(db, Target(ep, body), c, now);
    if Lands(db, now, ep, body, Target(ep, body)) {
      ColumnAssigned(db, now, ep, body, Target(ep, body), c);
    }
  }

  /** A required parameter of an accepted request has a value of its declared kind. */
  lemma ArgHasKind(ep: Endpoint, body: Json, f: Field)
    requires Acceptable(ep, body) && f in ep.params
    requires ep.params[f].Optional? ==> HasKind(ep.params[f].default, ep.params[f])
    ensures HasKind(Arg(ep, body, f), ep.params[f])
  {
    assert Bindable(ep, body.fields, f);
  }

  function Call(db: Db, r: Request): (Db, Answer) {
    Execute(db, r.now, LwtOp(r.op), r.body)
  }

  predicate Applies(db: Db, r: Request) { Call(db, r).1.Applied? }

  /** The key a request names in its endpoint's table. */
  function Subject(r: Request): Value { Arg(LwtOp(r.op), r.body, LwtOp(r.op).key) }

  // ---- runs -----------------------------------------------------------------------------

  /** The store after the first `i` requests of a run by any number of callers. */
  function DbAt(db: Db, run: seq<Request>, i: nat): Db
    requires i <= |run|
  {
    if i == 0 then db else Call(DbAt(db, run, i - 1), run[i - 1]).0
  }

  /** What a view of the store shows, at the start of a run and after each request. */
  function Trail<S>(db: Db, run: seq<Request>, view: Db -> S): (ss: seq<S>)
    ensures |ss| == |run| + 1
  {
    seq(|run| + 1, i requires 0 <= i <= |run| => view(DbAt(db, run, i)))
  }

  /** What each request of a run did, as told from the store it met. */
  function Deeds<E>(db: Db, run: seq<Request>, tell: (Db, Request) -> E): (es: seq<E>)
    ensures |es| == |run|
  {
    seq(|run|, i requires 0 <= i < |run| => tell(DbAt(db, run, i), run[i]))
  }

  lemma TrailAt<S>(db: Db, run: seq<Request>, view: Db -> S, i: nat)
    requires i <= |run|
    ensures Trail(db, run, view)[i] == view(DbAt(db, run, i))
  {
  }

  lemma DeedAt<E>(db: Db, run: seq<Request>, tell: (Db, Request) -> E, i: nat)
    requires i < |run|
    ensures Deeds(db, run, tell)[i] == tell(DbAt(db, run, i), run[i])
  {
  }

  lemma DbNext(db: Db, run: seq<Request>, i: nat)
    requires i < |run|
    ensures DbAt(db, run, i + 1) == Call(DbAt(db, run, i), run[i]).0
  {
  }

  /** From every good store every request leads to a good one, by a step of the protocol. */
  ghost predicate Obeys<S(!new), E(!new)>(good: Db -> bool, view: Db -> S, tell: (Db, Request) -> E, step: (S, E, S) -> bool) {
    forall db, r {:trigger tell(db, r)} :: good(db) ==> good(Call(db, r).0) && step(view(db), tell(db, r), view(Call(db, r).0))
  }

  lemma ObeysOnce<S(!new), E(!new)>(
      db: Db, r: Request, good: Db -> bool, view: Db -> S, tell: (Db, Request) -> E, step: (S, E, S) -> bool)
    requires good(db) && Obeys(good, view, tell, step)
    ensures good(Call(db, r).0) && step(view(db), tell(db, r), view(Call(db, r).0))
  {
  }

  lemma {:induction false} StaysGood<S(!new), E(!new)>(
      db: Db, run: seq<Request>, good: Db -> bool, view: Db -> S, tell: (Db, Request) -> E, step: (S, E, S) -> bool, i: nat)
    requires good(db) && Obeys(good, view, tell, step) && i <= |run|
    ensures good(DbAt(db, run, i))
  {
    if i > 0 {
      StaysGood(db, run, good, view, tell, step, i - 1);
      DbNext(db, run, i - 1);
      ObeysOnce(DbAt(db, run, i - 1), run[i - 1], good, view, tell, step);
    }
  }

  /** So every run of requests, by any number of callers, is a run of the protocol. */
  lemma RunObeys<S(!new), E(!new)>(
      db: Db, run: seq<Request>, good: Db -> bool, view: Db -> S, tell: (Db, Request) -> E, step: (S, E, S) -> bool, i: nat)
    requires good(db) && Obeys(good, view, tell, step) && i < |run|
    ensures step(Trail(db, run, view)[i], Deeds(db, run, tell)[i], Trail(db, run, view)[i + 1])
  {
    StaysGood(db, run, good, view, tell, step, i);
    ObeysOnce(DbAt(db, run, i), run[i], good, view, tell, step);
    TrailAt(db, run, view, i);
    TrailAt(db, run, view, i + 1);
    DeedAt(db, run, tell, i);
    DbNext(db, run, i);
  }

  // ---- a machine run over the store -------------------------------------------------------

  /** A run in which the actions of one protocol's callers are interleaved with everybody else's
      requests. */
  datatype Item<A> = Mine(act: A, now: int) | Other(request: Request)

  /** The store and the protocol's machine, side by side: an action sends a request, or none. */
  function Beside<S, A>(db: Db, s: S, item: Item<A>, send: (S, A, int) -> Option<Request>, act: (S, A) -> S): (Db, S) {
    match item
    case Mine(a, now) => (if send(s, a, now).Some? then Call(db, send(s, a, now).value).0 else db, act(s, a))
    case Other(r) => (Call(db, r).0, s)
  }

  function Together<S, A>(db: Db, s: S, items: seq<Item<A>>, send: (S, A, int) -> Option<Request>, act: (S, A) -> S): (Db, S) {
    if items == [] then (db, s)
    else
      var (d, t) := Together(db, s, items[..|items| - 1], send, act);
      Beside(d, t, items[|items| - 1], send, act)
  }

  /** What the store holds of the machine survives every action and every request that may come between. */
  ghost predicate Upheld<S(!new), A(!new)>(
    holds: (Db, S) -> bool, between: Request -> bool, send: (S, A, int) -> Option<Request>, act: (S, A) -> S)
  {
    forall db, s, item: Item<A> {:trigger Beside(db, s, item, send, act)} :: holds(db, s) && (item.Other? ==> between(item.request)) ==>
      holds(Beside(db, s, item, send, act).0, Beside(db, s, item, send, act).1)
  }

  lemma {:induction false} StaysUpheld<S(!new), A(!new)>(
    db: Db, s: S, items: seq<Item<A>>, holds: (Db, S) -> bool, between: Request -> bool,
    send: (S, A, int) -> Option<Request>, act: (S, A) -> S)
    requires holds(db, s) && Upheld(holds, between, send, act)
    requires forall item <- items :: item.Other? ==> between(item.request)
    ensures holds(Together(db, s, items, send, act).0, Together(db, s, items, send, act).1)
  {
    if items != [] {
      var n := |items| - 1;
      StaysUpheld(db, s, items[..n], holds, between, send, act);
      assert items[n] in items;
    }
  }

  function OwnActs<A>(items: seq<Item<A>>): seq<A> {
    if items == [] then []
    else
      var rest, last := OwnActs(items[..|items| - 1]), items[|items| - 1];
      if last.Mine? then rest + [last.act] else rest
  }

  // ---- the database's verdict -------------------------------------------------------------

  datatype Column = AppliedColumn | DataColumn(field: Field)

  /** What the driver hands back for a conditional statement. */
  datatype ResultSet = ResultSet(columns: seq<Column>, rows: seq<seq<Value>>)

  predicate Truthy(v: Value) { v != Null && v != Bool(false) && v != Int(0) && v != Text("") && v != Texts([]) }

  /** Columns paired with values, as far as both go; of two columns with one name the later counts. */
  function Zipped(columns: seq<Column>, values: seq<Value>): map<Field, Value> {
    if columns == [] || values == [] then map[]
    else (if columns[0].DataColumn? then map[columns[0].field := values[0]] else map[]) + Zipped(columns[1..], values[1..])
  }

  /** Whether the statement applied, and the conditioned columns as they stand. */
  function SplitLwtResult(r: ResultSet): Result<(bool, map<Field, Value>), string> {
    if r.columns == [] || r.columns[0] != AppliedColumn then Err("statement did not execute as a lightweight transaction")
    else if |r.rows| != 1 then Err("lightweight transaction returned other than one row")
    else if r.rows[0] == [] then Err("row without a verdict")
    else Ok((Truthy(r.rows[0][0]), Zipped(r.columns[1..], r.rows[0][1..])))
  }

  function Columns(fields: seq<Field>): (cs: seq<Column>)
    ensures |cs| == |fields| && forall i :: 0 <= i < |cs| ==> cs[i] == DataColumn(fields[i])
  {
    seq(|fields|, i requires 0 <= i < |fields| => DataColumn(fields[i]))
  }

  function ValuesOf(current: map<Field, Value>, fields: seq<Field>): (vs: seq<Value>)
    requires forall f <- fields :: f in current
    ensures |vs| == |fields| && forall i :: 0 <= i < |vs| ==> vs[i] == current[fields[i]]
  {
    seq(|fields|, i requires 0 <= i < |fields| => current[fields[i]])
  }

  lemma {:induction false} ZippedReadsBack(current: map<Field, Value>, fields: seq<Field>, f: Field)
    requires forall g <- fields :: g in current
    ensures f in Zipped(Columns(fields), ValuesOf(current, fields)) <==> f in fields
    ensures f in fields ==> Zipped(Columns(fields), ValuesOf(current, fields))[f] == current[f]
  {
    if fields != [] {
      assert Columns(fields)[1..] == Columns(fields[1..]) && ValuesOf(current, fields)[1..] == ValuesOf(current, fields[1..]);
      ZippedReadsBack(current, fields[1..], f);
    }
  }

  lemma ZippedIsCurrent(current: map<Field, Value>, fields: seq<Field>)
    requires forall f :: f in fields <==> f in current
    ensures Zipped(Columns(fields), ValuesOf(current, fields)) == current
  {
    forall f
      ensures f in Zipped(Columns(fields), ValuesOf(current, fields)) <==> f in current
      ensures f in current ==> Zipped(Columns(fields), ValuesOf(current, fields))[f] == current[f]
    {
      ZippedReadsBack(current, fields, f);
    }
  }

  /** In whatever order the database lists the columns, the verdict and the values that beat the caller
      are read back exactly. */
  lemma VerdictReadsBack(applied: bool, current: map<Field, Value>, fields: seq<Field>)
    requires forall f :: f in fields <==> f in current
    ensures SplitLwtResult(ResultSet([AppliedColumn] + Columns(fields), [[Bool(applied)] + ValuesOf(current, fields)])) == Ok((applied, current))
  {
    ZippedIsCurrent(current, fields);
    SplitsOff(applied, Columns(fields), ValuesOf(current, fields), current);
  }

  lemma SplitsOff(applied: bool, columns: seq<Column>, values: seq<Value>, current: map<Field, Value>)
    requires Zipped(columns, values) == current
    ensures SplitLwtResult(ResultSet([AppliedColumn] + columns, [[Bool(applied)] + values])) == Ok((applied, current))
  {
    assert ([AppliedColumn] + columns)[1..] == columns && ([Bool(applied)] + values)[1..] == values;
  }

  // ---- the handler ----------------------------------------------------------------------

  /** What the database is handed: a value for every placeholder of the statement. */
  predicate Supplies(ep: Endpoint, binds: map<Field, Value>) {
    && ep.key in binds
    && (ep.guard.If? ==> forall c <- ep.guard.tests.Keys :: ep.guard.tests[c].param in binds)
    && (!ep.effect.Delete? ==>
          && (forall c <- ep.effect.cells.Keys :: ep.effect.cells[c] in binds)
          && (ep.effect.ttl.Some? ==> ep.effect.ttl.value in binds))
  }

  lemma BoundSupplies(ep: Endpoint, body: Json)
    requires Closed(ep)
    ensures Supplies(ep, Bound(ep, body))
  {
  }

  predicate BoundGuard(db: Db, now: int, ep: Endpoint, key: Key, binds: map<Field, Value>)
    requires Supplies(ep, binds)
  {
    match ep.guard
    case IfNotExists => !Exists(db, key, now)
    case If(tests) => forall c <- tests.Keys :: Satisfies(Read(db, key, c, now), tests[c].comparison, binds[tests[c].param])
  }

  function BoundEnd(now: int, ep: Endpoint, binds: map<Field, Value>): Expiry
    requires Supplies(ep, binds) && !ep.effect.Delete?
  {
    var ttl := if ep.effect.ttl.Some? then binds[ep.effect.ttl.value] else Int(0);
    if ttl.Int? && ttl.i != 0 then Until(now + ttl.i) else Never
  }

  function BoundRow(before: Row, now: int, ep: Endpoint, binds: map<Field, Value>): Row
    requires Supplies(ep, binds) && !ep.effect.Delete?
  {
    var e := BoundEnd(now, ep, binds);
    Row(if ep.effect.Insert? then Some(e) else before.marker,
        before.cells + map c | c in ep.effect.cells.Keys :: Cell(binds[ep.effect.cells[c]], e))
  }

  /** Executing with the bound values is executing with the request's arguments. */
  lemma BindingIsFaithful(db: Db, now: int, ep: Endpoint, body: Json)
    requires Closed(ep)
    ensures
      var binds := Bound(ep, body);
      && Supplies(ep, binds)
      && Key(ep.table, binds[ep.key]) == Target(ep, body)
      && BoundGuard(db, now, ep, Target(ep, body), binds) == GuardHolds(db, now, ep, body)
  {
    BoundSupplies(ep, body);
  }

  lemma BoundIsArg(ep: Endpoint, body: Json, f: Field)
    requires f in ep.fixed.Keys + ep.params.Keys
    ensures f in Bound(ep, body) && Bound(ep, body)[f] == Arg(ep, body, f)
  {
  }

  lemma BoundCells(ep: Endpoint, body: Json, e: Expiry)
    requires Closed(ep) && !ep.effect.Delete? && Supplies(ep, Bound(ep, body))
    ensures (map c | c in ep.effect.cells.Keys :: Cell(Bound(ep, body)[ep.effect.cells[c]], e))
         == (map c | c in ep.effect.cells.Keys :: Cell(Arg(ep, body, ep.effect.cells[c]), e))
  {
    forall c | c in ep.effect.cells.Keys
      ensures ep.effect.cells[c] in Bound(ep, body) && Bound(ep, body)[ep.effect.cells[c]] == Arg(ep, body, ep.effect.cells[c])
    {
      BoundIsArg(ep, body, ep.effect.cells[c]);
    }
  }

  lemma BoundExpiry(ep: Endpoint, body: Json, now: int)
    requires Closed(ep) && !ep.effect.Delete? && Supplies(ep, Bound(ep, body))
    ensures BoundEnd(now, ep, Bound(ep, body)) == WriteExpiry(ep, body, now)
  {
    if ep.effect.ttl.Some? { BoundIsArg(ep, body, ep.effect.ttl.value); }
  }

  lemma BoundRowIsFaithful(before: Row, db: Db, now: int, ep: Endpoint, body: Json)
    requires Closed(ep) && !ep.effect.Delete? && Supplies(ep, Bound(ep, body))
    requires before == if Target(ep, body) in db then db[Target(ep, body)] else Row(None, map[])
    ensures BoundRow(before, now, ep, Bound(ep, body)) == RowAfter(db, now, ep, body)
  {
    BoundExpiry(ep, body, now);
    BoundCells(ep, body, WriteExpiry(ep, body, now));
  }

  /** What becomes of a bound statement: it ran and the driver said so, it never ran, or it ran and the
      driver failed all the same. */
  datatype Fate = Answered | NeverRan | AnswerLost

  class Hydra {
    var db: Db

    constructor ()
      ensures db == map[]
    {
      db := map[];
    }

    /** One statement with its bound values, executed as a single conditional write. */
    method ExecuteBound(ep: Endpoint, binds: map<Field, Value>, now: int, ghost body: Json) returns (answer: Answer)
      requires Closed(ep) && Acceptable(ep, body) && binds == Bound(ep, body)
      modifies this
      ensures (db, answer) == Execute(old(db), now, ep, body)
    {
      BindingIsFaithful(db, now, ep, body);
      var key := Key(ep.table, binds[ep.key]);
      if !ep.effect.Delete? && ep.effect.ttl.Some? && binds[ep.effect.ttl.value].Int? && binds[ep.effect.ttl.value].i < 0 {
        answer := Failed;
      } else if !BoundGuard(db, now, ep, key, binds) {
        answer := Refused(Current(db, now, ep, key));
      } else if ep.effect.Delete? {
        db := db - {key};
        answer := Applied;
      } else {
        var before := if key in db then db[key] else Row(None, map[]);
        BoundRowIsFaithful(before, db, now, ep, body);
        db := db[key := BoundRow(before, now, ep, binds)];
        answer := Applied;
      }
    }

    /** A request to a typed endpoint, from body to answer. A driver that fails is answered the same way
        whether the statement ran or not, so a failure says nothing about the row. */
    method HandleLwt(op: Op, body: Json, now: int, fate: Fate) returns (answer: Answer)
      modifies this
      ensures db == if fate == NeverRan then old(db) else Call(old(db), Request(op, body, now)).0
      ensures fate == Answered ==> answer == Call(old(db), Request(op, body, now)).1
      ensures fate != Answered ==> answer == if Acceptable(LwtOp(op), body) then Failed else BadRequest
    {
      TableIsClosed(op);
      answer := HandleAt(LwtOp(op), body, now, fate);
    }

    method HandleAt(ep: Endpoint, body: Json, now: int, fate: Fate) returns (answer: Answer)
      requires Closed(ep)
      modifies this
      ensures db == if fate == NeverRan then old(db) else Execute(old(db), now, ep, body).0
      ensures fate == Answered ==> answer == Execute(old(db), now, ep, body).1
      ensures fate != Answered ==> answer == if Acceptable(ep, body) then Failed else BadRequest
    {
      var bound := BindLwt(ep, body);
      if bound.Err? {
        return BadRequest;
      }
      if fate == NeverRan {
        return Failed;
      }
      answer := ExecuteBound(ep, bound.value, now, body);
      if fate == AnswerLost {
        answer := Failed;
      }
    }
  }
}
