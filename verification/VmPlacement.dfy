/** VM placement and the migration lock, over every run of the vm endpoints. */
module VmPlacement {
  import opened Common
  import opened Daruk

  datatype Vm = Vm(host: Value, status: Value)

  // ---- the protocol on one row ----------------------------------------------------------

  /** What one request did to the VM's placement and lock. */
  datatype Event =
    | Idle
    | Place(expected: Value, host: Value)                     // claim or release
    | Lock
    | Unlock(status: Value)
    | Commit(expected: Value, host: Value, status: Value)
    | Register(host: Value, status: Value)                    // create

  predicate Enabled(v: Vm, e: Event) {
    match e
    case Idle => true
    case Place(x, _) => v.host == x
    case Lock => v.status != MIGRATION_LOCK
    case Unlock(s) => v.status == MIGRATION_LOCK && s != Null
    case Commit(x, _, s) => v.host == x && v.status == MIGRATION_LOCK && s != Null
    case Register(_, _) => v == Vm(Null, Null)
  }

  function Next(v: Vm, e: Event): Vm {
    match e
    case Idle => v
    case Place(_, h) => v.(host := h)
    case Lock => v.(status := MIGRATION_LOCK)
    case Unlock(s) => v.(status := s)
    case Commit(_, h, s) => Vm(h, s)
    case Register(h, s) => Vm(h, s)
  }

  predicate History(vs: seq<Vm>, es: seq<Event>) {
    && |vs| == |es| + 1
    && forall i :: 0 <= i < |es| ==> Enabled(vs[i], es[i]) && vs[i + 1] == Next(vs[i], es[i])
  }

  predicate Moves(e: Event) { e.Place? || e.Commit? || e.Register? }

  /** The host a placement change expected to find; a registration expects no row at all. */
  function Expected(e: Event): Value
    requires Moves(e)
  {
    if e.Register? then Null else e.expected
  }

  /** Between two placement changes with none in between, the host stays where it was put. */
  lemma {:induction false} HostStays(vs: seq<Vm>, es: seq<Event>, i: nat, j: nat)
    requires History(vs, es) && i <= j < |vs|
    requires forall k :: i <= k < j ==> !Moves(es[k])
    ensures vs[i].host == vs[j].host
    decreases j - i
  {
    if i < j {
      assert vs[i + 1] == Next(vs[i], es[i]);
      HostStays(vs, es, i + 1, j);
    }
  }

  /** Applied placement changes form a chain: each one expected what the previous one left. */
  lemma PlacementChain(vs: seq<Vm>, es: seq<Event>, i: nat, j: nat)
    requires History(vs, es) && i < j < |es| && Moves(es[i]) && Moves(es[j])
    requires forall k :: i < k < j ==> !Moves(es[k])
    ensures Expected(es[j]) == es[i].host
  {
    assert vs[i + 1] == Next(vs[i], es[i]) && Enabled(vs[j], es[j]);
    HostStays(vs, es, i + 1, j);
  }

  lemma {:induction false} HostReturns(vs: seq<Vm>, es: seq<Event>, i: nat, j: nat, h: Value)
    requires History(vs, es) && i < j < |vs| && vs[i].host != h && vs[j].host == h
    ensures exists k :: i <= k < j && Moves(es[k]) && es[k].host == h
    decreases j
  {
    assert vs[j] == Next(vs[j - 1], es[j - 1]);
    if vs[j - 1].host == h {
      HostReturns(vs, es, i, j - 1, h);
    }
  }

  /** Of callers that read the same host, one moves the VM away from it; another can only after
      the VM has been placed there again. */
  lemma OneCallerMovesAway(vs: seq<Vm>, es: seq<Event>, i: nat, j: nat)
    requires History(vs, es) && i < j < |es| && Moves(es[i]) && Moves(es[j])
    requires Expected(es[i]) == Expected(es[j]) && es[i].host != Expected(es[i])
    ensures exists k :: i < k < j && Moves(es[k]) && es[k].host == Expected(es[i])
  {
    assert vs[i + 1] == Next(vs[i], es[i]) && Enabled(vs[j], es[j]);
    HostReturns(vs, es, i + 1, j, Expected(es[i]));
  }

  lemma {:induction false} LockLetGo(vs: seq<Vm>, es: seq<Event>, i: nat, j: nat)
    requires History(vs, es) && i <= j < |vs| && vs[i].status == MIGRATION_LOCK && vs[j].status != MIGRATION_LOCK
    ensures exists k :: i <= k < j && (es[k].Unlock? || es[k].Commit?)
    decreases j - i
  {
    assert Enabled(vs[i], es[i]) && vs[i + 1] == Next(vs[i], es[i]);
    if !es[i].Unlock? && !es[i].Commit? {
      LockLetGo(vs, es, i + 1, j);
    }
  }

  /** Between two applied migration locks there is an applied unlock or commit. */
  lemma LocksAlternate(vs: seq<Vm>, es: seq<Event>, i: nat, j: nat)
    requires History(vs, es) && i < j < |es| && es[i].Lock? && es[j].Lock?
    ensures exists k :: i < k < j && (es[k].Unlock? || es[k].Commit?)
  {
    assert vs[i + 1] == Next(vs[i], es[i]) && Enabled(vs[j], es[j]);
    LockLetGo(vs, es, i + 1, j);
  }

  // ---- what stands behind a locked row ----------------------------------------------------

  predicate WritesStatus(e: Event) { e.Lock? || e.Unlock? || e.Commit? || e.Register? }

  /** The event leaves the row reading locked: a lock, or a status that is the lock's own text. */
  predicate LeavesLock(e: Event) {
    e.Lock? || ((e.Unlock? || e.Commit? || e.Register?) && e.status == MIGRATION_LOCK)
  }

  /** The last event before `j` that wrote the status is `i`. */
  predicate LastWrite(es: seq<Event>, i: nat, j: nat) {
    i < j <= |es| && WritesStatus(es[i]) && forall k :: i < k < j ==> !WritesStatus(es[k])
  }

  /** A lock was applied before `j` and nothing has let go of it since. */
  predicate LockBehind(es: seq<Event>, j: nat)
    requires j <= |es|
  {
    exists i :: 0 <= i < j && es[i].Lock? && forall k :: i < k < j ==> !es[k].Unlock? && !es[k].Commit?
  }

  lemma {:induction false} StatusStays(vs: seq<Vm>, es: seq<Event>, i: nat, j: nat)
    requires History(vs, es) && i <= j < |vs| && forall k :: i <= k < j ==> !WritesStatus(es[k])
    ensures vs[j].status == vs[i].status
    decreases j
  {
    if i < j {
      StatusStays(vs, es, i, j - 1);
      assert vs[j] == Next(vs[j - 1], es[j - 1]);
    }
  }

  lemma {:induction false} SomeLastWrite(es: seq<Event>, j: nat) returns (i: nat)
    requires j <= |es|
    ensures LastWrite(es, i, j) || forall k :: 0 <= k < j ==> !WritesStatus(es[k])
  {
    i := j;
    while i > 0 && !WritesStatus(es[i - 1])
      invariant i <= j && forall k :: i <= k < j ==> !WritesStatus(es[k])
    {
      i := i - 1;
    }
    if i > 0 { i := i - 1; }
  }

  /** When a row that began unlocked reads locked, whatever the callers wrote: exactly when the last
      write of its status was a lock or the lock's own text. */
  lemma ReadsLocked(vs: seq<Vm>, es: seq<Event>, j: nat)
    requires History(vs, es) && j < |vs| && vs[0].status != MIGRATION_LOCK
    ensures vs[j].status == MIGRATION_LOCK <==> exists i: nat :: LastWrite(es, i, j) && LeavesLock(es[i])
  {
    var i := SomeLastWrite(es, j);
    if LastWrite(es, i, j) {
      WrittenLast(vs, es, i, j);
      forall k: nat | LastWrite(es, k, j) ensures k == i {}
    } else {
      StatusStays(vs, es, 0, j);
    }
  }

  lemma WrittenLast(vs: seq<Vm>, es: seq<Event>, i: nat, j: nat)
    requires History(vs, es) && j < |vs| && LastWrite(es, i, j)
    ensures vs[j].status == MIGRATION_LOCK <==> LeavesLock(es[i])
  {
    StatusStays(vs, es, i + 1, j);
    assert vs[i + 1] == Next(vs[i], es[i]);
  }

  /** A commit applies only on a row that reads locked, and an applied lock that nothing has let go of
      stands behind it exactly when what last wrote the status was a lock. */
  lemma CommitHoldsLock(vs: seq<Vm>, es: seq<Event>, i: nat, j: nat)
    requires History(vs, es) && j < |vs| && LastWrite(es, i, j) && vs[j].status == MIGRATION_LOCK
    ensures LockBehind(es, j) <==> es[i].Lock?
  {
    if es[i].Lock? {
      assert forall k :: i < k < j ==> !es[k].Unlock? && !es[k].Commit?;
    } else if LockBehind(es, j) {
      var m :| 0 <= m < j && es[m].Lock? && forall k :: m < k < j ==> !es[k].Unlock? && !es[k].Commit?;
      assert m < i;
      assert vs[m + 1] == Next(vs[m], es[m]) && Enabled(vs[i], es[i]);
      LockLetGo(vs, es, m + 1, i);
    }
  }

  // ---- whose lock an unlock lets go of ----------------------------------------------------

  /** The acquisition the lock belongs to just before event `j`: the last lock, until an unlock or a
      commit lets go of it. */
  function LockAt(es: seq<Event>, j: nat): Option<nat>
    requires j <= |es|
  {
    if j == 0 then None
    else if es[j - 1].Lock? then Some(j - 1)
    else if es[j - 1].Unlock? || es[j - 1].Commit? then None
    else LockAt(es, j - 1)
  }

  predicate LetGoBetween(es: seq<Event>, a: nat, j: nat)
    requires j <= |es|
  {
    exists k :: a < k < j && (es[k].Unlock? || es[k].Commit?)
  }

  lemma {:induction false} LockAtMost(es: seq<Event>, j: nat)
    requires j <= |es|
    ensures LockAt(es, j).Some? ==> LockAt(es, j).value < j && es[LockAt(es, j).value].Lock? && !LetGoBetween(es, LockAt(es, j).value, j)
  {
    if j > 0 { LockAtMost(es, j - 1); }
  }

  /** An unlock or a commit lets go of the lock taken at `a` exactly when none has been applied since.
      Nothing in the request says whose lock it means: after one, the next lets go of a later lock. */
  lemma {:induction false} LetsGoOf(vs: seq<Vm>, es: seq<Event>, a: nat, j: nat)
    requires History(vs, es) && a < j <= |es| && es[a].Lock?
    ensures LockAt(es, j) == Some(a) <==> !LetGoBetween(es, a, j)
    decreases j
  {
    LockAtMost(es, j);
    if j - 1 > a {
      LetsGoOf(vs, es, a, j - 1);
      if es[j - 1].Lock? {
        LocksAlternate(vs, es, a, j - 1);
      } else if es[j - 1].Unlock? || es[j - 1].Commit? {
        assert LetGoBetween(es, a, j);
      } else {
        assert LetGoBetween(es, a, j) <==> LetGoBetween(es, a, j - 1);
      }
    }
  }

  // ---- the endpoints follow the protocol ------------------------------------------------

  function VmKey(id: string): Key { Key(Vms, Text(id)) }

  function View(db: Db, id: string): Vm { Vm(Get(db, VmKey(id), HostIp), Get(db, VmKey(id), Status)) }

  /** What a request asks for, if it applies. */
  function Asked(r: Request): Event {
    var ep := LwtOp(r.op);
    match r.op
    case VmClaim => Place(Arg(ep, r.body, ExpectedHostIp), Arg(ep, r.body, HostIp))
    case VmRelease => Place(Arg(ep, r.body, ExpectedHostIp), Text(""))
    case MigrateLock => Event.Lock
    case MigrateUnlock => Unlock(Arg(ep, r.body, Status))
    case MigrateCommit => Commit(Arg(ep, r.body, ExpectedHostIp), Arg(ep, r.body, HostIp), Arg(ep, r.body, Status))
    case VmCreate => Register(Arg(ep, r.body, HostIp), Arg(ep, r.body, Status))
    case _ => Idle
  }

  function EventOf(db: Db, r: Request, id: string): Event {
    if !Applies(db, r) || Subject(r) != Text(id) then Idle else Asked(r)
  }

  predicate Hit(db: Db, now: int, ep: Endpoint, body: Json, id: string) {
    Permanent(db) && Lands(db, now, ep, body, VmKey(id))
  }

  function After(db: Db, now: int, ep: Endpoint, body: Json, id: string): Vm {
    View(Execute(db, now, ep, body).0, id)
  }

  lemma ClaimStep(db: Db, now: int, ep: Endpoint, body: Json, id: string)
    requires ep == VmClaimEndpoint() && Hit(db, now, ep, body, id)
    ensures View(db, id).host == Arg(ep, body, ExpectedHostIp)
    ensures After(db, now, ep, body, id) == View(db, id).(host := Arg(ep, body, HostIp))
  {
    GuardThrough(db, now, ep, body, VmKey(id), HostIp);
    ColumnAssigned(db, now, ep, body, VmKey(id), HostIp);
    ColumnAssigned(db, now, ep, body, VmKey(id), Status);
  }

  lemma ReleaseStep(db: Db, now: int, ep: Endpoint, body: Json, id: string)
    requires ep == VmReleaseEndpoint() && Hit(db, now, ep, body, id)
    ensures View(db, id).host == Arg(ep, body, ExpectedHostIp)
    ensures After(db, now, ep, body, id) == View(db, id).(host := Text(""))
  {
    GuardThrough(db, now, ep, body, VmKey(id), HostIp);
    ColumnAssigned(db, now, ep, body, VmKey(id), HostIp);
    ColumnAssigned(db, now, ep, body, VmKey(id), Status);
  }

  lemma SetStateStep(db: Db, now: int, ep: Endpoint, body: Json, id: string)
    requires ep == VmSetStateEndpoint() && Hit(db, now, ep, body, id)
    ensures After(db, now, ep, body, id) == View(db, id)
  {
    ColumnAssigned(db, now, ep, body, VmKey(id), HostIp);
    ColumnAssigned(db, now, ep, body, VmKey(id), Status);
  }

  lemma LockStep(db: Db, now: int, ep: Endpoint, body: Json, id: string)
    requires ep == MigrateLockEndpoint() && Hit(db, now, ep, body, id)
    ensures View(db, id).status != MIGRATION_LOCK
    ensures After(db, now, ep, body, id) == View(db, id).(status := MIGRATION_LOCK)
  {
    GuardThrough(db, now, ep, body, VmKey(id), Status);
    ColumnAssigned(db, now, ep, body, VmKey(id), HostIp);
    ColumnAssigned(db, now, ep, body, VmKey(id), Status);
  }

  lemma UnlockStep(db: Db, now: int, ep: Endpoint, body: Json, id: string)
    requires ep == MigrateUnlockEndpoint() && Hit(db, now, ep, body, id)
    ensures View(db, id).status == MIGRATION_LOCK && Arg(ep, body, Status) != Null
    ensures After(db, now, ep, body, id) == View(db, id).(status := Arg(ep, body, Status))
  {
    GuardThrough(db, now, ep, body, VmKey(id), Status);
    ArgHasKind(ep, body, Status);
    ColumnAssigned(db, now, ep, body, VmKey(id), HostIp);
    ColumnAssigned(db, now, ep, body, VmKey(id), Status);
  }

  predicate CommitsMoves(ep: Endpoint) {
    && ep.guard.If? && HostIp in ep.guard.tests && ep.guard.tests[HostIp] == Condition(Eq, ExpectedHostIp)
    && Status in ep.guard.tests && ep.guard.tests[Status] == Condition(Eq, Field.Lock)
    && Field.Lock !in ep.params && Field.Lock in ep.fixed && ep.fixed[Field.Lock] == MIGRATION_LOCK
    && ep.effect.Update? && (forall c <- {HostIp, Status} :: c in ep.effect.cells && ep.effect.cells[c] == c)
    && Status in ep.params && ep.params[Status] == Default(TextKind, UNLOCKED_STATUS)
  }

  lemma CommitCommits()
    ensures CommitsMoves(MigrateCommitEndpoint())
  {
  }

  lemma CommitStep(db: Db, now: int, ep: Endpoint, body: Json, id: string)
    requires CommitsMoves(ep) && Hit(db, now, ep, body, id)
    ensures View(db, id) == Vm(Arg(ep, body, ExpectedHostIp), MIGRATION_LOCK) && Arg(ep, body, Status) != Null
    ensures After(db, now, ep, body, id) == Vm(Arg(ep, body, HostIp), Arg(ep, body, Status))
  {
    GuardThrough(db, now, ep, body, VmKey(id), HostIp);
    GuardThrough(db, now, ep, body, VmKey(id), Status);
    ArgHasKind(ep, body, Status);
    ColumnAssigned(db, now, ep, body, VmKey(id), HostIp);
    ColumnAssigned(db, now, ep, body, VmKey(id), Status);
  }

  predicate RegistersVms(ep: Endpoint) {
    && ep.guard.IfNotExists? && ep.effect.Insert?
    && (forall c <- {HostIp, Status} :: c in ep.effect.cells && ep.effect.cells[c] == c)
  }

  lemma CreateRegisters()
    ensures RegistersVms(VmCreateEndpoint())
  {
  }

  lemma RegisterStep(db: Db, now: int, ep: Endpoint, body: Json, id: string)
    requires RegistersVms(ep) && Hit(db, now, ep, body, id)
    ensures View(db, id) == Vm(Null, Null)
    ensures After(db, now, ep, body, id) == Vm(Arg(ep, body, HostIp), Arg(ep, body, Status))
  {
    GuardThrough(db, now, ep, body, VmKey(id), HostIp);
    GuardThrough(db, now, ep, body, VmKey(id), Status);
    ColumnAssigned(db, now, ep, body, VmKey(id), HostIp);
    ColumnAssigned(db, now, ep, body, VmKey(id), Status);
  }

  lemma MissStep(db: Db, now: int, ep: Endpoint, body: Json, id: string)
    requires !Lands(db, now, ep, body, VmKey(id))
    ensures After(db, now, ep, body, id) == View(db, id)
  {
    ColumnKept(db, now, ep, body, VmKey(id), HostIp);
    ColumnKept(db, now, ep, body, VmKey(id), Status);
  }

  /** The request, applied or not, is the protocol's step for this VM. */
  predicate Follows(db: Db, r: Request, id: string) {
    && Enabled(View(db, id), EventOf(db, r, id))
    && View(Call(db, r).0, id) == Next(View(db, id), EventOf(db, r, id))
  }

  lemma VmClaimFollows(db: Db, r: Request, id: string)
    requires r.op == VmClaim && Hit(db, r.now, VmClaimEndpoint(), r.body, id)
    ensures Follows(db, r, id)
  {
    ClaimStep(db, r.now, VmClaimEndpoint(), r.body, id);
  }

  lemma VmReleaseFollows(db: Db, r: Request, id: string)
    requires r.op == VmRelease && Hit(db, r.now, VmReleaseEndpoint(), r.body, id)
    ensures Follows(db, r, id)
  {
    ReleaseStep(db, r.now, VmReleaseEndpoint(), r.body, id);
  }

  lemma VmSetStateFollows(db: Db, r: Request, id: string)
    requires r.op == VmSetState && Hit(db, r.now, VmSetStateEndpoint(), r.body, id)
    ensures Follows(db, r, id)
  {
    SetStateStep(db, r.now, VmSetStateEndpoint(), r.body, id);
  }

  lemma MigrateLockFollows(db: Db, r: Request, id: string)
    requires r.op == MigrateLock && Hit(db, r.now, MigrateLockEndpoint(), r.body, id)
    ensures Follows(db, r, id)
  {
    LockStep(db, r.now, MigrateLockEndpoint(), r.body, id);
  }

  lemma MigrateUnlockFollows(db: Db, r: Request, id: string)
    requires r.op == MigrateUnlock && Hit(db, r.now, MigrateUnlockEndpoint(), r.body, id)
    ensures Follows(db, r, id)
  {
    UnlockStep(db, r.now, MigrateUnlockEndpoint(), r.body, id);
  }

  lemma MigrateCommitFollows(db: Db, r: Request, ep: Endpoint, id: string)
    requires r.op == MigrateCommit && ep == LwtOp(r.op) && CommitsMoves(ep) && Hit(db, r.now, ep, r.body, id)
    ensures Follows(db, r, id)
  {
    CommitStep(db, r.now, ep, r.body, id);
  }

  lemma VmCreateFollows(db: Db, r: Request, ep: Endpoint, id: string)
    requires r.op == VmCreate && ep == LwtOp(r.op) && RegistersVms(ep) && Hit(db, r.now, ep, r.body, id)
    ensures Follows(db, r, id)
  {
    CreateIsRegister(db, r, ep, id);
    RegisterStep(db, r.now, ep, r.body, id);
  }

  lemma CreateIsRegister(db: Db, r: Request, ep: Endpoint, id: string)
    requires r.op == VmCreate && ep == LwtOp(r.op) && Lands(db, r.now, ep, r.body, VmKey(id))
    ensures EventOf(db, r, id) == Register(Arg(ep, r.body, HostIp), Arg(ep, r.body, Status))
  {
  }

  lemma HitFollows(db: Db, r: Request, id: string)
    requires Hit(db, r.now, LwtOp(r.op), r.body, id)
    ensures Follows(db, r, id)
  {
    assert TableFor(r.op) == Vms;
    match r.op {
      case VmClaim => VmClaimFollows(db, r, id);
      case VmRelease => VmReleaseFollows(db, r, id);
      case VmSetState => VmSetStateFollows(db, r, id);
      case MigrateLock => MigrateLockFollows(db, r, id);
      case MigrateUnlock => MigrateUnlockFollows(db, r, id);
      case MigrateCommit => CommitCommits(); MigrateCommitFollows(db, r, MigrateCommitEndpoint(), id);
      case VmCreate => CreateRegisters(); VmCreateFollows(db, r, VmCreateEndpoint(), id);
    }
  }

  lemma MissFollows(db: Db, r: Request, id: string)
    requires Permanent(db) && !Hit(db, r.now, LwtOp(r.op), r.body, id)
    ensures Follows(db, r, id)
  {
    MissStep(db, r.now, LwtOp(r.op), r.body, id);
  }

  /** One request of any kind follows the protocol of every VM row. */
  lemma Step(db: Db, r: Request, id: string)
    requires Permanent(db)
    ensures Permanent(Call(db, r).0)
    ensures Follows(db, r, id)
  {
    StaysPermanent(db, r.now, LwtOp(r.op), r.body);
    if Hit(db, r.now, LwtOp(r.op), r.body, id) { HitFollows(db, r, id); } else { MissFollows(db, r, id); }
  }

  // ---- runs over the store --------------------------------------------------------------

  predicate Steps(v: Vm, e: Event, w: Vm) { Enabled(v, e) && w == Next(v, e) }

  function Viewer(id: string): Db -> Vm { db => View(db, id) }

  function Teller(id: string): (Db, Request) -> Event { (db, r) => EventOf(db, r, id) }

  function Views(db: Db, run: seq<Request>, id: string): seq<Vm> { Trail(db, run, Viewer(id)) }

  function Events(db: Db, run: seq<Request>, id: string): seq<Event> { Deeds(db, run, Teller(id)) }

  lemma StoreObeys(id: string)
    ensures Obeys(Permanent, Viewer(id), Teller(id), Steps)
  {
    forall db, r | Permanent(db)
      ensures Permanent(Call(db, r).0) && Steps(Viewer(id)(db), Teller(id)(db, r), Viewer(id)(Call(db, r).0))
    {
      Step(db, r, id);
    }
  }

  /** Every run over the store, from any permanent store and with any callers, is a history of
      every VM, so the chain and the lock laws hold of it. */
  lemma RunIsHistory(db: Db, run: seq<Request>, id: string)
    requires Permanent(db)
    ensures History(Views(db, run, id), Events(db, run, id))
  {
    var vs, es := Views(db, run, id), Events(db, run, id);
    StoreObeys(id);
    forall i | 0 <= i < |es| ensures Enabled(vs[i], es[i]) && vs[i + 1] == Next(vs[i], es[i]) {
      RunObeys(db, run, Permanent, Viewer(id), Teller(id), Steps, i);
    }
  }

  // ---- a late unlock ----------------------------------------------------------------------

  /** The endpoint tests the status alone, and fixes what it is tested against. */
  predicate TestsStatus(ep: Endpoint, comparison: Comparison) {
    && ep.table == Vms && ep.guard.If? && ep.guard.tests.Keys == {Status} && ep.guard.tests[Status] == Condition(comparison, Field.Lock)
    && Field.Lock !in ep.params && Field.Lock in ep.fixed && ep.fixed[Field.Lock] == MIGRATION_LOCK
  }

  lemma MigrateEndpointsTestStatus()
    ensures TestsStatus(MigrateLockEndpoint(), Ne) && TestsStatus(MigrateUnlockEndpoint(), Eq)
  {
  }

  lemma StatusDecides(db: Db, now: int, ep: Endpoint, body: Json, id: string, comparison: Comparison)
    requires Permanent(db) && Lasting(ep) && TestsStatus(ep, comparison) && Acceptable(ep, body) && Target(ep, body) == VmKey(id)
    ensures Execute(db, now, ep, body).1.Applied? <==> Satisfies(View(db, id).status, comparison, MIGRATION_LOCK)
  {
    GuardDecides(db, now, ep, body, VmKey(id));
  }

  /** A well-formed request to the operation, for this VM. */
  predicate WellFormed(r: Request, id: string) { Acceptable(LwtOp(r.op), r.body) && Subject(r) == Text(id) }

  /** A well-formed unlock applies exactly when the row reads locked, whoever sends it and whoever locked
      it; a lock exactly when it does not. */
  lemma UnlockApplies(db: Db, r: Request, id: string)
    requires Permanent(db) && WellFormed(r, id) && (r.op == MigrateUnlock || r.op == MigrateLock)
    ensures Applies(db, r) <==> (View(db, id).status == MIGRATION_LOCK) == (r.op == MigrateUnlock)
  {
    MigrateEndpointsTestStatus();
    if r.op == MigrateUnlock {
      StatusDecides(db, r.now, MigrateUnlockEndpoint(), r.body, id, Eq);
    } else {
      StatusDecides(db, r.now, MigrateLockEndpoint(), r.body, id, Ne);
    }
  }

  function NameOnly(op: Op, id: string, now: int): Request { Request(op, JObject(map[Field.Name := JText(id)]), now) }

  lemma NameOnlyBinds(op: Op, id: string, now: int)
    requires op == MigrateLock || op == MigrateUnlock
    ensures WellFormed(NameOnly(op, id, now), id)
    ensures op == MigrateUnlock ==> Arg(LwtOp(op), NameOnly(op, id, now).body, Status) == UNLOCKED_STATUS
  {
  }

  /** The lock or the unlock applies where the row's status lets it, and is then the protocol's event. */
  lemma AttemptStep(db: Db, op: Op, id: string, now: int)
    requires Permanent(db) && ((op == MigrateLock && View(db, id).status != MIGRATION_LOCK) || (op == MigrateUnlock && View(db, id).status == MIGRATION_LOCK))
    ensures EventOf(db, NameOnly(op, id, now), id) == if op == MigrateLock then Event.Lock else Unlock(UNLOCKED_STATUS)
    ensures Permanent(Call(db, NameOnly(op, id, now)).0)
    ensures View(Call(db, NameOnly(op, id, now)).0, id).status == if op == MigrateLock then MIGRATION_LOCK else UNLOCKED_STATUS
  {
    NameOnlyBinds(op, id, now);
    UnlockApplies(db, NameOnly(op, id, now), id);
    Step(db, NameOnly(op, id, now), id);
  }

  /** Migration attempts one after the other, each a lock and an unlock. */
  predicate Attempts(run: seq<Request>, id: string, now: int) {
    forall i :: 0 <= i < |run| ==> run[i] == NameOnly(if i % 2 == 0 then MigrateLock else MigrateUnlock, id, now)
  }

  /** The request beside its event. */
  function AttemptTeller(id: string): (Db, Request) -> (Request, Event) { (db, r) => (r, EventOf(db, r, id)) }

  /** A lock or an unlock the row's status lets through is the protocol's lock or unlock. */
  predicate Did(v: Vm, r: Request, e: Event, w: Vm, id: string, now: int) {
    && Steps(v, e, w)
    && (r == NameOnly(MigrateLock, id, now) && v.status != MIGRATION_LOCK ==> e == Event.Lock)
    && (r == NameOnly(MigrateUnlock, id, now) && v.status == MIGRATION_LOCK ==> e == Unlock(UNLOCKED_STATUS))
  }

  function AttemptSteps(id: string, now: int): (Vm, (Request, Event), Vm) -> bool {
    (v: Vm, did: (Request, Event), w: Vm) => Did(v, did.0, did.1, w, id, now)
  }

  lemma AttemptsObey(id: string, now: int)
    ensures Obeys(Permanent, Viewer(id), AttemptTeller(id), AttemptSteps(id, now))
  {
    forall db, r | Permanent(db)
      ensures Permanent(Call(db, r).0)
      ensures AttemptSteps(id, now)(Viewer(id)(db), AttemptTeller(id)(db, r), Viewer(id)(Call(db, r).0))
    {
      Step(db, r, id);
      if r == NameOnly(MigrateLock, id, now) && View(db, id).status != MIGRATION_LOCK { AttemptStep(db, MigrateLock, id, now); }
      if r == NameOnly(MigrateUnlock, id, now) && View(db, id).status == MIGRATION_LOCK { AttemptStep(db, MigrateUnlock, id, now); }
    }
  }

  predicate DidAt(run: seq<Request>, vs: seq<Vm>, es: seq<Event>, i: nat, id: string, now: int) {
    i < |run| == |es| && |vs| == |run| + 1 && Did(vs[i], run[i], es[i], vs[i + 1], id, now)
  }

  lemma AttemptInRun(db: Db, run: seq<Request>, vs: seq<Vm>, es: seq<Event>, id: string, now: int, i: nat)
    requires Permanent(db) && i < |run| && vs == Views(db, run, id) && es == Events(db, run, id)
    ensures DidAt(run, vs, es, i, id, now)
  {
    AttemptsObey(id, now);
    RunObeys(db, run, Permanent, Viewer(id), AttemptTeller(id), AttemptSteps(id, now), i);
    DeedAt(db, run, AttemptTeller(id), i);
    DeedAt(db, run, Teller(id), i);
  }

  /** Over any store where the VM is not locked: of two attempts, the fourth request, sent for the first
      or the second alike, lets go of the lock the second took. */
  lemma LateUnlockDropsLaterLock(db: Db, run: seq<Request>, id: string, now: int)
    requires Permanent(db) && View(db, id).status != MIGRATION_LOCK && Attempts(run, id, now) && |run| == 4
    ensures Events(db, run, id) == [Event.Lock, Unlock(UNLOCKED_STATUS), Event.Lock, Unlock(UNLOCKED_STATUS)]
    ensures LockAt(Events(db, run, id), 3) == Some(2)
  {
    var vs, es := Views(db, run, id), Events(db, run, id);
    assert vs[0].status != MIGRATION_LOCK by { TrailAt(db, run, Viewer(id), 0); }
    forall i: nat | i < 4 ensures DidAt(run, vs, es, i, id, now) {
      AttemptInRun(db, run, vs, es, id, now, i);
    }
    FourAttempts(run, vs, es, id, now);
  }

  lemma FourAttempts(run: seq<Request>, vs: seq<Vm>, es: seq<Event>, id: string, now: int)
    requires |run| == 4 && Attempts(run, id, now) && |vs| == 5 && vs[0].status != MIGRATION_LOCK
    requires DidAt(run, vs, es, 0, id, now) && DidAt(run, vs, es, 1, id, now) && DidAt(run, vs, es, 2, id, now) && DidAt(run, vs, es, 3, id, now)
    ensures es == [Event.Lock, Unlock(UNLOCKED_STATUS), Event.Lock, Unlock(UNLOCKED_STATUS)] && LockAt(es, 3) == Some(2)
  {
  }

  // ---- a lock nobody took -----------------------------------------------------------------

  predicate GivesTexts(ep: Endpoint, fields: map<Field, Json>) {
    && fields.Keys <= ep.params.Keys
    && (forall f <- fields.Keys :: fields[f].JText? && ep.params[f].kind == TextKind)
    && (forall f <- ep.params.Keys :: f !in fields ==> ep.params[f].Optional?)
  }

  lemma TextsBind(ep: Endpoint, fields: map<Field, Json>, f: Field)
    requires GivesTexts(ep, fields) && f in ep.params
    ensures Acceptable(ep, JObject(fields))
    ensures Arg(ep, JObject(fields), f) == if f in fields then Text(fields[f].s) else ep.params[f].default
  {
    assert forall g <- ep.params.Keys :: Bindable(ep, fields, g);
  }

  /** A create that names the lock's text as the new row's status. */
  function ForgedFields(id: string, host: string): map<Field, Json> {
    map[Field.Name := JText(id), HostIp := JText(host), Status := JText(MIGRATION_LOCK.s)]
  }

  function MoveFields(id: string, host: string, target: string): map<Field, Json> {
    map[Field.Name := JText(id), ExpectedHostIp := JText(host), HostIp := JText(target)]
  }

  predicate Forgeable(ep: Endpoint, id: string, host: string) {
    && GivesTexts(ep, ForgedFields(id, host)) && RegistersVms(ep) && ep.effect.ttl.None?
    && ep.table == Vms && ep.key == Field.Name && Field.Name in ep.params
  }

  predicate Movable(ep: Endpoint, id: string, host: string, target: string) {
    && GivesTexts(ep, MoveFields(id, host, target)) && CommitsMoves(ep) && Lasting(ep)
    && ep.table == Vms && ep.key == Field.Name && ep.guard.tests.Keys == {HostIp, Status}
  }

  lemma CreateIsForgeable(id: string, host: string)
    ensures Forgeable(LwtOp(VmCreate), id, host)
  {
    CreateRegisters();
    CreateGivesTexts(id, host);
  }

  lemma CreateGivesTexts(id: string, host: string)
    ensures GivesTexts(VmCreateEndpoint(), ForgedFields(id, host))
  {
  }

  lemma CommitIsMovable(id: string, host: string, target: string)
    ensures Movable(LwtOp(MigrateCommit), id, host, target)
  {
  }

  lemma ForgedCreateLands(db: Db, id: string, host: string, ep: Endpoint, now: int)
    requires VmKey(id) !in db && Forgeable(ep, id, host)
    ensures Lands(db, now, ep, JObject(ForgedFields(id, host)), VmKey(id))
  {
    TextsBind(ep, ForgedFields(id, host), Field.Name);
  }

  lemma ForgedCreateArgs(id: string, host: string, ep: Endpoint)
    requires GivesTexts(ep, ForgedFields(id, host))
    ensures Arg(ep, JObject(ForgedFields(id, host)), HostIp) == Text(host) && Arg(ep, JObject(ForgedFields(id, host)), Status) == MIGRATION_LOCK
  {
    TextsBind(ep, ForgedFields(id, host), HostIp);
    TextsBind(ep, ForgedFields(id, host), Status);
  }

  lemma CreatedReads(db: Db, r: Request, id: string, h: Value, s: Value)
    requires Permanent(db) && EventOf(db, r, id) == Register(h, s)
    ensures Permanent(Call(db, r).0) && View(Call(db, r).0, id) == Vm(h, s)
  {
    Step(db, r, id);
  }

  lemma ForgedCreateStep(db: Db, id: string, host: string, r: Request, ep: Endpoint)
    requires Permanent(db) && VmKey(id) !in db && r.op == VmCreate && r.body == JObject(ForgedFields(id, host))
    requires ep == LwtOp(r.op) && Forgeable(ep, id, host)
    ensures EventOf(db, r, id) == Register(Text(host), MIGRATION_LOCK)
    ensures Permanent(Call(db, r).0) && View(Call(db, r).0, id) == Vm(Text(host), MIGRATION_LOCK)
  {
    ForgedCreateLands(db, id, host, ep, r.now);
    ForgedCreateArgs(id, host, ep);
    CreateIsRegister(db, r, ep, id);
    CreatedReads(db, r, id, Text(host), MIGRATION_LOCK);
  }

  lemma MoveArgs(id: string, host: string, target: string, ep: Endpoint)
    requires GivesTexts(ep, MoveFields(id, host, target)) && Status in ep.params && ep.params[Status] == Default(TextKind, UNLOCKED_STATUS)
    ensures var body := JObject(MoveFields(id, host, target));
      && Acceptable(ep, body) && Arg(ep, body, Field.Name) == Text(id) && Arg(ep, body, HostIp) == Text(target)
      && Arg(ep, body, ExpectedHostIp) == Text(host) && Arg(ep, body, Status) == UNLOCKED_STATUS
  {
    var fields := MoveFields(id, host, target);
    TextsBind(ep, fields, Field.Name);
    TextsBind(ep, fields, HostIp);
    TextsBind(ep, fields, ExpectedHostIp);
    TextsBind(ep, fields, Status);
  }

  lemma MoveApplies(db: Db, id: string, host: string, target: string, r: Request, ep: Endpoint)
    requires Permanent(db) && View(db, id) == Vm(Text(host), MIGRATION_LOCK)
    requires r.op == MigrateCommit && r.body == JObject(MoveFields(id, host, target)) && ep == LwtOp(r.op)
    requires Movable(ep, id, host, target)
    ensures EventOf(db, r, id) == Commit(Text(host), Text(target), UNLOCKED_STATUS)
  {
    MoveArgs(id, host, target, ep);
    CommitLands(db, r.now, ep, r.body, id);
    CommitIsCommit(db, r, ep, id);
  }

  lemma CommitLands(db: Db, now: int, ep: Endpoint, body: Json, id: string)
    requires Permanent(db) && CommitsMoves(ep) && Lasting(ep) && ep.table == Vms && ep.guard.tests.Keys == {HostIp, Status}
    requires Acceptable(ep, body) && Target(ep, body) == VmKey(id) && View(db, id) == Vm(Arg(ep, body, ExpectedHostIp), MIGRATION_LOCK)
    ensures Lands(db, now, ep, body, VmKey(id))
  {
    GuardDecides(db, now, ep, body, VmKey(id));
  }

  lemma CommitIsCommit(db: Db, r: Request, ep: Endpoint, id: string)
    requires r.op == MigrateCommit && ep == LwtOp(r.op) && Lands(db, r.now, ep, r.body, VmKey(id))
    ensures EventOf(db, r, id) == Commit(Arg(ep, r.body, ExpectedHostIp), Arg(ep, r.body, HostIp), Arg(ep, r.body, Status))
  {
  }

  /** The row can be made to read locked without a lock. Over any store that does not know the VM: a create
      that names the lock's text as its status goes through, and then a commit, with no lock anywhere. */
  lemma LockCanBeForged(db: Db, run: seq<Request>, id: string, host: string, target: string)
    requires Permanent(db) && VmKey(id) !in db && Forges(run, id, host, target)
    ensures Events(db, run, id) == [Register(Text(host), MIGRATION_LOCK), Commit(Text(host), Text(target), UNLOCKED_STATUS)]
    ensures !LockBehind(Events(db, run, id), 1)
  {
    var create, commit := Forgery(run, id, host, target);
    ForgedRun(db, run, id, host, target, create, commit);
    NobodyLocked(Events(db, run, id));
  }

  lemma NobodyLocked(es: seq<Event>)
    requires |es| == 2 && es[0].Register?
    ensures !LockBehind(es, 1)
  {
  }

  predicate Forges(run: seq<Request>, id: string, host: string, target: string) {
    && |run| == 2 && run[0].op == VmCreate && run[1].op == MigrateCommit
    && run[0].body == JObject(ForgedFields(id, host)) && run[1].body == JObject(MoveFields(id, host, target))
  }

  lemma Forgery(run: seq<Request>, id: string, host: string, target: string) returns (create: Endpoint, commit: Endpoint)
    requires Forges(run, id, host, target)
    ensures create == LwtOp(run[0].op) && commit == LwtOp(run[1].op) && Forgeable(create, id, host) && Movable(commit, id, host, target)
  {
    create, commit := LwtOp(VmCreate), LwtOp(MigrateCommit);
    CreateIsForgeable(id, host);
    CommitIsMovable(id, host, target);
  }

  lemma ForgedRun(db: Db, run: seq<Request>, id: string, host: string, target: string, create: Endpoint, commit: Endpoint)
    requires Permanent(db) && VmKey(id) !in db && Forges(run, id, host, target)
    requires create == LwtOp(run[0].op) && commit == LwtOp(run[1].op) && Forgeable(create, id, host) && Movable(commit, id, host, target)
    ensures Events(db, run, id) == [Register(Text(host), MIGRATION_LOCK), Commit(Text(host), Text(target), UNLOCKED_STATUS)]
  {
    ForgedCreateStep(db, id, host, run[0], create);
    MoveApplies(Call(db, run[0]).0, id, host, target, run[1], commit);
    TwoDeeds(db, run, id);
  }

  lemma TwoDeeds(db: Db, run: seq<Request>, id: string)
    requires |run| == 2
    ensures Events(db, run, id) == [EventOf(db, run[0], id), EventOf(Call(db, run[0]).0, run[1], id)]
  {
    DeedAt(db, run, Teller(id), 0);
    DeedAt(db, run, Teller(id), 1);
    DbNext(db, run, 0);
  }

  // ---- exactly which requests apply -------------------------------------------------------

  predicate TestsHost(ep: Endpoint) {
    Lasting(ep) && ep.table == Vms && ep.key == Field.Name && ep.guard == If(map[HostIp := Condition(Eq, ExpectedHostIp)])
  }

  predicate SetsState(ep: Endpoint) { !ep.effect.Delete? && State in ep.effect.cells && ep.effect.cells[State] == State }

  predicate HostOp(op: Op) { op == VmClaim || op == VmRelease || op == VmSetState }

  lemma HostOps(op: Op)
    requires HostOp(op)
    ensures TestsHost(LwtOp(op)) && SetsState(LwtOp(op))
  {
    if op == VmClaim { ClaimTestsHost(); } else if op == VmRelease { ReleaseTestsHost(); } else { SetStateTestsHost(); }
  }

  lemma ClaimTestsHost()
    ensures TestsHost(VmClaimEndpoint()) && SetsState(VmClaimEndpoint())
  {
  }

  lemma ReleaseTestsHost()
    ensures TestsHost(VmReleaseEndpoint()) && SetsState(VmReleaseEndpoint())
  {
  }

  lemma SetStateTestsHost()
    ensures TestsHost(VmSetStateEndpoint()) && SetsState(VmSetStateEndpoint())
  {
  }

  /** A well-formed claim, release or state change applies exactly when the VM is on the host its caller
      expected, and then the state it gives is the row's. */
  lemma HostDecides(db: Db, r: Request, ep: Endpoint, id: string)
    requires Permanent(db) && HostOp(r.op) && ep == LwtOp(r.op) && WellFormed(r, id)
    ensures Applies(db, r) <==> View(db, id).host == Arg(ep, r.body, ExpectedHostIp)
    ensures Applies(db, r) ==> Get(Call(db, r).0, VmKey(id), State) == Arg(ep, r.body, State)
  {
    HostOps(r.op);
    HostDecidesAt(db, r.now, ep, r.body, id);
  }

  lemma HostDecidesAt(db: Db, now: int, ep: Endpoint, body: Json, id: string)
    requires Permanent(db) && TestsHost(ep) && SetsState(ep) && Acceptable(ep, body) && Arg(ep, body, ep.key) == Text(id)
    ensures Execute(db, now, ep, body).1.Applied? <==> View(db, id).host == Arg(ep, body, ExpectedHostIp)
    ensures Execute(db, now, ep, body).1.Applied? ==> Get(Execute(db, now, ep, body).0, VmKey(id), State) == Arg(ep, body, State)
  {
    OneDecides(db, now, ep, body, VmKey(id), HostIp, ExpectedHostIp);
    if Execute(db, now, ep, body).1.Applied? { ColumnAssigned(db, now, ep, body, VmKey(id), State); }
  }

  predicate TestsHostAndLock(ep: Endpoint) {
    && Lasting(ep) && ep.table == Vms && ep.key == Field.Name && TestsTwo(ep, HostIp, ExpectedHostIp, Status, Field.Lock)
    && Field.Lock !in ep.params && Field.Lock in ep.fixed && ep.fixed[Field.Lock] == MIGRATION_LOCK
  }

  lemma CommitTests()
    ensures TestsHostAndLock(LwtOp(MigrateCommit))
  {
  }

  /** A well-formed hand-over applies exactly when the VM is on the host its caller expected and reads
      locked. */
  lemma CommitDecides(db: Db, r: Request, ep: Endpoint, id: string)
    requires Permanent(db) && r.op == MigrateCommit && ep == LwtOp(r.op) && WellFormed(r, id)
    ensures Applies(db, r) <==> View(db, id) == Vm(Arg(ep, r.body, ExpectedHostIp), MIGRATION_LOCK)
  {
    CommitTests();
    CommitDecidesAt(db, r.now, ep, r.body, id);
  }

  lemma CommitDecidesAt(db: Db, now: int, ep: Endpoint, body: Json, id: string)
    requires Permanent(db) && TestsHostAndLock(ep) && Acceptable(ep, body) && Arg(ep, body, ep.key) == Text(id)
    ensures Execute(db, now, ep, body).1.Applied? <==> View(db, id) == Vm(Arg(ep, body, ExpectedHostIp), MIGRATION_LOCK)
  {
    TwoDecide(db, now, ep, body, VmKey(id), HostIp, ExpectedHostIp, Status, Field.Lock);
  }

  /** A well-formed create applies exactly when there is no such VM. */
  lemma CreateDecides(db: Db, r: Request, ep: Endpoint, id: string)
    requires r.op == VmCreate && ep == LwtOp(r.op) && WellFormed(r, id)
    ensures Applies(db, r) <==> !Exists(db, VmKey(id), r.now)
  {
    CreateIsForgeable("", "");
    InsertDecides(db, r.now, ep, r.body);
  }
}
