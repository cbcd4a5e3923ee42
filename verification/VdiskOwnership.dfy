/** Ownership epochs and the exactly-once drain of one vdisk.

    A run is any sequence of requests to any endpoint, well formed or not, by any number of
    callers. The endpoints leave the proposed epoch and drain counter to the caller, so the
    callers' discipline is stated on what they send: a claim proposes an epoch larger than the
    one it expects, a drain commit a counter larger than the one it expects.
 */
module VdiskOwnership {
  import opened Common
  import opened Daruk

  datatype Vdisk = Vdisk(owner: Value, epoch: Value, drainSeq: Value, replicas: Value)

  // ---- the protocol on one row ----------------------------------------------------------

  /** What one request did to the vdisk: the values it expected and the values it left. */
  datatype Event =
    | Idle
    | Claim(expectedOwner: Value, expectedEpoch: Value, owner: Value, epoch: Value)
    | Drain(expectedSeq: Value, expectedEpoch: Value, seq_: Value)
    | Heal(expectedReplicas: Value, expectedEpoch: Value, replicas: Value)

  predicate Enabled(v: Vdisk, e: Event) {
    match e
    case Idle => true
    case Claim(o, p, _, epoch) => v.owner == o && v.epoch == p && epoch.Int?
    case Drain(q, p, seq_) => v.drainSeq == q && v.epoch == p && seq_.Int?
    case Heal(m, p, _) => v.replicas == m && v.epoch == p
  }

  function Next(v: Vdisk, e: Event): Vdisk {
    match e
    case Idle => v
    case Claim(_, _, owner, epoch) => v.(owner := owner, epoch := epoch)
    case Drain(_, _, seq_) => v.(drainSeq := seq_)
    case Heal(_, _, replicas) => v.(replicas := replicas)
  }

  predicate Raises(proposed: Value, expected: Value) {
    proposed.Int? && expected.Int? ==> proposed.i > expected.i
  }

  predicate Careful(e: Event) {
    && (e.Claim? ==> Raises(e.epoch, e.expectedEpoch))
    && (e.Drain? ==> Raises(e.seq_, e.expectedSeq))
  }

  /** A history of one vdisk: the states and what happened between each two of them. */
  predicate History(vs: seq<Vdisk>, es: seq<Event>) {
    && |vs| == |es| + 1
    && vs[0].epoch.Int? && vs[0].drainSeq.Int?
    && (forall i :: 0 <= i < |es| ==> Enabled(vs[i], es[i]) && vs[i + 1] == Next(vs[i], es[i]))
    && (forall i :: 0 <= i < |es| ==> Careful(es[i]))
  }

  /** `w` can follow `v`: no counter went back, and the owner changed only with the epoch. */
  predicate Advances(v: Vdisk, w: Vdisk) {
    && v.epoch.Int? && w.epoch.Int? && v.drainSeq.Int? && w.drainSeq.Int?
    && v.epoch.i <= w.epoch.i && v.drainSeq.i <= w.drainSeq.i
    && (v.epoch == w.epoch ==> v.owner == w.owner)
  }

  /** Over any history both counters only grow, and an epoch has one owner while it lasts. */
  lemma {:induction false} CountersNeverDecrease(vs: seq<Vdisk>, es: seq<Event>, i: nat, j: nat)
    requires History(vs, es) && i <= j < |vs|
    ensures Advances(vs[i], vs[j])
    decreases j
  {
    if i < j {
      CountersNeverDecrease(vs, es, i, j - 1);
      assert Enabled(vs[j - 1], es[j - 1]) && Careful(es[j - 1]);
    } else if 0 < j {
      CountersNeverDecrease(vs, es, i - 1, j - 1);
      assert Enabled(vs[j - 1], es[j - 1]);
    }
  }

  /** Fencing: once a takeover to an epoch has applied, no drain commit and no replica change
      carrying an older epoch applies, however long the history goes on; and no later takeover
      reaches the same epoch again. */
  lemma DeposedOwnerIsFenced(vs: seq<Vdisk>, es: seq<Event>, i: nat, j: nat)
    requires History(vs, es) && i < j < |es| && es[i].Claim? && es[i].epoch.Int?
    ensures es[j].Drain? || es[j].Heal? ==> es[j].expectedEpoch.Int? && es[j].expectedEpoch.i >= es[i].epoch.i
    ensures es[j].Claim? ==> es[j].epoch.Int? && es[j].epoch.i > es[i].epoch.i
  {
    CountersNeverDecrease(vs, es, i + 1, j);
    assert Enabled(vs[j], es[j]) && Careful(es[j]);
    assert vs[i + 1] == Next(vs[i], es[i]);
  }

  /** Exactly once: no two applied drain commits leave the same counter value. */
  lemma DrainedExactlyOnce(vs: seq<Vdisk>, es: seq<Event>, i: nat, j: nat)
    requires History(vs, es) && i < j < |es| && es[i].Drain? && es[j].Drain?
    ensures vs[i + 1].drainSeq == es[i].seq_ && vs[j + 1].drainSeq == es[j].seq_
    ensures es[i].seq_ != es[j].seq_
  {
    assert vs[i + 1] == Next(vs[i], es[i]) && vs[j + 1] == Next(vs[j], es[j]);
    CountersNeverDecrease(vs, es, i + 1, j);
    assert Enabled(vs[j], es[j]) && Careful(es[j]);
  }

  // ---- the endpoints follow the protocol ------------------------------------------------

  function VdiskKey(id: string): Key { Key(Vdisks, Text(id)) }

  function View(db: Db, id: string): Vdisk {
    var k := VdiskKey(id);
    Vdisk(Get(db, k, Owner), Get(db, k, Epoch), Get(db, k, DrainSeq), Get(db, k, Replicas))
  }

  /** The row a create leaves: both counters are numbers. */
  predicate Created(db: Db, id: string) {
    Permanent(db) && View(db, id).epoch.Int? && View(db, id).drainSeq.Int?
  }

  /** What a request asks for, if it applies. */
  function Asked(r: Request): Event {
    var ep := LwtOp(r.op);
    match r.op
    case VdiskClaim =>
      Claim(Arg(ep, r.body, ExpectedOwner), Arg(ep, r.body, ExpectedEpoch), Arg(ep, r.body, Owner), Arg(ep, r.body, Epoch))
    case DrainCommit =>
      Drain(Arg(ep, r.body, ExpectedDrainSeq), Arg(ep, r.body, ExpectedEpoch), Arg(ep, r.body, DrainSeq))
    case SetReplicas =>
      Heal(Arg(ep, r.body, ExpectedReplicas), Arg(ep, r.body, ExpectedEpoch), Arg(ep, r.body, Replicas))
    case _ => Idle
  }

  function EventOf(db: Db, r: Request, id: string): Event {
    if !Applies(db, r) || Subject(r) != Text(id) then Idle else Asked(r)
  }

  lemma ClaimGuard(db: Db, now: int, ep: Endpoint, body: Json, id: string)
    requires Permanent(db) && ep == VdiskClaimEndpoint()
    requires Lands(db, now, ep, body, VdiskKey(id))
    ensures View(db, id).owner == Arg(ep, body, ExpectedOwner) && View(db, id).epoch == Arg(ep, body, ExpectedEpoch)
    ensures Arg(ep, body, Epoch).Int?
  {
    GuardThrough(db, now, ep, body, VdiskKey(id), Owner);
    GuardThrough(db, now, ep, body, VdiskKey(id), Epoch);
    ArgHasKind(ep, body, Epoch);
  }

  lemma ClaimStep(db: Db, now: int, ep: Endpoint, body: Json, id: string)
    requires Permanent(db) && ep == VdiskClaimEndpoint()
    requires Lands(db, now, ep, body, VdiskKey(id))
    ensures
      var e := Claim(Arg(ep, body, ExpectedOwner), Arg(ep, body, ExpectedEpoch), Arg(ep, body, Owner), Arg(ep, body, Epoch));
      Enabled(View(db, id), e) && View(Execute(db, now, ep, body).0, id) == Next(View(db, id), e)
  {
    ClaimGuard(db, now, ep, body, id);
    ColumnAssigned(db, now, ep, body, VdiskKey(id), Owner);
    ColumnAssigned(db, now, ep, body, VdiskKey(id), Epoch);
    ColumnAssigned(db, now, ep, body, VdiskKey(id), DrainSeq);
    ColumnAssigned(db, now, ep, body, VdiskKey(id), Replicas);
  }

  lemma DrainStep(db: Db, now: int, ep: Endpoint, body: Json, id: string)
    requires Permanent(db) && ep == DrainCommitEndpoint()
    requires Lands(db, now, ep, body, VdiskKey(id))
    ensures
      var e := Drain(Arg(ep, body, ExpectedDrainSeq), Arg(ep, body, ExpectedEpoch), Arg(ep, body, DrainSeq));
      Enabled(View(db, id), e) && View(Execute(db, now, ep, body).0, id) == Next(View(db, id), e)
  {
    GuardThrough(db, now, ep, body, VdiskKey(id), DrainSeq);
    GuardThrough(db, now, ep, body, VdiskKey(id), Epoch);
    ColumnAssigned(db, now, ep, body, VdiskKey(id), Owner);
    ColumnAssigned(db, now, ep, body, VdiskKey(id), Epoch);
    ColumnAssigned(db, now, ep, body, VdiskKey(id), DrainSeq);
    ColumnAssigned(db, now, ep, body, VdiskKey(id), Replicas);
    ArgHasKind(ep, body, DrainSeq);
  }

  lemma HealStep(db: Db, now: int, ep: Endpoint, body: Json, id: string)
    requires Permanent(db) && ep == SetReplicasEndpoint()
    requires Lands(db, now, ep, body, VdiskKey(id))
    ensures
      var e := Heal(Arg(ep, body, ExpectedReplicas), Arg(ep, body, ExpectedEpoch), Arg(ep, body, Replicas));
      Enabled(View(db, id), e) && View(Execute(db, now, ep, body).0, id) == Next(View(db, id), e)
  {
    GuardThrough(db, now, ep, body, VdiskKey(id), Replicas);
    GuardThrough(db, now, ep, body, VdiskKey(id), Epoch);
    ColumnAssigned(db, now, ep, body, VdiskKey(id), Owner);
    ColumnAssigned(db, now, ep, body, VdiskKey(id), Epoch);
    ColumnAssigned(db, now, ep, body, VdiskKey(id), DrainSeq);
    ColumnAssigned(db, now, ep, body, VdiskKey(id), Replicas);
  }

  lemma MissStep(db: Db, now: int, ep: Endpoint, body: Json, id: string)
    requires !Lands(db, now, ep, body, VdiskKey(id))
    ensures View(Execute(db, now, ep, body).0, id) == View(db, id)
  {
    ColumnKept(db, now, ep, body, VdiskKey(id), Owner);
    ColumnKept(db, now, ep, body, VdiskKey(id), Epoch);
    ColumnKept(db, now, ep, body, VdiskKey(id), DrainSeq);
    ColumnKept(db, now, ep, body, VdiskKey(id), Replicas);
  }

  /** A create that finds the row already there does not apply. */
  lemma CreateRefused(db: Db, now: int, ep: Endpoint, body: Json, id: string)
    requires Created(db, id) && ep.table == Vdisks && ep.guard.IfNotExists?
    ensures !Lands(db, now, ep, body, VdiskKey(id))
  {
    if Lands(db, now, ep, body, VdiskKey(id)) {
      GuardThrough(db, now, ep, body, VdiskKey(id), Epoch);
    }
  }

  /** One request of any kind follows the protocol of every created vdisk. */
  lemma Step(db: Db, r: Request, id: string)
    requires Created(db, id)
    ensures Enabled(View(db, id), EventOf(db, r, id))
    ensures View(Call(db, r).0, id) == Next(View(db, id), EventOf(db, r, id))
    ensures Created(Call(db, r).0, id)
  {
    var ep := LwtOp(r.op);
    StaysPermanent(db, r.now, ep, r.body);
    if Applies(db, r) && Subject(r) == Text(id) && ep.table == Vdisks {
      match r.op {
        case VdiskClaim => ClaimStep(db, r.now, ep, r.body, id);
        case DrainCommit => DrainStep(db, r.now, ep, r.body, id);
        case SetReplicas => HealStep(db, r.now, ep, r.body, id);
        case VdiskCreate => CreateRefused(db, r.now, ep, r.body, id);
      }
    } else {
      MissStep(db, r.now, ep, r.body, id);
    }
  }

  /** What a create endpoint must assign for the row to count as created. */
  predicate CreatesVdisks(ep: Endpoint) {
    && ep.table == Vdisks && ep.guard.IfNotExists? && ep.effect.Insert? && ep.effect.ttl.None?
    && (forall c <- {Owner, Epoch, DrainSeq, Replicas} :: c in ep.effect.cells && ep.effect.cells[c] == c)
    && (forall c <- {Epoch, DrainSeq} :: c in ep.params && ep.params[c] == Default(IntKind, Int(0)))
  }

  lemma CreateEndpointCreates()
    ensures CreatesVdisks(VdiskCreateEndpoint())
  {
  }

  lemma CreateColumns(db: Db, now: int, ep: Endpoint, body: Json, id: string)
    requires CreatesVdisks(ep)
    requires Lands(db, now, ep, body, VdiskKey(id))
    ensures View(Execute(db, now, ep, body).0, id)
         == Vdisk(Arg(ep, body, Owner), Arg(ep, body, Epoch), Arg(ep, body, DrainSeq), Arg(ep, body, Replicas))
  {
    ColumnAssigned(db, now, ep, body, VdiskKey(id), Owner);
    ColumnAssigned(db, now, ep, body, VdiskKey(id), Epoch);
    ColumnAssigned(db, now, ep, body, VdiskKey(id), DrainSeq);
    ColumnAssigned(db, now, ep, body, VdiskKey(id), Replicas);
  }

  lemma CountersAreNumbers(ep: Endpoint, body: Json)
    requires CreatesVdisks(ep) && Acceptable(ep, body)
    ensures Arg(ep, body, Epoch).Int? && Arg(ep, body, DrainSeq).Int?
  {
    ArgHasKind(ep, body, Epoch);
    ArgHasKind(ep, body, DrainSeq);
  }

  lemma InsertCreates(db: Db, now: int, ep: Endpoint, body: Json, id: string)
    requires Permanent(db) && CreatesVdisks(ep) && Lands(db, now, ep, body, VdiskKey(id))
    ensures Created(Execute(db, now, ep, body).0, id)
  {
    StaysPermanent(db, now, ep, body);
    CreateColumns(db, now, ep, body, id);
    CountersAreNumbers(ep, body);
  }

  /** An applied create leaves a created vdisk, whatever the request said beyond its types. */
  lemma CreateStep(db: Db, r: Request, id: string)
    requires Permanent(db) && r.op == VdiskCreate && Applies(db, r) && Subject(r) == Text(id)
    ensures Created(Call(db, r).0, id)
  {
    CreateEndpointCreates();
    InsertCreates(db, r.now, VdiskCreateEndpoint(), r.body, id);
  }

  // ---- runs over the store --------------------------------------------------------------

  predicate Steps(v: Vdisk, e: Event, w: Vdisk) { Enabled(v, e) && w == Next(v, e) }

  function Viewer(id: string): Db -> Vdisk { db => View(db, id) }

  function Teller(id: string): (Db, Request) -> Event { (db, r) => EventOf(db, r, id) }

  function Views(db: Db, run: seq<Request>, id: string): seq<Vdisk> { Trail(db, run, Viewer(id)) }

  function Events(db: Db, run: seq<Request>, id: string): seq<Event> { Deeds(db, run, Teller(id)) }

  function Keeper(id: string): Db -> bool { db => Created(db, id) }

  lemma StoreObeys(id: string)
    ensures Obeys(Keeper(id), Viewer(id), Teller(id), Steps)
  {
    forall db, r | Keeper(id)(db)
      ensures Keeper(id)(Call(db, r).0) && Steps(Viewer(id)(db), Teller(id)(db, r), Viewer(id)(Call(db, r).0))
    {
      Step(db, r, id);
    }
  }

  /** Every run over the store by careful callers is a history of each created vdisk, so
      fencing and the exactly-once drain hold of it. */
  lemma RunIsHistory(db: Db, run: seq<Request>, id: string)
    requires Created(db, id)
    requires forall e <- Events(db, run, id) :: Careful(e)
    ensures History(Views(db, run, id), Events(db, run, id))
  {
    var vs, es := Views(db, run, id), Events(db, run, id);
    StoreObeys(id);
    TrailAt(db, run, Viewer(id), 0);
    forall i | 0 <= i < |es| ensures Enabled(vs[i], es[i]) && vs[i + 1] == Next(vs[i], es[i]) && Careful(es[i]) {
      RunObeys(db, run, Keeper(id), Viewer(id), Teller(id), Steps, i);
      assert es[i] in es;
    }
  }

  /** What the first event rules out for any later one. */
  predicate FencesOff(e: Event, f: Event) {
    && (e.Claim? && (f.Drain? || f.Heal?) ==> f.expectedEpoch.Int? && e.epoch.Int? && f.expectedEpoch.i >= e.epoch.i)
    && (e.Claim? && f.Claim? ==> f.epoch != e.epoch)
    && (e.Drain? && f.Drain? ==> f.seq_ != e.seq_)
  }

  /** Fencing and the exactly-once drain, on every run over the store. */
  lemma EveryRunIsFenced(db: Db, run: seq<Request>, id: string)
    requires Created(db, id)
    requires forall e <- Events(db, run, id) :: Careful(e)
    ensures forall i, j :: 0 <= i < j < |run| ==> FencesOff(Events(db, run, id)[i], Events(db, run, id)[j])
  {
    var vs, es := Views(db, run, id), Events(db, run, id);
    RunIsHistory(db, run, id);
    forall i, j | 0 <= i < j < |es| ensures FencesOff(es[i], es[j]) {
      assert Enabled(vs[i], es[i]);
      if es[i].Claim? {
        DeposedOwnerIsFenced(vs, es, i, j);
      } else if es[i].Drain? && es[j].Drain? {
        DrainedExactlyOnce(vs, es, i, j);
      }
    }
  }

  /** From its creation on: whatever the create said and whoever calls after it. */
  lemma FencedFromCreation(db: Db, create: Request, run: seq<Request>, id: string)
    requires Permanent(db) && create.op == VdiskCreate && Applies(db, create) && Subject(create) == Text(id)
    requires forall e <- Events(Call(db, create).0, run, id) :: Careful(e)
    ensures forall i, j :: 0 <= i < j < |run| ==> FencesOff(Events(Call(db, create).0, run, id)[i], Events(Call(db, create).0, run, id)[j])
  {
    CreateStep(db, create, id);
    EveryRunIsFenced(Call(db, create).0, run, id);
  }

  // ---- exactly which requests apply -------------------------------------------------------

  predicate WellFormed(r: Request, id: string) { Acceptable(LwtOp(r.op), r.body) && Subject(r) == Text(id) }

  lemma ClaimTests()
    ensures TestsTwo(LwtOp(VdiskClaim), Owner, ExpectedOwner, Epoch, ExpectedEpoch)
  {
  }

  lemma DrainTests()
    ensures TestsTwo(LwtOp(DrainCommit), DrainSeq, ExpectedDrainSeq, Epoch, ExpectedEpoch)
  {
  }

  lemma HealTests()
    ensures TestsTwo(LwtOp(SetReplicas), Replicas, ExpectedReplicas, Epoch, ExpectedEpoch)
  {
  }

  lemma Targets(r: Request, id: string)
    requires WellFormed(r, id) && (r.op == VdiskClaim || r.op == DrainCommit || r.op == SetReplicas)
    ensures Target(LwtOp(r.op), r.body) == VdiskKey(id) && Lasting(LwtOp(r.op))
  {
  }

  lemma ClaimDecides(db: Db, r: Request, ep: Endpoint, id: string)
    requires Permanent(db) && r.op == VdiskClaim && ep == LwtOp(r.op) && WellFormed(r, id) && Lasting(ep) && Target(ep, r.body) == VdiskKey(id)
    requires TestsTwo(ep, Owner, ExpectedOwner, Epoch, ExpectedEpoch) && Arg(ep, r.body, Epoch).Int?
    ensures Applies(db, r) <==> Enabled(View(db, id), Asked(r))
  {
    TwoDecide(db, r.now, ep, r.body, VdiskKey(id), Owner, ExpectedOwner, Epoch, ExpectedEpoch);
  }

  lemma DrainDecides(db: Db, r: Request, ep: Endpoint, id: string)
    requires Permanent(db) && r.op == DrainCommit && ep == LwtOp(r.op) && WellFormed(r, id) && Lasting(ep) && Target(ep, r.body) == VdiskKey(id)
    requires TestsTwo(ep, DrainSeq, ExpectedDrainSeq, Epoch, ExpectedEpoch) && Arg(ep, r.body, DrainSeq).Int?
    ensures Applies(db, r) <==> Enabled(View(db, id), Asked(r))
  {
    TwoDecide(db, r.now, ep, r.body, VdiskKey(id), DrainSeq, ExpectedDrainSeq, Epoch, ExpectedEpoch);
  }

  lemma HealDecides(db: Db, r: Request, ep: Endpoint, id: string)
    requires Permanent(db) && r.op == SetReplicas && ep == LwtOp(r.op) && WellFormed(r, id) && Lasting(ep) && Target(ep, r.body) == VdiskKey(id)
    requires TestsTwo(ep, Replicas, ExpectedReplicas, Epoch, ExpectedEpoch)
    ensures Applies(db, r) <==> Enabled(View(db, id), Asked(r))
  {
    TwoDecide(db, r.now, ep, r.body, VdiskKey(id), Replicas, ExpectedReplicas, Epoch, ExpectedEpoch);
  }

  /** A well-formed takeover, drain or replica change applies exactly when the protocol lets it: when the
      vdisk is as the caller expected, in the column it changes and in the epoch. */
  lemma AppliesExactly(db: Db, r: Request, ep: Endpoint, id: string)
    requires Permanent(db) && WellFormed(r, id) && ep == LwtOp(r.op) && (r.op == VdiskClaim || r.op == DrainCommit || r.op == SetReplicas)
    ensures Applies(db, r) <==> Enabled(View(db, id), Asked(r))
  {
    Targets(r, id);
    ClaimsNumbers(r);
    if r.op == VdiskClaim { ClaimTests(); ClaimDecides(db, r, ep, id); }
    else if r.op == DrainCommit { DrainTests(); DrainDecides(db, r, ep, id); }
    else { HealTests(); HealDecides(db, r, ep, id); }
  }

  lemma ClaimsNumbers(r: Request)
    requires Acceptable(LwtOp(r.op), r.body)
    ensures r.op == VdiskClaim ==> Arg(LwtOp(r.op), r.body, Epoch).Int?
    ensures r.op == DrainCommit ==> Arg(LwtOp(r.op), r.body, DrainSeq).Int?
  {
    if r.op == VdiskClaim { ArgHasKind(LwtOp(r.op), r.body, Epoch); }
    if r.op == DrainCommit { ArgHasKind(LwtOp(r.op), r.body, DrainSeq); }
  }

  /** A well-formed create applies exactly when the vdisk is not there. */
  lemma CreateApplies(db: Db, r: Request, id: string)
    requires WellFormed(r, id) && r.op == VdiskCreate
    ensures Applies(db, r) <==> !Exists(db, VdiskKey(id), r.now)
  {
    CreateEndpointCreates();
    InsertDecides(db, r.now, LwtOp(r.op), r.body);
  }
}
