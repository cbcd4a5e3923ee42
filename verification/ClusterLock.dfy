/** Cluster-wide locks: a row whose cells expire one by one.

    A row exists while its insert marker or any of its cells is live, but only a live
    `holder_token` can renew or release it. The laws below say when the two agree.
 */
module ClusterLock {
  import opened Common
  import opened Daruk

  /** A lock row as the protocol sees it: the token, when its cells expire, when its marker does. */
  datatype Lock = Free | Taken(token: Value, until: Expiry, marker: Expiry)

  /** When something written now with this TTL expires; a TTL of 0 is how the dialect writes "never". */
  function Ends(now: int, ttl: int): Expiry { if ttl == 0 then Never else Until(now + ttl) }

  predicate NoLater(a: Expiry, b: Expiry) { b.Never? || (a.Until? && a.t <= b.t) }

  // ---- the protocol on one row ----------------------------------------------------------

  datatype Event =
    | Idle(now: int)
    | Acquire(now: int, token: Value, ttl: int)
    | Renew(now: int, token: Value, ttl: int)
    | Release(now: int, token: Value)

  predicate Stands(s: Lock, x: int) { s.Taken? && (Live(s.until, x) || Live(s.marker, x)) }

  predicate Readable(s: Lock, x: int) { s.Taken? && Live(s.until, x) }

  predicate Enabled(s: Lock, e: Event) {
    match e
    case Idle(_) => true
    case Acquire(now, _, ttl) => !Stands(s, now) && ttl >= 0
    case Renew(now, t, ttl) => Readable(s, now) && s.token == t && ttl >= 0
    case Release(now, t) => Readable(s, now) && s.token == t
  }

  function Next(s: Lock, e: Event): Lock {
    match e
    case Idle(_) => s
    case Acquire(now, t, ttl) => Taken(t, Ends(now, ttl), Ends(now, ttl))
    case Renew(now, t, ttl) => if s.Taken? then Taken(t, Ends(now, ttl), s.marker) else s
    case Release(_, _) => Free
  }

  predicate Steps(s: Lock, e: Event, t: Lock) { Enabled(s, e) && t == Next(s, e) }

  /** The second TTL lasts at least as long as the first. */
  predicate NoShorter(first: int, second: int) { second == 0 || (first != 0 && first <= second) }

  /** Renewals last at least as long as any earlier acquisition with the same token. */
  predicate RenewsInFull(es: seq<Event>) {
    forall i, j :: 0 <= i < j < |es| && es[i].Acquire? && es[j].Renew? && es[i].token == es[j].token ==> NoShorter(es[i].ttl, es[j].ttl)
  }

  predicate ClockRuns(es: seq<Event>) {
    forall i, j :: 0 <= i <= j < |es| ==> es[i].now <= es[j].now
  }

  predicate History(ss: seq<Lock>, es: seq<Event>) {
    && |ss| == |es| + 1
    && ss[0] == Free
    && ClockRuns(es)
    && forall i :: 0 <= i < |es| ==> Enabled(ss[i], es[i]) && ss[i + 1] == Next(ss[i], es[i])
  }

  /** A standing row was put there by the last applied acquisition, and no release followed it. */
  lemma {:induction false} HeldByLastAcquire(ss: seq<Lock>, es: seq<Event>, j: nat) returns (i: nat)
    requires History(ss, es) && j < |ss| && ss[j].Taken?
    ensures i < j && es[i].Acquire? && es[i].token == ss[j].token && ss[j].marker == Ends(es[i].now, es[i].ttl)
    ensures forall k :: i < k < j ==> !es[k].Acquire? && !es[k].Release?
  {
    assert Enabled(ss[j - 1], es[j - 1]) && ss[j] == Next(ss[j - 1], es[j - 1]);
    if es[j - 1].Acquire? {
      i := j - 1;
    } else {
      i := HeldByLastAcquire(ss, es, j - 1);
    }
  }

  /** In every reachable state and at every clock value, a lock row that exists has a readable
      token: it can always be renewed or released by its holder. */
  lemma {:induction false} StandingMeansReadable(ss: seq<Lock>, es: seq<Event>, j: nat, x: int)
    requires History(ss, es) && RenewsInFull(es) && j < |ss|
    ensures Stands(ss[j], x) ==> Readable(ss[j], x)
    ensures ss[j].Taken? ==> NoLater(ss[j].marker, ss[j].until)
  {
    if 0 < j {
      StandingMeansReadable(ss, es, j - 1, x);
      assert Enabled(ss[j - 1], es[j - 1]) && ss[j] == Next(ss[j - 1], es[j - 1]);
      if es[j - 1].Renew? {
        var i := HeldByLastAcquire(ss, es, j);
        assert es[i].now <= es[j - 1].now && NoShorter(es[i].ttl, es[j - 1].ttl);
      }
    }
  }

  /** When the acquisition made at `i` runs out, judged just before event `j`: at the end of
      its last renewal, or of the acquisition itself. */
  function Deadline(es: seq<Event>, i: nat, j: nat): Expiry
    requires i < j <= |es| && es[i].Acquire?
    decreases j
  {
    if j == i + 1 then Ends(es[i].now, es[i].ttl)
    else if es[j - 1].Renew? then Ends(es[j - 1].now, es[j - 1].ttl)
    else Deadline(es, i, j - 1)
  }

  /** Neither released nor run out between the acquisition at `i` and event `j`. */
  predicate StillHeld(es: seq<Event>, i: nat, j: nat)
    requires i < j <= |es| && es[i].Acquire?
    decreases j
  {
    j == i + 1 || (StillHeld(es, i, j - 1) && Live(Deadline(es, i, j - 1), es[j - 1].now) && !es[j - 1].Release?)
  }

  lemma {:induction false} HeldUntilDeadline(ss: seq<Lock>, es: seq<Event>, i: nat, j: nat)
    requires History(ss, es) && i < j <= |es| && es[i].Acquire? && StillHeld(es, i, j)
    ensures ss[j].Taken? && ss[j].token == es[i].token && ss[j].until == Deadline(es, i, j)
    decreases j
  {
    assert Enabled(ss[j - 1], es[j - 1]) && ss[j] == Next(ss[j - 1], es[j - 1]);
    if i + 1 < j {
      HeldUntilDeadline(ss, es, i, j - 1);
    }
  }

  /** Exclusion: from an acquisition until its release or its deadline, no acquisition applies
      and no other token renews or releases the lock. */
  lemma HeldExclusively(ss: seq<Lock>, es: seq<Event>, i: nat, j: nat)
    requires History(ss, es) && i < j < |es| && es[i].Acquire? && StillHeld(es, i, j)
    requires Live(Deadline(es, i, j), es[j].now)
    ensures Readable(ss[j], es[j].now) && ss[j].token == es[i].token
    ensures !es[j].Acquire?
    ensures es[j].Renew? || es[j].Release? ==> es[j].token == es[i].token
  {
    HeldUntilDeadline(ss, es, i, j);
    assert Enabled(ss[j], es[j]);
  }

  /** With tokens never reused, an applied renewal or release belongs to the acquisition that
      holds the lock now, never to an earlier one that has since run out. */
  lemma StaleTokenIsRefused(ss: seq<Lock>, es: seq<Event>, a: nat, b: nat, j: nat)
    requires History(ss, es) && a < b < j < |es| && es[a].Acquire? && es[b].Acquire?
    requires es[j].Renew? || es[j].Release?
    requires forall p, q :: 0 <= p < q < |es| && es[p].Acquire? && es[q].Acquire? ==> es[p].token != es[q].token
    ensures es[j].token != es[a].token
  {
    assert Enabled(ss[j], es[j]);
    var i := HeldByLastAcquire(ss, es, j);
    assert a < i;
  }

  /** The renewal rule is exact: a renewal leaves a row that is never stuck if and only if it
      reaches at least as far as the insert marker does. */
  lemma ShortRenewalStrands(s: Lock, e: Event)
    requires e.Renew? && Enabled(s, e)
    ensures (forall x :: Stands(Next(s, e), x) ==> Readable(Next(s, e), x)) <==> NoLater(s.marker, Ends(e.now, e.ttl))
  {
    var t := Next(s, e);
    if !NoLater(s.marker, t.until) {
      assert Stands(t, t.until.t) && !Readable(t, t.until.t);
    }
  }

  // ---- the endpoints follow the protocol ------------------------------------------------

  const LOCK_CELLS: set<Field> := {Holder, HolderToken, Reason, AcquiredAtMs}

  function LockKey(name: string): Key { Key(ClusterLocks, Text(name)) }

  /** Every cell was written together with the token and expires together with it. */
  predicate Uniform(row: Row) {
    && row.cells.Keys <= LOCK_CELLS
    && row.marker.Some?
    && HolderToken in row.cells && row.cells[HolderToken].value != Null
    && forall c <- row.cells.Keys :: row.cells[c].expiry == row.cells[HolderToken].expiry
  }

  predicate WellFormed(db: Db, name: string) { LockKey(name) in db ==> Uniform(db[LockKey(name)]) }

  function View(db: Db, name: string): Lock {
    var k := LockKey(name);
    if k !in db || !Uniform(db[k]) then Free
    else Taken(db[k].cells[HolderToken].value, db[k].cells[HolderToken].expiry, db[k].marker.value)
  }

  /** The store's own notions of existence and of reading a column are the protocol's. */
  lemma ViewIsExact(db: Db, name: string, x: int)
    requires WellFormed(db, name)
    ensures Exists(db, LockKey(name), x) <==> Stands(View(db, name), x)
    ensures Read(db, LockKey(name), HolderToken, x) == if Readable(View(db, name), x) then View(db, name).token else Null
  {
    var k := LockKey(name);
    if k in db && Live(View(db, name).until, x) {
      assert Read(db, k, HolderToken, x) != Null;
    }
  }

  function Seconds(v: Value): int { if v.Int? then v.i else 0 }

  /** What a request asks for, if it applies. */
  function Asked(r: Request): Event {
    var ep := LwtOp(r.op);
    match r.op
    case LockAcquire => Acquire(r.now, Arg(ep, r.body, HolderToken), Seconds(Arg(ep, r.body, TtlSeconds)))
    case LockRenew => Renew(r.now, Arg(ep, r.body, HolderToken), Seconds(Arg(ep, r.body, TtlSeconds)))
    case LockRelease => Release(r.now, Arg(ep, r.body, HolderToken))
    case _ => Idle(r.now)
  }

  function EventOf(db: Db, r: Request, name: string): Event {
    if !Applies(db, r) || Subject(r) != Text(name) then Idle(r.now) else Asked(r)
  }

  /** What the acquire and renew endpoints have in common: every column of the row is
      rewritten, with one TTL, and the token cannot be null. */
  predicate WritesLock(ep: Endpoint) {
    && ep.table == ClusterLocks && !ep.effect.Delete? && ep.effect.ttl == Some(TtlSeconds)
    && ep.effect.cells.Keys == LOCK_CELLS
    && HolderToken in ep.effect.cells && ep.effect.cells[HolderToken] == HolderToken
    && HolderToken in ep.params && ep.params[HolderToken] == Need(TextKind)
    && TtlSeconds in ep.params && ep.params[TtlSeconds] == Need(IntKind)
  }

  predicate AcquiresLock(ep: Endpoint) { WritesLock(ep) && ep.effect.Insert? && ep.guard.IfNotExists? }

  predicate ChecksToken(ep: Endpoint) {
    && ep.guard.If? && HolderToken in ep.guard.tests && ep.guard.tests[HolderToken] == Condition(Eq, HolderToken)
    && HolderToken in ep.params && ep.params[HolderToken] == Need(TextKind)
  }

  predicate RenewsLock(ep: Endpoint) { WritesLock(ep) && ep.effect.Update? && ChecksToken(ep) }

  predicate ReleasesLock(ep: Endpoint) { ep.effect.Delete? && ChecksToken(ep) }

  lemma LockEndpoints()
    ensures AcquiresLock(LockAcquireEndpoint()) && RenewsLock(LockRenewEndpoint()) && ReleasesLock(LockReleaseEndpoint())
  {
  }

  /** The row a lock write leaves is uniform again. */
  lemma LockRowWritten(db: Db, now: int, ep: Endpoint, body: Json, name: string)
    requires WellFormed(db, name) && WritesLock(ep) && Acceptable(ep, body) && Target(ep, body) == LockKey(name)
    requires ep.effect.Insert? || LockKey(name) in db
    ensures Uniform(RowAfter(db, now, ep, body))
  {
    ArgHasKind(ep, body, HolderToken);
  }

  predicate Hit(db: Db, now: int, ep: Endpoint, body: Json, name: string) { Lands(db, now, ep, body, LockKey(name)) }

  /** A write that applied carried a TTL, and not a negative one. */
  lemma TtlIsNotNegative(db: Db, now: int, ep: Endpoint, body: Json)
    requires WritesLock(ep) && Execute(db, now, ep, body).1.Applied?
    ensures Acceptable(ep, body) && Seconds(Arg(ep, body, TtlSeconds)) >= 0
    ensures WriteExpiry(ep, body, now) == Ends(now, Seconds(Arg(ep, body, TtlSeconds)))
  {
    ArgHasKind(ep, body, TtlSeconds);
  }

  lemma AcquireStep(db: Db, now: int, ep: Endpoint, body: Json, name: string)
    requires WellFormed(db, name) && Hit(db, now, ep, body, name) && AcquiresLock(ep)
    ensures WellFormed(Execute(db, now, ep, body).0, name)
    ensures Steps(View(db, name), Acquire(now, Arg(ep, body, HolderToken), Seconds(Arg(ep, body, TtlSeconds))),
                  View(Execute(db, now, ep, body).0, name))
  {
    TtlIsNotNegative(db, now, ep, body);
    ViewIsExact(db, name, now);
    LockRowWritten(db, now, ep, body, name);
  }

  /** What a guard on the token means: the row stands with exactly that token, readable. */
  lemma TokenGuard(db: Db, now: int, ep: Endpoint, body: Json, name: string)
    requires WellFormed(db, name) && Hit(db, now, ep, body, name) && ChecksToken(ep)
    ensures Readable(View(db, name), now) && View(db, name).token == Arg(ep, body, HolderToken)
  {
    ArgHasKind(ep, body, HolderToken);
    ViewIsExact(db, name, now);
  }

  lemma RenewStep(db: Db, now: int, ep: Endpoint, body: Json, name: string)
    requires WellFormed(db, name) && Hit(db, now, ep, body, name) && RenewsLock(ep)
    ensures WellFormed(Execute(db, now, ep, body).0, name)
    ensures Steps(View(db, name), Renew(now, Arg(ep, body, HolderToken), Seconds(Arg(ep, body, TtlSeconds))),
                  View(Execute(db, now, ep, body).0, name))
  {
    TtlIsNotNegative(db, now, ep, body);
    TokenGuard(db, now, ep, body, name);
    LockRowWritten(db, now, ep, body, name);
  }

  lemma ReleaseStep(db: Db, now: int, ep: Endpoint, body: Json, name: string)
    requires WellFormed(db, name) && Hit(db, now, ep, body, name) && ReleasesLock(ep)
    ensures WellFormed(Execute(db, now, ep, body).0, name)
    ensures Steps(View(db, name), Release(now, Arg(ep, body, HolderToken)), View(Execute(db, now, ep, body).0, name))
  {
    TokenGuard(db, now, ep, body, name);
  }

  lemma MissStep(db: Db, now: int, ep: Endpoint, body: Json, name: string)
    requires WellFormed(db, name) && !Hit(db, now, ep, body, name)
    ensures WellFormed(Execute(db, now, ep, body).0, name)
    ensures View(Execute(db, now, ep, body).0, name) == View(db, name)
  {
  }

  /** The request, applied or not, is the protocol's step for this lock. */
  predicate Follows(db: Db, r: Request, name: string) {
    && WellFormed(Call(db, r).0, name)
    && Steps(View(db, name), EventOf(db, r, name), View(Call(db, r).0, name))
  }

  lemma MissFollows(db: Db, r: Request, name: string)
    requires WellFormed(db, name) && !Hit(db, r.now, LwtOp(r.op), r.body, name)
    ensures Follows(db, r, name)
  {
    MissStep(db, r.now, LwtOp(r.op), r.body, name);
  }

  lemma LockAcquireFollows(db: Db, r: Request, ep: Endpoint, name: string)
    requires WellFormed(db, name) && r.op == LockAcquire && ep == LwtOp(r.op) && AcquiresLock(ep) && Hit(db, r.now, ep, r.body, name)
    ensures Follows(db, r, name)
  {
    AcquireStep(db, r.now, ep, r.body, name);
  }

  lemma LockRenewFollows(db: Db, r: Request, ep: Endpoint, name: string)
    requires WellFormed(db, name) && r.op == LockRenew && ep == LwtOp(r.op) && RenewsLock(ep) && Hit(db, r.now, ep, r.body, name)
    ensures Follows(db, r, name)
  {
    RenewStep(db, r.now, ep, r.body, name);
  }

  lemma LockReleaseFollows(db: Db, r: Request, ep: Endpoint, name: string)
    requires WellFormed(db, name) && r.op == LockRelease && ep == LwtOp(r.op) && ReleasesLock(ep) && Hit(db, r.now, ep, r.body, name)
    ensures Follows(db, r, name)
  {
    ReleaseStep(db, r.now, ep, r.body, name);
  }

  lemma HitFollows(db: Db, r: Request, name: string)
    requires WellFormed(db, name) && Hit(db, r.now, LwtOp(r.op), r.body, name)
    ensures Follows(db, r, name)
  {
    assert TableFor(r.op) == ClusterLocks;
    LockEndpoints();
    match r.op {
      case LockAcquire => LockAcquireFollows(db, r, LockAcquireEndpoint(), name);
      case LockRenew => LockRenewFollows(db, r, LockRenewEndpoint(), name);
      case LockRelease => LockReleaseFollows(db, r, LockReleaseEndpoint(), name);
    }
  }

  /** One request of any kind follows the protocol of every lock. */
  lemma Step(db: Db, r: Request, name: string)
    requires WellFormed(db, name)
    ensures Follows(db, r, name)
  {
    if Hit(db, r.now, LwtOp(r.op), r.body, name) { HitFollows(db, r, name); } else { MissFollows(db, r, name); }
  }

  // ---- runs over the store --------------------------------------------------------------

  function Viewer(name: string): Db -> Lock { db => View(db, name) }

  function Teller(name: string): (Db, Request) -> Event { (db, r) => EventOf(db, r, name) }

  function Keeper(name: string): Db -> bool { db => WellFormed(db, name) }

  function Views(db: Db, run: seq<Request>, name: string): seq<Lock> { Trail(db, run, Viewer(name)) }

  function Events(db: Db, run: seq<Request>, name: string): seq<Event> { Deeds(db, run, Teller(name)) }

  lemma StoreObeys(name: string)
    ensures Obeys(Keeper(name), Viewer(name), Teller(name), Steps)
  {
    forall db, r | Keeper(name)(db)
      ensures Keeper(name)(Call(db, r).0) && Steps(Viewer(name)(db), Teller(name)(db, r), Viewer(name)(Call(db, r).0))
    {
      Step(db, r, name);
    }
  }

  lemma EventClock(db: Db, r: Request, name: string)
    ensures EventOf(db, r, name).now == r.now
  {
  }

  predicate InClockOrder(run: seq<Request>) { forall i, j :: 0 <= i <= j < |run| ==> run[i].now <= run[j].now }

  lemma EventsInClockOrder(db: Db, run: seq<Request>, name: string)
    requires InClockOrder(run)
    ensures ClockRuns(Events(db, run, name))
  {
    forall i | 0 <= i < |run| ensures Events(db, run, name)[i].now == run[i].now {
      DeedAt(db, run, Teller(name), i);
      EventClock(DbAt(db, run, i), run[i], name);
    }
  }

  /** Every run over a store where the lock starts free, whatever its callers ask for, with its requests
      ordered by the database's clock, is a history of that lock. */
  lemma RunIsHistory(db: Db, run: seq<Request>, name: string)
    requires LockKey(name) !in db && InClockOrder(run)
    ensures History(Views(db, run, name), Events(db, run, name))
  {
    var ss, es := Views(db, run, name), Events(db, run, name);
    StoreObeys(name);
    EventsInClockOrder(db, run, name);
    TrailAt(db, run, Viewer(name), 0);
    forall i | 0 <= i < |es| ensures Enabled(ss[i], es[i]) && ss[i + 1] == Next(ss[i], es[i]) {
      RunObeys(db, run, Keeper(name), Viewer(name), Teller(name), Steps, i);
    }
  }

  /** No run strands a lock row: at every clock value a row that exists can be read by its
      holder's token. */
  lemma NoLockIsStranded(db: Db, run: seq<Request>, name: string, j: nat, x: int)
    requires LockKey(name) !in db && InClockOrder(run)
    requires RenewsInFull(Events(db, run, name)) && j <= |run|
    ensures Exists(DbAt(db, run, j), LockKey(name), x) ==> Read(DbAt(db, run, j), LockKey(name), HolderToken, x) != Null
  {
    RunIsHistory(db, run, name);
    StandingMeansReadable(Views(db, run, name), Events(db, run, name), j, x);
    StoreObeys(name);
    StaysGood(db, run, Keeper(name), Viewer(name), Teller(name), Steps, j);
    TrailAt(db, run, Viewer(name), j);
    TokenStands(DbAt(db, run, j), name, x);
  }

  lemma TokenStands(db: Db, name: string, x: int)
    requires WellFormed(db, name) && (Stands(View(db, name), x) ==> Readable(View(db, name), x))
    ensures Exists(db, LockKey(name), x) ==> Read(db, LockKey(name), HolderToken, x) != Null
  {
    ViewIsExact(db, name, x);
  }

  // ---- exactly which requests apply -------------------------------------------------------

  lemma TtlDecides(ep: Endpoint, body: Json)
    requires WritesLock(ep) && Acceptable(ep, body)
    ensures NegativeTtl(ep, body) <==> Seconds(Arg(ep, body, TtlSeconds)) < 0
  {
    ArgHasKind(ep, body, TtlSeconds);
  }

  lemma AcquireDecides(db: Db, now: int, ep: Endpoint, body: Json, name: string)
    requires WellFormed(db, name) && AcquiresLock(ep) && Acceptable(ep, body) && Target(ep, body) == LockKey(name)
    ensures Execute(db, now, ep, body).1.Applied? <==>
      Enabled(View(db, name), Acquire(now, Arg(ep, body, HolderToken), Seconds(Arg(ep, body, TtlSeconds))))
  {
    TtlDecides(ep, body);
    ViewIsExact(db, name, now);
  }

  lemma TokenDecides(db: Db, now: int, ep: Endpoint, body: Json, name: string)
    requires WellFormed(db, name) && ChecksToken(ep) && ep.guard.tests.Keys == {HolderToken}
    requires Acceptable(ep, body) && Target(ep, body) == LockKey(name)
    ensures GuardHolds(db, now, ep, body) <==> Readable(View(db, name), now) && View(db, name).token == Arg(ep, body, HolderToken)
  {
    ArgHasKind(ep, body, HolderToken);
    ViewIsExact(db, name, now);
    assert HolderToken in ep.guard.tests.Keys;
  }

  lemma RenewDecides(db: Db, now: int, ep: Endpoint, body: Json, name: string)
    requires WellFormed(db, name) && RenewsLock(ep) && ep.guard.tests.Keys == {HolderToken}
    requires Acceptable(ep, body) && Target(ep, body) == LockKey(name)
    ensures Execute(db, now, ep, body).1.Applied? <==>
      Enabled(View(db, name), Renew(now, Arg(ep, body, HolderToken), Seconds(Arg(ep, body, TtlSeconds))))
  {
    TtlDecides(ep, body);
    TokenDecides(db, now, ep, body, name);
  }

  lemma ReleaseDecides(db: Db, now: int, ep: Endpoint, body: Json, name: string)
    requires WellFormed(db, name) && ReleasesLock(ep) && ep.guard.tests.Keys == {HolderToken}
    requires Acceptable(ep, body) && Target(ep, body) == LockKey(name)
    ensures Execute(db, now, ep, body).1.Applied? <==> Enabled(View(db, name), Release(now, Arg(ep, body, HolderToken)))
  {
    TokenDecides(db, now, ep, body, name);
  }

  lemma TokenAlone()
    ensures LwtOp(LockRenew).guard.tests.Keys == {HolderToken} && LwtOp(LockRelease).guard.tests.Keys == {HolderToken}
  {
  }

  predicate LockOp(op: Op) { op == LockAcquire || op == LockRenew || op == LockRelease }

  lemma LockTargets(r: Request, name: string)
    requires LockOp(r.op) && Subject(r) == Text(name)
    ensures Target(LwtOp(r.op), r.body) == LockKey(name)
  {
  }

  /** A well-formed acquisition, renewal or release applies exactly when the protocol lets it: an
      acquisition when no row stands, the others when the row's token can be read and is the caller's, and
      none that writes with a negative TTL. */
  lemma AppliesExactly(db: Db, r: Request, ep: Endpoint, name: string)
    requires WellFormed(db, name) && ep == LwtOp(r.op) && LockOp(r.op) && Acceptable(ep, r.body) && Subject(r) == Text(name)
    ensures Applies(db, r) <==> Enabled(View(db, name), Asked(r))
  {
    LockTargets(r, name);
    LockEndpoints();
    TokenAlone();
    if r.op == LockAcquire { AcquireDecides(db, r.now, ep, r.body, name); }
    else if r.op == LockRenew { RenewDecides(db, r.now, ep, r.body, name); }
    else { ReleaseDecides(db, r.now, ep, r.body, name); }
  }

  /** A refused acquisition is told what stands: the holder and the token, as long as they can be read. */
  lemma RefusedAcquireNamesHolder(db: Db, now: int, ep: Endpoint, body: Json, name: string)
    requires WellFormed(db, name) && AcquiresLock(ep) && Target(ep, body) == LockKey(name) && Execute(db, now, ep, body).1.Refused?
    ensures var current := Execute(db, now, ep, body).1.current;
      && HolderToken in current
      && current[HolderToken] == (if Readable(View(db, name), now) then View(db, name).token else Null)
      && (Holder in db[LockKey(name)].cells ==> Holder in current && current[Holder] == Read(db, LockKey(name), Holder, now))
  {
    RefusalTells(db, now, ep, body);
    ViewIsExact(db, name, now);
  }
}
