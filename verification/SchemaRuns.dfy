/** Runs of the migrator: what it finds pending, what it applies, and where crashes, resumed runs and
    runs from stale ledger reads leave the database. One migrator runs at a time. */
module SchemaRuns {
  import opened Common
  import opened Migrations

  // ---- the list as operations -------------------------------------------------------------

  function Statements<T>(sts: seq<Statement<T>>): (ops: seq<Op<T>>)
    ensures |ops| == |sts| && forall i :: 0 <= i < |ops| ==> ops[i] == Do(sts[i])
  {
    if sts == [] then [] else [Do(sts[0])] + Statements(sts[1..])
  }

  function Body<T>(m: Migration<T>): seq<Op<T>> {
    Statements(m.statements) + if m.backfill.Some? then [Do(Backfill(m.backfill.value))] else []
  }

  /** A migration's statements, then its backfill, then its ledger row. */
  function OpsOf<T>(m: Migration<T>): seq<Op<T>> { Body(m) + [Record(m.id, Checksum(m))] }

  function Ops<T>(ms: seq<Migration<T>>): seq<Op<T>> {
    if ms == [] then [] else OpsOf(ms[0]) + Ops(ms[1..])
  }

  /** Where migration `j` begins among the operations of the whole list. */
  function Start<T>(ms: seq<Migration<T>>, j: nat): nat
    requires j <= |ms|
  {
    |Ops(ms[..j])|
  }

  lemma {:induction false} OpsSplit<T>(a: seq<Migration<T>>, b: seq<Migration<T>>)
    ensures Ops(a + b) == Ops(a) + Ops(b)
  {
    if a == [] {
      assert a + b == b;
    } else {
      assert (a + b)[1..] == a[1..] + b;
      OpsSplit(a[1..], b);
    }
  }

  /** The operations from migration `j` on are those of the migrations from `j` on. */
  lemma StartSplits<T>(ms: seq<Migration<T>>, j: nat)
    requires j <= |ms|
    ensures Start(ms, j) <= |Ops(ms)|
    ensures Ops(ms)[..Start(ms, j)] == Ops(ms[..j]) && Ops(ms)[Start(ms, j)..] == Ops(ms[j..])
  {
    assert ms == ms[..j] + ms[j..];
    OpsSplit(ms[..j], ms[j..]);
  }

  lemma NextStart<T>(ms: seq<Migration<T>>, j: nat)
    requires j < |ms|
    ensures Start(ms, j + 1) == Start(ms, j) + |Body(ms[j])| + 1
    ensures Start(ms, j + 1) <= |Ops(ms)|
    ensures Ops(ms)[Start(ms, j)..Start(ms, j + 1)] == OpsOf(ms[j])
  {
    assert ms[..j + 1] == ms[..j] + [ms[j]];
    OpsSplit(ms[..j], [ms[j]]);
    assert Ops([ms[j]]) == OpsOf(ms[j]) by { assert [ms[j]][1..] == []; }
    StartSplits(ms, j);
    StartSplits(ms, j + 1);
    assert Ops(ms)[Start(ms, j)..Start(ms, j + 1)] == Ops(ms)[..Start(ms, j + 1)][Start(ms, j)..];
  }

  // ---- pending ----------------------------------------------------------------------------

  /** The migrations not recorded, in order; or the first whose recorded digest is not its own. */
  function Pending<T(==)>(ms: seq<Migration<T>>, applied: map<nat, Digest<T>>): Result<seq<Migration<T>>, nat> {
    if ms == [] then Ok([])
    else if ms[0].id in applied && applied[ms[0].id] != Checksum(ms[0]) then Err(ms[0].id)
    else
      var rest := Pending(ms[1..], applied);
      if rest.Err? then rest else if ms[0].id in applied then rest else Ok([ms[0]] + rest.value)
  }

  predicate Diverges<T(==)>(m: Migration<T>, applied: map<nat, Digest<T>>) {
    m.id in applied && applied[m.id] != Checksum(m)
  }

  /** It raises exactly when some recorded migration's text has changed since. */
  lemma {:induction false} DivergenceIsRaised<T>(ms: seq<Migration<T>>, applied: map<nat, Digest<T>>)
    ensures Pending(ms, applied).Err? <==> exists i :: 0 <= i < |ms| && Diverges(ms[i], applied)
    ensures Pending(ms, applied).Ok? ==> forall m :: m in Pending(ms, applied).value <==> m in ms && m.id !in applied
  {
    if ms != [] {
      DivergenceIsRaised(ms[1..], applied);
      assert forall i :: 0 < i < |ms| ==> ms[i] == ms[1..][i - 1];
      if exists i :: 0 <= i < |ms[1..]| && Diverges(ms[1..][i], applied) {
        var i :| 0 <= i < |ms[1..]| && Diverges(ms[1..][i], applied);
        assert Diverges(ms[i + 1], applied);
      }
    }
  }

  /** And it names the first such migration. */
  lemma {:induction false} FirstDivergenceIsNamed<T>(ms: seq<Migration<T>>, applied: map<nat, Digest<T>>, i: nat)
    requires i < |ms| && Diverges(ms[i], applied) && forall k :: 0 <= k < i ==> !Diverges(ms[k], applied)
    ensures Pending(ms, applied) == Err(ms[i].id)
  {
    if i > 0 {
      assert forall k :: 0 < k < |ms| ==> ms[k] == ms[1..][k - 1];
      assert !Diverges(ms[0], applied);
      FirstDivergenceIsNamed(ms[1..], applied, i - 1);
    }
  }

  lemma Reassociate<T>(m: Migration<T>, x: seq<Migration<T>>, y: seq<Migration<T>>)
    ensures [m] + (x + y) == ([m] + x) + y
  {
  }

  /** What is pending of a list in two parts is what is pending of the one and then of the other. */
  lemma {:induction false} PendingSplits<T>(a: seq<Migration<T>>, b: seq<Migration<T>>, applied: map<nat, Digest<T>>)
    requires Pending(a, applied).Ok? && Pending(b, applied).Ok?
    ensures Pending(a + b, applied) == Ok(Pending(a, applied).value + Pending(b, applied).value)
  {
    if a == [] {
      assert a + b == b && [] + Pending(b, applied).value == Pending(b, applied).value;
    } else {
      assert (a + b)[1..] == a[1..] + b;
      PendingSplits(a[1..], b, applied);
      if a[0].id !in applied { Reassociate(a[0], Pending(a[1..], applied).value, Pending(b, applied).value); }
    }
  }

  predicate DistinctIds<T>(ms: seq<Migration<T>>) {
    forall i, j :: 0 <= i < j < |ms| ==> ms[i].id != ms[j].id
  }

  /** The ledger once exactly these migrations are recorded. */
  function LedgerOf<T>(ms: seq<Migration<T>>): map<nat, Digest<T>> {
    if ms == [] then map[] else LedgerOf(ms[..|ms| - 1])[ms[|ms| - 1].id := Checksum(ms[|ms| - 1])]
  }

  lemma {:induction false} LedgerHas<T>(ms: seq<Migration<T>>)
    requires DistinctIds(ms)
    ensures forall i :: 0 <= i < |ms| ==> ms[i].id in LedgerOf(ms) && LedgerOf(ms)[ms[i].id] == Checksum(ms[i])
    ensures forall id :: id in LedgerOf(ms) ==> exists i :: 0 <= i < |ms| && ms[i].id == id
  {
    if ms != [] {
      var last := |ms| - 1;
      LedgerHas(ms[..last]);
      forall i | 0 <= i < |ms| ensures ms[i].id in LedgerOf(ms) && LedgerOf(ms)[ms[i].id] == Checksum(ms[i]) {
        if i < last { assert ms[..last][i] == ms[i]; }
      }
    }
  }

  /** What is left of `ms` when its first `k` are recorded and the ledger holds `all[..j]`. */
  lemma {:induction false} PendingFrom<T>(ms: seq<Migration<T>>, applied: map<nat, Digest<T>>, k: nat)
    requires k <= |ms|
    requires forall i :: 0 <= i < k ==> ms[i].id in applied && applied[ms[i].id] == Checksum(ms[i])
    requires forall i :: k <= i < |ms| ==> ms[i].id !in applied
    ensures Pending(ms, applied) == Ok(ms[k..])
  {
    if ms != [] {
      if k > 0 {
        PendingFrom(ms[1..], applied, k - 1);
        assert ms[1..][k - 1..] == ms[k..];
      } else {
        PendingFrom(ms[1..], applied, 0);
        assert [ms[0]] + ms[1..] == ms;
      }
    }
  }

  /** A ledger that records a prefix of the list leaves exactly the rest pending. */
  lemma PendingOfPrefix<T>(ms: seq<Migration<T>>, j: nat)
    requires DistinctIds(ms) && j <= |ms|
    ensures Pending(ms, LedgerOf(ms[..j])) == Ok(ms[j..])
  {
    LedgerHas(ms[..j]);
    forall i | 0 <= i < j
      ensures ms[i].id in LedgerOf(ms[..j]) && LedgerOf(ms[..j])[ms[i].id] == Checksum(ms[i])
    {
      assert ms[..j][i] == ms[i];
    }
    PendingFrom(ms, LedgerOf(ms[..j]), j);
  }

  // ---- the ledger is a prefix -------------------------------------------------------------

  /** How many whole migrations the first `q` operations hold. */
  function Whole<T>(ms: seq<Migration<T>>, q: nat): (m: nat)
    ensures m <= |ms|
  {
    if ms == [] || q < |OpsOf(ms[0])| then 0 else 1 + Whole(ms[1..], q - |OpsOf(ms[0])|)
  }

  lemma {:induction false} RecordedSplits<T>(a: seq<Op<T>>, b: seq<Op<T>>)
    ensures Recorded(a + b) == Recorded(a) + Recorded(b)
  {
    if a == [] {
      assert a + b == b;
      MergeNone(Recorded(b));
    } else {
      assert (a + b)[1..] == a[1..] + b;
      RecordedSplits(a[1..], b);
      MergeIsAssociative(RecordedBy(a[0]), Recorded(a[1..]), Recorded(b));
    }
  }

  lemma {:induction false} WholeRecords<T>(ms: seq<Migration<T>>)
    ensures Recorded(Ops(ms)) == LedgerOf(ms)
  {
    if ms != [] {
      var last := |ms| - 1;
      WholeRecords(ms[..last]);
      assert ms == ms[..last] + [ms[last]];
      OpsSplit(ms[..last], [ms[last]]);
      OneRecords(ms[last]);
      RecordedSplits(Ops(ms[..last]), Ops([ms[last]]));
      MergeOne(LedgerOf(ms[..last]), ms[last].id, Checksum(ms[last]));
    }
  }

  lemma OneRecords<T>(m: Migration<T>)
    ensures Recorded(Ops([m])) == map[m.id := Checksum(m)]
    ensures forall k: nat | k <= |Body(m)| :: Recorded(OpsOf(m)[..k]) == map[]
  {
    assert Ops([m]) == OpsOf(m) by { assert [m][1..] == []; }
    RecordedSplits(Body(m), [Record(m.id, Checksum(m))]);
    NothingRecorded(Body(m));
    assert Recorded([Record(m.id, Checksum(m))]) == map[m.id := Checksum(m)] by {
      assert [Record(m.id, Checksum(m))][1..] == [];
    }
    forall k: nat | k <= |Body(m)| ensures Recorded(OpsOf(m)[..k]) == map[] {
      assert OpsOf(m)[..k] == Body(m)[..k];
      NothingRecorded(OpsOf(m)[..k]);
    }
  }

  lemma {:induction false} WholeIsStart<T>(ms: seq<Migration<T>>, q: nat)
    requires q <= |Ops(ms)|
    ensures Start(ms, Whole(ms, q)) <= q
    ensures Whole(ms, q) < |ms| ==> q < Start(ms, Whole(ms, q) + 1)
  {
    if ms != [] {
      var n := |OpsOf(ms[0])|;
      if q < n {
        assert ms[..0] == [] && ms[..1] == [ms[0]];
        assert Ops([ms[0]]) == OpsOf(ms[0]) by { assert [ms[0]][1..] == []; }
      } else {
        WholeIsStart(ms[1..], q - n);
        ShiftedStart(ms, Whole(ms[1..], q - n));
        if Whole(ms, q) < |ms| { ShiftedStart(ms, Whole(ms[1..], q - n) + 1); }
      }
    }
  }

  lemma ShiftedStart<T>(ms: seq<Migration<T>>, j: nat)
    requires ms != [] && j <= |ms[1..]|
    ensures Start(ms, j + 1) == |OpsOf(ms[0])| + Start(ms[1..], j)
  {
    assert ms[..j + 1][1..] == ms[1..][..j];
  }

  lemma CutAt<X>(s: seq<X>, a: nat, b: nat)
    requires a <= b <= |s|
    ensures s[..b] == s[..a] + s[a..b]
  {
  }

  lemma Reslice<X>(s: seq<X>, a: nat, b: nat, c: nat)
    requires a <= b <= c <= |s|
    ensures s[a..b] == s[a..c][..b - a] == s[..c][a..][..b - a]
  {
  }

  /** A migration under way has recorded nothing yet. */
  lemma PartRecordsNothing<T>(ms: seq<Migration<T>>, m: nat, q: nat)
    requires m < |ms| && Start(ms, m) <= q < Start(ms, m + 1) <= |Ops(ms)|
    ensures Recorded(Ops(ms)[Start(ms, m)..q]) == map[]
  {
    NextStart(ms, m);
    var from, end := Start(ms, m), Start(ms, m + 1);
    Reslice(Ops(ms), from, q, end);
    OneRecords(ms[m]);
  }

  /** However far the operations have come, what they have recorded is a prefix of the list. */
  lemma RecordedIsPrefix<T>(ms: seq<Migration<T>>, q: nat)
    requires q <= |Ops(ms)|
    ensures Recorded(Ops(ms)[..q]) == LedgerOf(ms[..Whole(ms, q)])
  {
    var m := Whole(ms, q);
    WholeIsStart(ms, q);
    StartSplits(ms, m);
    WholeRecords(ms[..m]);
    if m < |ms| {
      NextStart(ms, m);
      PartRecordsNothing(ms, m, q);
      CutAt(Ops(ms), Start(ms, m), q);
      RecordedSplits(Ops(ms)[..Start(ms, m)], Ops(ms)[Start(ms, m)..q]);
      MergeNone(LedgerOf(ms[..m]));
    } else {
      assert ms[..m] == ms && Ops(ms)[..q] == Ops(ms);
    }
  }

  // ---- runs -------------------------------------------------------------------------------

  /** A run under way: it found the migrations from `j` on pending, has sent the operations up to
      `pos`, and the operations had come as far as `base` when it took the lock. */
  datatype Runner = Runner(j: nat, pos: nat, base: nat)

  /** `reach`: how far the operations had come when the last run ended. */
  datatype World<T(==)> = World(db: Db<T>, reach: nat, run: Option<Runner>)

  datatype Event =
    | Begin(j: nat) // a run takes the lock; its read of the ledger, now or earlier, found `j` recorded
    | Send          // its next operation
    | Crash
    | Finish

  /** The run's read was not stale: nothing beyond the migration it starts with had been begun. */
  predicate Fresh<T>(ms: seq<Migration<T>>, r: Runner) { r.j < |ms| && r.base < Start(ms, r.j + 1) }

  predicate Enabled<T>(ms: seq<Migration<T>>, s: World<T>, e: Event) {
    match e
    case Begin(j) => s.run.None? && j < |ms| && Start(ms, j) <= s.reach
    case Send => s.run.Some? && s.run.value.pos < |Ops(ms)|
    case Crash => s.run.Some? && (s.run.value.base <= s.run.value.pos || Fresh(ms, s.run.value))
    case Finish => s.run.Some? && s.run.value.pos == |Ops(ms)|
  }

  function Max(a: nat, b: nat): nat { if a < b then b else a }

  function Next<T>(ms: seq<Migration<T>>, s: World<T>, e: Event): World<T>
    requires Enabled(ms, s, e)
  {
    match e
    case Begin(j) => s.(run := Some(Runner(j, Start(ms, j), s.reach)))
    case Send => s.(db := Exec(s.db, Ops(ms)[s.run.value.pos]), run := Some(s.run.value.(pos := s.run.value.pos + 1)))
    case Crash => s.(reach := Max(s.run.value.pos, s.run.value.base), run := None)
    case Finish => s.(reach := |Ops(ms)|, run := None)
  }

  /** Any sequence of runs over a database that starts with whatever tables and an empty ledger. */
  predicate History<T(==)>(ms: seq<Migration<T>>, ws: seq<World<T>>, es: seq<Event>) {
    && |ws| == |es| + 1
    && ws[0].reach == 0 && ws[0].run == None && ws[0].db.ledger == map[]
    && forall i :: 0 <= i < |es| ==> Enabled(ms, ws[i], es[i]) && ws[i + 1] == Next(ms, ws[i], es[i])
  }

  /** What the list must be like for its runs to be repeatable. */
  predicate Repeatable<T(==)>(ms: seq<Migration<T>>) {
    DistinctIds(ms) && Orderly(Ops(ms)) && forall m <- ms :: Calm(Body(m))
  }

  /** Between runs the database is where the first `reach` operations take it; during a run, where
      the run's own operations take it from there. */
  predicate Accounted<T(==)>(ms: seq<Migration<T>>, d0: Db<T>, s: World<T>) {
    var ops := Ops(ms);
    && s.reach <= |ops|
    && (s.run.None? ==> s.db == Apply(ops[..s.reach], d0))
    && (s.run.Some? ==> InRun(ms, s.run.value) && s.db == DbInRun(ms, d0, s.run.value))
  }

  function DbInRun<T(==)>(ms: seq<Migration<T>>, d0: Db<T>, r: Runner): Db<T>
    requires InRun(ms, r)
  {
    Apply(Ops(ms)[Start(ms, r.j)..r.pos], Apply(Ops(ms)[..r.base], d0))
  }

  predicate InRun<T>(ms: seq<Migration<T>>, r: Runner) {
    r.j < |ms| && Start(ms, r.j) <= r.pos <= |Ops(ms)| && Start(ms, r.j) <= r.base <= |Ops(ms)|
  }

  lemma {:induction false} OrderlyPrefix<T>(ops: seq<Op<T>>, p: nat)
    requires Orderly(ops) && p <= |ops|
    ensures Orderly(ops[..p])
  {
    var pre := ops[..p];
    forall i | 0 <= i < |pre| && IsAlter(pre[i])
      ensures CreatedBefore(pre, i, pre[i].st.table) && NeverDrops(pre, pre[i].st.table)
    {
      assert IsAlter(ops[i]);
      var j :| 0 <= j < i && Creates(ops[j], ops[i].st.table);
      assert Creates(pre[j], pre[i].st.table);
    }
  }

  lemma CalmPart<T>(ms: seq<Migration<T>>, j: nat, q: nat)
    requires j < |ms| && Calm(Body(ms[j])) && Start(ms, j) <= q < Start(ms, j + 1)
    ensures q <= |Ops(ms)| && Calm(Ops(ms)[Start(ms, j)..q])
  {
    NextStart(ms, j);
    var from := Start(ms, j);
    Reslice(Ops(ms), from, q, Start(ms, j + 1));
    assert Ops(ms)[from..q] == Body(ms[j])[..q - from];
  }

  /** A run that has caught up is where the operations alone would be; so is a fresh one at any point. */
  lemma RunSettles<T>(ms: seq<Migration<T>>, d0: Db<T>, r: Runner)
    requires Repeatable(ms) && InRun(ms, r) && (r.base <= r.pos || Fresh(ms, r))
    ensures DbInRun(ms, d0, r) == Apply(Ops(ms)[..Max(r.pos, r.base)], d0)
  {
    var ops, from := Ops(ms), Start(ms, r.j);
    if r.base <= r.pos {
      OrderlyPrefix(ops, r.pos);
      assert ops[..r.pos][..r.base] == ops[..r.base] && ops[..r.pos][from..] == ops[from..r.pos];
      Rerun(ops[..r.pos], from, r.base, d0);
    } else {
      CalmPart(ms, r.j, r.base);
      Stays(ops, from, r.pos, r.base, d0);
    }
  }

  lemma SendStep<T>(ops: seq<Op<T>>, from: nat, pos: nat, db: Db<T>)
    requires from <= pos < |ops|
    ensures Exec(Apply(ops[from..pos], db), ops[pos]) == Apply(ops[from..pos + 1], db)
  {
    assert ops[from..pos + 1] == ops[from..pos] + [ops[pos]];
    ApplySplits(ops[from..pos], [ops[pos]], db);
    assert [ops[pos]][1..] == [];
  }

  lemma StaysAccounted<T>(ms: seq<Migration<T>>, d0: Db<T>, s: World<T>, e: Event)
    requires Repeatable(ms) && Enabled(ms, s, e) && Accounted(ms, d0, s)
    ensures Accounted(ms, d0, Next(ms, s, e))
  {
    match e
    case Begin(j) =>
      StartSplits(ms, j);
      assert Ops(ms)[Start(ms, j)..Start(ms, j)] == [];
    case Send => SendStep(Ops(ms), Start(ms, s.run.value.j), s.run.value.pos, Apply(Ops(ms)[..s.run.value.base], d0));
    case Crash => RunSettles(ms, d0, s.run.value);
    case Finish => RunSettles(ms, d0, s.run.value);
  }

  lemma {:induction false} EveryRunIsAccounted<T>(ms: seq<Migration<T>>, ws: seq<World<T>>, es: seq<Event>, i: nat)
    requires Repeatable(ms) && History(ms, ws, es) && i < |ws|
    ensures Accounted(ms, ws[0].db, ws[i])
  {
    if i > 0 {
      EveryRunIsAccounted(ms, ws, es, i - 1);
      StaysAccounted(ms, ws[0].db, ws[i - 1], es[i - 1]);
    } else {
      assert Ops(ms)[..0] == [];
    }
  }

  // ---- the main results -------------------------------------------------------------------

  /** However many crashes, resumed runs and stale reads there were, a run that finishes leaves
      exactly the database that applying the whole list once would have. */
  lemma FinishedRunsConverge<T>(ms: seq<Migration<T>>, ws: seq<World<T>>, es: seq<Event>, i: nat)
    requires Repeatable(ms) && History(ms, ws, es) && i < |es| && es[i].Finish?
    ensures ws[i + 1].db == Apply(Ops(ms), ws[0].db)
    ensures ws[i + 1].db.ledger == LedgerOf(ms)
  {
    EveryRunIsAccounted(ms, ws, es, i + 1);
    assert Ops(ms)[..|Ops(ms)|] == Ops(ms);
    ApplyRecords(Ops(ms), ws[0].db);
    WholeRecords(ms);
    MergeNone(LedgerOf(ms));
  }

  /** How far the operations have come in this world, all told. */
  function Reached<T>(s: World<T>): nat {
    if s.run.None? then s.reach else Max(s.run.value.pos, s.run.value.base)
  }

  /** Ledger rows with one id carry one digest. */
  predicate Consistent<T(==)>(ops: seq<Op<T>>) {
    forall i, j :: 0 <= i < |ops| && 0 <= j < |ops| && ops[i].Record? && ops[j].Record? && ops[i].id == ops[j].id ==> ops[i] == ops[j]
  }

  lemma {:induction false} RecordedFrom<T>(ops: seq<Op<T>>, id: nat)
    requires id in Recorded(ops)
    ensures exists i :: 0 <= i < |ops| && ops[i] == Record(id, Recorded(ops)[id])
  {
    if id in Recorded(ops[1..]) {
      RecordedFrom(ops[1..], id);
      var i :| 0 <= i < |ops[1..]| && ops[1..][i] == Record(id, Recorded(ops[1..])[id]);
      assert ops[i + 1] == ops[1..][i];
    } else {
      assert ops[0] == Record(id, Recorded(ops)[id]);
    }
  }

  lemma {:induction false} RecordedHas<T>(ops: seq<Op<T>>, i: nat)
    requires i < |ops| && ops[i].Record?
    ensures ops[i].id in Recorded(ops)
  {
    if i > 0 { RecordedHas(ops[1..], i - 1); }
  }

  /** Rows written a second time say what they said the first time. */
  lemma RecordedAgain<T>(ops: seq<Op<T>>, a: nat, r: nat, q: nat)
    requires Consistent(ops) && a <= r <= q <= |ops|
    ensures Recorded(ops[..q]) + Recorded(ops[a..r]) == Recorded(ops[..q])
  {
    var all, again := Recorded(ops[..q]), Recorded(ops[a..r]);
    forall id | id in again ensures id in all && all[id] == again[id] {
      RecordedFrom(ops[a..r], id);
      var i :| 0 <= i < r - a && ops[a..r][i] == Record(id, again[id]);
      RecordedHas(ops[..q], a + i);
      RecordedFrom(ops[..q], id);
      var k :| 0 <= k < q && ops[..q][k] == Record(id, all[id]);
      assert ops[a + i] == ops[k];
    }
  }

  lemma {:induction false} RowsAreMigrations<T>(ms: seq<Migration<T>>, i: nat)
    requires i < |Ops(ms)| && Ops(ms)[i].Record?
    ensures exists k :: 0 <= k < |ms| && Ops(ms)[i] == Record(ms[k].id, Checksum(ms[k]))
  {
    var n := |OpsOf(ms[0])|;
    if i >= n {
      RowsAreMigrations(ms[1..], i - n);
      var k :| 0 <= k < |ms[1..]| && Ops(ms[1..])[i - n] == Record(ms[1..][k].id, Checksum(ms[1..][k]));
      assert ms[k + 1] == ms[1..][k];
    } else {
      assert Ops(ms)[i] == OpsOf(ms[0])[i];
      assert i == n - 1;
    }
  }

  lemma RowsAreConsistent<T>(ms: seq<Migration<T>>)
    requires DistinctIds(ms)
    ensures Consistent(Ops(ms))
  {
    var ops := Ops(ms);
    forall i, j | 0 <= i < |ops| && 0 <= j < |ops| && ops[i].Record? && ops[j].Record? && ops[i].id == ops[j].id
      ensures ops[i] == ops[j]
    {
      RowsAreMigrations(ms, i);
      RowsAreMigrations(ms, j);
    }
  }

  lemma LedgerInRun<T>(ms: seq<Migration<T>>, d0: Db<T>, r: Runner)
    requires Repeatable(ms) && InRun(ms, r)
    ensures DbInRun(ms, d0, r).ledger == Apply(Ops(ms)[..Max(r.pos, r.base)], d0).ledger
  {
    var ops, from := Ops(ms), Start(ms, r.j);
    if r.base <= r.pos {
      RunSettles(ms, d0, r);
    } else {
      RowsAreConsistent(ms);
      RecordedAgain(ops, from, r.pos, r.base);
      ApplyRecords(ops[..r.base], d0);
      ApplyRecords(ops[from..r.pos], Apply(ops[..r.base], d0));
      MergeIsAssociative(d0.ledger, Recorded(ops[..r.base]), Recorded(ops[from..r.pos]));
    }
  }

  /** The ledger is a prefix of the list in every world, in the middle of any run too; and between
      runs every migration it records has fully run. */
  lemma LedgerIsAlwaysAPrefix<T>(ms: seq<Migration<T>>, ws: seq<World<T>>, es: seq<Event>, i: nat)
    requires Repeatable(ms) && History(ms, ws, es) && i < |ws|
    ensures Reached(ws[i]) <= |Ops(ms)|
    ensures ws[i].db.ledger == LedgerOf(ms[..Whole(ms, Reached(ws[i]))])
    ensures ws[i].run.None? ==>
      && Start(ms, Whole(ms, ws[i].reach)) <= ws[i].reach
      && ws[i].db == Apply(Ops(ms)[..ws[i].reach], ws[0].db)
  {
    EveryRunIsAccounted(ms, ws, es, i);
    var q := Reached(ws[i]);
    if ws[i].run.Some? { LedgerInRun(ms, ws[0].db, ws[i].run.value); }
    WholeIsStart(ms, q);
    ApplyRecords(Ops(ms)[..q], ws[0].db);
    MergeNone(Recorded(Ops(ms)[..q]));
    RecordedIsPrefix(ms, q);
  }

  /** No statement of any run fails, first time or again. */
  lemma NoStatementFails<T>(ms: seq<Migration<T>>, ws: seq<World<T>>, es: seq<Event>, i: nat)
    requires Repeatable(ms) && History(ms, ws, es) && i < |es| && es[i].Send?
    ensures Succeeds(ws[i].db, Ops(ms)[ws[i].run.value.pos])
  {
    EveryRunIsAccounted(ms, ws, es, i);
    var r, d0 := ws[i].run.value, ws[0].db;
    var ops, from := Ops(ms), Start(ms, r.j);
    RerunSucceeds(ops, from, r.base, r.pos, d0);
  }

  /** Exactly when a crash in the middle of a stale run brings a dropped table back, which is why `Crash`
      leaves it out: when the part re-run creates it and stops short of its drop. */
  lemma StaleCrashBringsBack<T>(ops: seq<Op<T>>, a: nat, pos: nat, p: nat, t: T, d: nat, db: Db<T>)
    requires Orderly(ops) && a <= pos <= p <= |ops| && d < p && Drops(ops[d], t)
    ensures TableOf(Apply(ops[..p], db), t) == None
    ensures TableOf(Apply(ops[a..pos], Apply(ops[..p], db)), t).Some? <==>
      !NeverCreates(ops[a..pos], t) && NeverDrops(ops[a..pos], t)
  {
    ApplyFolds(ops[..p], db, t);
    ApplyFolds(ops[a..pos], Apply(ops[..p], db), t);
    assert NeverCreates(ops[..p][d + 1..], t);
    GoneAfterDrop(ops[..p], t, d, TableOf(db, t));
    var again := ops[a..pos];
    if NeverDrops(again, t) {
      if NeverCreates(again, t) { StaysGone(again, t); } else { Present(again, t, None); }
    } else {
      var k :| 0 <= k < |again| && Drops(again[k], t);
      assert Drops(ops[a + k], t);
      assert NeverCreates(again[k + 1..], t);
      GoneAfterDrop(again, t, k, None);
    }
  }

  /** A table that is never dropped is what it was, wherever a stale run stops; and so is the ledger. */
  lemma StaleCrashKeepsTable<T>(ms: seq<Migration<T>>, d0: Db<T>, r: Runner, t: T)
    requires Repeatable(ms) && Consonant(Ops(ms)) && NeverDrops(Ops(ms), t) && InRun(ms, r) && r.pos <= r.base
    ensures TableOf(DbInRun(ms, d0, r), t) == TableOf(Apply(Ops(ms)[..r.base], d0), t)
    ensures DbInRun(ms, d0, r).ledger == Apply(Ops(ms)[..r.base], d0).ledger
  {
    var ops, from := Ops(ms), Start(ms, r.j);
    var part := ops[from..r.base];
    assert Absorbs(part, t) by {
      assert forall i :: 0 <= i < |part| ==> part[i] == ops[from + i];
    }
    StaysTable(ops, from, r.pos, r.base, t, d0);
    LedgerInRun(ms, d0, r);
  }

  // ---- nothing blocks a run ---------------------------------------------------------------

  lemma Extend<T>(ms: seq<Migration<T>>, ws: seq<World<T>>, es: seq<Event>, e: Event)
    requires History(ms, ws, es) && Enabled(ms, ws[|es|], e)
    ensures History(ms, ws + [Next(ms, ws[|es|], e)], es + [e])
  {
    var vs, fs := ws + [Next(ms, ws[|es|], e)], es + [e];
    forall i | 0 <= i < |fs| ensures Enabled(ms, vs[i], fs[i]) && vs[i + 1] == Next(ms, vs[i], fs[i]) {
      if i < |es| { assert vs[i] == ws[i] && vs[i + 1] == ws[i + 1] && fs[i] == es[i]; }
    }
  }

  /** A run under way can be brought to its end by sending what is left. */
  lemma {:induction false} RunCanFinish<T>(ms: seq<Migration<T>>, ws: seq<World<T>>, es: seq<Event>) returns (vs: seq<World<T>>, fs: seq<Event>)
    requires Repeatable(ms) && History(ms, ws, es) && ws[|es|].run.Some?
    ensures History(ms, vs, fs) && es < fs && fs[|fs| - 1] == Finish && vs[0] == ws[0]
    decreases |Ops(ms)| - ws[|es|].run.value.pos
  {
    EveryRunIsAccounted(ms, ws, es, |es|);
    var s := ws[|es|];
    var e := if s.run.value.pos < |Ops(ms)| then Send else Finish;
    Extend(ms, ws, es, e);
    vs, fs := ws + [Next(ms, s, e)], es + [e];
    if e == Send { vs, fs := RunCanFinish(ms, vs, fs); }
  }

  /** However runs have crashed before, the next can begin wherever a ledger read let it and go to the end, and then
      the database is the fully migrated one. */
  lemma NextRunCanFinish<T>(ms: seq<Migration<T>>, ws: seq<World<T>>, es: seq<Event>, j: nat) returns (vs: seq<World<T>>, fs: seq<Event>)
    requires Repeatable(ms) && History(ms, ws, es) && ws[|es|].run.None? && j < |ms| && Start(ms, j) <= ws[|es|].reach
    ensures History(ms, vs, fs) && |fs| > |es| && fs[..|es|] == es && fs[|es|] == Begin(j) && fs[|fs| - 1] == Finish
    ensures vs[|fs|].db == Apply(Ops(ms), ws[0].db)
  {
    Extend(ms, ws, es, Begin(j));
    vs, fs := RunCanFinish(ms, ws + [Next(ms, ws[|es|], Begin(j))], es + [Begin(j)]);
    FinishedRunsConverge(ms, vs, fs, |fs| - 1);
  }

  // ---- the migrator -----------------------------------------------------------------------

  datatype RunError = Divergence(id: nat) | StatementFailed

  /** The statements after the first `after` are not answered; the first of them may land all the same. */
  datatype Outage = Outage(after: nat, lands: bool)

  /** Operation `k` is answered, and succeeds on the database those before it left. */
  predicate Passes<T(==)>(ops: seq<Op<T>>, db: Db<T>, outage: Outage, k: nat)
    requires k < |ops|
  {
    k < outage.after && Succeeds(Apply(ops[..k], db), ops[k])
  }

  predicate AllPass<T(==)>(ops: seq<Op<T>>, db: Db<T>, outage: Outage, n: nat)
    requires n <= |ops|
  {
    forall k :: 0 <= k < n ==> Passes(ops, db, outage, k)
  }

  /** How many operations have landed where a run stops at operation `k`: one that was not answered may
      have. */
  function LandedAt<T(==)>(ops: seq<Op<T>>, db: Db<T>, outage: Outage, k: nat): nat
    requires k < |ops|
  {
    if outage.lands && Succeeds(Apply(ops[..k], db), ops[k]) then k + 1 else k
  }

  predicate StopsAt<T(==)>(ops: seq<Op<T>>, db: Db<T>, outage: Outage, k: nat) {
    k < |ops| && AllPass(ops, db, outage, k) && !Passes(ops, db, outage, k)
  }

  /** What becomes of a list of operations: all of them pass, or it stops at the first that fails or is
      not answered. */
  ghost predicate Went<T>(ops: seq<Op<T>>, db: Db<T>, outage: Outage, ok: bool, sent: nat) {
    if ok then sent == |ops| && AllPass(ops, db, outage, |ops|)
    else exists k: nat :: StopsAt(ops, db, outage, k) && sent == LandedAt(ops, db, outage, k)
  }

  /** So it goes to the end exactly when everything is answered and succeeds. */
  lemma EndsExactly<T>(ops: seq<Op<T>>, db: Db<T>, outage: Outage, ok: bool, sent: nat)
    requires Went(ops, db, outage, ok, sent)
    ensures ok <==> |ops| <= outage.after && forall k :: 0 <= k < |ops| ==> Succeeds(Apply(ops[..k], db), ops[k])
    ensures sent <= |ops|
  {
    if ok && ops != [] { assert Passes(ops, db, outage, |ops| - 1); }
    if ok {
      forall k | 0 <= k < |ops| ensures Succeeds(Apply(ops[..k], db), ops[k]) { assert Passes(ops, db, outage, k); }
    } else {
      var k: nat :| StopsAt(ops, db, outage, k) && sent == LandedAt(ops, db, outage, k);
    }
  }

  /** A list that can be repeated, run from where a stale ledger read says over a database that is anywhere
      beyond, always comes to the end while the database answers, and leaves it fully migrated. */
  lemma HealthyRunFinishes<T>(ms: seq<Migration<T>>, j: nat, base: nat, d0: Db<T>, outage: Outage, ok: bool, sent: nat)
    requires Repeatable(ms) && j <= |ms| && Start(ms, j) <= base <= |Ops(ms)|
    requires |Ops(ms[j..])| <= outage.after && Went(Ops(ms[j..]), Apply(Ops(ms)[..base], d0), outage, ok, sent)
    ensures ok && sent == |Ops(ms[j..])|
    ensures Apply(Ops(ms[j..]), Apply(Ops(ms)[..base], d0)) == Apply(Ops(ms), d0)
  {
    var ops, db := Ops(ms[j..]), Apply(Ops(ms)[..base], d0);
    forall k | 0 <= k < |ops| ensures Succeeds(Apply(ops[..k], db), ops[k]) { TailSucceeds(ms, j, base, d0, k); }
    EndsExactly(ops, db, outage, ok, sent);
    CompleteRunMigrates(ms, j, base, d0);
  }

  lemma TailSucceeds<T>(ms: seq<Migration<T>>, j: nat, base: nat, d0: Db<T>, k: nat)
    requires Repeatable(ms) && j <= |ms| && Start(ms, j) <= base <= |Ops(ms)| && k < |Ops(ms[j..])|
    ensures Succeeds(Apply(Ops(ms[j..])[..k], Apply(Ops(ms)[..base], d0)), Ops(ms[j..])[k])
  {
    StartSplits(ms, j);
    InRest(Ops(ms), Ops(ms[j..]), Start(ms, j), k);
    RerunSucceeds(Ops(ms), Start(ms, j), base, Start(ms, j) + k, d0);
  }

  lemma InRest<T>(ops: seq<Op<T>>, rest: seq<Op<T>>, from: nat, k: nat)
    requires from <= |ops| && ops[from..] == rest && k < |rest|
    ensures rest[..k] == ops[from..from + k] && rest[k] == ops[from + k]
  {
  }

  function Ids<T>(ms: seq<Migration<T>>): (ids: seq<nat>)
    ensures |ids| == |ms| && forall i :: 0 <= i < |ids| ==> ids[i] == ms[i].id
  {
    seq(|ms|, i requires 0 <= i < |ms| => ms[i].id)
  }

  /** `pending`, as the loop that computes it. */
  method FindPending<T(==)>(ms: seq<Migration<T>>, applied: map<nat, Digest<T>>) returns (r: Result<seq<Migration<T>>, nat>)
    ensures r == Pending(ms, applied)
  {
    var out := [];
    assert ms[0..] == ms;
    PrependNothing(Pending(ms, applied));
    for i := 0 to |ms|
      invariant Pending(ms, applied) == Prepended(out, Pending(ms[i..], applied))
    {
      assert ms[i..][1..] == ms[i + 1..];
      if ms[i].id !in applied {
        PrependOne(out, ms[i], Pending(ms[i + 1..], applied));
        out := out + [ms[i]];
      } else if applied[ms[i].id] != Checksum(ms[i]) {
        return Err(ms[i].id);
      }
    }
    assert ms[|ms|..] == [] && out + [] == out;
    return Ok(out);
  }

  function Prepended<T>(out: seq<Migration<T>>, rest: Result<seq<Migration<T>>, nat>): Result<seq<Migration<T>>, nat> {
    if rest.Err? then rest else Ok(out + rest.value)
  }

  lemma PrependNothing<T>(rest: Result<seq<Migration<T>>, nat>)
    ensures Prepended([], rest) == rest
  {
    if rest.Ok? { assert [] + rest.value == rest.value; }
  }

  lemma PrependOne<T>(out: seq<Migration<T>>, m: Migration<T>, rest: Result<seq<Migration<T>>, nat>)
    ensures Prepended(out, Prepended([m], rest)) == Prepended(out + [m], rest)
  {
    if rest.Ok? { assert out + ([m] + rest.value) == (out + [m]) + rest.value; }
  }

  class Database<T(==)> {
    var db: Db<T>

    constructor (db: Db<T>)
      ensures this.db == db
    {
      this.db := db;
    }

    /** One statement. It may have landed although the answer to it was lost. */
    method Run(op: Op<T>, answered: bool, lands: bool) returns (ok: bool, landed: bool)
      modifies this
      ensures ok == (answered && Succeeds(old(db), op))
      ensures landed == ((answered || lands) && Succeeds(old(db), op))
      ensures db == if landed then Exec(old(db), op) else old(db)
    {
      if Answer(db, op) == Failed || (!answered && !lands) { return false, false; }
      db := Exec(db, op);
      return answered, true;
    }

    /** The next operation of a list, and how many of them have then landed. */
    method RunNext(ghost ops: seq<Op<T>>, op: Op<T>, sent: nat, outage: Outage, ghost start: Db<T>) returns (ok: bool, n: nat)
      requires sent < |ops| && op == ops[sent] && db == Apply(ops[..sent], start) && AllPass(ops, start, outage, sent)
      modifies this
      ensures sent <= n <= sent + 1 && db == Apply(ops[..n], start)
      ensures ok ==> n == sent + 1 && AllPass(ops, start, outage, n)
      ensures !ok ==> Went(ops, start, outage, false, n)
    {
      var landed;
      ok, landed := Run(op, sent < outage.after, outage.lands);
      n := if landed then sent + 1 else sent;
      SendStep(ops, 0, sent, start);
      assert ops[0..sent] == ops[..sent] && ops[0..sent + 1] == ops[..sent + 1];
      assert ok == Passes(ops, start, outage, sent);
      assert !ok ==> StopsAt(ops, start, outage, sent) && n == LandedAt(ops, start, outage, sent);
    }

    /** One migration: its statements, its backfill and its ledger row, until one of them fails or is not
        answered. `sent` of them have landed. */
    method RunMigration(m: Migration<T>, outage: Outage) returns (ok: bool, sent: nat)
      modifies this
      ensures sent <= |OpsOf(m)| && db == Apply(OpsOf(m)[..sent], old(db))
      ensures Went(OpsOf(m), old(db), outage, ok, sent)
    {
      ghost var ops, start := OpsOf(m), db;
      sent := 0;
      while sent < |m.statements|
        invariant sent <= |m.statements| && db == Apply(ops[..sent], start) && AllPass(ops, start, outage, sent)
      {
        ok, sent := RunNext(ops, Do(m.statements[sent]), sent, outage, start);
        if !ok { return; }
      }
      if m.backfill.Some? {
        ok, sent := RunNext(ops, Do(Backfill(m.backfill.value)), sent, outage, start);
        if !ok { return; }
      }
      ok, sent := RunNext(ops, Record(m.id, Checksum(m)), sent, outage, start);
    }

    /** A whole run: `bookkept` is whether the runner's own tables could be made and its ledger read, and
        `applied` the ledger as it was then, before the lock was asked for. */
    method EnsureSchema(ms: seq<Migration<T>>, bookkept: bool, applied: map<nat, Digest<T>>, locked: bool, outage: Outage)
      returns (r: Result<seq<nat>, RunError>, sent: nat)
      modifies this
      ensures !bookkept ==> r == Err(StatementFailed) && db == old(db)
      ensures bookkept && Pending(ms, applied).Err? ==> r == Err(Divergence(Pending(ms, applied).error)) && db == old(db)
      ensures bookkept && Pending(ms, applied).Ok? && (Pending(ms, applied).value == [] || !locked) ==> r == Ok([]) && db == old(db)
      ensures bookkept && Pending(ms, applied).Ok? && locked ==>
        && sent <= |Ops(Pending(ms, applied).value)|
        && db == Apply(Ops(Pending(ms, applied).value)[..sent], old(db))
        && Went(Ops(Pending(ms, applied).value), old(db), outage, r.Ok?, sent)
        && (r == Ok(Ids(Pending(ms, applied).value)) || r == Err(StatementFailed))
    {
      sent := 0;
      if !bookkept { return Err(StatementFailed), 0; }
      var found := FindPending(ms, applied);
      if found.Err? { return Err(Divergence(found.error)), 0; }
      var outstanding := found.value;
      if outstanding == [] || !locked { return Ok([]), 0; }
      var ok;
      ok, sent := RunAll(outstanding, outage);
      return if ok then Ok(Ids(outstanding)) else Err(StatementFailed), sent;
    }

    /** One of the outstanding migrations, all before it done. */
    method RunOne(ms: seq<Migration<T>>, i: nat, sent: nat, outage: Outage, ghost start: Db<T>) returns (done: bool, n: nat)
      requires i < |ms| && sent == Start(ms, i) <= |Ops(ms)| && db == Apply(Ops(ms)[..sent], start) && AllPass(Ops(ms), start, outage, sent)
      modifies this
      ensures n <= |Ops(ms)| && db == Apply(Ops(ms)[..n], start)
      ensures done ==> n == Start(ms, i + 1) && AllPass(Ops(ms), start, outage, n)
      ensures !done ==> Went(Ops(ms), start, outage, false, n)
    {
      done, n := RunMigration(ms[i], Later(outage, sent));
      PartSent(ms, i, n, start);
      PartWent(ms, i, start, outage, done, n);
      n := sent + n;
    }

    /** Every outstanding migration in turn, until something fails. */
    method RunAll(ms: seq<Migration<T>>, outage: Outage) returns (ok: bool, sent: nat)
      modifies this
      ensures sent <= |Ops(ms)| && db == Apply(Ops(ms)[..sent], old(db))
      ensures Went(Ops(ms), old(db), outage, ok, sent)
    {
      sent := 0;
      var i := 0;
      while i < |ms|
        invariant i <= |ms| && sent == Start(ms, i) <= |Ops(ms)|
        invariant db == Apply(Ops(ms)[..sent], old(db)) && AllPass(Ops(ms), old(db), outage, sent)
      {
        var done;
        done, sent := RunOne(ms, i, sent, outage, old(db));
        if !done { return false, sent; }
        i := i + 1;
      }
      assert ms[..i] == ms;
      return true, sent;
    }
  }

  /** The first `n` operations of migration `i`, sent after all of those before it. */
  lemma PartSent<T>(ms: seq<Migration<T>>, i: nat, n: nat, db: Db<T>)
    requires i < |ms| && n <= |OpsOf(ms[i])|
    ensures Start(ms, i) + n <= |Ops(ms)|
    ensures Apply(OpsOf(ms[i])[..n], Apply(Ops(ms)[..Start(ms, i)], db)) == Apply(Ops(ms)[..Start(ms, i) + n], db)
  {
    NextStart(ms, i);
    var from := Start(ms, i);
    Reslice(Ops(ms), from, from + n, Start(ms, i + 1));
    assert Ops(ms)[..from + n] == Ops(ms)[..from] + OpsOf(ms[i])[..n];
    ApplySplits(Ops(ms)[..from], OpsOf(ms[i])[..n], db);
  }

  /** The same outage, seen after `sent` operations. */
  function Later(outage: Outage, sent: nat): Outage { outage.(after := if outage.after < sent then 0 else outage.after - sent) }

  lemma PartAt<T>(ms: seq<Migration<T>>, i: nat, k: nat)
    requires i < |ms| && k < |OpsOf(ms[i])|
    ensures Start(ms, i) + k < |Ops(ms)| && OpsOf(ms[i])[k] == Ops(ms)[Start(ms, i) + k]
  {
    NextStart(ms, i);
    InPart(Ops(ms), OpsOf(ms[i]), Start(ms, i), Start(ms, i + 1), k);
  }

  lemma InPart<T>(ops: seq<Op<T>>, part: seq<Op<T>>, a: nat, b: nat, k: nat)
    requires a <= b <= |ops| && ops[a..b] == part && k < |part|
    ensures a + k < |ops| && part[k] == ops[a + k]
  {
  }

  lemma PartPasses<T>(ms: seq<Migration<T>>, i: nat, db: Db<T>, outage: Outage, k: nat)
    requires i < |ms| && k < |OpsOf(ms[i])| && Start(ms, i) + k < |Ops(ms)|
    ensures Passes(OpsOf(ms[i]), Apply(Ops(ms)[..Start(ms, i)], db), Later(outage, Start(ms, i)), k) == Passes(Ops(ms), db, outage, Start(ms, i) + k)
    ensures Start(ms, i) + LandedAt(OpsOf(ms[i]), Apply(Ops(ms)[..Start(ms, i)], db), Later(outage, Start(ms, i)), k)
         == LandedAt(Ops(ms), db, outage, Start(ms, i) + k)
  {
    PartAt(ms, i, k);
    PartSent(ms, i, k, db);
  }

  /** How one migration went is how the whole list went on from it. */
  lemma PartWent<T>(ms: seq<Migration<T>>, i: nat, db: Db<T>, outage: Outage, done: bool, n: nat)
    requires i < |ms| && Start(ms, i) <= |Ops(ms)| && AllPass(Ops(ms), db, outage, Start(ms, i))
    requires Went(OpsOf(ms[i]), Apply(Ops(ms)[..Start(ms, i)], db), Later(outage, Start(ms, i)), done, n)
    ensures Start(ms, i + 1) <= |Ops(ms)|
    ensures done ==> AllPass(Ops(ms), db, outage, Start(ms, i + 1)) && Start(ms, i) + n == Start(ms, i + 1)
    ensures !done ==> Went(Ops(ms), db, outage, false, Start(ms, i) + n)
  {
    NextStart(ms, i);
    var own, late := Apply(Ops(ms)[..Start(ms, i)], db), Later(outage, Start(ms, i));
    var last: nat;
    if done { last := |OpsOf(ms[i])|; } else { last :| StopsAt(OpsOf(ms[i]), own, late, last) && n == LandedAt(OpsOf(ms[i]), own, late, last); }
    PartsPass(ms, i, db, outage, last);
    if !done {
      PartPasses(ms, i, db, outage, last);
      assert StopsAt(Ops(ms), db, outage, Start(ms, i) + last);
    }
  }

  lemma PartsPass<T>(ms: seq<Migration<T>>, i: nat, db: Db<T>, outage: Outage, last: nat)
    requires i < |ms| && last <= |OpsOf(ms[i])| && Start(ms, i) + last <= |Ops(ms)| && AllPass(Ops(ms), db, outage, Start(ms, i))
    requires AllPass(OpsOf(ms[i]), Apply(Ops(ms)[..Start(ms, i)], db), Later(outage, Start(ms, i)), last)
    ensures AllPass(Ops(ms), db, outage, Start(ms, i) + last)
  {
    forall k | 0 <= k < Start(ms, i) + last ensures Passes(Ops(ms), db, outage, k) {
      if k >= Start(ms, i) { PartPasses(ms, i, db, outage, k - Start(ms, i)); }
    }
  }

  /** One run of the object, from a ledger read that may be stale: what it does is the run's part of
      `Send`, and if it comes to the end the database is fully migrated. */
  lemma CompleteRunMigrates<T>(ms: seq<Migration<T>>, j: nat, base: nat, d0: Db<T>)
    requires Repeatable(ms) && j <= |ms| && Start(ms, j) <= base <= |Ops(ms)|
    ensures Pending(ms, LedgerOf(ms[..j])) == Ok(ms[j..])
    ensures Apply(Ops(ms[j..]), Apply(Ops(ms)[..base], d0)) == Apply(Ops(ms), d0)
  {
    PendingOfPrefix(ms, j);
    StartSplits(ms, j);
    Rerun(Ops(ms), Start(ms, j), base, d0);
  }
}
