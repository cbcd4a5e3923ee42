/** Catalyst's scheduler: a job's recorded clock is also its lock. */
module Schedules {
  import opened Common
  import opened Daruk

  const DEFAULT_INTERVAL := 3600

  function Interval(seconds: Option<int>): int {
    if seconds.None? || seconds.value == 0 then DEFAULT_INTERVAL else seconds.value
  }

  /** The arithmetic of the scheduler's test: a clock that was never written counts as 0. */
  predicate Due(read: Option<int>, now: int, interval: int) {
    now - (if read.Some? then read.value else 0) >= interval
  }

  // ---- any number of schedulers ---------------------------------------------------------

  /** One job: its recorded clock, every time a claim recorded, and every time submitted. */
  datatype Job = Job(clock: Option<int>, recorded: seq<int>, submitted: seq<int>)

  /** One scheduler's pass over the job: the value it read, possibly long ago, the time on its
      own clock, and whether its request and the reply got through. */
  datatype Pass = Pass(read: Option<int>, now: int, arrives: bool, answered: bool)

  predicate Claims(j: Job, p: Pass, interval: int) {
    Due(p.read, p.now, interval) && p.arrives && j.clock == p.read
  }

  function Run(j: Job, p: Pass, interval: int): Job {
    if !Claims(j, p, interval) then j
    else Job(Some(p.now), j.recorded + [p.now], if p.answered then j.submitted + [p.now] else j.submitted)
  }

  function Runs(j: Job, ps: seq<Pass>, interval: int): Job {
    if ps == [] then j else Run(Runs(j, ps[..|ps| - 1], interval), ps[|ps| - 1], interval)
  }

  predicate Spaced(times: seq<int>, interval: int) {
    forall i, k :: 0 <= i < k < |times| ==> times[k] - times[i] >= interval * (k - i)
  }

  /** Any two successful claims record times at least the interval apart for every claim
      between them, however stale the reads and however the schedulers' clocks disagree. */
  lemma {:induction false} ClaimsAreSpaced(start: Option<int>, ps: seq<Pass>, interval: int)
    ensures
      var j := Runs(Job(start, [], []), ps, interval);
      && Spaced(j.recorded, interval)
      && (j.recorded != [] ==> j.clock == Some(j.recorded[|j.recorded| - 1]))
      && (j.recorded == [] ==> j.clock == start)
  {
    if ps != [] {
      var p := ps[|ps| - 1];
      ClaimsAreSpaced(start, ps[..|ps| - 1], interval);
      var j := Runs(Job(start, [], []), ps[..|ps| - 1], interval);
      if Claims(j, p, interval) && j.recorded != [] {
        var n := |j.recorded|;
        forall i | 0 <= i < n ensures p.now - j.recorded[i] >= interval * (n - i) {
          assert j.recorded[n - 1] - j.recorded[i] >= interval * (n - 1 - i);
          assert interval * (n - i) == interval * (n - 1 - i) + interval;
        }
      }
    }
  }

  /** No tick is skipped: over any passes, one that reads the clock as it then stands, at least the interval
      after it, and gets through both ways submits the job; and nothing else does. */
  lemma TicksAreTaken(start: Option<int>, ps: seq<Pass>, p: Pass, interval: int)
    ensures var before, after := Runs(Job(start, [], []), ps, interval), Runs(Job(start, [], []), ps + [p], interval);
      && (after.submitted == before.submitted + [p.now] <==>
            p.arrives && p.answered && before.clock == p.read && p.now - (if p.read.Some? then p.read.value else 0) >= interval)
      && (after.submitted == before.submitted || after.submitted == before.submitted + [p.now])
  {
    assert (ps + [p])[..|ps|] == ps;
  }

  predicate SubmissionsSpaced(j: Job, interval: int) {
    && (forall i, k :: 0 <= i < k < |j.submitted| ==> j.submitted[k] - j.submitted[i] >= interval)
    && (forall i :: 0 <= i < |j.submitted| ==> j.clock.Some? && j.submitted[i] <= j.clock.value)
  }

  /** So are the submissions, including across claims whose reply was lost and which therefore
      submitted nothing: the job never runs twice within its interval. */
  lemma {:induction false} SubmissionsAreSpaced(start: Option<int>, ps: seq<Pass>, interval: int)
    requires interval >= 0
    ensures SubmissionsSpaced(Runs(Job(start, [], []), ps, interval), interval)
  {
    if ps != [] {
      SubmissionsAreSpaced(start, ps[..|ps| - 1], interval);
    }
  }

  /** With a positive interval no clock value is ever claimed from twice... */
  lemma OneClaimPerClockValue(start: Option<int>, ps: seq<Pass>, interval: int, i: nat, k: nat)
    requires interval > 0 && i < k < |ps|
    requires Claims(Runs(Job(start, [], []), ps[..i], interval), ps[i], interval)
    requires Claims(Runs(Job(start, [], []), ps[..k], interval), ps[k], interval)
    ensures ps[i].read != ps[k].read
  {
    ClockAdvances(start, ps, interval, i, k);
  }

  lemma {:induction false} ClockAdvances(start: Option<int>, ps: seq<Pass>, interval: int, i: nat, k: nat)
    requires interval > 0 && i < k <= |ps|
    requires Claims(Runs(Job(start, [], []), ps[..i], interval), ps[i], interval)
    ensures
      var c := Runs(Job(start, [], []), ps[..k], interval).clock;
      c.Some? && c.value >= ps[i].now && (ps[i].read.Some? ==> c.value > ps[i].read.value)
    decreases k
  {
    assert ps[..k][..k - 1] == ps[..k - 1];
    if i + 1 < k {
      ClockAdvances(start, ps, interval, i, k - 1);
    }
  }

  /** ...and a positive interval is needed: with any other, two claims from one clock value succeed. */
  lemma NonPositiveIntervalRepeats(interval: int, t: int)
    requires interval <= 0
    ensures
      var p := Pass(Some(t), t, true, true);
      Claims(Job(Some(t), [], []), p, interval) && Claims(Run(Job(Some(t), [], []), p, interval), p, interval)
  {
  }

  // ---- the store runs the machine --------------------------------------------------------

  function JobKey(name: string): Key { Key(DagurSchedules, Text(name)) }

  function Clock(db: Db, name: string): Value { Get(db, JobKey(name), LastRunEpoch) }

  function Recorded(v: Option<int>): Value { if v.Some? then Int(v.value) else Null }

  function ClaimRequest(name: string, read: Option<int>, now: int, at: int): Request {
    Request(ClaimJob,
            JObject(map[JobName := JText(name), LastRunEpoch := JInt(now),
                        ExpectedLastRunEpoch := if read.Some? then JInt(read.value) else JNull]),
            at)
  }

  lemma ClaimBinds(name: string, read: Option<int>, now: int, at: int)
    ensures
      var ep, body := ClaimJobEndpoint(), ClaimRequest(name, read, now, at).body;
      && Acceptable(ep, body)
      && Arg(ep, body, JobName) == Text(name)
      && Arg(ep, body, LastRunEpoch) == Int(now)
      && Arg(ep, body, ExpectedLastRunEpoch) == Recorded(read)
  {
  }

  lemma ClaimSwaps(db: Db, name: string, read: Option<int>, now: int, at: int)
    requires Permanent(db)
    ensures
      var (after, answer) := Call(db, ClaimRequest(name, read, now, at));
      && answer.Applied? == (Clock(db, name) == Recorded(read))
      && Clock(after, name) == (if answer.Applied? then Int(now) else Clock(db, name))
  {
    ClaimBinds(name, read, now, at);
    JobSwaps();
    SwapsClock(db, ClaimRequest(name, read, now, at), ClaimJobEndpoint(), name);
  }

  lemma JobSwaps()
    ensures Swaps(ClaimJobEndpoint(), LastRunEpoch, ExpectedLastRunEpoch)
  {
  }

  lemma SwapsClock(db: Db, r: Request, ep: Endpoint, name: string)
    requires Permanent(db) && ep == LwtOp(r.op) && Swaps(ep, LastRunEpoch, ExpectedLastRunEpoch) && Acceptable(ep, r.body)
    requires Target(ep, r.body) == JobKey(name)
    ensures Applies(db, r) == (Clock(db, name) == Arg(ep, r.body, ExpectedLastRunEpoch))
    ensures Clock(Call(db, r).0, name) == if Applies(db, r) then Arg(ep, r.body, LastRunEpoch) else Clock(db, name)
  {
    SwapExecutes(db, r.now, ep, r.body, LastRunEpoch, ExpectedLastRunEpoch);
  }

  lemma ScheduleOps(op: Op)
    ensures Lasting(LwtOp(op))
    ensures LwtOp(op).table == DagurSchedules <==> op == ClaimJob
  {
  }

  predicate Holds(db: Db, name: string, j: Job) { Permanent(db) && Clock(db, name) == Recorded(j.clock) }

  /** A due pass whose request arrives is one call of the endpoint, and it applies exactly when
      the machine's claim succeeds. */
  lemma PassIsCall(db: Db, name: string, j: Job, p: Pass, interval: int, at: int)
    requires Holds(db, name, j) && Due(p.read, p.now, interval) && p.arrives
    ensures Holds(Call(db, ClaimRequest(name, p.read, p.now, at)).0, name, Run(j, p, interval))
    ensures Applies(db, ClaimRequest(name, p.read, p.now, at)) == Claims(j, p, interval)
  {
    ClaimSwaps(db, name, p.read, p.now, at);
    ScheduleOps(ClaimJob);
    StaysPermanent(db, at, LwtOp(ClaimJob), ClaimRequest(name, p.read, p.now, at).body);
  }

  /** Every request that is not a claim of this job leaves its clock alone. */
  lemma OthersKeepClock(db: Db, r: Request, name: string, j: Job)
    requires Holds(db, name, j) && !(r.op == ClaimJob && Subject(r) == Text(name))
    ensures Holds(Call(db, r).0, name, j)
  {
    ScheduleOps(r.op);
    StaysPermanent(db, r.now, LwtOp(r.op), r.body);
    ColumnKept(db, r.now, LwtOp(r.op), r.body, JobKey(name), LastRunEpoch);
  }

  function Sender(name: string, interval: int): (Job, Pass, int) -> Option<Request> {
    (j: Job, p: Pass, at: int) => if Due(p.read, p.now, interval) && p.arrives then Some(ClaimRequest(name, p.read, p.now, at)) else None
  }

  function Runner(interval: int): (Job, Pass) -> Job { (j, p) => Run(j, p, interval) }

  function Holder(name: string): (Db, Job) -> bool { (db, j) => Holds(db, name, j) }

  /** Anybody else's request: whatever it is, it is not a claim of this job. */
  function Foreign(name: string): Request -> bool { (r: Request) => !(r.op == ClaimJob && Subject(r) == Text(name)) }

  lemma MachineUpheld(name: string, interval: int)
    ensures Upheld(Holder(name), Foreign(name), Sender(name, interval), Runner(interval))
  {
    forall db, j, item: Item<Pass> | Holds(db, name, j) && (item.Other? ==> Foreign(name)(item.request))
      ensures Holds(Beside(db, j, item, Sender(name, interval), Runner(interval)).0, name,
                    Beside(db, j, item, Sender(name, interval), Runner(interval)).1)
    {
      ItemIsUpheld(db, j, item, name, interval);
    }
  }

  lemma ItemIsUpheld(db: Db, j: Job, item: Item<Pass>, name: string, interval: int)
    requires Holds(db, name, j) && (item.Other? ==> Foreign(name)(item.request))
    ensures var (after, k) := Beside(db, j, item, Sender(name, interval), Runner(interval)); Holds(after, name, k)
  {
    match item
    case Mine(p, at) => if Due(p.read, p.now, interval) && p.arrives { PassIsCall(db, name, j, p, interval, at); }
    case Other(r) => OthersKeepClock(db, r, name, j);
  }

  lemma {:induction false} MachineRuns(db: Db, j: Job, name: string, items: seq<Item<Pass>>, interval: int)
    ensures Together(db, j, items, Sender(name, interval), Runner(interval)).1 == Runs(j, OwnActs(items), interval)
  {
    if items != [] {
      var n := |items| - 1;
      MachineRuns(db, j, name, items[..n], interval);
      var own := OwnActs(items[..n]);
      if items[n].Mine? { assert (own + [items[n].act])[..|own|] == own; }
    }
  }

  /** Every run over the store: any schedulers' passes over the job, interleaved with any other requests.
      The clock in the store is the machine's, and the times its claims recorded are spaced. */
  lemma StoreRunsMachine(db: Db, name: string, start: Option<int>, items: seq<Item<Pass>>, interval: int)
    requires Permanent(db) && Clock(db, name) == Recorded(start)
    requires forall item <- items :: item.Other? ==> Foreign(name)(item.request)
    ensures var (after, j) := Together(db, Job(start, [], []), items, Sender(name, interval), Runner(interval));
      && j == Runs(Job(start, [], []), OwnActs(items), interval) && Spaced(j.recorded, interval)
      && Clock(after, name) == Recorded(j.clock)
  {
    MachineUpheld(name, interval);
    StaysUpheld(db, Job(start, [], []), items, Holder(name), Foreign(name), Sender(name, interval), Runner(interval));
    MachineRuns(db, Job(start, [], []), name, items, interval);
    ClaimsAreSpaced(start, OwnActs(items), interval);
  }

  /** The interval a schedule row stands for is positive exactly when the row does not hold a negative one;
      then the job is never submitted twice within it. */
  lemma ConfiguredJobIsSpaced(start: Option<int>, ps: seq<Pass>, seconds: Option<int>)
    ensures Interval(seconds) > 0 <==> seconds.None? || seconds.value >= 0
    ensures Interval(seconds) > 0 ==> SubmissionsSpaced(Runs(Job(start, [], []), ps, Interval(seconds)), Interval(seconds))
  {
    if Interval(seconds) > 0 { SubmissionsAreSpaced(start, ps, Interval(seconds)); }
  }
}
