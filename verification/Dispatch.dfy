/** Catalyst's in-memory queues against its recorded tasks. A submission, a scheduled run, a poll, a
    worker's report, a sweep and taking the candidacy are each one step. */
module Dispatch {
  import opened Common

  datatype Status = Pending | Processing | Completed | Failed

  predicate Terminal(s: Status) { s == Completed || s == Failed }

  /** A recorded task. A report on a task nobody recorded makes a row without a service. */
  datatype Row = Row(service: Option<string>, action: string, payload: string, status: Status)

  datatype Entry = Entry(id: string, action: string, payload: string)

  const Known := {"vali", "dagur", "lanayru"}

  predicate HasQueue(row: Row) { row.service.Some? && row.service.value in Known }

  function EntryOf(id: string, row: Row): Entry { Entry(id, row.action, row.payload) }

  /** What the dispatching process holds. `queued`: ids it has put on a queue and not seen end;
      `justAcquired`: the first sweep of this tenure is still owed. */
  datatype Memory = Memory(queues: map<string, seq<Entry>>, queued: set<string>, justAcquired: bool)

  /** `puts` and `handed` count, in this tenure, what went onto the queues and off to workers; `lapses`
      the verdicts that were lost on tasks that still read pending. `issued`: every id a submission has
      taken, in this tenure or before. */
  datatype World = World(
    rows: map<string, Row>, mem: Memory, puts: multiset<string>, handed: multiset<string>, lapses: multiset<string>,
    issued: set<string>)

  function EmptyQueues(): (q: map<string, seq<Entry>>)
    ensures q.Keys == Known && forall s :: s in q ==> q[s] == []
  {
    map s | s in Known :: []
  }

  predicate Shaped(w: World) { w.mem.queues.Keys == Known }

  // ---- putting an entry on a queue --------------------------------------------------------

  function Put(w: World, service: string, e: Entry): World
    requires service in w.mem.queues
  {
    w.(mem := w.mem.(queues := w.mem.queues[service := w.mem.queues[service] + [e]], queued := w.mem.queued + {e.id}),
       puts := w.puts + multiset{e.id})
  }

  function SetStatus(w: World, id: string, s: Status): World {
    w.(rows := w.rows[id := if id in w.rows then w.rows[id].(status := s) else Row(None, "", "", s)])
  }

  // ---- the sweep --------------------------------------------------------------------------

  predicate Open(row: Row) { row.status == Pending || row.status == Processing }

  /** The open rows, in whatever order the table gives them. */
  predicate Lists(w: World, order: seq<string>) {
    && (forall i, j :: 0 <= i < j < |order| ==> order[i] != order[j])
    && (forall id :: id in order ==> id in w.rows && Open(w.rows[id]))
    && (forall id :: id in w.rows && Open(w.rows[id]) ==> id in order)
  }

  /** The sweep's decision about one open row. `lost`: rows whose failure could not be written. */
  function SweepRow(w: World, id: string, lost: set<string>): World
    requires Shaped(w) && id in w.rows
  {
    var row := w.rows[id];
    if row.status == Processing then
      if w.mem.justAcquired && id !in lost then SetStatus(w, id, Failed) else w
    else if !HasQueue(row) then
      if id !in lost then SetStatus(w, id, Failed) else w
    else if id in w.mem.queued then w
    else Put(w, row.service.value, EntryOf(id, row))
  }

  function SweepRows(w: World, order: seq<string>, lost: set<string>): World
    requires Shaped(w) && forall id <- order :: id in w.rows
    decreases |order|
  {
    if order == [] then w else SweepRows(SweepRow(w, order[0], lost), order[1..], lost)
  }

  function Sweep(w: World, order: seq<string>, lost: set<string>): World
    requires Shaped(w) && forall id <- order :: id in w.rows
  {
    var swept := SweepRows(w, order, lost);
    swept.(mem := swept.mem.(justAcquired := false))
  }

  /** Taking the candidacy: forget what was queued, drop what is on the queues, owe a first sweep. */
  function Acquire(w: World): World {
    w.(mem := Memory(EmptyQueues(), {}, true), puts := multiset{}, handed := multiset{}, lapses := multiset{})
  }

  // ---- what a sweep does to the rows and the queues ---------------------------------------

  /** The row after the sweep has looked at it. */
  function RowAfter(row: Row, failInFlight: bool, lost: bool): Row {
    if lost then row
    else if row.status == Processing then (if failInFlight then row.(status := Failed) else row)
    else if row.status == Pending && !HasQueue(row) then row.(status := Failed)
    else row
  }

  /** The sweep puts the row on a queue. */
  predicate Replays(w: World, id: string) {
    id in w.rows && w.rows[id].status == Pending && HasQueue(w.rows[id]) && id !in w.mem.queued
  }

  function ReplayedOne(w: World, service: string, id: string): seq<Entry> {
    if Replays(w, id) && w.rows[id].service.value == service then [EntryOf(id, w.rows[id])] else []
  }

  /** What the sweep appends to one queue, in the table's order. */
  function Replayed(w: World, service: string, order: seq<string>): seq<Entry>
    requires forall id <- order :: id in w.rows
  {
    if order == [] then [] else ReplayedOne(w, service, order[0]) + Replayed(w, service, order[1..])
  }

  predicate NoRepeats(order: seq<string>) { forall i, j :: 0 <= i < j < |order| ==> order[i] != order[j] }

  /** The two worlds say the same about one task. */
  predicate Agree(w: World, v: World, id: string) {
    && (id in w.rows <==> id in v.rows) && (id in w.rows ==> w.rows[id] == v.rows[id])
    && (id in w.mem.queued <==> id in v.mem.queued) && w.puts[id] == v.puts[id]
  }

  /** What a sweep makes of one task, read or not. */
  predicate Outcome(w: World, v: World, id: string, read: bool, lost: bool) {
    && (id in w.rows <==> id in v.rows)
    && (id in w.rows ==> v.rows[id] == if read then RowAfter(w.rows[id], w.mem.justAcquired, lost) else w.rows[id])
    && (id in v.mem.queued <==> id in w.mem.queued || (read && Replays(w, id)))
    && v.puts[id] == w.puts[id] + if read && Replays(w, id) then 1 else 0
  }

  lemma SweepRowShape(w: World, id: string, lost: set<string>)
    requires Shaped(w) && id in w.rows
    ensures var v := SweepRow(w, id, lost);
      Shaped(v) && v.rows.Keys == w.rows.Keys && v.mem.justAcquired == w.mem.justAcquired && v.handed == w.handed && v.lapses == w.lapses && v.issued == w.issued
  {
  }

  lemma SweepRowOthers(w: World, id: string, lost: set<string>, x: string)
    requires Shaped(w) && id in w.rows && x != id
    ensures Agree(w, SweepRow(w, id, lost), x)
  {
  }

  lemma SweepRowOwn(w: World, id: string, lost: set<string>)
    requires Shaped(w) && id in w.rows && Open(w.rows[id])
    ensures Outcome(w, SweepRow(w, id, lost), id, true, id in lost)
  {
  }

  lemma {:induction false} SweepShape(w: World, order: seq<string>, lost: set<string>)
    requires Shaped(w) && forall id <- order :: id in w.rows
    ensures var v := SweepRows(w, order, lost);
      Shaped(v) && v.rows.Keys == w.rows.Keys && v.mem.justAcquired == w.mem.justAcquired && v.handed == w.handed && v.lapses == w.lapses && v.issued == w.issued
    decreases |order|
  {
    if order != [] {
      SweepRowShape(w, order[0], lost);
      SweepShape(SweepRow(w, order[0], lost), order[1..], lost);
    }
  }

  predicate OpenRows(w: World, order: seq<string>) {
    NoRepeats(order) && forall id <- order :: id in w.rows && Open(w.rows[id])
  }

  lemma OpenRowsRest(w: World, order: seq<string>, lost: set<string>)
    requires Shaped(w) && order != [] && OpenRows(w, order)
    ensures order[0] !in order[1..] && OpenRows(SweepRow(w, order[0], lost), order[1..]) && Shaped(SweepRow(w, order[0], lost))
  {
    SweepRowShape(w, order[0], lost);
    assert forall i :: 0 <= i < |order[1..]| ==> order[1..][i] == order[i + 1];
    forall x | x in order[1..] ensures x in SweepRow(w, order[0], lost).rows && Open(SweepRow(w, order[0], lost).rows[x]) {
      SweepRowOthers(w, order[0], lost, x);
    }
  }

  /** Exactly what a sweep does to each task. */
  lemma {:induction false} SweepOutcome(w: World, order: seq<string>, lost: set<string>, x: string)
    requires Shaped(w) && OpenRows(w, order)
    ensures Outcome(w, SweepRows(w, order, lost), x, x in order, x in lost)
    decreases |order|
  {
    if order != [] {
      var v := SweepRow(w, order[0], lost);
      OpenRowsRest(w, order, lost);
      SweepRowShape(w, order[0], lost);
      SweepOutcome(v, order[1..], lost, x);
      if x == order[0] {
        SweepRowOwn(w, x, lost);
      } else {
        SweepRowOthers(w, order[0], lost, x);
        assert x in order <==> x in order[1..];
      }
    }
  }

  lemma {:induction false} ReplayedAgree(w: World, v: World, service: string, order: seq<string>)
    requires forall id <- order :: id in w.rows && id in v.rows && Agree(w, v, id)
    ensures Replayed(w, service, order) == Replayed(v, service, order)
  {
    if order != [] {
      assert Agree(w, v, order[0]);
      ReplayedAgree(w, v, service, order[1..]);
    }
  }

  lemma SweepRowQueue(w: World, id: string, lost: set<string>, service: string)
    requires Shaped(w) && id in w.rows && Open(w.rows[id]) && service in Known
    ensures service in SweepRow(w, id, lost).mem.queues
    ensures SweepRow(w, id, lost).mem.queues[service] == w.mem.queues[service] + ReplayedOne(w, service, id)
  {
    assert w.mem.queues[service] + [] == w.mem.queues[service];
  }

  lemma Associates(a: seq<Entry>, b: seq<Entry>, c: seq<Entry>)
    ensures (a + b) + c == a + (b + c)
  {
  }

  /** Exactly what a sweep appends to each queue. */
  lemma {:induction false} SweepQueue(w: World, order: seq<string>, lost: set<string>, service: string)
    requires Shaped(w) && OpenRows(w, order) && service in Known
    ensures service in SweepRows(w, order, lost).mem.queues
    ensures SweepRows(w, order, lost).mem.queues[service] == w.mem.queues[service] + Replayed(w, service, order)
    decreases |order|
  {
    if order == [] {
      assert w.mem.queues[service] + [] == w.mem.queues[service];
    } else {
      var v := SweepRow(w, order[0], lost);
      OpenRowsRest(w, order, lost);
      SweepQueue(v, order[1..], lost, service);
      forall x | x in order[1..] ensures x in w.rows && x in v.rows && Agree(w, v, x) {
        SweepRowOthers(w, order[0], lost, x);
      }
      ReplayedAgree(w, v, service, order[1..]);
      SweepRowQueue(w, order[0], lost, service);
      Associates(w.mem.queues[service], ReplayedOne(w, service, order[0]), Replayed(w, service, order[1..]));
    }
  }

  // ---- taking over ------------------------------------------------------------------------

  /** The ids on one queue. */
  function IdsOn(q: seq<Entry>): multiset<string> {
    if q == [] then multiset{} else multiset{q[0].id} + IdsOn(q[1..])
  }

  lemma {:induction false} ReplayedCounts(w: World, service: string, order: seq<string>, id: string)
    requires NoRepeats(order) && forall x <- order :: x in w.rows
    ensures IdsOn(Replayed(w, service, order))[id]
         == if id in order && Replays(w, id) && w.rows[id].service.value == service then 1 else 0
    ensures forall e <- Replayed(w, service, order) :: e.id in w.rows && e == EntryOf(e.id, w.rows[e.id])
  {
    if order != [] {
      assert forall i :: 0 <= i < |order[1..]| ==> order[1..][i] == order[i + 1];
      ReplayedCounts(w, service, order[1..], id);
      IdsOnCons(w, service, order);
    }
  }

  lemma IdsOnCons(w: World, service: string, order: seq<string>)
    requires order != [] && forall x <- order :: x in w.rows
    ensures IdsOn(Replayed(w, service, order))
         == IdsOn(ReplayedOne(w, service, order[0])) + IdsOn(Replayed(w, service, order[1..]))
  {
    var rest := Replayed(w, service, order[1..]);
    if Replays(w, order[0]) && w.rows[order[0]].service.value == service {
      var e := EntryOf(order[0], w.rows[order[0]]);
      assert ([e] + rest)[1..] == rest;
    } else {
      assert [] + rest == rest;
    }
  }

  /** How many entries a queue must hold for a task: one if it is pending on this service. */
  predicate CountsRow(w: World, s: string, id: string) {
    s in w.mem.queues &&
    IdsOn(w.mem.queues[s])[id] == if id in w.rows && w.rows[id].status == Pending && w.rows[id].service == Some(s) then 1 else 0
  }

  predicate SaysRow(w: World, e: Entry) { e.id in w.rows && e == EntryOf(e.id, w.rows[e.id]) }

  /** The queues hold one entry for each pending row with a queue, on its own queue, and nothing else. */
  ghost predicate QueuesMatchRows(w: World) {
    && Shaped(w)
    && (forall s, id: string :: s in Known ==> CountsRow(w, s, id))
    && (forall s, e :: s in Known && e in w.mem.queues[s] ==> SaysRow(w, e))
  }

  /** What the first sweep of a tenure owes a row: what was in flight is failed, what has no queue is
      failed, and everything else is left alone. */
  predicate Recovered(row: Row, after: Row) {
    && (row.status == Processing ==> after == row.(status := Failed))
    && (row.status == Pending && !HasQueue(row) ==> after == row.(status := Failed))
    && (row.status == Pending && HasQueue(row) ==> after == row)
    && (Terminal(row.status) ==> after == row)
  }

  lemma AcquiredLists(before: World, order: seq<string>)
    requires Lists(before, order)
    ensures Shaped(Acquire(before)) && OpenRows(Acquire(before), order)
  {
  }

  lemma TakeoverQueues(before: World, order: seq<string>, lost: set<string>)
    requires Lists(before, order)
    ensures Shaped(Acquire(before)) && OpenRows(Acquire(before), order)
    ensures QueuesMatchRows(SweepRows(Acquire(before), order, lost))
  {
    AcquiredLists(before, order);
    var v := SweepRows(Acquire(before), order, lost);
    SweepShape(Acquire(before), order, lost);
    forall s, id: string | s in Known ensures CountsRow(v, s, id) {
      QueueCounts(before, order, lost, s, id);
    }
    forall s, e | s in Known && e in v.mem.queues[s] ensures SaysRow(v, e) {
      QueueEntries(before, order, lost, s, e);
    }
  }

  /** What the first sweep makes of a row, whatever came before it. */
  lemma FirstSweepRecovers(w: World, order: seq<string>, lost: set<string>, id: string)
    requires Shaped(w) && Lists(w, order) && w.mem.justAcquired && id in w.rows && id !in lost
    ensures id in Sweep(w, order, lost).rows && Recovered(w.rows[id], Sweep(w, order, lost).rows[id])
  {
    SweepShape(w, order, lost);
    SweepOutcome(w, order, lost, id);
  }

  /** Taking over: after taking the candidacy the first sweep that reads the table leaves each queue
      with exactly one entry per pending row of its service and nothing else, every row that was in
      flight failed and every pending row without a queue failed. */
  lemma TakeoverRestoresQueues(before: World, order: seq<string>, lost: set<string>)
    requires Lists(before, order)
    ensures Shaped(Acquire(before)) && OpenRows(Acquire(before), order)
    ensures QueuesMatchRows(Sweep(Acquire(before), order, lost))
    ensures !Sweep(Acquire(before), order, lost).mem.justAcquired
    ensures Sweep(Acquire(before), order, lost).rows.Keys == before.rows.Keys
    ensures forall id :: id in before.rows && id !in lost ==> Recovered(before.rows[id], Sweep(Acquire(before), order, lost).rows[id])
  {
    AcquiredLists(before, order);
    var v := SweepRows(Acquire(before), order, lost);
    SweepShape(Acquire(before), order, lost);
    TakeoverQueues(before, order, lost);
    DutyDoneMatches(v);
    forall id | id in before.rows && id !in lost ensures Recovered(before.rows[id], v.rows[id]) {
      FirstSweepRecovers(Acquire(before), order, lost, id);
    }
  }

  lemma DutyDoneMatches(v: World)
    requires QueuesMatchRows(v)
    ensures QueuesMatchRows(v.(mem := v.mem.(justAcquired := false)))
  {
    var done := v.(mem := v.mem.(justAcquired := false));
    forall s, id: string | s in Known ensures CountsRow(done, s, id) {
      assert CountsRow(v, s, id);
    }
    forall s, e | s in Known && e in done.mem.queues[s] ensures SaysRow(done, e) {
      assert SaysRow(v, e);
    }
  }

  lemma QueueEntries(before: World, order: seq<string>, lost: set<string>, s: string, e: Entry)
    requires Lists(before, order) && s in Known && Shaped(SweepRows(Acquire(before), order, lost))
    requires e in SweepRows(Acquire(before), order, lost).mem.queues[s]
    ensures SaysRow(SweepRows(Acquire(before), order, lost), e)
  {
    var w := Acquire(before);
    SweepQueue(w, order, lost, s);
    ReplayedCounts(w, s, order, e.id);
    SweepOutcome(w, order, lost, e.id);
    assert e in Replayed(w, s, order);
  }

  lemma QueueCounts(before: World, order: seq<string>, lost: set<string>, s: string, id: string)
    requires Lists(before, order) && s in Known
    ensures CountsRow(SweepRows(Acquire(before), order, lost), s, id)
  {
    var w := Acquire(before);
    SweepShape(w, order, lost);
    SweepOutcome(w, order, lost, id);
    SweepQueue(w, order, lost, s);
    ReplayedCounts(w, s, order, id);
    assert [] + Replayed(w, s, order) == Replayed(w, s, order);
  }

  // ---- runs -------------------------------------------------------------------------------

  /** `here`: at the Catalyst that holds the candidacy, and not at another. */
  datatype Event =
    | Submit(id: string, service: string, action: string, payload: string, here: bool)
    | Schedule(id: string, payload: string, recorded: bool, here: bool) // its insert may be lost
    | Poll(service: string)
    | Report(id: string, status: Status, landed: bool, here: bool) // a worker's report; its write may be lost
    | SweepReads(order: seq<string>, lost: set<string>)
    | SweepBlind                                       // the table could not be read
    | Take

  predicate Fresh(w: World, id: string) { id !in w.rows && id !in w.issued }

  predicate Enabled(w: World, e: Event) {
    match e
    case Submit(id, service, _, _, _) => Fresh(w, id) && service in Known
    case Schedule(id, _, _, _) => Fresh(w, id)
    case Poll(service) => service in w.mem.queues && w.mem.queues[service] != []
    case Report(_, status, _, _) => status != Pending
    case SweepReads(order, _) => Lists(w, order)
    case SweepBlind => true
    case Take => true
  }

  /** A task under a new id: recorded, unless its insert is lost, on whatever node; and queued here,
      recorded or not. */
  function Entered(w: World, id: string, row: Row, recorded: bool, here: bool): World
    requires Shaped(w) && HasQueue(row)
  {
    var known := Noted(w, id, row, recorded);
    if here then Put(known, row.service.value, EntryOf(id, row)) else known
  }

  function Noted(w: World, id: string, row: Row, recorded: bool): World {
    w.(rows := if recorded then w.rows[id := row] else w.rows, issued := w.issued + {id})
  }

  const SchedulesOn := "dagur"

  /** The row of a scheduled run. */
  function RunRow(payload: string): Row { Row(Some(SchedulesOn), "execute", payload, Pending) }

  function Polled(w: World, service: string): World
    requires service in w.mem.queues && w.mem.queues[service] != []
  {
    w.(mem := w.mem.(queues := w.mem.queues[service := w.mem.queues[service][1..]]),
       handed := w.handed + multiset{w.mem.queues[service][0].id})
  }

  /** The verdict on a task that still reads pending is lost where the task is remembered. */
  predicate Lapse(w: World, id: string, status: Status, landed: bool, here: bool) {
    Terminal(status) && !landed && here && id in w.rows && w.rows[id].status == Pending
  }

  function Reported(w: World, id: string, status: Status, landed: bool, here: bool): World {
    var written := if landed then SetStatus(w, id, status) else w;
    var forgotten := if Terminal(status) && here then written.(mem := w.mem.(queued := w.mem.queued - {id})) else written;
    if Lapse(w, id, status, landed, here) then forgotten.(lapses := w.lapses + multiset{id}) else forgotten
  }

  function Next(w: World, e: Event): World
    requires Shaped(w) && Enabled(w, e)
  {
    match e
    case Submit(id, service, action, payload, here) => Entered(w, id, Row(Some(service), action, payload, Pending), true, here)
    case Schedule(id, payload, recorded, here) => Entered(w, id, RunRow(payload), recorded, here)
    case Poll(service) => Polled(w, service)
    case Report(id, status, landed, here) => Reported(w, id, status, landed, here)
    case SweepReads(order, lost) => Sweep(w, order, lost)
    case SweepBlind => w
    case Take => Acquire(w)
  }

  predicate Step(w: World, e: Event, v: World) { Shaped(w) && Enabled(w, e) && v == Next(w, e) }

  /** Any run that begins with taking the candidacy, over whatever is recorded. */
  predicate History(ws: seq<World>, es: seq<Event>) {
    && |ws| == |es| + 1
    && ws[0] == Acquire(ws[0])
    && forall i {:trigger es[i]} :: 0 <= i < |es| ==> Step(ws[i], es[i], ws[i + 1])
  }

  // ---- what every step of a tenure keeps --------------------------------------------------

  function OnQueue(w: World, service: string, id: string): nat {
    if service in w.mem.queues then IdsOn(w.mem.queues[service])[id] else 0
  }

  function OnQueues(w: World, id: string): nat { OnQueue(w, "vali", id) + OnQueue(w, "dagur", id) + OnQueue(w, "lanayru", id) }

  /** The queue a task belongs on: its row's, or the scheduler's where no row names one. */
  function Home(w: World, id: string): string {
    if id in w.rows && w.rows[id].service.Some? then w.rows[id].service.value else SchedulesOn
  }

  predicate OwnQueue(w: World, service: string, id: string) { OnQueue(w, service, id) > 0 ==> Home(w, id) == service }

  predicate ReadsPending(w: World, id: string) { id in w.rows && w.rows[id].status == Pending }

  /** One task: it was put on a queue once, and once more at most for each lapse; what was put is on its
      own queue or handed to a worker; and it reads pending without being remembered as queued only for
      a lapse that has not been paid for yet. */
  predicate Kept(w: World, id: string) {
    && w.puts[id] <= 1 + w.lapses[id]
    && (w.puts[id] > 0 ==> id in w.rows || id in w.issued)
    && (w.puts[id] > 0 && ReadsPending(w, id) ==> HasQueue(w.rows[id]) && (id in w.mem.queued || w.puts[id] <= w.lapses[id]))
    && (id in w.mem.queued ==> w.puts[id] > 0)
    && Placed(w, id)
  }

  /** What was put is on the task's own queue or handed to a worker. */
  predicate Placed(w: World, id: string) {
    && OnQueues(w, id) + w.handed[id] == w.puts[id]
    && OwnQueue(w, "vali", id) && OwnQueue(w, "dagur", id) && OwnQueue(w, "lanayru", id)
  }

  lemma PlacedStays(w: World, v: World, x: string)
    requires Placed(w, x) && v.mem.queues == w.mem.queues && v.handed == w.handed && v.puts == w.puts
    requires Home(v, x) == Home(w, x)
    ensures Placed(v, x)
  {
  }

  lemma {:induction false} IdsOnAppend(a: seq<Entry>, b: seq<Entry>)
    ensures IdsOn(a + b) == IdsOn(a) + IdsOn(b)
  {
    if a == [] {
      assert a + b == b;
    } else {
      assert (a + b)[1..] == a[1..] + b;
      IdsOnAppend(a[1..], b);
    }
  }

  lemma IdsOnOne(e: Entry)
    ensures IdsOn([e]) == multiset{e.id}
  {
    assert [e][1..] == [];
  }

  lemma TakeKeeps(w: World, id: string)
    ensures Shaped(Acquire(w)) && Kept(Acquire(w), id)
  {
  }

  lemma PutKeepsOther(w: World, service: string, e: Entry, id: string)
    requires Shaped(w) && service in Known && id != e.id && Kept(w, id)
    ensures Shaped(Put(w, service, e)) && Kept(Put(w, service, e), id)
  {
    PutAdds(w, service, e, "vali", id);
    PutAdds(w, service, e, "dagur", id);
    PutAdds(w, service, e, "lanayru", id);
  }

  lemma PutAdds(w: World, service: string, e: Entry, s: string, x: string)
    requires service in w.mem.queues
    ensures OnQueue(Put(w, service, e), s, x) == OnQueue(w, s, x) + if s == service && e.id == x then 1 else 0
  {
    IdsOnAppend(w.mem.queues[service], [e]);
    IdsOnOne(e);
  }

  lemma PutKeepsOwn(w: World, service: string, e: Entry)
    requires Shaped(w) && service in Known && Kept(w, e.id) && w.puts[e.id] <= w.lapses[e.id]
    requires (e.id in w.rows || e.id in w.issued) && Home(w, e.id) == service
    requires ReadsPending(w, e.id) ==> HasQueue(w.rows[e.id])
    ensures Kept(Put(w, service, e), e.id)
  {
    PutAdds(w, service, e, "vali", e.id);
    PutAdds(w, service, e, "dagur", e.id);
    PutAdds(w, service, e, "lanayru", e.id);
    assert |"vali"| == 4 && |"dagur"| == 5 && |"lanayru"| == 7;
  }

  lemma EnterKeeps(w: World, id: string, row: Row, recorded: bool, here: bool, x: string)
    requires Shaped(w) && Fresh(w, id) && HasQueue(row) && (recorded || row.service == Some(SchedulesOn)) && Kept(w, x)
    ensures Shaped(Entered(w, id, row, recorded, here)) && Kept(Entered(w, id, row, recorded, here), x)
  {
    if x == id { EnterKeepsOwn(w, id, row, recorded, here); } else { EnterKeepsOther(w, id, row, recorded, here, x); }
  }

  lemma EnterKeepsOwn(w: World, id: string, row: Row, recorded: bool, here: bool)
    requires Shaped(w) && Fresh(w, id) && HasQueue(row) && (recorded || row.service == Some(SchedulesOn)) && Kept(w, id)
    ensures Kept(Entered(w, id, row, recorded, here), id)
  {
    var known := Noted(w, id, row, recorded);
    KnownKeeps(w, known, id, id);
    if here { PutsNew(known, row, id); }
  }

  lemma EnterKeepsOther(w: World, id: string, row: Row, recorded: bool, here: bool, x: string)
    requires Shaped(w) && Fresh(w, id) && HasQueue(row) && Kept(w, x) && x != id
    ensures Kept(Entered(w, id, row, recorded, here), x)
  {
    var known := Noted(w, id, row, recorded);
    KnownKeeps(w, known, id, x);
    if here { PutKeepsOther(known, row.service.value, EntryOf(id, row), x); }
  }

  lemma PutsNew(known: World, row: Row, id: string)
    requires Shaped(known) && HasQueue(row) && Kept(known, id) && known.puts[id] == 0 && id in known.issued
    requires if id in known.rows then known.rows[id] == row else row.service == Some(SchedulesOn)
    ensures Kept(Put(known, row.service.value, EntryOf(id, row)), id)
  {
    PutKeepsOwn(known, row.service.value, EntryOf(id, row));
  }

  /** Recording a new task, or taking its id, disturbs nothing: the id was never put. */
  lemma KnownKeeps(w: World, known: World, id: string, x: string)
    requires Fresh(w, id) && Kept(w, x) && known.issued == w.issued + {id}
    requires known == w.(rows := known.rows, issued := known.issued)
    requires x != id ==> (x in known.rows <==> x in w.rows) && (x in w.rows ==> known.rows[x] == w.rows[x])
    ensures Kept(known, x) && (x == id ==> known.puts[x] == 0)
  {
    if x != id { PlacedStays(w, known, x); }
  }

  lemma PollKeeps(w: World, service: string, x: string)
    requires Shaped(w) && service in w.mem.queues && w.mem.queues[service] != [] && Kept(w, x)
    ensures Shaped(Polled(w, service)) && Kept(Polled(w, service), x)
  {
    PollTakesOne(w, service, x);
    PollKeepsOwn(w, service, "vali", x);
    PollKeepsOwn(w, service, "dagur", x);
    PollKeepsOwn(w, service, "lanayru", x);
  }

  lemma PollKeepsOwn(w: World, service: string, s: string, x: string)
    requires service in w.mem.queues && w.mem.queues[service] != [] && OwnQueue(w, s, x)
    ensures OwnQueue(Polled(w, service), s, x)
  {
    PollTakes(w, service, s, x);
  }

  lemma PollTakesOne(w: World, service: string, x: string)
    requires Shaped(w) && service in w.mem.queues && w.mem.queues[service] != []
    ensures OnQueues(w, x) == OnQueues(Polled(w, service), x) + if w.mem.queues[service][0].id == x then 1 else 0
  {
    PollTakes(w, service, "vali", x);
    PollTakes(w, service, "dagur", x);
    PollTakes(w, service, "lanayru", x);
    assert |"vali"| == 4 && |"dagur"| == 5 && |"lanayru"| == 7;
  }

  /** A poll takes the first entry off the queue it asks, and nothing off the others. */
  lemma PollTakes(w: World, service: string, s: string, x: string)
    requires service in w.mem.queues && w.mem.queues[service] != []
    ensures OnQueue(w, s, x) == OnQueue(Polled(w, service), s, x) + if s == service && w.mem.queues[service][0].id == x then 1 else 0
  {
    var q := w.mem.queues[service];
    assert q == [q[0]] + q[1..];
    IdsOnAppend([q[0]], q[1..]);
    IdsOnOne(q[0]);
  }

  lemma ReportKeeps(w: World, id: string, status: Status, landed: bool, here: bool, x: string)
    requires Shaped(w) && Kept(w, x) && status != Pending
    ensures Shaped(Reported(w, id, status, landed, here)) && Kept(Reported(w, id, status, landed, here), x)
  {
    if x == id { ReportKeepsOwn(w, id, status, landed, here); } else { ReportKeepsOther(w, id, status, landed, here, x); }
  }

  lemma ReportKeepsOwn(w: World, id: string, status: Status, landed: bool, here: bool)
    requires Shaped(w) && Kept(w, id) && status != Pending
    ensures Kept(Reported(w, id, status, landed, here), id)
  {
    PlacedStays(w, Reported(w, id, status, landed, here), id);
  }

  lemma ReportKeepsOther(w: World, id: string, status: Status, landed: bool, here: bool, x: string)
    requires Shaped(w) && Kept(w, x) && x != id
    ensures Kept(Reported(w, id, status, landed, here), x)
  {
    PlacedStays(w, Reported(w, id, status, landed, here), x);
  }

  lemma FailKeeps(w: World, id: string, x: string)
    requires Shaped(w) && id in w.rows && Kept(w, x)
    ensures Shaped(SetStatus(w, id, Failed)) && Kept(SetStatus(w, id, Failed), x)
  {
    PlacedStays(w, SetStatus(w, id, Failed), x);
  }

  lemma SweepRowKeeps(w: World, id: string, lost: set<string>, x: string)
    requires Shaped(w) && id in w.rows && Open(w.rows[id]) && Kept(w, x)
    ensures Shaped(SweepRow(w, id, lost)) && Kept(SweepRow(w, id, lost), x)
  {
    var row := w.rows[id];
    if row.status == Processing || !HasQueue(row) {
      FailKeeps(w, id, x);
    } else if id !in w.mem.queued {
      if x == id { PutKeepsOwn(w, row.service.value, EntryOf(id, row)); }
      else { PutKeepsOther(w, row.service.value, EntryOf(id, row), x); }
    }
  }

  lemma {:induction false} SweepKeeps(w: World, order: seq<string>, lost: set<string>, x: string)
    requires Shaped(w) && OpenRows(w, order) && Kept(w, x)
    ensures Shaped(SweepRows(w, order, lost)) && Kept(SweepRows(w, order, lost), x)
    decreases |order|
  {
    if order != [] {
      OpenRowsRest(w, order, lost);
      SweepRowKeeps(w, order[0], lost, x);
      SweepKeeps(SweepRow(w, order[0], lost), order[1..], lost, x);
    }
  }

  lemma SweepStepKeeps(w: World, order: seq<string>, lost: set<string>, x: string)
    requires Shaped(w) && OpenRows(w, order) && Kept(w, x)
    ensures Shaped(Sweep(w, order, lost)) && Kept(Sweep(w, order, lost), x)
  {
    SweepKeeps(w, order, lost, x);
    DutyDoneKeeps(SweepRows(w, order, lost), x);
  }

  lemma DutyDoneKeeps(w: World, x: string)
    requires Kept(w, x)
    ensures Kept(w.(mem := w.mem.(justAcquired := false)), x)
  {
    PlacedStays(w, w.(mem := w.mem.(justAcquired := false)), x);
  }

  lemma StepKeeps(w: World, e: Event, v: World, x: string)
    requires Step(w, e, v) && Kept(w, x)
    ensures Shaped(v) && Kept(v, x)
  {
    match e
    case Submit(id, service, action, payload, here) => EnterKeeps(w, id, Row(Some(service), action, payload, Pending), true, here, x);
    case Schedule(id, payload, recorded, here) => EnterKeeps(w, id, RunRow(payload), recorded, here, x);
    case Poll(service) => PollKeeps(w, service, x);
    case Report(id, status, landed, here) => ReportKeeps(w, id, status, landed, here, x);
    case SweepReads(order, lost) => SweepStepKeeps(w, order, lost, x);
    case SweepBlind =>
    case Take => TakeKeeps(w, x);
  }

  /** In every world of every tenure: a task is put on a queue at most once, and once more at most for
      each verdict lost while it read pending; and whatever was put is on its own queue or with a worker. */
  lemma {:induction false} NothingIsQueuedTwice(ws: seq<World>, es: seq<Event>, i: nat, x: string)
    requires History(ws, es) && i < |ws|
    ensures Shaped(ws[i]) && Kept(ws[i], x)
  {
    if i > 0 {
      NothingIsQueuedTwice(ws, es, i - 1, x);
      StepKeeps(ws[i - 1], es[i - 1], ws[i], x);
    } else {
      TakeKeeps(ws[0], x);
    }
  }

  /** After each sweep that read the table, every pending row with a queue is on its own queue or has been
      handed to a worker; without lapses exactly once. */
  lemma SweptRowsAreHeld(ws: seq<World>, es: seq<Event>, i: nat, x: string)
    requires History(ws, es) && i < |es| && es[i].SweepReads?
    requires x in ws[i + 1].rows && ws[i + 1].rows[x].status == Pending && HasQueue(ws[i + 1].rows[x])
    ensures 1 <= OnQueue(ws[i + 1], ws[i + 1].rows[x].service.value, x) + ws[i + 1].handed[x] <= 1 + ws[i + 1].lapses[x]
  {
    var w, v := ws[i], ws[i + 1];
    assert Step(w, es[i], v);
    NothingIsQueuedTwice(ws, es, i, x);
    NothingIsQueuedTwice(ws, es, i + 1, x);
    SweepShape(w, es[i].order, es[i].lost);
    SweepOutcome(w, es[i].order, es[i].lost, x);
    assert v.puts[x] >= 1;
    OnlyOwnQueue(v, x);
  }

  lemma OnlyOwnQueue(w: World, x: string)
    requires Shaped(w) && Kept(w, x) && x in w.rows && HasQueue(w.rows[x])
    ensures OnQueue(w, w.rows[x].service.value, x) == OnQueues(w, x)
  {
  }

  /** A sweep that reads the table changes a row a worker has, in this tenure or an earlier one, exactly
      when it is the first of its tenure and the write lands; and then it fails it. */
  lemma SweepsLeaveWorkersAlone(ws: seq<World>, es: seq<Event>, i: nat, x: string)
    requires History(ws, es) && i < |es| && es[i].SweepReads?
    requires x in ws[i].rows && ws[i].rows[x].status == Processing
    ensures x in ws[i + 1].rows
    ensures ws[i + 1].rows[x] != ws[i].rows[x] <==> ws[i].mem.justAcquired && x !in es[i].lost
    ensures ws[i + 1].rows[x] != ws[i].rows[x] ==> ws[i + 1].rows[x] == ws[i].rows[x].(status := Failed)
  {
    assert Step(ws[i], es[i], ws[i + 1]);
    SweepShape(ws[i], es[i].order, es[i].lost);
    SweepOutcome(ws[i], es[i].order, es[i].lost, x);
  }

  /** The first sweep stays owed until a sweep reads the table, whatever else happens. */
  lemma {:induction false} DutyStaysOutstanding(ws: seq<World>, es: seq<Event>, i: nat, j: nat)
    requires History(ws, es) && i < j < |ws| && es[i].Take?
    requires forall k :: i < k < j ==> !es[k].SweepReads?
    ensures ws[j].mem.justAcquired
    decreases j
  {
    assert Step(ws[j - 1], es[j - 1], ws[j]);
    if j - 1 > i { DutyStaysOutstanding(ws, es, i, j - 1); }
  }

  lemma {:induction false} BlindSweepsChangeNothing(ws: seq<World>, es: seq<Event>, i: nat, j: nat)
    requires History(ws, es) && i <= j < |ws| && forall k :: i <= k < j ==> es[k].SweepBlind?
    ensures ws[j] == ws[i]
    decreases j
  {
    if i < j {
      BlindSweepsChangeNothing(ws, es, i, j - 1);
      assert Step(ws[j - 1], es[j - 1], ws[j]);
    }
  }

  /** The takeover undisturbed: taking the candidacy, any number of reads that fail, then one that does
      not. */
  lemma TakeoverUndisturbed(ws: seq<World>, es: seq<Event>, i: nat, j: nat)
    requires History(ws, es) && i < j < |es| && es[i].Take? && es[j].SweepReads?
    requires forall k :: i < k < j ==> es[k].SweepBlind?
    ensures QueuesMatchRows(ws[j + 1]) && ws[j + 1].rows.Keys == ws[i].rows.Keys
    ensures forall id :: id in ws[i].rows && id !in es[j].lost ==> Recovered(ws[i].rows[id], ws[j + 1].rows[id])
  {
    BlindSweepsChangeNothing(ws, es, i + 1, j);
    assert Step(ws[i], es[i], ws[i + 1]) && Step(ws[j], es[j], ws[j + 1]);
    assert Lists(ws[i], es[j].order);
    TakeoverRestoresQueues(ws[i], es[j].order, es[j].lost);
  }

  /** The takeover in a run, with submissions, polls and reports coming in between: the first sweep that
      reads the table fails every row then in flight and every pending row without a queue; and every
      pending row with one is on its own queue or with a worker, without lapses exactly once. */
  lemma TakeoverInARun(ws: seq<World>, es: seq<Event>, i: nat, j: nat, x: string)
    requires History(ws, es) && i < j < |es| && es[i].Take? && es[j].SweepReads?
    requires forall k :: i < k < j ==> !es[k].SweepReads?
    requires x in ws[j].rows && x !in es[j].lost
    ensures x in ws[j + 1].rows && Recovered(ws[j].rows[x], ws[j + 1].rows[x])
    ensures ws[j].rows[x].status == Pending && HasQueue(ws[j].rows[x]) ==>
      1 <= OnQueue(ws[j + 1], ws[j].rows[x].service.value, x) + ws[j + 1].handed[x] <= 1 + ws[j + 1].lapses[x]
  {
    assert Step(ws[j], es[j], ws[j + 1]);
    DutyStaysOutstanding(ws, es, i, j);
    FirstSweepRecovers(ws[j], es[j].order, es[j].lost, x);
    if ws[j].rows[x].status == Pending && HasQueue(ws[j].rows[x]) { SweptRowsAreHeld(ws, es, j, x); }
  }

  // ---- what a report leaves in its row -------------------------------------------------------

  lemma RowStays(w: World, e: Event, v: World, x: string)
    requires Step(w, e, v) && x in w.rows && !LandsOn(e, x) && !e.SweepReads?
    ensures x in v.rows && v.rows[x] == w.rows[x]
  {
    if e.Report? { ReportRows(w, e.id, e.status, e.landed, e.here, x); }
  }

  /** A report that lands leaves its row with the status reported and what the task was, and the row reads
      so until another lands or a sweep reads the table. */
  lemma {:induction false} ReportedStatusStays(ws: seq<World>, es: seq<Event>, i: nat, j: nat, x: string)
    requires History(ws, es) && i < j < |ws| && LandsOn(es[i], x)
    requires forall k :: i < k < j ==> !LandsOn(es[k], x) && !es[k].SweepReads?
    ensures x in ws[j].rows && ws[j].rows[x].status == es[i].status
    ensures x in ws[i].rows ==> ws[j].rows[x] == ws[i].rows[x].(status := es[i].status)
    ensures x !in ws[i].rows ==> ws[j].rows[x].service == None
    decreases j
  {
    assert Step(ws[j - 1], es[j - 1], ws[j]);
    if i < j - 1 {
      ReportedStatusStays(ws, es, i, j - 1, x);
      RowStays(ws[j - 1], es[j - 1], ws[j], x);
    } else {
      ReportRows(ws[i], es[i].id, es[i].status, es[i].landed, es[i].here, x);
    }
  }

  /** And a terminal one is final, whatever sweeps come, until another lands. */
  lemma {:induction false} VerdictStays(ws: seq<World>, es: seq<Event>, i: nat, j: nat, x: string)
    requires History(ws, es) && i < j < |ws| && LandsOn(es[i], x) && Terminal(es[i].status)
    requires forall k :: i < k < j ==> !LandsOn(es[k], x)
    ensures x in ws[j].rows && ws[j].rows[x].status == es[i].status
    decreases j
  {
    assert Step(ws[j - 1], es[j - 1], ws[j]);
    if i == j - 1 {
      ReportedStatusStays(ws, es, i, j, x);
    } else {
      VerdictStays(ws, es, i, j - 1, x);
      if es[j - 1].SweepReads? {
        SweepShape(ws[j - 1], es[j - 1].order, es[j - 1].lost);
        SweepOutcome(ws[j - 1], es[j - 1].order, es[j - 1].lost, x);
      } else {
        RowStays(ws[j - 1], es[j - 1], ws[j], x);
      }
    }
  }

  // ---- scheduled runs whose insert was lost -------------------------------------------------

  /** A scheduled run whose insert was lost, put on the queue here all the same. */
  predicate UnrecordedPut(e: Event, x: string) { e.Schedule? && e.id == x && !e.recorded && e.here }

  predicate LandsOn(e: Event, x: string) { e.Report? && e.id == x && e.landed }

  predicate PutUnrecorded(es: seq<Event>, k: nat, i: nat, x: string) { k < i <= |es| && UnrecordedPut(es[k], x) }

  /** Such a put, and no report on the task has landed since. */
  predicate StillUnrecorded(es: seq<Event>, k: nat, i: nat, x: string) {
    PutUnrecorded(es, k, i, x) && forall m {:trigger es[m]} :: k < m < i ==> !LandsOn(es[m], x)
  }

  /** No row names a queue for the task. */
  predicate Nameless(w: World, x: string) { x in w.rows ==> w.rows[x].service.None? }

  lemma RowsOnlyGrow(w: World, e: Event, v: World, x: string)
    requires Step(w, e, v)
    ensures w.issued <= v.issued
    ensures x in w.rows ==> x in v.rows && v.rows[x].service == w.rows[x].service
    ensures x in w.issued && x !in w.rows ==> (x in v.rows <==> LandsOn(e, x)) && Nameless(v, x)
  {
    if e.SweepReads? {
      SweepShape(w, e.order, e.lost);
      SweepOutcome(w, e.order, e.lost, x);
    } else if e.Report? {
      ReportRows(w, e.id, e.status, e.landed, e.here, x);
    }
  }

  lemma ReportRows(w: World, id: string, status: Status, landed: bool, here: bool, x: string)
    ensures Reported(w, id, status, landed, here).issued == w.issued
    ensures Reported(w, id, status, landed, here).rows == if landed then SetStatus(w, id, status).rows else w.rows
  {
  }

  predicate Enters(e: Event, x: string) { (e.Submit? || e.Schedule?) && e.id == x }

  /** A poll that gives the task to a worker. */
  predicate HandsOut(w: World, e: Event, x: string) {
    e.Poll? && e.service in w.mem.queues && w.mem.queues[e.service] != [] && w.mem.queues[e.service][0].id == x
  }

  /** The row alone is enough for a sweep to put the task on a queue. */
  predicate Replayable(w: World, x: string) { ReadsPending(w, x) && HasQueue(w.rows[x]) }

  lemma EntersOther(w: World, id: string, row: Row, recorded: bool, here: bool, x: string)
    requires Shaped(w) && HasQueue(row) && x != id
    ensures OnQueues(Entered(w, id, row, recorded, here), x) == OnQueues(w, x)
  {
    if here {
      var known := Noted(w, id, row, recorded);
      PutAdds(known, row.service.value, EntryOf(id, row), "vali", x);
      PutAdds(known, row.service.value, EntryOf(id, row), "dagur", x);
      PutAdds(known, row.service.value, EntryOf(id, row), "lanayru", x);
    }
  }

  lemma SweepAddsNoneHere(w: World, order: seq<string>, lost: set<string>, s: string, x: string)
    requires Shaped(w) && OpenRows(w, order) && s in Known && !Replayable(w, x)
    ensures OnQueue(Sweep(w, order, lost), s, x) == OnQueue(w, s, x)
  {
    SweepQueue(w, order, lost, s);
    ReplayedCounts(w, s, order, x);
    IdsOnAppend(w.mem.queues[s], Replayed(w, s, order));
  }

  lemma SweepAddsNone(w: World, order: seq<string>, lost: set<string>, x: string)
    requires Shaped(w) && OpenRows(w, order) && !Replayable(w, x)
    ensures OnQueues(Sweep(w, order, lost), x) == OnQueues(w, x)
  {
    SweepAddsNoneHere(w, order, lost, "vali", x);
    SweepAddsNoneHere(w, order, lost, "dagur", x);
    SweepAddsNoneHere(w, order, lost, "lanayru", x);
  }

  /** What a step does to how often a task is queued, where no sweep would replay it. */
  lemma QueueChange(w: World, e: Event, v: World, x: string)
    requires Step(w, e, v) && !Enters(e, x) && !Replayable(w, x)
    ensures OnQueues(v, x) + (if HandsOut(w, e, x) then 1 else 0) == if e.Take? then 0 else OnQueues(w, x)
  {
    match e
    case Submit(id, service, action, payload, here) => EntersOther(w, id, Row(Some(service), action, payload, Pending), true, here, x);
    case Schedule(id, payload, recorded, here) => EntersOther(w, id, RunRow(payload), recorded, here, x);
    case Poll(service) => PollTakesOne(w, service, x);
    case Report(id, status, landed, here) => SameQueues(w, Reported(w, id, status, landed, here), x);
    case SweepReads(order, lost) => SweepAddsNone(w, order, lost, x);
    case SweepBlind =>
    case Take => TakeEmpties(w, x);
  }

  lemma SameQueues(w: World, v: World, x: string)
    requires v.mem.queues == w.mem.queues
    ensures OnQueues(v, x) == OnQueues(w, x)
  {
  }

  lemma TakeEmpties(w: World, x: string)
    ensures OnQueues(Acquire(w), x) == 0
  {
  }

  lemma {:induction false} StaysUnrecorded(ws: seq<World>, es: seq<Event>, k: nat, i: nat, x: string)
    requires History(ws, es) && PutUnrecorded(es, k, i, x)
    ensures Nameless(ws[i], x) && x in ws[i].issued
    ensures x !in ws[i].rows <==> StillUnrecorded(es, k, i, x)
    decreases i
  {
    assert Step(ws[i - 1], es[i - 1], ws[i]);
    if k < i - 1 {
      StaysUnrecorded(ws, es, k, i - 1, x);
      RowsOnlyGrow(ws[i - 1], es[i - 1], ws[i], x);
      assert StillUnrecorded(es, k, i, x) <==> StillUnrecorded(es, k, i - 1, x) && !LandsOn(es[i - 1], x);
    }
  }

  lemma EntersNameless(w: World, e: Event, v: World, x: string)
    requires Step(w, e, v) && Enters(e, x) && Nameless(v, x) && OnQueues(v, x) > 0 && Kept(w, x)
    ensures UnrecordedPut(e, x)
  {
  }

  lemma WasNameless(w: World, e: Event, v: World, x: string)
    requires Step(w, e, v) && Nameless(v, x)
    ensures Nameless(w, x)
  {
    RowsOnlyGrow(w, e, v, x);
  }

  lemma {:induction false} SomePutUnrecorded(ws: seq<World>, es: seq<Event>, i: nat, x: string) returns (k: nat)
    requires History(ws, es) && i < |ws| && OnQueues(ws[i], x) > 0 && Nameless(ws[i], x)
    ensures PutUnrecorded(es, k, i, x)
    decreases i
  {
    assert i > 0;
    assert Step(ws[i - 1], es[i - 1], ws[i]);
    if Enters(es[i - 1], x) {
      NothingIsQueuedTwice(ws, es, i - 1, x);
      EntersNameless(ws[i - 1], es[i - 1], ws[i], x);
      k := i - 1;
    } else {
      WasNameless(ws[i - 1], es[i - 1], ws[i], x);
      QueueChange(ws[i - 1], es[i - 1], ws[i], x);
      k := SomePutUnrecorded(ws, es, i - 1, x);
    }
  }

  lemma OneOfThree(w: World, service: string, x: string)
    requires service in Known && OnQueue(w, service, x) > 0
    ensures OnQueues(w, x) > 0
  {
  }

  /** Nothing is on a queue but what was put there in this tenure, on the queue it belongs on. It has no row
      exactly when it is a scheduled run that was queued here though its insert was lost, and no report on
      it has landed since; and no row names its queue exactly when it is such a run at all. */
  lemma NothingElseIsQueued(ws: seq<World>, es: seq<Event>, i: nat, service: string, x: string)
    requires History(ws, es) && i < |ws| && service in Known && OnQueue(ws[i], service, x) > 0
    ensures ws[i].puts[x] > 0 && service == Home(ws[i], x)
    ensures x !in ws[i].rows <==> exists k: nat :: StillUnrecorded(es, k, i, x)
    ensures Nameless(ws[i], x) <==> exists k: nat :: PutUnrecorded(es, k, i, x)
  {
    NothingIsQueuedTwice(ws, es, i, x);
    if Nameless(ws[i], x) {
      OneOfThree(ws[i], service, x);
      var k := SomePutUnrecorded(ws, es, i, x);
      StaysUnrecorded(ws, es, k, i, x);
    }
    forall k: nat | PutUnrecorded(es, k, i, x) ensures Nameless(ws[i], x) && (StillUnrecorded(es, k, i, x) ==> x !in ws[i].rows) {
      StaysUnrecorded(ws, es, k, i, x);
    }
  }

  // ---- when a task can still run, and when a scheduled run is lost --------------------------

  predicate Path(vs: seq<World>, fs: seq<Event>) {
    |vs| == |fs| + 1 && forall i {:trigger fs[i]} :: 0 <= i < |fs| ==> Step(vs[i], fs[i], vs[i + 1])
  }

  /** A run on from this world whose last step gives the task to a worker. */
  predicate LeadsOut(w: World, vs: seq<World>, fs: seq<Event>, x: string) {
    Path(vs, fs) && vs[0] == w && fs != [] && HandsOut(vs[|fs| - 1], fs[|fs| - 1], x)
  }

  ghost predicate CanRun(w: World, x: string) { exists vs, fs :: LeadsOut(w, vs, fs, x) }

  lemma LeadsOutEarlier(w: World, e: Event, v: World, vs: seq<World>, fs: seq<Event>, x: string)
    requires Step(w, e, v) && LeadsOut(v, vs, fs, x)
    ensures LeadsOut(w, [w] + vs, [e] + fs, x)
  {
    PathEarlier(w, e, vs, fs);
    assert ([w] + vs)[|fs|] == vs[|fs| - 1] && ([e] + fs)[|fs|] == fs[|fs| - 1];
  }

  lemma PathEarlier(w: World, e: Event, vs: seq<World>, fs: seq<Event>)
    requires Path(vs, fs) && Step(w, e, vs[0])
    ensures Path([w] + vs, [e] + fs)
  {
    var us, gs := [w] + vs, [e] + fs;
    forall i | 0 <= i < |gs| ensures Step(us[i], gs[i], us[i + 1]) {
      if i > 0 {
        assert us[i] == vs[i - 1] && gs[i] == fs[i - 1] && us[i + 1] == vs[i];
        assert Step(vs[i - 1], fs[i - 1], vs[i]);
      }
    }
  }

  /** Whatever is on a queue is reached by polling it. */
  lemma {:induction false} EntryIsReached(w: World, s: string, x: string)
    requires Shaped(w) && s in Known && OnQueue(w, s, x) > 0
    ensures CanRun(w, x)
    decreases |if s in w.mem.queues then w.mem.queues[s] else []|
  {
    var v := Polled(w, s);
    assert Step(w, Poll(s), v);
    if w.mem.queues[s][0].id == x {
      assert LeadsOut(w, [w, v], [Poll(s)], x);
    } else {
      PollTakes(w, s, s, x);
      EntryIsReached(v, s, x);
      CanRunEarlier(w, Poll(s), v, x);
    }
  }

  lemma {:induction false} InSomeOrder(ids: set<string>) returns (order: seq<string>)
    ensures NoRepeats(order) && forall id :: id in order <==> id in ids
  {
    if ids == {} {
      order := [];
    } else {
      var id :| id in ids;
      var rest := InSomeOrder(ids - {id});
      order := [id] + rest;
    }
  }

  lemma OpenOrder(w: World) returns (order: seq<string>)
    ensures Lists(w, order)
  {
    order := InSomeOrder(set id | id in w.rows && Open(w.rows[id]));
  }

  /** The first sweep of a tenure puts a pending row on its queue. */
  lemma SweptOntoQueue(w: World, order: seq<string>, x: string)
    requires Lists(w, order) && Replayable(w, x)
    ensures Step(Acquire(w), SweepReads(order, {}), Sweep(Acquire(w), order, {}))
    ensures Shaped(Sweep(Acquire(w), order, {})) && OnQueue(Sweep(Acquire(w), order, {}), w.rows[x].service.value, x) > 0
  {
    TakeoverRestoresQueues(w, order, {});
    var v := Sweep(Acquire(w), order, {});
    assert Recovered(w.rows[x], v.rows[x]) && CountsRow(v, w.rows[x].service.value, x);
    assert Lists(Acquire(w), order);
  }

  lemma CanRunEarlier(w: World, e: Event, v: World, x: string)
    requires Step(w, e, v) && CanRun(v, x)
    ensures CanRun(w, x)
  {
    var vs, fs :| LeadsOut(v, vs, fs, x);
    LeadsOutEarlier(w, e, v, vs, fs, x);
  }

  lemma RowIsReached(w: World, x: string)
    requires Shaped(w) && Replayable(w, x)
    ensures CanRun(w, x)
  {
    var order := OpenOrder(w);
    SweptOntoQueue(w, order, x);
    var v := Sweep(Acquire(w), order, {});
    EntryIsReached(v, w.rows[x].service.value, x);
    CanRunEarlier(Acquire(w), SweepReads(order, {}), v, x);
    CanRunEarlier(w, Take, Acquire(w), x);
  }

  predicate Waits(w: World, x: string) { OnQueues(w, x) > 0 || Replayable(w, x) }

  lemma NeverWaitsAgain(w: World, e: Event, v: World, x: string)
    requires Step(w, e, v) && !Fresh(w, x) && !Waits(w, x)
    ensures !Fresh(v, x) && !Waits(v, x) && !HandsOut(w, e, x)
  {
    RowsOnlyGrow(w, e, v, x);
    QueueChange(w, e, v, x);
    NotPendingAgain(w, e, v, x);
  }

  lemma NotPendingAgain(w: World, e: Event, v: World, x: string)
    requires Step(w, e, v) && !Fresh(w, x) && !Replayable(w, x)
    ensures !Replayable(v, x)
  {
    if e.SweepReads? {
      SweepShape(w, e.order, e.lost);
      SweepOutcome(w, e.order, e.lost, x);
    }
  }

  lemma {:induction false} NeverReached(vs: seq<World>, fs: seq<Event>, i: nat, x: string)
    requires Path(vs, fs) && i < |fs| && !Fresh(vs[0], x) && !Waits(vs[0], x)
    ensures !Fresh(vs[i + 1], x) && !Waits(vs[i + 1], x) && !HandsOut(vs[i], fs[i], x)
  {
    assert Step(vs[i], fs[i], vs[i + 1]);
    if i > 0 { NeverReached(vs, fs, i - 1, x); }
    NeverWaitsAgain(vs[i], fs[i], vs[i + 1], x);
  }

  /** A task that has been entered can still be given to a worker, in some way the cluster might go on,
      exactly when it is on a queue or its row reads pending for a service that has one. */
  lemma CanRunExactly(w: World, x: string)
    requires Shaped(w) && !Fresh(w, x)
    ensures CanRun(w, x) <==> Waits(w, x)
  {
    if Replayable(w, x) { RowIsReached(w, x); }
    else if OnQueues(w, x) > 0 { QueuedIsReached(w, x); }
    else { CannotRun(w, x); }
  }

  lemma CannotRun(w: World, x: string)
    requires !Fresh(w, x) && !Waits(w, x)
    ensures !CanRun(w, x)
  {
    forall vs, fs ensures !LeadsOut(w, vs, fs, x) { LeadsNowhere(w, vs, fs, x); }
  }

  lemma LeadsNowhere(w: World, vs: seq<World>, fs: seq<Event>, x: string)
    requires !Fresh(w, x) && !Waits(w, x)
    ensures !LeadsOut(w, vs, fs, x)
  {
    if Path(vs, fs) && vs[0] == w && fs != [] { NeverReached(vs, fs, |fs| - 1, x); }
  }

  lemma QueuedIsReached(w: World, x: string)
    requires Shaped(w) && OnQueues(w, x) > 0
    ensures CanRun(w, x)
  {
    if OnQueue(w, "vali", x) > 0 { EntryIsReached(w, "vali", x); }
    else if OnQueue(w, "dagur", x) > 0 { EntryIsReached(w, "dagur", x); }
    else { EntryIsReached(w, "lanayru", x); }
  }

  /** No worker will ever be given the task and no row says that it was to be. */
  ghost predicate Vanished(w: World, x: string) { !CanRun(w, x) && Nameless(w, x) }

  predicate HandedBetween(ws: seq<World>, es: seq<Event>, k: nat, i: nat, x: string)
    requires i < |ws| == |es| + 1
  {
    exists m {:trigger es[m]} :: k < m < i && HandsOut(ws[m], es[m], x)
  }

  predicate TakenBetween(es: seq<Event>, k: nat, i: nat)
    requires i <= |es|
  {
    exists m {:trigger es[m]} :: k < m < i && es[m].Take?
  }

  predicate Schedules(e: Event, x: string) { e.Schedule? && e.id == x }

  /** A scheduled run will never be given to a worker from here on, with nothing recorded of what it was,
      exactly when its insert was lost and either this was not the dispatching node or it has left the
      queue; so it is lost for good, its tick claimed and never run, exactly when its insert was lost and
      either this was not the dispatching node or the candidacy was taken before a worker asked. */
  lemma ScheduledRunIsLost(ws: seq<World>, es: seq<Event>, k: nat, i: nat, x: string)
    requires History(ws, es) && k < i <= |es| && Schedules(es[k], x)
    ensures Vanished(ws[i], x)
       <==> !es[k].recorded && (!es[k].here || HandedBetween(ws, es, k, i, x) || TakenBetween(es, k, i))
    ensures Vanished(ws[i], x) && !HandedBetween(ws, es, k, i, x)
       <==> !es[k].recorded && !HandedBetween(ws, es, k, i, x) && (!es[k].here || TakenBetween(es, k, i))
  {
    NothingIsQueuedTwice(ws, es, i, x);
    if es[k].recorded {
      RecordedStays(ws, es, k, i, x);
    } else {
      UnrecordedRun(ws, es, k, i, x);
      CanRunExactly(ws[i], x);
    }
  }

  lemma {:induction false} RecordedStays(ws: seq<World>, es: seq<Event>, k: nat, i: nat, x: string)
    requires History(ws, es) && k < i <= |es| && Schedules(es[k], x) && es[k].recorded
    ensures x in ws[i].rows && ws[i].rows[x].service == Some(SchedulesOn)
    decreases i
  {
    assert Step(ws[i - 1], es[i - 1], ws[i]);
    if k < i - 1 {
      RecordedStays(ws, es, k, i - 1, x);
      RowsOnlyGrow(ws[i - 1], es[i - 1], ws[i], x);
    }
  }

  lemma EntersUnrecorded(w: World, e: Event, v: World, x: string)
    requires Step(w, e, v) && Schedules(e, x) && !e.recorded && Kept(w, x)
    ensures !Fresh(v, x) && Nameless(v, x) && OnQueues(v, x) == if e.here then 1 else 0
  {
    assert w.puts[x] == 0;
    EnterKeeps(w, x, RunRow(e.payload), false, e.here, x);
    assert v.handed[x] == 0 && v.puts[x] == if e.here then 1 else 0;
  }

  /** An unrecorded run is on its queue until it is handed out or the candidacy is taken, and on none
      after; nothing else about it changes, but that reports may land. */
  lemma {:induction false} UnrecordedRun(ws: seq<World>, es: seq<Event>, k: nat, i: nat, x: string)
    requires History(ws, es) && k < i <= |es| && Schedules(es[k], x) && !es[k].recorded
    ensures !Fresh(ws[i], x) && Nameless(ws[i], x)
    ensures OnQueues(ws[i], x) == if es[k].here && !HandedBetween(ws, es, k, i, x) && !TakenBetween(es, k, i) then 1 else 0
    decreases i
  {
    var w, e, v := ws[i - 1], es[i - 1], ws[i];
    assert Step(w, e, v);
    if k == i - 1 {
      NothingIsQueuedTwice(ws, es, k, x);
      EntersUnrecorded(w, e, v, x);
    } else {
      UnrecordedRun(ws, es, k, i - 1, x);
      RowsOnlyGrow(w, e, v, x);
      QueueChange(w, e, v, x);
      BetweenGrows(ws, es, k, i, x);
    }
  }

  lemma BetweenGrows(ws: seq<World>, es: seq<Event>, k: nat, i: nat, x: string)
    requires k + 1 < i < |ws| == |es| + 1
    ensures HandedBetween(ws, es, k, i, x) <==> HandedBetween(ws, es, k, i - 1, x) || HandsOut(ws[i - 1], es[i - 1], x)
    ensures TakenBetween(es, k, i) <==> TakenBetween(es, k, i - 1) || es[i - 1].Take?
  {
    assert HandsOut(ws[i - 1], es[i - 1], x) ==> HandedBetween(ws, es, k, i, x);
    assert es[i - 1].Take? ==> TakenBetween(es, k, i);
  }

  /** The next sweep puts a task on a queue again exactly if its verdict was lost where it is remembered,
      while it read pending, or if it was going to anyway and the verdict did not land. Lost anywhere else,
      the task stays remembered and waits for the next tenure. */
  lemma LostVerdictRunsTwice(w: World, id: string, status: Status, landed: bool, here: bool, order: seq<string>, lost: set<string>)
    requires Shaped(w) && Kept(w, id) && w.puts[id] == 1 && Terminal(status)
    requires Lists(Reported(w, id, status, landed, here), order)
    ensures Sweep(Reported(w, id, status, landed, here), order, lost).puts[id] == 2
       <==> Lapse(w, id, status, landed, here) || (Replays(w, id) && !landed)
  {
    var v := Reported(w, id, status, landed, here);
    SweepShape(v, order, lost);
    SweepOutcome(v, order, lost, id);
  }

  // ---- runs that reach the exceptions -------------------------------------------------------

  lemma Extend(ws: seq<World>, es: seq<Event>, e: Event)
    requires History(ws, es) && Shaped(ws[|es|]) && Enabled(ws[|es|], e)
    ensures History(ws + [Next(ws[|es|], e)], es + [e])
  {
    var vs, fs := ws + [Next(ws[|es|], e)], es + [e];
    forall i | 0 <= i < |fs| ensures Step(vs[i], fs[i], vs[i + 1]) {
      if i < |es| {
        assert Step(ws[i], es[i], ws[i + 1]);
        assert vs[i] == ws[i] && vs[i + 1] == ws[i + 1] && fs[i] == es[i];
      }
    }
  }

  /** A tenure over an empty table in which one task was submitted here and polled. */
  function HandedOut(id: string, service: string, action: string, payload: string): World
    requires service in Known
  {
    var row := Row(Some(service), action, payload, Pending);
    World(map[id := row], Memory(EmptyQueues(), {id}, true), multiset{id}, multiset{id}, multiset{}, {id})
  }

  /** An empty table and a dispatcher that has just taken the candidacy. */
  function Nothing(): World { Acquire(World(map[], Memory(map[], {}, false), multiset{}, multiset{}, multiset{}, {})) }

  lemma PolledIsReached(id: string, service: string, action: string, payload: string) returns (ws: seq<World>, es: seq<Event>)
    requires service in Known
    ensures History(ws, es) && |es| == 3 && es[0].SweepBlind? && ws[3] == HandedOut(id, service, action, payload)
  {
    var s0 := Nothing();
    ws, es := [s0], [];
    Extend(ws, es, SweepBlind);
    ws, es := ws + [s0], es + [SweepBlind];
    var submit := Submit(id, service, action, payload, true);
    Extend(ws, es, submit);
    var s2 := Next(s0, submit);
    ws, es := ws + [s2], es + [submit];
    var entry := EntryOf(id, Row(Some(service), action, payload, Pending));
    assert s2.mem.queues[service] == [entry];
    Extend(ws, es, Poll(service));
    var s3 := Next(s2, Poll(service));
    assert s3.mem.queues == EmptyQueues();
    ws, es := ws + [s3], es + [Poll(service)];
  }

  /** A task queued twice in one tenure: submitted, polled, its verdict lost, and swept. */
  lemma VerdictLostThenQueuedAgain(id: string, service: string, action: string, payload: string) returns (ws: seq<World>, es: seq<Event>)
    requires service in Known
    ensures History(ws, es) && |es| == 5 && es[3] == Report(id, Completed, false, true) && es[4] == SweepReads([id], {})
    ensures ws[5].puts[id] == 2
  {
    ws, es := PolledIsReached(id, service, action, payload);
    var s3 := HandedOut(id, service, action, payload);
    Extend(ws, es, Report(id, Completed, false, true));
    var s4 := Next(s3, Report(id, Completed, false, true));
    ws, es := ws + [s4], es + [Report(id, Completed, false, true)];
    assert s4.rows == map[id := Row(Some(service), action, payload, Pending)];
    assert Lists(s4, [id]);
    Extend(ws, es, SweepReads([id], {}));
    NothingIsQueuedTwice(ws, es, 3, id);
    LostVerdictRunsTwice(s3, id, Completed, false, true, [id], {});
    ws, es := ws + [Next(s4, SweepReads([id], {}))], es + [SweepReads([id], {})];
  }

  /** A task failed under the worker that holds it: handed out and started in this very tenure, before the
      first read of the table went through. */
  lemma FirstSweepFailsOwnWorker(id: string, service: string, action: string, payload: string) returns (ws: seq<World>, es: seq<Event>)
    requires service in Known
    ensures History(ws, es) && |es| == 5 && es[3] == Report(id, Processing, true, true) && es[4] == SweepReads([id], {})
    ensures ws[4].handed[id] == 1 && id in ws[5].rows && ws[5].rows[id].status == Failed
  {
    ws, es := PolledIsReached(id, service, action, payload);
    var s3 := HandedOut(id, service, action, payload);
    Extend(ws, es, Report(id, Processing, true, true));
    var s4 := Next(s3, Report(id, Processing, true, true));
    ws, es := ws + [s4], es + [Report(id, Processing, true, true)];
    assert s4.rows == map[id := Row(Some(service), action, payload, Processing)];
    assert Lists(s4, [id]);
    Extend(ws, es, SweepReads([id], {}));
    ws, es := ws + [Next(s4, SweepReads([id], {}))], es + [SweepReads([id], {})];
    SweepsLeaveWorkersAlone(ws, es, 4, id);
  }

  /** A scheduled run lost where it was claimed: not recorded, and this node has no queues to put it on. */
  lemma LostElsewhere(id: string, payload: string) returns (ws: seq<World>, es: seq<Event>)
    ensures History(ws, es) && es == [Schedule(id, payload, false, false)] && Vanished(ws[1], id)
  {
    var e := Schedule(id, payload, false, false);
    ws, es := [Nothing()], [];
    Extend(ws, es, e);
    ws, es := ws + [Next(Nothing(), e)], es + [e];
    ScheduledRunIsLost(ws, es, 0, 1, id);
  }

  /** A scheduled run lost where it was queued: not recorded, and the candidacy is lost and taken again
      before a worker asks. */
  lemma LostInTheQueue(id: string, payload: string) returns (ws: seq<World>, es: seq<Event>)
    ensures History(ws, es) && es == [Schedule(id, payload, false, true), Take]
    ensures OnQueue(ws[1], SchedulesOn, id) == 1 && id !in ws[1].rows && Vanished(ws[2], id)
  {
    var e := Schedule(id, payload, false, true);
    ws, es := [Nothing()], [];
    Extend(ws, es, e);
    var s1 := Next(Nothing(), e);
    ws, es := ws + [s1], es + [e];
    UnrecordedRun(ws, es, 0, 1, id);
    NothingIsQueuedTwice(ws, es, 1, id);
    Extend(ws, es, Take);
    ws, es := ws + [Acquire(s1)], es + [Take];
    assert es[1].Take?;
    ScheduledRunIsLost(ws, es, 0, 2, id);
  }

  /** The sweep fails the row, or means to. */
  predicate ToFail(w: World, id: string) {
    id in w.rows && if w.rows[id].status == Processing then w.mem.justAcquired else w.rows[id].status == Pending && !HasQueue(w.rows[id])
  }

  /** How many rows a sweep puts on queues, and how many it fails. */
  function Requeues(w: World, order: seq<string>, lost: set<string>): nat
    requires Shaped(w) && forall id <- order :: id in w.rows
    decreases |order|
  {
    if order == [] then 0
    else (if Replays(w, order[0]) then 1 else 0) + Requeues(SweepRow(w, order[0], lost), order[1..], lost)
  }

  function Failures(w: World, order: seq<string>, lost: set<string>): nat
    requires Shaped(w) && forall id <- order :: id in w.rows
    decreases |order|
  {
    if order == [] then 0
    else (if ToFail(w, order[0]) then 1 else 0) + Failures(SweepRow(w, order[0], lost), order[1..], lost)
  }

  function ReplaySet(w: World, order: seq<string>): set<string> { set id | id in order && Replays(w, id) }

  function FailSet(w: World, order: seq<string>): set<string> { set id | id in order && ToFail(w, id) }

  lemma SetsFollow(w: World, order: seq<string>, lost: set<string>)
    requires Shaped(w) && order != [] && OpenRows(w, order)
    ensures ReplaySet(SweepRow(w, order[0], lost), order[1..]) == ReplaySet(w, order) - {order[0]}
    ensures FailSet(SweepRow(w, order[0], lost), order[1..]) == FailSet(w, order) - {order[0]}
  {
    var v, rest := SweepRow(w, order[0], lost), order[1..];
    OpenRowsRest(w, order, lost);
    SweepRowShape(w, order[0], lost);
    forall id ensures id in ReplaySet(v, rest) <==> id in ReplaySet(w, order) - {order[0]} {
      if id != order[0] { SweepRowOthers(w, order[0], lost, id); }
    }
    forall id ensures id in FailSet(v, rest) <==> id in FailSet(w, order) - {order[0]} {
      if id != order[0] { SweepRowOthers(w, order[0], lost, id); }
    }
  }

  /** They are the rows it was to put there and the rows it was to fail when it began. */
  lemma {:induction false} SweepCounts(w: World, order: seq<string>, lost: set<string>)
    requires Shaped(w) && OpenRows(w, order)
    ensures Requeues(w, order, lost) == |ReplaySet(w, order)| && Failures(w, order, lost) == |FailSet(w, order)|
    decreases |order|
  {
    if order != [] {
      OpenRowsRest(w, order, lost);
      SweepCounts(SweepRow(w, order[0], lost), order[1..], lost);
      SetsFollow(w, order, lost);
      CountFirst(ReplaySet(w, order), order[0]);
      CountFirst(FailSet(w, order), order[0]);
      assert order[0] in order;
    }
  }

  lemma CountFirst(all: set<string>, first: string)
    ensures |all| == |all - {first}| + if first in all then 1 else 0
  {
    if first !in all { assert all - {first} == all; }
  }

  function EntryCount(queues: map<string, seq<Entry>>): nat
    requires queues.Keys == Known
  {
    |queues["vali"]| + |queues["dagur"]| + |queues["lanayru"]|
  }

  // ---- the dispatching process ------------------------------------------------------------

  const SweepSeconds := 15.0

  /** What the loop remembers between turns, and what a turn finds. */
  datatype LoopClock = LoopClock(was: Option<bool>, last: real)

  datatype Tick = Tick(leading: bool, now: real)

  predicate TakesOver(c: LoopClock, t: Tick) { t.leading && c.was != Some(true) }

  /** A sweep is due on this turn: a takeover forgets when the last one was. */
  predicate Due(c: LoopClock, t: Tick) { t.leading && t.now - (if TakesOver(c, t) then 0.0 else c.last) >= SweepSeconds }

  function Ticked(c: LoopClock, t: Tick): LoopClock {
    LoopClock(Some(t.leading), if Due(c, t) then t.now else if TakesOver(c, t) then 0.0 else c.last)
  }

  function ClockAt(c: LoopClock, ts: seq<Tick>, n: nat): LoopClock
    requires n <= |ts|
  {
    if n == 0 then c else Ticked(ClockAt(c, ts, n - 1), ts[n - 1])
  }

  predicate SweepsAt(c: LoopClock, ts: seq<Tick>, i: nat)
    requires i < |ts|
  {
    Due(ClockAt(c, ts, i), ts[i])
  }

  /** A turn that takes over sweeps at once, on any clock that has run for a sweep's time. */
  lemma TakeoverSweepsAtOnce(c: LoopClock, t: Tick)
    requires t.leading && c.was != Some(true) && t.now >= 15.0
    ensures Due(c, t)
  {
  }

  /** After a sweep, while this node goes on leading, the clock remembers a sweep no earlier. */
  lemma {:induction false} RemembersSweep(c: LoopClock, ts: seq<Tick>, i: nat, j: nat)
    requires i < j <= |ts| && SweepsAt(c, ts, i) && forall k :: i <= k < j ==> ts[k].leading
    ensures ClockAt(c, ts, j).was == Some(true) && ClockAt(c, ts, j).last >= ts[i].now
    decreases j
  {
    if i < j - 1 { RemembersSweep(c, ts, i, j - 1); }
  }

  /** Over any turns of the loop: two sweeps of one tenure are at least the sweep's time apart, and a turn
      of that tenure sweeps exactly when the last sweep is that long ago. */
  lemma SweepsAreSpaced(c: LoopClock, ts: seq<Tick>, i: nat, j: nat)
    requires i < j < |ts| && SweepsAt(c, ts, i) && forall k :: i <= k <= j ==> ts[k].leading
    ensures SweepsAt(c, ts, j) ==> ts[j].now - ts[i].now >= 15.0
    ensures (forall k :: i < k < j ==> !SweepsAt(c, ts, k)) ==> (SweepsAt(c, ts, j) <==> ts[j].now - ts[i].now >= 15.0)
  {
    RemembersSweep(c, ts, i, j);
    if forall k :: i < k < j ==> !SweepsAt(c, ts, k) { QuietSince(c, ts, i, j); }
  }

  lemma {:induction false} QuietSince(c: LoopClock, ts: seq<Tick>, i: nat, j: nat)
    requires i < j <= |ts| && SweepsAt(c, ts, i) && (forall k :: i <= k < j ==> ts[k].leading)
    requires forall k :: i < k < j ==> !SweepsAt(c, ts, k)
    ensures ClockAt(c, ts, j) == LoopClock(Some(true), ts[i].now)
    decreases j
  {
    if i < j - 1 {
      QuietSince(c, ts, i, j - 1);
      assert !SweepsAt(c, ts, j - 1);
    }
  }

  class Catalyst {
    var rows: map<string, Row>
    var queues: map<string, seq<Entry>>
    var queued: set<string>
    var justAcquired: bool
    var wasDispatcher: Option<bool>
    var lastSweep: real
    ghost var puts: multiset<string>
    ghost var handed: multiset<string>
    ghost var lapses: multiset<string>
    ghost var issued: set<string>

    ghost function Clock(): LoopClock
      reads this
    {
      LoopClock(wasDispatcher, lastSweep)
    }

    ghost function View(): World
      reads this
    {
      World(rows, Memory(queues, queued, justAcquired), puts, handed, lapses, issued)
    }

    constructor (recorded: map<string, Row>)
      ensures rows == recorded && Shaped(View()) && queued == {} && !justAcquired
      ensures wasDispatcher == None && lastSweep == 0.0
    {
      rows := recorded;
      queues := EmptyQueues();
      queued, justAcquired, wasDispatcher, lastSweep := {}, false, None, 0.0;
      puts, handed, lapses, issued := multiset{}, multiset{}, multiset{}, {};
    }

    /** Nothing happens for a service without a queue. */
    method SubmitToMemory(service: string, e: Entry)
      requires Shaped(View())
      modifies this`queues, this`queued, this`puts
      ensures Shaped(View())
      ensures View() == if service in Known then Put(old(View()), service, e) else old(View())
    {
      if service in queues {
        queues := queues[service := queues[service] + [e]];
        queued := queued + {e.id};
        puts := puts + multiset{e.id};
      }
    }

    /** The handler behind a submission: refuses a service without a queue, and records before it queues.
        An insert that is not answered may have landed; then the task is refused, and recorded. */
    method Submit(id: string, service: string, action: string, payload: string, lands: bool, answered: bool, holdsDispatch: bool)
      returns (accepted: bool)
      requires Shaped(View()) && Fresh(View(), id)
      modifies this`rows, this`queues, this`queued, this`puts, this`issued
      ensures accepted == (service in Known && lands && answered)
      ensures service in Known && lands ==>
        View() == Next(old(View()), Event.Submit(id, service, action, payload, answered && holdsDispatch))
      ensures service !in Known || !lands ==> View() == old(View())
    {
      if service !in queues || !lands { return false; }
      rows := rows[id := Row(Some(service), action, payload, Pending)];
      issued := issued + {id};
      if !answered { return false; }
      if holdsDispatch { SubmitToMemory(service, Entry(id, action, payload)); }
      return true;
    }

    /** A run whose tick the scheduler has claimed. Whether its insert landed is not looked at. */
    method QueueScheduledRun(id: string, payload: string, lands: bool, holdsDispatch: bool) returns (queuedHere: bool)
      requires Shaped(View()) && Fresh(View(), id)
      modifies this`rows, this`queues, this`queued, this`puts, this`issued
      ensures queuedHere == holdsDispatch
      ensures View() == Next(old(View()), Event.Schedule(id, payload, lands, holdsDispatch))
    {
      issued := issued + {id};
      if lands { rows := rows[id := Row(Some("dagur"), "execute", payload, Pending)]; }
      if holdsDispatch { SubmitToMemory("dagur", Entry(id, "execute", payload)); }
      return holdsDispatch;
    }

    /** A worker asks for work: the next entry of its queue, nothing, or why this node cannot say. */
    method Poll(service: string, holdsDispatch: bool) returns (r: Result<Option<Entry>, string>)
      requires Shaped(View())
      modifies this`queues, this`handed
      ensures r.Err? <==> service !in Known || !holdsDispatch
      ensures r.Ok? && r.value.Some? ==> old(queues)[service] != [] && r.value.value == old(queues)[service][0]
      ensures r.Ok? && r.value.Some? ==> View() == Next(old(View()), Event.Poll(service))
      ensures r.Ok? && r.value.None? ==> old(queues)[service] == []
      ensures r.Err? || r.value.None? ==> View() == old(View())
    {
      if service !in queues { return Err("unknown service queue"); }
      if !holdsDispatch { return Err("this node does not hold the dispatch candidacy"); }
      if queues[service] == [] { return Ok(None); }
      var e := queues[service][0];
      queues := queues[service := queues[service][1..]];
      handed := handed + multiset{e.id};
      return Ok(Some(e));
    }

    /** A worker's report, to this Catalyst or to another, which forgets nothing that this one remembers.
        Whether the write landed is not looked at. */
    method Report(id: string, status: Status, landed: bool, here: bool)
      requires Shaped(View()) && status != Pending
      modifies this`rows, this`queued, this`lapses
      ensures View() == Next(old(View()), Event.Report(id, status, landed, here))
    {
      if Lapse(View(), id, status, landed, here) { lapses := lapses + multiset{id}; }
      if landed {
        rows := rows[id := if id in rows then rows[id].(status := status) else Row(None, "", "", status)];
      }
      if here && (status == Completed || status == Failed) { queued := queued - {id}; }
    }

    /** Empties every queue and says how many entries were dropped. */
    method DrainQueues() returns (dropped: nat)
      requires queues.Keys == Known
      modifies this`queues
      ensures queues == EmptyQueues() && dropped == EntryCount(old(queues))
    {
      var a := DrainQueue("vali");
      var b := DrainQueue("dagur");
      var c := DrainQueue("lanayru");
      dropped := a + b + c;
      assert |"vali"| == 4 && |"dagur"| == 5 && |"lanayru"| == 7;
    }

    method DrainQueue(service: string) returns (dropped: nat)
      requires service in queues
      modifies this`queues
      ensures queues == old(queues)[service := []] && dropped == |old(queues)[service]|
    {
      dropped := 0;
      while queues[service] != []
        invariant queues.Keys == old(queues).Keys && forall s :: s in queues && s != service ==> queues[s] == old(queues)[s]
        invariant |queues[service]| + dropped == |old(queues)[service]|
        decreases |queues[service]|
      {
        queues := queues[service := queues[service][1..]];
        dropped := dropped + 1;
      }
    }

    /** The sweep's body: one open row. */
    method RecoverOne(id: string, lost: set<string>) returns (requeued: nat, failed: nat)
      requires Shaped(View()) && id in rows && Open(rows[id])
      modifies this`rows, this`queues, this`queued, this`puts
      ensures View() == SweepRow(old(View()), id, lost)
      ensures requeued == if Replays(old(View()), id) then 1 else 0
      ensures failed == if ToFail(old(View()), id) then 1 else 0
    {
      requeued, failed := 0, 0;
      var row := rows[id];
      if row.status == Processing {
        if justAcquired {
          failed := 1;
          if id !in lost { rows := rows[id := row.(status := Failed)]; }
        }
      } else if row.service.None? || row.service.value !in queues {
        failed := 1;
        if id !in lost { rows := rows[id := row.(status := Failed)]; }
      } else if id !in queued {
        SubmitToMemory(row.service.value, EntryOf(id, row));
        requeued := 1;
      }
    }

    /** The sweep, over the open rows as the table gave them. */
    method RecoverOpenTasks(order: seq<string>, lost: set<string>) returns (requeued: nat, failed: nat)
      requires Shaped(View()) && OpenRows(View(), order)
      modifies this`rows, this`queues, this`queued, this`puts
      ensures Shaped(View()) && View() == SweepRows(old(View()), order, lost)
      ensures requeued == Requeues(old(View()), order, lost) && failed == Failures(old(View()), order, lost)
    {
      requeued, failed := 0, 0;
      var i := 0;
      assert order[0..] == order;
      while i < |order|
        invariant i <= |order| && Shaped(View()) && OpenRows(View(), order[i..])
        invariant SweepRows(View(), order[i..], lost) == SweepRows(old(View()), order, lost)
        invariant requeued + Requeues(View(), order[i..], lost) == Requeues(old(View()), order, lost)
        invariant failed + Failures(View(), order[i..], lost) == Failures(old(View()), order, lost)
      {
        assert order[i..][0] == order[i] && order[i..][1..] == order[i + 1..];
        OpenRowsRest(View(), order[i..], lost);
        var r, f := RecoverOne(order[i], lost);
        requeued, failed, i := requeued + r, failed + f, i + 1;
      }
    }

    /** What the loop does when it finds that it now holds the candidacy. */
    method TakeOver()
      requires Shaped(View())
      modifies this
      ensures View() == Acquire(old(View())) && lastSweep == 0.0 && wasDispatcher == Some(true)
    {
      assert queues.Keys == Known;
      wasDispatcher, lastSweep, justAcquired, queued := Some(true), 0.0, true, {};
      var dropped := DrainQueues();
      puts, handed, lapses := multiset{}, multiset{}, multiset{};
    }

    /** One turn of the dispatch loop. `read` is what the table answered, if it did. */
    method Turn(leading: bool, now: real, read: Option<seq<string>>, lost: set<string>)
      requires Shaped(View()) && (read.Some? ==> Lists(View(), read.value))
      modifies this
      // Taking the candidacy clears and drains first; then, if a sweep is due and the table answers,
      // the sweep runs and the duty is done; a read that fails changes nothing.
      ensures
        var w := if TakesOver(old(Clock()), Tick(leading, now)) then Acquire(old(View())) else old(View());
        View() == if Due(old(Clock()), Tick(leading, now)) && read.Some? then Sweep(w, read.value, lost) else w
      ensures Clock() == Ticked(old(Clock()), Tick(leading, now))
    {
      if leading && wasDispatcher != Some(true) {
        TakeOver();
      }
      wasDispatcher := Some(leading);
      if !leading { return; }
      if now - lastSweep >= SweepSeconds {
        lastSweep := now;
        if read.Some? {
          var requeued, failed := RecoverOpenTasks(read.value, lost);
          justAcquired := false;
        }
      }
    }
  }
}
