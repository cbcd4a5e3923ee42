/** The ZooKeeper client's watch registry: one-shot watches at the server, re-armed after each
    firing and after each reconnect. */
module ZkWatches {

  datatype Kind = Data | Exists | Children

  /** The server keeps one table of watches per family; data and exists watches share a table. */
  datatype Family = OfNode | OfChildren

  function FamilyOf(k: Kind): Family { if k == Children then OfChildren else OfNode }

  datatype EventType = NodeCreated | NodeDeleted | NodeDataChanged | NodeChildrenChanged

  function WatchKindsFor(e: EventType): seq<Kind> {
    if e == NodeChildrenChanged then [Children] else [Data, Exists]
  }

  /** A registration. `registered`: it is in the client's registry; `active` until cancelled. */
  datatype Watch = Watch(kind: Kind, path: string, active: bool, registered: bool)

  /** An arming read on its way to the server. `initial`: the one that registered the watch;
      `fallback`: a data watch's read that found no node and asks for existence instead. */
  datatype Read = Read(w: nat, initial: bool, fallback: bool, session: nat)

  /** What the server holds about one path for one family: nothing, or its latest state, by number. */
  datatype Value = Absent | Present(stamp: nat)

  /** A read the server has answered, with the state it was served against. */
  datatype Answer = Answer(id: nat, read: Read, state: Value)

  /** What its caller is handed: of a fallback read "no node", whatever it found. */
  function Said(a: Answer): Value { if a.read.fallback then Absent else a.state }

  /** Work on the dispatcher or a re-arm thread: kinds it has yet to look up under `path`, and
      watches it has yet to re-arm. A queued event is a job with nothing looked up. */
  datatype Job = Job(path: string, kinds: seq<Kind>, watches: seq<nat>)

  /** `inFlight` have not reached the server; `served` have, and their replies are on the way. `told`:
      the callback has been told of an error since the watch was last armed in this session. */
  datatype World = World(
    up: bool, connecting: bool, session: nat, ids: nat,
    nodes: set<string>, armed: set<(Family, string)>,
    watches: seq<Watch>, jobs: map<nat, Job>, inFlight: map<nat, Read>, served: map<nat, Answer>, told: set<nat>, log: Log)

  /** How often each thing has changed; and of each watch, the read of it served last and the answer its
      caller was handed last. */
  datatype Log = Log(stamps: map<(Family, string), nat>, answered: map<nat, Answer>, given: map<nat, Answer>)

  function Stamp(log: Log, key: (Family, string)): nat { if key in log.stamps then log.stamps[key] else 0 }

  function Stamped(log: Log, keys: set<(Family, string)>): Log {
    log.(stamps := map k | k in log.stamps.Keys + keys :: Stamp(log, k) + if k in keys then 1 else 0)
  }

  function Noted(log: Log, a: Answer): Log { log.(answered := log.answered[a.read.w := a]) }

  function Handed(log: Log, a: Answer): Log { log.(given := log.given[a.read.w := a]) }

  function KeyOf(w: Watch): (Family, string) { (FamilyOf(w.kind), w.path) }

  /** What a watch would see, were it read now. */
  function Current(s: World, w: Watch): Value { if w.path in s.nodes then Present(Stamp(s.log, KeyOf(w))) else Absent }

  datatype Event =
    | Register(kind: Kind, path: string)
    | Deactivate(w: nat)              // cancel stops the callback first,
    | Unregister(w: nat)              // then leaves the registry
    | GetMissed(id: nat)              // a data read found no node: no watch is left behind
    | Serve(id: nat)                  // the server answers the read and arms the watch
    | Reply(id: nat)
    | ReadFails(id: nat)
    | ReplyLost(id: nat)
    | Change(path: string, type_: EventType)
    | Stray(path: string, type_: EventType) // an event left over from an earlier connection
    | TakeKind(job: nat)              // look up who is registered for the next kind
    | TakeWatch(job: nat)             // re-arm the next watch, unless it was cancelled
    | EndJob(job: nat)
    | Disconnect
    | NotifyDisconnect
    | GoLive(survivors: set<nat>)     // a new session; of the old work, the survivors go on
    | RearmAll                        // connect hands every registration to a re-arm thread

  predicate CanServe(s: World, r: Read) {
    && s.up && r.session == s.session && r.w < |s.watches|
    && (s.watches[r.w].kind == Exists || (s.watches[r.w].kind == Data && r.fallback) || s.watches[r.w].path in s.nodes)
  }

  predicate CanMiss(s: World, r: Read) {
    && s.up && r.session == s.session && r.w < |s.watches|
    && s.watches[r.w].kind == Data && !r.fallback && s.watches[r.w].path !in s.nodes
  }

  predicate Enabled(s: World, e: Event) {
    match e
    case Register(_, _) => true
    case Deactivate(w) => w < |s.watches|
    case Unregister(w) => w < |s.watches| && !s.watches[w].active
    case GetMissed(id) => id in s.inFlight && CanMiss(s, s.inFlight[id])
    case Serve(id) => id in s.inFlight && CanServe(s, s.inFlight[id])
    case Reply(id) => id in s.served
    case ReadFails(id) => id in s.inFlight
    case ReplyLost(id) => id in s.served
    case Change(p, t) => (t == NodeCreated) == (p !in s.nodes)
    case Stray(_, _) => true
    case TakeKind(j) => j in s.jobs && s.jobs[j].watches == [] && s.jobs[j].kinds != []
    case TakeWatch(j) => j in s.jobs && s.jobs[j].watches != []
    case EndJob(j) => j in s.jobs && s.jobs[j].watches == [] && s.jobs[j].kinds == []
    case Disconnect => true
    case NotifyDisconnect => true
    case GoLive(_) => !s.up
    case RearmAll => s.connecting
  }

  predicate Registered(s: World, w: nat) { w < |s.watches| && s.watches[w].registered }

  /** Everything registered for `kind` under `path`, among the first `n`, in order. */
  function Lookup(watches: seq<Watch>, kind: Kind, path: string, n: nat): seq<nat>
    requires n <= |watches|
  {
    if n == 0 then []
    else if IsFor(watches[n - 1], kind, path) then Lookup(watches, kind, path, n - 1) + [n - 1]
    else Lookup(watches, kind, path, n - 1)
  }

  predicate IsFor(w: Watch, kind: Kind, path: string) { w.registered && w.kind == kind && w.path == path }

  function AllRegistered(watches: seq<Watch>, n: nat): seq<nat>
    requires n <= |watches|
  {
    if n == 0 then []
    else AllRegistered(watches, n - 1) + if watches[n - 1].registered then [n - 1] else []
  }

  function AddJob(s: World, job: Job): World { s.(jobs := s.jobs[s.ids := job], ids := s.ids + 1) }

  function AddRead(s: World, w: nat, initial: bool): World {
    s.(inFlight := s.inFlight[s.ids := Read(w, initial, false, s.session)], ids := s.ids + 1)
  }

  function Drop(s: World, w: nat): World {
    if w < |s.watches| then s.(watches := s.watches[w := s.watches[w].(registered := false)]) else s
  }

  /** An arming read that failed: a new watch is taken off the registry again and the caller told;
      of a standing one the callback is told. */
  function Fails(s: World, r: Read): World { if r.initial then Drop(s, r.w) else s.(told := s.told + {r.w}) }

  /** What a firing takes off the server's tables. */
  function Hits(p: string, t: EventType): set<(Family, string)> {
    if t == NodeChildrenChanged then {(OfChildren, p)}
    else if t == NodeDeleted then {(OfNode, p), (OfChildren, p)} else {(OfNode, p)}
  }

  /** What a change makes different. */
  function Touched(p: string, t: EventType): set<(Family, string)> {
    if t == NodeChildrenChanged then {(OfChildren, p)}
    else if t == NodeDataChanged then {(OfNode, p)} else {(OfNode, p), (OfChildren, p)}
  }

  function Changed(s: World, p: string, t: EventType): World {
    s.(nodes := if t == NodeCreated then s.nodes + {p} else if t == NodeDeleted then s.nodes - {p} else s.nodes,
       armed := s.armed - Hits(p, t), log := Stamped(s.log, Touched(p, t)))
  }

  /** A change at the server. A deletion also takes away the child watches on the node, and the one
      event the client gets says that the node was deleted. */
  function Fire(s: World, p: string, t: EventType): World {
    if s.up && s.armed * Hits(p, t) != {} then AddJob(Changed(s, p, t), Job(p, WatchKindsFor(t), [])) else Changed(s, p, t)
  }

  function Took(s: World, j: nat): World
    requires j in s.jobs && s.jobs[j].watches != []
  {
    var w := s.jobs[j].watches[0];
    if w < |s.watches| && s.watches[w].active then AddRead(Advanced(s, j), w, false) else Advanced(s, j)
  }

  /** The job with its next watch taken off its list. */
  function Advanced(s: World, j: nat): World
    requires j in s.jobs && s.jobs[j].watches != []
  {
    s.(jobs := s.jobs[j := s.jobs[j].(watches := s.jobs[j].watches[1..])])
  }

  function Next(s: World, e: Event): World
    requires Enabled(s, e)
  {
    match e
    case Register(k, p) => AddRead(s.(watches := s.watches + [Watch(k, p, true, true)]), |s.watches|, true)
    case Deactivate(w) => s.(watches := s.watches[w := s.watches[w].(active := false)])
    case Unregister(w) => Drop(s, w)
    case GetMissed(id) => s.(inFlight := s.inFlight[id := s.inFlight[id].(fallback := true)])
    case Serve(id) => Served(s, id)
    case Reply(id) => s.(served := s.served - {id}, log := Handed(s.log, s.served[id]))
    case ReadFails(id) => Fails(s.(inFlight := s.inFlight - {id}), s.inFlight[id])
    case ReplyLost(id) => Fails(s.(served := s.served - {id}), s.served[id].read)
    case Change(p, t) => Fire(s, p, t)
    case Stray(p, t) => AddJob(s, Job(p, WatchKindsFor(t), []))
    case TakeKind(j) =>
      var job := s.jobs[j];
      s.(jobs := s.jobs[j := Job(job.path, job.kinds[1..], Lookup(s.watches, job.kinds[0], job.path, |s.watches|))])
    case TakeWatch(j) => Took(s, j)
    case EndJob(j) => s.(jobs := s.jobs - {j})
    case Disconnect => s.(up := false)
    case NotifyDisconnect => s.(told := s.told + (set w: nat | w < |s.watches| && s.watches[w].registered))
    case GoLive(survivors) =>
      s.(up := true, connecting := true, session := s.session + 1, armed := {}, told := {},
         jobs := map j | j in s.jobs && j in survivors :: s.jobs[j])
    case RearmAll => AddJob(s, Job("", [], AllRegistered(s.watches, |s.watches|))).(connecting := false)
  }

  function Served(s: World, id: nat): World
    requires id in s.inFlight && s.inFlight[id].w < |s.watches|
  {
    var r := s.inFlight[id];
    var a := Answer(id, r, Current(s, s.watches[r.w]));
    s.(inFlight := s.inFlight - {id}, served := s.served[id := a], told := s.told - {r.w},
       armed := s.armed + {KeyOf(s.watches[r.w])}, log := Noted(s.log, a))
  }

  predicate History(ws: seq<World>, es: seq<Event>) {
    && |ws| == |es| + 1
    && ws[0] == Start(ws[0].nodes)
    && forall i {:trigger es[i]} :: 0 <= i < |es| ==> Enabled(ws[i], es[i]) && ws[i + 1] == Next(ws[i], es[i])
  }

  function Start(nodes: set<string>): World {
    World(false, false, 0, 0, nodes, {}, [], map[], map[], map[], {}, Log(map[], map[], map[]))
  }

  // ---- nothing watches in silence ---------------------------------------------------------

  predicate Standing(s: World, w: nat) { w < |s.watches| && s.watches[w].registered && s.watches[w].active }

  predicate Armed(s: World, w: nat)
    requires w < |s.watches|
  {
    KeyOf(s.watches[w]) in s.armed
  }

  /** The job will still come to `w`. */
  predicate Reaches(s: World, job: Job, w: nat)
    requires w < |s.watches|
  {
    w in job.watches || (job.path == s.watches[w].path && s.watches[w].kind in job.kinds)
  }

  predicate InDispatch(s: World, w: nat)
    requires w < |s.watches|
  {
    exists j :: j in s.jobs && Reaches(s, s.jobs[j], w)
  }

  predicate BeingRead(s: World, w: nat) { exists id :: id in s.inFlight && s.inFlight[id].w == w }

  /** Something will still read what `w` watches, or its callback knows that nothing will. */
  predicate Attended(s: World, w: nat)
    requires w < |s.watches|
  {
    InDispatch(s, w) || BeingRead(s, w) || w in s.told
  }

  predicate Covered(s: World, w: nat)
    requires w < |s.watches|
  {
    Armed(s, w) || Attended(s, w)
  }

  predicate NoneSilent(s: World) {
    s.up && !s.connecting ==> forall w: nat :: w < |s.watches| && Standing(s, w) ==> Covered(s, w)
  }

  /** Ids of jobs and reads are never reused. */
  predicate FreshIds(s: World) {
    && (forall j :: j in s.jobs ==> j < s.ids)
    && (forall r :: r in s.inFlight ==> r < s.ids && s.inFlight[r].w < |s.watches|)
  }

  /** A deletion spares the nodes whose children are watched. */
  predicate SparesParents(s: World, e: Event) {
    e.Change? && e.type_ == NodeDeleted ==>
      forall w: nat :: w < |s.watches| && Standing(s, w) && s.watches[w].kind == Children ==> s.watches[w].path != e.path
  }

  lemma {:induction false} LookupFinds(watches: seq<Watch>, kind: Kind, path: string, n: nat, w: nat)
    requires n <= |watches| && w < n && watches[w].registered && watches[w].kind == kind && watches[w].path == path
    ensures w in Lookup(watches, kind, path, n)
  {
    if w < n - 1 { LookupFinds(watches, kind, path, n - 1, w); }
  }

  lemma {:induction false} AllRegisteredFinds(watches: seq<Watch>, n: nat, w: nat)
    requires n <= |watches| && w < n && watches[w].registered
    ensures w in AllRegistered(watches, n)
  {
    if w < n - 1 { AllRegisteredFinds(watches, n - 1, w); }
  }

  /** `t` has every job and read of `s`, reaching the same watches, and forgets no error told. */
  predicate KeepsWork(s: World, t: World, w: nat) {
    && w < |s.watches| && w < |t.watches|
    && s.watches[w].path == t.watches[w].path && s.watches[w].kind == t.watches[w].kind
    && (forall j :: j in s.jobs ==> j in t.jobs && t.jobs[j] == s.jobs[j])
    && (forall r :: r in s.inFlight ==> r in t.inFlight && t.inFlight[r].w == s.inFlight[r].w)
    && s.told <= t.told
  }

  lemma StillAttended(s: World, t: World, w: nat)
    requires KeepsWork(s, t, w) && Attended(s, w)
    ensures Attended(t, w)
  {
    if InDispatch(s, w) {
      var j :| j in s.jobs && Reaches(s, s.jobs[j], w);
      assert Reaches(t, t.jobs[j], w);
    } else if BeingRead(s, w) {
      var r :| r in s.inFlight && s.inFlight[r].w == w;
      assert t.inFlight[r].w == w;
    }
  }

  lemma FireQueues(s: World, p: string, t: EventType, w: nat)
    requires s.up && w < |s.watches| && Armed(s, w) && !Armed(Fire(s, p, t), w)
    requires t == NodeDeleted && s.watches[w].kind == Children ==> s.watches[w].path != p
    ensures InDispatch(Fire(s, p, t), w)
  {
    var key := KeyOf(s.watches[w]);
    assert key in s.armed * Hits(p, t);
    var after := Fire(s, p, t);
    assert s.ids in after.jobs && after.jobs[s.ids] == Job(p, WatchKindsFor(t), []);
    assert s.watches[w].path == p && s.watches[w].kind in WatchKindsFor(t);
    assert Reaches(after, after.jobs[s.ids], w);
  }

  /** The step answers a read of `w`. */
  predicate Serves(s: World, e: Event, w: nat) { e.Serve? && e.id in s.inFlight && s.inFlight[e.id].w == w }

  lemma ServeAttends(s: World, id: nat, w: nat)
    requires id in s.inFlight && s.inFlight[id].w < |s.watches| && w < |s.watches| && Attended(s, w) && s.inFlight[id].w != w
    ensures Attended(Served(s, id), w)
  {
    var t := Served(s, id);
    if InDispatch(s, w) {
      var j :| j in s.jobs && Reaches(s, s.jobs[j], w);
      assert Reaches(t, t.jobs[j], w);
    } else if BeingRead(s, w) {
      var r :| r in s.inFlight && s.inFlight[r].w == w;
      assert t.inFlight[r].w == w;
    }
  }

  lemma FailAttends(s: World, id: nat, w: nat)
    requires id in s.inFlight && w < |s.watches| && Attended(s, w)
    ensures var t := Next(s, ReadFails(id)); w < |t.watches| && (Standing(t, w) ==> Attended(t, w))
  {
    var t := Next(s, ReadFails(id));
    if Standing(t, w) && s.inFlight[id].w != w {
      if InDispatch(s, w) {
        var j :| j in s.jobs && Reaches(s, s.jobs[j], w);
        assert Reaches(t, t.jobs[j], w);
      } else if BeingRead(s, w) {
        var r :| r in s.inFlight && s.inFlight[r].w == w;
        assert t.inFlight[r].w == w;
      }
    }
  }

  lemma TakeKindAttends(s: World, j: nat, w: nat)
    requires Enabled(s, TakeKind(j)) && w < |s.watches| && Standing(s, w) && Attended(s, w)
    ensures Attended(Next(s, TakeKind(j)), w)
  {
    var t := Next(s, TakeKind(j));
    if InDispatch(s, w) {
      var i :| i in s.jobs && Reaches(s, s.jobs[i], w);
      if i == j && s.watches[w].kind == s.jobs[j].kinds[0] {
        LookupFinds(s.watches, s.jobs[j].kinds[0], s.jobs[j].path, |s.watches|, w);
      }
      assert Reaches(t, t.jobs[i], w);
    } else if BeingRead(s, w) {
      assert BeingRead(t, w);
    }
  }

  lemma AdvancedAttendsOthers(s: World, j: nat, w: nat)
    requires j in s.jobs && s.jobs[j].watches != [] && w < |s.watches| && Attended(s, w) && s.jobs[j].watches[0] != w
    ensures Attended(Advanced(s, j), w)
  {
    var t := Advanced(s, j);
    if InDispatch(s, w) {
      var i :| i in s.jobs && Reaches(s, s.jobs[i], w);
      assert Reaches(t, t.jobs[i], w);
    } else if BeingRead(s, w) {
      var r :| r in s.inFlight && s.inFlight[r].w == w;
      assert t.inFlight[r].w == w;
    }
  }

  lemma AddedReadKeepsWork(s: World, v: nat, initial: bool, w: nat)
    requires FreshIds(s) && w < |s.watches|
    ensures KeepsWork(s, AddRead(s, v, initial), w)
  {
  }

  lemma TakeWatchAttends(s: World, j: nat, w: nat)
    requires Enabled(s, TakeWatch(j)) && FreshIds(s) && w < |s.watches| && Standing(s, w) && Attended(s, w)
    ensures Attended(Took(s, j), w)
  {
    var t, v := Took(s, j), s.jobs[j].watches[0];
    if v == w {
      assert t.inFlight[s.ids].w == w;
    } else {
      AdvancedAttendsOthers(s, j, w);
      WithinIsFresh(s, Advanced(s, j));
      if t != Advanced(s, j) {
        AddedReadKeepsWork(Advanced(s, j), v, false, w);
        StillAttended(Advanced(s, j), t, w);
      }
    }
  }

  lemma EndJobAttends(s: World, j: nat, w: nat)
    requires Enabled(s, EndJob(j)) && w < |s.watches| && Attended(s, w)
    ensures Attended(Next(s, EndJob(j)), w)
  {
    var t := Next(s, EndJob(j));
    if InDispatch(s, w) {
      var i :| i in s.jobs && Reaches(s, s.jobs[i], w);
      assert Reaches(t, t.jobs[i], w);
    } else if BeingRead(s, w) {
      assert BeingRead(t, w);
    }
  }

  /** A reconnect re-arms what the silence cost: whatever was lost, after the re-arm list is handed
      out every active registration is in dispatch. */
  lemma ReconnectRecovers(s: World, w: nat)
    requires s.connecting && w < |s.watches| && Standing(s, w)
    ensures w < |Next(s, RearmAll).watches| && InDispatch(Next(s, RearmAll), w)
  {
    var t := Next(s, RearmAll);
    AllRegisteredFinds(s.watches, |s.watches|, w);
    assert Reaches(t, t.jobs[s.ids], w);
  }

  lemma RegisterAttends(s: World, k: Kind, p: string, w: nat)
    requires FreshIds(s) && w <= |s.watches| && (w < |s.watches| ==> Attended(s, w))
    ensures var t := Next(s, Register(k, p)); w < |t.watches| && Attended(t, w)
  {
    var t := Next(s, Register(k, p));
    if w == |s.watches| {
      assert t.inFlight[s.ids].w == w;
    } else {
      StillAttended(s, t, w);
    }
  }

  lemma FireAttends(s: World, p: string, t: EventType, w: nat)
    requires FreshIds(s) && w < |s.watches| && Attended(s, w)
    ensures Attended(Fire(s, p, t), w)
  {
    var after := Changed(s, p, t);
    StillAttended(s, after, w);
    if s.up && s.armed * Hits(p, t) != {} { StillAttended(after, AddJob(after, Job(p, WatchKindsFor(t), [])), w); }
  }

  /** A firing turns what was armed into a queued event that reaches the same watches. */
  lemma FireCovers(s: World, p: string, t: EventType, w: nat)
    requires s.up && FreshIds(s) && w < |s.watches| && Covered(s, w)
    requires t == NodeDeleted && s.watches[w].kind == Children ==> s.watches[w].path != p
    ensures Covered(Fire(s, p, t), w)
  {
    if Attended(s, w) {
      FireAttends(s, p, t, w);
    } else if !Armed(Fire(s, p, t), w) {
      FireQueues(s, p, t, w);
    }
  }

  predicate Plain(e: Event) {
    e.Deactivate? || e.Unregister? || e.GetMissed? || e.Reply? || e.ReplyLost? || e.Stray? || e.NotifyDisconnect?
  }

  lemma PlainKeepsWork(s: World, e: Event, w: nat)
    requires Enabled(s, e) && FreshIds(s) && w < |s.watches| && Plain(e)
    ensures KeepsWork(s, Next(s, e), w)
  {
    if e.Deactivate? || e.Unregister? || e.GetMissed? { RegistryKeepsWork(s, e, w); }
    else if e.Reply? || e.ReplyLost? { RepliesKeepWork(s, e, w); }
    else { RestKeepsWork(s, e, w); }
  }

  lemma RegistryKeepsWork(s: World, e: Event, w: nat)
    requires Enabled(s, e) && w < |s.watches| && (e.Deactivate? || e.Unregister? || e.GetMissed?)
    ensures KeepsWork(s, Next(s, e), w)
  {
  }

  lemma RepliesKeepWork(s: World, e: Event, w: nat)
    requires Enabled(s, e) && w < |s.watches| && (e.Reply? || e.ReplyLost?)
    ensures KeepsWork(s, Next(s, e), w)
  {
  }

  lemma RestKeepsWork(s: World, e: Event, w: nat)
    requires Enabled(s, e) && FreshIds(s) && w < |s.watches| && (e.Stray? || e.NotifyDisconnect?)
    ensures KeepsWork(s, Next(s, e), w)
  {
  }

  lemma PlainAttends(s: World, e: Event, w: nat)
    requires Enabled(s, e) && FreshIds(s) && w < |s.watches| && Attended(s, w)
    ensures Plain(e) ==> w < |Next(s, e).watches| && Attended(Next(s, e), w)
  {
    if Plain(e) {
      PlainKeepsWork(s, e, w);
      StillAttended(s, Next(s, e), w);
    }
  }

  /** While the session is up nobody who is attended to is forgotten, until a read of it is answered. */
  lemma StaysAttended(s: World, e: Event, w: nat)
    requires Enabled(s, e) && FreshIds(s) && s.up && !s.connecting && w < |s.watches| && Standing(s, w) && Attended(s, w)
    requires Next(s, e).up && w < |Next(s, e).watches| && Standing(Next(s, e), w)
    ensures Attended(Next(s, e), w) || Serves(s, e, w)
  {
    match e
    case Register(k, p) => RegisterAttends(s, k, p, w);
    case Serve(id) => if s.inFlight[id].w != w { ServeAttends(s, id, w); }
    case ReadFails(id) => FailAttends(s, id, w);
    case Change(p, t) => FireAttends(s, p, t, w);
    case TakeKind(j) => TakeKindAttends(s, j, w);
    case TakeWatch(j) => TakeWatchAttends(s, j, w);
    case EndJob(j) => EndJobAttends(s, j, w);
    case _ => PlainAttends(s, e, w);
  }

  /** The step is not the deletion of the node whose children `w` watches. */
  predicate SparesOwnParent(s: World, e: Event, w: nat)
    requires w < |s.watches|
  {
    !(e == Change(s.watches[w].path, NodeDeleted) && s.watches[w].kind == Children)
  }

  lemma ArmedGrows(s: World, e: Event)
    requires Enabled(s, e) && !e.Change? && !e.GoLive?
    ensures s.armed <= Next(s, e).armed
  {
    if !e.Serve? { ArmedStays(s, e); }
  }

  lemma AttendedStaysCovered(s: World, e: Event, w: nat)
    requires Enabled(s, e) && FreshIds(s) && s.up && !s.connecting && w < |s.watches| && Standing(s, w) && Attended(s, w)
    requires Next(s, e).up && w < |Next(s, e).watches| && Standing(Next(s, e), w)
    ensures Covered(Next(s, e), w)
  {
    StaysAttended(s, e, w);
  }

  lemma StaysCovered(s: World, e: Event, w: nat)
    requires Enabled(s, e) && FreshIds(s) && s.up && !s.connecting && Next(s, e).up
    requires w < |s.watches| && SparesOwnParent(s, e, w) && Standing(s, w) && Covered(s, w)
    requires w < |Next(s, e).watches| && Standing(Next(s, e), w)
    ensures Covered(Next(s, e), w)
  {
    if Attended(s, w) {
      AttendedStaysCovered(s, e, w);
    } else if e.Change? {
      FireCovers(s, e.path, e.type_, w);
    } else {
      ArmedGrows(s, e);
      WatchKeepsItsPath(s, e, w);
    }
  }

  // ---- ids are never reused ---------------------------------------------------------------

  /** `t` has only jobs and reads of `s`. */
  predicate Within(s: World, t: World) {
    && s.ids <= t.ids && t.jobs.Keys <= s.jobs.Keys && |s.watches| <= |t.watches|
    && forall r :: r in t.inFlight ==> r in s.inFlight && t.inFlight[r].w == s.inFlight[r].w
  }

  lemma WithinIsFresh(s: World, t: World)
    requires FreshIds(s) && Within(s, t)
    ensures FreshIds(t)
  {
  }

  lemma RegistryWithin(s: World, e: Event)
    requires Enabled(s, e) && (e.Deactivate? || e.Unregister? || e.GetMissed?)
    ensures Within(s, Next(s, e))
  {
  }

  lemma ReadsWithin(s: World, e: Event)
    requires Enabled(s, e) && (e.Serve? || e.Reply? || e.ReadFails? || e.ReplyLost?)
    ensures Within(s, Next(s, e))
  {
  }

  lemma SessionWithin(s: World, e: Event)
    requires Enabled(s, e) && (e.TakeKind? || e.EndJob? || e.Disconnect? || e.NotifyDisconnect? || e.GoLive?)
    ensures Within(s, Next(s, e))
  {
  }

  lemma AddedJobIsFresh(s: World, job: Job)
    requires FreshIds(s)
    ensures FreshIds(AddJob(s, job))
  {
  }

  lemma AddedReadIsFresh(s: World, w: nat, initial: bool)
    requires FreshIds(s) && w < |s.watches|
    ensures FreshIds(AddRead(s, w, initial))
  {
  }

  lemma FreshAfterTake(s: World, j: nat)
    requires Enabled(s, TakeWatch(j)) && FreshIds(s)
    ensures FreshIds(Took(s, j))
  {
    var w := s.jobs[j].watches[0];
    WithinIsFresh(s, Advanced(s, j));
    if w < |s.watches| && s.watches[w].active { AddedReadIsFresh(Advanced(s, j), w, false); }
  }

  lemma FreshAfterFire(s: World, p: string, t: EventType)
    requires FreshIds(s)
    ensures FreshIds(Fire(s, p, t))
  {
  }

  lemma FreshAfterRegister(s: World, k: Kind, p: string)
    requires FreshIds(s)
    ensures FreshIds(Next(s, Register(k, p)))
  {
    var t := s.(watches := s.watches + [Watch(k, p, true, true)]);
    WithinIsFresh(s, t);
    AddedReadIsFresh(t, |s.watches|, true);
  }

  lemma StaysFresh(s: World, e: Event)
    requires Enabled(s, e) && FreshIds(s)
    ensures FreshIds(Next(s, e))
  {
    match e
    case TakeWatch(j) => FreshAfterTake(s, j);
    case Change(p, t) => FreshAfterFire(s, p, t);
    case Register(k, p) => FreshAfterRegister(s, k, p);
    case Stray(p, t) => AddedJobIsFresh(s, Job(p, WatchKindsFor(t), []));
    case RearmAll => AddedJobIsFresh(s, Job("", [], AllRegistered(s.watches, |s.watches|)));
    case _ =>
      if e.Deactivate? || e.Unregister? || e.GetMissed? { RegistryWithin(s, e); }
      else if e.Serve? || e.Reply? || e.ReadFails? || e.ReplyLost? { ReadsWithin(s, e); }
      else { SessionWithin(s, e); }
      WithinIsFresh(s, Next(s, e));
  }

  lemma {:induction false} EveryRunIsFresh(ws: seq<World>, es: seq<Event>, i: nat)
    requires History(ws, es) && i < |ws|
    ensures FreshIds(ws[i])
  {
    if i > 0 {
      EveryRunIsFresh(ws, es, i - 1);
      StaysFresh(ws[i - 1], es[i - 1]);
    }
  }

  // ---- nothing but a deleted parent silences a watch ----------------------------------------

  /** The session is up and the registration stands, and nothing covers it. */
  predicate Silent(s: World, w: nat) { s.up && !s.connecting && w < |s.watches| && Standing(s, w) && !Covered(s, w) }

  /** The node whose children `w` watches is deleted, and nothing but the watch taken away covers it. */
  predicate Cuts(s: World, e: Event, w: nat) {
    s.up && !s.connecting && w < |s.watches| && Standing(s, w) && !Attended(s, w) && !SparesOwnParent(s, e, w)
  }

  predicate Wants(w: Watch, p: string, t: EventType) { w.path == p && w.kind in WatchKindsFor(t) }

  predicate Fires(s: World, p: string, t: EventType) { s.up && s.armed * Hits(p, t) != {} }

  /** What brings somebody back to `w`: an event that reaches it, or an error it is told of. */
  predicate Revives(s: World, e: Event, w: nat)
    requires w < |s.watches|
  {
    || (e.Stray? && Wants(s.watches[w], e.path, e.type_))
    || (e.Change? && Wants(s.watches[w], e.path, e.type_) && Fires(s, e.path, e.type_))
    || (e.ReplyLost? && e.id in s.served && s.served[e.id].read.w == w && !s.served[e.id].read.initial)
    || e.NotifyDisconnect?
  }

  /** A read for the same family and path, whoever's, is answered and leaves a watch. */
  predicate Rearms(s: World, e: Event, w: nat)
    requires w < |s.watches|
  {
    e.Serve? && e.id in s.inFlight && s.inFlight[e.id].w < |s.watches| && KeyOf(s.watches[s.inFlight[e.id].w]) == KeyOf(s.watches[w])
  }

  /** The registration goes: cancelled, or the reply to its first read is lost. */
  predicate Leaves(s: World, e: Event, w: nat) {
    e == Deactivate(w) || (e.ReplyLost? && e.id in s.served && s.served[e.id].read.w == w && s.served[e.id].read.initial)
  }

  predicate EndsSilence(s: World, e: Event, w: nat)
    requires w < |s.watches|
  {
    Revives(s, e, w) || Rearms(s, e, w) || Leaves(s, e, w) || e.Disconnect?
  }

  predicate StaysSilent(ws: seq<World>, es: seq<Event>, k: nat, w: nat)
    requires k < |es| < |ws|
  {
    w < |ws[k].watches| && !EndsSilence(ws[k], es[k], w)
  }

  /** The event at `i` deleted the node whose children `w` watches when nothing else attended to `w`, and
      nothing that ends a silence has happened since. */
  predicate SilencedAt(ws: seq<World>, es: seq<Event>, i: nat, j: nat, w: nat)
    requires |ws| == |es| + 1 && j < |ws|
  {
    && i < j && Cuts(ws[i], es[i], w)
    && forall k :: i < k < j ==> StaysSilent(ws, es, k, w)
  }

  predicate TouchesRegistry(e: Event) { e.Register? || e.Deactivate? || e.Unregister? || e.ReadFails? || e.ReplyLost? }

  lemma ServerLeavesRegistry(s: World, e: Event)
    requires Enabled(s, e) && (e.GetMissed? || e.Serve? || e.Reply? || e.Change? || e.Stray?)
    ensures Next(s, e).watches == s.watches
  {
  }

  lemma ClientLeavesRegistry(s: World, e: Event)
    requires Enabled(s, e) && !TouchesRegistry(e) && !(e.GetMissed? || e.Serve? || e.Reply? || e.Change? || e.Stray?)
    ensures Next(s, e).watches == s.watches
  {
  }

  lemma WatchKeepsItsPath(s: World, e: Event, w: nat)
    requires Enabled(s, e) && w < |s.watches|
    ensures w < |Next(s, e).watches| && Next(s, e).watches[w].path == s.watches[w].path && Next(s, e).watches[w].kind == s.watches[w].kind
    ensures Standing(Next(s, e), w) ==> Standing(s, w)
  {
    if !TouchesRegistry(e) {
      WatchesStay(s, e);
    } else {
      RegistryKeepsPath(s, e, w);
    }
  }

  lemma RegistryKeepsPath(s: World, e: Event, w: nat)
    requires Enabled(s, e) && w < |s.watches| && TouchesRegistry(e)
    ensures w < |Next(s, e).watches| && Next(s, e).watches[w].path == s.watches[w].path && Next(s, e).watches[w].kind == s.watches[w].kind
    ensures Standing(Next(s, e), w) ==> Standing(s, w)
  {
    if e.ReadFails? { FailKeepsPath(s.(inFlight := s.inFlight - {e.id}), s.inFlight[e.id], w); }
    else if e.ReplyLost? { FailKeepsPath(s.(served := s.served - {e.id}), s.served[e.id].read, w); }
  }

  lemma FailKeepsPath(s: World, r: Read, w: nat)
    requires w < |s.watches|
    ensures var t := Fails(s, r);
      && w < |t.watches| && t.watches[w].path == s.watches[w].path && t.watches[w].kind == s.watches[w].kind
      && (Standing(t, w) ==> Standing(s, w))
  {
  }

  /** A session that is up and settled was so before, unless its re-arm list was just handed out. */
  lemma WasUp(s: World, e: Event)
    requires Enabled(s, e) && Next(s, e).up && !Next(s, e).connecting
    ensures e.RearmAll? || (s.up && !s.connecting)
  {
  }

  lemma SilenceBegins(s: World, e: Event, w: nat)
    requires Enabled(s, e) && FreshIds(s) && Silent(Next(s, e), w)
    ensures Silent(s, w) || Cuts(s, e, w)
  {
    WasUp(s, e);
    if e.RearmAll? {
      ReconnectRecovers(s, w);
    } else if w < |s.watches| {
      WatchKeepsItsPath(s, e, w);
      if Attended(s, w) {
        AttendedStaysCovered(s, e, w);
      } else if Covered(s, w) && SparesOwnParent(s, e, w) {
        StaysCovered(s, e, w);
      }
    } else {
      RegisterAttends(s, e.kind, e.path, w);
    }
  }

  /** Nobody comes to `w` but by what revives it. */
  lemma NobodyComes(s: World, e: Event, w: nat)
    requires Enabled(s, e) && s.up && !s.connecting && w < |s.watches| && Standing(s, w) && !Attended(s, w)
    ensures w < |Next(s, e).watches| && (Attended(Next(s, e), w) <==> Revives(s, e, w))
  {
    WatchKeepsItsPath(s, e, w);
    match e
    case Register(k, p) => SameWork(s, Next(s, e), w, s.ids);
    case TakeKind(j) => TakeKindAdds(s, j, w);
    case TakeWatch(j) => TakeWatchAdds(s, j, w);
    case Change(p, t) => FireAdds(s, p, t, w);
    case Stray(p, t) => JobAdds(s, Job(p, WatchKindsFor(t), []), w);
    case Serve(id) => SameWork(s, Next(s, e), w, s.ids);
    case ReadFails(id) => FailAdds(s, id, w);
    case ReplyLost(id) => LossAdds(s, id, w);
    case NotifyDisconnect =>
    case _ => RestAdds(s, e, w);
  }

  predicate Restful(e: Event) { e.Deactivate? || e.Unregister? || e.GetMissed? || e.Reply? || e.EndJob? || e.Disconnect? }

  lemma RestAdds(s: World, e: Event, w: nat)
    requires Enabled(s, e) && w < |s.watches| && !Attended(s, w)
    ensures Restful(e) ==> w < |Next(s, e).watches| && !Attended(Next(s, e), w)
  {
    if Restful(e) {
      WatchKeepsItsPath(s, e, w);
      SameWork(s, Next(s, e), w, s.ids);
    }
  }

  /** `t` has no job or read but those of `s`, reaching the same watches, and one read, of another watch. */
  lemma SameWork(s: World, t: World, w: nat, added: nat)
    requires w < |s.watches| && w < |t.watches| && KeyOf(t.watches[w]) == KeyOf(s.watches[w]) && t.watches[w].kind == s.watches[w].kind
    requires forall j :: j in t.jobs ==> j in s.jobs && t.jobs[j] == s.jobs[j]
    requires forall r :: r in t.inFlight && r != added ==> r in s.inFlight && t.inFlight[r].w == s.inFlight[r].w
    requires added in t.inFlight ==> t.inFlight[added].w != w
    requires w in t.told ==> w in s.told
    requires !Attended(s, w)
    ensures !Attended(t, w)
  {
    forall j | j in t.jobs ensures !Reaches(t, t.jobs[j], w) { assert !Reaches(s, s.jobs[j], w); }
  }

  lemma JobAdds(s: World, job: Job, w: nat)
    requires w < |s.watches| && !Attended(s, w)
    ensures Attended(AddJob(s, job), w) <==> Reaches(s, job, w)
  {
    var t := AddJob(s, job);
    assert t.jobs[s.ids] == job && (Reaches(t, job, w) <==> Reaches(s, job, w));
    forall j | j in t.jobs && j != s.ids ensures !Reaches(t, t.jobs[j], w) { assert !Reaches(s, s.jobs[j], w); }
  }

  lemma FireAdds(s: World, p: string, t: EventType, w: nat)
    requires w < |s.watches| && !Attended(s, w)
    ensures Attended(Fire(s, p, t), w) <==> Wants(s.watches[w], p, t) && Fires(s, p, t)
  {
    var after := Changed(s, p, t);
    SameWork(s, after, w, s.ids);
    if Fires(s, p, t) { JobAdds(after, Job(p, WatchKindsFor(t), []), w); }
  }

  lemma TakeKindAdds(s: World, j: nat, w: nat)
    requires Enabled(s, TakeKind(j)) && w < |s.watches| && !Attended(s, w)
    ensures !Attended(Next(s, TakeKind(j)), w)
  {
    var t, job := Next(s, TakeKind(j)), s.jobs[j];
    forall i | i in t.jobs ensures !Reaches(t, t.jobs[i], w) {
      assert !Reaches(s, s.jobs[i], w);
      if i == j && w in Lookup(s.watches, job.kinds[0], job.path, |s.watches|) {
        LookupOnly(s.watches, job.kinds[0], job.path, |s.watches|, w);
      }
    }
  }

  lemma TakeWatchAdds(s: World, j: nat, w: nat)
    requires Enabled(s, TakeWatch(j)) && w < |s.watches| && !Attended(s, w)
    ensures !Attended(Took(s, j), w)
  {
    var v := Advanced(s, j);
    assert !Reaches(s, s.jobs[j], w);
    forall i | i in v.jobs ensures !Reaches(v, v.jobs[i], w) { assert !Reaches(s, s.jobs[i], w); }
    assert !Attended(v, w);
    SameWork(v, Took(s, j), w, s.ids);
  }

  lemma FailAdds(s: World, id: nat, w: nat)
    requires Enabled(s, ReadFails(id)) && w < |s.watches| && !Attended(s, w)
    ensures w < |Next(s, ReadFails(id)).watches| && !Attended(Next(s, ReadFails(id)), w)
  {
    assert s.inFlight[id].w != w;
    SameWork(s, Next(s, ReadFails(id)), w, s.ids);
  }

  lemma LossAdds(s: World, id: nat, w: nat)
    requires Enabled(s, ReplyLost(id)) && w < |s.watches| && !Attended(s, w)
    ensures w < |Next(s, ReplyLost(id)).watches|
    ensures Attended(Next(s, ReplyLost(id)), w) <==> Revives(s, ReplyLost(id), w)
  {
    if !Revives(s, ReplyLost(id), w) { SameWork(s, Next(s, ReplyLost(id)), w, s.ids); }
  }

  /** No watch dies silently: in every world any run reaches, while the session is up every active
      registration is armed, in dispatch, being read, or has been told of an error, with exactly one
      exception: a child watch whose own node was deleted under it while nothing else attended to it, and
      since then no event has reached it, nobody has read the same children, nobody has told it of an
      error or a disconnect, and it has not gone. */
  lemma NoWatchDiesSilently(ws: seq<World>, es: seq<Event>, j: nat, w: nat)
    requires History(ws, es) && j < |ws|
    ensures Silent(ws[j], w) <==> exists i: nat :: SilencedAt(ws, es, i, j, w)
  {
    if Silent(ws[j], w) { var i := SilencedBy(ws, es, j, w); }
    forall i: nat | SilencedAt(ws, es, i, j, w) ensures Silent(ws[j], w) { SilencedIsSilent(ws, es, i, j, w); }
  }

  lemma {:induction false} SilencedIsSilent(ws: seq<World>, es: seq<Event>, i: nat, j: nat, w: nat)
    requires History(ws, es) && j < |ws| && SilencedAt(ws, es, i, j, w)
    ensures Silent(ws[j], w)
    decreases j
  {
    assert Enabled(ws[j - 1], es[j - 1]) && ws[j] == Next(ws[j - 1], es[j - 1]);
    if i == j - 1 {
      CutIsSilent(ws[i], es[i], w);
    } else {
      SilencedEarlier(ws, es, i, j, w);
      SilencedIsSilent(ws, es, i, j - 1, w);
      SilenceGoesOn(ws[j - 1], es[j - 1], w);
    }
  }

  lemma SilencedEarlier(ws: seq<World>, es: seq<Event>, i: nat, j: nat, w: nat)
    requires |ws| == |es| + 1 && j < |ws| && i < j - 1 && SilencedAt(ws, es, i, j, w)
    ensures SilencedAt(ws, es, i, j - 1, w) && w < |ws[j - 1].watches| && !EndsSilence(ws[j - 1], es[j - 1], w)
  {
    assert StaysSilent(ws, es, j - 1, w);
  }

  lemma {:induction false} SilencedBy(ws: seq<World>, es: seq<Event>, j: nat, w: nat) returns (i: nat)
    requires History(ws, es) && j < |ws| && Silent(ws[j], w)
    ensures SilencedAt(ws, es, i, j, w)
    decreases j
  {
    EveryRunIsFresh(ws, es, j - 1);
    if Silent(ws[j - 1], w) {
      i := SilencedBy(ws, es, j - 1, w);
      SilenceExtends(ws, es, i, j, w);
    } else {
      i := j - 1;
      SilenceFound(ws, es, j, w);
    }
  }

  lemma SilenceFound(ws: seq<World>, es: seq<Event>, j: nat, w: nat)
    requires History(ws, es) && 0 < j < |ws| && FreshIds(ws[j - 1]) && Silent(ws[j], w) && !Silent(ws[j - 1], w)
    ensures SilencedAt(ws, es, j - 1, j, w)
  {
    assert Enabled(ws[j - 1], es[j - 1]) && ws[j] == Next(ws[j - 1], es[j - 1]);
    SilenceBegins(ws[j - 1], es[j - 1], w);
  }

  lemma SilenceExtends(ws: seq<World>, es: seq<Event>, i: nat, j: nat, w: nat)
    requires History(ws, es) && 0 < j < |ws| && Silent(ws[j], w) && Silent(ws[j - 1], w) && SilencedAt(ws, es, i, j - 1, w)
    ensures SilencedAt(ws, es, i, j, w)
  {
    assert Enabled(ws[j - 1], es[j - 1]) && ws[j] == Next(ws[j - 1], es[j - 1]);
    SilenceGoesOn(ws[j - 1], es[j - 1], w);
    assert StaysSilent(ws, es, j - 1, w);
  }

  lemma CutIsSilent(s: World, e: Event, w: nat)
    requires Enabled(s, e) && Cuts(s, e, w)
    ensures Silent(Next(s, e), w)
  {
    NobodyComes(s, e, w);
  }

  /** A silence goes on exactly until something ends it. */
  lemma SilenceGoesOn(s: World, e: Event, w: nat)
    requires Enabled(s, e) && Silent(s, w)
    ensures Silent(Next(s, e), w) <==> !EndsSilence(s, e, w)
  {
    NobodyComes(s, e, w);
    WatchKeepsItsPath(s, e, w);
    StandsUnlessLeft(s, e, w);
    ArmedByRearm(s, e, w);
  }

  lemma StandsUnlessLeft(s: World, e: Event, w: nat)
    requires Enabled(s, e) && w < |s.watches| && Standing(s, w) && !BeingRead(s, w)
    ensures w < |Next(s, e).watches| && (Standing(Next(s, e), w) <==> !Leaves(s, e, w))
  {
    if e.ReplyLost? { LostLeaves(s, e.id, w); }
    else if !TouchesRegistry(e) { WatchesStay(s, e); }
  }

  lemma LostLeaves(s: World, id: nat, w: nat)
    requires Enabled(s, ReplyLost(id)) && w < |s.watches| && Standing(s, w)
    ensures w < |Next(s, ReplyLost(id)).watches| && (Standing(Next(s, ReplyLost(id)), w) <==> !Leaves(s, ReplyLost(id), w))
  {
  }

  lemma WatchesStay(s: World, e: Event)
    requires Enabled(s, e) && !TouchesRegistry(e)
    ensures Next(s, e).watches == s.watches
  {
    if e.GetMissed? || e.Serve? || e.Reply? || e.Change? || e.Stray? { ServerLeavesRegistry(s, e); } else { ClientLeavesRegistry(s, e); }
  }

  lemma ArmedByRearm(s: World, e: Event, w: nat)
    requires Enabled(s, e) && s.up && w < |s.watches| && !Armed(s, w)
    ensures KeyOf(s.watches[w]) in Next(s, e).armed <==> Rearms(s, e, w)
  {
    if !e.Serve? && !e.Change? { ArmedStays(s, e); }
  }

  lemma ArmedStays(s: World, e: Event)
    requires Enabled(s, e) && !e.Serve? && !e.Change? && !e.GoLive?
    ensures Next(s, e).armed == s.armed
  {
  }

  /** So in a run that spares the nodes whose children are watched, every active registration is covered. */
  lemma SparedParentsStayCovered(ws: seq<World>, es: seq<Event>, j: nat)
    requires History(ws, es) && j < |ws| && forall k :: 0 <= k < |es| ==> SparesParents(ws[k], es[k])
    ensures NoneSilent(ws[j])
  {
    if ws[j].up && !ws[j].connecting {
      forall w: nat | w < |ws[j].watches| && Standing(ws[j], w) ensures Covered(ws[j], w) {
        SparedIsNotSilent(ws, es, j, w);
      }
    }
  }

  lemma SparedIsNotSilent(ws: seq<World>, es: seq<Event>, j: nat, w: nat)
    requires History(ws, es) && j < |ws| && forall k :: 0 <= k < |es| ==> SparesParents(ws[k], es[k])
    ensures !Silent(ws[j], w)
  {
    NoWatchDiesSilently(ws, es, j, w);
    forall i: nat ensures !SilencedAt(ws, es, i, j, w) {
      assert i < |es| ==> SparesParents(ws[i], es[i]);
    }
  }

  // ---- what becomes of a change -------------------------------------------------------------

  predicate Concerns(w: Watch, p: string, t: EventType) { w.path == p && (w.kind == Children) == (t == NodeChildrenChanged) }

  /** A read of `w` whose answer is not thrown away is on its way: not the second read of a data watch
      that found no node, whose caller is handed "no node" whatever it finds. */
  predicate PlainlyRead(s: World, w: nat) { exists id :: id in s.inFlight && s.inFlight[id].w == w && !s.inFlight[id].fallback }

  /** Somebody will still be given what `w` watches as it is from now on, or knows of an error. */
  predicate WillHear(s: World, w: nat)
    requires w < |s.watches|
  {
    InDispatch(s, w) || PlainlyRead(s, w) || w in s.told
  }

  /** All that attends to `w` is a read whose answer is thrown away, and the change fires nothing. */
  predicate FallbackAlone(s: World, w: nat, p: string, t: EventType)
    requires w < |s.watches|
  {
    BeingRead(s, w) && !WillHear(s, w) && !Fires(s, p, t)
  }

  lemma FiredIsHeard(s: World, p: string, t: EventType, w: nat)
    requires FreshIds(s) && w < |s.watches| && Concerns(s.watches[w], p, t) && Fires(s, p, t)
    ensures InDispatch(Fire(s, p, t), w)
  {
    var after := Fire(s, p, t);
    assert after.jobs[s.ids] == Job(p, WatchKindsFor(t), []);
    assert Reaches(after, after.jobs[s.ids], w);
  }

  lemma UnfiredStays(s: World, p: string, t: EventType, w: nat)
    requires w < |s.watches| && !Fires(s, p, t)
    ensures WillHear(Fire(s, p, t), w) <==> WillHear(s, w)
  {
    var after := Fire(s, p, t);
    assert after.jobs == s.jobs && after.inFlight == s.inFlight && after.told == s.told && after.watches == s.watches;
    assert forall j :: j in s.jobs ==> (Reaches(after, s.jobs[j], w) <==> Reaches(s, s.jobs[j], w));
  }

  /** Right after a change to what it watches, somebody will still hear what the registration watches, or
      has been told of an error, exactly when somebody was going to anyway or the change fires a watch; and
      of a covered registration, exactly when it was not attended to by a fallback read alone. */
  lemma NoChangeIsMissed(ws: seq<World>, es: seq<Event>, i: nat, w: nat)
    requires History(ws, es) && i < |es| && es[i].Change?
    requires ws[i].up && w < |ws[i].watches| && Concerns(ws[i].watches[w], es[i].path, es[i].type_)
    ensures w < |ws[i + 1].watches|
    ensures WillHear(ws[i + 1], w) <==> WillHear(ws[i], w) || Fires(ws[i], es[i].path, es[i].type_)
    ensures Covered(ws[i], w) ==> (WillHear(ws[i + 1], w) <==> !FallbackAlone(ws[i], w, es[i].path, es[i].type_))
  {
    var s, p, t := ws[i], es[i].path, es[i].type_;
    EveryRunIsFresh(ws, es, i);
    ArmedFires(s, p, t, w);
    if Fires(s, p, t) {
      FiredIsHeard(s, p, t, w);
    } else {
      UnfiredStays(s, p, t, w);
    }
  }

  lemma ArmedFires(s: World, p: string, t: EventType, w: nat)
    requires s.up && w < |s.watches| && Concerns(s.watches[w], p, t)
    ensures Armed(s, w) ==> Fires(s, p, t)
  {
    if Armed(s, w) {
      assert KeyOf(s.watches[w]) in s.armed * Hits(p, t);
    }
  }

  /** Exactly what deleting a watched node costs: a covered registration is covered afterwards,
      unless it watches that node's children and the watch taken away was all that covered it. */
  lemma DeletionCosts(s: World, p: string, w: nat)
    requires Enabled(s, Change(p, NodeDeleted)) && FreshIds(s) && s.up && w < |s.watches| && Covered(s, w)
    ensures var t := Next(s, Change(p, NodeDeleted));
      !Covered(t, w) <==> s.watches[w].kind == Children && s.watches[w].path == p && !Attended(s, w)
  {
    var t := Next(s, Change(p, NodeDeleted));
    if s.watches[w].kind == Children && s.watches[w].path == p {
      if Attended(s, w) {
        StillAttended(s, t, w);
      } else {
        NobodyAfterDeletion(s, p, w);
      }
    } else {
      FireCovers(s, p, NodeDeleted, w);
    }
  }

  lemma NobodyAfterDeletion(s: World, p: string, w: nat)
    requires s.up && w < |s.watches| && s.watches[w].kind == Children && s.watches[w].path == p && !Attended(s, w)
    ensures !Covered(Fire(s, p, NodeDeleted), w)
  {
    FireAdds(s, p, NodeDeleted, w);
  }

  // ---- what the last answer says ------------------------------------------------------------

  /** The last answer to a read of `w` is what is there now, and the watch it left is still set. */
  predicate Settled(s: World, w: nat)
    requires w < |s.watches|
  {
    && Armed(s, w) && w in s.log.answered && s.log.answered[w].state == Current(s, s.watches[w])
    && (s.watches[w].kind == Children ==> s.watches[w].path in s.nodes)
  }

  predicate StaysAlone(ws: seq<World>, es: seq<Event>, k: nat, w: nat)
    requires k < |es| < |ws|
  {
    w < |ws[k].watches| && !Revives(ws[k], es[k], w) && !es[k].Disconnect?
  }

  /** What `w` was last told of its children went with the node, and nothing has brought anybody back. */
  predicate CutOffAt(ws: seq<World>, es: seq<Event>, i: nat, j: nat, w: nat)
    requires |ws| == |es| + 1 && j < |ws|
  {
    && i < j && Cuts(ws[i], es[i], w)
    && forall k :: i < k < j ==> StaysAlone(ws, es, k, w)
  }

  ghost predicate CutOff(ws: seq<World>, es: seq<Event>, j: nat, w: nat)
    requires |ws| == |es| + 1 && j < |ws|
  {
    exists i: nat :: CutOffAt(ws, es, i, j, w)
  }

  lemma CutOffExtends(ws: seq<World>, es: seq<Event>, i: nat, j: nat, w: nat)
    requires |ws| == |es| + 1 && 0 < j < |ws| && CutOffAt(ws, es, i, j - 1, w) && w < |ws[j - 1].watches|
    requires !Revives(ws[j - 1], es[j - 1], w) && !es[j - 1].Disconnect?
    ensures CutOffAt(ws, es, i, j, w)
  {
    assert StaysAlone(ws, es, j - 1, w);
  }

  /** Only a change at the server makes anything different there. */
  lemma StoreStays(s: World, e: Event)
    requires Enabled(s, e) && !e.Change?
    ensures Next(s, e).nodes == s.nodes && Next(s, e).log.stamps == s.log.stamps
  {
    if !Answers(e) { LogStays(s, e); NodesStay(s, e); }
  }

  /** Only serving and replying touch the answers under way and those handed over. */
  predicate Answers(e: Event) { e.Serve? || e.Reply? || e.ReplyLost? }

  lemma LogStays(s: World, e: Event)
    requires Enabled(s, e) && !e.Change? && !Answers(e)
    ensures Next(s, e).log == s.log
  {
  }

  lemma NodesStay(s: World, e: Event)
    requires Enabled(s, e) && !e.Change? && !Answers(e)
    ensures Next(s, e).nodes == s.nodes
  {
  }

  /** Only an answer to a read of `w` changes what was answered last. */
  lemma AnswersStay(s: World, e: Event, w: nat)
    requires Enabled(s, e) && !Serves(s, e, w)
    ensures w in Next(s, e).log.answered <==> w in s.log.answered
    ensures w in s.log.answered ==> Next(s, e).log.answered[w] == s.log.answered[w]
  {
    if !Answers(e) && !e.Change? { LogStays(s, e); }
  }

  lemma ServedIsSettled(s: World, e: Event, w: nat)
    requires Enabled(s, e) && Serves(s, e, w)
    ensures w < |Next(s, e).watches| && Settled(Next(s, e), w)
  {
  }

  lemma SettledStays(s: World, e: Event, w: nat)
    requires Enabled(s, e) && !e.Change? && !e.GoLive? && w < |s.watches| && Settled(s, w)
    ensures w < |Next(s, e).watches| && Settled(Next(s, e), w)
  {
    if Serves(s, e, w) {
      ServedIsSettled(s, e, w);
    } else {
      WatchKeepsItsPath(s, e, w);
      ArmedGrows(s, e);
      StoreStays(s, e);
      AnswersStay(s, e, w);
    }
  }

  /** A change leaves what was settled as it was, or fires its watch, or cuts it off. */
  lemma SettledChanges(s: World, p: string, t: EventType, w: nat)
    requires Enabled(s, Change(p, t)) && FreshIds(s) && s.up && !s.connecting
    requires w < |s.watches| && Standing(s, w) && Settled(s, w) && !Attended(s, w)
    ensures Attended(Fire(s, p, t), w) || Settled(Fire(s, p, t), w) || Cuts(s, Change(p, t), w)
  {
    if Concerns(s.watches[w], p, t) {
      ArmedFires(s, p, t, w);
      FiredIsHeard(s, p, t, w);
    } else if s.watches[w].kind == Children && s.watches[w].path == p && t == NodeDeleted {
      assert Cuts(s, Change(p, t), w);
    } else {
      ElsewhereStays(s, p, t, w);
    }
  }

  lemma ElsewhereStays(s: World, p: string, t: EventType, w: nat)
    requires Enabled(s, Change(p, t)) && w < |s.watches| && Settled(s, w) && !Concerns(s.watches[w], p, t)
    requires !(s.watches[w].kind == Children && s.watches[w].path == p && t == NodeDeleted)
    ensures Settled(Fire(s, p, t), w)
  {
    ElsewhereStamps(s, p, t, s.watches[w]);
    assert Armed(Changed(s, p, t), w);
    assert Settled(Changed(s, p, t), w);
  }

  lemma ElsewhereStamps(s: World, p: string, t: EventType, w: Watch)
    requires Enabled(s, Change(p, t)) && !Concerns(w, p, t) && (w.kind == Children ==> w.path in s.nodes)
    requires !(w.kind == Children && w.path == p && t == NodeDeleted)
    ensures KeyOf(w) !in Touched(p, t) && KeyOf(w) !in Hits(p, t)
    ensures Current(Changed(s, p, t), w) == Current(s, w) && (w.path in s.nodes <==> w.path in Changed(s, p, t).nodes)
  {
  }

  /** While the session is up, an active registration is attended to, or cut off, or its last answer is
      what is there now. */
  lemma {:induction false} AnswersAreKept(ws: seq<World>, es: seq<Event>, j: nat, w: nat)
    requires History(ws, es) && j < |ws| && ws[j].up && !ws[j].connecting && w < |ws[j].watches| && Standing(ws[j], w)
    ensures Attended(ws[j], w) || CutOff(ws, es, j, w) || Settled(ws[j], w)
    decreases j
  {
    if j > 0 {
      var s, e, t := ws[j - 1], es[j - 1], ws[j];
      assert Enabled(s, e) && t == Next(s, e);
      EveryRunIsFresh(ws, es, j - 1);
      WasUp(s, e);
      if e.RearmAll? {
        ReconnectRecovers(s, w);
      } else if w == |s.watches| {
        RegisterAttends(s, e.kind, e.path, w);
      } else {
        WatchKeepsItsPath(s, e, w);
        AnswersAreKept(ws, es, j - 1, w);
        AnswersGoOn(ws, es, j, w);
      }
    }
  }

  lemma AnswersGoOn(ws: seq<World>, es: seq<Event>, j: nat, w: nat)
    requires History(ws, es) && 0 < j < |ws| && FreshIds(ws[j - 1]) && ws[j].up && w < |ws[j].watches| && Standing(ws[j], w)
    requires var s := ws[j - 1]; s.up && !s.connecting && w < |s.watches| && Standing(s, w)
    requires Attended(ws[j - 1], w) || CutOff(ws, es, j - 1, w) || Settled(ws[j - 1], w)
    ensures Attended(ws[j], w) || CutOff(ws, es, j, w) || Settled(ws[j], w)
  {
    var s, e, t := ws[j - 1], es[j - 1], ws[j];
    assert Enabled(s, e) && t == Next(s, e);
    if Attended(s, w) {
      StaysAttended(s, e, w);
      if Serves(s, e, w) { ServedIsSettled(s, e, w); }
    } else if CutOff(ws, es, j - 1, w) {
      NobodyComes(s, e, w);
      if !Revives(s, e, w) {
        var i: nat :| CutOffAt(ws, es, i, j - 1, w);
        CutOffExtends(ws, es, i, j, w);
      }
    } else if e.Change? {
      SettledChanges(s, e.path, e.type_, w);
      assert Cuts(s, e, w) ==> CutOffAt(ws, es, j - 1, j, w);
    } else {
      SettledStays(s, e, w);
    }
  }

  // Only data watches read twice.

  predicate DataOnly(s: World) {
    forall r :: r in s.inFlight && s.inFlight[r].fallback ==> s.inFlight[r].w < |s.watches| && s.watches[s.inFlight[r].w].kind == Data
  }

  /** A read under way was so before, or is a first read, or a data watch's second. */
  lemma ReadsCome(s: World, e: Event, r: nat)
    requires Enabled(s, e) && r in Next(s, e).inFlight && Next(s, e).inFlight[r].fallback
    ensures r in s.inFlight && Next(s, e).inFlight[r].w == s.inFlight[r].w
    ensures s.inFlight[r].fallback || (e == GetMissed(r) && CanMiss(s, s.inFlight[r]))
  {
    if !Reads(e) { ReadsStay(s, e); }
  }

  predicate Reads(e: Event) { e.Register? || e.GetMissed? || e.Serve? || e.ReadFails? || e.TakeWatch? }

  lemma ReadsStay(s: World, e: Event)
    requires Enabled(s, e) && !Reads(e)
    ensures Next(s, e).inFlight == s.inFlight
  {
  }

  lemma StaysDataOnly(s: World, e: Event)
    requires Enabled(s, e) && DataOnly(s)
    ensures DataOnly(Next(s, e))
  {
    var t := Next(s, e);
    forall r | r in t.inFlight && t.inFlight[r].fallback ensures t.inFlight[r].w < |t.watches| && t.watches[t.inFlight[r].w].kind == Data {
      ReadsCome(s, e, r);
      WatchKeepsItsPath(s, e, s.inFlight[r].w);
    }
  }

  lemma {:induction false} EveryRunIsDataOnly(ws: seq<World>, es: seq<Event>, i: nat)
    requires History(ws, es) && i < |ws|
    ensures DataOnly(ws[i])
  {
    if i > 0 {
      EveryRunIsDataOnly(ws, es, i - 1);
      assert Enabled(ws[i - 1], es[i - 1]) && ws[i] == Next(ws[i - 1], es[i - 1]);
      StaysDataOnly(ws[i - 1], es[i - 1]);
    }
  }

  predicate AnswerIsPlain(s: World, w: nat) {
    w in s.log.answered && s.log.answered[w].read.fallback ==> w < |s.watches| && s.watches[w].kind == Data
  }

  lemma {:induction false} EveryAnswerIsPlain(ws: seq<World>, es: seq<Event>, i: nat, w: nat)
    requires History(ws, es) && i < |ws|
    ensures AnswerIsPlain(ws[i], w)
  {
    if i > 0 {
      EveryAnswerIsPlain(ws, es, i - 1, w);
      EveryRunIsDataOnly(ws, es, i - 1);
      assert Enabled(ws[i - 1], es[i - 1]) && ws[i] == Next(ws[i - 1], es[i - 1]);
      AnswerStaysPlain(ws[i - 1], es[i - 1], w);
    }
  }

  lemma AnswerStaysPlain(s: World, e: Event, w: nat)
    requires Enabled(s, e) && DataOnly(s) && AnswerIsPlain(s, w)
    ensures AnswerIsPlain(Next(s, e), w)
  {
    if Serves(s, e, w) {
      assert Next(s, e).log.answered[w].read == s.inFlight[e.id];
    } else {
      AnswersStay(s, e, w);
      if w < |s.watches| { WatchKeepsItsPath(s, e, w); }
    }
  }

  /** The last answer about the children of `w` is of a state that has gone. */
  predicate Outdated(s: World, w: nat) {
    && w < |s.watches| && s.watches[w].kind == Children && !Attended(s, w)
    && w in s.log.answered && s.log.answered[w].state.Present? && !s.log.answered[w].read.fallback
    && s.log.answered[w].state.stamp < Stamp(s.log, KeyOf(s.watches[w]))
  }

  lemma StampsGrow(s: World, e: Event, key: (Family, string))
    requires Enabled(s, e)
    ensures Stamp(s.log, key) <= Stamp(Next(s, e).log, key)
    ensures e.Change? && e.type_ == NodeDeleted && key == (OfChildren, e.path) ==> Stamp(s.log, key) < Stamp(Next(s, e).log, key)
  {
    if !e.Change? { StoreStays(s, e); }
  }

  lemma StaysOutdated(s: World, e: Event, w: nat)
    requires Enabled(s, e) && s.up && !s.connecting && Outdated(s, w) && Standing(s, w) && !Revives(s, e, w)
    ensures Outdated(Next(s, e), w)
  {
    NobodyComes(s, e, w);
    WatchKeepsItsPath(s, e, w);
    AnswersStay(s, e, w);
    StampsGrow(s, e, KeyOf(s.watches[w]));
  }

  lemma CutOutdates(s: World, e: Event, w: nat)
    requires Enabled(s, e) && Cuts(s, e, w) && AnswerIsPlain(s, w) && (Settled(s, w) || Outdated(s, w))
    ensures Outdated(Next(s, e), w)
  {
    NobodyComes(s, e, w);
    WatchKeepsItsPath(s, e, w);
    AnswersStay(s, e, w);
    StampsGrow(s, e, KeyOf(s.watches[w]));
  }

  /** A settled session was so before, as long as nothing disconnects. */
  lemma {:induction false} StoodBefore(ws: seq<World>, es: seq<Event>, i: nat, j: nat, w: nat)
    requires History(ws, es) && j < |ws| && CutOffAt(ws, es, i, j, w) && w < |ws[j].watches| && Standing(ws[j], w)
    ensures ws[j].up && !ws[j].connecting
    ensures i < j - 1 ==> w < |ws[j - 1].watches| && Standing(ws[j - 1], w) && CutOffAt(ws, es, i, j - 1, w)
    ensures i < j - 1 ==> !Revives(ws[j - 1], es[j - 1], w)
    decreases j
  {
    assert Enabled(ws[j - 1], es[j - 1]) && ws[j] == Next(ws[j - 1], es[j - 1]);
    if i < j - 1 {
      CutOffEarlier(ws, es, i, j, w);
      WatchKeepsItsPath(ws[j - 1], es[j - 1], w);
      StoodBefore(ws, es, i, j - 1, w);
    }
    StaysUp(ws[j - 1], es[j - 1]);
  }

  lemma CutOffEarlier(ws: seq<World>, es: seq<Event>, i: nat, j: nat, w: nat)
    requires |ws| == |es| + 1 && j < |ws| && i < j - 1 && CutOffAt(ws, es, i, j, w)
    ensures CutOffAt(ws, es, i, j - 1, w)
    ensures w < |ws[j - 1].watches| && !Revives(ws[j - 1], es[j - 1], w) && !es[j - 1].Disconnect?
  {
    assert StaysAlone(ws, es, j - 1, w);
  }

  lemma StaysUp(s: World, e: Event)
    requires Enabled(s, e) && s.up && !s.connecting && !e.Disconnect?
    ensures Next(s, e).up && !Next(s, e).connecting
  {
  }

  lemma {:induction false} CutOffIsOutdated(ws: seq<World>, es: seq<Event>, i: nat, j: nat, w: nat)
    requires History(ws, es) && j < |ws| && CutOffAt(ws, es, i, j, w) && w < |ws[j].watches| && Standing(ws[j], w)
    ensures Outdated(ws[j], w)
    decreases j, 0
  {
    assert Enabled(ws[j - 1], es[j - 1]) && ws[j] == Next(ws[j - 1], es[j - 1]);
    StoodBefore(ws, es, i, j, w);
    if i < j - 1 {
      CutOffIsOutdated(ws, es, i, j - 1, w);
      StoodBefore(ws, es, i, j - 1, w);
      StaysOutdated(ws[j - 1], es[j - 1], w);
    } else {
      CutBegins(ws, es, i, w);
    }
  }

  lemma {:induction false} CutBegins(ws: seq<World>, es: seq<Event>, i: nat, w: nat)
    requires History(ws, es) && i < |es| && Cuts(ws[i], es[i], w)
    ensures Outdated(ws[i + 1], w)
    decreases i, 1
  {
    assert Enabled(ws[i], es[i]) && ws[i + 1] == Next(ws[i], es[i]);
    AnswersAreKept(ws, es, i, w);
    EveryAnswerIsPlain(ws, es, i, w);
    if CutOff(ws, es, i, w) {
      var h: nat :| CutOffAt(ws, es, h, i, w);
      CutOffIsOutdated(ws, es, h, i, w);
    }
    CutOutdates(ws[i], es[i], w);
  }

  /** End to end: with the session up and nobody on the way to an active registration, what the server
      answered it last is what is there now, with exactly two exceptions: the answer was that of a data watch's second read, thrown away, and the node is there;
      or it was about the children of a node that was deleted under it. */
  lemma LastAnswerIsCurrent(ws: seq<World>, es: seq<Event>, j: nat, w: nat)
    requires History(ws, es) && j < |ws| && ws[j].up && !ws[j].connecting
    requires w < |ws[j].watches| && Standing(ws[j], w) && !Attended(ws[j], w)
    ensures w in ws[j].log.answered
    ensures Said(ws[j].log.answered[w]) == Current(ws[j], ws[j].watches[w])
       <==> !(ws[j].log.answered[w].read.fallback && ws[j].watches[w].path in ws[j].nodes) && !CutOff(ws, es, j, w)
  {
    AnswersAreKept(ws, es, j, w);
    if CutOff(ws, es, j, w) {
      var i: nat :| CutOffAt(ws, es, i, j, w);
      CutOffIsOutdated(ws, es, i, j, w);
    }
  }

  // ---- and what the caller was handed last --------------------------------------------------

  predicate Answering(s: World, w: nat) { exists r :: r in s.served && s.served[r].read.w == w }

  predicate ReadOf(s: World, r: nat, w: nat) {
    (r in s.inFlight && s.inFlight[r].w == w) || (r in s.served && s.served[r].read.w == w)
  }

  /** Reads of `w` do not overlap: the next is not sent while one is under way or its reply is. */
  ghost predicate OneAtATime(s: World, w: nat) { forall a, b :: ReadOf(s, a, w) && ReadOf(s, b, w) ==> a == b }

  /** A read is under way or answered, and not both. */
  predicate Apart(s: World) { forall r :: r in s.served ==> r < s.ids && r !in s.inFlight }

  /** The answers under way are the last ones. */
  predicate LastUnderWay(s: World, w: nat) {
    forall r :: r in s.served && s.served[r].read.w == w ==> w in s.log.answered && s.log.answered[w] == s.served[r]
  }

  predicate HandedLast(s: World, w: nat) { w in s.log.answered && w in s.log.given && s.log.given[w] == s.log.answered[w] }

  lemma ServedStays(s: World, e: Event)
    requires Enabled(s, e) && !Answers(e)
    ensures Next(s, e).served == s.served && Next(s, e).log.answered == s.log.answered && Next(s, e).log.given == s.log.given
  {
    if !e.Change? { LogStays(s, e); RepliesStay(s, e); }
  }

  lemma RepliesStay(s: World, e: Event)
    requires Enabled(s, e) && !e.Change? && !Answers(e)
    ensures Next(s, e).served == s.served
  {
  }

  lemma ReadsAreNumbered(s: World, e: Event, r: nat)
    requires Enabled(s, e)
    ensures s.ids <= Next(s, e).ids
    ensures r in Next(s, e).inFlight ==> r in s.inFlight || r == s.ids
  {
    if !Reads(e) { ReadsStay(s, e); IdsGrow(s, e); }
  }

  lemma IdsGrow(s: World, e: Event)
    requires Enabled(s, e) && !Reads(e)
    ensures s.ids <= Next(s, e).ids
  {
  }

  lemma StaysApart(s: World, e: Event)
    requires Enabled(s, e) && FreshIds(s) && Apart(s)
    ensures Apart(Next(s, e))
  {
    if !Answers(e) { ServedStays(s, e); }
    forall r | r in Next(s, e).served ensures r < Next(s, e).ids && r !in Next(s, e).inFlight {
      ReadsAreNumbered(s, e, r);
    }
  }

  lemma LastStaysUnderWay(s: World, e: Event, w: nat)
    requires Enabled(s, e) && LastUnderWay(s, w) && OneAtATime(s, w)
    ensures LastUnderWay(Next(s, e), w)
  {
    if !Answers(e) {
      ServedStays(s, e);
    } else if Serves(s, e, w) {
      assert ReadOf(s, e.id, w);
      forall r | r in Next(s, e).served && Next(s, e).served[r].read.w == w ensures r == e.id {
        assert r != e.id ==> ReadOf(s, r, w);
      }
    }
  }

  lemma AnswerGoesOn(s: World, e: Event, r: nat, w: nat)
    requires Enabled(s, e) && Apart(s) && LastUnderWay(s, w) && Answers(e) && r in s.served && s.served[r].read.w == w
    requires w < |s.watches| && Standing(s, w) && !Attended(s, w) && w < |Next(s, e).watches| && Standing(Next(s, e), w)
    ensures Attended(Next(s, e), w) || Answering(Next(s, e), w) || HandedLast(Next(s, e), w)
  {
    if e == ReplyLost(r) {
      LossAdds(s, r, w);
    } else if e != Reply(r) {
      assert r in Next(s, e).served && Next(s, e).served[r].read.w == w;
    }
  }

  lemma HandedGoesOn(s: World, e: Event, w: nat)
    requires Enabled(s, e) && FreshIds(s) && Apart(s) && LastUnderWay(s, w) && s.up && !s.connecting
    requires w < |s.watches| && Standing(s, w) && (Attended(s, w) || Answering(s, w) || HandedLast(s, w))
    requires Next(s, e).up && w < |Next(s, e).watches| && Standing(Next(s, e), w)
    ensures Attended(Next(s, e), w) || Answering(Next(s, e), w) || HandedLast(Next(s, e), w)
  {
    var t := Next(s, e);
    if Attended(s, w) {
      StaysAttended(s, e, w);
      if Serves(s, e, w) { assert t.served[e.id].read.w == w; }
    } else if !Answers(e) {
      ServedStays(s, e);
    } else if Answering(s, w) {
      var r :| r in s.served && s.served[r].read.w == w;
      AnswerGoesOn(s, e, r, w);
    } else {
      AnswersStay(s, e, w);
    }
  }

  /** Where its reads do not overlap, whoever watches was handed last what the server answered last. */
  lemma {:induction false} HandedInOrder(ws: seq<World>, es: seq<Event>, j: nat, w: nat)
    requires History(ws, es) && j < |ws| && forall k :: 0 <= k < j ==> OneAtATime(ws[k], w)
    ensures Apart(ws[j]) && LastUnderWay(ws[j], w)
    ensures ws[j].up && !ws[j].connecting && w < |ws[j].watches| && Standing(ws[j], w) ==>
      Attended(ws[j], w) || Answering(ws[j], w) || HandedLast(ws[j], w)
    decreases j
  {
    if j > 0 {
      var s, e := ws[j - 1], es[j - 1];
      assert Enabled(s, e) && ws[j] == Next(s, e);
      HandedInOrder(ws, es, j - 1, w);
      EveryRunIsFresh(ws, es, j - 1);
      StaysApart(s, e);
      LastStaysUnderWay(s, e, w);
      if ws[j].up && !ws[j].connecting && w < |ws[j].watches| && Standing(ws[j], w) { HandedStep(s, e, w); }
    }
  }

  lemma HandedStep(s: World, e: Event, w: nat)
    requires Enabled(s, e) && FreshIds(s) && Apart(s) && LastUnderWay(s, w)
    requires s.up && !s.connecting && w < |s.watches| && Standing(s, w) ==> Attended(s, w) || Answering(s, w) || HandedLast(s, w)
    requires Next(s, e).up && !Next(s, e).connecting && w < |Next(s, e).watches| && Standing(Next(s, e), w)
    ensures Attended(Next(s, e), w) || Answering(Next(s, e), w) || HandedLast(Next(s, e), w)
  {
    WasUp(s, e);
    if e.RearmAll? {
      ReconnectRecovers(s, w);
    } else if w < |s.watches| {
      WatchKeepsItsPath(s, e, w);
      HandedGoesOn(s, e, w);
    } else {
      RegisterAttends(s, e.kind, e.path, w);
    }
  }

  /** So with the session up and nobody and no answer on the way to an active registration whose reads do
      not overlap, what it was handed last is what is there now, with the same two exceptions. */
  lemma LastValueIsCurrent(ws: seq<World>, es: seq<Event>, j: nat, w: nat)
    requires History(ws, es) && j < |ws| && ws[j].up && !ws[j].connecting && forall k :: 0 <= k < j ==> OneAtATime(ws[k], w)
    requires w < |ws[j].watches| && Standing(ws[j], w) && !Attended(ws[j], w) && !Answering(ws[j], w)
    ensures w in ws[j].log.given
    ensures Said(ws[j].log.given[w]) == Current(ws[j], ws[j].watches[w])
       <==> !(ws[j].log.given[w].read.fallback && ws[j].watches[w].path in ws[j].nodes) && !CutOff(ws, es, j, w)
  {
    HandedInOrder(ws, es, j, w);
    LastAnswerIsCurrent(ws, es, j, w);
  }

  // ---- runs that reach the exceptions -------------------------------------------------------

  lemma Extend(ws: seq<World>, es: seq<Event>, e: Event)
    requires History(ws, es) && Enabled(ws[|es|], e)
    ensures History(ws + [Next(ws[|es|], e)], es + [e])
  {
    var vs, fs := ws + [Next(ws[|es|], e)], es + [e];
    forall i | 0 <= i < |fs| ensures Enabled(vs[i], fs[i]) && vs[i + 1] == Next(vs[i], fs[i]) {
      if i < |es| { assert vs[i] == ws[i] && vs[i + 1] == ws[i + 1] && fs[i] == es[i]; }
    }
  }

  /** A session comes up and one watch is registered, its read under way. */
  function Registering(nodes: set<string>, k: Kind, p: string): World {
    World(true, false, 1, 2, nodes, {}, [Watch(k, p, true, true)], map[0 := Job("", [], [])],
          map[1 := Read(0, true, false, 1)], map[], {}, Log(map[], map[], map[]))
  }

  lemma RegisteringIsReached(nodes: set<string>, k: Kind, p: string) returns (ws: seq<World>, es: seq<Event>)
    ensures History(ws, es) && |es| == 3 && ws[3] == Registering(nodes, k, p)
  {
    var s0 := Start(nodes);
    ws, es := [s0], [];
    var s1 := Next(s0, GoLive({}));
    Extend(ws, es, GoLive({}));
    ws, es := ws + [s1], es + [GoLive({})];
    var s2 := Next(s1, RearmAll);
    Extend(ws, es, RearmAll);
    ws, es := ws + [s2], es + [RearmAll];
    assert s2.jobs == map[0 := Job("", [], [])];
    Extend(ws, es, Register(k, p));
    ws, es := ws + [Next(s2, Register(k, p))], es + [Register(k, p)];
    assert ws[3].watches == [Watch(k, p, true, true)];
  }

  /** A change that is missed: a data watch on a node that is not there, created while its second read is
      on the way. The caller is handed "no node" by a read served after the node was made, the watch is
      armed, and nothing more is on its way to say otherwise. */
  lemma CreationIsMissed(p: string) returns (ws: seq<World>, es: seq<Event>)
    ensures History(ws, es) && |es| == 7 && es[3..] == [GetMissed(1), Change(p, NodeCreated), Serve(1), Reply(1)]
    ensures 0 < |ws[4].watches| && FallbackAlone(ws[4], 0, p, NodeCreated)
    ensures var s := ws[7];
      && 0 < |s.watches| && Standing(s, 0) && s.watches[0] == Watch(Data, p, true, true) && !Attended(s, 0) && s.served == map[]
      && 0 in s.log.given && Said(s.log.given[0]) == Absent && Current(s, s.watches[0]) == Present(1)
  {
    ws, es := FallbackIsReached(p);
    var s5 := Changed(FallingBack(p), p, NodeCreated);
    Extend(ws, es, Serve(1));
    var a := Answer(1, Read(0, true, true, 1), Present(1));
    var s6 := s5.(inFlight := map[], served := map[1 := a], armed := {(OfNode, p)}, log := Noted(s5.log, a));
    assert Next(s5, Serve(1)) == s6;
    ws, es := ws + [s6], es + [Serve(1)];
    Extend(ws, es, Reply(1));
    var s7 := s6.(served := map[], log := Handed(s6.log, a));
    assert Next(s6, Reply(1)) == s7;
    ws, es := ws + [s7], es + [Reply(1)];
  }

  /** Its second read is on the way. */
  function FallingBack(p: string): World { Registering({}, Data, p).(inFlight := map[1 := Read(0, true, true, 1)]) }

  lemma FallbackIsReached(p: string) returns (ws: seq<World>, es: seq<Event>)
    ensures History(ws, es) && |es| == 5 && es[3..] == [GetMissed(1), Change(p, NodeCreated)]
    ensures ws[4] == FallingBack(p) && ws[5] == Changed(FallingBack(p), p, NodeCreated) && FallbackAlone(ws[4], 0, p, NodeCreated)
  {
    ws, es := RegisteringIsReached({}, Data, p);
    var s3, s4 := Registering({}, Data, p), FallingBack(p);
    Extend(ws, es, GetMissed(1));
    assert Next(s3, GetMissed(1)) == s4 && s4.inFlight[1].w == 0;
    ws, es := ws + [s4], es + [GetMissed(1)];
    Extend(ws, es, Change(p, NodeCreated));
    ws, es := ws + [Changed(s4, p, NodeCreated)], es + [Change(p, NodeCreated)];
  }

  /** A child watch that was served, and whose children then changed. */
  function Overtaking(p: string): World {
    var a := Answer(1, Read(0, true, false, 1), Present(0));
    World(true, false, 1, 3, {p}, {}, [Watch(Children, p, true, true)], map[0 := Job("", [], []), 2 := Job(p, [Children], [])],
          map[], map[1 := a], {}, Log(map[(OfChildren, p) := 1], map[0 := a], map[]))
  }

  lemma OvertakingIsReached(p: string) returns (ws: seq<World>, es: seq<Event>)
    ensures History(ws, es) && |es| == 5 && es[3..] == [Serve(1), Change(p, NodeChildrenChanged)] && ws[5] == Overtaking(p)
  {
    ws, es := RegisteringIsReached({p}, Children, p);
    var s3 := Registering({p}, Children, p);
    Extend(ws, es, Serve(1));
    var a := Answer(1, Read(0, true, false, 1), Present(0));
    var s4 := s3.(inFlight := map[], served := map[1 := a], armed := {(OfChildren, p)}, log := Noted(s3.log, a));
    assert Next(s3, Serve(1)) == s4;
    ws, es := ws + [s4], es + [Serve(1)];
    Extend(ws, es, Change(p, NodeChildrenChanged));
    assert s4.armed * Hits(p, NodeChildrenChanged) == {(OfChildren, p)};
    assert Next(s4, Change(p, NodeChildrenChanged)) == Overtaking(p);
    ws, es := ws + [Overtaking(p)], es + [Change(p, NodeChildrenChanged)];
  }

  /** Reads that overlap: the first answer to a child watch is still under way when the children change and
      the dispatcher reads them again. Its callback has the new children before the caller that registered
      has the old ones, which are then the last thing handed over. */
  lemma OldAnswerComesLast(p: string) returns (ws: seq<World>, es: seq<Event>)
    ensures History(ws, es) && |es| == 10
    ensures es[3..] == [Serve(1), Change(p, NodeChildrenChanged), TakeKind(2), TakeWatch(2), Serve(3), Reply(3), Reply(1)]
    ensures var s := ws[10];
      && s.up && !s.connecting && 0 < |s.watches| && Standing(s, 0) && !Attended(s, 0) && !Answering(s, 0)
      && 0 in s.log.given && Said(s.log.given[0]) == Present(0) && Current(s, s.watches[0]) == Present(1)
  {
    ws, es := OvertakingIsReached(p);
    var s5 := Overtaking(p);
    var a := Answer(1, Read(0, true, false, 1), Present(0));
    Extend(ws, es, TakeKind(2));
    var s6 := s5.(jobs := map[0 := Job("", [], []), 2 := Job(p, [], [0])]);
    LookupOne(Children, p);
    assert [Children][1..] == [];
    assert Next(s5, TakeKind(2)).jobs == s6.jobs;
    ws, es := ws + [s6], es + [TakeKind(2)];
    Extend(ws, es, TakeWatch(2));
    var s7 := s5.(jobs := map[0 := Job("", [], []), 2 := Job(p, [], [])], ids := 4, inFlight := map[3 := Read(0, false, false, 1)]);
    assert [0][1..] == [];
    assert Advanced(s6, 2).jobs == s7.jobs;
    assert Next(s6, TakeWatch(2)).inFlight == s7.inFlight;
    ws, es := ws + [s7], es + [TakeWatch(2)];
    ws, es := OldAnswerFollows(p, ws, es, s7);
  }

  lemma LookupOne(k: Kind, p: string)
    ensures Lookup([Watch(k, p, true, true)], k, p, 1) == [0]
  {
    assert Lookup([Watch(k, p, true, true)], k, p, 0) == [];
  }

  lemma OldAnswerFollows(p: string, us: seq<World>, ds: seq<Event>, s7: World) returns (ws: seq<World>, es: seq<Event>)
    requires History(us, ds) && |ds| == 7 && us[7] == s7
    requires s7 == Overtaking(p).(jobs := map[0 := Job("", [], []), 2 := Job(p, [], [])], ids := 4, inFlight := map[3 := Read(0, false, false, 1)])
    ensures History(ws, es) && |es| == 10 && es == ds + [Serve(3), Reply(3), Reply(1)]
    ensures var s := ws[10];
      && s.up && !s.connecting && 0 < |s.watches| && Standing(s, 0) && !Attended(s, 0) && !Answering(s, 0)
      && 0 in s.log.given && Said(s.log.given[0]) == Present(0) && Current(s, s.watches[0]) == Present(1)
  {
    var a, b := Answer(1, Read(0, true, false, 1), Present(0)), Answer(3, Read(0, false, false, 1), Present(1));
    ws, es := us, ds;
    Extend(ws, es, Serve(3));
    var s8 := s7.(inFlight := map[], served := map[1 := a, 3 := b], armed := {(OfChildren, p)}, log := Noted(s7.log, b));
    assert Next(s7, Serve(3)) == s8;
    ws, es := ws + [s8], es + [Serve(3)];
    Extend(ws, es, Reply(3));
    var s9 := s8.(served := map[1 := a], log := Handed(s8.log, b));
    assert Next(s8, Reply(3)) == s9;
    ws, es := ws + [s9], es + [Reply(3)];
    Extend(ws, es, Reply(1));
    var s10 := s9.(served := map[], log := Handed(s9.log, a));
    assert Next(s9, Reply(1)) == s10;
    ws, es := ws + [s10], es + [Reply(1)];
  }

  /** A watch that is silenced: a child watch, armed and served, whose own node is deleted. */
  lemma DeletionSilences(p: string) returns (ws: seq<World>, es: seq<Event>)
    ensures History(ws, es) && |es| == 6 && es[5] == Change(p, NodeDeleted)
    ensures 0 < |ws[5].watches| && Covered(ws[5], 0) && Silent(ws[6], 0)
  {
    ws, es := WatchedIsReached(p);
    Extend(ws, es, Change(p, NodeDeleted));
    ws, es := ws + [Next(Watched(p), Change(p, NodeDeleted))], es + [Change(p, NodeDeleted)];
    CutIsSilent(Watched(p), Change(p, NodeDeleted), 0);
  }

  /** A child watch that is armed, its caller handed the children. */
  function Watched(p: string): World {
    var a := Answer(1, Read(0, true, false, 1), Present(0));
    Registering({p}, Children, p).(inFlight := map[], armed := {(OfChildren, p)}, log := Log(map[], map[0 := a], map[0 := a]))
  }

  lemma WatchedIsReached(p: string) returns (ws: seq<World>, es: seq<Event>)
    ensures History(ws, es) && |es| == 5 && ws[5] == Watched(p)
  {
    ws, es := RegisteringIsReached({p}, Children, p);
    var s3 := Registering({p}, Children, p);
    Extend(ws, es, Serve(1));
    var a := Answer(1, Read(0, true, false, 1), Present(0));
    var s4 := s3.(inFlight := map[], served := map[1 := a], armed := {(OfChildren, p)}, log := Noted(s3.log, a));
    assert Next(s3, Serve(1)) == s4;
    ws, es := ws + [s4], es + [Serve(1)];
    Extend(ws, es, Reply(1));
    assert Next(s4, Reply(1)) == Watched(p);
    ws, es := ws + [Watched(p)], es + [Reply(1)];
  }

  // ---- the registry object ----------------------------------------------------------------

  /** The list without the first occurrence of `w`. */
  function Without(list: seq<nat>, w: nat): seq<nat> {
    if list == [] then [] else if list[0] == w then list[1..] else [list[0]] + Without(list[1..], w)
  }

  lemma {:induction false} WithoutLast(list: seq<nat>, last: nat, w: nat)
    ensures Without(list + [last], w) == if w in list then Without(list, w) + [last] else if last == w then list else list + [last]
  {
    if list != [] {
      assert (list + [last])[1..] == list[1..] + [last];
      if list[0] != w { WithoutLast(list[1..], last, w); }
    } else {
      assert [last][1..] == [] && list + [last] == [last];
    }
  }

  lemma {:induction false} LookupStays(ws: seq<Watch>, more: seq<Watch>, k: Kind, p: string, n: nat)
    requires n <= |ws|
    ensures Lookup(ws + more, k, p, n) == Lookup(ws, k, p, n)
  {
    if n > 0 { LookupStays(ws, more, k, p, n - 1); }
  }

  lemma {:induction false} LookupOnly(ws: seq<Watch>, k: Kind, p: string, n: nat, w: nat)
    requires n <= |ws| && w in Lookup(ws, k, p, n)
    ensures w < n && ws[w].kind == k && ws[w].path == p
  {
    if w in Lookup(ws, k, p, n - 1) { LookupOnly(ws, k, p, n - 1, w); }
  }

  /** `vs` is `ws`, but for `w`, which is no longer registered. */
  predicate DropsOnly(ws: seq<Watch>, vs: seq<Watch>, w: nat) {
    && |ws| == |vs| && w < |ws| && !vs[w].registered
    && forall i :: 0 <= i < |ws| && i != w ==> vs[i] == ws[i]
  }

  lemma {:induction false} LookupDrops(ws: seq<Watch>, vs: seq<Watch>, w: nat, k: Kind, p: string, n: nat)
    requires DropsOnly(ws, vs, w) && n <= |ws|
    ensures Lookup(vs, k, p, n) == Without(Lookup(ws, k, p, n), w)
  {
    if n > 0 {
      var list := Lookup(ws, k, p, n - 1);
      LookupDrops(ws, vs, w, k, p, n - 1);
      if IsFor(ws[n - 1], k, p) {
        WithoutLast(list, n - 1, w);
        if w in list { LookupOnly(ws, k, p, n - 1, w); } else { WithoutAbsent(list, w); }
      }
    }
  }

  lemma LookupJoins(ws: seq<Watch>, x: Watch, k: Kind, p: string)
    ensures Lookup(ws + [x], k, p, |ws| + 1)
         == Lookup(ws, k, p, |ws|) + if x.registered && x.kind == k && x.path == p then [|ws|] else []
  {
    LookupStays(ws, [x], k, p, |ws|);
  }

  lemma {:induction false} WithoutAbsent(list: seq<nat>, w: nat)
    ensures w !in list ==> Without(list, w) == list
  {
    if list != [] { WithoutAbsent(list[1..], w); }
  }

  function Group(groups: map<(Kind, string), seq<nat>>, k: Kind, p: string): seq<nat> {
    if (k, p) in groups then groups[(k, p)] else []
  }

  /** Each group lists, in order, who is registered for its kind and path; no group is empty. */
  ghost predicate Lists(groups: map<(Kind, string), seq<nat>>, watches: seq<Watch>) {
    && (forall k, p :: Group(groups, k, p) == Lookup(watches, k, p, |watches|))
    && (forall key :: key in groups ==> groups[key] != [])
  }

  lemma JoinKeepsLists(groups: map<(Kind, string), seq<nat>>, ws: seq<Watch>, k: Kind, p: string)
    requires Lists(groups, ws)
    ensures Lists(groups[(k, p) := Group(groups, k, p) + [|ws|]], ws + [Watch(k, p, true, true)])
  {
    var after := groups[(k, p) := Group(groups, k, p) + [|ws|]];
    forall k', p' ensures Group(after, k', p') == Lookup(ws + [Watch(k, p, true, true)], k', p', |ws| + 1) {
      LookupJoins(ws, Watch(k, p, true, true), k', p');
      assert Group(groups, k', p') + [] == Group(groups, k', p');
    }
  }

  function Left(groups: map<(Kind, string), seq<nat>>, k: Kind, p: string, w: nat): map<(Kind, string), seq<nat>> {
    if Without(Group(groups, k, p), w) == [] then groups - {(k, p)}
    else groups[(k, p) := Without(Group(groups, k, p), w)]
  }

  lemma LeaveKeepsList(groups: map<(Kind, string), seq<nat>>, ws: seq<Watch>, vs: seq<Watch>, w: nat, k: Kind, p: string)
    requires DropsOnly(ws, vs, w) && Group(groups, k, p) == Lookup(ws, k, p, |ws|)
    ensures Group(Left(groups, ws[w].kind, ws[w].path, w), k, p) == Lookup(vs, k, p, |vs|)
  {
    LookupDrops(ws, vs, w, k, p, |ws|);
    if (k, p) != (ws[w].kind, ws[w].path) {
      var list := Group(groups, k, p);
      if w in list { LookupOnly(ws, k, p, |ws|, w); }
      WithoutAbsent(list, w);
    }
  }

  lemma LeaveKeepsLists(groups: map<(Kind, string), seq<nat>>, ws: seq<Watch>, vs: seq<Watch>, w: nat)
    requires Lists(groups, ws) && DropsOnly(ws, vs, w)
    ensures Lists(Left(groups, ws[w].kind, ws[w].path, w), vs)
  {
    forall k, p ensures Group(Left(groups, ws[w].kind, ws[w].path, w), k, p) == Lookup(vs, k, p, |vs|) {
      LeaveKeepsList(groups, ws, vs, w, k, p);
    }
  }

  class Registry {
    var groups: map<(Kind, string), seq<nat>>
    ghost var watches: seq<Watch>

    ghost predicate Valid()
      reads this
    {
      Lists(groups, watches)
    }

    constructor ()
      ensures Valid() && watches == []
    {
      groups, watches := map[], [];
    }

    /** A new watch joins the group of its kind and path. */
    method Register(w: nat, k: Kind, p: string)
      requires Valid() && w == |watches|
      modifies this
      ensures Valid() && watches == old(watches) + [Watch(k, p, true, true)]
    {
      JoinKeepsLists(groups, watches, k, p);
      groups := groups[(k, p) := Group(groups, k, p) + [w]];
      watches := watches + [Watch(k, p, true, true)];
    }

    /** A watch leaves its group, and an empty group leaves the registry. */
    method Unregister(w: nat, k: Kind, p: string)
      requires Valid() && w < |watches| && watches[w].kind == k && watches[w].path == p
      modifies this
      ensures Valid() && watches == old(watches)[w := old(watches)[w].(registered := false)]
    {
      ghost var after := watches[w := watches[w].(registered := false)];
      LeaveKeepsLists(groups, watches, after, w);
      watches := after;
      if (k, p) !in groups {
        assert groups - {(k, p)} == groups;
        return;
      }
      var rest := Without(groups[(k, p)], w);
      if rest == [] {
        groups := groups - {(k, p)};
      } else {
        groups := groups[(k, p) := rest];
      }
    }

    /** Who an event of this kind on this path is for. */
    method Registered(k: Kind, p: string) returns (list: seq<nat>)
      requires Valid()
      ensures list == Lookup(watches, k, p, |watches|)
    {
      assert Group(groups, k, p) == Lookup(watches, k, p, |watches|);
      list := if (k, p) in groups then groups[(k, p)] else [];
    }
  }
}
