/** The ZooKeeper client's request path: senders, the reader, timeouts, transport failure and
    reconnection, interleaved in every way the client's locks allow. */
module ZkRouting {
  import opened Common

  const XidWatchEvent := -1
  const XidPing := -2

  datatype Frame = Frame(xid: int, err: int, body: seq<int>)

  /** What wakes a parked request. */
  datatype Answer = Reply(frame: Frame) | Broken

  // ---- the client's own record, each change of which happens under its state lock ---------

  /** `pending` maps an xid to the waiter registered under it. */
  datatype Conn = Conn(xid: nat, alive: bool, sock: Option<nat>, pending: map<int, nat>)

  predicate MayRegister(c: Conn) { c.alive && c.sock.Some? }

  function Registered(c: Conn, waiter: nat, replies: bool): Conn {
    c.(xid := c.xid + 1, pending := if replies then c.pending[c.xid + 1 := waiter] else c.pending)
  }

  function Popped(c: Conn, xid: int): Conn { c.(pending := c.pending - {xid}) }

  /** The waiters registered on the map. */
  function Taken(c: Conn): set<nat> { set x | x in c.pending :: c.pending[x] }

  function Failed(c: Conn): Conn { c.(alive := false, pending := map[]) }

  // ---- everything that runs ---------------------------------------------------------------

  datatype Outcome = NoReplyWanted | SendRaised | TimedOut | Got(answer: Answer)

  datatype Phase = Sending | Parked | Returned(outcome: Outcome)

  /** One request. `session` is the socket the client held when the request registered. */
  datatype Waiter = Waiter(xid: int, session: nat, replies: bool, phase: Phase, answer: Option<Answer>)

  /** Where the one thread that may be inside `connect` stands. */
  datatype Connector = Idle | Dropping | Dropped | Opening(session: nat) | Starting(session: nat)

  /** `inHand` holds the waiters some thread has taken off the pending map and not yet woken;
      `readers` the reader threads not yet ended; `current` the session last brought up; `exits`
      counts how often each waiter has left the pending map. */
  datatype World = World(
    conn: Conn, waiters: seq<Waiter>, inHand: map<nat, Answer>, readers: set<nat>,
    connector: Connector, sessions: nat, current: nat, exits: multiset<nat>)

  const Start := World(Conn(0, false, None, map[]), [], map[], {}, Idle, 0, 0, multiset{})

  datatype Event =
    | Begin(replies: bool)            // a request registers, or is refused as not connected
    | SendDone(w: nat)
    | SendFail(w: nat)
    | Route(reader: nat, frame: Frame) // the reader takes a frame and looks its xid up
    | Wake(w: nat)                    // whoever took a waiter off the map sets its event
    | Return(w: nat)
    | TimeOut(w: nat)
    | Fail                            // the closer, the dispatcher or a drop fails the transport
    | ReaderEnds(reader: nat)         // every way out of the read loop fails the transport
    | CloseSent                       // the close message takes an xid and expects no reply
    | CloseSock
    | Drop                            // connect retires the old socket
    | DropFail
    | DropNothing                     // there was nothing to retire
    | GiveUp                          // no host took the connection
    | SetSock
    | GoLive                          // the new session is marked alive,
    | StartReader                     // and only then is its reader started

  predicate IsSending(s: World, w: nat) { w < |s.waiters| && s.waiters[w].phase == Sending }

  predicate IsParked(s: World, w: nat) { w < |s.waiters| && s.waiters[w].phase == Parked }

  predicate Enabled(s: World, e: Event) {
    match e
    case Begin(_) => true
    case SendDone(w) => IsSending(s, w) && s.conn.sock.Some?
    case SendFail(w) => IsSending(s, w)
    case Route(r, _) => r in s.readers
    case Wake(w) => w in s.inHand && w < |s.waiters|
    case Return(w) => IsParked(s, w) && s.waiters[w].answer.Some?
    case TimeOut(w) => IsParked(s, w) && s.waiters[w].answer.None?
    case Fail => true
    case ReaderEnds(r) => r in s.readers
    case CloseSent => s.conn.sock.Some?
    case CloseSock => true
    case Drop => s.connector == Idle
    case DropFail => s.connector == Dropping
    case DropNothing => s.connector == Idle && s.conn.sock.None? && s.readers == {}
    case GiveUp => s.connector == Dropped
    case SetSock => s.connector == Dropped
    case GoLive => s.connector.Opening?
    case StartReader => s.connector.Starting?
  }

  function SetPhase(s: World, w: nat, p: Phase): World
    requires w < |s.waiters|
  {
    s.(waiters := s.waiters[w := s.waiters[w].(phase := p)])
  }

  /** Take an xid off the pending map, if it is there. */
  function Pop(s: World, xid: int): World {
    s.(conn := Popped(s.conn, xid),
       exits := if xid in s.conn.pending then s.exits + multiset{s.conn.pending[xid]} else s.exits)
  }

  function FailAll(s: World): World {
    s.(conn := Failed(s.conn),
       inHand := s.inHand + (map w: nat | w in Taken(s.conn) :: Broken),
       exits := s.exits + multiset(Taken(s.conn)))
  }

  function RouteFrame(s: World, f: Frame): World {
    if f.xid == XidWatchEvent || f.xid == XidPing || f.xid !in s.conn.pending then s
    else Pop(s, f.xid).(inHand := s.inHand[s.conn.pending[f.xid] := Reply(f)])
  }

  function BeginRequest(s: World, replies: bool): World {
    if !MayRegister(s.conn) then s
    else s.(conn := Registered(s.conn, |s.waiters|, replies),
            waiters := s.waiters + [Waiter(s.conn.xid + 1, s.conn.sock.value, replies, Sending, None)])
  }

  function Next(s: World, e: Event): World
    requires Enabled(s, e)
  {
    match e
    case Begin(replies) => BeginRequest(s, replies)
    case SendDone(w) => SetPhase(s, w, if s.waiters[w].replies then Parked else Returned(NoReplyWanted))
    case SendFail(w) => Pop(SetPhase(s, w, Returned(SendRaised)), s.waiters[w].xid)
    case Route(_, f) => RouteFrame(s, f)
    case Wake(w) => s.(waiters := s.waiters[w := s.waiters[w].(answer := Some(s.inHand[w]))], inHand := s.inHand - {w})
    case Return(w) => SetPhase(s, w, Returned(Got(s.waiters[w].answer.value)))
    case TimeOut(w) => Pop(SetPhase(s, w, Returned(TimedOut)), s.waiters[w].xid)
    case Fail => FailAll(s)
    case ReaderEnds(r) => FailAll(s).(readers := s.readers - {r})
    case CloseSent => s.(conn := s.conn.(xid := s.conn.xid + 1))
    case CloseSock => s.(conn := s.conn.(sock := None))
    case Drop => s.(conn := s.conn.(sock := None), connector := Dropping)
    case DropFail => FailAll(s).(connector := Dropped)
    case DropNothing => s.(connector := Dropped)
    case GiveUp => s.(connector := Idle)
    case SetSock => s.(conn := s.conn.(sock := Some(s.sessions)), connector := Opening(s.sessions), sessions := s.sessions + 1)
    case GoLive => s.(conn := s.conn.(alive := true), connector := Starting(s.connector.session), current := s.connector.session)
    case StartReader => s.(connector := Idle, readers := s.readers + {s.connector.session})
  }

  /** A run of the client: each world follows from the one before by an enabled event. */
  predicate History(ws: seq<World>, es: seq<Event>) {
    && |ws| == |es| + 1
    && ws[0] == Start
    && forall i {:trigger es[i]} :: 0 <= i < |es| ==> Enabled(ws[i], es[i]) && ws[i + 1] == Next(ws[i], es[i])
  }

  // ---- what every step keeps --------------------------------------------------------------

  /** Later requests carry larger xids, whatever session they were made in. */
  predicate XidsIncrease(s: World) {
    && (forall i, j :: 0 <= i < j < |s.waiters| ==> s.waiters[i].xid < s.waiters[j].xid)
    && (forall i :: 0 <= i < |s.waiters| ==> 1 <= s.waiters[i].xid <= s.conn.xid)
  }

  /** What is registered under an xid is the request that issued it, still unanswered. */
  predicate PendingMatches(s: World) {
    forall x :: x in s.conn.pending ==> IsUnansweredAt(s, s.conn.pending[x], x)
  }

  predicate IsUnansweredAt(s: World, w: nat, xid: int) {
    && w < |s.waiters| && s.waiters[w].xid == xid && s.waiters[w].replies
    && s.waiters[w].answer.None? && w !in s.inHand
  }

  /** A dead connection has an empty pending map. */
  predicate DeadIsEmpty(s: World) { !s.conn.alive ==> s.conn.pending == map[] }

  predicate IsPending(s: World, w: nat) {
    w < |s.waiters| && s.waiters[w].xid in s.conn.pending && s.conn.pending[s.waiters[w].xid] == w
  }

  /** How often `w` must have left the pending map: once, unless it is on it or never was. */
  function Exits(s: World, w: nat): nat {
    if w < |s.waiters| && s.waiters[w].replies && !IsPending(s, w) then 1 else 0
  }

  /** Each request that wants a reply has left the pending map once, or is still on it. */
  ghost predicate LeavesOnce(s: World) { forall w: nat :: s.exits[w] == Exits(s, w) }

  predicate AnswersOwn(s: World, w: nat, a: Answer) {
    w < |s.waiters| && (a.Reply? ==> a.frame.xid == s.waiters[w].xid)
  }

  /** A reply reaches only the request that issued its xid. */
  predicate RepliesMatch(s: World) {
    && (forall w :: w in s.inHand ==> AnswersOwn(s, w, s.inHand[w]) && s.waiters[w].answer.None?)
    && (forall w: nat :: w < |s.waiters| && s.waiters[w].answer.Some? ==> AnswersOwn(s, w, s.waiters[w].answer.value))
    && (forall w: nat :: w < |s.waiters| ==> ReturnsItsAnswer(s.waiters[w]))
  }

  predicate ReturnsItsAnswer(w: Waiter) {
    w.phase.Returned? && w.phase.outcome.Got? ==> w.answer == Some(w.phase.outcome.answer)
  }

  /** A request still under way is on the map, in the hand of a thread that will wake it, or awake. */
  predicate SomebodyWakes(s: World) {
    forall w: nat :: w < |s.waiters| ==> Woken(s, w)
  }

  /** Somebody stands behind a session: its reader, or the connector about to start one. */
  predicate Attended(s: World, session: nat) { session in s.readers || s.connector == Starting(session) }

  /** A live connection has its own reader, or one about to be started, and only requests made on it are
      pending. */
  predicate ReaderStands(s: World) {
    && (s.conn.alive ==> Attended(s, s.current))
    && (s.conn.alive && s.conn.sock.Some? ==> s.conn.sock == Some(s.current))
    && (s.connector.Dropped? || s.connector.Opening? ==> !s.conn.alive)
    && (s.connector.Opening? && s.conn.sock.Some? ==> s.conn.sock == Some(s.connector.session))
    && (forall x :: x in s.conn.pending ==> s.conn.pending[x] < |s.waiters| && s.waiters[s.conn.pending[x]].session == s.current)
  }

  ghost predicate Sound(s: World) {
    && XidsIncrease(s) && PendingMatches(s) && DeadIsEmpty(s) && LeavesOnce(s)
    && RepliesMatch(s) && SomebodyWakes(s) && ReaderStands(s)
  }

  lemma StepXids(s: World, e: Event)
    requires Enabled(s, e) && XidsIncrease(s)
    ensures XidsIncrease(Next(s, e))
  {
  }

  lemma StepPending(s: World, e: Event)
    requires Enabled(s, e) && XidsIncrease(s) && PendingMatches(s) && RepliesMatch(s)
    ensures PendingMatches(Next(s, e))
  {
  }

  lemma StepDead(s: World, e: Event)
    requires Enabled(s, e) && DeadIsEmpty(s)
    ensures DeadIsEmpty(Next(s, e))
  {
  }

  lemma PopCounts(s: World, xid: int, w: nat)
    requires PendingMatches(s) && s.exits[w] == Exits(s, w)
    ensures Pop(s, xid).exits[w] == Exits(Pop(s, xid), w)
  {
  }

  /** What a failure takes off the map: the waiters registered on it. */
  lemma TakenArePending(s: World, w: nat)
    requires PendingMatches(s)
    ensures w in Taken(s.conn) <==> IsPending(s, w)
  {
    if w in Taken(s.conn) {
      var x :| x in s.conn.pending && s.conn.pending[x] == w;
      assert IsUnansweredAt(s, s.conn.pending[x], x);
    }
  }

  lemma FailCounts(s: World, w: nat)
    requires PendingMatches(s) && s.exits[w] == Exits(s, w)
    ensures FailAll(s).exits[w] == Exits(FailAll(s), w)
  {
    TakenArePending(s, w);
  }

  lemma BeginCounts(s: World, replies: bool, w: nat)
    requires PendingMatches(s) && XidsIncrease(s) && s.exits[w] == Exits(s, w)
    ensures BeginRequest(s, replies).exits[w] == Exits(BeginRequest(s, replies), w)
  {
  }

  lemma StepLeavesOf(s: World, e: Event, w: nat)
    requires Enabled(s, e) && XidsIncrease(s) && PendingMatches(s) && s.exits[w] == Exits(s, w)
    ensures Next(s, e).exits[w] == Exits(Next(s, e), w)
  {
    match e
    case Begin(replies) => BeginCounts(s, replies, w);
    case SendFail(v) => PopCounts(SetPhase(s, v, Returned(SendRaised)), s.waiters[v].xid, w);
    case TimeOut(v) => PopCounts(SetPhase(s, v, Returned(TimedOut)), s.waiters[v].xid, w);
    case Route(_, f) => PopCounts(s, f.xid, w);
    case Fail => FailCounts(s, w);
    case ReaderEnds(_) => FailCounts(s, w);
    case DropFail => FailCounts(s, w);
    case _ =>
  }

  lemma StepLeaves(s: World, e: Event)
    requires Enabled(s, e) && XidsIncrease(s) && PendingMatches(s) && LeavesOnce(s)
    ensures LeavesOnce(Next(s, e))
  {
    forall w: nat ensures Next(s, e).exits[w] == Exits(Next(s, e), w) {
      StepLeavesOf(s, e, w);
    }
  }

  lemma FailReplies(s: World)
    requires PendingMatches(s) && RepliesMatch(s)
    ensures RepliesMatch(FailAll(s))
  {
    forall w: nat ensures w in Taken(s.conn) <==> IsPending(s, w) {
      TakenArePending(s, w);
    }
  }

  lemma RouteReplies(s: World, f: Frame)
    requires PendingMatches(s) && RepliesMatch(s)
    ensures RepliesMatch(RouteFrame(s, f))
  {
  }

  lemma WakeReplies(s: World, w: nat)
    requires RepliesMatch(s) && Enabled(s, Wake(w))
    ensures RepliesMatch(Next(s, Wake(w)))
  {
  }

  lemma StepReplies(s: World, e: Event)
    requires Enabled(s, e) && PendingMatches(s) && RepliesMatch(s)
    ensures RepliesMatch(Next(s, e))
  {
    match e
    case Fail => FailReplies(s);
    case ReaderEnds(_) => FailReplies(s);
    case DropFail => FailReplies(s);
    case Route(_, f) => RouteReplies(s, f);
    case Wake(w) => WakeReplies(s, w);
    case _ =>
  }

  lemma StepWakes(s: World, e: Event)
    requires Enabled(s, e) && XidsIncrease(s) && PendingMatches(s) && SomebodyWakes(s)
    ensures SomebodyWakes(Next(s, e))
  {
    forall w: nat | w < |Next(s, e).waiters| ensures Woken(Next(s, e), w) { StepWakesOf(s, e, w); }
  }

  /** A request still under way is on the map, in hand or awake. */
  predicate Woken(s: World, w: nat)
    requires w < |s.waiters|
  {
    s.waiters[w].replies && !s.waiters[w].phase.Returned? ==> IsPending(s, w) || w in s.inHand || s.waiters[w].answer.Some?
  }

  lemma StepWakesOf(s: World, e: Event, w: nat)
    requires Enabled(s, e) && XidsIncrease(s) && PendingMatches(s) && w < |Next(s, e).waiters| && (w < |s.waiters| ==> Woken(s, w))
    ensures Woken(Next(s, e), w)
  {
    if FailsTransport(e) { TakenArePending(s, w); }
    else if Phases(e) { PhaseWakes(s, e, w); }
    else if e.Route? { RouteWakes(s, e.frame, w); }
  }

  lemma PhaseWakes(s: World, e: Event, w: nat)
    requires Enabled(s, e) && Phases(e) && XidsIncrease(s) && w < |s.waiters| && Woken(s, w)
    ensures w < |Next(s, e).waiters| && Woken(Next(s, e), w)
  {
  }

  lemma RouteWakes(s: World, f: Frame, w: nat)
    requires PendingMatches(s) && w < |s.waiters| && Woken(s, w)
    ensures Woken(RouteFrame(s, f), w)
  {
  }

  lemma StepReader(s: World, e: Event)
    requires Enabled(s, e) && ReaderStands(s) && DeadIsEmpty(s) && PendingMatches(s)
    ensures ReaderStands(Next(s, e))
  {
  }

  /** Every world any run reaches, whatever the interleaving, the frames and the failures. */
  lemma {:induction false} EveryRunIsSound(ws: seq<World>, es: seq<Event>, i: nat)
    requires History(ws, es) && i < |ws|
    ensures Sound(ws[i])
  {
    if i > 0 {
      EveryRunIsSound(ws, es, i - 1);
      var s, e := ws[i - 1], es[i - 1];
      StepXids(s, e);
      StepPending(s, e);
      StepDead(s, e);
      StepLeaves(s, e);
      StepReplies(s, e);
      StepWakes(s, e);
      StepReader(s, e);
    }
  }

  // ---- what that means for the callers ----------------------------------------------------

  /** The request is still there in `t`, with the xid it has in `s`, and the counter has not gone back. */
  predicate KeepsXid(s: World, t: World, w: nat) {
    w < |s.waiters| && w < |t.waiters| && t.waiters[w].xid == s.waiters[w].xid && s.conn.xid <= t.conn.xid
  }

  lemma StepKeepsXid(s: World, e: Event, t: World, w: nat)
    requires Enabled(s, e) && t == Next(s, e) && w < |s.waiters|
    ensures KeepsXid(s, t, w)
  {
  }

  /** A request keeps its place and its xid for good. */
  lemma {:induction false} RequestsKeepTheirXid(ws: seq<World>, es: seq<Event>, i: nat, j: nat, w: nat)
    requires History(ws, es) && i <= j < |ws| && w < |ws[i].waiters|
    ensures KeepsXid(ws[i], ws[j], w)
    decreases j
  {
    if i < j {
      RequestsKeepTheirXid(ws, es, i, j - 1, w);
      StepKeepsXid(ws[j - 1], es[j - 1], ws[j], w);
    }
  }

  /** An xid issued in any session is never issued again: a request registered at a later step, on
      this connection or any later one, carries a larger one. */
  lemma XidsAreNeverReused(ws: seq<World>, es: seq<Event>, i: nat, j: nat, w: nat, v: nat)
    requires History(ws, es) && i <= j < |ws| && w < |ws[i].waiters| && |ws[i].waiters| <= v < |ws[j].waiters|
    ensures ws[i].waiters[w].xid < ws[j].waiters[v].xid
  {
    RequestsKeepTheirXid(ws, es, i, j, w);
    EveryRunIsSound(ws, es, j);
  }

  /** The frame a request returns with carries the request's own xid, and no other request made in
      the whole run carries that xid. */
  lemma ReplyReachesItsRequest(ws: seq<World>, es: seq<Event>, i: nat, w: nat, f: Frame)
    requires History(ws, es) && i < |ws| && w < |ws[i].waiters|
    requires ws[i].waiters[w].phase == Returned(Got(Reply(f)))
    ensures f.xid == ws[i].waiters[w].xid && f.xid != XidWatchEvent && f.xid != XidPing
    ensures forall v: nat | v < |ws[i].waiters| && ws[i].waiters[v].xid == f.xid :: v == w
  {
    EveryRunIsSound(ws, es, i);
  }

  // ---- what becomes of a request ----------------------------------------------------------

  predicate IsReply(f: Frame) { f.xid != XidWatchEvent && f.xid != XidPing }

  predicate FailsTransport(e: Event) { e.Fail? || e.ReaderEnds? || e.DropFail? }

  /** The step takes `w` off the pending map to be woken with this: a frame with its reply, or a failure of
      the transport. */
  predicate TakesOff(s: World, e: Event, w: nat, a: Answer) {
    || (e.Route? && IsReply(e.frame) && e.frame.xid in s.conn.pending && s.conn.pending[e.frame.xid] == w && a == Reply(e.frame))
    || (FailsTransport(e) && w in Taken(s.conn) && a == Broken)
  }

  /** What a request has been woken with, or is about to be. */
  function Fate(s: World, w: nat): Option<Answer> {
    if w in s.inHand then Some(s.inHand[w]) else if w < |s.waiters| then s.waiters[w].answer else None
  }

  lemma FateChanges(s: World, e: Event, w: nat, a: Answer)
    requires Enabled(s, e) && PendingMatches(s) && RepliesMatch(s) && w < |s.waiters|
    ensures w < |Next(s, e).waiters|
    ensures Fate(Next(s, e), w) == Some(a) <==> Fate(s, w) == Some(a) || TakesOff(s, e, w, a)
  {
    StepKeepsXid(s, e, Next(s, e), w);
    if e.Route? {
      RouteFate(s, e.frame, w);
      if e.frame.xid in s.conn.pending { RouteUnanswered(s, e.frame); }
    }
    else if FailsTransport(e) { FailFate(s, w); FateReadsHand(FailAll(s), Next(s, e), w); }
    else if e.Wake? { WakeFate(s, e.w, w); }
    else if e.Begin? { BeginFate(s, e.replies, w); }
    else if Phases(e) { PhaseFate(s, e, w); }
    else { ConnFate(s, e, w); }
  }

  /** Steps that only move a request on. */
  predicate Phases(e: Event) { e.SendDone? || e.SendFail? || e.Return? || e.TimeOut? }

  lemma FateReadsHand(s: World, t: World, w: nat)
    requires t.inHand == s.inHand && t.waiters == s.waiters
    ensures Fate(t, w) == Fate(s, w)
  {
  }

  lemma RouteUnanswered(s: World, f: Frame)
    requires PendingMatches(s) && f.xid in s.conn.pending
    ensures Fate(s, s.conn.pending[f.xid]) == None
  {
    assert IsUnansweredAt(s, s.conn.pending[f.xid], f.xid);
  }

  lemma FailFate(s: World, w: nat)
    requires PendingMatches(s) && w < |s.waiters|
    ensures Fate(FailAll(s), w) == if w in Taken(s.conn) then Some(Broken) else Fate(s, w)
    ensures w in Taken(s.conn) ==> Fate(s, w) == None
  {
    TakenArePending(s, w);
    if w in Taken(s.conn) { assert IsUnansweredAt(s, s.conn.pending[s.waiters[w].xid], s.waiters[w].xid); }
  }

  lemma WakeFate(s: World, v: nat, w: nat)
    requires Enabled(s, Wake(v)) && w < |s.waiters|
    ensures Fate(Next(s, Wake(v)), w) == Fate(s, w)
  {
  }

  lemma BeginFate(s: World, replies: bool, w: nat)
    requires w < |s.waiters|
    ensures Fate(BeginRequest(s, replies), w) == Fate(s, w)
  {
  }

  lemma PhaseFate(s: World, e: Event, w: nat)
    requires Enabled(s, e) && Phases(e) && w < |s.waiters|
    ensures Fate(Next(s, e), w) == Fate(s, w)
  {
  }

  lemma ConnFate(s: World, e: Event, w: nat)
    requires Enabled(s, e) && !Phases(e) && !FailsTransport(e) && !e.Route? && !e.Wake? && !e.Begin?
    ensures Fate(Next(s, e), w) == Fate(s, w)
  {
    FateReadsHand(s, Next(s, e), w);
  }

  lemma RouteFate(s: World, f: Frame, w: nat)
    requires PendingMatches(s) && w < |s.waiters|
    ensures Fate(RouteFrame(s, f), w) ==
      if IsReply(f) && f.xid in s.conn.pending && s.conn.pending[f.xid] == w then Some(Reply(f)) else Fate(s, w)
  {
  }

  /** A request is woken with an answer, or about to be, exactly if some step took it off the pending map
      to be woken with it: with a frame if and only if the reader took that frame while the request was
      registered under its xid, and with a lost connection if and only if the transport failed while it
      was on the map. */
  lemma {:induction false} FateIsSealed(ws: seq<World>, es: seq<Event>, i: nat, w: nat, a: Answer)
    requires History(ws, es) && i < |ws| && w < |ws[i].waiters|
    ensures Fate(ws[i], w) == Some(a) <==> TakenOff(ws, es, i, w, a)
  {
    assert Enabled(ws[i - 1], es[i - 1]) && ws[i] == Next(ws[i - 1], es[i - 1]);
    if w < |ws[i - 1].waiters| {
      EveryRunIsSound(ws, es, i - 1);
      FateIsSealed(ws, es, i - 1, w, a);
      FateChanges(ws[i - 1], es[i - 1], w, a);
      TakenOffLater(ws, es, i, w, a);
    } else {
      NewHasNoFate(ws, es, i, w);
    }
  }

  /** Some step before world `i` took it off the map to be woken with this. */
  predicate TakenOff(ws: seq<World>, es: seq<Event>, i: nat, w: nat, a: Answer)
    requires i <= |es| < |ws|
  {
    exists k :: 0 <= k < i && TakesOff(ws[k], es[k], w, a)
  }

  lemma TakenOffLater(ws: seq<World>, es: seq<Event>, i: nat, w: nat, a: Answer)
    requires 0 < i <= |es| < |ws|
    ensures TakenOff(ws, es, i, w, a) <==> TakenOff(ws, es, i - 1, w, a) || TakesOff(ws[i - 1], es[i - 1], w, a)
  {
  }

  lemma NewHasNoFate(ws: seq<World>, es: seq<Event>, i: nat, w: nat)
    requires History(ws, es) && 0 < i < |ws| && |ws[i - 1].waiters| <= w < |ws[i].waiters|
    ensures Fate(ws[i], w) == None && forall a :: !TakenOff(ws, es, i, w, a)
  {
    EveryRunIsSound(ws, es, i - 1);
    assert Enabled(ws[i - 1], es[i - 1]) && ws[i] == Next(ws[i - 1], es[i - 1]);
    forall k, a | 0 <= k < i ensures !TakesOff(ws[k], es[k], w, a) {
      WaitersStay(ws, es, k, i - 1);
      EveryRunIsSound(ws, es, k);
      TakenArePending(ws[k], w);
    }
  }

  lemma {:induction false} WaitersStay(ws: seq<World>, es: seq<Event>, i: nat, j: nat)
    requires History(ws, es) && i <= j < |ws|
    ensures |ws[i].waiters| <= |ws[j].waiters|
    decreases j
  {
    if i < j && ws[i].waiters != [] { RequestsKeepTheirXid(ws, es, i, j, |ws[i].waiters| - 1); }
  }

  /** So whoever returns with an answer returns with the one it was taken off the map for. */
  lemma ReturnsItsFate(ws: seq<World>, es: seq<Event>, i: nat, w: nat, a: Answer)
    requires History(ws, es) && i < |ws| && w < |ws[i].waiters| && ws[i].waiters[w].phase == Returned(Got(a))
    ensures TakenOff(ws, es, i, w, a)
  {
    EveryRunIsSound(ws, es, i);
    FateIsSealed(ws, es, i, w, a);
  }

  /** And a parked request taken off the map can return with it, once it has been woken. */
  lemma FateCanReturn(ws: seq<World>, es: seq<Event>, i: nat, w: nat, k: nat, a: Answer)
    requires History(ws, es) && k < i < |ws| && TakesOff(ws[k], es[k], w, a) && IsParked(ws[i], w)
    ensures w in ws[i].inHand ==> Enabled(ws[i], Wake(w))
    ensures var s := if w in ws[i].inHand then Next(ws[i], Wake(w)) else ws[i];
      Enabled(s, Return(w)) && Next(s, Return(w)).waiters[w].phase == Returned(Got(a))
  {
    FateIsSealed(ws, es, i, w, a);
  }

  /** What the reader makes of a frame: a reply somebody waits for takes that waiter off the map and in hand
      with it, and changes nothing else; anything else changes nothing. */
  lemma FrameIsRouted(ws: seq<World>, es: seq<Event>, i: nat, f: Frame)
    requires History(ws, es) && i < |es| && es[i].Route? && es[i].frame == f
    ensures ws[i + 1].waiters == ws[i].waiters && ws[i + 1].conn == Popped(ws[i].conn, f.xid)
    ensures ws[i + 1].inHand == if f.xid in ws[i].conn.pending then ws[i].inHand[ws[i].conn.pending[f.xid] := Reply(f)] else ws[i].inHand
  {
    assert Enabled(ws[i], es[i]) && ws[i + 1] == Next(ws[i], es[i]);
    EveryRunIsSound(ws, es, i);
    if f.xid in ws[i].conn.pending { assert IsUnansweredAt(ws[i], ws[i].conn.pending[f.xid], f.xid); }
    else { assert Popped(ws[i].conn, f.xid).pending == ws[i].conn.pending; }
  }

  /** Registering, giving up and failing are what the client object does to its own record. */
  lemma StepsAreTheClients(s: World, e: Event)
    requires Enabled(s, e)
    ensures e.Begin? ==> Next(s, e).conn == if MayRegister(s.conn) then Registered(s.conn, |s.waiters|, e.replies) else s.conn
    ensures e.SendFail? || e.TimeOut? ==> Next(s, e).conn == Popped(s.conn, s.waiters[e.w].xid)
    ensures FailsTransport(e) ==> Next(s, e).conn == Failed(s.conn) && forall w <- Taken(s.conn) :: Fate(Next(s, e), w) == Some(Broken)
  {
  }

  /** No parked request is left with nobody to wake it: it is in some thread's hand, or its own session's
      reader stands or is about to be started, and that reader's end takes it in hand. */
  lemma NobodyIsForgotten(ws: seq<World>, es: seq<Event>, i: nat, w: nat)
    requires History(ws, es) && i < |ws| && IsParked(ws[i], w) && ws[i].waiters[w].answer.None?
    requires ws[i].waiters[w].replies
    ensures var s := ws[i];
      w in s.inHand ||
      (IsPending(s, w) && s.conn.alive && Attended(s, s.waiters[w].session) && w in FailAll(s).inHand)
  {
    EveryRunIsSound(ws, es, i);
    assert Woken(ws[i], w);
    TakenArePending(ws[i], w);
  }

  // ---- a request that goes well -----------------------------------------------------------

  lemma Extend(ws: seq<World>, es: seq<Event>, e: Event)
    requires History(ws, es) && Enabled(ws[|es|], e)
    ensures History(ws + [Next(ws[|es|], e)], es + [e])
  {
    var vs, fs := ws + [Next(ws[|es|], e)], es + [e];
    forall i | 0 <= i < |fs| ensures Enabled(vs[i], fs[i]) && vs[i + 1] == Next(vs[i], fs[i]) {
      if i < |es| { assert vs[i] == ws[i] && vs[i + 1] == ws[i + 1] && fs[i] == es[i]; }
    }
  }

  /** A first session, up, with its reader. */
  const Connected := World(Conn(0, true, Some(0), map[]), [], map[], {0}, Idle, 1, 0, multiset{})

  /** Its socket is there, and it is not alive yet. */
  const Handshaken := World(Conn(0, false, Some(0), map[]), [], map[], {}, Opening(0), 1, 0, multiset{})

  lemma HandshakenIsReached() returns (ws: seq<World>, es: seq<Event>)
    ensures History(ws, es) && es == [DropNothing, SetSock] && ws[2] == Handshaken
  {
    ws, es := [Start], [];
    Extend(ws, es, DropNothing);
    var s1 := Start.(connector := Dropped);
    ws, es := ws + [s1], es + [DropNothing];
    Extend(ws, es, SetSock);
    assert Next(s1, SetSock) == Handshaken;
    ws, es := ws + [Handshaken], es + [SetSock];
  }

  lemma ConnectedIsReached() returns (ws: seq<World>, es: seq<Event>)
    ensures History(ws, es) && es == [DropNothing, SetSock, GoLive, StartReader] && ws[4] == Connected
  {
    ws, es := HandshakenIsReached();
    Extend(ws, es, GoLive);
    var s3 := World(Conn(0, true, Some(0), map[]), [], map[], {}, Starting(0), 1, 0, multiset{});
    assert Next(Handshaken, GoLive) == s3;
    ws, es := ws + [s3], es + [GoLive];
    Extend(ws, es, StartReader);
    assert Next(s3, StartReader) == Connected;
    ws, es := ws + [Connected], es + [StartReader];
  }

  /** From nothing to an answer: connect, register, send, the reply with the request's own xid, and the
      request returns with that frame. */
  lemma RequestIsAnswered(f: Frame) returns (ws: seq<World>, es: seq<Event>)
    requires f.xid == 1
    ensures History(ws, es) && |es| == 9 && es[4..] == [Begin(true), SendDone(0), Route(0, f), Wake(0), Return(0)]
    ensures ws[9].waiters == [Waiter(1, 0, true, Returned(Got(Reply(f))), Some(Reply(f)))] && ws[9].conn.pending == map[]
  {
    ws, es := ConnectedIsReached();
    Extend(ws, es, Begin(true));
    var w := Waiter(1, 0, true, Sending, None);
    var s5 := Connected.(conn := Conn(1, true, Some(0), map[1 := 0]), waiters := [w]);
    assert Next(Connected, Begin(true)) == s5;
    ws, es := ws + [s5], es + [Begin(true)];
    Extend(ws, es, SendDone(0));
    var s6 := s5.(waiters := [w.(phase := Parked)]);
    assert Next(s5, SendDone(0)) == s6;
    ws, es := ws + [s6], es + [SendDone(0)];
    ws, es := AnswerFollows(f, ws, es, s6);
  }

  lemma AnswerFollows(f: Frame, us: seq<World>, ds: seq<Event>, s6: World) returns (ws: seq<World>, es: seq<Event>)
    requires f.xid == 1 && History(us, ds) && |ds| == 6 && us[6] == s6
    requires s6 == Connected.(conn := Conn(1, true, Some(0), map[1 := 0]), waiters := [Waiter(1, 0, true, Parked, None)])
    ensures History(ws, es) && es == ds + [Route(0, f), Wake(0), Return(0)]
    ensures ws[9].waiters == [Waiter(1, 0, true, Returned(Got(Reply(f))), Some(Reply(f)))] && ws[9].conn.pending == map[]
  {
    ws, es := us, ds;
    Extend(ws, es, Route(0, f));
    var s7 := s6.(conn := Conn(1, true, Some(0), map[]), inHand := map[0 := Reply(f)], exits := multiset{0});
    assert Next(s6, Route(0, f)) == s7;
    ws, es := ws + [s7], es + [Route(0, f)];
    Extend(ws, es, Wake(0));
    var s8 := s7.(inHand := map[], waiters := [Waiter(1, 0, true, Parked, Some(Reply(f)))]);
    assert Next(s7, Wake(0)) == s8;
    ws, es := ws + [s8], es + [Wake(0)];
    Extend(ws, es, Return(0));
    ws, es := ws + [Next(s8, Return(0))], es + [Return(0)];
  }

  // ---- the client object ------------------------------------------------------------------

  /** What a sender parks on: set once, by whoever takes it off the pending map. */
  class Slot {
    const id: nat
    var answer: Option<Answer>

    constructor (id: nat)
      ensures this.id == id && answer == None
    {
      this.id := id;
      answer := None;
    }
  }

  class Client {
    var xid: nat
    var alive: bool
    var sock: Option<nat>
    var pending: map<int, Slot>

    ghost predicate Valid()
      reads this
    {
      && (forall x :: x in pending ==> 1 <= x <= xid)
      && (forall x, y :: x in pending && y in pending && x != y ==> pending[x] != pending[y])
    }

    function View(): Conn
      reads this
    {
      Conn(xid, alive, sock, map x | x in pending :: pending[x].id)
    }

    constructor ()
      ensures Valid() && View() == Start.conn
    {
      xid, alive, sock, pending := 0, false, None, map[];
    }

    /** The part of a request done under the state lock, before a byte is sent. */
    method Register(id: nat, replies: bool) returns (r: Result<int, string>, slot: Slot)
      requires Valid()
      modifies this
      ensures Valid() && fresh(slot) && slot.id == id && slot.answer == None
      ensures r.Ok? == MayRegister(old(View()))
      ensures r.Ok? ==> r.value == xid && View() == Registered(old(View()), id, replies)
      ensures r.Ok? && replies ==> xid in pending && pending[xid] == slot
      ensures r.Err? ==> View() == old(View())
    {
      slot := new Slot(id);
      if !alive || sock.None? {
        r := Err("not connected");
        return;
      }
      xid := xid + 1;
      if replies {
        pending := pending[xid := slot];
      }
      r := Ok(xid);
    }

    /** A request that timed out, or whose bytes could not be sent, takes itself off the map. */
    method Abandon(x: int)
      requires Valid()
      modifies this
      ensures Valid() && View() == Popped(old(View()), x)
    {
      pending := pending - {x};
    }

    /** The reader's body: events and pings go elsewhere, a reply nobody waits for is dropped. */
    method Route(f: Frame) returns (woken: Option<Slot>)
      requires Valid()
      modifies this, pending.Values
      ensures Valid() && View() == Popped(old(View()), f.xid)
      ensures woken == if f.xid in old(pending) then Some(old(pending)[f.xid]) else None
      ensures woken.Some? ==> woken.value.answer == Some(Reply(f))
      ensures forall s <- old(pending.Values) :: woken != Some(s) ==> s.answer == old(s.answer)
    {
      woken := None;
      if f.xid == XidWatchEvent || f.xid == XidPing {
        return;
      }
      if f.xid in pending {
        var slot := pending[f.xid];
        pending := pending - {f.xid};
        slot.answer := Some(Reply(f));
        woken := Some(slot);
      }
    }

    /** Marks the connection dead, empties the map and wakes everybody who was on it. */
    method FailTransport() returns (wasAlive: bool)
      requires Valid()
      modifies this, pending.Values
      ensures Valid() && View() == Failed(old(View())) && wasAlive == old(alive)
      ensures forall s <- old(pending.Values) :: s.answer == Some(Broken)
    {
      wasAlive := alive;
      alive := false;
      var waiters := pending.Values;
      pending := map[];
      var left := waiters;
      while left != {}
        invariant left <= waiters
        invariant View() == Failed(old(View())) && pending == map[]
        invariant forall s <- waiters :: s !in left ==> s.answer == Some(Broken)
        decreases |left|
      {
        var slot :| slot in left;
        slot.answer := Some(Broken);
        left := left - {slot};
      }
    }

    /** `connect`, once a host has accepted the session. */
    method GoLive(session: nat)
      requires Valid()
      modifies this
      ensures Valid() && View() == old(View()).(sock := Some(session), alive := true)
    {
      sock := Some(session);
      alive := true;
    }
  }
}
