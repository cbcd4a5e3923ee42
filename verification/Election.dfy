/** Candidacies for one service, standing and standing again across any number of sessions. Reads of
    the children are linearised: each sees the state it is evaluated against. */
module Election {
  import opened Common
  import opened Ballots

  /** Where a call of `leading` stands: not running; past its ballot check and about to read; told
      that it does not lead and about to ask whether it still stands. */
  datatype Phase = Idle | Asking | Doubting

  /** `client` is the session the candidacy holds, `ballot` the counter of the ballot it remembers. */
  datatype Candidate = Candidate(client: Option<nat>, ballot: Option<nat>, phase: Phase)

  const Dropped := Candidate(None, None, Idle)

  /** `nodes` maps each ballot standing under the parent to the session it is tied to; `counter` is
      the parent's; `live` the sessions the ensemble still knows. */
  datatype World = World(nodes: map<nat, nat>, counter: nat, live: set<nat>, sessions: nat, cands: seq<Candidate>)

  datatype Event =
    | Refused(c: nat)                     // no session: blocked, or no host took the connection
    | Open(c: nat)                        // a fresh session; an old one is never resumed
    | Stand(c: nat)
    | StandFails(c: nat, created: bool)   // the reply may be lost after the ballot was made
    | Begin(c: nat)
    | Read(c: nat)
    | ReadFails(c: nat)
    | Recheck(c: nat)
    | RecheckFails(c: nat)
    | Withdraw(c: nat, deleted: bool)     // the delete may fail; the ballot is forgotten either way
    | Close(c: nat, deleted: bool)
    | SessionEnds(session: nat)
    | Removed(ballot: nat)                // somebody else deletes a ballot
    | Joins                               // a new candidacy comes into being

  predicate At(s: World, c: nat, p: Phase) { c < |s.cands| && s.cands[c].phase == p }

  predicate Connected(s: World, c: nat)
    requires c < |s.cands|
  {
    s.cands[c].client.Some? && s.cands[c].client.value in s.live
  }

  predicate Enabled(s: World, e: Event) {
    match e
    case Refused(c) => At(s, c, Idle) && s.cands[c].ballot.None? && s.cands[c].client.None?
    case Open(c) => At(s, c, Idle) && s.cands[c].ballot.None? && s.cands[c].client.None?
    case Stand(c) => At(s, c, Idle) && s.cands[c].ballot.None? && Connected(s, c)
    case StandFails(c, created) =>
      At(s, c, Idle) && s.cands[c].ballot.None? && s.cands[c].client.Some? && (created ==> Connected(s, c))
    case Begin(c) => At(s, c, Idle) && s.cands[c].ballot.Some?
    case Read(c) => At(s, c, Asking) && Connected(s, c)
    case ReadFails(c) => At(s, c, Asking)
    case Recheck(c) => At(s, c, Doubting) && Connected(s, c)
    case RecheckFails(c) => At(s, c, Doubting)
    case Withdraw(c, deleted) => At(s, c, Idle) && (deleted ==> Connected(s, c))
    case Close(c, deleted) => At(s, c, Idle) && (deleted ==> Connected(s, c))
    case SessionEnds(x) => x in s.live
    case Removed(b) => b in s.nodes
    case Joins => true
  }

  /** The candidate holds a ballot that is standing and is the lowest: what a read answers. */
  predicate Leads(s: World, c: nat) {
    && c < |s.cands| && s.cands[c].ballot.Some? && s.cands[c].ballot.value in s.nodes
    && forall k :: k in s.nodes ==> s.cands[c].ballot.value <= k
  }

  predicate StillStands(s: World, c: nat) {
    c < |s.cands| && s.cands[c].ballot.Some? && s.cands[c].ballot.value in s.nodes
  }

  function Put(s: World, c: nat, x: Candidate): World
    requires c < |s.cands|
  {
    s.(cands := s.cands[c := x])
  }

  function SetPhase(s: World, c: nat, p: Phase): World
    requires c < |s.cands|
  {
    Put(s, c, s.cands[c].(phase := p))
  }

  /** The ensemble names a new ballot and ties it to the session. */
  function Created(s: World, session: nat): World {
    s.(nodes := s.nodes[s.counter := session], counter := s.counter + 1)
  }

  function Forgotten(s: World, c: nat, deleted: bool): World
    requires c < |s.cands|
  {
    var x := s.cands[c];
    Put(if deleted && x.ballot.Some? then s.(nodes := s.nodes - {x.ballot.value}) else s, c, x.(ballot := None))
  }

  function Next(s: World, e: Event): World
    requires Enabled(s, e)
  {
    match e
    case Refused(c) => Put(s, c, Dropped)
    case Open(c) => Put(s, c, s.cands[c].(client := Some(s.sessions))).(sessions := s.sessions + 1, live := s.live + {s.sessions})
    case Stand(c) =>
      Put(Created(s, s.cands[c].client.value), c, s.cands[c].(ballot := Some(s.counter), phase := Asking))
    case StandFails(c, created) =>
      Put(if created then Created(s, s.cands[c].client.value) else s, c, Dropped)
    case Begin(c) => SetPhase(s, c, Asking)
    case Read(c) => SetPhase(s, c, if Leads(s, c) then Idle else Doubting)
    case ReadFails(c) => SetPhase(s, c, Doubting)
    case Recheck(c) => if StillStands(s, c) then SetPhase(s, c, Idle) else Put(s, c, Dropped)
    case RecheckFails(c) => Put(s, c, Dropped)
    case Withdraw(c, deleted) => Forgotten(s, c, deleted)
    case Close(c, deleted) => Put(Forgotten(s, c, deleted), c, Dropped)
    case SessionEnds(x) => s.(live := s.live - {x}, nodes := map k | k in s.nodes && s.nodes[k] != x :: s.nodes[k])
    case Removed(b) => s.(nodes := s.nodes - {b})
    case Joins => s.(cands := s.cands + [Dropped])
  }

  /** What the caller of `leading` is told at this step, if the call ends here. */
  function Answer(s: World, e: Event): Option<bool> {
    match e
    case Refused(_) => Some(false)
    case StandFails(_, _) => Some(false)
    case Read(c) => if Leads(s, c) then Some(true) else None
    case Recheck(_) => Some(false)
    case RecheckFails(_) => Some(false)
    case _ => None
  }

  predicate By(e: Event, c: nat) { !e.SessionEnds? && !e.Removed? && !e.Joins? && e.c == c }

  const Start := World(map[], 0, {}, 0, [])

  predicate History(ws: seq<World>, es: seq<Event>) {
    && |ws| == |es| + 1
    && ws[0] == Start
    && forall i :: 0 <= i < |es| ==> Enabled(ws[i], es[i]) && ws[i + 1] == Next(ws[i], es[i])
  }

  // ---- what every step keeps --------------------------------------------------------------

  /** Every ballot standing or remembered was numbered below the counter, and no two candidacies
      remember the same one. A call under way has a ballot. */
  predicate Numbered(s: World) {
    && (forall k :: k in s.nodes ==> k < s.counter)
    && (forall c :: 0 <= c < |s.cands| && s.cands[c].ballot.Some? ==> s.cands[c].ballot.value < s.counter)
    && (forall c :: 0 <= c < |s.cands| && s.cands[c].phase != Idle ==> s.cands[c].ballot.Some?)
  }

  predicate OwnBallots(s: World) {
    forall c, d :: 0 <= c < d < |s.cands| && s.cands[c].ballot.Some? ==> s.cands[c].ballot != s.cands[d].ballot
  }

  lemma StepNumbered(s: World, e: Event)
    requires Enabled(s, e) && Numbered(s)
    ensures Numbered(Next(s, e))
  {
  }

  lemma StepOwn(s: World, e: Event)
    requires Enabled(s, e) && Numbered(s) && OwnBallots(s)
    ensures OwnBallots(Next(s, e))
  {
  }

  lemma {:induction false} EveryRunIsNumbered(ws: seq<World>, es: seq<Event>, i: nat)
    requires History(ws, es) && i < |ws|
    ensures Numbered(ws[i]) && OwnBallots(ws[i])
  {
    if i > 0 {
      EveryRunIsNumbered(ws, es, i - 1);
      StepNumbered(ws[i - 1], es[i - 1]);
      StepOwn(ws[i - 1], es[i - 1]);
    }
  }

  /** At most one candidacy leads, in every state any run reaches. */
  lemma AtMostOneLeads(ws: seq<World>, es: seq<Event>, i: nat, c: nat, d: nat)
    requires History(ws, es) && i < |ws| && Leads(ws[i], c) && Leads(ws[i], d)
    ensures c == d
  {
    EveryRunIsNumbered(ws, es, i);
  }

  /** A read answers True exactly when it finds the caller's own ballot lowest; nothing else does; and
      whoever else asks in that state is not answered True. */
  lemma OnlyTheLeaderIsToldSo(ws: seq<World>, es: seq<Event>, i: nat, c: nat)
    requires History(ws, es) && i < |es| && By(es[i], c)
    ensures Answer(ws[i], es[i]) == Some(true) <==> es[i].Read? && Leads(ws[i], c)
    ensures Answer(ws[i], es[i]) == Some(true) ==>
      forall d: nat :: d != c && Enabled(ws[i], Read(d)) ==> Answer(ws[i], Read(d)) != Some(true)
  {
    if Leads(ws[i], c) {
      forall d: nat | Leads(ws[i], d) ensures d == c { AtMostOneLeads(ws, es, i, c, d); }
    }
  }

  /** When a session ends its ballots go with it, and whoever then holds the lowest left leads, and is
      told so when it next asks. */
  lemma SuccessorLeads(ws: seq<World>, es: seq<Event>, i: nat, d: nat)
    requires History(ws, es) && i < |es| && es[i].SessionEnds? && StillStands(ws[i], d)
    requires ws[i].nodes[ws[i].cands[d].ballot.value] != es[i].session
    ensures Leads(ws[i + 1], d) <==>
      forall k :: k in ws[i].nodes && k < ws[i].cands[d].ballot.value ==> ws[i].nodes[k] == es[i].session
    ensures Leads(ws[i + 1], d) && Enabled(ws[i + 1], Read(d)) ==> Answer(ws[i + 1], Read(d)) == Some(true)
  {
    assert Enabled(ws[i], es[i]) && ws[i + 1] == Next(ws[i], es[i]);
    assert forall k :: k in ws[i + 1].nodes <==> k in ws[i].nodes && ws[i].nodes[k] != es[i].session;
  }

  /** Whoever stands where nobody does leads, and its first read tells it so. */
  lemma FirstToStandLeads(ws: seq<World>, es: seq<Event>, i: nat, c: nat)
    requires History(ws, es) && i < |es| && es[i] == Stand(c)
    ensures Leads(ws[i + 1], c) <==> ws[i].nodes == map[]
    ensures Enabled(ws[i + 1], Read(c)) && (Answer(ws[i + 1], Read(c)) == Some(true) <==> ws[i].nodes == map[])
  {
    assert Enabled(ws[i], es[i]) && ws[i + 1] == Next(ws[i], es[i]);
    NewBallotIsLast(ws, es, i);
    if ws[i].nodes != map[] {
      var k :| k in ws[i].nodes;
      assert k in ws[i + 1].nodes;
    }
  }

  /** Any candidacy that has given up its session can go on to stand: nothing keeps it out. */
  lemma AnyoneCanStand(s: World, c: nat)
    requires c < |s.cands| && s.cands[c] == Dropped && s.sessions !in s.live
    ensures Enabled(s, Open(c)) && Enabled(Next(s, Open(c)), Stand(c))
    ensures var t := Next(Next(s, Open(c)), Stand(c));
      StillStands(t, c) && t.cands[c].client == Some(s.sessions) && t.nodes == s.nodes[s.counter := s.sessions] && Enabled(t, Read(c))
  {
  }

  /** A new ballot is numbered above every ballot then standing, so it stands at the back. */
  lemma NewBallotIsLast(ws: seq<World>, es: seq<Event>, i: nat)
    requires History(ws, es) && i < |es| && es[i].Stand?
    ensures var mine := ws[i + 1].cands[es[i].c].ballot;
      && mine.Some? && mine.value in ws[i + 1].nodes
      && (forall k :: k in ws[i].nodes ==> k < mine.value)
      && (forall c :: 0 <= c < |ws[i].cands| && ws[i].cands[c].ballot.Some? ==> ws[i].cands[c].ballot.value < mine.value)
  {
    EveryRunIsNumbered(ws, es, i);
  }

  // ---- a lost ballot ----------------------------------------------------------------------

  lemma GoneStaysGone(s: World, e: Event, k: nat)
    requires Enabled(s, e) && k < s.counter && k !in s.nodes
    ensures k < Next(s, e).counter && k !in Next(s, e).nodes
  {
  }

  /** Without standing again, a candidacy remembers the ballot it lost or none at all. */
  predicate OnlyRemembers(s: World, c: nat, k: nat) {
    && c < |s.cands| && (s.cands[c].ballot.None? || s.cands[c].ballot == Some(k))
    && k < s.counter && k !in s.nodes
  }

  predicate StandsAgain(e: Event, c: nat) { e.Stand? && e.c == c }

  lemma StepRemembers(s: World, e: Event, c: nat, k: nat)
    requires Enabled(s, e) && OnlyRemembers(s, c, k) && !StandsAgain(e, c)
    ensures OnlyRemembers(Next(s, e), c, k)
  {
    GoneStaysGone(s, e, k);
  }

  lemma {:induction false} RemembersOnly(ws: seq<World>, es: seq<Event>, i: nat, j: nat, c: nat, k: nat)
    requires History(ws, es) && i <= j < |ws| && OnlyRemembers(ws[i], c, k)
    requires forall m :: i <= m < j ==> !StandsAgain(es[m], c)
    ensures OnlyRemembers(ws[j], c, k)
    decreases j
  {
    if i < j {
      RemembersOnly(ws, es, i, j - 1, c, k);
      StepRemembers(ws[j - 1], es[j - 1], c, k);
    }
  }

  predicate LostBallot(s: World, c: nat, k: nat) {
    c < |s.cands| && s.cands[c].ballot == Some(k) && k !in s.nodes
  }

  /** From the moment its ballot is gone until it stands again, a candidacy is never told it leads. */
  lemma NeverLeadsOnALostBallot(ws: seq<World>, es: seq<Event>, i: nat, j: nat, c: nat, k: nat)
    requires History(ws, es) && i <= j < |es| && LostBallot(ws[i], c, k)
    requires forall m :: i <= m < j ==> !StandsAgain(es[m], c)
    ensures By(es[j], c) ==> Answer(ws[j], es[j]) != Some(true)
  {
    EveryRunIsNumbered(ws, es, i);
    RemembersOnly(ws, es, i, j, c, k);
  }

  /** The step tells the caller False, or is the caller giving the ballot up itself. */
  predicate LetsGo(s: World, e: Event, c: nat) {
    By(e, c) && (Answer(s, e) == Some(false) || e.Withdraw? || e.Close?)
  }

  lemma BallotGoesOnlyByLettingGo(s: World, e: Event, c: nat)
    requires Enabled(s, e) && c < |s.cands| && s.cands[c].ballot.Some? && Next(s, e).cands[c].ballot.None?
    ensures LetsGo(s, e, c)
    ensures StillStands(s, c) ==> e.RecheckFails? || e.Withdraw? || e.Close?
  {
  }

  lemma {:induction false} ToldBeforeForgetting(ws: seq<World>, es: seq<Event>, i: nat, j: nat, c: nat)
    requires History(ws, es) && i <= j < |ws| && c < |ws[i].cands| && ws[i].cands[c].ballot.Some?
    requires c < |ws[j].cands| && ws[j].cands[c].ballot.None?
    ensures exists m :: i <= m < j && LetsGo(ws[m], es[m], c)
    decreases j
  {
    if i < j {
      CandidatesStay(ws, es, i, j - 1);
      if ws[j - 1].cands[c].ballot.None? {
        ToldBeforeForgetting(ws, es, i, j - 1, c);
      } else {
        BallotGoesOnlyByLettingGo(ws[j - 1], es[j - 1], c);
      }
    }
  }

  lemma {:induction false} CandidatesStay(ws: seq<World>, es: seq<Event>, i: nat, j: nat)
    requires History(ws, es) && i <= j < |ws|
    ensures |ws[i].cands| <= |ws[j].cands|
    decreases j
  {
    if i < j {
      CandidatesStay(ws, es, i, j - 1);
      StepGrows(ws[j - 1], es[j - 1]);
    }
  }

  lemma StepGrows(s: World, e: Event)
    requires Enabled(s, e)
    ensures |s.cands| <= |Next(s, e).cands|
  {
  }

  /** A candidacy that lost its ballot answers False, or is withdrawn by its own process, before it
      creates another; and the other is numbered above everything then standing. */
  lemma LostBallotIsReportedFirst(ws: seq<World>, es: seq<Event>, i: nat, j: nat, c: nat, k: nat)
    requires History(ws, es) && i <= j < |es| && LostBallot(ws[i], c, k) && StandsAgain(es[j], c)
    ensures exists m :: i <= m < j && LetsGo(ws[m], es[m], c)
    ensures forall x :: x in ws[j].nodes ==> x < ws[j + 1].cands[c].ballot.value
  {
    ToldBeforeForgetting(ws, es, i, j, c);
    NewBallotIsLast(ws, es, j);
  }

  // ---- the daemon's object ----------------------------------------------------------------

  const RetrySeconds := 5.0

  /** The answer of one read of the children: nothing when the ensemble could not be asked. */
  predicate SaysLowest(children: Option<seq<string>>, ballot: string) {
    children.Some? && ballot in children.value && LowestBallot(children.value) == Some(ballot)
  }

  predicate SaysStanding(children: Option<seq<string>>, ballot: string) {
    children.Some? && ballot in children.value
  }

  /** The children the ensemble lists in this state, in any order. */
  ghost predicate Listing(s: World, children: seq<string>) {
    forall c :: c in children <==> exists k :: k in s.nodes && c == BallotName(k)
  }

  /** What the object concludes from names is what the state says: its first read answers whether it
      leads, its second whether it still stands. */
  lemma NamesTellTheState(s: World, c: nat, children: seq<string>)
    requires c < |s.cands| && s.cands[c].ballot.Some? && Listing(s, children)
    ensures SaysStanding(Some(children), BallotName(s.cands[c].ballot.value)) <==> StillStands(s, c)
    ensures SaysLowest(Some(children), BallotName(s.cands[c].ballot.value)) <==> Leads(s, c)
  {
    var k := s.cands[c].ballot.value;
    if BallotName(k) in children {
      var j :| j in s.nodes && BallotName(k) == BallotName(j);
      NameReadsBack(k);
      NameReadsBack(j);
      SmallestCounterWins(children, s.nodes.Keys, k);
    }
  }

  predicate Blocked(client: Option<nat>, blockedUntil: real, now: real) { client.None? && now < blockedUntil }

  /** There is a session to stand on: one already held, or one that may be asked for and is given. */
  predicate CanStand(client: Option<nat>, blockedUntil: real, now: real, session: Option<nat>) {
    client.Some? || (now >= blockedUntil && session.Some?)
  }

  class Candidacy {
    var client: Option<nat>
    var ballot: Option<string>
    var blockedUntil: real

    constructor ()
      ensures client == None && ballot == None && blockedUntil == 0.0
    {
      client, ballot, blockedUntil := None, None, 0.0;
    }

    /** Forgets the session and the ballot, and waits before it connects again. */
    method Drop(now: real)
      modifies this
      ensures client == None && ballot == None && blockedUntil == now + RetrySeconds
    {
      client, ballot := None, None;
      blockedUntil := now + RetrySeconds;
    }

    method Session(now: real, session: Option<nat>) returns (ok: bool)
      modifies this
      ensures old(client).Some? || (old(client).None? && now < old(blockedUntil)) ==>
        client == old(client) && ballot == old(ballot) && blockedUntil == old(blockedUntil)
      ensures old(client).None? && now >= old(blockedUntil) ==> client == session
      ensures old(client).None? && now >= old(blockedUntil) ==>
        blockedUntil == if session.None? then now + RetrySeconds else old(blockedUntil)
      ensures ok == client.Some?
      ensures ballot == old(ballot) || ballot == None
      ensures ok ==> ballot == old(ballot)
    {
      if client.Some? { return true; }
      if now < blockedUntil { return false; }
      if session.None? {
        Drop(now);
        return false;
      }
      client := session;
      return true;
    }

    /** Makes sure there is a ballot. One already remembered is kept, standing or not. */
    method Ballot(now: real, session: Option<nat>, stood: Option<string>) returns (ok: bool)
      modifies this
      ensures ok == ballot.Some?
      ensures !ok ==> client == None
      ensures old(ballot).Some? ==> ballot == old(ballot) && client == old(client) && blockedUntil == old(blockedUntil)
      ensures old(ballot).None? ==> ok == (stood.Some? && CanStand(old(client), old(blockedUntil), now, session))
      ensures old(ballot).None? && ok ==>
        ballot == stood && client == (if old(client).Some? then old(client) else session) && blockedUntil == old(blockedUntil)
      ensures old(ballot).None? && !ok ==> blockedUntil == if Blocked(old(client), old(blockedUntil), now) then old(blockedUntil) else now + RetrySeconds
    {
      if ballot.Some? { return true; }
      var connected := Session(now, session);
      if !connected { return false; }
      if stood.None? {
        Drop(now);
        return false;
      }
      ballot := stood;
      return true;
    }

    /** Whether this process leads. `first` and `second` are the reads `is_leader` and `standing` get. */
    method Leading(now: real, session: Option<nat>, stood: Option<string>,
                   first: Option<seq<string>>, second: Option<seq<string>>) returns (leads: bool)
      modifies this
      // True only of the ballot it now holds, on a read that has it lowest.
      ensures leads ==> ballot.Some? && first.Some? && IsLowest(first.value, ballot.value)
      // A call that began with a ballot and saw it lowest answers True; one that did not, False.
      ensures old(ballot).Some? ==> leads == SaysLowest(first, old(ballot).value)
      // It never takes a new ballot in the call that began with one.
      ensures old(ballot).Some? ==> ballot == old(ballot) || ballot == None
      // The ballot is given up, and the session with it, exactly when neither read saw it standing.
      ensures old(ballot).Some? ==>
        (ballot == None <==> !SaysLowest(first, old(ballot).value) && !SaysStanding(second, old(ballot).value))
      ensures ballot == None ==> !leads && client == None
      ensures ballot.Some? ==> leads == SaysLowest(first, ballot.value)
      ensures old(ballot).Some? && ballot.Some? ==> client == old(client) && blockedUntil == old(blockedUntil)
      ensures old(ballot).Some? && ballot == None ==> blockedUntil == now + RetrySeconds
      // A call that began without one stands if it can, and answers by what its read says of the new ballot.
      ensures old(ballot).None? ==>
        leads == (stood.Some? && CanStand(old(client), old(blockedUntil), now, session) && SaysLowest(first, stood.value))
      ensures old(ballot).None? ==>
        ballot == if stood.Some? && CanStand(old(client), old(blockedUntil), now, session) &&
                     (SaysLowest(first, stood.value) || SaysStanding(second, stood.value)) then stood else None
    {
      var has := Ballot(now, session, stood);
      if !has { return false; }
      leads := SaysLowest(first, ballot.value);
      if leads { LowestBallotWins(first.value); }
      if !leads && !SaysStanding(second, ballot.value) {
        Drop(now);
      }
    }

    /** Gives the ballot up and keeps the session. */
    method Withdraw()
      modifies this
      ensures ballot == None && client == old(client) && blockedUntil == old(blockedUntil)
    {
      ballot := None;
    }
  }
}
