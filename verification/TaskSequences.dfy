/** The per-component task sequence: a retrying claim on one shared counter row. */
module TaskSequences {
  import opened Common
  import opened Daruk

  // ---- one claimant ---------------------------------------------------------------------

  /** What the claimant's compare-and-swap call came back with. */
  datatype Reply = Unanswered | Won | Lost(current: Option<int>) | LostToJunk // refused by a value that is no number

  datatype Claimant = Trying(expected: Option<int>, left: nat) | Done(number: Option<int>)

  function Start(hint: Option<int>, attempts: int): Claimant {
    Trying(hint, if attempts < 1 then 1 else attempts)
  }

  function Proposed(expected: Option<int>): int {
    (if expected.Some? then expected.value else 0) + 1
  }

  /** A refusal carries the value that beat it; only a failure or an exhausted budget gives up. */
  function OnReply(c: Claimant, reply: Reply): Claimant
    requires c.Trying?
  {
    match reply
    case Unanswered => Done(None)
    case Won => Done(Some(Proposed(c.expected)))
    case Lost(current) => if c.left <= 1 then Done(None) else Trying(current, c.left - 1)
    case LostToJunk => Done(None)
  }

  /** A whole call, given the replies it would receive. */
  function Outcome(c: Claimant, replies: seq<Reply>): Option<int>
    requires c.Trying? ==> c.left <= |replies| && 0 < |replies|
    decreases |replies|
  {
    if c.Done? then c.number else Outcome(OnReply(c, replies[0]), replies[1..])
  }

  /** The retry loop, against the sequence of replies its environment gives. */
  method ClaimTaskSequence(hint: Option<int>, attempts: int, replies: seq<Reply>) returns (number: Option<int>)
    requires |replies| >= (if attempts < 1 then 1 else attempts)
    ensures number == Outcome(Start(hint, attempts), replies)
  {
    var expected := hint;
    var budget := if attempts < 1 then 1 else attempts;
    var i := 0;
    while i < budget
      invariant 0 <= i <= budget
      invariant i < budget ==> Outcome(Trying(expected, budget - i), replies[i..]) == Outcome(Start(hint, attempts), replies)
      invariant i == budget ==> Outcome(Start(hint, attempts), replies) == None
    {
      var proposed := (if expected.Some? then expected.value else 0) + 1;
      match replies[i] {
        case Unanswered => return None;
        case Won => return Some(proposed);
        case LostToJunk => return None;
        case Lost(current) => expected := current;
      }
      assert replies[i..][1..] == replies[i + 1..];
      i := i + 1;
    }
    number := None;
  }

  /** What the claimant expects at its attempt `i`: its hint, or what beat the attempt before. */
  function ExpectedAt(hint: Option<int>, replies: seq<Reply>, i: nat): Option<int>
    requires i <= |replies| && forall k :: 0 <= k < i ==> replies[k].Lost?
  {
    if i == 0 then hint else replies[i - 1].current
  }

  /** The call wins at its attempt `i`, having lost the ones before. */
  predicate WinsAt(replies: seq<Reply>, budget: nat, i: nat) {
    i < budget && i < |replies| && replies[i].Won? && forall k :: 0 <= k < i ==> replies[k].Lost?
  }

  /** A call returns a number exactly if some attempt within its budget wins and all before it were beaten,
      and then the number after what it expected there; every other run of replies returns none. */
  lemma {:induction false} OutcomeExactly(hint: Option<int>, budget: nat, replies: seq<Reply>)
    requires 0 < budget <= |replies|
    ensures Outcome(Trying(hint, budget), replies).Some? <==> exists i: nat :: WinsAt(replies, budget, i)
    ensures forall i: nat :: WinsAt(replies, budget, i) ==> Outcome(Trying(hint, budget), replies) == Some(Proposed(ExpectedAt(hint, replies, i)))
    decreases budget
  {
    if replies[0].Won? {
      assert WinsAt(replies, budget, 0);
    } else if replies[0].Lost? && budget > 1 {
      OutcomeExactly(replies[0].current, budget - 1, replies[1..]);
      WinsLater(hint, budget, replies);
      var rest, left := replies[1..], budget - 1;
      if exists i: nat :: WinsAt(rest, left, i) {
        var i: nat :| WinsAt(rest, left, i);
        assert WinsAt(replies, budget, i + 1);
      }
    }
  }

  lemma WinsLater(hint: Option<int>, budget: nat, replies: seq<Reply>)
    requires 1 < budget <= |replies| && replies[0].Lost?
    ensures forall i: nat :: WinsAt(replies, budget, i) <==> i > 0 && WinsAt(replies[1..], budget - 1, i - 1)
    ensures forall i: nat :: WinsAt(replies, budget, i) ==> ExpectedAt(hint, replies, i) == ExpectedAt(replies[0].current, replies[1..], i - 1)
  {
    assert forall k :: 0 < k < |replies| ==> replies[k] == replies[1..][k - 1];
  }

  // ---- any number of claimants ----------------------------------------------------------

  /** `takers[n - 1]` is the call whose swap left the counter at `n`. */
  datatype System = System(counter: Option<int>, calls: map<nat, Claimant>, takers: seq<nat>)

  datatype Action =
    | Begin(call: nat, hint: Option<int>, attempts: int)
    | Attempt(call: nat, arrives: bool, answered: bool)   // either leg of the exchange may be lost

  predicate Attempts(s: System, a: Action) {
    a.Attempt? && a.call in s.calls && s.calls[a.call].Trying? && a.arrives
  }

  function Act(s: System, a: Action): System {
    match a
    case Begin(call, hint, attempts) =>
      if call in s.calls then s else s.(calls := s.calls[call := Start(hint, attempts)])
    case Attempt(call, arrives, answered) =>
      if call !in s.calls || s.calls[call].Done? then s
      else
        var c := s.calls[call];
        if !arrives then s.(calls := s.calls[call := OnReply(c, Unanswered)])
        else if s.counter == c.expected then
          System(Some(Proposed(c.expected)), s.calls[call := OnReply(c, if answered then Won else Unanswered)], s.takers + [call])
        else s.(calls := s.calls[call := OnReply(c, if answered then Lost(s.counter) else Unanswered)])
  }

  function Acts(s: System, actions: seq<Action>): System {
    if actions == [] then s else Act(Acts(s, actions[..|actions| - 1]), actions[|actions| - 1])
  }

  /** The counter counts the swaps; a number is held only by the call whose swap took it; and the
      call that took it is finished, holding that number or nothing (its reply was lost: a gap). */
  predicate Sound(s: System) {
    && s.counter == (if s.takers == [] then None else Some(|s.takers|))
    && (forall c <- s.calls.Keys :: s.calls[c].Done? && s.calls[c].number.Some? ==>
          1 <= s.calls[c].number.value <= |s.takers| && s.takers[s.calls[c].number.value - 1] == c)
    && (forall n :: 0 <= n < |s.takers| ==>
          s.takers[n] in s.calls && (s.calls[s.takers[n]] == Done(None) || s.calls[s.takers[n]] == Done(Some(n + 1))))
  }

  lemma SwapKeepsSound(s: System, call: nat, answered: bool)
    requires Sound(s) && call in s.calls && s.calls[call].Trying? && s.counter == s.calls[call].expected
    ensures Sound(Act(s, Attempt(call, true, answered)))
  {
    assert call !in s.takers;
  }

  lemma ActKeepsSound(s: System, a: Action)
    requires Sound(s)
    ensures Sound(Act(s, a))
    ensures s.takers <= Act(s, a).takers && |Act(s, a).takers| <= |s.takers| + 1
  {
    if Attempts(s, a) && s.counter == s.calls[a.call].expected {
      SwapKeepsSound(s, a.call, a.answered);
    }
  }

  const FRESH := System(None, map[], [])

  /** Over every run from a component that has never claimed, the counter takes the values
      1, 2, 3, ... in order, one per applied swap. */
  lemma {:induction false} CounterCountsUp(actions: seq<Action>)
    ensures Sound(Acts(FRESH, actions))
  {
    if actions != [] {
      CounterCountsUp(actions[..|actions| - 1]);
      ActKeepsSound(Acts(FRESH, actions[..|actions| - 1]), actions[|actions| - 1]);
    }
  }

  /** Nothing but contention keeps a call from its number: one attempt that is answered takes the next where
      the call expects the counter as it stands, and otherwise teaches it the counter, after which another
      takes it. */
  lemma UndisturbedClaimWins(actions: seq<Action>, call: nat)
    requires call in Acts(FRESH, actions).calls && Acts(FRESH, actions).calls[call].Trying?
    ensures var s := Acts(FRESH, actions);
      var once := Act(s, Attempt(call, true, true));
      var number := Done(Some(|s.takers| + 1));
      && (once.calls[call] == number <==> s.counter == s.calls[call].expected)
      && (s.counter != s.calls[call].expected && s.calls[call].left > 1 ==> Act(once, Attempt(call, true, true)).calls[call] == number)
  {
    CounterCountsUp(actions);
  }

  /** No two calls return the same number, whatever hints they were given and whichever
      requests or replies were lost. */
  lemma NumbersAreNeverShared(actions: seq<Action>, c: nat, d: nat)
    requires var t := Acts(FRESH, actions); c in t.calls && d in t.calls && t.calls[c].Done? && t.calls[c] == t.calls[d] && t.calls[c].number.Some?
    ensures c == d
  {
    CounterCountsUp(actions);
  }

  // ---- the counter row ------------------------------------------------------------------

  function CounterKey(component: string): Key { Key(TaskSequence, Text(component)) }

  function Counter(db: Db, component: string): Value { Get(db, CounterKey(component), NextSequenceId) }

  function Optional(v: Option<int>): Value { if v.Some? then Int(v.value) else Null }

  function ClaimRequest(component: string, expected: Option<int>, now: int): Request {
    Request(ClaimSequence,
            JObject(map[Component := JText(component), NextSequenceId := JInt(Proposed(expected)),
                        ExpectedSequenceId := if expected.Some? then JInt(expected.value) else JNull]),
            now)
  }

  /** The endpoint's answer, as the caller's client library reports it. */
  function ReplyOf(answer: Answer): Reply {
    match answer
    case Applied => Won
    case Refused(current) =>
      if NextSequenceId !in current || current[NextSequenceId].Null? then Lost(None)
      else if current[NextSequenceId].Int? then Lost(Some(current[NextSequenceId].i))
      else LostToJunk
    case _ => Unanswered
  }

  lemma ClaimBinds(component: string, expected: Option<int>, now: int)
    ensures
      var ep, body := ClaimSequenceEndpoint(), ClaimRequest(component, expected, now).body;
      && Acceptable(ep, body)
      && Arg(ep, body, Component) == Text(component)
      && Arg(ep, body, NextSequenceId) == Int(Proposed(expected))
      && Arg(ep, body, ExpectedSequenceId) == Optional(expected)
  {
  }

  /** A claim swaps the counter exactly when it holds the expected value... */
  lemma ClaimSwaps(db: Db, component: string, expected: Option<int>, now: int)
    requires Permanent(db)
    ensures
      var (after, answer) := Call(db, ClaimRequest(component, expected, now));
      && answer.Applied? == (Counter(db, component) == Optional(expected))
      && Counter(after, component) == (if answer.Applied? then Int(Proposed(expected)) else Counter(db, component))
  {
    ClaimBinds(component, expected, now);
    SequenceSwaps();
    SwapsCounter(db, ClaimRequest(component, expected, now), ClaimSequenceEndpoint(), component);
  }

  lemma SequenceSwaps()
    ensures Swaps(ClaimSequenceEndpoint(), NextSequenceId, ExpectedSequenceId)
  {
  }

  lemma SwapsCounter(db: Db, r: Request, ep: Endpoint, component: string)
    requires Permanent(db) && ep == LwtOp(r.op) && Swaps(ep, NextSequenceId, ExpectedSequenceId) && Acceptable(ep, r.body)
    requires Target(ep, r.body) == CounterKey(component)
    ensures Applies(db, r) == (Counter(db, component) == Arg(ep, r.body, ExpectedSequenceId))
    ensures Counter(Call(db, r).0, component) == if Applies(db, r) then Arg(ep, r.body, NextSequenceId) else Counter(db, component)
  {
    SwapExecutes(db, r.now, ep, r.body, NextSequenceId, ExpectedSequenceId);
  }

  /** ...and a refusal reports the value that beat it. */
  lemma RefusalReports(db: Db, component: string, expected: Option<int>, now: int, current: Option<int>)
    requires Permanent(db) && Counter(db, component) == Optional(current) && current != expected
    ensures ReplyOf(Call(db, ClaimRequest(component, expected, now)).1) == Lost(current)
  {
    ClaimBinds(component, expected, now);
    GetIsRead(db, CounterKey(component), NextSequenceId, now);
  }

  /** Every other request leaves the counter alone. */
  lemma OthersKeepCounter(db: Db, r: Request, component: string)
    requires Permanent(db) && !(r.op == ClaimSequence && Subject(r) == Text(component))
    ensures Permanent(Call(db, r).0)
    ensures Counter(Call(db, r).0, component) == Counter(db, component)
  {
    SequenceOps(r.op);
    StaysPermanent(db, r.now, LwtOp(r.op), r.body);
    ColumnKept(db, r.now, LwtOp(r.op), r.body, CounterKey(component), NextSequenceId);
  }

  lemma SequenceOps(op: Op)
    ensures Lasting(LwtOp(op))
    ensures LwtOp(op).table == TaskSequence <==> op == ClaimSequence
  {
  }

  lemma ClaimKeepsPermanent(db: Db, component: string, expected: Option<int>, now: int)
    requires Permanent(db)
    ensures Permanent(Call(db, ClaimRequest(component, expected, now)).0)
  {
    SequenceOps(ClaimSequence);
    StaysPermanent(db, now, LwtOp(ClaimSequence), ClaimRequest(component, expected, now).body);
  }

  // ---- the store runs the machine --------------------------------------------------------

  predicate Holds(db: Db, component: string, s: System) {
    Permanent(db) && Counter(db, component) == Optional(s.counter)
  }

  /** Every attempt of the machine is one call of the endpoint: same counter, same reply. */
  lemma AttemptIsCall(db: Db, component: string, s: System, a: Action, now: int)
    requires Holds(db, component, s) && Attempts(s, a)
    ensures
      var (after, answer) := Call(db, ClaimRequest(component, s.calls[a.call].expected, now));
      && Holds(after, component, Act(s, a))
      && (a.answered ==> Act(s, a).calls[a.call] == OnReply(s.calls[a.call], ReplyOf(answer)))
  {
    ClaimSwaps(db, component, s.calls[a.call].expected, now);
    if s.counter != s.calls[a.call].expected {
      RefusalReports(db, component, s.calls[a.call].expected, now, s.counter);
    }
    ClaimKeepsPermanent(db, component, s.calls[a.call].expected, now);
  }

  function Sender(component: string): (System, Action, int) -> Option<Request> {
    (s, a, now) => if Attempts(s, a) then Some(ClaimRequest(component, s.calls[a.call].expected, now)) else None
  }

  function Holder(component: string): (Db, System) -> bool { (db, s) => Holds(db, component, s) }

  /** Anybody else's request: whatever it is, it is not a claim on this counter. */
  function Foreign(component: string): Request -> bool {
    (r: Request) => !(r.op == ClaimSequence && Subject(r) == Text(component))
  }

  lemma MachineUpheld(component: string)
    ensures Upheld(Holder(component), Foreign(component), Sender(component), Act)
  {
    forall db, s, item: Item<Action> | Holds(db, component, s) && (item.Other? ==> Foreign(component)(item.request))
      ensures Holds(Beside(db, s, item, Sender(component), Act).0, component, Beside(db, s, item, Sender(component), Act).1)
    {
      ItemIsUpheld(db, s, item, component);
    }
  }

  lemma ItemIsUpheld(db: Db, s: System, item: Item<Action>, component: string)
    requires Holds(db, component, s) && (item.Other? ==> Foreign(component)(item.request))
    ensures var (after, t) := Beside(db, s, item, Sender(component), Act); Holds(after, component, t)
  {
    match item
    case Mine(a, now) => if Attempts(s, a) { AttemptIsCall(db, component, s, a, now); }
    case Other(r) => OthersKeepCounter(db, r, component);
  }

  lemma {:induction false} MachineActs(db: Db, component: string, items: seq<Item<Action>>)
    ensures Together(db, FRESH, items, Sender(component), Act).1 == Acts(FRESH, OwnActs(items))
  {
    if items != [] {
      var n := |items| - 1;
      MachineActs(db, component, items[..n]);
      var own := OwnActs(items[..n]);
      if items[n].Mine? { assert (own + [items[n].act])[..|own|] == own; }
    }
  }

  /** Every run over the store: any claimants of the component, interleaved with any other requests, on a
      store where the component has never claimed. The counter in the store is the machine's, so it has
      counted every applied swap and nothing else, and no number is shared. */
  lemma StoreRunsMachine(db: Db, component: string, items: seq<Item<Action>>)
    requires Permanent(db) && Counter(db, component) == Null
    requires forall item <- items :: item.Other? ==> Foreign(component)(item.request)
    ensures var (after, s) := Together(db, FRESH, items, Sender(component), Act);
      s == Acts(FRESH, OwnActs(items)) && Sound(s) && Counter(after, component) == Optional(s.counter)
  {
    MachineUpheld(component);
    StaysUpheld(db, FRESH, items, Holder(component), Foreign(component), Sender(component), Act);
    MachineActs(db, component, items);
    CounterCountsUp(OwnActs(items));
  }
}
