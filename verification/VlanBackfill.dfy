/** Giving every VLAN a network already carries a claim, from any number of nodes at once. */
module VlanBackfill {
  import opened Common
  import Ordering
  import opened Daruk

  /** A network row. `vlan` is what the row's JSON holds: a number, nothing, or junk. */
  datatype Vlan = Tagged(id: int) | Untagged | NotANumber

  datatype Network = Network(netId: string, name: string, vlan: Vlan)

  type Claims = map<int, string>

  predicate Carries(n: Network, v: int) { n.vlan == Tagged(v) }

  /** Some network of the table carries the VLAN. */
  predicate Carried(nets: seq<Network>, v: int) { exists i :: 0 <= i < |nets| && Carries(nets[i], v) }

  /** The holder every node must agree on: the lowest net_id carrying the VLAN. */
  ghost predicate Lowest(nets: seq<Network>, v: int, id: string) {
    && (exists i :: 0 <= i < |nets| && Carries(nets[i], v) && nets[i].netId == id)
    && (forall i :: 0 <= i < |nets| && Carries(nets[i], v) ==> Ordering.AtMost(id, nets[i].netId))
  }

  lemma LowestIsUnique(nets: seq<Network>, v: int, a: string, b: string)
    requires Lowest(nets, v, a) && Lowest(nets, v, b)
    ensures a == b
  {
    Ordering.Antisymmetric(a, b);
  }

  /** The network the backfill picks for a VLAN, scanning its carriers. */
  function Winner(nets: seq<Network>, v: int): Option<string> {
    if nets == [] then None
    else
      var rest := Winner(nets[1..], v);
      if !Carries(nets[0], v) then rest
      else if rest.None? || Ordering.AtMost(nets[0].netId, rest.value) then Some(nets[0].netId)
      else rest
  }

  lemma {:induction false} WinnerIsLowest(nets: seq<Network>, v: int)
    ensures Winner(nets, v).Some? <==> Carried(nets, v)
    ensures Winner(nets, v).Some? ==> Lowest(nets, v, Winner(nets, v).value)
  {
    if nets != [] {
      WinnerIsLowest(nets[1..], v);
      var w, rest := Winner(nets, v), Winner(nets[1..], v);
      assert forall i :: 0 < i < |nets| ==> nets[i] == nets[1..][i - 1];
      if rest.Some? {
        var k :| 0 <= k < |nets[1..]| && Carries(nets[1..][k], v) && nets[1..][k].netId == rest.value;
        assert Carries(nets[k + 1], v) && nets[k + 1].netId == rest.value;
      }
      if w.Some? {
        forall i | 0 <= i < |nets| && Carries(nets[i], v) ensures Ordering.AtMost(w.value, nets[i].netId) {
          Ordering.Total(nets[0].netId, nets[0].netId);
          if rest.Some? && i > 0 {
            assert Carries(nets[1..][i - 1], v);
            Ordering.Total(nets[0].netId, rest.value);
            if w != rest {
              Ordering.Transitive(w.value, rest.value, nets[i].netId);
            }
          } else if rest.Some? {
            Ordering.Total(nets[0].netId, rest.value);
          }
        }
      }
    }
  }

  // ---- any number of backfills, interleaved ---------------------------------------------

  /** One backfill in progress: the VLANs it has still to settle, whether it was refused the
      first of them and is about to read back who holds it, what it has reported, and the VLANs
      whose holder it could not read back. */
  datatype Worker = Worker(todo: seq<int>, refused: bool, reported: set<(int, string)>, blind: set<int>)

  datatype Cluster = Cluster(claims: Claims, workers: map<nat, Worker>)

  datatype Action =
    | Begin(w: nat, todo: seq<int>)
    | Claim(w: nat)
    | ReadBack(w: nat, answered: bool)

  /** The networks that carry `v` under another id than the holder's. */
  function Losers(nets: seq<Network>, v: int, holder: string): set<(int, string)> {
    set i | 0 <= i < |nets| && Carries(nets[i], v) && nets[i].netId != holder :: (v, nets[i].netId)
  }

  function Settle(w: Worker, nets: seq<Network>, holder: string, read: bool): Worker
    requires w.todo != []
  {
    Worker(w.todo[1..], false, w.reported + Losers(nets, w.todo[0], holder), if read then w.blind else w.blind + {w.todo[0]})
  }

  /** The VLANs in use, each once: what a backfill's read of the networks gives it to do. */
  ghost predicate Plan(nets: seq<Network>, todo: seq<int>) {
    && (forall v :: v in todo <==> Carried(nets, v))
    && (forall i, j :: 0 <= i < j < |todo| ==> todo[i] != todo[j])
  }

  function Act(c: Cluster, nets: seq<Network>, a: Action): Cluster {
    match a
    case Begin(w, todo) => if w in c.workers then c else c.(workers := c.workers[w := Worker(todo, false, {}, {})])
    case Claim(w) =>
      if w !in c.workers || c.workers[w].todo == [] || c.workers[w].refused then c
      else
        var v := c.workers[w].todo[0];
        if v in c.claims || Winner(nets, v).None? then c.(workers := c.workers[w := c.workers[w].(refused := true)])
        else Cluster(c.claims[v := Winner(nets, v).value],
                     c.workers[w := Settle(c.workers[w], nets, Winner(nets, v).value, true)])
    case ReadBack(w, answered) =>
      if w !in c.workers || c.workers[w].todo == [] || !c.workers[w].refused then c
      else
        var v := c.workers[w].todo[0];
        var read := answered && v in c.claims;
        c.(workers := c.workers[w := Settle(c.workers[w], nets, if read then c.claims[v] else HolderOf(nets, map[], v), read)])
  }

  /** Who ends up holding a VLAN: whoever already did, else the lowest network carrying it. */
  function HolderOf(nets: seq<Network>, before: Claims, v: int): string {
    if v in before then before[v] else if Winner(nets, v).Some? then Winner(nets, v).value else ""
  }

  /** A backfill starts from what it read of the table. */
  ghost predicate Fair(nets: seq<Network>, a: Action) { a.Begin? ==> Plan(nets, a.todo) }

  /** Who a backfill takes for the holder: whoever it read back, and its own choice where it could not. */
  function SeenAs(nets: seq<Network>, before: Claims, blind: set<int>, v: int): string {
    HolderOf(nets, if v in blind then map[] else before, v)
  }

  /** What a worker has done so far: every VLAN off its list is claimed, and it has reported exactly
      the networks that carry one of those under another id than the holder it saw. */
  ghost predicate Progress(w: Worker, nets: seq<Network>, before: Claims, claims: Claims) {
    && (forall i, j :: 0 <= i < j < |w.todo| ==> w.todo[i] != w.todo[j])
    && (forall v <- w.todo :: Carried(nets, v))
    && (w.refused ==> w.todo != [] && w.todo[0] in claims)
    && (forall v :: Carried(nets, v) && v !in w.todo ==> v in claims)
    && (forall v, id {:trigger (v, id) in w.reported} :: (v, id) in w.reported <==>
          Carried(nets, v) && v !in w.todo && (v, id) in Losers(nets, v, SeenAs(nets, before, w.blind, v)))
    && (forall v <- w.blind :: Carried(nets, v) && v !in w.todo)
  }

  ghost predicate Sound(c: Cluster, nets: seq<Network>, before: Claims) {
    && before.Keys <= c.claims.Keys
    && (forall v <- c.claims.Keys :: (v in before || Carried(nets, v)) && c.claims[v] == HolderOf(nets, before, v))
    && (forall w <- c.workers.Keys :: Progress(c.workers[w], nets, before, c.claims))
  }

  lemma SettleProgresses(w: Worker, nets: seq<Network>, before: Claims, claims: Claims, holder: string, read: bool)
    requires Progress(w.(refused := false), nets, before, claims) && w.todo != [] && w.todo[0] in claims
    requires holder == HolderOf(nets, if read then before else map[], w.todo[0])
    ensures Progress(Settle(w, nets, holder, read), nets, before, claims)
  {
    var v, t := w.todo[0], Settle(w, nets, holder, read);
    assert w.todo == [v] + t.todo;
    assert Carried(nets, v) && v !in t.todo && v !in w.blind;
    forall u, id
      ensures (u, id) in t.reported <==> Carried(nets, u) && u !in t.todo && (u, id) in Losers(nets, u, SeenAs(nets, before, t.blind, u))
    {
      assert (u, id) in w.reported <==> Carried(nets, u) && u !in w.todo && (u, id) in Losers(nets, u, SeenAs(nets, before, w.blind, u));
    }
  }

  lemma MoreClaimsKeepProgress(w: Worker, nets: seq<Network>, before: Claims, claims: Claims, more: Claims)
    requires Progress(w, nets, before, claims) && claims.Keys <= more.Keys
    ensures Progress(w, nets, before, more)
  {
  }

  lemma ClaimProgresses(c: Cluster, nets: seq<Network>, before: Claims, w: nat)
    requires Sound(c, nets, before) && w in c.workers && c.workers[w].todo != [] && !c.workers[w].refused
    ensures var d := Act(c, nets, Claim(w)); w in d.workers && Progress(d.workers[w], nets, before, d.claims)
  {
    var d, x := Act(c, nets, Claim(w)), c.workers[w];
    assert Progress(x, nets, before, c.claims);
    WinnerIsLowest(nets, x.todo[0]);
    MoreClaimsKeepProgress(x, nets, before, c.claims, d.claims);
    if x.todo[0] !in c.claims {
      SettleProgresses(x, nets, before, d.claims, Winner(nets, x.todo[0]).value, true);
    }
  }

  lemma ReadBackProgresses(c: Cluster, nets: seq<Network>, before: Claims, w: nat, answered: bool)
    requires Sound(c, nets, before) && w in c.workers && c.workers[w].todo != [] && c.workers[w].refused
    ensures var d := Act(c, nets, ReadBack(w, answered)); w in d.workers && Progress(d.workers[w], nets, before, d.claims)
  {
    var x := c.workers[w];
    var v := x.todo[0];
    assert Progress(x, nets, before, c.claims);
    var read := answered && v in c.claims;
    SettleProgresses(x, nets, before, c.claims, if read then c.claims[v] else HolderOf(nets, map[], v), read);
  }

  /** Every worker, whichever of them acts. */
  lemma WorkerProgresses(c: Cluster, nets: seq<Network>, before: Claims, a: Action, w: nat)
    requires Sound(c, nets, before) && Fair(nets, a) && w in Act(c, nets, a).workers
    ensures Progress(Act(c, nets, a).workers[w], nets, before, Act(c, nets, a).claims)
  {
    if w in c.workers {
      assert Progress(c.workers[w], nets, before, c.claims);
      if a.Claim? && a.w == w && c.workers[w].todo != [] && !c.workers[w].refused {
        ClaimProgresses(c, nets, before, w);
      } else if a.ReadBack? && a.w == w && c.workers[w].todo != [] && c.workers[w].refused {
        ReadBackProgresses(c, nets, before, w, a.answered);
      } else {
        MoreClaimsKeepProgress(c.workers[w], nets, before, c.claims, Act(c, nets, a).claims);
      }
    }
  }

  lemma ActKeepsSound(c: Cluster, nets: seq<Network>, before: Claims, a: Action)
    requires Sound(c, nets, before) && Fair(nets, a)
    ensures Sound(Act(c, nets, a), nets, before)
    ensures forall v <- c.claims.Keys :: v in Act(c, nets, a).claims && Act(c, nets, a).claims[v] == c.claims[v]
  {
    var d := Act(c, nets, a);
    if a.w in c.workers && c.workers[a.w].todo != [] {
      WinnerIsLowest(nets, c.workers[a.w].todo[0]);
      assert Progress(c.workers[a.w], nets, before, c.claims);
    }
    forall w <- d.workers.Keys ensures Progress(d.workers[w], nets, before, d.claims) {
      WorkerProgresses(c, nets, before, a, w);
    }
  }

  function Acts(c: Cluster, nets: seq<Network>, actions: seq<Action>): Cluster {
    if actions == [] then c else Act(Acts(c, nets, actions[..|actions| - 1]), nets, actions[|actions| - 1])
  }

  lemma ActsSnoc(c: Cluster, nets: seq<Network>, actions: seq<Action>, a: Action)
    ensures Acts(c, nets, actions + [a]) == Act(Acts(c, nets, actions), nets, a)
  {
    assert (actions + [a])[..|actions|] == actions;
  }

  ghost predicate FairRun(nets: seq<Network>, actions: seq<Action>) { forall a <- actions :: Fair(nets, a) }

  lemma {:induction false} RunsStaySound(before: Claims, nets: seq<Network>, actions: seq<Action>)
    requires FairRun(nets, actions)
    ensures Sound(Acts(Cluster(before, map[]), nets, actions), nets, before)
  {
    if actions != [] {
      var n := |actions| - 1;
      RunsStaySound(before, nets, actions[..n]);
      ActKeepsSound(Acts(Cluster(before, map[]), nets, actions[..n]), nets, before, actions[n]);
    }
  }

  /** The claim table every interleaving must end with. */
  ghost predicate Settled(nets: seq<Network>, before: Claims, after: Claims) {
    && (forall v :: v in after <==> v in before || Carried(nets, v))
    && (forall v <- before.Keys :: after[v] == before[v])
    && (forall v <- after.Keys :: v !in before ==> Lowest(nets, v, after[v]))
  }

  /** The network carries a VLAN that somebody else holds. */
  predicate IsLoser(nets: seq<Network>, claims: Claims, v: int, id: string) {
    exists i :: 0 <= i < |nets| && nets[i] == Network(id, nets[i].name, Tagged(v)) && v in claims && claims[v] != id
  }

  /** Exactly the networks that carry a VLAN somebody else holds. */
  ghost predicate ReportsLosers(nets: seq<Network>, claims: Claims, reported: set<(int, string)>) {
    forall v, id {:trigger (v, id) in reported} :: (v, id) in reported <==> IsLoser(nets, claims, v, id)
  }

  /** Every VLAN whose holder could not be read back is held by the network the backfill would choose. */
  predicate BlindlyRight(nets: seq<Network>, claims: Claims, blind: set<int>) {
    forall v <- blind :: v in claims && claims[v] == HolderOf(nets, map[], v)
  }

  /** The report is right exactly when the backfill was blindly right. */
  lemma ReportIsExact(nets: seq<Network>, before: Claims, claims: Claims, blind: set<int>, reported: set<(int, string)>)
    requires forall v :: Carried(nets, v) ==> v in claims && claims[v] == HolderOf(nets, before, v)
    requires forall v <- blind :: Carried(nets, v)
    requires forall v, id {:trigger (v, id) in reported} :: (v, id) in reported <==>
               Carried(nets, v) && (v, id) in Losers(nets, v, SeenAs(nets, before, blind, v))
    ensures ReportsLosers(nets, claims, reported) <==> BlindlyRight(nets, claims, blind)
  {
    if BlindlyRight(nets, claims, blind) {
      forall v, id ensures (v, id) in reported <==> IsLoser(nets, claims, v, id) {
        LoserIsReported(nets, before, claims, blind, v, id);
      }
    } else {
      var v :| v in blind && claims[v] != HolderOf(nets, map[], v);
      WinnerIsLowest(nets, v);
      var i :| 0 <= i < |nets| && Carries(nets[i], v) && nets[i].netId == Winner(nets, v).value;
      assert IsLoser(nets, claims, v, nets[i].netId) && (v, nets[i].netId) !in reported;
    }
  }

  lemma LoserIsReported(nets: seq<Network>, before: Claims, claims: Claims, blind: set<int>, v: int, id: string)
    requires Carried(nets, v) ==> v in claims && claims[v] == SeenAs(nets, before, blind, v)
    ensures IsLoser(nets, claims, v, id) <==> Carried(nets, v) && (v, id) in Losers(nets, v, SeenAs(nets, before, blind, v))
  {
    if Carried(nets, v) && (v, id) in Losers(nets, v, SeenAs(nets, before, blind, v)) {
      var i :| 0 <= i < |nets| && Carries(nets[i], v) && nets[i].netId != SeenAs(nets, before, blind, v) && (v, nets[i].netId) == (v, id);
      assert nets[i] == Network(id, nets[i].name, Tagged(v));
    }
  }

  lemma SoundIsSettled(nets: seq<Network>, before: Claims, claims: Claims)
    requires before.Keys <= claims.Keys
    requires forall v <- claims.Keys :: (v in before || Carried(nets, v)) && claims[v] == HolderOf(nets, before, v)
    requires forall v :: Carried(nets, v) ==> v in claims
    ensures Settled(nets, before, claims)
  {
    forall v ensures Winner(nets, v).Some? <==> Carried(nets, v)
             ensures Winner(nets, v).Some? ==> Lowest(nets, v, Winner(nets, v).value)
    {
      WinnerIsLowest(nets, v);
    }
  }

  /** Confluence: whichever backfills ran, crashed, repeated or interleaved, and whatever reads failed,
      once any one of them completes the table is the same and no earlier claim was overwritten; and that
      one reported exactly the networks that carry a VLAN they do not hold if and only if every VLAN it
      could not read back is held by the network it would have chosen. */
  lemma BackfillIsConfluent(before: Claims, nets: seq<Network>, actions: seq<Action>, w: nat)
    requires FairRun(nets, actions)
    requires var c := Acts(Cluster(before, map[]), nets, actions); w in c.workers && c.workers[w].todo == []
    ensures Settled(nets, before, Acts(Cluster(before, map[]), nets, actions).claims)
    ensures var c := Acts(Cluster(before, map[]), nets, actions);
      ReportsLosers(nets, c.claims, c.workers[w].reported) <==> BlindlyRight(nets, c.claims, c.workers[w].blind)
  {
    var c := Acts(Cluster(before, map[]), nets, actions);
    RunsStaySound(before, nets, actions);
    assert Progress(c.workers[w], nets, before, c.claims);
    SoundIsSettled(nets, before, c.claims);
    ReportIsExact(nets, before, c.claims, c.workers[w].blind, c.workers[w].reported);
  }

  /** From an empty claim table the report is always right: whoever holds a VLAN is who any of them
      would have chosen. */
  lemma FirstBackfillReportsRight(nets: seq<Network>, actions: seq<Action>, w: nat)
    requires FairRun(nets, actions)
    requires var c := Acts(Cluster(map[], map[]), nets, actions); w in c.workers && c.workers[w].todo == []
    ensures var c := Acts(Cluster(map[], map[]), nets, actions); ReportsLosers(nets, c.claims, c.workers[w].reported)
  {
    var c := Acts(Cluster(map[], map[]), nets, actions);
    RunsStaySound(map[], nets, actions);
    BackfillIsConfluent(map[], nets, actions, w);
    assert Progress(c.workers[w], nets, map[], c.claims);
  }

  /** One backfill of a table with one VLAN in use, whose claim is refused and whose read-back fails. */
  function BlindRun(v: int): seq<Action> { [Begin(0, [v]), Claim(0)] + [ReadBack(0, false)] }

  lemma BlindRunEnds(before: Claims, nets: seq<Network>, v: int)
    requires v in before
    ensures Acts(Cluster(before, map[]), nets, BlindRun(v))
         == Cluster(before, map[0 := Worker([], false, Losers(nets, v, HolderOf(nets, map[], v)), {v})])
  {
    var c0 := Cluster(before, map[]);
    assert [Begin(0, [v]), Claim(0)] == ([] + [Begin(0, [v])]) + [Claim(0)];
    ActsSnoc(c0, nets, [], Begin(0, [v]));
    ActsSnoc(c0, nets, [] + [Begin(0, [v])], Claim(0));
    ActsSnoc(c0, nets, [Begin(0, [v]), Claim(0)], ReadBack(0, false));
    var w2 := Worker([v], true, {}, {});
    assert Acts(c0, nets, [Begin(0, [v]), Claim(0)]) == Cluster(before, map[0 := w2]);
    assert Settle(w2, nets, HolderOf(nets, map[], v), false) == Worker([], false, Losers(nets, v, HolderOf(nets, map[], v)), {v});
  }

  /** Over a claim somebody else made before, a read-back that fails makes the report wrong: the backfill
      takes its own choice for the holder, and does not name it among those that hold no claim. */
  lemma BlindReportIsWrong(before: Claims, nets: seq<Network>, v: int)
    requires Plan(nets, [v]) && v in before && before[v] != HolderOf(nets, map[], v)
    ensures FairRun(nets, BlindRun(v))
    ensures var c := Acts(Cluster(before, map[]), nets, BlindRun(v));
      0 in c.workers && c.workers[0].todo == [] && !ReportsLosers(nets, c.claims, c.workers[0].reported)
  {
    BlindRunEnds(before, nets, v);
    assert FairRun(nets, BlindRun(v));
    BackfillIsConfluent(before, nets, BlindRun(v), 0);
    assert !BlindlyRight(nets, before, {v});
  }

  const TwoOnSeven := [Network("a", "", Tagged(7)), Network("b", "", Tagged(7))]

  /** As with two networks on VLAN 7, the claim on which the second already holds. */
  lemma TwoOnSevenReportedWrong()
    ensures Plan(TwoOnSeven, [7]) && HolderOf(TwoOnSeven, map[], 7) == "a"
    ensures var c := Acts(Cluster(map[7 := "b"], map[]), TwoOnSeven, BlindRun(7));
      0 in c.workers && !ReportsLosers(TwoOnSeven, c.claims, c.workers[0].reported)
  {
    var nets := TwoOnSeven;
    assert Carries(nets[0], 7) && Carries(nets[1], 7);
    assert nets[1..] == [Network("b", "", Tagged(7))] && nets[1..][1..] == [];
    assert "a"[0] < "b"[0];
    assert Ordering.AtMost("a", "b");
    BlindReportIsWrong(map[7 := "b"], nets, 7);
  }

  /** Two completed backfills of the same table leave the same claims. */
  lemma SettledIsUnique(nets: seq<Network>, before: Claims, a: Claims, b: Claims)
    requires Settled(nets, before, a) && Settled(nets, before, b)
    ensures a == b
  {
    forall v <- a.Keys ensures v in b && a[v] == b[v] {
      if v !in before {
        LowestIsUnique(nets, v, a[v], b[v]);
      }
    }
    forall v <- b.Keys ensures v in a {
      assert v in before || Carried(nets, v);
    }
    assert a.Keys == b.Keys;
  }

  // ---- one backfill, undisturbed --------------------------------------------------------

  datatype BackfillError = NetworksUnreadable | ClaimFailed(vlan: int)

  /** What every moment of a backfill keeps: earlier claims stand, and new ones are the lowest carrier's. */
  ghost predicate OnlyLowest(nets: seq<Network>, before: Claims, claims: Claims) {
    && before.Keys <= claims.Keys
    && (forall v <- claims.Keys :: (v in before || Carried(nets, v)) && claims[v] == HolderOf(nets, before, v))
  }

  class ClaimTable {
    var claims: Claims

    constructor (claims: Claims)
      ensures this.claims == claims
    {
      this.claims := claims;
    }

    /** One VLAN: a claim, and a look at who holds it where the claim is refused. */
    method SettleVlan(nets: seq<Network>, v: int, readBackFails: bool) returns (losers: set<(int, string)>)
      requires Carried(nets, v)
      modifies this
      ensures claims == if v in old(claims) then old(claims) else old(claims)[v := HolderOf(nets, map[], v)]
      ensures losers == Losers(nets, v, if v in old(claims) && !readBackFails then old(claims)[v] else HolderOf(nets, map[], v))
    {
      WinnerIsLowest(nets, v);
      var winner := Winner(nets, v).value;
      if v !in claims {
        claims := claims[v := winner];
      } else if !readBackFails {
        winner := claims[v];
      }
      losers := Losers(nets, v, winner);
    }

    /** The migration's backfill step, as a loop over the VLANs in use. A table that cannot be read stops
        it before anything is claimed, and a claim that is not answered stops it where it is, whether or
        not it landed; a failed read-back does not. */
    method Backfill(nets: seq<Network>, readable: bool, claimFails: set<int>, claimLands: set<int>, readBackFails: set<int>)
      returns (r: Result<set<(int, string)>, BackfillError>)
      modifies this
      ensures OnlyLowest(nets, old(claims), claims)
      ensures r == Err(NetworksUnreadable) <==> !readable
      ensures !readable ==> claims == old(claims)
      ensures r.Ok? <==> readable && forall v <- claimFails :: !Carried(nets, v)
      ensures r.Err? && r.error.ClaimFailed? ==>
        var v := r.error.vlan; v in claimFails && Carried(nets, v) && (v in claims <==> v in old(claims) || v in claimLands)
      ensures r.Ok? ==> Settled(nets, old(claims), claims)
      ensures r.Ok? ==>
        (ReportsLosers(nets, claims, r.value) <==>
         BlindlyRight(nets, claims, set v | v in readBackFails && v in old(claims) && Carried(nets, v)))
    {
      if !readable { return Err(NetworksUnreadable); }
      var byVlan := set i | 0 <= i < |nets| && nets[i].vlan.Tagged? :: nets[i].vlan.id;
      InUse(nets, byVlan);
      ghost var before := claims;
      ghost var blind := set v | v in readBackFails && v in before && Carried(nets, v);
      var todo := byVlan;
      var reported := {};
      while todo != {}
        invariant todo <= byVlan && OnlyLowest(nets, before, claims)
        invariant forall v <- byVlan :: v !in todo ==> v in claims
        invariant forall v <- todo :: v in claims <==> v in before
        invariant ReportedSoFar(nets, before, blind, byVlan - todo, reported)
        invariant forall v <- claimFails :: v in byVlan ==> v in todo
        decreases |todo|
      {
        var v :| v in todo;
        if v in claimFails && v !in claimLands { return Err(ClaimFailed(v)); }
        ghost var held := claims;
        var losers := SettleVlan(nets, v, v in readBackFails);
        ClaimKeepsLowest(nets, before, held, claims, v);
        if v in claimFails { return Err(ClaimFailed(v)); }
        assert losers == Losers(nets, v, SeenAs(nets, before, blind, v));
        ReportGrows(nets, before, blind, byVlan - todo, v, reported);
        reported := reported + losers;
        assert byVlan - (todo - {v}) == (byVlan - todo) + {v};
        todo := todo - {v};
      }
      SoundIsSettled(nets, before, claims);
      ReportIsExact(nets, before, claims, blind, reported);
      return Ok(reported);
    }
  }

  /** The losers of every VLAN that is done, to whom the backfill took for its holder, and nobody else. */
  ghost predicate ReportedSoFar(nets: seq<Network>, before: Claims, blind: set<int>, done: set<int>, reported: set<(int, string)>) {
    forall v, id {:trigger (v, id) in reported} :: (v, id) in reported <==>
      v in done && (v, id) in Losers(nets, v, SeenAs(nets, before, blind, v))
  }

  lemma ReportGrows(nets: seq<Network>, before: Claims, blind: set<int>, done: set<int>, v: int, reported: set<(int, string)>)
    requires ReportedSoFar(nets, before, blind, done, reported)
    ensures ReportedSoFar(nets, before, blind, done + {v}, reported + Losers(nets, v, SeenAs(nets, before, blind, v)))
  {
    var losers := Losers(nets, v, SeenAs(nets, before, blind, v));
    forall u, id ensures (u, id) in reported + losers <==> u in done + {v} && (u, id) in Losers(nets, u, SeenAs(nets, before, blind, u)) {
      assert (u, id) in reported <==> u in done && (u, id) in Losers(nets, u, SeenAs(nets, before, blind, u));
    }
  }

  lemma ClaimKeepsLowest(nets: seq<Network>, before: Claims, held: Claims, claims: Claims, v: int)
    requires OnlyLowest(nets, before, held) && Carried(nets, v) && (v in held ==> v in before)
    requires claims == if v in held then held else held[v := HolderOf(nets, map[], v)]
    ensures OnlyLowest(nets, before, claims)
  {
    WinnerIsLowest(nets, v);
  }

  lemma InUse(nets: seq<Network>, byVlan: set<int>)
    requires byVlan == set i | 0 <= i < |nets| && nets[i].vlan.Tagged? :: nets[i].vlan.id
    ensures forall v :: v in byVlan <==> Carried(nets, v)
  {
    forall v ensures v in byVlan <==> Carried(nets, v) {
      if v in byVlan {
        var i :| 0 <= i < |nets| && nets[i].vlan.Tagged? && nets[i].vlan.id == v;
        assert Carries(nets[i], v);
      }
      if Carried(nets, v) {
        var i :| 0 <= i < |nets| && Carries(nets[i], v);
        assert nets[i].vlan.Tagged?;
      }
    }
  }

  // ---- the claim row ---------------------------------------------------------------------

  function VlanKey(v: int): Key { Key(Table.VlanClaims, Int(v)) }

  /** A row for the VLAN, naming its network, if it is claimed and none if it is not. */
  predicate RepresentsAt(db: Db, claims: Claims, v: int) {
    && (VlanKey(v) in db <==> v in claims)
    && (v in claims ==> db[VlanKey(v)].marker == Some(Never) && Get(db, VlanKey(v), NetId) == Text(claims[v]))
  }

  /** The store's claim table is `claims`. */
  ghost predicate Represents(db: Db, claims: Claims) { Permanent(db) && forall v :: RepresentsAt(db, claims, v) }

  function ClaimRequest(v: int, netId: string, name: string, nowMs: int, now: int): Request {
    Request(ClaimVlan,
            JObject(map[VlanId := JInt(v), NetId := JText(netId), Field.Name := JText(name), ClaimedAtMs := JInt(nowMs)]), now)
  }

  lemma ClaimBinds(v: int, netId: string, name: string, nowMs: int, now: int)
    ensures
      var ep, body := ClaimVlanEndpoint(), ClaimRequest(v, netId, name, nowMs, now).body;
      Acceptable(ep, body) && Arg(ep, body, VlanId) == Int(v) && Arg(ep, body, NetId) == Text(netId)
  {
  }

  predicate ClaimsVlans(ep: Endpoint) {
    && ep.table == Table.VlanClaims && ep.guard.IfNotExists? && ep.effect.Insert? && ep.effect.ttl.None?
    && NetId in ep.effect.cells && ep.effect.cells[NetId] == NetId
  }

  predicate Inserts(ep: Endpoint, body: Json, v: int, netId: string) {
    ClaimsVlans(ep) && Acceptable(ep, body) && Target(ep, body) == VlanKey(v) && Arg(ep, body, NetId) == Text(netId)
  }

  lemma HeldRefuses(db: Db, claims: Claims, now: int, ep: Endpoint, body: Json, v: int, netId: string)
    requires Represents(db, claims) && Inserts(ep, body, v, netId) && v in claims
    ensures !Execute(db, now, ep, body).1.Applied? && Execute(db, now, ep, body).0 == db
  {
    assert RepresentsAt(db, claims, v);
  }

  lemma FreeAccepts(db: Db, claims: Claims, now: int, ep: Endpoint, body: Json, v: int, netId: string)
    requires Represents(db, claims) && Inserts(ep, body, v, netId) && v !in claims
    ensures Lands(db, now, ep, body, VlanKey(v)) && Execute(db, now, ep, body).0 == db[VlanKey(v) := RowAfter(db, now, ep, body)]
    ensures RepresentsAt(Execute(db, now, ep, body).0, claims[v := netId], v)
  {
    assert RepresentsAt(db, claims, v);
  }

  lemma InsertClaims(db: Db, claims: Claims, now: int, ep: Endpoint, body: Json, v: int, netId: string)
    requires Represents(db, claims) && Inserts(ep, body, v, netId)
    ensures v in claims ==> !Execute(db, now, ep, body).1.Applied? && Execute(db, now, ep, body).0 == db
    ensures v !in claims ==> Execute(db, now, ep, body).1.Applied? && Represents(Execute(db, now, ep, body).0, claims[v := netId])
  {
    if v in claims {
      HeldRefuses(db, claims, now, ep, body, v, netId);
    } else {
      FreeAccepts(db, claims, now, ep, body, v, netId);
      StaysPermanent(db, now, ep, body);
      var after, more := Execute(db, now, ep, body).0, claims[v := netId];
      forall u ensures RepresentsAt(after, more, u) {
        assert RepresentsAt(db, claims, u);
      }
    }
  }

  /** A claim is one IF NOT EXISTS insert: it wins a free VLAN and never takes a held one. */
  lemma ClaimIsCall(db: Db, claims: Claims, v: int, netId: string, name: string, nowMs: int, now: int)
    requires Represents(db, claims)
    ensures Applies(db, ClaimRequest(v, netId, name, nowMs, now)) <==> v !in claims
    ensures Represents(Call(db, ClaimRequest(v, netId, name, nowMs, now)).0, if v in claims then claims else claims[v := netId])
  {
    var ep := ClaimInserts(v, netId, name, nowMs, now);
    ClaimCalled(db, claims, ClaimRequest(v, netId, name, nowMs, now), ep, v, netId);
  }

  lemma ClaimCalled(db: Db, claims: Claims, r: Request, ep: Endpoint, v: int, netId: string)
    requires Represents(db, claims) && ep == LwtOp(r.op) && Inserts(ep, r.body, v, netId)
    ensures Applies(db, r) <==> v !in claims
    ensures Represents(Call(db, r).0, if v in claims then claims else claims[v := netId])
  {
    InsertClaims(db, claims, r.now, ep, r.body, v, netId);
  }

  lemma ClaimInserts(v: int, netId: string, name: string, nowMs: int, now: int) returns (ep: Endpoint)
    ensures ep == LwtOp(ClaimVlan) && Inserts(ep, ClaimRequest(v, netId, name, nowMs, now).body, v, netId)
  {
    ep := ClaimVlanEndpoint();
    ClaimBinds(v, netId, name, nowMs, now);
  }

  /** Requests to other tables leave the claims alone. */
  lemma OthersKeepClaims(db: Db, claims: Claims, r: Request)
    requires Represents(db, claims) && TableFor(r.op) != Table.VlanClaims
    ensures Represents(Call(db, r).0, claims)
  {
    StaysPermanent(db, r.now, LwtOp(r.op), r.body);
    forall v ensures RepresentsAt(Call(db, r).0, claims, v) {
      assert RepresentsAt(db, claims, v);
      OtherRowKept(db, r.now, LwtOp(r.op), r.body, VlanKey(v));
    }
  }

  lemma OtherRowKept(db: Db, now: int, ep: Endpoint, body: Json, key: Key)
    requires ep.table != key.table
    ensures key in Execute(db, now, ep, body).0 <==> key in db
    ensures key in db ==> Execute(db, now, ep, body).0[key] == db[key]
  {
  }

  // ---- the store runs the machine ---------------------------------------------------------

  /** The action sends a claim for this VLAN. */
  predicate Sends(c: Cluster, nets: seq<Network>, a: Action) {
    a.Claim? && a.w in c.workers && c.workers[a.w].todo != [] && !c.workers[a.w].refused && Winner(nets, c.workers[a.w].todo[0]).Some?
  }

  function Sender(nets: seq<Network>, name: string, nowMs: int): (Cluster, Action, int) -> Option<Request> {
    (c, a, now) =>
      if !Sends(c, nets, a) then None
      else Some(ClaimRequest(c.workers[a.w].todo[0], Winner(nets, c.workers[a.w].todo[0]).value, name, nowMs, now))
  }

  function Actor(nets: seq<Network>): (Cluster, Action) -> Cluster { (c, a) => Act(c, nets, a) }

  ghost function Holder(): (Db, Cluster) -> bool { (db: Db, c: Cluster) => Represents(db, c.claims) }

  function Foreign(): Request -> bool { (r: Request) => TableFor(r.op) != Table.VlanClaims }

  lemma MachineUpheld(nets: seq<Network>, name: string, nowMs: int)
    ensures Upheld(Holder(), Foreign(), Sender(nets, name, nowMs), Actor(nets))
  {
    forall db, c, item: Item<Action> | Holder()(db, c) && (item.Other? ==> Foreign()(item.request))
      ensures Holder()(Beside(db, c, item, Sender(nets, name, nowMs), Actor(nets)).0, Beside(db, c, item, Sender(nets, name, nowMs), Actor(nets)).1)
    {
      match item
      case Mine(a, now) => ActIsCall(db, c, nets, a, name, nowMs, now);
      case Other(r) => OthersKeepClaims(db, c.claims, r);
    }
  }

  lemma ActIsCall(db: Db, c: Cluster, nets: seq<Network>, a: Action, name: string, nowMs: int, now: int)
    requires Represents(db, c.claims)
    ensures var sent := Sender(nets, name, nowMs)(c, a, now);
      Represents(if sent.Some? then Call(db, sent.value).0 else db, Act(c, nets, a).claims)
  {
    if Sends(c, nets, a) {
      var v := c.workers[a.w].todo[0];
      ClaimIsCall(db, c.claims, v, Winner(nets, v).value, name, nowMs, now);
    }
  }

  lemma {:induction false} MachineActs(db: Db, c: Cluster, nets: seq<Network>, items: seq<Item<Action>>, name: string, nowMs: int)
    ensures Together(db, c, items, Sender(nets, name, nowMs), Actor(nets)).1 == Acts(c, nets, OwnActs(items))
  {
    if items != [] {
      var n := |items| - 1;
      MachineActs(db, c, nets, items[..n], name, nowMs);
      if items[n].Mine? { ActsSnoc(c, nets, OwnActs(items[..n]), items[n].act); }
    }
  }

  /** Every run over the store: any backfills, interleaved with any requests to other tables. The claim
      rows in the store are the machine's. */
  lemma StoreRunsMachine(db: Db, before: Claims, nets: seq<Network>, items: seq<Item<Action>>, name: string, nowMs: int)
    requires Represents(db, before) && forall item <- items :: item.Other? ==> Foreign()(item.request)
    ensures var (after, c) := Together(db, Cluster(before, map[]), items, Sender(nets, name, nowMs), Actor(nets));
      c == Acts(Cluster(before, map[]), nets, OwnActs(items)) && Represents(after, c.claims)
  {
    MachineUpheld(nets, name, nowMs);
    StaysUpheld(db, Cluster(before, map[]), items, Holder(), Foreign(), Sender(nets, name, nowMs), Actor(nets));
    MachineActs(db, Cluster(before, map[]), nets, items, name, nowMs);
  }

  /** So once any of the backfills completes, the claim rows of the store are settled: every VLAN carried
      has one, whoever held it before holds it still, and otherwise its lowest carrier does. */
  lemma StoreIsSettled(db: Db, before: Claims, nets: seq<Network>, items: seq<Item<Action>>, name: string, nowMs: int, w: nat)
    requires Represents(db, before) && FairRun(nets, OwnActs(items))
    requires forall item <- items :: item.Other? ==> Foreign()(item.request)
    requires var c := Acts(Cluster(before, map[]), nets, OwnActs(items)); w in c.workers && c.workers[w].todo == []
    ensures exists claims :: Settled(nets, before, claims) &&
              Represents(Together(db, Cluster(before, map[]), items, Sender(nets, name, nowMs), Actor(nets)).0, claims)
  {
    StoreRunsMachine(db, before, nets, items, name, nowMs);
    BackfillIsConfluent(before, nets, OwnActs(items), w);
  }

  // ---- giving a VLAN up, and taking one over ------------------------------------------------

  predicate Releases(ep: Endpoint, body: Json, v: int, netId: string) {
    && ep.table == Table.VlanClaims && Lasting(ep) && ep.guard == If(map[NetId := Condition(Eq, NetId)]) && ep.effect.Delete?
    && Acceptable(ep, body) && Target(ep, body) == VlanKey(v) && Arg(ep, body, NetId) == Text(netId)
  }

  /** What a refused release is told: who holds the VLAN, or that nobody does. */
  lemma RefusedReleaseNamesHolder(db: Db, claims: Claims, now: int, ep: Endpoint, body: Json, v: int, netId: string)
    requires Represents(db, claims) && Releases(ep, body, v, netId) && Execute(db, now, ep, body).1.Refused?
    ensures var current := Execute(db, now, ep, body).1.current;
      NetId in current && current[NetId] == if v in claims then Text(claims[v]) else Null
  {
    RefusalTells(db, now, ep, body);
    GetIsRead(db, VlanKey(v), NetId, now);
    assert RepresentsAt(db, claims, v);
  }

  /** Only the network that holds a VLAN gives it up: a release applies exactly when its caller's network
      holds the claim, and then the claim is gone and no other is touched. */
  lemma ReleaseIsTheHolders(db: Db, claims: Claims, now: int, ep: Endpoint, body: Json, v: int, netId: string)
    requires Represents(db, claims) && Releases(ep, body, v, netId)
    ensures Execute(db, now, ep, body).1.Applied? <==> v in claims && claims[v] == netId
    ensures Represents(Execute(db, now, ep, body).0, if v in claims && claims[v] == netId then claims - {v} else claims)
  {
    OneDecides(db, now, ep, body, VlanKey(v), NetId, NetId);
    assert RepresentsAt(db, claims, v);
    var after := if v in claims && claims[v] == netId then claims - {v} else claims;
    StaysPermanent(db, now, ep, body);
    forall u ensures RepresentsAt(Execute(db, now, ep, body).0, after, u) { assert RepresentsAt(db, claims, u); }
  }

  predicate Reclaims(ep: Endpoint, body: Json, v: int, netId: string, expected: string) {
    && ep.table == Table.VlanClaims && Lasting(ep) && ep.guard == If(map[NetId := Condition(Eq, ExpectedNetId)])
    && ep.effect.Update? && NetId in ep.effect.cells && ep.effect.cells[NetId] == NetId && ep.effect.ttl.None?
    && Acceptable(ep, body) && Target(ep, body) == VlanKey(v) && Arg(ep, body, NetId) == Text(netId) && Arg(ep, body, ExpectedNetId) == Text(expected)
  }

  /** A reclaim from a named network applies exactly when that network holds the claim, and then it is the
      new one's and no other is touched. */
  lemma ReclaimIsFromTheHolder(db: Db, claims: Claims, now: int, ep: Endpoint, body: Json, v: int, netId: string, expected: string)
    requires Represents(db, claims) && Reclaims(ep, body, v, netId, expected)
    ensures Execute(db, now, ep, body).1.Applied? <==> v in claims && claims[v] == expected
    ensures Represents(Execute(db, now, ep, body).0, if v in claims && claims[v] == expected then claims[v := netId] else claims)
  {
    OneDecides(db, now, ep, body, VlanKey(v), NetId, ExpectedNetId);
    assert RepresentsAt(db, claims, v);
    var after := if v in claims && claims[v] == expected then claims[v := netId] else claims;
    StaysPermanent(db, now, ep, body);
    forall u ensures RepresentsAt(Execute(db, now, ep, body).0, after, u) { assert RepresentsAt(db, claims, u); }
  }

  lemma ReleaseEndpointReleases(body: Json, v: int, netId: string)
    requires Acceptable(LwtOp(ReleaseVlan), body) && Arg(LwtOp(ReleaseVlan), body, VlanId) == Int(v)
    requires Arg(LwtOp(ReleaseVlan), body, NetId) == Text(netId)
    ensures Releases(LwtOp(ReleaseVlan), body, v, netId)
  {
  }

  lemma ReclaimEndpointReclaims(body: Json, v: int, netId: string, expected: string)
    requires Acceptable(LwtOp(ReclaimVlan), body) && Arg(LwtOp(ReclaimVlan), body, VlanId) == Int(v)
    requires Arg(LwtOp(ReclaimVlan), body, NetId) == Text(netId) && Arg(LwtOp(ReclaimVlan), body, ExpectedNetId) == Text(expected)
    ensures Reclaims(LwtOp(ReclaimVlan), body, v, netId, expected)
  {
  }
}
