/** Scheduled snapshots of one vdisk: which policy governs it, when one is due, and which are pruned. */
module Retention {
  import opened Common
  import Ordering
  import Ballots

  datatype Origin = ByPolicy | Manual | PreRollback

  datatype Snapshot = Snapshot(id: string, created: int, origin: Origin)

  // ---- newest first -----------------------------------------------------------------------

  /** The sort key: newer first, then by id. */
  predicate Before(a: Snapshot, b: Snapshot) {
    a.created > b.created || (a.created == b.created && Ordering.AtMost(a.id, b.id))
  }

  lemma BeforeIsTotal(a: Snapshot, b: Snapshot)
    ensures Before(a, b) || Before(b, a)
  {
    Ordering.Total(a.id, b.id);
  }

  lemma BeforeChains(a: Snapshot, b: Snapshot, c: Snapshot)
    requires Before(a, b) && Before(b, c)
    ensures Before(a, c)
  {
    if a.created == c.created { Ordering.Transitive(a.id, b.id, c.id); }
  }

  function Insert(x: Snapshot, s: seq<Snapshot>): seq<Snapshot> {
    if s == [] || Before(x, s[0]) then [x] + s else [s[0]] + Insert(x, s[1..])
  }

  /** The policy's own snapshots, newest first. */
  function Ours(index: seq<Snapshot>): seq<Snapshot> {
    if index == [] then []
    else if index[0].origin == ByPolicy then Insert(index[0], Ours(index[1..])) else Ours(index[1..])
  }

  predicate InOrder(s: seq<Snapshot>) { forall i, j :: 0 <= i < j < |s| ==> Before(s[i], s[j]) }

  lemma {:induction false} InsertContents(x: Snapshot, s: seq<Snapshot>)
    ensures multiset(Insert(x, s)) == multiset{x} + multiset(s) && |Insert(x, s)| == |s| + 1
    ensures forall y :: y in Insert(x, s) <==> y == x || y in s
  {
    if s != [] && !Before(x, s[0]) {
      InsertContents(x, s[1..]);
      assert s == [s[0]] + s[1..];
    }
  }

  lemma {:induction false} InsertKeepsOrder(x: Snapshot, s: seq<Snapshot>)
    requires InOrder(s)
    ensures InOrder(Insert(x, s))
  {
    if s == [] {
    } else if Before(x, s[0]) {
      forall j | 0 <= j < |s| ensures Before(x, s[j]) {
        if j > 0 { BeforeChains(x, s[0], s[j]); }
      }
    } else {
      InsertKeepsOrder(x, s[1..]);
      BeforeIsTotal(x, s[0]);
      var rest := Insert(x, s[1..]);
      forall j | 0 <= j < |rest| ensures Before(s[0], rest[j]) {
        InsertContents(x, s[1..]);
        assert rest[j] in rest;
      }
    }
  }

  /** Sorted, and a permutation of the policy's snapshots. */
  lemma {:induction false} OursIsSorted(index: seq<Snapshot>)
    ensures InOrder(Ours(index))
    ensures forall s :: s in Ours(index) <==> s in index && s.origin == ByPolicy
    ensures |Ours(index)| <= |index|
  {
    if index != [] {
      OursIsSorted(index[1..]);
      if index[0].origin == ByPolicy {
        InsertKeepsOrder(index[0], Ours(index[1..]));
        InsertContents(index[0], Ours(index[1..]));
      }
    }
  }

  // ---- the plan ---------------------------------------------------------------------------

  function Window(keepLast: int): nat { if keepLast < 1 then 1 else keepLast }

  datatype Reason = Derived | AttachedOn(where: string)

  datatype Plan = Plan(keep: seq<string>, prune: seq<string>, protected: map<string, Reason>)

  predicate Protects(id: string, referenced: set<string>, attached: map<string, string>) { id in referenced || id in attached }

  function Ids(s: seq<Snapshot>): (ids: seq<string>)
    ensures |ids| == |s| && forall i :: 0 <= i < |s| ==> ids[i] == s[i].id
  {
    if s == [] then [] else [s[0].id] + Ids(s[1..])
  }

  /** The older ones nothing depends on, in order. */
  function Unprotected(s: seq<Snapshot>, referenced: set<string>, attached: map<string, string>): seq<string> {
    if s == [] then []
    else
      var rest, id := Unprotected(s[..|s| - 1], referenced, attached), s[|s| - 1].id;
      if Protects(id, referenced, attached) then rest else rest + [id]
  }

  /** The older ones something depends on, and what. */
  function Spared(s: seq<Snapshot>, referenced: set<string>, attached: map<string, string>): map<string, Reason> {
    if s == [] then map[]
    else
      var rest, id := Spared(s[..|s| - 1], referenced, attached), s[|s| - 1].id;
      if id in referenced then rest[id := Derived]
      else if id in attached then rest[id := AttachedOn(attached[id])]
      else rest
  }

  function Kept(index: seq<Snapshot>, keepLast: int): seq<Snapshot> {
    var ours := Ours(index);
    if |ours| <= Window(keepLast) then ours else ours[..Window(keepLast)]
  }

  function Older(index: seq<Snapshot>, keepLast: int): seq<Snapshot> {
    var ours := Ours(index);
    if |ours| <= Window(keepLast) then [] else ours[Window(keepLast)..]
  }

  function PlanOf(index: seq<Snapshot>, keepLast: int, referenced: set<string>, attached: map<string, string>): Plan {
    var older := Older(index, keepLast);
    Plan(Ids(Kept(index, keepLast)), Unprotected(older, referenced, attached), Spared(older, referenced, attached))
  }

  method PlanRetention(index: seq<Snapshot>, keepLast: int, referenced: set<string>, attached: map<string, string>)
    returns (plan: Plan)
    ensures plan == PlanOf(index, keepLast, referenced, attached)
  {
    var ours := Ours(index);
    var n := if |ours| <= Window(keepLast) then |ours| else Window(keepLast);
    assert ours[..n] == Kept(index, keepLast) && ours[n..] == Older(index, keepLast);
    var prune, protected := Divide(ours[n..], referenced, attached);
    plan := Plan(Ids(ours[..n]), prune, protected);
  }

  /** The planner's loop over what is beyond the window. */
  method Divide(older: seq<Snapshot>, referenced: set<string>, attached: map<string, string>)
    returns (prune: seq<string>, protected: map<string, Reason>)
    ensures prune == Unprotected(older, referenced, attached) && protected == Spared(older, referenced, attached)
  {
    prune, protected := [], map[];
    for i := 0 to |older|
      invariant prune == Unprotected(older[..i], referenced, attached) && protected == Spared(older[..i], referenced, attached)
    {
      assert older[..i + 1][..i] == older[..i] && older[..i + 1][i] == older[i];
      var id := older[i].id;
      if id in referenced {
        protected := protected[id := Derived];
      } else if id in attached {
        protected := protected[id := AttachedOn(attached[id])];
      } else {
        prune := prune + [id];
      }
    }
    assert older[..|older|] == older;
  }

  // ---- what the plan guarantees -----------------------------------------------------------

  predicate NoRepeats(index: seq<Snapshot>) { forall i, j :: 0 <= i < j < |index| ==> index[i].id != index[j].id }

  predicate HasId(s: seq<Snapshot>, id: string) { exists i :: 0 <= i < |s| && s[i].id == id }

  /** The two divide the list. */
  lemma {:induction false} Divides(s: seq<Snapshot>, referenced: set<string>, attached: map<string, string>, id: string)
    ensures id in Unprotected(s, referenced, attached) <==> HasId(s, id) && !Protects(id, referenced, attached)
    ensures id in Spared(s, referenced, attached) <==> HasId(s, id) && Protects(id, referenced, attached)
  {
    if s != [] {
      var n := |s| - 1;
      Divides(s[..n], referenced, attached, id);
      assert HasId(s, id) <==> HasId(s[..n], id) || s[n].id == id by {
        if i :| 0 <= i < |s| && s[i].id == id {
          if i < n { assert s[..n][i].id == id; }
        }
      }
    }
  }

  lemma {:induction false} InsertNoRepeats(x: Snapshot, s: seq<Snapshot>)
    requires NoRepeats(s) && forall y <- s :: y.id != x.id
    ensures NoRepeats(Insert(x, s))
  {
    if s != [] && !Before(x, s[0]) {
      InsertNoRepeats(x, s[1..]);
      InsertContents(x, s[1..]);
      var rest := Insert(x, s[1..]);
      forall j | 0 <= j < |rest| ensures rest[j].id != s[0].id {
        assert rest[j] in rest;
        if rest[j] != x {
          var k :| 0 <= k < |s[1..]| && s[1..][k] == rest[j];
          assert s[k + 1] == rest[j];
        }
      }
    }
  }

  lemma {:induction false} OursNoRepeats(index: seq<Snapshot>)
    requires NoRepeats(index)
    ensures NoRepeats(Ours(index))
  {
    if index != [] {
      assert forall i :: 0 <= i < |index[1..]| ==> index[1..][i] == index[i + 1];
      OursNoRepeats(index[1..]);
      OursIsSorted(index[1..]);
      if index[0].origin == ByPolicy {
        InsertNoRepeats(index[0], Ours(index[1..]));
      }
    }
  }

  /** A snapshot the policy took, by its id. */
  predicate IsOurs(index: seq<Snapshot>, id: string) { exists i :: 0 <= i < |index| && index[i].id == id && index[i].origin == ByPolicy }

  predicate InWindow(index: seq<Snapshot>, keepLast: int, id: string) {
    exists i :: 0 <= i < |Ours(index)| && i < Window(keepLast) && Ours(index)[i].id == id
  }

  predicate Outside(index: seq<Snapshot>, keepLast: int, id: string) {
    exists i :: Window(keepLast) <= i < |Ours(index)| && Ours(index)[i].id == id
  }

  lemma OneSide(index: seq<Snapshot>, keepLast: int, id: string)
    requires NoRepeats(index)
    ensures IsOurs(index, id) <==> InWindow(index, keepLast, id) || Outside(index, keepLast, id)
    ensures !(InWindow(index, keepLast, id) && Outside(index, keepLast, id))
  {
    OursIsSorted(index);
    OursNoRepeats(index);
    var ours := Ours(index);
    if IsOurs(index, id) {
      var i :| 0 <= i < |index| && index[i].id == id && index[i].origin == ByPolicy;
      assert index[i] in ours;
      var k :| 0 <= k < |ours| && ours[k] == index[i];
    }
    if k :| 0 <= k < |ours| && ours[k].id == id {
      assert ours[k] in ours;
      var i :| 0 <= i < |index| && index[i] == ours[k];
    }
  }

  lemma PlanSides(index: seq<Snapshot>, keepLast: int, referenced: set<string>, attached: map<string, string>, id: string)
    ensures id in PlanOf(index, keepLast, referenced, attached).keep <==> InWindow(index, keepLast, id)
    ensures id in PlanOf(index, keepLast, referenced, attached).prune <==>
      Outside(index, keepLast, id) && !Protects(id, referenced, attached)
    ensures id in PlanOf(index, keepLast, referenced, attached).protected <==>
      Outside(index, keepLast, id) && Protects(id, referenced, attached)
  {
    var ours, older, kept := Ours(index), Older(index, keepLast), Kept(index, keepLast);
    Divides(older, referenced, attached, id);
    assert forall i :: 0 <= i < |older| ==> older[i] == ours[Window(keepLast) + i];
    if Outside(index, keepLast, id) {
      var i :| Window(keepLast) <= i < |ours| && ours[i].id == id;
      assert older[i - Window(keepLast)].id == id;
    }
    if InWindow(index, keepLast, id) {
      var i :| 0 <= i < |ours| && i < Window(keepLast) && ours[i].id == id;
      assert Ids(kept)[i] == id;
    }
    if id in Ids(kept) {
      var i :| 0 <= i < |Ids(kept)| && Ids(kept)[i] == id;
      assert kept[i] == ours[i];
    }
  }

  /** What is kept, pruned and protected are the policy's snapshots and nothing else, each of them in
      exactly one of the three; nothing referenced or attached is pruned. */
  lemma PlanPartitions(index: seq<Snapshot>, keepLast: int, referenced: set<string>, attached: map<string, string>, id: string)
    requires NoRepeats(index)
    ensures var p := PlanOf(index, keepLast, referenced, attached);
      && (id in p.keep || id in p.prune || id in p.protected <==> IsOurs(index, id))
      && !(id in p.keep && id in p.prune) && !(id in p.keep && id in p.protected) && !(id in p.prune && id in p.protected)
      && (id in p.prune ==> id !in referenced && id !in attached)
  {
    PlanSides(index, keepLast, referenced, attached, id);
    OneSide(index, keepLast, id);
  }

  lemma WindowSplits(index: seq<Snapshot>, keepLast: int)
    ensures |Kept(index, keepLast)| == if |Ours(index)| < Window(keepLast) then |Ours(index)| else Window(keepLast)
    ensures Ours(index) == Kept(index, keepLast) + Older(index, keepLast)
    ensures |Older(index, keepLast)| > 0 ==> |Kept(index, keepLast)| == Window(keepLast)
  {
  }

  lemma {:induction false} SplitInOrder(a: seq<Snapshot>, b: seq<Snapshot>, k: Snapshot, o: Snapshot)
    requires InOrder(a + b) && k in a && o in b
    ensures Before(k, o)
  {
    var i :| 0 <= i < |a| && a[i] == k;
    var j :| 0 <= j < |b| && b[j] == o;
    assert (a + b)[i] == k && (a + b)[|a| + j] == o;
  }

  /** The kept ones are the newest, as many as the window holds. */
  lemma KeptAreNewest(index: seq<Snapshot>, keepLast: int)
    ensures |Kept(index, keepLast)| == if |Ours(index)| < Window(keepLast) then |Ours(index)| else Window(keepLast)
    ensures forall k, o :: k in Kept(index, keepLast) && o in Older(index, keepLast) ==> Before(k, o)
    ensures Ours(index) == Kept(index, keepLast) + Older(index, keepLast)
  {
    var kept, older := Kept(index, keepLast), Older(index, keepLast);
    WindowSplits(index, keepLast);
    assert InOrder(kept + older) by { OursIsSorted(index); }
    forall k, o | k in kept && o in older ensures Before(k, o) {
      SplitInOrder(kept, older, k, o);
    }
  }

  // ---- the plan, row by row ---------------------------------------------------------------

  /** The policy's snapshots that are newer, or as new with an id that comes first. */
  function Ahead(index: seq<Snapshot>, x: Snapshot): set<Snapshot> {
    set s | s in index && s.origin == ByPolicy && s != x && (s.created > x.created || (s.created == x.created && Ordering.AtMost(s.id, x.id)))
  }

  function ByPolicyRows(index: seq<Snapshot>): set<Snapshot> { set s | s in index && s.origin == ByPolicy }

  lemma {:induction false} CountsItself(s: seq<Snapshot>)
    requires NoRepeats(s)
    ensures |set x | x in s| == |s|
  {
    if s != [] {
      var rest := s[1..];
      assert forall i :: 0 <= i < |rest| ==> rest[i] == s[i + 1];
      CountsItself(rest);
      assert (set x | x in s) == {s[0]} + (set x | x in rest);
      assert s[0] !in rest;
    }
  }

  /** A snapshot's place among the policy's own is how many are ahead of it. */
  lemma PlaceIsAhead(index: seq<Snapshot>, k: nat)
    requires NoRepeats(index) && k < |Ours(index)|
    ensures |Ahead(index, Ours(index)[k])| == k
  {
    var ours, x := Ours(index), Ours(index)[k];
    OursIsSorted(index);
    OursNoRepeats(index);
    CountsItself(ours[..k]);
    forall s ensures s in Ahead(index, x) <==> s in ours[..k] {
      if s in Ahead(index, x) {
        var i :| 0 <= i < |ours| && ours[i] == s;
        if i > k { AheadOnce(ours, i, k); }
      }
      if s in ours[..k] {
        var i :| 0 <= i < k && ours[i] == s;
        assert ours[i] in ours;
      }
    }
    assert Ahead(index, x) == set s | s in ours[..k];
  }

  lemma AheadOnce(ours: seq<Snapshot>, i: nat, k: nat)
    requires InOrder(ours) && NoRepeats(ours) && k < i < |ours|
    ensures !Before(ours[i], ours[k])
  {
    if Before(ours[i], ours[k]) { Ordering.Antisymmetric(ours[i].id, ours[k].id); }
  }

  /** The plan for one of the policy's snapshots, by how many are ahead of it: it is kept, in that place,
      exactly when those are fewer than the policy keeps, which is at least one; otherwise it is protected
      exactly when something depends on it, and for that reason, and pruned exactly when nothing does. */
  lemma PlanByPlace(index: seq<Snapshot>, keepLast: int, referenced: set<string>, attached: map<string, string>, x: Snapshot)
    requires NoRepeats(index) && x in index && x.origin == ByPolicy
    ensures var p, place := PlanOf(index, keepLast, referenced, attached), |Ahead(index, x)|;
      && (x.id in p.keep <==> place < 1 || place < keepLast)
      && (x.id in p.keep ==> place < |p.keep| && p.keep[place] == x.id)
      && (x.id in p.prune <==> x.id !in p.keep && x.id !in referenced && x.id !in attached)
      && (x.id in p.protected <==> x.id !in p.keep && (x.id in referenced || x.id in attached))
      && (x.id in p.protected ==> p.protected[x.id] == if x.id in referenced then Derived else AttachedOn(attached[x.id]))
  {
    OursIsSorted(index);
    OursNoRepeats(index);
    var ours := Ours(index);
    var k :| 0 <= k < |ours| && ours[k] == x;
    PlaceIsAhead(index, k);
    KeptByPlace(index, keepLast, k);
    PlanPartitions(index, keepLast, referenced, attached, x.id);
    SparedWhy(Older(index, keepLast), referenced, attached, x.id);
    assert IsOurs(index, x.id);
  }

  lemma KeptByPlace(index: seq<Snapshot>, keepLast: int, k: nat)
    requires NoRepeats(Ours(index)) && k < |Ours(index)|
    ensures Ours(index)[k].id in Ids(Kept(index, keepLast)) <==> k < 1 || k < keepLast
    ensures k < 1 || k < keepLast ==> k < |Kept(index, keepLast)| && Ids(Kept(index, keepLast))[k] == Ours(index)[k].id
  {
    var ids := Ids(Kept(index, keepLast));
    if Ours(index)[k].id in ids { var i :| 0 <= i < |ids| && ids[i] == Ours(index)[k].id; }
  }

  lemma {:induction false} SparedWhy(s: seq<Snapshot>, referenced: set<string>, attached: map<string, string>, id: string)
    ensures id in Spared(s, referenced, attached) ==>
      (id in referenced || id in attached) && Spared(s, referenced, attached)[id] == if id in referenced then Derived else AttachedOn(attached[id])
  {
    if s != [] { SparedWhy(s[..|s| - 1], referenced, attached, id); }
  }

  /** As many are kept as the policy keeps, or as there are. */
  lemma KeepsSoMany(index: seq<Snapshot>, keepLast: int, referenced: set<string>, attached: map<string, string>)
    requires NoRepeats(index)
    ensures |PlanOf(index, keepLast, referenced, attached).keep|
         == var most := if keepLast < 1 then 1 else keepLast; if |ByPolicyRows(index)| < most then |ByPolicyRows(index)| else most
  {
    OursIsSorted(index);
    OursNoRepeats(index);
    CountsItself(Ours(index));
    assert ByPolicyRows(index) == set s | s in Ours(index);
  }

  // ---- planning again ---------------------------------------------------------------------

  /** The index once these have been deleted. */
  function Without(index: seq<Snapshot>, gone: set<string>): seq<Snapshot> {
    if index == [] then []
    else (if index[0].id in gone then [] else [index[0]]) + Without(index[1..], gone)
  }

  lemma {:induction false} WithoutHas(s: seq<Snapshot>, gone: set<string>, x: Snapshot)
    ensures x in Without(s, gone) <==> x in s && x.id !in gone
  {
    if s != [] { WithoutHas(s[1..], gone, x); }
  }

  lemma WithoutFirst(x: Snapshot, s: seq<Snapshot>, gone: set<string>)
    ensures Without([x] + s, gone) == (if x.id in gone then [] else [x]) + Without(s, gone)
  {
    assert ([x] + s)[1..] == s;
  }

  lemma {:induction false} InsertWithout(x: Snapshot, s: seq<Snapshot>, gone: set<string>)
    requires InOrder(s)
    ensures Without(Insert(x, s), gone) == if x.id in gone then Without(s, gone) else Insert(x, Without(s, gone))
  {
    if s == [] || Before(x, s[0]) {
      WithoutFirst(x, s, gone);
      if x.id !in gone { InsertsFirst(x, s, gone); }
    } else {
      InsertWithout(x, s[1..], gone);
      WithoutFirst(s[0], Insert(x, s[1..]), gone);
      assert s == [s[0]] + s[1..];
      WithoutFirst(s[0], s[1..], gone);
      var rest := Without(s[1..], gone);
      if s[0].id in gone {
        assert Without(s, gone) == rest && Without(Insert(x, s), gone) == Without(Insert(x, s[1..]), gone);
      } else {
        assert Without(s, gone) == [s[0]] + rest && ([s[0]] + rest)[1..] == rest;
      }
    }
  }

  /** Deleting some of what follows `x` leaves `x` in front of the rest. */
  lemma InsertsFirst(x: Snapshot, s: seq<Snapshot>, gone: set<string>)
    requires InOrder(s) && (s == [] || Before(x, s[0]))
    ensures Insert(x, Without(s, gone)) == [x] + Without(s, gone)
  {
    var rest := Without(s, gone);
    if rest != [] {
      WithoutHas(s, gone, rest[0]);
      var j :| 0 <= j < |s| && s[j] == rest[0];
      if j > 0 { BeforeChains(x, s[0], s[j]); }
    }
  }

  /** Deleting and sorting commute. */
  lemma {:induction false} OursWithout(index: seq<Snapshot>, gone: set<string>)
    ensures Ours(Without(index, gone)) == Without(Ours(index), gone)
  {
    if index != [] {
      var x, rest := index[0], index[1..];
      OursWithout(rest, gone);
      OursIsSorted(rest);
      if x.origin == ByPolicy { InsertWithout(x, Ours(rest), gone); }
      if x.id in gone {
        assert Without(index, gone) == Without(rest, gone);
      } else {
        assert Without(index, gone) == [x] + Without(rest, gone);
        assert ([x] + Without(rest, gone))[1..] == Without(rest, gone);
      }
    }
  }

  lemma {:induction false} WithoutSplits(a: seq<Snapshot>, b: seq<Snapshot>, gone: set<string>)
    ensures Without(a + b, gone) == Without(a, gone) + Without(b, gone)
  {
    if a == [] {
      assert a + b == b;
    } else {
      assert (a + b)[1..] == a[1..] + b;
      WithoutSplits(a[1..], b, gone);
    }
  }

  lemma {:induction false} WithoutNone(s: seq<Snapshot>, gone: set<string>)
    requires forall x <- s :: x.id !in gone
    ensures Without(s, gone) == s
  {
    if s != [] { WithoutNone(s[1..], gone); }
  }

  lemma {:induction false} NothingUnprotected(s: seq<Snapshot>, referenced: set<string>, attached: map<string, string>)
    requires forall x <- s :: Protects(x.id, referenced, attached)
    ensures Unprotected(s, referenced, attached) == []
  {
    if s != [] {
      NothingUnprotected(s[..|s| - 1], referenced, attached);
      assert s[|s| - 1] in s;
    }
  }

  function ToSet(ids: seq<string>): set<string> { set id | id in ids }

  /** The window after any of the pruned ones are deleted is the window before. */
  lemma WindowStays(index: seq<Snapshot>, keepLast: int, referenced: set<string>, attached: map<string, string>, gone: set<string>)
    requires NoRepeats(index) && gone <= ToSet(PlanOf(index, keepLast, referenced, attached).prune)
    ensures Kept(Without(index, gone), keepLast) == Kept(index, keepLast)
    ensures Older(Without(index, gone), keepLast) == Without(Older(index, keepLast), gone)
  {
    var kept, older := Kept(index, keepLast), Older(index, keepLast);
    KeptAreNewest(index, keepLast);
    OursWithout(index, gone);
    WithoutSplits(kept, older, gone);
    forall x | x in kept ensures x.id !in gone {
      var i :| 0 <= i < |kept| && kept[i] == x;
      assert InWindow(index, keepLast, x.id) by { assert Ours(index)[i].id == x.id; }
      PlanSides(index, keepLast, referenced, attached, x.id);
      OneSide(index, keepLast, x.id);
    }
    WithoutNone(kept, gone);
    if older == [] { assert Without(older, gone) == [] && kept + [] == kept; }
  }

  /** Applying the plan and planning again prunes nothing. */
  lemma PlanningAgainPrunesNothing(index: seq<Snapshot>, keepLast: int, referenced: set<string>, attached: map<string, string>)
    requires NoRepeats(index)
    ensures var p := PlanOf(index, keepLast, referenced, attached); var q := PlanOf(Without(index, ToSet(p.prune)), keepLast, referenced, attached);
      q.prune == [] && q.keep == p.keep
  {
    var p := PlanOf(index, keepLast, referenced, attached);
    var gone := ToSet(p.prune);
    WindowStays(index, keepLast, referenced, attached, gone);
    var older := Older(index, keepLast);
    forall x | x in Without(older, gone) ensures Protects(x.id, referenced, attached) {
      WithoutHas(older, gone, x);
      var i :| 0 <= i < |older| && older[i] == x;
      Divides(older, referenced, attached, x.id);
    }
    NothingUnprotected(Without(older, gone), referenced, attached);
  }

  // ---- policies ---------------------------------------------------------------------------

  datatype Scope = Vdisk | Container | Cluster

  const Precedence := [Vdisk, Container, Cluster]

  const ClusterTarget := "*"

  /** A missing or zero interval is read as how often the job runs. */
  datatype Policy = Policy(scope: Scope, target: string, enabled: bool, interval: Option<int>, keepLast: int)

  const RunIntervalSeconds := 3600
  const DueSlackSeconds := 300

  function IntervalSeconds(p: Policy): int {
    if p.interval.None? || p.interval.value == 0 then RunIntervalSeconds else p.interval.value
  }

  /** The row for a scope and target; of two, the later one. */
  function RowFor(policies: seq<Policy>, scope: Scope, target: string): Option<Policy> {
    if policies == [] then None
    else
      var last := policies[|policies| - 1];
      if last.scope == scope && last.target == target then Some(last) else RowFor(policies[..|policies| - 1], scope, target)
  }

  function TargetIn(scope: Scope, vdisk: string, container: string): string {
    match scope case Vdisk => vdisk case Container => container case Cluster => ClusterTarget
  }

  /** The scope is the narrowest that has a row for the vdisk. */
  predicate Governs(policies: seq<Policy>, vdisk: string, container: string, scope: Scope) {
    && RowFor(policies, scope, TargetIn(scope, vdisk, container)).Some?
    && forall i, j :: 0 <= i < j < |Precedence| && Precedence[j] == scope ==>
         RowFor(policies, Precedence[i], TargetIn(Precedence[i], vdisk, container)).None?
  }

  method EffectivePolicy(policies: seq<Policy>, vdisk: string, container: string) returns (p: Option<Policy>)
    // The narrowest row decides, a disabled one by exempting the vdisk; no row, no policy.
    ensures p.Some? ==> p.value.enabled && Governs(policies, vdisk, container, p.value.scope)
    ensures p.Some? ==> RowFor(policies, p.value.scope, TargetIn(p.value.scope, vdisk, container)) == p
    ensures p.None? ==> forall s | Governs(policies, vdisk, container, s) ::
      !RowFor(policies, s, TargetIn(s, vdisk, container)).value.enabled
  {
    for i := 0 to 3
      invariant forall k :: 0 <= k < i ==> RowFor(policies, Precedence[k], TargetIn(Precedence[k], vdisk, container)).None?
    {
      var scope := Precedence[i];
      var row := RowFor(policies, scope, TargetIn(scope, vdisk, container));
      if row.Some? {
        RowIsFor(policies, scope, TargetIn(scope, vdisk, container));
        OneScopeGoverns(policies, vdisk, container, i);
        return if row.value.enabled then row else None;
      }
    }
    forall s ensures !Governs(policies, vdisk, container, s) {
      assert Precedence[0] == Vdisk && Precedence[1] == Container && Precedence[2] == Cluster;
    }
    return None;
  }

  lemma {:induction false} RowIsFor(policies: seq<Policy>, scope: Scope, target: string)
    requires RowFor(policies, scope, target).Some?
    ensures RowFor(policies, scope, target).value.scope == scope
  {
    var last := policies[|policies| - 1];
    if !(last.scope == scope && last.target == target) { RowIsFor(policies[..|policies| - 1], scope, target); }
  }

  lemma OneScopeGoverns(policies: seq<Policy>, vdisk: string, container: string, i: nat)
    requires i < 3 && RowFor(policies, Precedence[i], TargetIn(Precedence[i], vdisk, container)).Some?
    requires forall k :: 0 <= k < i ==> RowFor(policies, Precedence[k], TargetIn(Precedence[k], vdisk, container)).None?
    ensures forall s :: Governs(policies, vdisk, container, s) <==> s == Precedence[i]
  {
    assert Precedence[0] == Vdisk && Precedence[1] == Container && Precedence[2] == Cluster;
    forall s | Governs(policies, vdisk, container, s) ensures s == Precedence[i] {
      var j :| 0 <= j < 3 && Precedence[j] == s;
    }
  }

  // ---- runs over one vdisk ----------------------------------------------------------------

  /** Milliseconds a snapshot must be older than for the next to be due. */
  function Spacing(p: Policy): int { (IntervalSeconds(p) - DueSlackSeconds) * 1000 }

  function Newest(index: seq<Snapshot>): Option<int> {
    if Ours(index) == [] then None else Some(Ours(index)[0].created)
  }

  predicate IsDue(p: Policy, newest: Option<int>, now: int) { newest.None? || now - newest.value >= Spacing(p) }

  /** When a snapshot is due: at once where the policy has none, and otherwise when the newest is as old as
      the policy's interval, an hour where it names none, less five minutes. */
  lemma DueExactly(p: Policy, newest: Option<int>, now: int)
    ensures IsDue(p, newest, now) <==>
      newest.None? || (now - newest.value) >= (if p.interval.None? || p.interval.value == 0 then 3600 * 1000 else p.interval.value * 1000) - 300 * 1000
  {
  }

  lemma NewestIsMax(index: seq<Snapshot>)
    ensures Newest(index).None? ==> forall s <- index :: s.origin != ByPolicy
    ensures Newest(index).Some? ==> exists s :: s in index && s.origin == ByPolicy && s.created == Newest(index).value
    ensures Newest(index).Some? ==> forall s <- index :: s.origin == ByPolicy ==> s.created <= Newest(index).value
  {
    OursIsSorted(index);
    var ours := Ours(index);
    if ours != [] {
      assert ours[0] in ours;
      forall s | s in index && s.origin == ByPolicy ensures s.created <= ours[0].created {
        assert s in ours;
        var k :| 0 <= k < |ours| && ours[k] == s;
      }
    }
  }

  // ---- taking -----------------------------------------------------------------------------

  const MinuteMs := 60000

  function Minute(now: nat): nat { now / MinuteMs }

  /** The name a run gives its snapshot: one for each minute. The vdisk's own id, the same in all of
      them, is left out, and the minute is written as its number. */
  function AutoName(now: nat): string { "-auto-" + Ballots.Digits(Minute(now)) }

  /** Two runs compute the same name exactly if they began in the same minute. */
  lemma NamesTellMinutes(a: nat, b: nat)
    ensures AutoName(a) == AutoName(b) <==> Minute(a) == Minute(b)
  {
    Ballots.DigitsRead(Minute(a));
    Ballots.DigitsRead(Minute(b));
    assert AutoName(a)[6..] == Ballots.Digits(Minute(a)) && AutoName(b)[6..] == Ballots.Digits(Minute(b));
  }

  /** What the storage service answers a run that wants its snapshot: it obliges, unless the name is
      taken, and then the insert into the index may be lost; it fails; or the vdisk is attached nowhere. */
  datatype Reply = Obliges(recorded: bool) | Fails | Unattached

  /** A policy snapshot that was recorded: when it was taken, the spacing its policy asked for, and how
      many had been recorded when its run looked at the index. */
  datatype Entry = Entry(created: nat, spacing: int, seen: nat)

  /** The index of one vdisk's snapshots, the names that stand at the storage service, and every policy
      snapshot ever recorded. */
  datatype Store = Store(index: seq<Snapshot>, standing: set<string>, log: seq<Entry>)

  predicate Takes(st: Store, now: nat, reply: Reply) { reply.Obliges? && AutoName(now) !in st.standing }

  function Taken(st: Store, now: nat, p: Policy, seen: nat, reply: Reply): Store {
    if !Takes(st, now, reply) then st
    else if !reply.recorded then st.(standing := st.standing + {AutoName(now)})
    else Store(st.index + [Snapshot(AutoName(now), now, ByPolicy)], st.standing + {AutoName(now)},
               st.log + [Entry(now, Spacing(p), seen)])
  }

  function Pruned(st: Store, gone: set<string>): Store {
    st.(index := Without(st.index, gone), standing := st.standing - gone)
  }

  predicate Prunable(st: Store, p: Policy, referenced: set<string>, attached: map<string, string>, gone: set<string>) {
    gone <= ToSet(PlanOf(st.index, p.keepLast, referenced, attached).prune)
  }

  // ---- runs that may overlap --------------------------------------------------------------

  /** A run under way: when it looked, what it decided, and whether it still has its snapshot to take. */
  datatype Pass = Pass(now: nat, policy: Policy, due: bool, seen: nat, taking: bool)

  /** Deciding, taking and pruning are each one step. `gone`: which of the planned deletions went
      through. A run may end without pruning: it failed, or is blind, or was killed. */
  datatype Event =
    | Decide(run: nat, now: nat, policy: Policy)
    | Take(run: nat, reply: Reply)
    | Prune(run: nat, referenced: set<string>, attached: map<string, string>, gone: set<string>)
    | End(run: nat)
    | TakeOther(snapshot: Snapshot)   // by hand, or before a rollback

  datatype World = World(store: Store, runs: map<nat, Pass>)

  predicate Enabled(w: World, e: Event) {
    match e
    case Decide(r, _, _) => r !in w.runs
    case Take(r, _) => r in w.runs && w.runs[r].taking
    case Prune(r, referenced, attached, gone) =>
      r in w.runs && !w.runs[r].taking && Prunable(w.store, w.runs[r].policy, referenced, attached, gone)
    case End(r) => r in w.runs
    case TakeOther(s) => s.origin != ByPolicy && s.id !in w.store.standing
  }

  function Decided(st: Store, now: nat, p: Policy): Pass {
    var due := IsDue(p, Newest(st.index), now);
    Pass(now, p, due, |st.log|, due)
  }

  function Next(w: World, e: Event): World
    requires Enabled(w, e)
  {
    match e
    case Decide(r, now, p) => w.(runs := w.runs[r := Decided(w.store, now, p)])
    case Take(r, reply) =>
      var run := w.runs[r];
      World(Taken(w.store, run.now, run.policy, run.seen, reply),
            if reply.Fails? then w.runs - {r} else w.runs[r := run.(taking := false)])
    case Prune(r, _, _, gone) => World(Pruned(w.store, gone), w.runs - {r})
    case End(r) => w.(runs := w.runs - {r})
    case TakeOther(s) => w.(store := w.store.(index := w.store.index + [s], standing := w.store.standing + {s.id}))
  }

  predicate Step(w: World, e: Event, v: World) { Enabled(w, e) && v == Next(w, e) }

  predicate History(ws: seq<World>, es: seq<Event>) {
    && |ws| == |es| + 1
    && ws[0] == World(Store([], {}, []), map[])
    && forall i {:trigger es[i]} :: 0 <= i < |es| ==> Step(ws[i], es[i], ws[i + 1])
  }

  /** The newest recorded snapshot is still in the index, so the index knows the end of the log; and
      whatever is in the index stands. */
  predicate Remembers(st: Store) {
    && NoRepeats(st.index) && (forall s <- st.index :: s.id in st.standing)
    && (Newest(st.index).None? ==> st.log == [])
    && (Newest(st.index).Some? ==> forall i :: 0 <= i < |st.log| ==> st.log[i].created <= Newest(st.index).value)
  }

  /** The earlier was there to be seen, and so the later was taken at least its policy's spacing after. */
  predicate SpacedFrom(log: seq<Entry>, i: nat, j: nat)
    requires i < |log| && j < |log|
  {
    log[j].created - log[i].created >= log[j].spacing
  }

  predicate SpacedIfSeen(log: seq<Entry>) {
    forall i, j :: 0 <= i < j < |log| && i < log[j].seen ==> SpacedFrom(log, i, j)
  }

  /** A run that found itself due did so against everything recorded before it looked. */
  predicate DueRightly(log: seq<Entry>, run: Pass) {
    run.seen <= |log| && (run.due ==> forall i :: 0 <= i < run.seen ==> run.now - log[i].created >= Spacing(run.policy))
  }

  predicate Sound(w: World) {
    && Remembers(w.store) && SpacedIfSeen(w.store.log)
    && (forall r :: r in w.runs ==> DueRightly(w.store.log, w.runs[r]) && (w.runs[r].taking ==> w.runs[r].due))
  }

  lemma {:induction false} AppendOurs(index: seq<Snapshot>, s: Snapshot)
    requires s.origin != ByPolicy
    ensures Ours(index + [s]) == Ours(index)
  {
    if index == [] {
      assert index + [s] == [s] && [s][1..] == [];
    } else {
      assert (index + [s])[1..] == index[1..] + [s];
      AppendOurs(index[1..], s);
    }
  }

  lemma {:induction false} WithoutNoRepeats(index: seq<Snapshot>, gone: set<string>)
    requires NoRepeats(index)
    ensures NoRepeats(Without(index, gone))
  {
    if index != [] {
      assert forall i :: 0 <= i < |index[1..]| ==> index[1..][i] == index[i + 1];
      WithoutNoRepeats(index[1..], gone);
      var rest := Without(index[1..], gone);
      forall j | 0 <= j < |rest| ensures rest[j].id != index[0].id {
        WithoutHas(index[1..], gone, rest[j]);
      }
    }
  }

  /** Pruning never touches the newest. */
  lemma PruneKeepsNewest(index: seq<Snapshot>, keepLast: int, referenced: set<string>, attached: map<string, string>, gone: set<string>)
    requires NoRepeats(index) && gone <= ToSet(PlanOf(index, keepLast, referenced, attached).prune)
    ensures Newest(Without(index, gone)) == Newest(index)
  {
    WindowStays(index, keepLast, referenced, attached, gone);
    KeptAreNewest(index, keepLast);
    KeptAreNewest(Without(index, gone), keepLast);
    var kept := Kept(index, keepLast);
    assert kept == [] ==> Ours(index) == [] && Ours(Without(index, gone)) == [];
  }

  lemma TakeRemembers(st: Store, now: nat, p: Policy, seen: nat, reply: Reply)
    requires Remembers(st)
    ensures Remembers(Taken(st, now, p, seen, reply))
  {
    if Takes(st, now, reply) && reply.recorded { RecordRemembers(st, Taken(st, now, p, seen, reply), Snapshot(AutoName(now), now, ByPolicy)); }
  }

  lemma RecordRemembers(st: Store, after: Store, s: Snapshot)
    requires Remembers(st) && s.origin == ByPolicy && s.id !in st.standing
    requires after.index == st.index + [s] && after.standing == st.standing + {s.id}
    requires |after.log| == |st.log| + 1 && after.log[..|st.log|] == st.log && after.log[|st.log|].created == s.created
    ensures Remembers(after)
  {
    NewestIsMax(after.index);
    NewestIsMax(st.index);
    assert s in after.index;
    if Newest(st.index).Some? {
      var old_ :| old_ in st.index && old_.origin == ByPolicy && old_.created == Newest(st.index).value;
      assert old_ in after.index;
    }
    forall i | 0 <= i < |after.log| ensures after.log[i].created <= Newest(after.index).value {
      if i < |st.log| { assert after.log[..|st.log|][i] == st.log[i]; }
    }
  }

  lemma PruneRemembers(st: Store, p: Policy, referenced: set<string>, attached: map<string, string>, gone: set<string>)
    requires Remembers(st) && Prunable(st, p, referenced, attached, gone)
    ensures Remembers(Pruned(st, gone))
  {
    PruneKeepsNewest(st.index, p.keepLast, referenced, attached, gone);
    WithoutNoRepeats(st.index, gone);
    forall s | s in Without(st.index, gone) ensures s.id in st.standing - gone { WithoutHas(st.index, gone, s); }
  }

  lemma OtherRemembers(st: Store, s: Snapshot)
    requires Remembers(st) && s.origin != ByPolicy && s.id !in st.standing
    ensures Remembers(st.(index := st.index + [s], standing := st.standing + {s.id}))
  {
    AppendOurs(st.index, s);
  }

  lemma DecideRightly(st: Store, now: nat, p: Policy)
    requires Remembers(st)
    ensures DueRightly(st.log, Decided(st, now, p))
  {
  }

  lemma TakeSpaces(log: seq<Entry>, run: Pass, e: Entry)
    requires SpacedIfSeen(log) && DueRightly(log, run) && run.due && e == Entry(run.now, Spacing(run.policy), run.seen)
    ensures SpacedIfSeen(log + [e])
  {
    var after := log + [e];
    forall i, j | 0 <= i < j < |after| && i < after[j].seen ensures SpacedFrom(after, i, j) {
      if j < |log| { assert SpacedFrom(log, i, j); }
    }
  }

  lemma TakeIsSound(w: World, r: nat, reply: Reply)
    requires Enabled(w, Take(r, reply)) && Sound(w)
    ensures Sound(Next(w, Take(r, reply)))
  {
    var run, st := w.runs[r], w.store;
    var v := Next(w, Take(r, reply));
    TakeRemembers(st, run.now, run.policy, run.seen, reply);
    if Takes(st, run.now, reply) && reply.recorded { TakeSpaces(st.log, run, Entry(run.now, Spacing(run.policy), run.seen)); }
    forall q | q in v.runs ensures DueRightly(v.store.log, v.runs[q]) && (v.runs[q].taking ==> v.runs[q].due) {
      assert DueRightly(st.log, w.runs[q]);
    }
  }

  lemma StepIsSound(w: World, e: Event)
    requires Enabled(w, e) && Sound(w)
    ensures Sound(Next(w, e))
  {
    match e
    case Decide(r, now, p) => DecideRightly(w.store, now, p);
    case Take(r, reply) => TakeIsSound(w, r, reply);
    case Prune(r, referenced, attached, gone) => PruneRemembers(w.store, w.runs[r].policy, referenced, attached, gone);
    case End(r) =>
    case TakeOther(s) => OtherRemembers(w.store, s);
  }

  /** Over any runs, overlapping as they may, whatever was taken, missed, pruned or done by hand in between
      and however the clock went: of any two policy snapshots recorded, the later was taken at least the
      interval its policy asked for, less the slack, after the earlier, if its run looked at the index
      after the earlier was recorded. */
  lemma {:induction false} SnapshotsAreSpaced(ws: seq<World>, es: seq<Event>, i: nat)
    requires History(ws, es) && i < |ws|
    ensures Sound(ws[i])
  {
    if i > 0 {
      SnapshotsAreSpaced(ws, es, i - 1);
      assert Step(ws[i - 1], es[i - 1], ws[i]);
      StepIsSound(ws[i - 1], es[i - 1]);
    }
  }

  // ---- runs that do not overlap -----------------------------------------------------------

  /** No run looks at the index while another has yet to take. */
  predicate Waits(w: World, e: Event) { e.Decide? ==> forall r :: r in w.runs ==> !w.runs[r].taking }

  /** Whoever has yet to take has seen everything that was recorded, and is alone. */
  predicate Informed(w: World) {
    && (forall r :: r in w.runs && w.runs[r].taking ==> w.runs[r].seen == |w.store.log|)
    && (forall q, r :: q in w.runs && r in w.runs && w.runs[q].taking && w.runs[r].taking ==> q == r)
    && (forall j :: 0 <= j < |w.store.log| ==> w.store.log[j].seen == j)
  }

  lemma StaysInformed(w: World, e: Event)
    requires Enabled(w, e) && Informed(w) && Waits(w, e)
    ensures Informed(Next(w, e))
  {
  }

  lemma {:induction false} AloneIsInformed(ws: seq<World>, es: seq<Event>, i: nat)
    requires History(ws, es) && i < |ws| && forall k {:trigger es[k]} :: 0 <= k < |es| ==> Waits(ws[k], es[k])
    ensures Informed(ws[i])
  {
    if i > 0 {
      AloneIsInformed(ws, es, i - 1);
      assert Step(ws[i - 1], es[i - 1], ws[i]);
      StaysInformed(ws[i - 1], es[i - 1]);
    }
  }

  /** Where they do not, all the snapshots recorded are spaced. */
  lemma RunsAloneAreSpaced(ws: seq<World>, es: seq<Event>, n: nat, i: nat, j: nat)
    requires History(ws, es) && n < |ws| && forall k {:trigger es[k]} :: 0 <= k < |es| ==> Waits(ws[k], es[k])
    requires i < j < |ws[n].store.log|
    ensures SpacedFrom(ws[n].store.log, i, j)
  {
    SnapshotsAreSpaced(ws, es, n);
    AloneIsInformed(ws, es, n);
  }

  // ---- when two runs both record ----------------------------------------------------------

  /** The event makes a snapshot of this name stand. */
  predicate Makes(w: World, e: Event, id: string) {
    || (e.Take? && e.run in w.runs && AutoName(w.runs[e.run].now) == id && Takes(w.store, w.runs[e.run].now, e.reply))
    || (e.TakeOther? && e.snapshot.id == id)
  }

  predicate Unmakes(e: Event, id: string) { e.Prune? && id in e.gone }

  predicate Spares(es: seq<Event>, q: nat, id: string)
    requires q < |es|
  {
    !Unmakes(es[q], id)
  }

  /** It was made at `h` and has not been pruned since. */
  predicate StandsFrom(ws: seq<World>, es: seq<Event>, h: nat, k: nat, id: string)
    requires k <= |es| < |ws|
  {
    h < k && Makes(ws[h], es[h], id) && forall q :: h < q < k ==> Spares(es, q, id)
  }

  ghost predicate Made(ws: seq<World>, es: seq<Event>, k: nat, id: string)
    requires k <= |es| < |ws|
  {
    exists h: nat :: StandsFrom(ws, es, h, k, id)
  }

  lemma StandingChanges(w: World, e: Event, id: string)
    requires Enabled(w, e)
    ensures id in Next(w, e).store.standing <==> Makes(w, e, id) || (id in w.store.standing && !Unmakes(e, id))
  {
  }

  /** A name stands exactly from when it was made until it is pruned. */
  lemma {:induction false} StandsExactly(ws: seq<World>, es: seq<Event>, k: nat, id: string)
    requires History(ws, es) && k < |ws|
    ensures id in ws[k].store.standing <==> Made(ws, es, k, id)
  {
    if k > 0 {
      StandsExactly(ws, es, k - 1, id);
      assert Step(ws[k - 1], es[k - 1], ws[k]);
      StandingChanges(ws[k - 1], es[k - 1], id);
      StandsOn(ws, es, k, id);
    }
  }

  lemma StandsOn(ws: seq<World>, es: seq<Event>, k: nat, id: string)
    requires 0 < k <= |es| < |ws|
    ensures Made(ws, es, k, id) <==> Makes(ws[k - 1], es[k - 1], id) || (Made(ws, es, k - 1, id) && !Unmakes(es[k - 1], id))
  {
    if Made(ws, es, k, id) {
      var h: nat :| StandsFrom(ws, es, h, k, id);
      if h < k - 1 {
        assert Spares(es, k - 1, id);
        assert StandsFrom(ws, es, h, k - 1, id);
      }
    }
    if Makes(ws[k - 1], es[k - 1], id) {
      assert StandsFrom(ws, es, k - 1, k, id);
    } else if Made(ws, es, k - 1, id) && !Unmakes(es[k - 1], id) {
      var h: nat :| StandsFrom(ws, es, h, k - 1, id);
      assert StandsFrom(ws, es, h, k, id);
    }
  }

  predicate RecordsAt(ws: seq<World>, es: seq<Event>, m: nat)
    requires m < |es| < |ws|
  {
    ws[m + 1].store.log != ws[m].store.log
  }

  /** Of the runs that get as far as the storage service and then to the index, exactly those record for
      whose minute no snapshot stands. */
  lemma RecordsExactly(ws: seq<World>, es: seq<Event>, m: nat)
    requires History(ws, es) && m < |es| && es[m].Take? && es[m].run in ws[m].runs && es[m].reply == Obliges(true)
    ensures RecordsAt(ws, es, m) <==> !Made(ws, es, m, AutoName(ws[m].runs[es[m].run].now))
  {
    assert Step(ws[m], es[m], ws[m + 1]);
    StandsExactly(ws, es, m, AutoName(ws[m].runs[es[m].run].now));
  }

  /** Two runs that both found a snapshot due, the first's taken and standing and nobody else's in the
      second's minute: both record exactly if they began in different minutes, however close. */
  lemma OverlappingRunsBothRecord(ws: seq<World>, es: seq<Event>, k: nat, m: nat)
    requires History(ws, es) && k < m < |es| && es[k].Take? && es[m].Take? && es[k].run in ws[k].runs && es[m].run in ws[m].runs
    requires StandsFrom(ws, es, k, m, AutoName(ws[k].runs[es[k].run].now)) && es[m].reply == Obliges(true)
    requires forall h: nat :: h != k ==> !StandsFrom(ws, es, h, m, AutoName(ws[m].runs[es[m].run].now))
    ensures RecordsAt(ws, es, m) <==> Minute(ws[k].runs[es[k].run].now) != Minute(ws[m].runs[es[m].run].now)
  {
    RecordsExactly(ws, es, m);
    NamesTellMinutes(ws[k].runs[es[k].run].now, ws[m].runs[es[m].run].now);
  }

  lemma Extend(ws: seq<World>, es: seq<Event>, e: Event)
    requires History(ws, es) && Enabled(ws[|es|], e)
    ensures History(ws + [Next(ws[|es|], e)], es + [e])
  {
    var vs, fs := ws + [Next(ws[|es|], e)], es + [e];
    forall i | 0 <= i < |fs| ensures Step(vs[i], fs[i], vs[i + 1]) {
      if i < |es| { assert Step(ws[i], es[i], ws[i + 1]); }
    }
  }

  /** Two runs a millisecond apart, either side of a minute, both find a snapshot due and both record. */
  lemma StraddlingAMinute(p: Policy) returns (ws: seq<World>, es: seq<Event>)
    ensures History(ws, es)
    ensures es == [Decide(0, 59999, p), Decide(1, 60000, p), Take(0, Obliges(true)), Take(1, Obliges(true))]
    ensures ws[4].store.log == [Entry(59999, Spacing(p), 0), Entry(60000, Spacing(p), 0)]
  {
    var none := Store([], {}, []);
    var a, b := Pass(59999, p, true, 0, true), Pass(60000, p, true, 0, true);
    var s1 := World(none, map[0 := a]);
    var s2 := World(none, map[0 := a, 1 := b]);
    ws, es := [World(none, map[])], [];
    Extend(ws, es, Decide(0, 59999, p));
    assert Next(ws[0], Decide(0, 59999, p)) == s1;
    ws, es := ws + [s1], es + [Decide(0, 59999, p)];
    Extend(ws, es, Decide(1, 60000, p));
    assert Next(s1, Decide(1, 60000, p)) == s2;
    ws, es := ws + [s2], es + [Decide(1, 60000, p)];
    Extend(ws, es, Take(0, Obliges(true)));
    var s3 := Next(s2, Take(0, Obliges(true)));
    ws, es := ws + [s3], es + [Take(0, Obliges(true))];
    assert s3.store.standing == {AutoName(59999)} && s3.runs[1] == b;
    NamesTellMinutes(59999, 60000);
    Extend(ws, es, Take(1, Obliges(true)));
    ws, es := ws + [Next(s3, Take(1, Obliges(true)))], es + [Take(1, Obliges(true))];
  }

  // ---- the runner -------------------------------------------------------------------------

  /** What one run over one vdisk has to report. */
  class Runner {
    var index: seq<Snapshot>
    var standing: set<string>
    var taken: seq<string>
    var pruned: seq<string>
    var spared: map<string, Reason>
    var failures: nat
    var skipped: nat
    ghost var log: seq<Entry>

    ghost function View(): Store
      reads this
    {
      Store(index, standing, log)
    }

    constructor (index: seq<Snapshot>, standing: set<string>, ghost log: seq<Entry>)
      ensures View() == Store(index, standing, log) && taken == [] && pruned == [] && spared == map[] && failures == 0 && skipped == 0
    {
      this.index, this.standing, this.log := index, standing, log;
      taken, pruned, spared, failures, skipped := [], [], map[], 0, 0;
    }

    /** Takes a snapshot; says whether the run may go on to prune. One whose insert was lost counts as
        taken, and one that another run took first does not. */
    method TakeOne(now: nat, p: Policy, ghost seen: nat, reply: Reply) returns (ok: bool)
      modifies this`index, this`standing, this`taken, this`failures, this`skipped, this`log
      ensures ok == !reply.Fails?
      ensures View() == Taken(old(View()), now, p, seen, reply)
      ensures failures == old(failures) + (if ok then 0 else 1)
      ensures taken == old(taken) + (if Takes(old(View()), now, reply) then [AutoName(now)] else [])
      ensures skipped == old(skipped) + (if reply.Unattached? then 1 else 0)
    {
      ok := true;
      match reply {
        case Obliges(recorded) =>
          var child := AutoName(now);
          if child in standing { return; }
          standing := standing + {child};
          if recorded {
            index := index + [Snapshot(child, now, ByPolicy)];
            log := log + [Entry(now, Spacing(p), seen)];
          }
          taken := taken + [child];
        case Fails =>
          failures := failures + 1;
          ok := false;
        case Unattached => skipped := skipped + 1;
      }
    }

    /** Takes a snapshot if one is due; says whether the run may go on to prune. */
    method TakeIfDue(now: nat, p: Policy, reply: Reply) returns (ok: bool)
      modifies this`index, this`standing, this`taken, this`failures, this`skipped, this`log
      ensures ok == !(IsDue(p, Newest(old(index)), now) && reply.Fails?)
      ensures View() == Alone(old(View()), now, p, reply)
      ensures Counted(old(View()), now, p, reply, old(taken), taken, old(failures), failures, old(skipped), skipped)
    {
      ok := true;
      var ours := Ours(index);
      var newest := if ours == [] then None else Some(ours[0].created);
      if newest.None? || now - newest.value >= Spacing(p) { ok := TakeOne(now, p, |log|, reply); }
    }

    /** One vdisk, with nobody else at it: a snapshot if one is due, then retention, unless the run is in
        no state to prune. */
    method OneVdisk(now: nat, p: Policy, reply: Reply, blind: bool, referenced: set<string>, attached: map<string, string>,
                    deletable: set<string>)
      returns (gone: set<string>)
      modifies this
      ensures Prunable(Alone(old(View()), now, p, reply), p, referenced, attached, gone)
      ensures View() == Pruned(Alone(old(View()), now, p, reply), gone)
      ensures !MayPrune(old(View()), now, p, reply, blind) ==> pruned == old(pruned) && spared == old(spared) && gone == {}
      ensures MayPrune(old(View()), now, p, reply, blind) ==>
        var plan := PlanOf(Alone(old(View()), now, p, reply).index, p.keepLast, referenced, attached);
        gone == ToSet(plan.prune) * deletable && spared == old(spared) + plan.protected && pruned == old(pruned) + Deleted(plan.prune, deletable)
      ensures Counted(old(View()), now, p, reply, old(taken), taken, old(failures), failures, old(skipped), skipped)
    {
      gone := {};
      var ok := TakeIfDue(now, p, reply);
      WithoutNone(index, {});
      if !ok || blind { return; }
      var plan := PlanRetention(index, p.keepLast, referenced, attached);
      spared := spared + plan.protected;
      gone := PruneAll(plan.prune, deletable);
    }

    /** Deletes what was planned, as far as each deletion goes through: a second look may find the
        snapshot has children by now, and the delete may be refused. */
    method PruneAll(plan: seq<string>, deletable: set<string>) returns (gone: set<string>)
      modifies this`index, this`standing, this`pruned
      ensures gone == ToSet(plan) * deletable && index == Without(old(index), gone) && standing == old(standing) - gone
      ensures pruned == old(pruned) + Deleted(plan, deletable)
    {
      gone := {};
      WithoutNone(index, {});
      for i := 0 to |plan|
        invariant gone == ToSet(plan[..i]) * deletable && index == Without(old(index), gone) && standing == old(standing) - gone
        invariant pruned == old(pruned) + Deleted(plan[..i], deletable)
      {
        PlanNext(plan, i, deletable);
        if plan[i] in deletable {
          WithoutTwice(old(index), gone, {plan[i]});
          index, standing := Without(index, {plan[i]}), standing - {plan[i]};
          gone := gone + {plan[i]};
          pruned := pruned + [plan[i]];
        }
      }
      assert plan[..|plan|] == plan;
    }
  }

  /** What a run reports of its taking: the name if it took one, a failure, a vdisk passed over. */
  predicate Counted(st: Store, now: nat, p: Policy, reply: Reply, taken: seq<string>, taken': seq<string>,
                    failures: nat, failures': nat, skipped: nat, skipped': nat)
  {
    var due := IsDue(p, Newest(st.index), now);
    && taken' == taken + (if due && Takes(st, now, reply) then [AutoName(now)] else [])
    && failures' == failures + (if due && reply.Fails? then 1 else 0)
    && skipped' == skipped + (if due && reply.Unattached? then 1 else 0)
  }

  /** The planned deletions that go through, in order. */
  function Deleted(plan: seq<string>, deletable: set<string>): seq<string> {
    if plan == [] then []
    else Deleted(plan[..|plan| - 1], deletable) + if plan[|plan| - 1] in deletable then [plan[|plan| - 1]] else []
  }

  lemma PlanNext(plan: seq<string>, i: nat, deletable: set<string>)
    requires i < |plan|
    ensures ToSet(plan[..i + 1]) == ToSet(plan[..i]) + {plan[i]}
    ensures Deleted(plan[..i + 1], deletable) == Deleted(plan[..i], deletable) + if plan[i] in deletable then [plan[i]] else []
  {
    assert plan[..i + 1] == plan[..i] + [plan[i]] && plan[..i + 1][..i] == plan[..i];
  }

  /** The store after a run alone has taken what was due. */
  function Alone(st: Store, now: nat, p: Policy, reply: Reply): Store {
    if IsDue(p, Newest(st.index), now) then Taken(st, now, p, |st.log|, reply) else st
  }

  /** A run that was due and could not take its own snapshot prunes nothing; nor does a blind one. */
  predicate MayPrune(st: Store, now: nat, p: Policy, reply: Reply, blind: bool) {
    !(IsDue(p, Newest(st.index), now) && reply.Fails?) && !blind
  }

  /** It is what deciding, taking and pruning are, one after the other. */
  lemma AloneIsSteps(st: Store, r: nat, now: nat, p: Policy, reply: Reply, referenced: set<string>, attached: map<string, string>, gone: set<string>)
    requires MayPrune(st, now, p, reply, false) && Prunable(Alone(st, now, p, reply), p, referenced, attached, gone)
    ensures var w := World(st, map[]);
      var decided := Next(w, Decide(r, now, p));
      var taken := if Decided(st, now, p).due then Next(decided, Take(r, reply)) else decided;
      Enabled(taken, Prune(r, referenced, attached, gone))
      && Next(taken, Prune(r, referenced, attached, gone)) == World(Pruned(Alone(st, now, p, reply), gone), map[])
  {
  }

  lemma {:induction false} WithoutTwice(s: seq<Snapshot>, a: set<string>, b: set<string>)
    ensures Without(Without(s, a), b) == Without(s, a + b)
  {
    if s != [] {
      WithoutTwice(s[1..], a, b);
      if s[0].id in a {
        assert Without(s, a) == Without(s[1..], a);
      } else {
        assert Without(s, a) == [s[0]] + Without(s[1..], a);
        WithoutFirst(s[0], Without(s[1..], a), b);
      }
    }
  }
}
