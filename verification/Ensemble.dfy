/** Changing who votes in the ensemble. */
module Ensemble {
  import opened Common
  import opened MemberSpecs

  datatype Member = Member(id: int, host: string, spec: string, role: Role)

  /** What each member that answers says it is; "" is an answer that says nothing. */
  type Modes = map<int, string>

  predicate Live(modes: Modes, id: int) { id in modes && modes[id] != "" }

  predicate Leads(modes: Modes, id: int) { id in modes && modes[id] == "leader" }

  function Quorum(voters: nat): nat { voters / 2 + 1 }

  function Voters(members: seq<Member>): seq<int> {
    if members == [] then []
    else (if members[0].role == Participant then [members[0].id] else []) + Voters(members[1..])
  }

  predicate Says(modes: Modes, id: int, leader: bool) { Live(modes, id) && (leader ==> Leads(modes, id)) }

  /** The ids that answer; or, of those, the ones that say they lead. */
  function Saying(ids: seq<int>, modes: Modes, leader: bool): seq<int> {
    if ids == [] then []
    else if Says(modes, ids[0], leader) then [ids[0]] + Saying(ids[1..], modes, leader)
    else Saying(ids[1..], modes, leader)
  }

  function Leaders(members: seq<Member>, modes: Modes): seq<int> { Saying(Voters(members), modes, true) }

  function Answering(members: seq<Member>, modes: Modes): seq<int> { Saying(Voters(members), modes, false) }

  /** What is asked for: ids to promote, to demote and to drop. */
  datatype Change = Change(promote: seq<int>, demote: seq<int>, drop: seq<int>)

  predicate Listed(members: seq<Member>, id: int) { exists i :: 0 <= i < |members| && members[i].id == id }

  function NewRole(m: Member, c: Change): Role {
    if m.id in c.promote then Participant else if m.id in c.demote then Observer else m.role
  }

  function Changed(m: Member, c: Change): Member {
    m.(role := NewRole(m, c), spec := WithRole(m.spec, NewRole(m, c)))
  }

  function PlannedOne(m: Member, c: Change): seq<Member> { if m.id in c.drop then [] else [Changed(m, c)] }

  function Planned(members: seq<Member>, c: Change): seq<Member> {
    if members == [] then [] else PlannedOne(members[0], c) + Planned(members[1..], c)
  }

  datatype Refusal = NotInEnsemble(id: int) | NotOneLeader | NoQuorumAnswers | SilentVoters | TooFewVoters

  function Asked(c: Change): seq<int> { c.promote + c.demote + c.drop }

  /** The grounds for refusal, in the order they are looked at. */
  predicate Refused(members: seq<Member>, modes: Modes, c: Change, why: Refusal) {
    var unknown := exists i :: 0 <= i < |Asked(c)| && !Listed(members, Asked(c)[i]);
    var voting := Voters(Planned(members, c));
    match why
    case NotInEnsemble(id) => id in Asked(c) && !Listed(members, id)
    case NotOneLeader => !unknown && |Leaders(members, modes)| != 1
    case NoQuorumAnswers =>
      !unknown && |Leaders(members, modes)| == 1 && |Answering(members, modes)| < Quorum(|Voters(members)|)
    case SilentVoters => Stable(members, modes, c) && exists i :: 0 <= i < |voting| && !Live(modes, voting[i])
    case TooFewVoters => Stable(members, modes, c) && (forall i :: 0 <= i < |voting| ==> Live(modes, voting[i])) && |voting| < 3
  }

  /** The change names only members, and the configuration it leaves has one leader and a quorum. */
  predicate Stable(members: seq<Member>, modes: Modes, c: Change) {
    && (forall i :: 0 <= i < |Asked(c)| ==> Listed(members, Asked(c)[i]))
    && |Leaders(members, modes)| == 1
    && |Answering(members, modes)| >= Quorum(|Voters(members)|)
  }

  predicate Acceptable(members: seq<Member>, modes: Modes, c: Change) {
    var voting := Voters(Planned(members, c));
    Stable(members, modes, c) && (forall i :: 0 <= i < |voting| ==> Live(modes, voting[i])) && |voting| >= 3
  }

  // ---- the planner ------------------------------------------------------------------------

  method IdsWhere(members: seq<Member>) returns (voters: seq<int>)
    ensures voters == Voters(members)
  {
    voters := [];
    assert members[0..] == members;
    for i := 0 to |members|
      invariant voters + Voters(members[i..]) == Voters(members)
    {
      assert members[i..][1..] == members[i + 1..];
      if members[i].role == Participant { voters := voters + [members[i].id]; }
    }
  }

  method IdsSaying(ids: seq<int>, modes: Modes, leader: bool) returns (out: seq<int>)
    ensures out == Saying(ids, modes, leader)
  {
    out := [];
    assert ids[0..] == ids;
    for i := 0 to |ids|
      invariant out + Saying(ids[i..], modes, leader) == Saying(ids, modes, leader)
    {
      assert ids[i..][1..] == ids[i + 1..];
      if Says(modes, ids[i], leader) {
        assert out + ([ids[i]] + Saying(ids[i + 1..], modes, leader)) == (out + [ids[i]]) + Saying(ids[i + 1..], modes, leader);
        out := out + [ids[i]];
      }
    }
  }

  method FindUnknown(members: seq<Member>, asked: seq<int>) returns (unknown: Option<int>)
    ensures unknown.None? <==> forall i :: 0 <= i < |asked| ==> Listed(members, asked[i])
    ensures unknown.Some? ==> unknown.value in asked && !Listed(members, unknown.value)
  {
    for i := 0 to |asked|
      invariant forall k :: 0 <= k < i ==> Listed(members, asked[k])
    {
      if !Listed(members, asked[i]) { return Some(asked[i]); }
    }
    return None;
  }

  lemma Associates(a: seq<Member>, b: seq<Member>, c: seq<Member>)
    ensures a + (b + c) == (a + b) + c && a + [] == a
  {
  }

  method BuildPlan(members: seq<Member>, c: Change) returns (planned: seq<Member>)
    ensures planned == Planned(members, c)
  {
    planned := [];
    assert members[0..] == members;
    for i := 0 to |members|
      invariant planned + Planned(members[i..], c) == Planned(members, c)
    {
      assert members[i..][1..] == members[i + 1..];
      var m := members[i];
      Associates(planned, PlannedOne(m, c), Planned(members[i + 1..], c));
      if m.id !in c.drop {
        var role := m.role;
        if m.id in c.promote { role := Participant; } else if m.id in c.demote { role := Observer; }
        planned := planned + [m.(role := role, spec := WithRole(m.spec, role))];
      }
    }
  }

  /** The membership the change would produce, or why it is refused. It is refused exactly when it is
      not acceptable, on the first ground that holds. */
  method PlanEnsembleRoles(members: seq<Member>, modes: Modes, c: Change) returns (r: Result<seq<Member>, Refusal>)
    ensures r.Ok? <==> Acceptable(members, modes, c)
    ensures r.Ok? ==> r.value == Planned(members, c)
    ensures r.Err? ==> Refused(members, modes, c, r.error)
  {
    var unknown := FindUnknown(members, c.promote + c.demote + c.drop);
    assert Asked(c) == c.promote + c.demote + c.drop;
    assert unknown.Some? ==> !Stable(members, modes, c);
    if unknown.Some? { return Err(NotInEnsemble(unknown.value)); }
    var voters := IdsWhere(members);
    var leaders := IdsSaying(voters, modes, true);
    if |leaders| != 1 { return Err(NotOneLeader); }
    var answering := IdsSaying(voters, modes, false);
    if |answering| < Quorum(|voters|) { return Err(NoQuorumAnswers); }
    var planned := BuildPlan(members, c);
    var voting := IdsWhere(planned);
    var live := IdsSaying(voting, modes, false);
    AllSay(voting, modes);
    if |live| < |voting| { return Err(SilentVoters); }
    if |voting| < 3 { return Err(TooFewVoters); }
    return Ok(planned);
  }

  lemma {:induction false} AllSay(ids: seq<int>, modes: Modes)
    ensures |Saying(ids, modes, false)| <= |ids|
    ensures |Saying(ids, modes, false)| == |ids| <==> forall i :: 0 <= i < |ids| ==> Live(modes, ids[i])
  {
    if ids != [] {
      AllSay(ids[1..], modes);
      assert forall i :: 0 < i < |ids| ==> ids[i] == ids[1..][i - 1];
    }
  }

  // ---- what an accepted change is worth ---------------------------------------------------

  predicate DistinctIds(members: seq<Member>) {
    forall i, j :: 0 <= i < j < |members| ==> members[i].id != members[j].id
  }

  /** The voters as a set. */
  function VoterSet(members: seq<Member>): set<int> {
    set i | 0 <= i < |members| && members[i].role == Participant :: members[i].id
  }

  lemma InVoterSet(members: seq<Member>, id: int)
    ensures id in VoterSet(members) <==> exists i :: 0 <= i < |members| && members[i].role == Participant && members[i].id == id
  {
  }

  lemma VoterSetFirst(m: Member, rest: seq<Member>)
    ensures VoterSet([m] + rest) == VoterSet(rest) + if m.role == Participant then {m.id} else {}
  {
    var all := [m] + rest;
    forall id ensures id in VoterSet(all) <==> id in VoterSet(rest) || (m.role == Participant && id == m.id) {
      if id in VoterSet(all) {
        var i :| 0 <= i < |all| && all[i].role == Participant && all[i].id == id;
        if i > 0 { assert rest[i - 1].id == id; }
      }
      if id in VoterSet(rest) {
        var i :| 0 <= i < |rest| && rest[i].role == Participant && rest[i].id == id;
        assert all[i + 1].id == id;
      }
      assert all[0] == m;
    }
  }

  lemma {:induction false} VotersCount(members: seq<Member>)
    requires DistinctIds(members)
    ensures |VoterSet(members)| == |Voters(members)| && forall id :: id in Voters(members) <==> id in VoterSet(members)
  {
    if members != [] {
      var m, rest := members[0], members[1..];
      assert forall i :: 0 <= i < |rest| ==> rest[i] == members[i + 1];
      VotersCount(rest);
      assert m.id !in VoterSet(rest) by { InVoterSet(rest, m.id); }
      assert members == [m] + rest;
      VoterSetFirst(m, rest);
    }
  }

  /** A set of voters that can commit. */
  predicate IsQuorum(q: set<int>, voters: set<int>) { q <= voters && |q| >= Quorum(|voters|) }

  lemma SubsetCounts(a: set<int>, b: set<int>)
    requires a <= b
    ensures |a| <= |b|
  {
    assert b == a + (b - a);
  }

  /** Any two quorums of one configuration share a voter. */
  lemma QuorumsIntersect(voters: set<int>, p: set<int>, q: set<int>)
    requires IsQuorum(p, voters) && IsQuorum(q, voters)
    ensures p * q != {}
  {
    SubsetCounts(p + q, voters);
    assert |p + q| + |p * q| == |p| + |q|;
  }

  /** With three voters or more, whichever one fails, the rest are a quorum. */
  lemma SurvivesOneFailure(voters: set<int>, v: int)
    requires |voters| >= 3
    ensures IsQuorum(voters - {v}, voters)
  {
    if v in voters {
      assert voters == (voters - {v}) + {v};
    } else {
      assert voters - {v} == voters;
    }
  }

  lemma {:induction false} PlannedIds(members: seq<Member>, c: Change)
    ensures forall m <- Planned(members, c) :: exists i :: 0 <= i < |members| && m == Changed(members[i], c) && members[i].id !in c.drop
    ensures DistinctIds(members) ==> DistinctIds(Planned(members, c))
  {
    if members != [] {
      var rest := members[1..];
      assert forall i :: 0 <= i < |rest| ==> rest[i] == members[i + 1];
      PlannedIds(rest, c);
      var more := Planned(rest, c);
      forall m | m in Planned(members, c) ensures exists i :: 0 <= i < |members| && m == Changed(members[i], c) && members[i].id !in c.drop {
        if m in more {
          var i :| 0 <= i < |rest| && m == Changed(rest[i], c) && rest[i].id !in c.drop;
          assert m == Changed(members[i + 1], c);
        } else {
          assert m == Changed(members[0], c);
        }
      }
      if DistinctIds(members) {
        forall k | 0 <= k < |more| ensures more[k].id != members[0].id {
          assert more[k] in more;
        }
      }
    }
  }

  /** Every accepted change: the configuration it leaves had one leader and a live quorum, every new
      voter answers, any one voter can then fail and leave a quorum, and any two quorums of the new
      voters intersect. */
  lemma AcceptedKeepsQuorum(members: seq<Member>, modes: Modes, c: Change)
    requires DistinctIds(members) && Acceptable(members, modes, c)
    ensures |LeadingVoters(members, modes)| == 1
    ensures IsQuorum(AnsweringVoters(members, modes), VoterSet(members))
    ensures forall v <- VoterSet(Planned(members, c)) :: Live(modes, v)
    ensures forall v <- VoterSet(Planned(members, c)) :: IsQuorum(VoterSet(Planned(members, c)) - {v}, VoterSet(Planned(members, c)))
    ensures forall p, q | IsQuorum(p, VoterSet(Planned(members, c))) && IsQuorum(q, VoterSet(Planned(members, c))) :: p * q != {}
  {
    var after := Planned(members, c);
    PlannedIds(members, c);
    VotersCount(members);
    VotersCount(after);
    SayingAsSets(members, modes);
    forall v | v in VoterSet(after) ensures Live(modes, v) {
      assert v in Voters(after);
    }
    forall v | v in VoterSet(after) ensures IsQuorum(VoterSet(after) - {v}, VoterSet(after)) {
      SurvivesOneFailure(VoterSet(after), v);
    }
    forall p, q | IsQuorum(p, VoterSet(after)) && IsQuorum(q, VoterSet(after)) ensures p * q != {} {
      QuorumsIntersect(VoterSet(after), p, q);
    }
  }

  // ---- exactly which changes are accepted -------------------------------------------------

  function LeadingVoters(members: seq<Member>, modes: Modes): set<int> {
    set v | v in VoterSet(members) && v in modes && modes[v] == "leader"
  }

  function AnsweringVoters(members: seq<Member>, modes: Modes): set<int> {
    set v | v in VoterSet(members) && v in modes && modes[v] != ""
  }

  /** Who votes after the change: of those not dropped, the promoted, and the voters not demoted. */
  function NewVoters(members: seq<Member>, c: Change): set<int> {
    set i | 0 <= i < |members| && members[i].id !in c.drop &&
            (members[i].id in c.promote || (members[i].id !in c.demote && members[i].role == Participant)) :: members[i].id
  }

  predicate Distinct(ids: seq<int>) { forall i, j :: 0 <= i < j < |ids| ==> ids[i] != ids[j] }

  lemma {:induction false} SayingCounts(ids: seq<int>, modes: Modes, leader: bool)
    requires Distinct(ids)
    ensures |Saying(ids, modes, leader)| == |set v | v in ids && Says(modes, v, leader)|
  {
    if ids != [] {
      var rest := ids[1..];
      assert forall i :: 0 <= i < |rest| ==> rest[i] == ids[i + 1];
      SayingCounts(rest, modes, leader);
      var those := set v | v in rest && Says(modes, v, leader);
      assert ids[0] !in rest;
      SayingFirst(ids, modes, leader, those);
    }
  }

  lemma SayingFirst(ids: seq<int>, modes: Modes, leader: bool, those: set<int>)
    requires ids != [] && those == set v | v in ids[1..] && Says(modes, v, leader)
    ensures (set v | v in ids && Says(modes, v, leader)) == if Says(modes, ids[0], leader) then {ids[0]} + those else those
  {
    assert forall v :: v in ids <==> v == ids[0] || v in ids[1..];
  }

  lemma {:induction false} VotersAreDistinct(members: seq<Member>)
    requires DistinctIds(members)
    ensures Distinct(Voters(members))
  {
    if members != [] {
      var rest := members[1..];
      assert forall i :: 0 <= i < |rest| ==> rest[i] == members[i + 1];
      VotersAreDistinct(rest);
      VotersCount(rest);
      assert members[0].id !in Voters(rest) by { InVoterSet(rest, members[0].id); }
    }
  }

  lemma SayingAsSets(members: seq<Member>, modes: Modes)
    requires DistinctIds(members)
    ensures |Leaders(members, modes)| == |LeadingVoters(members, modes)|
    ensures |Answering(members, modes)| == |AnsweringVoters(members, modes)|
  {
    VotersAreDistinct(members);
    VotersCount(members);
    SayingCounts(Voters(members), modes, true);
    SayingCounts(Voters(members), modes, false);
    assert LeadingVoters(members, modes) == set v | v in Voters(members) && Says(modes, v, true);
    assert AnsweringVoters(members, modes) == set v | v in Voters(members) && Says(modes, v, false);
  }

  lemma NewVotersArePlanned(members: seq<Member>, c: Change)
    requires DistinctIds(members)
    ensures VoterSet(Planned(members, c)) == NewVoters(members, c)
  {
    forall id ensures id in VoterSet(Planned(members, c)) <==> id in NewVoters(members, c) { PlannedVoters(members, c, id); }
  }

  /** A change is accepted exactly when it names members only, exactly one voter says it leads, more than
      half of the voters answer, everybody who is to vote answers, and at least three are to vote. */
  lemma AcceptedExactly(members: seq<Member>, modes: Modes, c: Change)
    requires DistinctIds(members)
    ensures Acceptable(members, modes, c) <==>
      && (forall id :: id in c.promote || id in c.demote || id in c.drop ==> exists i :: 0 <= i < |members| && members[i].id == id)
      && |LeadingVoters(members, modes)| == 1
      && 2 * |AnsweringVoters(members, modes)| > |VoterSet(members)|
      && (forall v <- NewVoters(members, c) :: v in modes && modes[v] != "")
      && |NewVoters(members, c)| >= 3
  {
    SayingAsSets(members, modes);
    NewVotersArePlanned(members, c);
    PlannedIds(members, c);
    VotersCount(members);
    VotersCount(Planned(members, c));
    AskedAreListed(members, c);
    LiveAsSets(Planned(members, c), modes);
  }

  lemma LiveAsSets(members: seq<Member>, modes: Modes)
    requires DistinctIds(members)
    ensures (forall i :: 0 <= i < |Voters(members)| ==> Live(modes, Voters(members)[i])) <==> forall v <- VoterSet(members) :: Live(modes, v)
  {
    VotersCount(members);
  }

  lemma AskedAreListed(members: seq<Member>, c: Change)
    ensures (forall i :: 0 <= i < |Asked(c)| ==> Listed(members, Asked(c)[i])) <==>
      forall id :: id in c.promote || id in c.demote || id in c.drop ==> Listed(members, id)
  {
    assert forall id :: id in Asked(c) <==> id in c.promote || id in c.demote || id in c.drop;
  }

  // ---- what it leaves alone ---------------------------------------------------------------

  /** A member as the ensemble's configuration reads. */
  predicate Parsed(m: Member) { m.role == RoleOf(m.spec) && m.host == HostOf(m.spec) }

  /** The members that are not dropped, as they were. */
  function Survivors(members: seq<Member>, c: Change): seq<Member> {
    if members == [] then []
    else (if members[0].id in c.drop then [] else [members[0]]) + Survivors(members[1..], c)
  }

  /** `after` is `before` with a role set, and nothing else changed. */
  predicate OnlyRole(before: Member, after: Member, c: Change) {
    && after.id == before.id && after.host == before.host && after.role == NewRole(before, c)
    && ClientPart(after.spec) == ClientPart(before.spec) && WithoutRole(Address(after.spec)) == WithoutRole(Address(before.spec))
    && Parsed(after)
  }

  lemma ChangedOnlyRole(m: Member, c: Change)
    requires Parsed(m)
    ensures OnlyRole(m, Changed(m, c), c)
  {
    var r := NewRole(m, c);
    var kept := WithoutRole(Address(m.spec));
    RoleReadsBack(m.spec, r);
    WrittenAddress(m.spec, r);
    RoleStrips(kept, r);
  }

  /** The members that stay keep their id, their host and their order, and each spec written re-parses
      to exactly the role planned and the host it had. */
  lemma {:induction false} SurvivorsKeepTheirPlaces(members: seq<Member>, c: Change)
    requires forall m <- members :: Parsed(m)
    ensures |Planned(members, c)| == |Survivors(members, c)|
    ensures forall i :: 0 <= i < |Planned(members, c)| ==> OnlyRole(Survivors(members, c)[i], Planned(members, c)[i], c)
  {
    if members != [] {
      var m, rest := members[0], members[1..];
      SurvivorsKeepTheirPlaces(rest, c);
      if m.id in c.drop {
        assert Planned(members, c) == Planned(rest, c) && Survivors(members, c) == Survivors(rest, c);
      } else {
        ChangedOnlyRole(m, c);
        PlacesFollow(m, Changed(m, c), Survivors(rest, c), Planned(rest, c), c);
      }
    }
  }

  lemma PlacesFollow(m: Member, n: Member, before: seq<Member>, after: seq<Member>, c: Change)
    requires OnlyRole(m, n, c) && |before| == |after| && forall i :: 0 <= i < |after| ==> OnlyRole(before[i], after[i], c)
    ensures forall i :: 0 <= i < |after| + 1 ==> OnlyRole(([m] + before)[i], ([n] + after)[i], c)
  {
  }

  // ---- moving a vote ----------------------------------------------------------------------

  lemma PlannedVoters(members: seq<Member>, c: Change, id: int)
    requires DistinctIds(members)
    ensures id in VoterSet(Planned(members, c)) <==>
      exists i :: 0 <= i < |members| && members[i].id == id && id !in c.drop && NewRole(members[i], c) == Participant
  {
    var after := Planned(members, c);
    PlannedIds(members, c);
    if id in VoterSet(after) {
      var k :| 0 <= k < |after| && after[k].role == Participant && after[k].id == id;
      assert after[k] in after;
    }
    if i :| 0 <= i < |members| && members[i].id == id && id !in c.drop && NewRole(members[i], c) == Participant {
      StaysPlanned(members, c, i);
    }
  }

  lemma {:induction false} StaysPlanned(members: seq<Member>, c: Change, i: nat)
    requires i < |members| && members[i].id !in c.drop
    ensures Changed(members[i], c) in Planned(members, c)
  {
    var rest := members[1..];
    if i > 0 {
      StaysPlanned(rest, c, i - 1);
      assert members[0].id in c.drop ==> Planned(members, c) == Planned(rest, c);
      assert members[0].id !in c.drop ==> Planned(members, c) == [Changed(members[0], c)] + Planned(rest, c);
    } else {
      assert Planned(members, c)[0] == Changed(members[0], c);
    }
  }

  /** The change takes the vote of `from` and gives it to `to`, and does nothing else. */
  predicate MovesVote(members: seq<Member>, c: Change, from: nat, to: nat) {
    && from < |members| && to < |members| && members[from].role == Participant && members[to].role == Observer
    && c.promote == [members[to].id]
    && ((c.demote == [members[from].id] && c.drop == []) || (c.drop == [members[from].id] && c.demote == []))
  }

  lemma MovedVoter(members: seq<Member>, c: Change, from: nat, to: nat, id: int)
    requires DistinctIds(members) && MovesVote(members, c, from, to)
    ensures id in VoterSet(Planned(members, c)) <==> id in VoterSet(members) - {members[from].id} + {members[to].id}
  {
    PlannedVoters(members, c, id);
    if id in VoterSet(members) - {members[from].id} + {members[to].id} {
      var i :| 0 <= i < |members| && members[i].id == id && (members[i].role == Participant || id == members[to].id);
      assert members[i].id == id && id !in c.drop && NewRole(members[i], c) == Participant;
    }
  }

  lemma SwapKeepsSize(members: seq<Member>, from: nat, to: nat)
    requires DistinctIds(members) && from < |members| && to < |members| && members[from].role == Participant && members[to].role == Observer
    ensures |VoterSet(members) - {members[from].id} + {members[to].id}| == |VoterSet(members)|
  {
    var before, a, b := VoterSet(members), members[from].id, members[to].id;
    InVoterSet(members, a);
    InVoterSet(members, b);
    assert before == (before - {a}) + {a} && b !in before - {a};
  }

  /** Handing a vote on, with the member that held it kept as an observer or removed, leaves the number
      of voters what it was. */
  lemma MovedVoteKeepsCount(members: seq<Member>, c: Change, from: nat, to: nat)
    requires DistinctIds(members) && MovesVote(members, c, from, to)
    ensures VoterSet(Planned(members, c)) == VoterSet(members) - {members[from].id} + {members[to].id}
    ensures |Voters(Planned(members, c))| == |Voters(members)|
  {
    var before, after := VoterSet(members), VoterSet(Planned(members, c));
    var a, b := members[from].id, members[to].id;
    forall id ensures id in after <==> id in before - {a} + {b} { MovedVoter(members, c, from, to, id); }
    assert after == before - {a} + {b};
    SwapKeepsSize(members, from, to);
    PlannedIds(members, c);
    VotersCount(members);
    VotersCount(Planned(members, c));
  }

  /** `--replacing` takes the opposite role of the node the command names. */
  function RoleChange(promoting: bool, target: int, replacing: Option<int>): Change {
    var other := if replacing.Some? then [replacing.value] else [];
    if promoting then Change([target], other, []) else Change(other, [target], [])
  }

  /** Promoting an observer in place of a voter, or demoting a voter in favour of an observer, is
      moving one vote. */
  lemma ReplacingMovesOneVote(members: seq<Member>, promoting: bool, target: nat, other: nat)
    requires DistinctIds(members) && target < |members| && other < |members|
    requires members[target].role == (if promoting then Observer else Participant) && members[other].role != members[target].role
    ensures |Voters(Planned(members, RoleChange(promoting, members[target].id, Some(members[other].id))))| == |Voters(members)|
  {
    var c := RoleChange(promoting, members[target].id, Some(members[other].id));
    if promoting { MovedVoteKeepsCount(members, c, other, target); } else { MovedVoteKeepsCount(members, c, target, other); }
  }

  datatype HandOffError = NotAMember | DoesNotVote | NotEnabled | NoLiveObserver | PlanRefused(why: Refusal)

  /** The first member at the host that is leaving. */
  predicate Departs(members: seq<Member>, target: string, from: nat) {
    from < |members| && members[from].host == target && forall i :: 0 <= i < from ==> members[i].host != target
  }

  /** The first observer that answers. */
  predicate Succeeds(members: seq<Member>, modes: Modes, to: nat) {
    && to < |members| && members[to].role == Observer && Live(modes, members[to].id)
    && forall i :: 0 <= i < to ==> members[i].role == Participant || !Live(modes, members[i].id)
  }

  function HandOver(members: seq<Member>, from: nat, to: nat): Change
    requires from < |members| && to < |members|
  {
    Change([members[to].id], [], [members[from].id])
  }

  predicate HandsOn(members: seq<Member>, modes: Modes, target: string, from: nat, to: nat) {
    && Departs(members, target, from) && Succeeds(members, modes, to) && members[from].role == Participant
    && Acceptable(members, modes, HandOver(members, from, to))
  }

  method FindDeparting(members: seq<Member>, target: string) returns (from: nat)
    ensures if from == |members| then NobodyAt(members, target) else Departs(members, target, from)
  {
    from := 0;
    while from < |members| && members[from].host != target
      invariant from <= |members| && forall i :: 0 <= i < from ==> members[i].host != target
    {
      from := from + 1;
    }
  }

  method FindSuccessor(members: seq<Member>, modes: Modes) returns (to: nat)
    ensures if to == |members| then NoSuccessor(members, modes) else Succeeds(members, modes, to)
  {
    to := 0;
    while to < |members| && !(members[to].role == Observer && Live(modes, members[to].id))
      invariant to <= |members| && forall i :: 0 <= i < to ==> members[i].role == Participant || !Live(modes, members[i].id)
    {
      to := to + 1;
    }
  }

  predicate NobodyAt(members: seq<Member>, target: string) { forall i :: 0 <= i < |members| ==> members[i].host != target }

  predicate NoSuccessor(members: seq<Member>, modes: Modes) {
    forall i :: 0 <= i < |members| ==> members[i].role == Participant || !Live(modes, members[i].id)
  }

  ghost predicate VoterDeparts(members: seq<Member>, target: string) {
    exists from: nat :: Departs(members, target, from) && members[from].role == Participant
  }

  /** What comes of handing a vote on: why not, or the membership it leaves. */
  ghost predicate HandedOff(members: seq<Member>, modes: Modes, target: string, enabled: bool, r: Result<seq<Member>, HandOffError>) {
    match r
    case Err(NotAMember) => NobodyAt(members, target)
    case Err(DoesNotVote) => exists from: nat :: Departs(members, target, from) && members[from].role != Participant
    case Err(NotEnabled) => VoterDeparts(members, target) && !enabled
    case Err(NoLiveObserver) => VoterDeparts(members, target) && enabled && NoSuccessor(members, modes)
    case Err(PlanRefused(why)) => enabled && exists from: nat, to: nat ::
      && Departs(members, target, from) && members[from].role == Participant && Succeeds(members, modes, to)
      && Refused(members, modes, HandOver(members, from, to), why) && !Acceptable(members, modes, HandOver(members, from, to))
    case Ok(after) => enabled && exists from: nat, to: nat ::
      HandsOn(members, modes, target, from, to) && after == Planned(members, HandOver(members, from, to))
  }

  lemma OneDeparts(members: seq<Member>, target: string, i: nat, j: nat)
    requires Departs(members, target, i) && Departs(members, target, j)
    ensures i == j
  {
  }

  lemma OneSucceeds(members: seq<Member>, modes: Modes, i: nat, j: nat)
    requires Succeeds(members, modes, i) && Succeeds(members, modes, j)
    ensures i == j
  {
  }

  /** It goes through exactly when the node votes, every survivor can be reconfigured, an observer answers
      and the change is acceptable, and then gives the node's vote to the first such observer and to nobody
      else; and otherwise it says exactly which of these was missing first. */
  lemma HandOffDecides(members: seq<Member>, modes: Modes, target: string, enabled: bool, r: Result<seq<Member>, HandOffError>, from: nat, to: nat)
    requires DistinctIds(members) && HandedOff(members, modes, target, enabled, r)
    ensures NobodyAt(members, target) <==> r == Err(NotAMember)
    ensures Departs(members, target, from) ==>
      && (r == Err(DoesNotVote) <==> members[from].role != Participant)
      && (r == Err(NotEnabled) <==> members[from].role == Participant && !enabled)
      && (r == Err(NoLiveObserver) <==> members[from].role == Participant && enabled && NoSuccessor(members, modes))
    ensures Departs(members, target, from) && members[from].role == Participant && enabled && Succeeds(members, modes, to) ==>
      && (r.Ok? <==> Acceptable(members, modes, HandOver(members, from, to)))
      && (!r.Ok? ==> r.error.PlanRefused? && Refused(members, modes, HandOver(members, from, to), r.error.why))
      && (r.Ok? ==> VoterSet(r.value) == VoterSet(members) - {members[from].id} + {members[to].id})
  {
    if Departs(members, target, from) {
      forall i: nat | Departs(members, target, i) ensures i == from { OneDeparts(members, target, i, from); }
      if Succeeds(members, modes, to) {
        forall i: nat | Succeeds(members, modes, i) ensures i == to { OneSucceeds(members, modes, i, to); }
        if members[from].role == Participant { MovedVoteKeepsCount(members, HandOver(members, from, to), from, to); }
      }
    }
  }

  /** Handing on the vote of the node that is leaving to the first observer that answers. */
  method HandOffVote(members: seq<Member>, modes: Modes, target: string, enabled: bool) returns (r: Result<seq<Member>, HandOffError>)
    requires DistinctIds(members)
    ensures HandedOff(members, modes, target, enabled, r)
    ensures r.Ok? ==> |Voters(r.value)| == |Voters(members)|
  {
    var from := FindDeparting(members, target);
    if from == |members| { return Err(NotAMember); }
    if members[from].role != Participant { return Err(DoesNotVote); }
    if !enabled { return Err(NotEnabled); }
    var to := FindSuccessor(members, modes);
    if to == |members| { return Err(NoLiveObserver); }
    var change := Change([members[to].id], [], [members[from].id]);
    assert change == HandOver(members, from, to);
    var plan := PlanEnsembleRoles(members, modes, change);
    if plan.Err? { return Err(PlanRefused(plan.error)); }
    assert MovesVote(members, change, from, to);
    MovedVoteKeepsCount(members, change, from, to);
    assert HandsOn(members, modes, target, from, to);
    return Ok(plan.value);
  }
}
