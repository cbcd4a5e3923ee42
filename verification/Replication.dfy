/** How many replicas the metadata keyspace needs, which is read and written at a strict majority. */
module Replication {
  import opened Common

  function Min(a: int, b: int): int { if a < b then a else b }

  function Max(a: int, b: int): int { if a > b then a else b }

  /** `None` is an argument that does not read as a number. */
  function MetadataReplicationFactor(ftt: Option<int>, nodes: Option<int>): int {
    if ftt.None? || nodes.None? then 1
    else if nodes.value <= 1 || Max(ftt.value, 0) == 0 then 1
    else Min(nodes.value, 2 * Max(ftt.value, 0) + 1)
  }

  function DefaultMetadataReplicationFactor(ftt: Option<int>, nodes: Option<int>): int {
    Max(MetadataReplicationFactor(ftt, nodes), Min(3, if nodes.None? then 1 else Max(nodes.value, 1)))
  }

  /** Whatever `ftt` nodes fail, a majority of every possible set of `rf` replicas is left. */
  ghost predicate Survives(rf: nat, ftt: nat) {
    forall replicas: set<int>, failed: set<int> | |replicas| == rf && |failed| <= ftt ::
      |replicas - failed| >= rf / 2 + 1
  }

  function Upto(n: nat): (s: set<int>)
    ensures |s| == n && forall x :: x in s <==> 0 <= x < n
  {
    if n == 0 then {} else Upto(n - 1) + {n - 1}
  }

  lemma SurvivesIsMajority(rf: nat, ftt: nat)
    ensures Survives(rf, ftt) <==> rf >= 2 * ftt + 1
  {
    if rf >= 2 * ftt + 1 {
      forall replicas: set<int>, failed: set<int> | |replicas| == rf && |failed| <= ftt
        ensures |replicas - failed| >= rf / 2 + 1
      {
        assert replicas == (replicas - failed) + (replicas * failed);
        assert |replicas * failed| <= |failed| by { Within(replicas * failed, failed); }
      }
    } else {
      var lost := Min(rf, ftt);
      var replicas, failed := Upto(rf), Upto(lost);
      assert replicas == (replicas - failed) + failed;
      assert |replicas - failed| == rf - lost;
    }
  }

  lemma {:induction false} Within(a: set<int>, b: set<int>)
    requires a <= b
    ensures |a| <= |b|
  {
    assert b == a + (b - a);
  }

  /** The factor survives the failures it was asked for exactly when there are nodes enough for a
      majority to be left, and no smaller factor would. */
  lemma FactorSurvives(ftt: nat, nodes: nat)
    requires nodes >= 1
    ensures var rf := MetadataReplicationFactor(Some(ftt), Some(nodes));
      && 1 <= rf <= nodes
      && (Survives(rf, ftt) <==> ftt == 0 || nodes >= 2 * ftt + 1)
      && (Survives(rf, ftt) ==> forall less: nat | less < rf :: !Survives(less, ftt))
  {
    var rf := MetadataReplicationFactor(Some(ftt), Some(nodes));
    SurvivesIsMajority(rf, ftt);
    forall less: nat | less < rf ensures Survives(less, ftt) <==> less >= 2 * ftt + 1 {
      SurvivesIsMajority(less, ftt);
    }
  }

  /** The default survives whatever the minimum does, fits the nodes, and from three nodes on
      survives one failure whatever was asked for. */
  lemma DefaultSurvives(ftt: Option<int>, nodes: nat)
    requires nodes >= 1
    ensures var rf := DefaultMetadataReplicationFactor(ftt, Some(nodes));
      && MetadataReplicationFactor(ftt, Some(nodes)) <= rf <= nodes
      && (Survives(rf, 1) <==> nodes >= 3)
      && forall f: nat :: Survives(MetadataReplicationFactor(ftt, Some(nodes)), f) ==> Survives(rf, f)
  {
    var min, rf := MetadataReplicationFactor(ftt, Some(nodes)), DefaultMetadataReplicationFactor(ftt, Some(nodes));
    SurvivesIsMajority(rf, 1);
    forall f: nat ensures Survives(min, f) ==> Survives(rf, f) {
      SurvivesIsMajority(min, f);
      SurvivesIsMajority(rf, f);
    }
  }
}
