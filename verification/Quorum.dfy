/**
Cluster configurations and the joint-majority test that elections and the
commit scan use.
*/
module Quorum {

  type Id = nat

  /** A plain member list, or the old and the new list during a membership change. */
  datatype ClusterConfiguration =
    | Simple(members: map<Id, string>, version: nat)
    | Joint(oldMembers: map<Id, string>, newMembers: map<Id, string>, version: nat)

  function AllMembers(cfg: ClusterConfiguration): set<Id> {
    match cfg
    case Simple(m, _) => m.Keys
    case Joint(o, n, _) => o.Keys + n.Keys
  }

  /** More than half of `members` are among `acks`. */
  predicate Majority(members: set<Id>, acks: set<Id>) {
    |acks * members| > |members| / 2
  }

  predicate HasJointMajority(cfg: ClusterConfiguration, acks: set<Id>) {
    match cfg
    case Simple(m, _) => Majority(m.Keys, acks)
    case Joint(o, n, _) => Majority(o.Keys, acks) && Majority(n.Keys, acks)
  }

  /** Every member list names at least one server. */
  predicate Populated(cfg: ClusterConfiguration) {
    match cfg
    case Simple(m, _) => m.Keys != {}
    case Joint(o, n, _) => o.Keys != {} && n.Keys != {}
  }

  lemma SubsetSize<T>(a: set<T>, b: set<T>)
    requires a <= b
    ensures |a| <= |b|
  {
    assert b == a + (b - a);
  }

  /** A set is a majority exactly if fewer than half of the members are missing. */
  lemma MajorityIff(members: set<Id>, acks: set<Id>)
    ensures Majority(members, acks) <==> 2 * |members - acks| < |members|
  {
    assert members == acks * members + (members - acks);
    assert |members| == |acks * members| + |members - acks|;
  }

  /** A cluster decides exactly if in every member list fewer than half are missing; during a membership
      change, in the old and in the new one. */
  lemma ToleratesIff(cfg: ClusterConfiguration, acks: set<Id>)
    ensures HasJointMajority(cfg, acks) <==>
            if cfg.Simple? then 2 * |cfg.members.Keys - acks| < |cfg.members|
            else 2 * |cfg.oldMembers.Keys - acks| < |cfg.oldMembers| && 2 * |cfg.newMembers.Keys - acks| < |cfg.newMembers|
  {
    match cfg
    case Simple(m, _) => MajorityIff(m.Keys, acks); assert |m| == |m.Keys|;
    case Joint(o, n, _) =>
      MajorityIff(o.Keys, acks);
      MajorityIff(n.Keys, acks);
      assert |o| == |o.Keys| && |n| == |n.Keys|;
  }

  /** Two majorities of one member list share a member of it. */
  lemma MajoritiesMeet(members: set<Id>, a: set<Id>, b: set<Id>) returns (i: Id)
    requires Majority(members, a) && Majority(members, b)
    ensures i in a && i in b && i in members
  {
    var x, y := a * members, b * members;
    if x * y == {} {
      assert |x + y| == |x| + |y|;
      SubsetSize(x + y, members);
      assert false;
    }
    i :| i in x * y;
  }

  lemma MajorityGrows(members: set<Id>, a: set<Id>, b: set<Id>)
    requires Majority(members, a) && a * members <= b
    ensures Majority(members, b)
  {
    SubsetSize(a * members, b * members);
  }

  /** Any two sets accepted for one configuration share a voting member. */
  lemma QuorumsMeet(cfg: ClusterConfiguration, a: set<Id>, b: set<Id>) returns (i: Id)
    requires HasJointMajority(cfg, a) && HasJointMajority(cfg, b)
    ensures i in a && i in b && i in AllMembers(cfg)
  {
    match cfg
    case Simple(m, _) => i := MajoritiesMeet(m.Keys, a, b);
    case Joint(o, _, _) => i := MajoritiesMeet(o.Keys, a, b);
  }

  /** A set accepted by a joint configuration meets every majority of the old
      list alone and every majority of the new list alone, so neither side can
      decide without the joint set during a membership change. */
  lemma JointMeetsBothSides(cfg: ClusterConfiguration, a: set<Id>, oldSide: set<Id>, newSide: set<Id>)
    requires cfg.Joint? && HasJointMajority(cfg, a)
    requires HasJointMajority(Simple(cfg.oldMembers, cfg.version), oldSide)
    requires HasJointMajority(Simple(cfg.newMembers, cfg.version), newSide)
    ensures exists i :: i in a && i in oldSide && i in cfg.oldMembers
    ensures exists j :: j in a && j in newSide && j in cfg.newMembers
  {
    var i := MajoritiesMeet(cfg.oldMembers.Keys, a, oldSide);
    var j := MajoritiesMeet(cfg.newMembers.Keys, a, newSide);
  }

  /** Acceptance depends only on the voting members in the set and survives adding more. */
  lemma QuorumGrows(cfg: ClusterConfiguration, a: set<Id>, b: set<Id>)
    requires HasJointMajority(cfg, a) && a * AllMembers(cfg) <= b
    ensures HasJointMajority(cfg, b)
  {
    match cfg
    case Simple(m, _) => MajorityGrows(m.Keys, a, b);
    case Joint(o, n, _) =>
      MajorityGrows(o.Keys, a, b);
      MajorityGrows(n.Keys, a, b);
  }

  /** In a one-server cluster that server alone is accepted. */
  lemma LoneQuorum(cfg: ClusterConfiguration, id: Id)
    requires Populated(cfg) && AllMembers(cfg) == {id}
    ensures HasJointMajority(cfg, {id})
  {
    match cfg
    case Simple(m, _) =>
      assert {id} * m.Keys == {id};
    case Joint(o, n, _) =>
      var i :| i in o.Keys;
      var j :| j in n.Keys;
      assert i in AllMembers(cfg) && j in AllMembers(cfg);
      assert o.Keys == {id} && n.Keys == {id};
      assert {id} * o.Keys == {id} && {id} * n.Keys == {id};
  }
}
