/** The quorum table of replication/config.go and the counting facts it is for. */
module Quorums {

  const ACTIVE_MAX := 6

  datatype Table = Table(replication: nat, viewChange: nat, negative: nat, majority: nat, upgrade: nat)

  datatype Lookup = Invalid | Valid(table: Table)

  function For(active: nat, replicationMax: nat): (l: Lookup)
  {
    if active == 0 || active > ACTIVE_MAX || replicationMax == 0 then Invalid
    else
      var half := (active + 1) / 2;
      var replication := if active == 2 then 2 else if replicationMax < half then replicationMax else half;
      var viewChange := if active == 2 then 2 else active - replication + 1;
      Valid(Table(replication, viewChange, active - replication + 1, active / 2 + 1, active))
  }

  /** Replicas are numbered 0 .. n-1. */
  function Members(n: nat): (m: set<nat>)
    ensures forall i: nat :: i in m <==> i < n
    ensures |m| == n
  {
    if n == 0 then {} else Members(n - 1) + {n - 1}
  }

  lemma SubsetSize(a: set<nat>, b: set<nat>)
    requires a <= b
    ensures |a| <= |b|
  {
    assert b == a + (b - a);
  }

  /** Two quorums whose sizes sum past the membership share a member. */
  lemma Intersect(n: nat, a: set<nat>, b: set<nat>) returns (i: nat)
    requires a <= Members(n) && b <= Members(n) && |a| + |b| > n
    ensures i in a && i in b
  {
    SubsetSize(a + b, Members(n));
    assert |a + b| == |a| + |b| - |a * b|;
    i :| i in a * b;
  }

  /**
    What every configuration needs of the table: a replication quorum meets
    every view-change quorum and every set of nacks that may truncate an op,
    and no quorum asks for more replicas than there are, or for more than that
    takes; the replication quorum is half of the replicas, rounded up, or the
    configured maximum if that is less.
   */
  lemma TableIntersects(active: nat, replicationMax: nat)
    ensures For(active, replicationMax).Valid? <==> 1 <= active <= ACTIVE_MAX && replicationMax > 0
    ensures For(active, replicationMax).Valid? ==>
              var t := For(active, replicationMax).table;
              && t.replication + t.viewChange > active
              && t.replication + t.negative > active
              && 1 <= t.replication <= active && 1 <= t.viewChange <= active && 1 <= t.negative <= active
              && 2 * t.majority > active >= 2 * (t.majority - 1) && t.upgrade == active
              && t.replication + t.negative == active + 1
              && (active == 2 ==> t.replication == 2 && t.viewChange == 2)
              && (active != 2 ==>
                    && t.replication + t.viewChange == active + 1 && t.replication <= replicationMax
                    && 2 * t.replication <= active + 1
                    && (t.replication == replicationMax || 2 * t.replication >= active))
  {
  }
}
