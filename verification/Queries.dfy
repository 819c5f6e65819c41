/** Facts that let the recursive queries follow the graph one parent at a time. */
module Queries {
  import opened Dags
  import opened Fame

  /** One step of Lamport's rule, in the terms the query reads. */
  lemma {:induction false} LamportStep(d: Dag, x: Hash)
    requires WellFormed(d) && x in d.events
    ensures EventOk(d, x) && Known(d, d.events[x].selfParent) && x !in d.rootOf
    ensures Rank(d, d.events[x].selfParent) < Rank(d, x) && Rank(d, d.events[x].otherParent) < Rank(d, x)
    ensures d.events[x].creator in d.roots
    ensures d.events[x].selfParent == d.roots[d.events[x].creator].selfParent.hash ==>
              Lamport(d, d.events[x].selfParent) == d.roots[d.events[x].creator].selfParent.lamport
  {
    Parents(d, x);
    var c := d.events[x].creator;
    assert LogOk(d, c);
    assert x in d.rootOf ==> LogOk(d, d.rootOf[x]);
  }

  /** With different creators, an ancestor is reached through a parent. */
  lemma {:induction false} ReachStep(d: Dag, x: Hash, y: Hash)
    requires WellFormed(d) && x in d.events && x != y
    ensures Reach(d, x, y) <==>
              Reach(d, d.events[x].selfParent, y) || (d.events[x].otherParent != NoHash
                && Reach(d, d.events[x].otherParent, y))
  {
  }

  /** The creators between an event and one of its ancestors: its own, and those above either parent. */
  lemma {:induction false} SentinelsStep(d: Dag, x: Hash, y: Hash)
    requires WellFormed(d) && x in d.events && Reach(d, x, y)
    ensures x == y ==> Sentinels(d, x, y) == {d.events[x].creator}
    ensures x != y ==>
              Sentinels(d, x, y) == {d.events[x].creator} + Sentinels(d, d.events[x].otherParent, y) +
                Sentinels(d, d.events[x].selfParent, y)
  {
    hide WellFormed;
    var e := d.events[x];
    if x == y {
      forall z | Reach(d, x, z) && Reach(d, z, x) ensures z == x {
        NoCycle(d, x, z);
      }
      assert x in Hashes(d) && Reach(d, x, x);
      assert d.events[x].creator == CreatorOf(d, x);
    } else {
      SentinelsUp(d, x, y);
      SentinelsDown(d, x, y);
    }
  }

  lemma {:induction false} NoCycle(d: Dag, x: Hash, z: Hash)
    requires WellFormed(d) && Reach(d, x, z) && Reach(d, z, x)
    ensures z == x
  {
    hide WellFormed, Reach;
    if z != x {
      ReachRank(d, x, z);
      ReachRank(d, z, x);
    }
  }

  lemma {:induction false} SentinelsUp(d: Dag, x: Hash, y: Hash)
    requires WellFormed(d) && x in d.events && Reach(d, x, y) && x != y
    ensures {d.events[x].creator} + Sentinels(d, d.events[x].otherParent, y) +
              Sentinels(d, d.events[x].selfParent, y) <= Sentinels(d, x, y)
  {
    hide WellFormed;
    var e := d.events[x];
    assert x in Hashes(d) && Reach(d, x, x) && CreatorOf(d, x) == e.creator;
    forall z | z in Hashes(d) && Reach(d, e.otherParent, z) && Reach(d, z, y) ensures Reach(d, x, z) {
      NothingFromNoHash(d, e.otherParent, z);
    }
    forall z | z in Hashes(d) && Reach(d, e.selfParent, z) && Reach(d, z, y) ensures Reach(d, x, z) {
    }
  }

  lemma {:induction false} NothingFromNoHash(d: Dag, p: Hash, z: Hash)
    requires WellFormed(d) && z in Hashes(d) && Reach(d, p, z)
    ensures p != NoHash
  {
    assert NoHash in d.rootOf ==> LogOk(d, d.rootOf[NoHash]);
  }

  lemma {:induction false} SentinelsDown(d: Dag, x: Hash, y: Hash)
    requires WellFormed(d) && x in d.events && Reach(d, x, y) && x != y
    ensures Sentinels(d, x, y) <= {d.events[x].creator} + Sentinels(d, d.events[x].otherParent, y) +
              Sentinels(d, d.events[x].selfParent, y)
  {
    hide WellFormed;
    var e := d.events[x];
    forall z | z in Hashes(d) && Reach(d, x, z) && Reach(d, z, y)
      ensures CreatorOf(d, z) in {e.creator} + Sentinels(d, e.otherParent, y) + Sentinels(d, e.selfParent, y)
    {
      if z != x {
        assert Reach(d, e.selfParent, z) || Reach(d, e.otherParent, z);
      }
    }
  }

  lemma {:induction false} NoSentinelsBelow(d: Dag, x: Hash, y: Hash)
    requires WellFormed(d) && !Reach(d, x, y)
    ensures Sentinels(d, x, y) == {}
  {
    hide WellFormed, Reach;
    forall z | z in Hashes(d) && Reach(d, x, z) && Reach(d, z, y) ensures false {
      ReachTrans(d, x, z, y);
    }
  }

  lemma {:induction false} NoSentinelsOfNoHash(d: Dag, y: Hash)
    requires WellFormed(d)
    ensures Sentinels(d, NoHash, y) == {}
  {
    forall z | z in Hashes(d) && Reach(d, NoHash, z) && Reach(d, z, y) ensures false {
      NothingFromNoHash(d, NoHash, z);
    }
  }

  /** From a root, only the root itself is reached. */
  lemma {:induction false} RootSentinels(d: Dag, x: Hash, y: Hash)
    requires WellFormed(d) && x in d.rootOf && x !in d.events
    ensures Reach(d, x, y) <==> x == y
    ensures x == y ==> Sentinels(d, x, y) == {d.rootOf[x]}
  {
    hide WellFormed;
    if x == y {
      assert x in Hashes(d) && CreatorOf(d, x) == d.rootOf[x] && Reach(d, x, x);
      assert forall z :: Reach(d, x, z) ==> z == x;
    }
  }
}
