/** Rounds and witnesses, computed from an event and its ancestry alone. */
module Rounds {
  import opened Dags
  import opened Quorum

  ghost function Quota(d: Dag): (q: nat)
    ensures 0 < q
  {
    SuperMajority(|d.roots|)
  }

  function CountIn(list: seq<Hash>, s: set<Hash>): nat {
    if list == [] then 0 else CountIn(list[1..], s) + if list[0] in s then 1 else 0
  }

  // ---------------------------------------------------------------- definitions

  /** The round of an event.  An event on its root without other-parent opens round 0;
      otherwise the parents' rounds are raised by one when enough witnesses of
      that round are listed in the event and are among its ancestors. */
  ghost function Round(d: Dag, x: Hash): int
    requires Based(d) && Known(d, x)
    decreases Rank(d, x), 2
  {
    if x !in d.events then -1
    else
      Parents(d, x);
      assert d.roots[d.events[x].creator] == BaseRoot(d.events[x].creator);
      var e := d.events[x];
      if e.selfParent == RootHash(e.creator) && e.otherParent == NoHash then 0
      else
        var sp := Round(d, e.selfParent);
        if e.otherParent == NoHash then
          Raised(d, x, sp)
        else
          var op := Round(d, e.otherParent);
          if op <= sp then
            Raised(d, x, sp)
          else
            var found := |e.flagTable * Seen(d, x, op)|;
            if found >= Quota(d) then op + 1 else if found > 0 then op else Raised(d, x, op)
  }

  /** `r`, or `r + 1` when the witness proof or the flag table holds a quota of seen witnesses of `r`. */
  ghost function Raised(d: Dag, x: Hash, r: int): int
    requires Based(d) && x in d.events
    decreases Rank(d, x), 1
  {
    var e := d.events[x];
    if |e.witnessProof| >= Quota(d) && CountIn(e.witnessProof, Seen(d, x, r)) >= Quota(d) then r + 1
    else if |e.flagTable| >= Quota(d) && |e.flagTable * Seen(d, x, r)| >= Quota(d) then r + 1
    else r
  }

  /** The witnesses of round `r` among the strict ancestors of `x`. */
  ghost function Seen(d: Dag, x: Hash, r: int): set<Hash>
    requires Based(d) && x in d.events
    decreases Rank(d, x), 0
  {
    set w | w in d.events && Rank(d, w) < Rank(d, x) && Reach(d, x, w) && Round(d, w) == r && Witness(d, w)
  }

  /** The first event of its creator in its round; also any event without other-parent. */
  ghost predicate Witness(d: Dag, x: Hash)
    requires Based(d) && x in d.events
    decreases Rank(d, x), 3
  {
    Parents(d, x);
    d.events[x].otherParent == NoHash || Round(d, x) > Round(d, d.events[x].selfParent)
  }

  ghost function Witnesses(d: Dag, r: int): set<Hash>
    requires Based(d)
  {
    set w | w in d.events && Round(d, w) == r && Witness(d, w)
  }

  // ---------------------------------------------------------------- round structure

  /** A round is the larger of the parents' rounds, or one more. */
  lemma {:induction false} RoundStep(d: Dag, x: Hash)
    requires Based(d) && x in d.events
    ensures Known(d, d.events[x].selfParent)
    ensures d.events[x].otherParent != NoHash ==> d.events[x].otherParent in d.events
    ensures ParentRound(d, x) <= Round(d, x) <= ParentRound(d, x) + 1
    ensures 0 <= Round(d, x)
    decreases Rank(d, x)
  {
    Parents(d, x);
    var e := d.events[x];
    assert d.roots[e.creator] == BaseRoot(e.creator);
    BaseRootKnown(d, e.creator);
    if e.selfParent in d.events {
      RoundStep(d, e.selfParent);
    }
    if e.otherParent != NoHash {
      RoundStep(d, e.otherParent);
    }
    RootParent(d, x);
  }

  ghost function ParentRound(d: Dag, x: Hash): int
    requires Based(d) && x in d.events
  {
    Parents(d, x);
    assert d.roots[d.events[x].creator] == BaseRoot(d.events[x].creator);
    var e := d.events[x];
    if e.otherParent == NoHash then Round(d, e.selfParent)
    else Max(Round(d, e.selfParent), Round(d, e.otherParent))
  }

  /** A self-parent that is not an event is the creator's own root. */
  lemma {:induction false} RootParent(d: Dag, x: Hash)
    requires Based(d) && x in d.events
    ensures d.events[x].creator in d.roots
    ensures d.events[x].selfParent in d.events <==> d.events[x].selfParent != RootHash(d.events[x].creator)
  {
    Parents(d, x);
    var e := d.events[x];
    assert d.roots[e.creator] == BaseRoot(e.creator);
    BaseRootKnown(d, e.creator);
  }

  /** Rounds never fall along parent links. */
  lemma {:induction false} RoundMonotone(d: Dag, x: Hash, y: Hash)
    requires Based(d) && Known(d, x) && Reach(d, x, y)
    ensures Known(d, y) && Round(d, y) <= Round(d, x)
    decreases Rank(d, x)
  {
    ReachKnown(d, x, y);
    if x != y {
      Parents(d, x);
      RoundStep(d, x);
      var e := d.events[x];
      if Reach(d, e.selfParent, y) {
        RoundMonotone(d, e.selfParent, y);
      } else {
        RoundMonotone(d, e.otherParent, y);
      }
    }
  }

  /** Every event stands on its creator's witness for its round. */
  lemma {:induction false} OwnWitness(d: Dag, x: Hash) returns (w: Hash)
    requires Based(d) && x in d.events
    ensures w in d.events && Witness(d, w) && Round(d, w) == Round(d, x)
    ensures d.events[w].creator == d.events[x].creator && d.events[w].index <= d.events[x].index
    ensures Reach(d, x, w)
    decreases Rank(d, x)
  {
    Parents(d, x);
    RoundStep(d, x);
    RootParent(d, x);
    var sp := d.events[x].selfParent;
    if Round(d, sp) < Round(d, x) {
      w := x;
    } else {
      w := OwnWitness(d, sp);
    }
  }

  /** No gaps: below an event there is a witness of every round up to its own. */
  lemma {:induction false} NoGaps(d: Dag, x: Hash, r: int) returns (w: Hash)
    requires Based(d) && x in d.events && 0 <= r <= Round(d, x)
    ensures w in Witnesses(d, r) && Reach(d, x, w)
    decreases Rank(d, x)
  {
    if r == Round(d, x) {
      w := OwnWitness(d, x);
    } else {
      Parents(d, x);
      RoundStep(d, x);
      RootParent(d, x);
      var e := d.events[x];
      if e.selfParent in d.events && r <= Round(d, e.selfParent) {
        w := NoGaps(d, e.selfParent, r);
      } else {
        w := NoGaps(d, e.otherParent, r);
      }
    }
  }

  // ---------------------------------------------------------------- one witness per creator

  ghost predicate OneWitnessPerCreator(d: Dag)
    requires Based(d)
  {
    forall v, w ::
      v in d.events && w in d.events && Witness(d, v) && Witness(d, w) &&
      Round(d, v) == Round(d, w) && d.events[v].creator == d.events[w].creator
      ==> v == w
  }

  /** The event has neither an other-parent nor its creator's root below it, and stays in its self-parent's round. */
  ghost predicate Stray(d: Dag, x: Hash)
    requires Based(d) && x in d.events
  {
    Parents(d, x);
    var e := d.events[x];
    e.otherParent == NoHash && e.selfParent in d.events && Round(d, x) == Round(d, e.selfParent)
  }

  lemma {:induction false} LaterWitness(d: Dag, v: Hash, w: Hash)
    requires Based(d) && v in d.events && w in d.events && Witness(d, w) && !Stray(d, w)
    requires d.events[v].creator == d.events[w].creator && d.events[v].index < d.events[w].index
    ensures Round(d, v) < Round(d, w)
  {
    Parents(d, w);
    RoundStep(d, w);
    RootParent(d, w);
    var sp := d.events[w].selfParent;
    RootIndexIsBelow(d, v);
    SameCreatorReach(d, sp, v);
    RoundMonotone(d, sp, v);
  }

  /** No creator has two witnesses in a round, exactly when no event is stray:
      the test for a missing other-parent in `witness` is what admits a second one. */
  lemma {:induction false} OneWitnessIff(d: Dag)
    requires Based(d)
    ensures OneWitnessPerCreator(d) <==> forall x :: x in d.events ==> !Stray(d, x)
  {
    if x :| x in d.events && Stray(d, x) {
      Parents(d, x);
      var w := OwnWitness(d, d.events[x].selfParent);
      assert Witness(d, x) && w != x;
    } else {
      forall v, w | v in d.events && w in d.events && Witness(d, v) && Witness(d, w) &&
                    Round(d, v) == Round(d, w) && d.events[v].creator == d.events[w].creator
        ensures v == w
      {
        if d.events[v].index < d.events[w].index {
          LaterWitness(d, v, w);
        } else if d.events[w].index < d.events[v].index {
          LaterWitness(d, w, v);
        } else {
          NoFork(d, v, w);
        }
      }
    }
  }

  /** Events that leave their root always name an other-parent. */
  ghost predicate OtherParentsNamed(d: Dag) {
    forall x :: x in d.events && d.events[x].otherParent == NoHash ==> d.events[x].selfParent !in d.events
  }

  /** That is enough for one witness per creator and round. */
  lemma {:induction false} NamedParentsSuffice(d: Dag)
    requires Based(d) && OtherParentsNamed(d)
    ensures OneWitnessPerCreator(d)
  {
    hide WellFormed, Round, OneWitnessPerCreator;
    OneWitnessIff(d);
  }

  lemma {:induction false} WitnessesFit(d: Dag, r: int)
    requires Based(d) && OneWitnessPerCreator(d)
    ensures |Witnesses(d, r)| <= |d.roots|
  {
    var creator := (h: Hash) => if h in d.events then d.events[h].creator else 0;
    forall w | w in Witnesses(d, r) ensures creator(w) in d.roots.Keys {
      Parents(d, w);
    }
    InjectionSize(Witnesses(d, r), creator, d.roots.Keys);
  }

  // ---------------------------------------------------------------- round quorum

  ghost predicate NoDuplicates(s: seq<Hash>) {
    forall i, j :: 0 <= i < j < |s| ==> s[i] != s[j]
  }

  ghost predicate ProofsDistinct(d: Dag) {
    forall x :: x in d.events ==> NoDuplicates(d.events[x].witnessProof)
  }

  lemma {:induction false} CountDistinct(list: seq<Hash>, s: set<Hash>)
    requires NoDuplicates(list)
    ensures CountIn(list, s) <= |s|
  {
    if list != [] {
      var rest := list[1..];
      assert forall i :: 0 <= i < |rest| ==> rest[i] == list[i + 1];
      CountWithout(rest, s, list[0]);
      CountDistinct(rest, s - {list[0]});
    }
  }

  lemma {:induction false} CountWithout(list: seq<Hash>, s: set<Hash>, x: Hash)
    requires forall i :: 0 <= i < |list| ==> list[i] != x
    ensures CountIn(list, s) == CountIn(list, s - {x})
  {
    if list != [] {
      CountWithout(list[1..], s, x);
    }
  }

  /** The witnesses of round `r` among the ancestors of `x`. */
  ghost function SeenWitnesses(d: Dag, x: Hash, r: int): set<Hash>
    requires Based(d)
  {
    set w | w in Witnesses(d, r) && Reach(d, x, w)
  }

  /** Every event of round r + 1 has a quota of distinct round-r witnesses among its ancestors. */
  lemma {:induction false} RoundQuorum(d: Dag, x: Hash, r: int)
    requires Based(d) && ProofsDistinct(d) && x in d.events && 0 <= r && Round(d, x) == r + 1
    ensures |SeenWitnesses(d, x, r)| >= Quota(d)
    decreases Rank(d, x)
  {
    Parents(d, x);
    RoundStep(d, x);
    RootParent(d, x);
    var e := d.events[x];
    var p := if Round(d, e.selfParent) == r + 1 then e.selfParent else e.otherParent;
    if ParentRound(d, x) == r + 1 {
      RoundQuorum(d, p, r);
      assert SeenWitnesses(d, p, r) <= SeenWitnesses(d, x, r);
      SubsetSize(SeenWitnesses(d, p, r), SeenWitnesses(d, x, r));
    } else {
      QuotaAtIncrement(d, x, r);
    }
  }

  lemma {:induction false} QuotaAtIncrement(d: Dag, x: Hash, r: int)
    requires Based(d) && ProofsDistinct(d) && x in d.events && 0 <= r
    requires ParentRound(d, x) == r && Round(d, x) == r + 1
    ensures |SeenWitnesses(d, x, r)| >= Quota(d)
  {
    hide WellFormed, Seen, SeenWitnesses, Quota, CountIn;
    var e := d.events[x];
    SeenIsSeen(d, x, r);
    SubsetSize(Seen(d, x, r), SeenWitnesses(d, x, r));
    CountDistinct(e.witnessProof, Seen(d, x, r));
    SubsetSize(e.flagTable * Seen(d, x, r), Seen(d, x, r));
    RootParent(d, x);
    RoundStep(d, x);
  }

  lemma {:induction false} SeenIsSeen(d: Dag, x: Hash, r: int)
    requires Based(d) && x in d.events
    ensures Seen(d, x, r) <= SeenWitnesses(d, x, r)
  {
    hide WellFormed, Reach, Round, Witness;
  }

  /** Two events of round r + 1 have at least a third of the participants' round-r witnesses in common. */
  lemma {:induction false} RoundOverlap(d: Dag, x: Hash, y: Hash, r: int)
    requires Based(d) && ProofsDistinct(d) && OneWitnessPerCreator(d)
    requires x in d.events && y in d.events && 0 <= r && Round(d, x) == r + 1 && Round(d, y) == r + 1
    ensures |SeenWitnesses(d, x, r) * SeenWitnesses(d, y, r)| >= TrustCount(|d.roots|)
  {
    hide Round;
    RoundQuorum(d, x, r);
    RoundQuorum(d, y, r);
    WitnessesFit(d, r);
    QuorumsOverlap(SeenWitnesses(d, x, r), SeenWitnesses(d, y, r), Witnesses(d, r), |d.roots|);
  }

  // ---------------------------------------------------------------- history independence

  /** Two stores that took the events in by different routes give a shared
      event the same round and the same witness flag. */
  lemma {:induction false} RoundAgree(d1: Dag, d2: Dag, x: Hash)
    requires Based(d1) && Based(d2) && Agree(d1, d2) && Known(d1, x) && Known(d2, x)
    ensures Round(d1, x) == Round(d2, x)
    ensures x in d1.events <==> x in d2.events
    ensures x in d1.events ==> (Witness(d1, x) <==> Witness(d2, x))
    decreases Rank(d1, x)
  {
    hide WellFormed, Reach, Seen, SuperMajority, CountIn;
    SharedRoots(d1, d2);
    if x in d1.events {
      RootsAreNotEvents(d1, d2, x);
      Parents(d1, x); Parents(d2, x);
      SharedParent(d1, d2, x);
      var e := d1.events[x];
      RoundAgree(d1, d2, e.selfParent);
      if e.otherParent != NoHash {
        RoundAgree(d1, d2, e.otherParent);
      }
      forall r ensures Seen(d1, x, r) == Seen(d2, x, r) && Raised(d1, x, r) == Raised(d2, x, r) {
        SeenAgree(d1, d2, x, r);
      }
    } else if x in d2.events {
      RootsAreNotEvents(d2, d1, x);
    }
  }

  lemma {:induction false} SeenAgree(d1: Dag, d2: Dag, x: Hash, r: int)
    requires Based(d1) && Based(d2) && Agree(d1, d2) && x in d1.events && x in d2.events
    ensures Seen(d1, x, r) == Seen(d2, x, r)
    decreases Rank(d1, x), 0
  {
    forall w | w in Seen(d1, x, r) ensures w in Seen(d2, x, r) {
      ReachAgree(d1, d2, x, w);
      RoundAgree(d1, d2, w);
      ReachRank(d2, x, w);
    }
    forall w | w in Seen(d2, x, r) ensures w in Seen(d1, x, r) {
      ReachAgree(d1, d2, x, w);
      ReachRank(d1, x, w);
      RoundAgree(d1, d2, w);
    }
  }
}
