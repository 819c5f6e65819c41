/** Strongly seeing and virtual voting. */
module Fame {
  import opened Dags
  import opened Quorum
  import opened Rounds

  // ---------------------------------------------------------------- strongly seeing

  ghost function Hashes(d: Dag): set<Hash> { d.events.Keys + d.rootOf.Keys }

  /** The participants with an event on some parent path from `x` down to `y`. */
  ghost function Sentinels(d: Dag, x: Hash, y: Hash): set<Creator>
    requires WellFormed(d)
  {
    set z | z in Hashes(d) && Reach(d, x, z) && Reach(d, z, y) :: CreatorOf(d, z)
  }

  ghost predicate StronglySees(d: Dag, x: Hash, y: Hash)
    requires WellFormed(d)
  {
    |Sentinels(d, x, y)| >= Quota(d)
  }

  /** A descendant strongly sees whatever its ancestor strongly sees. */
  lemma {:induction false} StronglySeesInherited(d: Dag, x: Hash, x': Hash, y: Hash)
    requires WellFormed(d) && Reach(d, x', x) && StronglySees(d, x, y)
    ensures StronglySees(d, x', y)
  {
    forall z | z in Hashes(d) && Reach(d, x, z) ensures Reach(d, x', z) {
      ReachTrans(d, x', x, z);
    }
    assert Sentinels(d, x, y) <= Sentinels(d, x', y);
    SubsetSize(Sentinels(d, x, y), Sentinels(d, x', y));
  }

  /** To strongly see is to see. */
  lemma {:induction false} StronglySeesReaches(d: Dag, x: Hash, y: Hash)
    requires WellFormed(d) && StronglySees(d, x, y)
    ensures Reach(d, x, y)
  {
    assert Sentinels(d, x, y) != {};
    var z :| z in Hashes(d) && Reach(d, x, z) && Reach(d, z, y);
    ReachTrans(d, x, z, y);
  }

  lemma {:induction false} SentinelsAgree(d1: Dag, d2: Dag, x: Hash, y: Hash)
    requires Based(d1) && Based(d2) && Agree(d1, d2) && Known(d1, x) && Known(d2, x)
    ensures Sentinels(d1, x, y) == Sentinels(d2, x, y)
  {
    forall c | c in Sentinels(d1, x, y) ensures c in Sentinels(d2, x, y) {
      SentinelMoves(d1, d2, x, y, c);
    }
    forall c | c in Sentinels(d2, x, y) ensures c in Sentinels(d1, x, y) {
      SentinelMoves(d2, d1, x, y, c);
    }
  }

  lemma {:induction false} SentinelMoves(d1: Dag, d2: Dag, x: Hash, y: Hash, c: Creator)
    requires Based(d1) && Based(d2) && Agree(d1, d2) && Known(d1, x) && Known(d2, x)
    requires c in Sentinels(d1, x, y)
    ensures c in Sentinels(d2, x, y)
  {
    var z :| z in Hashes(d1) && Reach(d1, x, z) && Reach(d1, z, y) && CreatorOf(d1, z) == c;
    ReachAgree(d1, d2, x, z);
    ReachAgree(d1, d2, z, y);
    RoundAgree(d1, d2, z);
    SharedRoots(d1, d2);
    assert z in Hashes(d2) && CreatorOf(d2, z) == c;
  }

  // ---------------------------------------------------------------- voting

  /** Voting about witness `x` by witness `y` of a later round. */
  ghost predicate Ballot(d: Dag, x: Hash, y: Hash) {
    Based(d) && x in d.events && y in d.events && Round(d, x) < Round(d, y)
  }

  /** The witnesses of the round before that of `y` whose votes `y` counts. */
  ghost function Voters(d: Dag, y: Hash): set<Hash>
    requires Based(d) && y in d.events
  {
    set w | w in Witnesses(d, Round(d, y) - 1) && StronglySees(d, y, w)
  }

  ghost function Yays(d: Dag, x: Hash, y: Hash): set<Hash>
    requires Ballot(d, x, y) && Round(d, y) - Round(d, x) > 1
    decreases Round(d, y) - Round(d, x), 0
  {
    hide Based, WellFormed, Round, Witness, CoinRound, SuperMajority, Sentinels;
    set w | w in Voters(d, y) && Vote(d, x, w)
  }

  ghost function Nays(d: Dag, x: Hash, y: Hash): set<Hash>
    requires Ballot(d, x, y) && Round(d, y) - Round(d, x) > 1
    decreases Round(d, y) - Round(d, x), 0
  {
    hide Based, WellFormed, Round, Witness, CoinRound, SuperMajority, Sentinels;
    set w | w in Voters(d, y) && !Vote(d, x, w)
  }

  /** Every third round of voting about a witness is settled by a coin. */
  const COIN_PERIOD := 3

  predicate CoinRound(diff: int) { diff % COIN_PERIOD == 0 }

  /** In the first round a witness votes by whether it sees `x`; later it follows
      the majority it strongly sees, or the coin when that majority is short of
      a quota in a coin round. */
  ghost predicate Vote(d: Dag, x: Hash, y: Hash)
    requires Ballot(d, x, y)
    decreases Round(d, y) - Round(d, x), 1
  {
    hide Round;
    var diff := Round(d, y) - Round(d, x);
    if diff == 1 then Reach(d, y, x)
    else
      var yays, nays := |Yays(d, x, y)|, |Nays(d, x, y)|;
      if !CoinRound(diff) || Max(yays, nays) >= Quota(d) then yays >= nays else MiddleBit(y)
  }

  /** `y` settles the fame of `x` as `v`: a quota of the votes it counts, outside the first and the coin rounds. */
  ghost predicate Decides(d: Dag, x: Hash, y: Hash, v: bool)
    requires Ballot(d, x, y)
  {
    var diff := Round(d, y) - Round(d, x);
    && diff > 1 && !CoinRound(diff)
    && Witness(d, y)
    && v == (|Yays(d, x, y)| >= |Nays(d, x, y)|)
    && Max(|Yays(d, x, y)|, |Nays(d, x, y)|) >= Quota(d)
  }

  ghost function For(d: Dag, x: Hash, y: Hash, v: bool): set<Hash>
    requires Ballot(d, x, y) && Round(d, y) - Round(d, x) > 1
  {
    if v then Yays(d, x, y) else Nays(d, x, y)
  }

  lemma {:induction false} VotersSplit(d: Dag, x: Hash, y: Hash, v: bool)
    requires Ballot(d, x, y) && Round(d, y) - Round(d, x) > 1
    ensures For(d, x, y, v) <= Voters(d, y) <= Witnesses(d, Round(d, y) - 1)
    ensures Voters(d, y) - For(d, x, y, v) == For(d, x, y, !v)
    ensures forall w :: w in Voters(d, y) ==> Ballot(d, x, w)
    ensures forall w :: w in Voters(d, y) ==> (w in For(d, x, y, v) <==> Vote(d, x, w) == v)
  {
    hide Based, WellFormed, Round, Witness, Vote, StronglySees, SuperMajority;
  }

  /** Two witnesses of one round that both reach a quota about `x` reach it for the same value. */
  lemma {:induction false} VerdictDeterminism(d: Dag, x: Hash, y: Hash, z: Hash, v: bool, u: bool)
    requires Ballot(d, x, y) && Ballot(d, x, z) && OneWitnessPerCreator(d)
    requires Round(d, y) == Round(d, z) && Round(d, y) - Round(d, x) > 1
    requires |For(d, x, y, v)| >= Quota(d) && |For(d, x, z, u)| >= Quota(d)
    ensures v == u
  {
    hide Based, WellFormed, Round, Witness, CoinRound, SuperMajority, OneWitnessPerCreator, Vote, Voters, Yays, Nays;
    hide Witnesses, For;
    var r := Round(d, y) - 1;
    VotersSplit(d, x, y, v);
    VotersSplit(d, x, z, u);
    WitnessesFit(d, r);
    QuorumsOverlap(For(d, x, y, v), For(d, x, z, u), Witnesses(d, r), |d.roots|);
    var w :| w in For(d, x, y, v) * For(d, x, z, u);
  }

  // ---------------------------------------------------------------- agreement

  /** From two rounds above `x` on, every witness strongly sees a quota of the witnesses one round down. */
  ghost predicate StrongQuorums(d: Dag, x: Hash)
    requires Based(d) && x in d.events
  {
    forall y :: y in d.events && Witness(d, y) && Round(d, y) - Round(d, x) > 1 ==> |Voters(d, y)| >= Quota(d)
  }

  ghost predicate Unanimous(d: Dag, x: Hash, j: int, v: bool)
    requires Based(d) && x in d.events && Round(d, x) < j
  {
    forall y :: y in Witnesses(d, j) ==> Vote(d, x, y) == v
  }

  lemma {:induction false} MajorityRules(d: Dag, x: Hash, y: Hash, v: bool)
    requires Ballot(d, x, y) && Round(d, y) - Round(d, x) > 1
    requires |For(d, x, y, v)| > |For(d, x, y, !v)|
    requires !CoinRound(Round(d, y) - Round(d, x)) || |For(d, x, y, v)| >= Quota(d)
    ensures Vote(d, x, y) == v
    ensures forall u :: Decides(d, x, y, u) ==> u == v
  {
    hide Based, WellFormed, Round, Voters, Witness, CoinRound, SuperMajority;
  }

  lemma {:induction false} DecisionHasQuota(d: Dag, x: Hash, y: Hash, v: bool)
    requires Ballot(d, x, y) && Decides(d, x, y, v)
    ensures Round(d, y) - Round(d, x) > 1 && |For(d, x, y, v)| >= Quota(d)
  {
    hide Based, WellFormed, Round, Witness, CoinRound, SuperMajority, Vote, Voters, Yays, Nays;
  }

  /** Two witnesses of one round never decide differently. */
  lemma {:induction false} SameRoundAgree(d: Dag, x: Hash, y: Hash, z: Hash, v: bool, u: bool)
    requires Ballot(d, x, y) && Decides(d, x, y, v) && Ballot(d, x, z) && Decides(d, x, z, u)
    requires Round(d, y) == Round(d, z) && OneWitnessPerCreator(d)
    ensures v == u
  {
    hide Based, WellFormed, Round, Witness, CoinRound, SuperMajority, Vote, Voters, Yays, Nays, OneWitnessPerCreator;
    hide For;
    DecisionHasQuota(d, x, y, v);
    DecisionHasQuota(d, x, z, u);
    VerdictDeterminism(d, x, y, z, v, u);
  }

  /** A voter counted by both `y` and `z` is counted on the same side. */
  lemma {:induction false} SharedVoters(d: Dag, x: Hash, y: Hash, z: Hash, v: bool)
    requires Ballot(d, x, y) && Round(d, y) - Round(d, x) > 1
    requires Ballot(d, x, z) && Round(d, z) == Round(d, y)
    ensures For(d, x, y, v) * Voters(d, z) <= For(d, x, z, v) <= Voters(d, z)
    ensures For(d, x, y, v) <= Witnesses(d, Round(d, y) - 1)
    ensures Voters(d, z) <= Witnesses(d, Round(d, y) - 1)
    ensures Voters(d, z) - For(d, x, z, v) == For(d, x, z, !v)
  {
    hide Based, WellFormed, Round, Witness, CoinRound, SuperMajority, Vote, Voters, Yays, Nays, Witnesses, For;
    VotersSplit(d, x, y, v);
    VotersSplit(d, x, z, v);
  }

  /** Whoever shares a round with a decision counts more of its voters than of the others. */
  lemma {:induction false} DecisionOutvotes(d: Dag, x: Hash, y: Hash, v: bool, z: Hash)
    requires Ballot(d, x, y) && OneWitnessPerCreator(d) && Decides(d, x, y, v)
    requires Ballot(d, x, z) && Round(d, z) == Round(d, y) && |Voters(d, z)| >= Quota(d)
    ensures |For(d, x, z, v)| > |For(d, x, z, !v)|
  {
    hide Based, WellFormed, Round, Witness, CoinRound, SuperMajority, OneWitnessPerCreator, Vote, Voters, Yays, Nays;
    hide Witnesses, For, Decides;
    var r := Round(d, y) - 1;
    DecisionHasQuota(d, x, y, v);
    SharedVoters(d, x, y, z, v);
    WitnessesFit(d, r);
    QuorumOutvotes(For(d, x, y, v), Voters(d, z), Witnesses(d, r), |d.roots|, For(d, x, z, v));
  }

  /** A decision carries its whole round. */
  lemma {:induction false} DecisionCarriesRound(d: Dag, x: Hash, y: Hash, v: bool)
    requires Ballot(d, x, y) && OneWitnessPerCreator(d) && StrongQuorums(d, x) && Decides(d, x, y, v)
    ensures Unanimous(d, x, Round(d, y), v)
  {
    hide Based, WellFormed, Round, Witness, CoinRound, SuperMajority, OneWitnessPerCreator, Vote, Voters, Yays, Nays;
    hide For;
    forall z | z in Witnesses(d, Round(d, y)) ensures Vote(d, x, z) == v {
      DecisionOutvotes(d, x, y, v, z);
      MajorityRules(d, x, z, v);
    }
  }

  lemma {:induction false} UnanimousCount(d: Dag, x: Hash, y: Hash, v: bool)
    requires Ballot(d, x, y) && Round(d, y) - Round(d, x) > 1 && Unanimous(d, x, Round(d, y) - 1, v)
    ensures For(d, x, y, v) == Voters(d, y) && For(d, x, y, !v) == {}
  {
    hide Based, WellFormed, Round, Witness, CoinRound, SuperMajority, Vote, Voters, Yays, Nays, Witnesses;
    VotersSplit(d, x, y, v);
    VotersSplit(d, x, y, !v);
  }

  /** Unanimity is carried into the next round, coin round or not. */
  lemma {:induction false} UnanimityCarries(d: Dag, x: Hash, j: int, v: bool)
    requires Based(d) && x in d.events && Round(d, x) < j
    requires StrongQuorums(d, x) && Unanimous(d, x, j, v)
    ensures Unanimous(d, x, j + 1, v)
    ensures forall y, u :: y in Witnesses(d, j + 1) && Decides(d, x, y, u) ==> u == v
  {
    hide Based, WellFormed, Round, Witness, CoinRound, SuperMajority, Vote, Voters, Yays, Nays, Decides, For;
    forall y | y in Witnesses(d, j + 1)
      ensures Vote(d, x, y) == v && forall u :: Decides(d, x, y, u) ==> u == v
    {
      UnanimousCount(d, x, y, v);
      MajorityRules(d, x, y, v);
    }
  }

  lemma {:induction false} UnanimityLasts(d: Dag, x: Hash, j: int, k: int, v: bool)
    requires Based(d) && x in d.events && Round(d, x) < j <= k
    requires StrongQuorums(d, x) && Unanimous(d, x, j, v)
    ensures Unanimous(d, x, k, v)
    decreases k - j
  {
    if j < k {
      UnanimityCarries(d, x, j, v);
      UnanimityLasts(d, x, j + 1, k, v);
    }
  }

  /** Once a witness has decided, every witness of that and of all later rounds
      votes the same way and none decides otherwise. */
  lemma {:induction false} FameIsFinal(d: Dag, x: Hash, y: Hash, v: bool, z: Hash)
    requires Ballot(d, x, y) && OneWitnessPerCreator(d) && StrongQuorums(d, x) && Decides(d, x, y, v)
    requires z in d.events && Witness(d, z) && Round(d, y) <= Round(d, z)
    ensures Vote(d, x, z) == v
    ensures forall u :: Decides(d, x, z, u) ==> u == v
  {
    hide Based, WellFormed, Round, Witness, CoinRound, SuperMajority, Voters, Yays, Nays, OneWitnessPerCreator;
    DecisionCarriesRound(d, x, y, v);
    UnanimityLasts(d, x, Round(d, y), Round(d, z), v);
    assert z in Witnesses(d, Round(d, z));
  }

  lemma {:induction false} DecisionsAgree(d: Dag, x: Hash, y1: Hash, y2: Hash, v1: bool, v2: bool)
    requires Ballot(d, x, y1) && Decides(d, x, y1, v1) && Ballot(d, x, y2) && Decides(d, x, y2, v2)
    requires OneWitnessPerCreator(d) && StrongQuorums(d, x)
    ensures v1 == v2
  {
    hide Based, WellFormed, Round, Witness, CoinRound, SuperMajority, Vote, OneWitnessPerCreator, StrongQuorums;
    if Round(d, y1) <= Round(d, y2) {
      FameIsFinal(d, x, y1, v1, y2);
    } else {
      FameIsFinal(d, x, y2, v2, y1);
    }
  }

  // ---------------------------------------------------------------- across nodes

  /** A witness votes and decides alike in every store that holds it. */
  lemma {:induction false} VoteAgree(d1: Dag, d2: Dag, x: Hash, y: Hash)
    requires Agree(d1, d2) && Ballot(d1, x, y) && Ballot(d2, x, y)
    ensures Round(d1, x) == Round(d2, x) && Round(d1, y) == Round(d2, y)
    ensures Vote(d1, x, y) == Vote(d2, x, y)
    ensures forall v :: Decides(d1, x, y, v) <==> Decides(d2, x, y, v)
    decreases Round(d1, y) - Round(d1, x)
  {
    hide Based, WellFormed, Round, Witness, CoinRound, SuperMajority, Reach, StronglySees, EventOk;
    RoundAgree(d1, d2, x);
    RoundAgree(d1, d2, y);
    if Round(d1, y) - Round(d1, x) == 1 {
      ReachAgree(d1, d2, y, x);
    } else {
      VotersAgree(d1, d2, y);
      forall w | w in Voters(d1, y) ensures Vote(d1, x, w) == Vote(d2, x, w) {
        RoundAgree(d1, d2, w);
        VoteAgree(d1, d2, x, w);
      }
      assert Yays(d1, x, y) == Yays(d2, x, y);
      assert Nays(d1, x, y) == Nays(d2, x, y);
    }
  }

  lemma {:induction false} VotersAgree(d1: Dag, d2: Dag, y: Hash)
    requires Based(d1) && Based(d2) && Agree(d1, d2) && y in d1.events && y in d2.events
    ensures Voters(d1, y) == Voters(d2, y)
  {
    forall w | w in Voters(d1, y) ensures w in Voters(d2, y) {
      VoterMoves(d1, d2, y, w);
    }
    forall w | w in Voters(d2, y) ensures w in Voters(d1, y) {
      VoterMoves(d2, d1, y, w);
    }
  }

  lemma {:induction false} VoterMoves(d1: Dag, d2: Dag, y: Hash, w: Hash)
    requires Based(d1) && Based(d2) && Agree(d1, d2) && y in d1.events && y in d2.events
    requires w in Voters(d1, y)
    ensures w in Voters(d2, y)
  {
    hide WellFormed, Round, Witness, CoinRound, SuperMajority, Reach, Sentinels;
    StronglySeesReaches(d1, y, w);
    ReachAgree(d1, d2, y, w);
    RoundAgree(d1, d2, y);
    RoundAgree(d1, d2, w);
    SentinelsAgree(d1, d2, y, w);
    assert w in Witnesses(d2, Round(d2, y) - 1);
    assert StronglySees(d2, y, w);
  }

  /** A decision taken on part of the graph is a decision on the whole. */
  lemma {:induction false} DecisionMoves(d1: Dag, d: Dag, x: Hash, y: Hash, v: bool)
    requires Based(d) && SubDag(d1, d) && Ballot(d1, x, y) && Decides(d1, x, y, v)
    ensures Ballot(d, x, y) && Decides(d, x, y, v)
  {
    hide Based, WellFormed, Round, Witness, CoinRound, SuperMajority, Vote, Decides, EventOk;
    RoundAgree(d1, d, x);
    RoundAgree(d1, d, y);
    VoteAgree(d1, d, x, y);
  }

  /** Two nodes that hold different parts of one graph never settle a witness's fame differently. */
  lemma {:induction false} FameAgreement(d: Dag, d1: Dag, d2: Dag, x: Hash, y1: Hash, y2: Hash, v1: bool, v2: bool)
    requires Based(d) && SubDag(d1, d) && SubDag(d2, d)
    requires Ballot(d1, x, y1) && Decides(d1, x, y1, v1)
    requires Ballot(d2, x, y2) && Decides(d2, x, y2, v2)
    requires OneWitnessPerCreator(d) && StrongQuorums(d, x)
    ensures v1 == v2
  {
    hide Based, WellFormed, Round, Witness, CoinRound, SuperMajority, Vote, Decides, EventOk, OneWitnessPerCreator;
    hide StrongQuorums;
    DecisionMoves(d1, d, x, y1, v1);
    DecisionMoves(d2, d, x, y2, v2);
    DecisionsAgree(d, x, y1, y2, v1, v2);
  }

  // ---------------------------------------------------------------- a witness that is not seen

  /** Whoever counts the first votes about a witness it does not see counts no yes among them. */
  lemma {:induction false} NobodySaw(d: Dag, x: Hash, z: Hash)
    requires Ballot(d, x, z) && Round(d, z) == Round(d, x) + 2 && !Reach(d, z, x)
    ensures Yays(d, x, z) == {} && Nays(d, x, z) == Voters(d, z)
  {
    hide Round, Witness, CoinRound, SuperMajority, StronglySees, EventOk, LogOk, Reach;
    forall w | w in Voters(d, z) ensures Ballot(d, x, w) && !Vote(d, x, w) {
      StronglySeesReaches(d, z, w);
      if Reach(d, w, x) {
        ReachTrans(d, z, w, x);
      }
    }
  }

  /** A witness two rounds up that does not see `x`, and strongly sees a quota, decides against it. */
  lemma {:induction false} Unseen(d: Dag, x: Hash, z: Hash)
    requires Ballot(d, x, z) && Round(d, z) == Round(d, x) + 2 && !Reach(d, z, x) && Witness(d, z)
    requires |Voters(d, z)| >= Quota(d)
    ensures Decides(d, x, z, false)
  {
    hide Based, Round, Witness, Voters, Yays, Nays, Reach, SuperMajority;
    NobodySaw(d, x, z);
  }
}
