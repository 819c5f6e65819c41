/** What the methods of Poset rely on, stated about the consensus state. */
module PosetFacts {
  import opened Dags
  import opened Quorum
  import opened Rounds
  import opened Fame
  import opened Consensus
  import opened ConsensusInsert
  import opened ConsensusDivide
  import opened ConsensusDecide
  import opened ConsensusCommit
  import opened ConsensusPasses
  import opened Caches
  import opened Queries
  import opened FrameBuild

  lemma {:induction false} CachesStay(a: map<Key, bool>, ss: map<Key, bool>, r: map<Hash, int>, t: map<Hash, int>,
                                      d: Dag, h: Hash, e: Event)
    requires Based(d) && Fresh(d, h, e) && Insert(d, h, e).Ok? && !AskedEarly(a, h) && !AskedEarly(ss, h)
    requires AncestorsOk(a, d) && StronglyOk(ss, d) && RoundsOk(r, d) && TimestampsOk(t, d)
    ensures Quota(Insert(d, h, e).value) == Quota(d)
    ensures var d' := Insert(d, h, e).value;
              AncestorsOk(a, d') && StronglyOk(ss, d') && RoundsOk(r, d') && TimestampsOk(t, d')
  {
    var d' := Insert(d, h, e).value;
    hide WellFormed, Fresh, AncestorsOk, StronglyOk, RoundsOk, TimestampsOk;
    InsertGrows(d, h, e);
    AncestorsStayIff(a, d, h, e);
    StronglyStay(ss, d, h, e);
    RoundsStay(r, d, d');
    TimestampsStay(t, d, d');
  }

  /** What an insertion leaves of the caches and of the stored frames. */
  lemma {:induction false} InsertionKeeps(s: State, h: Hash, e: Event, a: map<Key, bool>, ss: map<Key, bool>,
                                          lasts: map<Creator, Hash>)
    requires Sound(s) && Insert(s.dag, h, e).Ok? && Fresh(s.dag, h, e)
    ensures Based(s.dag)
    ensures Asked(a, s.dag) ==> !AskedEarly(a, h) && Asked(a, Insert(s.dag, h, e).value)
    ensures Asked(ss, s.dag) ==> !AskedEarly(ss, h) && Asked(ss, Insert(s.dag, h, e).value)
    ensures Rooting(s, lasts) ==> Rooting(InsertedState(s, h, e), lasts)
  {
    hide Sound, WellFormed, Fresh, Asked, AskedEarly, Rooting;
    SoundParts(s);
    if Asked(a, s.dag) {
      AskedStays(a, s.dag, h, e);
    }
    if Asked(ss, s.dag) {
      AskedStays(ss, s.dag, h, e);
    }
    if Rooting(s, lasts) {
      RootingStays(s, h, e, lasts);
    }
  }

  lemma {:induction false} EmptyCaches(participants: set<Creator>, cacheSize: nat)
    ensures var d := Initial(participants, cacheSize).dag;
            && AncestorsOk(map[], d) && StronglyOk(map[], d) && RoundsOk(map[], d) && TimestampsOk(map[], d)
            && SuperMajority(|participants|) == Quota(d)
  {
    hide WellFormed;
    InitialBased(participants, cacheSize);
    assert Initial(participants, cacheSize).dag.roots.Keys == participants;
  }

  lemma {:induction false} SoundParts(s: State)
    requires Sound(s)
    ensures Based(s.dag) && Divided(s) && Table(s)
    ensures s.undetermined == Remaining(s.dag.order, s.received.Keys)
  {
    hide WellFormed, Divided, Table, Queue, Committed, Ledger, Remaining;
  }

  lemma {:induction false} NextIsReady(s: State, h: Hash)
    requires Next(s, h)
    ensures Ready(s, h)
  {
  }

  lemma {:induction false} RootRecorded(d: Dag, x: Hash)
    requires WellFormed(d) && x in d.rootOf
    ensures d.rootOf[x] in d.roots && x !in d.events
  {
    assert LogOk(d, d.rootOf[x]);
  }

  lemma {:induction false} NotReachedForward(d: Dag, x: Hash, y: Hash)
    requires Based(d) && x in d.events && Known(d, y) && Lamport(d, y) > Lamport(d, x)
    ensures !Reach(d, x, y)
  {
    hide WellFormed, Lamport, Reach;
    if Reach(d, x, y) {
      ReachLamport(d, x, y);
    }
  }

  lemma {:induction false} OnlyItself(d: Dag, x: Hash, y: Hash)
    requires WellFormed(d) && x !in d.events && Reach(d, x, y)
    ensures x == y
  {
  }

  // ---------------------------------------------------------------- dividing the undetermined events in turn

  /** `t` is `s` with the first `i` listed events divided. */
  ghost predicate Dividing(s: State, t: State, list: seq<Hash>, i: nat) {
    && Sound(t) && Based(s.dag) && AllStored(s.dag, list) && i <= |list| && t.dag == s.dag && Covers(t, list[i..])
    && Based(t.dag) && AllStored(t.dag, list[i..]) && DivideList(t, list[i..]) == DivideList(s, list)
  }

  lemma {:induction false} DivideBegins(s: State)
    requires Sound(s)
    ensures Dividing(s, s, s.undetermined, 0)
  {
    hide Sound, Covers, DivideList, WellFormed;
    SoundParts(s);
    UndeterminedCovers(s);
    CoversStored(s, s.undetermined);
    assert s.undetermined[0..] == s.undetermined;
  }

  lemma {:induction false} CoversStored(s: State, list: seq<Hash>)
    requires Covers(s, list)
    ensures AllStored(s.dag, list)
  {
  }

  lemma {:induction false} DivideAdvances(s: State, t: State, list: seq<Hash>, i: nat)
    requires Dividing(s, t, list, i) && i < |list|
    ensures Based(t.dag) && list[i] in t.dag.events
    ensures list[i] !in t.round ==> Next(t, list[i]) && Dividing(s, DivideOne(t, list[i]), list, i + 1)
    ensures list[i] in t.round ==> Dividing(s, t, list, i + 1)
  {
    hide Sound, Covers, WellFormed, Next, DivideOne;
    CoversNext(t, list[i..]);
    assert list[i..][0] == list[i] && list[i..][1..] == list[i + 1..];
    var t' := if list[i] in t.round then t else DivideOne(t, list[i]);
    if list[i] !in t.round {
      DivideSound(t, list[i]);
      DivideKeepsDag(t, list[i]);
    }
    CoversStored(t', list[i + 1..]);
  }

  lemma {:induction false} DividingSound(s: State, t: State, list: seq<Hash>, i: nat)
    requires Dividing(s, t, list, i)
    ensures Sound(t)
  {
    hide Sound, Covers, WellFormed, DivideList;
  }

  lemma {:induction false} DivideEnds(s: State, t: State, list: seq<Hash>)
    requires Dividing(s, t, list, |list|)
    ensures Sound(t) && Based(s.dag) && AllStored(s.dag, list) && t == DivideList(s, list)
  {
    hide Sound, Covers, WellFormed;
    assert list[|list|..] == [];
  }

  // ---------------------------------------------------------------- what the round query relies on

  /** The witnesses the table lists for round `r`. */
  ghost function RowWitnesses(s: State, r: int): set<Hash> {
    if r in s.rounds then s.rounds[r].Witnesses() else {}
  }

  ghost function SeenOf(d: Dag, x: Hash, ws: set<Hash>): set<Hash>
    requires WellFormed(d)
  {
    set w | w in ws && w != x && Reach(d, x, w)
  }

  /** Every event older than `x` has its round. */
  ghost predicate Ready(s: State, x: Hash) {
    x in s.dag.events ==> forall g :: g in s.dag.events && Rank(s.dag, g) < Rank(s.dag, x) ==> g in s.round
  }

  lemma {:induction false} NoHashIsNoEvent(d: Dag)
    requires WellFormed(d)
    ensures NoHash !in d.events
  {
  }

  lemma {:induction false} BaseRootRound(d: Dag, x: Hash)
    requires Based(d) && x in d.rootOf
    ensures d.rootOf[x] in d.roots && d.roots[d.rootOf[x]].selfParent.round == Round(d, x)
  {
    RootRecorded(d, x);
    assert d.roots[d.rootOf[x]] == BaseRoot(d.rootOf[x]);
  }

  /** The cases of the round rule, parents first. */
  lemma {:induction false} RoundRule(d: Dag, x: Hash)
    requires Based(d) && x in d.events
    ensures Known(d, d.events[x].selfParent)
    ensures d.events[x].otherParent != NoHash ==> d.events[x].otherParent in d.events
    ensures var e := d.events[x];
            var sp := Round(d, e.selfParent);
            if e.selfParent == RootHash(e.creator) && e.otherParent == NoHash then Round(d, x) == 0
            else if e.otherParent == NoHash || Round(d, e.otherParent) <= sp then Round(d, x) == Raised(d, x, sp)
            else
              var op := Round(d, e.otherParent);
              var found := |e.flagTable * Seen(d, x, op)|;
              Round(d, x) == if found >= Quota(d) then op + 1 else if found > 0 then op else Raised(d, x, op)
  {
    RoundReads(d, x);
    hide WellFormed, Reach, Seen, Raised;
  }

  lemma {:induction false} RoundReads(d: Dag, x: Hash)
    requires Based(d) && x in d.events
    ensures d.events[x].creator in d.roots && d.roots[d.events[x].creator] == BaseRoot(d.events[x].creator)
    ensures Known(d, d.events[x].selfParent) && Rank(d, d.events[x].selfParent) < Rank(d, x)
    ensures d.events[x].otherParent != NoHash ==> d.events[x].otherParent in d.events
    ensures Rank(d, d.events[x].otherParent) < Rank(d, x)
    ensures x !in d.rootOf
  {
    LamportStep(d, x);
  }

  lemma {:induction false} ReadyParents(s: State, x: Hash)
    requires Based(s.dag) && x in s.dag.events && Ready(s, x)
    ensures Ready(s, s.dag.events[x].selfParent) && Ready(s, s.dag.events[x].otherParent)
  {
    hide WellFormed;
    RoundReads(s.dag, x);
  }

  /** Among the ancestors of `x`, the table's row and the graph name the same witnesses. */
  lemma {:induction false} SeenInTable(s: State, x: Hash, r: int)
    requires Based(s.dag) && Divided(s) && Table(s) && x in s.dag.events && Ready(s, x)
    ensures RowWitnesses(s, r) <= s.dag.events.Keys
    ensures SeenOf(s.dag, x, RowWitnesses(s, r)) == Seen(s.dag, x, r)
  {
    hide WellFormed, Reach, Witness, Round, Lamport, Table, Divided, RowWitnesses;
    forall w | w in RowWitnesses(s, r)
      ensures w in s.dag.events && (w in SeenOf(s.dag, x, RowWitnesses(s, r)) ==> w in Seen(s.dag, x, r))
    {
      RowIsOfRound(s, r, w);
      if w != x && Reach(s.dag, x, w) { ReachRank(s.dag, x, w); }
    }
    forall w | w in Seen(s.dag, x, r) ensures w in RowWitnesses(s, r) {
      WitnessInRow(s, w);
    }
  }

  // ---------------------------------------------------------------- what the vote relies on

  lemma {:induction false} RowIsOfRound(s: State, r: int, w: Hash)
    requires Based(s.dag) && Divided(s) && Table(s) && w in RowWitnesses(s, r)
    ensures w in s.dag.events && w in s.round && Round(s.dag, w) == r && Witness(s.dag, w)
  {
    hide WellFormed, Witness, Round, Lamport, Verdict;
    TableEntry(s, r, w);
  }

  lemma {:induction false} WitnessInRow(s: State, w: Hash)
    requires Based(s.dag) && Divided(s) && Table(s) && w in s.round && w in s.dag.events && Witness(s.dag, w)
    ensures w in RowWitnesses(s, Round(s.dag, w)) && 0 <= Round(s.dag, w) <= s.lastRound
  {
    hide WellFormed, Witness, Round, Lamport, Verdict;
    TableEntry(s, s.round[w], w);
  }

  ghost function StronglySeenOf(d: Dag, y: Hash, ws: set<Hash>): set<Hash>
    requires WellFormed(d)
  {
    set w | w in ws && StronglySees(d, y, w)
  }

  /** The voters that `y` counts are all in the table. */
  lemma {:induction false} VotersInTable(s: State, y: Hash)
    requires Based(s.dag) && Divided(s) && Table(s) && y in s.round && y in s.dag.events
    ensures StronglySeenOf(s.dag, y, RowWitnesses(s, Round(s.dag, y) - 1)) == Voters(s.dag, y)
  {
    hide WellFormed, Witness, Round, Lamport, Reach, RowWitnesses, Sentinels, StronglySees, Table;
    var r := Round(s.dag, y) - 1;
    forall w | w in RowWitnesses(s, r) && StronglySees(s.dag, y, w) ensures w in Voters(s.dag, y) {
      RowIsOfRound(s, r, w);
    }
    forall w | w in Voters(s.dag, y) ensures w in RowWitnesses(s, r) {
      StronglySeesReaches(s.dag, y, w);
      if w != y {
        ReachRank(s.dag, y, w);
      }
      WitnessInRow(s, w);
    }
  }

  /** The votes of the witnesses of round `j` about `x` are on the board. */
  ghost predicate VotesCast(s: State, x: Hash, j: int, votes: map<Key, bool>)
    requires Based(s.dag)
  {
    forall w :: w in RowWitnesses(s, j) ==>
      Ballot(s.dag, x, w) && Key(w, x) in votes && votes[Key(w, x)] == Vote(s.dag, x, w)
  }

  /** `y` is to vote about `x`, `diff` rounds up; `prev` is the row below it, whose votes are on the board. */
  ghost predicate Polled(s: State, x: Hash, y: Hash, diff: int, prev: set<Hash>, votes: map<Key, bool>) {
    && Ballot(s.dag, x, y) && y in s.round && Witness(s.dag, y) && diff == Round(s.dag, y) - Round(s.dag, x)
    && prev == RowWitnesses(s, Round(s.dag, y) - 1)
    && (diff > 1 ==> VotesCast(s, x, Round(s.dag, y) - 1, votes))
  }

  /** `vote` is how `y` votes about `x`, and it decides exactly that or nothing. */
  ghost predicate VoteCast(d: Dag, x: Hash, y: Hash, vote: bool, decided: bool) {
    Ballot(d, x, y) && vote == Vote(d, x, y) && (decided <==> Decides(d, x, y, vote)) && !Decides(d, x, y, !vote)
  }

  /** A witness of round `j` decides `v` about `x`. */
  ghost predicate DecidedIn(s: State, x: Hash, j: int, v: bool)
    requires Based(s.dag)
  {
    exists y :: y in s.round && Ballot(s.dag, x, y) && Round(s.dag, y) == j && Decides(s.dag, x, y, v)
  }

  lemma {:induction false} FirstFrom(s: State, x: Hash, j: int, v: bool)
    requires Based(s.dag) && UndecidedBefore(s, x, j) && DecidedIn(s, x, j, v)
    ensures FirstVerdict(s, x, v)
  {
    hide WellFormed, Round, Decides, UndecidedBefore;
  }

  lemma {:induction false} NobodyYet(s: State, x: Hash)
    requires Based(s.dag) && x in s.dag.events
    ensures UndecidedBefore(s, x, Round(s.dag, x) + 1)
  {
    hide WellFormed, Round, Decides;
  }

  lemma {:induction false} RoundUndecided(s: State, x: Hash, j: int)
    requires Based(s.dag) && Divided(s) && Table(s) && UndecidedBefore(s, x, j)
    requires forall y, v :: y in RowWitnesses(s, j) && Ballot(s.dag, x, y) ==> !Decides(s.dag, x, y, v)
    ensures UndecidedBefore(s, x, j + 1)
  {
    hide WellFormed, Round, Lamport, RowWitnesses, Table, Divided;
    forall y, v | y in s.round && Ballot(s.dag, x, y) && Round(s.dag, y) < j + 1 ensures !Decides(s.dag, x, y, v) {
      if Round(s.dag, y) == j && Witness(s.dag, y) {
        WitnessInRow(s, y);
      }
    }
  }

  lemma {:induction false} NobodyAtAll(s: State, x: Hash)
    requires Based(s.dag) && Divided(s) && Table(s) && UndecidedBefore(s, x, s.lastRound + 1)
    ensures forall v :: !Verdict(s, x, v)
  {
    hide WellFormed, Lamport, Decides;
    assert forall y :: y in s.round ==> Round(s.dag, y) <= s.lastRound;
  }

  /** The rule by which a counted vote is cast and a decision taken. */
  lemma {:induction false} VoteRule(d: Dag, x: Hash, y: Hash)
    requires Ballot(d, x, y) && Round(d, y) - Round(d, x) > 1 && Witness(d, y)
    ensures var yays, nays := |Yays(d, x, y)|, |Nays(d, x, y)|;
            var v, t := yays >= nays, if yays >= nays then yays else nays;
            if CoinRound(Round(d, y) - Round(d, x)) then
              Vote(d, x, y) == (if t >= Quota(d) then v else MiddleBit(y)) && !Decides(d, x, y, true)
                && !Decides(d, x, y, false)
            else
              Vote(d, x, y) == v && (Decides(d, x, y, v) <==> t >= Quota(d)) && !Decides(d, x, y, !v)
  {
    hide Based, Round, Voters, Witness, CoinRound, SuperMajority;
  }

  lemma {:induction false} FirstVote(d: Dag, x: Hash, y: Hash)
    requires Ballot(d, x, y) && Round(d, y) - Round(d, x) == 1
    ensures Vote(d, x, y) == Reach(d, y, x)
    ensures !Decides(d, x, y, true) && !Decides(d, x, y, false)
  {
    hide Based, Round, Voters, Witness, SuperMajority;
  }

  lemma {:induction false} RowStored(s: State, r: int)
    requires Based(s.dag) && Divided(s) && Table(s)
    ensures RowWitnesses(s, r) <= s.dag.events.Keys
  {
    hide WellFormed, Round, Witness, Lamport, Table, RowWitnesses, Divided;
    forall w | w in RowWitnesses(s, r) ensures w in s.dag.events {
      RowIsOfRound(s, r, w);
    }
  }

  /** A witness of one round is not in the row below. */
  lemma {:induction false} RowsApart(s: State, j: int)
    requires Based(s.dag) && Divided(s) && Table(s)
    ensures forall w :: w in RowWitnesses(s, j) ==> w !in RowWitnesses(s, j - 1)
  {
    hide WellFormed, Round, Witness, Lamport, Table, RowWitnesses, Divided;
    forall w | w in RowWitnesses(s, j) ensures w !in RowWitnesses(s, j - 1) {
      RowIsOfRound(s, j, w);
      if w in RowWitnesses(s, j - 1) {
        RowIsOfRound(s, j - 1, w);
      }
    }
  }

  lemma {:induction false} RoundWithinTable(s: State, x: Hash)
    requires Based(s.dag) && Divided(s) && Table(s) && x in s.round
    ensures x in s.dag.events && Round(s.dag, x) <= s.lastRound
  {
    hide WellFormed, Round, Witness, Lamport, EntryOk;
  }

  /** `y` has voted about `x` and settled nothing. */
  ghost predicate HasVoted(d: Dag, x: Hash, y: Hash, votes: map<Key, bool>) {
    && Ballot(d, x, y) && Key(y, x) in votes && votes[Key(y, x)] == Vote(d, x, y)
    && !Decides(d, x, y, true) && !Decides(d, x, y, false)
  }

  ghost predicate AllVoted(d: Dag, x: Hash, ws: set<Hash>, votes: map<Key, bool>) {
    forall y :: y in ws ==> HasVoted(d, x, y, votes)
  }

  lemma {:induction false} HasVotedNow(d: Dag, x: Hash, ws: set<Hash>, votes: map<Key, bool>, y: Hash, v: bool)
    requires AllVoted(d, x, ws, votes) && Ballot(d, x, y) && v == Vote(d, x, y)
    requires !Decides(d, x, y, v) && !Decides(d, x, y, !v)
    ensures AllVoted(d, x, ws + {y}, votes[Key(y, x) := v])
  {
    hide Based, Round, Vote, Decides;
    forall z | z in ws + {y} ensures HasVoted(d, x, z, votes[Key(y, x) := v]) {
      if z != y {
        assert HasVoted(d, x, z, votes);
      } else if v {
      }
    }
  }

  lemma {:induction false} VotedNow(d: Dag, x: Hash, ws: set<Hash>, votes: map<Key, bool>, y: Hash, v: bool)
    requires AllVoted(d, x, ws, votes) && VoteCast(d, x, y, v, false)
    ensures AllVoted(d, x, ws + {y}, votes[Key(y, x) := v])
  {
    hide Based, Round, Vote, Decides, AllVoted;
    HasVotedNow(d, x, ws, votes, y, v);
  }

  lemma {:induction false} NoneVoted(d: Dag, x: Hash, votes: map<Key, bool>)
    ensures AllVoted(d, x, {}, votes)
  {
  }

  /** A witness of round `j` can vote, the votes of the row below being on the board. */
  lemma {:induction false} CanVote(s: State, x: Hash, y: Hash, j: int, votes: map<Key, bool>)
    requires Based(s.dag) && Divided(s) && Table(s) && y in RowWitnesses(s, j) && x in s.dag.events
    requires Round(s.dag, x) < j
    requires j - Round(s.dag, x) > 1 ==> VotesCast(s, x, j - 1, votes)
    ensures Polled(s, x, y, j - Round(s.dag, x), RowWitnesses(s, j - 1), votes)
  {
    hide WellFormed, Round, Witness, RowWitnesses, Table, Divided, VotesCast;
    RowIsOfRound(s, j, y);
  }

  lemma {:induction false} VoteDecides(s: State, x: Hash, y: Hash, j: int, v: bool)
    requires Based(s.dag) && Divided(s) && Table(s) && y in RowWitnesses(s, j) && VoteCast(s.dag, x, y, v, true)
    ensures DecidedIn(s, x, j, v)
  {
    hide WellFormed, Round, Witness, RowWitnesses, Table, Divided, Decides, Vote;
    RowIsOfRound(s, j, y);
  }

  lemma {:induction false} RowHasVoted(s: State, x: Hash, j: int, votes: map<Key, bool>)
    requires Based(s.dag) && AllVoted(s.dag, x, RowWitnesses(s, j), votes)
    ensures VotesCast(s, x, j, votes)
    ensures forall y, v :: y in RowWitnesses(s, j) && Ballot(s.dag, x, y) ==> !Decides(s.dag, x, y, v)
  {
    hide WellFormed, Round, Vote, Decides, RowWitnesses;
    forall y, v | y in RowWitnesses(s, j) && Ballot(s.dag, x, y) ensures !Decides(s.dag, x, y, v) {
      assert HasVoted(s.dag, x, y, votes);
      if v {
      }
    }
  }

  lemma {:induction false} VotesKept(s: State, x: Hash, j: int, votes: map<Key, bool>, y: Hash, v: bool)
    requires Based(s.dag) && VotesCast(s, x, j, votes) && y !in RowWitnesses(s, j)
    ensures VotesCast(s, x, j, votes[Key(y, x) := v])
  {
    hide WellFormed, Ballot, Vote, RowWitnesses;
  }

  /** The voters whose recorded vote about `x` is yes. */
  ghost function Ayes(x: Hash, voters: set<Hash>, votes: map<Key, bool>): set<Hash>
    requires forall w :: w in voters ==> Key(w, x) in votes
  {
    set w | w in voters && votes[Key(w, x)]
  }

  lemma {:induction false} AyesAreYays(s: State, x: Hash, y: Hash, votes: map<Key, bool>)
    requires Based(s.dag) && Divided(s) && Table(s) && y in s.round && Ballot(s.dag, x, y)
    requires Round(s.dag, y) - Round(s.dag, x) > 1
    requires VotesCast(s, x, Round(s.dag, y) - 1, votes)
    ensures forall w :: w in Voters(s.dag, y) ==> Key(w, x) in votes
    ensures Ayes(x, Voters(s.dag, y), votes) == Yays(s.dag, x, y)
    ensures Voters(s.dag, y) - Ayes(x, Voters(s.dag, y), votes) == Nays(s.dag, x, y)
  {
    hide WellFormed, Round, Vote, Witness, Lamport, StronglySees, RowWitnesses, Table, Divided, Voters;
    VotersInTable(s, y);
  }

  // ---------------------------------------------------------------- what settling a row relies on

  /** What counting the votes on the board amounts to. */
  lemma {:induction false} PollCounts(s: State, x: Hash, y: Hash, diff: int, prev: set<Hash>, votes: map<Key, bool>)
    requires Based(s.dag) && Divided(s) && Table(s) && Polled(s, x, y, diff, prev, votes) && diff > 1
    ensures y in s.dag.events && prev <= s.dag.events.Keys && Ballot(s.dag, x, y)
    ensures Round(s.dag, y) - Round(s.dag, x) == diff
    ensures var ss := StronglySeenOf(s.dag, y, prev);
            && (forall w :: w in ss ==> Key(w, x) in votes)
            && Ayes(x, ss, votes) == Yays(s.dag, x, y) && ss - Ayes(x, ss, votes) == Nays(s.dag, x, y)
  {
    hide Divided, Table, Round, Witness, Voters, Yays, Nays, RowWitnesses, StronglySeenOf, WellFormed, VotesCast;
    VotersInTable(s, y);
    RowStored(s, Round(s.dag, y) - 1);
    AyesAreYays(s, x, y, votes);
  }

  /** The vote and the decision that follow from the counts. */
  lemma {:induction false} Counted(s: State, x: Hash, y: Hash, diff: int, prev: set<Hash>, votes: map<Key, bool>,
                                   vote: bool, decided: bool)
    requires Polled(s, x, y, diff, prev, votes) && diff > 1
    requires var yays, nays := |Yays(s.dag, x, y)|, |Nays(s.dag, x, y)|;
             var v, t := yays >= nays, if yays >= nays then yays else nays;
             if CoinRound(diff) then vote == (if t >= Quota(s.dag) then v else MiddleBit(y)) && !decided
             else vote == v && (decided <==> t >= Quota(s.dag))
    ensures VoteCast(s.dag, x, y, vote, decided)
  {
    hide Based, Round, Witness, Vote, Decides, Yays, Nays, RowWitnesses, VotesCast, CoinRound, Quota, MiddleBit;
    VoteRule(s.dag, x, y);
  }

  lemma {:induction false} PolledLater(s: State, x: Hash, y: Hash, diff: int, prev: set<Hash>, votes: map<Key, bool>)
    requires Polled(s, x, y, diff, prev, votes) && diff != 1
    ensures diff > 1
  {
    hide Based, Round, Witness, RowWitnesses, VotesCast;
  }

  lemma {:induction false} FirstCast(s: State, x: Hash, y: Hash, diff: int, prev: set<Hash>, votes: map<Key, bool>)
    requires Polled(s, x, y, diff, prev, votes) && diff == 1
    ensures Based(s.dag) && x in s.dag.events && y in s.dag.events && VoteCast(s.dag, x, y, Reach(s.dag, y, x), false)
  {
    hide Based, Round, Witness, Vote, Decides, RowWitnesses, VotesCast;
    FirstVote(s.dag, x, y);
  }

  /** Outside `rest`, no witness is left undefined that could be settled. */
  ghost predicate CompleteUpTo(s: State, row: RoundInfo, info: RoundInfo, rest: set<Hash>)
    requires Based(s.dag)
  {
    forall x, v :: x in row.Witnesses() && x !in rest && x in info.events && info.events[x].famous == Undefined ==>
      !Verdict(s, x, v)
  }

  lemma {:induction false} RowUnchanged(s: State, row: RoundInfo)
    requires Based(s.dag)
    ensures RowRefamed(row, row) && RowJustified(s, row, row) && CompleteUpTo(s, row, row, row.Witnesses())
  {
    hide WellFormed, Verdict;
  }

  lemma {:induction false} PassedOver(s: State, row: RoundInfo, info: RoundInfo, rest: set<Hash>, x: Hash)
    requires Based(s.dag) && CompleteUpTo(s, row, info, rest + {x}) && info.IsDecided(x)
    ensures CompleteUpTo(s, row, info, rest)
  {
    hide WellFormed, Verdict, RoundInfo.Witnesses;
  }

  lemma {:induction false} LeftOpen(s: State, row: RoundInfo, info: RoundInfo, rest: set<Hash>, x: Hash)
    requires Based(s.dag) && CompleteUpTo(s, row, info, rest + {x}) && forall v :: !Verdict(s, x, v)
    ensures CompleteUpTo(s, row, info, rest)
  {
    hide WellFormed, Verdict, RoundInfo.Witnesses;
  }

  lemma {:induction false} FameSet(s: State, row: RoundInfo, info: RoundInfo, rest: set<Hash>, x: Hash, v: bool)
    requires Based(s.dag) && RowRefamed(row, info) && RowJustified(s, row, info)
    requires CompleteUpTo(s, row, info, rest + {x})
    requires x in row.Witnesses() && !info.IsDecided(x) && FirstVerdict(s, x, v)
    ensures RowRefamed(row, info.SetFame(x, v)) && RowJustified(s, row, info.SetFame(x, v))
    ensures CompleteUpTo(s, row, info.SetFame(x, v), rest)
  {
    hide WellFormed, Verdict, FirstVerdict;
    var b := info.SetFame(x, v);
    assert x in row.events && info.events[x].isWitness && info.events[x].famous == Undefined;
    assert forall y :: y != x && y in info.events ==> y in b.events && b.events[y] == info.events[y];
  }

  lemma {:induction false} RowDone(s: State, row: RoundInfo, info: RoundInfo)
    requires Based(s.dag) && RowRefamed(row, info) && CompleteUpTo(s, row, info, {})
    ensures RowComplete(s, info)
  {
    hide WellFormed, Verdict;
  }

  lemma {:induction false} RowsUnchanged(s: State)
    requires Based(s.dag)
    ensures Refamed(s, s)
  {
    hide WellFormed, RowRefamed, RowJustified;
    forall r | r in s.rounds ensures RowRefamed(s.rounds[r], s.rounds[r]) && RowJustified(s, s.rounds[r], s.rounds[r]) {
      RowUnchanged(s, s.rounds[r]);
    }
  }

  /** The queue holds the rounds of the table from the first uncommitted one on. */
  lemma {:induction false} QueueIsTable(s: State)
    requires Sound(s)
    ensures forall k :: 0 <= k < |s.pending| ==>
              s.pending[k].index == LastCommitted(s) + 1 + k && s.pending[k].index in s.rounds
    ensures forall r :: r in s.rounds && r > LastCommitted(s) ==> r < LastCommitted(s) + 1 + |s.pending|
    ensures -1 <= LastCommitted(s)
  {
    hide WellFormed, Divided, Ledger, Remaining, EntryOk, FrameSound, FrameEvents;
  }

  /** Verdicts depend on the graph and on who is in the table only. */
  lemma {:induction false} SameVerdicts(s: State, t: State, row: RoundInfo, info: RoundInfo)
    requires Based(s.dag) && t.dag == s.dag && t.round == s.round
    requires RowJustified(t, row, info) && RowComplete(t, info)
    ensures RowJustified(s, row, info) && RowComplete(s, info)
  {
    hide WellFormed, Decides, Ballot, FirstVerdict;
    assert forall x, v :: Verdict(s, x, v) <==> Verdict(t, x, v);
    forall x, v ensures FirstVerdict(s, x, v) <==> FirstVerdict(t, x, v) {
      SameFirst(s, t, x, v);
    }
  }

  lemma {:induction false} SameFirst(s: State, t: State, x: Hash, v: bool)
    requires Based(s.dag) && t.dag == s.dag && t.round == s.round
    ensures FirstVerdict(s, x, v) <==> FirstVerdict(t, x, v)
  {
    hide WellFormed, Decides, Round;
    assert forall j :: UndecidedBefore(s, x, j) <==> UndecidedBefore(t, x, j);
  }

  lemma {:induction false} RefamedTable(s: State, t: State)
    requires Based(s.dag) && Divided(s) && Table(s) && Refamed(s, t)
    ensures Divided(t) && Table(t)
  {
    TableRefamed(s, t);
    hide WellFormed, Table, RowRefamed, RowJustified;
    DividedSame(s, t);
  }

  /** The first `pos` rounds of the queue are settled, and no other row is touched. */
  ghost predicate FameUpTo(s: State, t: State, pos: nat)
    requires Based(s.dag)
  {
    var base := LastCommitted(s) + 1;
    && Refamed(s, t)
    && (forall r :: r in s.rounds && base <= r < base + pos ==> RowComplete(s, t.rounds[r]))
    && (forall r :: r in s.rounds && !(base <= r < base + pos) ==> t.rounds[r] == s.rounds[r])
  }

  /** `marked` holds those of them that have all their witnesses decided. */
  ghost predicate MarkedUpTo(t: State, pos: nat, marked: set<int>) {
    var base := LastCommitted(t) + 1;
    && (forall r :: r in marked ==> base <= r < base + pos)
    && (forall r :: base <= r < base + pos ==> r in t.rounds && (r in marked <==> t.rounds[r].WitnessesDecided()))
  }

  lemma {:induction false} FameBegins(s: State)
    requires Based(s.dag)
    ensures FameUpTo(s, s, 0) && MarkedUpTo(s, 0, {})
  {
    hide WellFormed, Refamed;
    RowsUnchanged(s);
  }

  lemma {:induction false} FameAdvances(s: State, t: State, pos: nat, info: RoundInfo, marked: set<int>)
    requires Based(s.dag) && Divided(s) && Table(s) && FameUpTo(s, t, pos) && MarkedUpTo(t, pos, marked)
    requires t == s.(rounds := t.rounds) && LastCommitted(s) + 1 + pos in t.rounds
    requires var row := t.rounds[LastCommitted(s) + 1 + pos];
               RowRefamed(row, info) && RowJustified(t, row, info) && RowComplete(t, info)
    ensures var r := LastCommitted(s) + 1 + pos;
            var t' := t.(rounds := t.rounds[r := info]);
            && FameUpTo(s, t', pos + 1) && Divided(t') && Table(t')
            && MarkedUpTo(t', pos + 1, if info.WitnessesDecided() then marked + {r} else marked)
  {
    hide WellFormed, Divided, Table, RowRefamed, RowJustified, RowComplete, RoundInfo.WitnessesDecided;
    var r := LastCommitted(s) + 1 + pos;
    var t' := t.(rounds := t.rounds[r := info]);
    SameVerdicts(s, t, s.rounds[r], info);
    RefamedTable(s, t');
  }

  lemma {:induction false} FameEnds(s: State, t: State, u: State, marked: set<int>)
    requires Sound(s) && Based(s.dag) && FameUpTo(s, t, |s.pending|) && MarkedUpTo(t, |s.pending|, marked)
    requires t == s.(rounds := t.rounds) && u == t.(pending := u.pending) && |u.pending| == |t.pending|
    requires forall k :: 0 <= k < |t.pending| ==>
               u.pending[k] == t.pending[k].(decided := t.pending[k].decided || t.pending[k].index in marked)
    ensures FameStep(s, u)
  {
    hide Sound, WellFormed, RowRefamed, RowJustified, RowComplete, RoundInfo.WitnessesDecided;
    QueueIsTable(s);
  }

  // ---------------------------------------------------------------- what receptions rely on

  lemma {:induction false} DividedIsReady(s: State, x: Hash)
    requires Based(s.dag) && Divided(s) && x in s.round
    ensures x in s.dag.events && s.round[x] == Round(s.dag, x) && Ready(s, x)
  {
    hide WellFormed, Round, Lamport;
  }

  /** Rounds after that of `x` and before `k` are decided and do not all see it. */
  ghost predicate PassedBy(s: State, x: Hash, k: int)
    requires WellFormed(s.dag)
  {
    x in s.round && forall j :: s.round[x] < j < k ==> Decided(s, j) && !AllSee(s, x, j)
  }

  lemma {:induction false} RowExists(s: State, x: Hash, k: int)
    requires Based(s.dag) && Table(s) && x in s.round && s.round[x] < k <= s.lastRound
    ensures k in s.rounds
  {
    hide WellFormed, EntryOk;
  }

  lemma {:induction false} StoppedAt(s: State, x: Hash, k: int)
    requires Based(s.dag) && Table(s) && PassedBy(s, x, k) && s.round[x] < k
    requires k > s.lastRound || (k in s.rounds && !s.rounds[k].WitnessesDecided())
    ensures !IsReceivable(s, x)
  {
    hide WellFormed, EntryOk, AllSee, RoundInfo.WitnessesDecided;
    assert !Decided(s, k);
  }

  lemma {:induction false} FamousStored(s: State, k: int)
    requires Based(s.dag) && Divided(s) && Table(s) && k in s.rounds
    ensures s.rounds[k].FamousWitnesses() <= s.dag.events.Keys
  {
    hide WellFormed, Witness, Verdict;
    forall w | w in s.rounds[k].FamousWitnesses() ensures w in s.dag.events {
      TableEntry(s, k, w);
    }
  }

  lemma {:induction false} AllSeeByCount(s: State, x: Hash, k: int, seers: set<Hash>)
    requires WellFormed(s.dag) && k in s.rounds
    requires var fws := s.rounds[k].FamousWitnesses(); seers <= fws && forall w :: w in fws ==>
               (w in seers <==> Reach(s.dag, w, x))
    ensures AllSee(s, x, k) <==> |seers| == |s.rounds[k].FamousWitnesses()| && |seers| > 0
  {
    hide WellFormed, Reach, RoundInfo.FamousWitnesses;
    var fws := s.rounds[k].FamousWitnesses();
    if |seers| == |fws| {
      SameSize(seers, fws);
    }
    if AllSee(s, x, k) {
      assert seers == fws;
    }
  }

  lemma {:induction false} SameSize(a: set<Hash>, b: set<Hash>)
    requires a <= b && |a| == |b|
    ensures a == b
  {
    assert |b - a| == |b| - |a|;
  }

  lemma {:induction false} ReceivedHere(s: State, x: Hash, k: int)
    requires WellFormed(s.dag) && PassedBy(s, x, k) && s.round[x] < k && k in s.rounds
    requires s.rounds[k].WitnessesDecided() && AllSee(s, x, k)
    ensures ReceivedAt(s, x, k)
  {
    hide WellFormed, AllSee, RoundInfo.WitnessesDecided;
  }

  lemma {:induction false} NotReceivedHere(s: State, x: Hash, k: int)
    requires WellFormed(s.dag) && PassedBy(s, x, k) && k in s.rounds && s.rounds[k].WitnessesDecided()
    requires !AllSee(s, x, k)
    ensures PassedBy(s, x, k + 1)
  {
    hide WellFormed, AllSee, RoundInfo.WitnessesDecided;
  }

  // ---------------------------------------------------------------- the pass over the undetermined events

  /** After `k` events: `g` is the state so far, and `left` those of the `k` that were not received. */
  ghost predicate Receiving(s: State, g: State, k: nat, left: seq<Hash>) {
    && Sound(s) && Sound(g) && g.dag == s.dag && g.round == s.round && k <= |s.undetermined|
    && ReceiveList(g, s.undetermined[k..]) == ReceiveList(s, s.undetermined)
    && left == Remaining(s.undetermined[..k], g.received.Keys)
    && (forall i :: k <= i < |s.undetermined| ==> s.undetermined[i] !in g.received)
    && g.undetermined == Remaining(s.dag.order, g.received.Keys)
    && s.received.Keys <= g.received.Keys
  }

  lemma {:induction false} ReceptionsBegin(s: State)
    requires Sound(s)
    ensures Receiving(s, s, 0, [])
  {
    hide Sound, WellFormed, ReceiveList, Divided, Table;
    SoundParts(s);
    UndeterminedExactly(s.dag, s.received.Keys);
    assert s.undetermined[0..] == s.undetermined && s.undetermined[..0] == [];
  }

  lemma {:induction false} ReceivingParts(s: State, g: State, k: nat, left: seq<Hash>)
    requires Receiving(s, g, k, left) && k < |s.undetermined| && s.round.Keys == s.dag.events.Keys
    ensures Based(g.dag) && WellFormed(g.dag) && s.undetermined[k] in g.round && s.undetermined[k] !in g.received
    ensures var t := g.(undetermined := s.undetermined); Divided(t) && Table(t)
  {
    hide Sound, WellFormed, ReceiveList, Remaining, Table, Divided;
    SoundParts(s);
    SoundParts(g);
    UndeterminedExactly(s.dag, s.received.Keys);
    TableSame(g, g.(undetermined := s.undetermined));
    DividedSame(g, g.(undetermined := s.undetermined));
  }

  /** Receptions do not depend on the list of undetermined events. */
  lemma {:induction false} ReceptionApart(g: State, u: seq<Hash>, x: Hash)
    requires WellFormed(g.dag)
    ensures forall i :: ReceivedAt(g, x, i) <==> ReceivedAt(g.(undetermined := u), x, i)
    ensures IsReceivable(g, x) <==> IsReceivable(g.(undetermined := u), x)
  {
    hide WellFormed, Reach;
    var g' := g.(undetermined := u);
    assert forall k :: Decided(g, k) <==> Decided(g', k);
    assert forall k :: AllSee(g, x, k) <==> AllSee(g', x, k);
    hide Decided, AllSee;
    if IsReceivable(g, x) {
      assert ReceivedAt(g', x, ReceptionRound(g, x));
    }
    if IsReceivable(g', x) {
      assert ReceivedAt(g, x, ReceptionRound(g', x));
    }
  }

  lemma {:induction false} RemainingSame(list: seq<Hash>, a: set<Hash>, b: set<Hash>)
    requires forall i :: 0 <= i < |list| ==> (list[i] in a <==> list[i] in b)
    ensures Remaining(list, a) == Remaining(list, b)
  {
    if list != [] {
      RemainingSame(list[..|list| - 1], a, b);
    }
  }

  /** Taking out in two goes is taking out at once. */
  lemma {:induction false} RemainingTwice(list: seq<Hash>, a: set<Hash>, b: set<Hash>)
    requires a <= b
    ensures Remaining(Remaining(list, a), b) == Remaining(list, b)
  {
    if list != [] {
      var n := |list| - 1;
      RemainingTwice(list[..n], a, b);
      if list[n] in a {
        assert Remaining(list, a) == Remaining(list[..n], a);
        assert Remaining(list, b) == Remaining(list[..n], b);
      } else {
        RemainingSnoc(Remaining(list[..n], a), list[n], b);
      }
    }
  }

  lemma {:induction false} RemainingNext(list: seq<Hash>, k: nat, a: set<Hash>, b: set<Hash>)
    requires k < |list| && (b == a || b == a + {list[k]}) && list[k] !in a
    requires forall i :: 0 <= i < k ==> list[i] != list[k]
    ensures Remaining(list[..k + 1], b) == Remaining(list[..k], a) + if list[k] in b then [] else [list[k]]
  {
    assert list[..k + 1] == list[..k] + [list[k]];
    RemainingSnoc(list[..k], list[k], b);
    RemainingSame(list[..k], a, b);
  }

  /** What ReceiveIf does when the reception is known. */
  lemma {:induction false} ReceiveIfKnown(g: State, x: Hash, i: Option<int>)
    requires WellFormed(g.dag) && x !in g.received
    requires i.Some? ==> ReceivedAt(g, x, i.value)
    requires i == None ==> !IsReceivable(g, x)
    ensures i.Some? ==> i.value in g.rounds && ReceiveIf(g, x) == ReceiveOne(g, x, i.value)
    ensures i == None ==> ReceiveIf(g, x) == g
  {
    hide WellFormed, ReceivedAt, ReceiveOne, Remaining;
    if i.Some? {
      assert IsReceivable(g, x);
      ReceivedOnce(g, x, i.value, ReceptionRound(g, x));
      ReceivedInTable(g, x, i.value);
    }
  }

  lemma {:induction false} ReceivedInTable(g: State, x: Hash, i: int)
    requires WellFormed(g.dag) && ReceivedAt(g, x, i)
    ensures i in g.rounds
  {
    hide WellFormed, Decided;
  }

  lemma {:induction false} ReceptionsAdvance(s: State, g: State, k: nat, left: seq<Hash>, i: Option<int>)
    requires Receiving(s, g, k, left) && k < |s.undetermined| && WellFormed(g.dag)
    requires var t := g.(undetermined := s.undetermined);
             (i.Some? ==> ReceivedAt(t, s.undetermined[k], i.value))
               && (i == None ==> !IsReceivable(t, s.undetermined[k]))
    ensures var x := s.undetermined[k];
            && (i.Some? ==> i.value in g.rounds && ReceiveIf(g, x) == ReceiveOne(g, x, i.value))
            && (i == None ==> ReceiveIf(g, x) == g)
            && Receiving(s, ReceiveIf(g, x), k + 1, if i.Some? then left else left + [x])
  {
    hide Sound, WellFormed, ReceivedAt, Remaining, ReceiveIf, IsReceivable, ReceiveList, Receiving, ReceiveOne;
    var x := s.undetermined[k];
    ReceivingNext(s, g, k, left);
    ReceptionApart(g, s.undetermined, x);
    ReceiveIfKnown(g, x, i);
    ReceiveIfSound(g, x);
    if i.Some? {
      ReceiveOneFields(g, x, i.value);
    }
    ReceivingOn(s, g, k, left, ReceiveIf(g, x));
  }

  lemma {:induction false} ReceiveOneFields(g: State, x: Hash, i: int)
    requires i in g.rounds
    ensures var g' := ReceiveOne(g, x, i); g'.dag == g.dag && g'.round == g.round && g'.received == g.received[x := i]
  {
    hide Remaining;
  }

  lemma {:induction false} ReceivingNext(s: State, g: State, k: nat, left: seq<Hash>)
    requires Receiving(s, g, k, left) && k < |s.undetermined|
    ensures Sound(g) && s.undetermined[k] !in g.received
  {
    hide Sound, WellFormed, Remaining, ReceiveList;
  }

  lemma {:induction false} ReceivingOn(s: State, g: State, k: nat, left: seq<Hash>, g': State)
    requires Receiving(s, g, k, left) && k < |s.undetermined| && WellFormed(g.dag)
    requires g' == ReceiveIf(g, s.undetermined[k]) && Sound(g') && g'.dag == g.dag && g'.round == g.round
    requires s.undetermined[k] !in g.received
    requires g'.received.Keys == g.received.Keys || g'.received.Keys == g.received.Keys + {s.undetermined[k]}
    ensures Receiving(s, g', k + 1, if s.undetermined[k] in g'.received then left else left + [s.undetermined[k]])
  {
    hide Sound, WellFormed, Remaining, ReceiveIf, ReceiveList, Divided, Table;
    SoundParts(g');
    UndeterminedDistinct(s, k);
    RemainingNext(s.undetermined, k, g.received.Keys, g'.received.Keys);
    ReceiveListStep(g, s.undetermined, k);
  }

  lemma {:induction false} ReceiveListStep(g: State, list: seq<Hash>, k: nat)
    requires WellFormed(g.dag) && k < |list| && ReceiveIf(g, list[k]).dag == g.dag
    ensures ReceiveList(g, list[k..]) == ReceiveList(ReceiveIf(g, list[k]), list[k + 1..])
  {
    hide WellFormed, ReceiveIf;
    assert list[k..][0] == list[k] && list[k..][1..] == list[k + 1..];
  }

  lemma {:induction false} UndeterminedDistinct(s: State, k: nat)
    requires Sound(s) && k < |s.undetermined|
    ensures forall i :: 0 <= i < |s.undetermined| && i != k ==> s.undetermined[i] != s.undetermined[k]
  {
    hide Sound, WellFormed, Remaining, Divided, Table;
    SoundParts(s);
    UndeterminedExactly(s.dag, s.received.Keys);
  }

  lemma {:induction false} ReceptionsEnd(s: State, g: State, left: seq<Hash>)
    requires Receiving(s, g, |s.undetermined|, left)
    ensures WellFormed(s.dag) && g == ReceiveList(s, s.undetermined) && Sound(g) && g.undetermined == left
  {
    hide Sound, WellFormed, Remaining, ReceiveIf;
    SoundParts(s);
    assert s.undetermined[|s.undetermined|..] == [] && s.undetermined[..|s.undetermined|] == s.undetermined;
    RemainingTwice(s.dag.order, s.received.Keys, g.received.Keys);
  }
}
