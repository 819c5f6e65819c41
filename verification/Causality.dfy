/** Runs in which decided rounds may gain witnesses: what is settled once and for all, and exactly
    when the commit order respects ancestry and two nodes commit the same. */
module Causality {
  import opened Dags
  import opened Rounds
  import opened Fame
  import opened Consensus
  import opened ConsensusInsert
  import opened ConsensusDecide
  import opened ConsensusCommit
  import opened ConsensusPasses
  import opened ConsensusRuns
  import opened CommitOrder
  import opened ConsensusRoots
  import opened LateWitnesses
  import opened Agreement

  // ---------------------------------------------------------------- closed rounds

  /** Some witness of `d` decides that `w` is famous. */
  ghost predicate DecidedFamous(d: Dag, w: Hash) {
    exists y :: Ballot(d, w, y) && Decides(d, w, y, true)
  }

  /** Row `r` names every witness of the round that `d` makes famous. */
  ghost predicate Closed(s: State, r: int, d: Dag)
    requires Based(d)
  {
    && r in s.rounds
    && forall w :: w in d.events && Round(d, w) == r && Witness(d, w) && DecidedFamous(d, w) ==>
         w in s.rounds[r].FamousWitnesses()
  }

  /** And it names no others. */
  lemma {:induction false} OnlyFamous(s: State, d: Dag, r: int, w: Hash)
    requires Holds(s, d) && r in s.rounds && w in s.rounds[r].FamousWitnesses()
    ensures w in d.events && Round(d, w) == r && Witness(d, w) && DecidedFamous(d, w)
  {
    hide Sound, WellFormed, SubDag, Witness, Round, Decides, Ballot;
    var y := FameIsVerdict(s, r, w);
    RoundOfHeld(s, d, w);
    DecisionMoves(s.dag, d, w, y, true);
  }

  /** A decided row is closed, whatever comes later. */
  lemma {:induction false} DecidedCloses(s: State, d: Dag, r: int)
    requires Holds(s, d) && Converges(d) && 0 <= r && Decided(s, r)
    ensures Closed(s, r, d)
  {
    hide Sound, WellFormed, SubDag, Witness, Round, DecidedFamous, OneWitnessPerCreator, StrongQuorums;
    hide RoundInfo.FamousWitnesses, RoundInfo.WitnessesDecided;
    forall w | w in d.events && Round(d, w) == r && Witness(d, w) && DecidedFamous(d, w)
      ensures w in s.rounds[r].FamousWitnesses()
    {
      if w in s.round {
        RoundOfHeld(s, d, w);
        RowHasFamous(s, d, r, w);
      } else {
        LateStaysOut(s, d, r, w);
      }
    }
  }

  lemma {:induction false} RowHasFamous(s: State, d: Dag, r: int, w: Hash)
    requires Holds(s, d) && OneWitnessPerCreator(d) && w in d.events && StrongQuorums(d, w) && Decided(s, r)
    requires w in s.dag.events && Based(s.dag) && w in s.round && s.round[w] == r && Witness(s.dag, w)
    requires DecidedFamous(d, w)
    ensures w in s.rounds[r].FamousWitnesses()
  {
    hide Sound, WellFormed, SubDag, Witness, Round, Decides, Ballot, OneWitnessPerCreator, StrongQuorums;
    hide RoundInfo.WitnessesDecided;
    InRow(s, r, w);
    var z := FameIsVerdict(s, r, w);
    var y :| Ballot(d, w, y) && Decides(d, w, y, true);
    DecisionMoves(s.dag, d, w, z, s.rounds[r].events[w].famous == Yes);
    DecisionsAgree(d, w, y, z, true, s.rounds[r].events[w].famous == Yes);
  }

  /** Nobody makes a witness famous that was not there when the round was decided. */
  lemma {:induction false} LateStaysOut(s: State, d: Dag, r: int, w: Hash)
    requires Holds(s, d) && OneWitnessPerCreator(d) && w in d.events && StrongQuorums(d, w) && 0 <= r && Decided(s, r)
    requires w !in s.round && Round(d, w) == r && Witness(d, w)
    ensures !DecidedFamous(d, w)
  {
    hide Sound, WellFormed, SubDag, Witness, Round, Decides, Voters, OneWitnessPerCreator, Reach, Decided;
    var z := TwoRoundsUp(s, r);
    RoundOfHeld(s, d, z);
    NotSeen(s, d, z, w);
    Unseen(d, w, z);
    forall y | Ballot(d, w, y) && Decides(d, w, y, true) ensures false {
      DecisionsAgree(d, w, y, z, true, false);
    }
  }

  lemma {:induction false} ClosedSame(s: State, s': State, d: Dag, r: int)
    requires Holds(s, d) && Holds(s', d) && Closed(s, r, d) && Closed(s', r, d)
    ensures s.rounds[r].FamousWitnesses() == s'.rounds[r].FamousWitnesses()
  {
    hide Sound, WellFormed, SubDag, Witness, Round, DecidedFamous, RoundInfo.FamousWitnesses;
    forall w | w in s.rounds[r].FamousWitnesses() ensures w in s'.rounds[r].FamousWitnesses() {
      OnlyFamous(s, d, r, w);
    }
    forall w | w in s'.rounds[r].FamousWitnesses() ensures w in s.rounds[r].FamousWitnesses() {
      OnlyFamous(s', d, r, w);
    }
  }

  /** Closed rows say the same about who sees what. */
  lemma {:induction false} SightSame(s: State, s': State, d: Dag, x: Hash, r: int)
    requires Holds(s, d) && Holds(s', d) && Closed(s, r, d) && Closed(s', r, d)
    ensures WellFormed(s.dag) && WellFormed(s'.dag) && (AllSee(s, x, r) <==> AllSee(s', x, r))
  {
    hide Divided, Queue, Committed, Ledger, Remaining, EventOk, LogOk, Table, Reach, Round, Witness, DecidedFamous;
    hide RoundInfo.FamousWitnesses;
    ClosedSame(s, s', d, r);
    hide WellFormed;
    forall w | w in s.rounds[r].FamousWitnesses() ensures Reach(s.dag, w, x) <==> Reach(s'.dag, w, x) {
      FamousKnown(s, r, w);
      FamousKnown(s', r, w);
      ReachAgree(s.dag, s'.dag, w, x);
    }
  }

  // ---------------------------------------------------------------- receptions that stand

  /** `x` was received in round `i`, and will be by whoever receives it. */
  ghost predicate StandsAt(s: State, d: Dag, x: Hash, i: int)
    requires WellFormed(s.dag) && Based(d)
  {
    && x in s.round && s.round[x] < i
    && (forall k :: s.round[x] < k <= i ==> Closed(s, k, d))
    && AllSee(s, x, i)
    && (forall k :: s.round[x] < k < i ==> !AllSee(s, x, k))
  }

  lemma {:induction false} StandsOnce(s: State, d: Dag, x: Hash, i: int, j: int)
    requires WellFormed(s.dag) && Based(d) && StandsAt(s, d, x, i) && StandsAt(s, d, x, j)
    ensures i == j
  {
    hide WellFormed, Closed, AllSee;
  }

  lemma {:induction false} ReceivedStands(s: State, d: Dag, x: Hash, i: int)
    requires Holds(s, d) && Converges(d) && WellFormed(s.dag) && ReceivedAt(s, x, i)
    ensures StandsAt(s, d, x, i)
  {
    hide WellFormed, Table, Divided, Queue, Committed, Ledger, Remaining, Converges, Decided, AllSee, Closed, SubDag;
    RoundsNotNegative(s);
    forall k | s.round[x] < k <= i ensures Closed(s, k, d) {
      DecidedCloses(s, d, k);
    }
  }

  lemma {:induction false} StandsToo(s: State, s': State, d: Dag, x: Hash, i: int)
    requires Holds(s, d) && Holds(s', d) && WellFormed(s.dag) && WellFormed(s'.dag) && StandsAt(s, d, x, i)
    requires x in s'.round
    requires forall k :: s.round[x] < k <= i ==> Closed(s', k, d)
    ensures StandsAt(s', d, x, i)
  {
    hide Sound, WellFormed, SubDag, Closed, AllSee;
    RoundOfHeld(s, d, x);
    RoundOfHeld(s', d, x);
    forall k | s.round[x] < k <= i ensures AllSee(s, x, k) <==> AllSee(s', x, k) {
      SightSame(s, s', d, x, k);
    }
  }

  /** Every reception stands, committed rounds are closed, and whatever the table puts at or below
      the last of them is in its frame. */
  ghost predicate Standing(s: State, d: Dag)
    requires WellFormed(s.dag) && Based(d)
  {
    && (forall x :: x in s.received ==> StandsAt(s, d, x, s.received[x]))
    && (forall r :: 0 <= r <= LastCommitted(s) ==> Closed(s, r, d))
    && (forall k :: 0 <= k < |s.pending| && s.pending[k].decided ==> Closed(s, s.pending[k].index, d))
    && (forall x, r :: r <= LastCommitted(s) && ReceivedAt(s, x, r) ==> x in s.received)
    && (forall x :: x in s.received && s.received[x] <= LastCommitted(s) ==>
          s.received[x] in s.frames && x in s.frames[s.received[x]].events)
  }

  /** No famous witness is lost. */
  ghost predicate FamousKept(s: State, s': State) {
    forall r :: r in s.rounds ==> r in s'.rounds && s.rounds[r].FamousWitnesses() <= s'.rounds[r].FamousWitnesses()
  }

  lemma {:induction false} ClosedStays(s: State, s': State, d: Dag, r: int)
    requires Based(d) && FamousKept(s, s') && Closed(s, r, d)
    ensures Closed(s', r, d)
  {
    hide Based, RoundInfo.FamousWitnesses, DecidedFamous, Witness, Round;
  }

  /** What a step has to see to so that receptions go on standing. */
  lemma {:induction false} StandingOnward(s: State, s': State, d: Dag)
    requires Holds(s, d) && Holds(s', d) && WellFormed(s.dag) && WellFormed(s'.dag) && Standing(s, d)
    requires FamousKept(s, s')
    requires s'.received == s.received && s'.frames == s.frames && s'.lastConsensusRound == s.lastConsensusRound
    requires forall h :: h in s.round ==> h in s'.round
    requires forall k :: 0 <= k < |s'.pending| && s'.pending[k].decided ==> Closed(s', s'.pending[k].index, d)
    requires forall x, r :: r <= LastCommitted(s) && ReceivedAt(s', x, r) ==> x in s.received
    ensures Standing(s', d)
  {
    hide Sound, WellFormed, SubDag, FamousKept, Closed, AllSee, ReceivedAt;
    forall r | Closed(s, r, d) ensures Closed(s', r, d) { ClosedStays(s, s', d, r); }
    forall x | x in s'.received ensures StandsAt(s', d, x, s'.received[x]) {
      StandsToo(s, s', d, x, s.received[x]);
    }
  }

  // ---------------------------------------------------------------- InsertEvent

  lemma {:induction false} InsertStanding(s: State, h: Hash, e: Event, d: Dag)
    requires Holds(s, d) && Fresh(s.dag, h, e) && Insert(s.dag, h, e).Ok? && Holds(InsertedState(s, h, e), d)
    requires WellFormed(s.dag) && WellFormed(InsertedState(s, h, e).dag) && Standing(s, d)
    ensures Standing(InsertedState(s, h, e), d)
  {
    hide WellFormed, Table, Divided, Queue, Committed, Ledger, Remaining, Fresh, Insert, SubDag, AllSee, Onward, Fixed;
    hide Round, Witness, DecidedFamous, RoundInfo.FamousWitnesses, RoundInfo.WitnessesDecided;
    var s' := InsertedState(s, h, e);
    InsertOnward(s, h, e);
    forall x, r | r <= LastCommitted(s) && ReceivedAt(s', x, r) ensures x in s.received {
      assert forall k :: Decided(s, k) <==> Decided(s', k);
      ReceivedWas(s, s', x, r);
    }
    hide ReceivedAt, StandsAt;
    StandingOnward(s, s', d);
  }

  // ---------------------------------------------------------------- DivideRounds

  lemma {:induction false} DivideKeepsFamous(s: State, s': State)
    requires DividedMore(s, s')
    ensures FamousKept(s, s')
    ensures forall r :: r in s.rounds && Decided(s', r) ==> Decided(s, r)
  {
    forall r | r in s.rounds
      ensures s.rounds[r].FamousWitnesses() <= s'.rounds[r].FamousWitnesses() && (Decided(s', r) ==> Decided(s, r))
    {
      assert forall h :: h in s.rounds[r].events ==>
               h in s'.rounds[r].events && s'.rounds[r].events[h] == s.rounds[r].events[h];
    }
  }

  lemma {:induction false} DivideReceives(s: State, s': State, d: Dag, x: Hash, r: int)
    requires Holds(s, d) && Holds(s', d) && WellFormed(s.dag) && WellFormed(s'.dag) && Standing(s, d)
    requires DividedMore(s, s')
    requires r <= LastCommitted(s) && ReceivedAt(s', x, r)
    ensures x in s.received
  {
    hide Divided, EventOk, LogOk, Queue, Committed, Ledger, Remaining, SubDag, AllSee, StandsAt, Table, Decided;
    hide FamousKept;
    DivideKeepsFamous(s, s');
    RoundsNotNegative(s');
    forall k | s'.round[x] < k <= r ensures k in s.rounds && (AllSee(s, x, k) <==> AllSee(s', x, k)) {
      assert Closed(s, k, d);
      ClosedStays(s, s', d, k);
      SightSame(s, s', d, x, k);
    }
    hide WellFormed, Closed;
    SeenIsDivided(s', s, d, x, r);
    assert ReceivedAt(s, x, r);
  }

  lemma {:induction false} DivideStanding(s: State, s': State, d: Dag)
    requires Holds(s, d) && Holds(s', d) && WellFormed(s.dag) && WellFormed(s'.dag) && Standing(s, d)
    requires DividedMore(s, s')
    ensures Standing(s', d)
  {
    hide Sound, WellFormed, SubDag, ReceivedAt, StandsAt, Closed, FamousKept;
    DivideKeepsFamous(s, s');
    forall x, r | r <= LastCommitted(s) && ReceivedAt(s', x, r) ensures x in s.received {
      DivideReceives(s, s', d, x, r);
    }
    forall k | 0 <= k < |s'.pending| && s'.pending[k].decided ensures Closed(s', s'.pending[k].index, d) {
      ClosedStays(s, s', d, s.pending[k].index);
    }
    StandingOnward(s, s', d);
  }

  // ---------------------------------------------------------------- DecideFame

  lemma {:induction false} FameKeepsFamous(s: State, s': State)
    requires Based(s.dag) && FameStep(s, s')
    ensures FamousKept(s, s')
  {
    hide Based, WellFormed, RowJustified, RowComplete, RoundInfo.WitnessesDecided;
    forall r | r in s.rounds ensures s.rounds[r].FamousWitnesses() <= s'.rounds[r].FamousWitnesses() {
      assert RowRefamed(s.rounds[r], s'.rounds[r]);
    }
  }

  /** Rounds that have left the queue receive what they did. */
  lemma {:induction false} FameReceives(s: State, s': State, x: Hash, r: int)
    requires Sound(s) && FameStep(s, s') && WellFormed(s'.dag) && r <= LastCommitted(s) && ReceivedAt(s', x, r)
    ensures WellFormed(s.dag) && ReceivedAt(s, x, r)
  {
    hide EventOk, LogOk, Table, Divided, Queue, Committed, Ledger, Remaining, RowRefamed, RowJustified, RowComplete;
    hide Reach;
    hide RoundInfo.WitnessesDecided, RoundInfo.FamousWitnesses;
    forall k | k <= r ensures (Decided(s, k) <==> Decided(s', k)) && (AllSee(s, x, k) <==> AllSee(s', x, k)) {
      assert k in s.rounds <==> k in s'.rounds;
    }
    hide AllSee, Decided;
  }

  lemma {:induction false} FamePendingClosed(s: State, s': State, d: Dag, k: nat)
    requires Holds(s, d) && Holds(s', d) && Converges(d) && WellFormed(s.dag) && Standing(s, d) && FameStep(s, s')
    requires k < |s'.pending| && s'.pending[k].decided
    ensures Closed(s', s'.pending[k].index, d)
  {
    hide WellFormed, Table, Divided, Committed, Ledger, Remaining, RowRefamed, RowJustified, RowComplete, SubDag;
    hide Converges, Closed, StandsAt, ReceivedAt, FamousKept;
    hide RoundInfo.WitnessesDecided;
    FameKeepsFamous(s, s');
    if s.pending[k].decided {
      ClosedStays(s, s', d, s.pending[k].index);
    } else {
      DecidedCloses(s', d, s'.pending[k].index);
    }
  }

  lemma {:induction false} FameStanding(s: State, s': State, d: Dag)
    requires Holds(s, d) && Holds(s', d) && Converges(d) && WellFormed(s.dag) && WellFormed(s'.dag) && Standing(s, d)
    requires FameStep(s, s')
    ensures Standing(s', d)
  {
    hide Sound, WellFormed, SubDag, FameStep, ReceivedAt, StandsAt, Closed, FamousKept, Converges, Onward;
    StatesBased(s, d);
    FameKeepsFamous(s, s');
    FameOnward(s, s');
    forall x, r | r <= LastCommitted(s) && ReceivedAt(s', x, r) ensures x in s.received {
      FameReceives(s, s', x, r);
    }
    forall k | 0 <= k < |s'.pending| && s'.pending[k].decided ensures Closed(s', s'.pending[k].index, d) {
      FamePendingClosed(s, s', d, k);
    }
    StandingOnward(s, s', d);
  }

  lemma {:induction false} StatesBased(s: State, d: Dag)
    requires Holds(s, d)
    ensures Based(s.dag) && Table(s)
  {
    hide WellFormed, Table, Divided, Queue, Committed, Ledger, Remaining, SubDag;
  }

  // ---------------------------------------------------------------- DecideRoundReceived

  lemma {:induction false} ReceiveStanding(s: State, s': State, d: Dag)
    requires Holds(s, d) && Holds(s', d) && Converges(d) && WellFormed(s.dag) && WellFormed(s'.dag) && Standing(s, d)
    requires ReceivedMore(s, s') && Settled(s')
    ensures Standing(s', d)
  {
    hide Sound, WellFormed, SubDag, Converges, ReceivedAt, StandsAt, Closed, RoundInfo.FamousWitnesses;
    hide RoundInfo.WitnessesDecided;
    forall r | Closed(s, r, d) ensures Closed(s', r, d) { ClosedStays(s, s', d, r); }
    forall x | x in s'.received ensures StandsAt(s', d, x, s'.received[x]) {
      if x !in s.received {
        ReceivedStands(s, d, x, s'.received[x]);
      }
      StandsParts(s, d, x, s'.received[x]);
      StandsToo(s, s', d, x, s'.received[x]);
    }
  }

  lemma {:induction false} StandsParts(s: State, d: Dag, x: Hash, i: int)
    requires WellFormed(s.dag) && Based(d) && StandsAt(s, d, x, i)
    ensures x in s.round && forall k :: s.round[x] < k <= i ==> Closed(s, k, d)
  {
    hide WellFormed, Closed, AllSee;
  }

  // ---------------------------------------------------------------- ProcessDecidedRounds

  lemma {:induction false} CommitStanding(s: State, f: Frame, d: Dag)
    requires Holds(s, d) && WellFormed(s.dag) && Standing(s, d) && Settled(s) && s.pending != [] && s.pending[0].decided
    requires AllStored(s.dag, f.events) && FrameOf(s, s.pending[0].index, f)
    ensures WellFormed(CommitOne(s, f).dag) && Standing(CommitOne(s, f), d) && Settled(CommitOne(s, f))
  {
    hide WellFormed, Table, Divided, Committed, Ledger, Remaining, Payload, LoadedCount, HashOfFrame, AllSee, SubDag;
    hide DecidedFamous, Round, Witness;
    hide RoundInfo.FamousWitnesses, RoundInfo.WitnessesDecided, StandsAt, ReceivedAt, Closed;
    FrameRound(s, f);
    HeadOfQueue(s);
    CommitSame(s, f, d);
    forall x | x in s.received && s.received[x] == f.round ensures x in f.events {
      FrameComplete(s, f.round, f, x);
    }
  }

  /** A commit moves no witness and no reception. */
  lemma {:induction false} CommitSame(s: State, f: Frame, d: Dag)
    requires s.pending != [] && AllStored(s.dag, f.events) && WellFormed(s.dag) && Based(d)
    ensures var s' := CommitOne(s, f);
            && (forall r :: Closed(s, r, d) <==> Closed(s', r, d))
            && (forall x, i :: ReceivedAt(s, x, i) <==> ReceivedAt(s', x, i))
            && (forall x, i :: StandsAt(s, d, x, i) <==> StandsAt(s', d, x, i))
  {
    hide WellFormed, Reach, Payload, LoadedCount, HashOfFrame, RoundInfo.FamousWitnesses, RoundInfo.WitnessesDecided;
    hide Round, Witness, DecidedFamous;
    var s' := CommitOne(s, f);
    assert forall x, k :: AllSee(s, x, k) <==> AllSee(s', x, k);
    assert forall k :: Decided(s, k) <==> Decided(s', k);
    assert forall r :: Closed(s, r, d) <==> Closed(s', r, d);
    hide AllSee, Decided, Closed;
  }

  lemma {:induction false} CommitHolds(s: State, f: Frame, d: Dag)
    requires Holds(s, d) && s.pending != [] && s.pending[0].decided && AllStored(s.dag, f.events)
    requires FrameOf(s, s.pending[0].index, f)
    ensures Holds(CommitOne(s, f), d)
  {
    hide Sound, Based, SubDag, FrameOf, Payload, LoadedCount, HashOfFrame;
    CommitSound(s, f);
  }

  lemma {:induction false} CommitsStanding(s: State, s': State, d: Dag)
    requires Holds(s, d) && WellFormed(s.dag) && Standing(s, d) && Settled(s) && Commits(s, s')
    ensures Holds(s', d) && WellFormed(s'.dag) && Standing(s', d)
    decreases |s.pending|
  {
    hide Holds, WellFormed, Standing, Settled, FrameOf, CommitOne;
    if s.pending != [] && s.pending[0].decided {
      var f: Frame :| AllStored(s.dag, f.events) && FrameOf(s, s.pending[0].index, f) && Commits(CommitOne(s, f), s');
      CommitHolds(s, f, d);
      CommitStanding(s, f, d);
      QueueShrinks(s, f);
      CommitsStanding(CommitOne(s, f), s', d);
    }
  }

  // ---------------------------------------------------------------- runs

  lemma {:induction false} PassesStanding(s: State, s1: State, s2: State, s3: State, s': State, d: Dag)
    requires Holds(s, d) && Converges(d) && WellFormed(s.dag) && Standing(s, d) && Passes(s, s1, s2, s3, s')
    ensures Holds(s', d) && WellFormed(s'.dag) && Standing(s', d)
  {
    hide Sound, WellFormed, SubDag, Converges, FameStep, Commits, Standing, Settled, DivideList, ReceiveList;
    hide DividedMore, ReceivedMore, Covers;
    PassesSound(s, s1, s2, s3, s');
    UndeterminedCovers(s);
    DivideListMore(s, s.undetermined);
    DivideListCommits(s, s.undetermined);
    FameCommits(s1, s2);
    ReceiveSettles(s2, s3);
    ReceiveCommits(s2);
    DivideStanding(s, s1, d);
    FameStanding(s1, s2, d);
    ReceiveStanding(s2, s3, d);
    CommitsStanding(s3, s', d);
  }

  lemma {:induction false} InitialStanding(participants: set<Creator>, size: nat, d: Dag)
    requires Based(d)
    ensures WellFormed(Initial(participants, size).dag) && Standing(Initial(participants, size), d)
  {
    InitialBased(participants, size);
    hide Based, WellFormed, AllSee, Decided, Closed;
  }

  lemma {:induction false} MoveGrows(s: State, step: Step, s': State)
    requires Sound(s) && Moves(s, step, s')
    ensures SubDag(s.dag, s'.dag)
  {
    hide Sound, WellFormed, FameStep, Commits, DivideList, ReceiveList, SubDag;
    match step
    case Inserting(h, e) =>
      StoredGraph(s);
      InsertKeeps(s.dag, h, e);
    case Running(s1, s2, s3) =>
      PassesSound(s, s1, s2, s3, s');
      DivideListCommits(s, s.undetermined);
      FameCommits(s1, s2);
      ReceiveCommits(s2);
      CommitsKeepGraph(s3, s');
      PartOfItself(s.dag);
  }

  lemma {:induction false} StoredGraph(s: State)
    requires Sound(s)
    ensures WellFormed(s.dag)
  {
    hide EventOk, LogOk, Table, Divided, Queue, Committed, Ledger, Remaining;
  }

  lemma {:induction false} PartOfItself(d: Dag)
    ensures SubDag(d, d)
  {
  }

  lemma {:induction false} CommitsKeepGraph(s: State, s': State)
    requires Commits(s, s')
    ensures s'.dag == s.dag
    decreases |s.pending|
  {
    hide FrameOf, Payload, LoadedCount, HashOfFrame;
    if s.pending != [] && s.pending[0].decided {
      var f: Frame :| AllStored(s.dag, f.events) && FrameOf(s, s.pending[0].index, f) && Commits(CommitOne(s, f), s');
      CommitsKeepGraph(CommitOne(s, f), s');
    }
  }

  lemma {:induction false} PartTrans(d: Dag, d': Dag, d'': Dag)
    requires SubDag(d, d') && SubDag(d', d'')
    ensures SubDag(d, d'')
  {
  }

  lemma {:induction false} MoveStanding(s: State, step: Step, s': State, d: Dag)
    requires Holds(s, d) && Holds(s', d) && Converges(d) && WellFormed(s.dag) && WellFormed(s'.dag) && Standing(s, d)
    requires Moves(s, step, s')
    ensures Standing(s', d)
  {
    hide Holds, WellFormed, Converges, Standing, Passes, InsertedState, Insert, Fresh;
    match step
    case Inserting(h, e) => InsertStanding(s, h, e, d);
    case Running(s1, s2, s3) => PassesStanding(s, s1, s2, s3, s', d);
  }

  /** In every state of every run, however late witnesses come, receptions stand. */
  lemma {:induction false} RunStanding(participants: set<Creator>, run: seq<State>, steps: seq<Step>, n: nat, d: Dag)
    requires IsRun(participants, run, steps) && n < |run| && Converges(d) && SubDag(run[n].dag, d)
    ensures Holds(run[n], d) && WellFormed(run[n].dag) && Standing(run[n], d)
  {
    hide Moves, Initial, Sound, WellFormed, Standing, SubDag, OneWitnessPerCreator, StrongQuorums;
    RunSound(participants, run, steps, n);
    StoredGraph(run[n]);
    if n == 0 {
      InitialStanding(participants, run[0].dag.cacheSize, d);
    } else {
      RunSound(participants, run, steps, n - 1);
      MoveGrows(run[n - 1], steps[n - 1], run[n]);
      PartTrans(run[n - 1].dag, run[n].dag, d);
      RunStanding(participants, run, steps, n - 1, d);
      MoveStanding(run[n - 1], steps[n - 1], run[n], d);
    }
  }

  // ---------------------------------------------------------------- the commit order

  /** A committed round after that of `y` has an undecided witness, and `y` was not received before. */
  ghost predicate HeldBack(s: State, y: Hash) {
    y in s.round && y !in s.received && exists r :: Reopened(s, r) && s.round[y] < r
  }

  /** An event that all famous witnesses of a committed round see is received there or before, unless it is held
      back. */
  lemma {:induction false} SeenReceived(s: State, d: Dag, y: Hash, r: int)
    requires Holds(s, d) && WellFormed(s.dag) && Standing(s, d) && r <= LastCommitted(s)
    requires y in s.round && s.round[y] < r && AllSee(s, y, r)
    ensures HeldBack(s, y) || (y in s.received && s.received[y] <= r)
  {
    hide WellFormed, Table, Divided, Queue, Committed, Ledger, Remaining, SubDag, AllSee, Closed;
    RoundsNotNegative(s);
    var j := FirstSeeing(s, y, r);
    if k :| s.round[y] < k <= j && !Decided(s, k) {
      assert Closed(s, k, d);
      ClosedHasRow(s, k, d);
      assert Reopened(s, k);
    } else {
      assert ReceivedAt(s, y, j);
    }
    if y in s.received {
      assert StandsAt(s, d, y, s.received[y]);
    }
  }

  lemma {:induction false} ClosedHasRow(s: State, r: int, d: Dag)
    requires Based(d) && Closed(s, r, d)
    ensures r in s.rounds
  {
    hide Based;
  }

  lemma {:induction false} AncestorHeld(s: State, d: Dag, x: Hash, y: Hash)
    requires Holds(s, d) && WellFormed(s.dag) && Standing(s, d) && x in s.received && s.received[x] <= LastCommitted(s)
    requires y in s.dag.events && Reach(s.dag, x, y)
    ensures HeldBack(s, y) || (y in s.received && s.received[y] <= s.received[x])
  {
    hide WellFormed, Table, Divided, Queue, Committed, Ledger, Remaining, SubDag, AllSee, Closed, Reach, HeldBack;
    var r := s.received[x];
    assert StandsAt(s, d, x, r);
    AncestorDivided(s, x, y);
    SeenThrough(s, x, y, r);
    hide Sound;
    SeenReceived(s, d, y, r);
  }

  /** No ancestor of a committed event is held back. */
  ghost predicate NoneHeldBack(s: State)
    requires WellFormed(s.dag)
  {
    forall x, y :: x in s.consensus && y in s.dag.events && y != x && Reach(s.dag, x, y) ==> !HeldBack(s, y)
  }

  lemma {:induction false} CommittedAt(s: State, p: nat)
    requires Sound(s) && p < |s.consensus|
    ensures s.consensus[p] in s.received && 0 <= s.received[s.consensus[p]] <= LastCommitted(s)
  {
    hide WellFormed, Table, Divided, Queue, Ledger, Remaining, Committed;
    FramesSoFar(s);
    CommitOrder.CommittedReceived(s, s.consensus[p]);
  }

  lemma {:induction false} CausalIf(s: State, d: Dag)
    requires Holds(s, d) && WellFormed(s.dag) && Standing(s, d) && NoneHeldBack(s)
    ensures Causal(s)
  {
    hide Sound, WellFormed, SubDag, Reach, StandsAt, Closed, ReceivedAt, HeldBack;
    forall p, y | 0 <= p < |s.consensus| && y in s.dag.events && y != s.consensus[p] && Reach(s.dag, s.consensus[p], y)
      ensures exists q :: 0 <= q < p && s.consensus[q] == y
    {
      CommittedAt(s, p);
      assert !HeldBack(s, y);
      AncestorHeld(s, d, s.consensus[p], y);
      AncestorPlaced(s, p, y);
    }
  }

  lemma {:induction false} CausalOnlyIf(s: State)
    requires Sound(s) && WellFormed(s.dag) && Causal(s)
    ensures NoneHeldBack(s)
  {
    hide Sound, WellFormed, Reach;
    forall x, y | x in s.consensus && y in s.dag.events && y != x && Reach(s.dag, x, y) ensures !HeldBack(s, y) {
      var p :| 0 <= p < |s.consensus| && s.consensus[p] == x;
      var q :| 0 <= q < p && s.consensus[q] == y;
      CommittedAt(s, q);
    }
  }

  /** In every run, what is committed comes after all its ancestors if and only if none of them is held back. */
  lemma {:induction false} RunCausalIff(participants: set<Creator>, run: seq<State>, steps: seq<Step>, n: nat)
    requires IsRun(participants, run, steps) && n < |run| && Converges(run[n].dag)
    ensures WellFormed(run[n].dag) && (Causal(run[n]) <==> NoneHeldBack(run[n]))
  {
    hide IsRun, Sound, WellFormed, Converges, Standing, SubDag, Causal, NoneHeldBack;
    PartOfItself(run[n].dag);
    RunStanding(participants, run, steps, n, run[n].dag);
    if Causal(run[n]) {
      CausalOnlyIf(run[n]);
    }
    if NoneHeldBack(run[n]) {
      CausalIf(run[n], run[n].dag);
    }
  }

  // ---------------------------------------------------------------- two nodes

  lemma {:induction false} InFrameStands(s: State, d: Dag, r: int, x: Hash)
    requires Holds(s, d) && WellFormed(s.dag) && Standing(s, d) && 0 <= r <= LastCommitted(s)
    ensures r in s.frames
    ensures x in s.frames[r].events <==> x in s.received && s.received[x] == r
    ensures x in s.frames[r].events ==> StandsAt(s, d, x, r)
  {
    hide WellFormed, Table, Divided, Queue, Ledger, Remaining, SubDag, StandsAt, Closed, ReceivedAt, FrameSound;
    hide FrameEvents;
    if x in s.frames[r].events {
      var i :| 0 <= i < |s.frames[r].events| && s.frames[r].events[i] == x;
      FrameFacts(s, r, i);
    }
  }

  /** What one node has in the frame of a round, so has any other that has committed the round, unless it is held
      back there. */
  lemma {:induction false} FrameShared(a: State, b: State, d: Dag, r: int, x: Hash)
    requires Holds(a, d) && Holds(b, d) && WellFormed(a.dag) && WellFormed(b.dag) && Standing(a, d) && Standing(b, d)
    requires 0 <= r <= LastCommitted(a) && r <= LastCommitted(b)
    ensures r in a.frames && r in b.frames
    ensures x in a.frames[r].events ==> x in b.frames[r].events || HeldBack(b, x)
  {
    hide Sound, WellFormed, SubDag, Closed, AllSee, ReceivedAt, HeldBack;
    InFrameStands(a, d, r, x);
    InFrameStands(b, d, r, x);
    if x in a.frames[r].events {
      RoundNotNegative(a, d, x);
      SightSame(a, b, d, x, r);
      SeenIsDivided(a, b, d, x, r);
      StandsToo(a, b, d, x, r);
      SeenReceived(b, d, x, r);
      if x in b.received {
        StandsOnce(b, d, x, r, b.received[x]);
      }
    }
  }

  lemma {:induction false} RoundNotNegative(s: State, d: Dag, x: Hash)
    requires Holds(s, d) && x in s.round
    ensures 0 <= s.round[x]
  {
    hide WellFormed, Table, Divided, Queue, Committed, Ledger, Remaining, SubDag;
    RoundsNotNegative(s);
  }

  /** No event of the frames that both have built is held back by either. */
  ghost predicate NothingBetween(a: State, b: State) {
    && (forall r, x :: 0 <= r <= LastCommitted(a) && r in a.frames && x in a.frames[r].events ==> !HeldBack(b, x))
    && (forall r, x :: 0 <= r <= LastCommitted(a) && r in b.frames && x in b.frames[r].events ==> !HeldBack(a, x))
  }

  lemma {:induction false} SameFrames(a: State, b: State, d: Dag, r: int)
    requires Holds(a, d) && Holds(b, d) && WellFormed(a.dag) && WellFormed(b.dag) && Standing(a, d) && Standing(b, d)
    requires KeysTellApart(d)
    requires 0 <= r <= LastCommitted(a) <= LastCommitted(b) && NothingBetween(a, b)
    ensures r in a.frames && r in b.frames && a.frames[r].events == b.frames[r].events
  {
    hide Sound, WellFormed, SubDag, Standing, KeysTellApart, HeldBack;
    FrameShared(a, b, d, r, NoHash);
    forall x ensures x in a.frames[r].events <==> x in b.frames[r].events {
      FrameShared(a, b, d, r, x);
      FrameShared(b, a, d, r, x);
    }
    SameListing(a, b, d, r);
  }

  lemma {:induction false} BehindIf(a: State, b: State, d: Dag)
    requires Holds(a, d) && Holds(b, d) && WellFormed(a.dag) && WellFormed(b.dag) && Standing(a, d) && Standing(b, d)
    requires KeysTellApart(d)
    requires Rooted(a) && Rooted(b) && LastCommitted(a) <= LastCommitted(b) && NothingBetween(a, b)
    ensures Behind(a, b)
  {
    hide Sound, WellFormed, SubDag, Standing, KeysTellApart, NothingBetween, Rooted, AllAlike;
    forall r | 0 <= r <= LastCommitted(a)
      ensures r in a.frames && r in b.frames && a.frames[r].events == b.frames[r].events
    {
      SameFrames(a, b, d, r);
    }
    forall r | 0 <= r <= LastCommitted(a) ensures a.frames[r] == b.frames[r] {
      SameRoots(a, b, d, r);
    }
    FramesSuffice(a, b, d);
  }

  lemma {:induction false} BehindOnlyIf(a: State, b: State)
    requires Sound(a) && Sound(b) && Behind(a, b)
    ensures NothingBetween(a, b)
  {
    hide Sound, AllAlike;
    FramesSoFar(a);
    forall r, x | 0 <= r <= LastCommitted(a) && x in a.frames[r].events ensures !HeldBack(a, x) && !HeldBack(b, x) {
      FramedReceived(a, r, x);
      FramedReceived(b, r, x);
    }
  }

  /** Two nodes, each in any state of any run of its own: the one that is behind has committed a prefix
      of what the other has, in the same frames, if and only if neither holds back an event of the
      frames both have built. */
  lemma {:induction false} RunsAgreeIff(participants: set<Creator>, run: seq<State>, steps: seq<Step>, m: nat,
                                        run': seq<State>, steps': seq<Step>, n: nat, d: Dag)
    requires IsRun(participants, run, steps) && m < |run| && IsRun(participants, run', steps') && n < |run'|
    requires SubDag(run[m].dag, d) && SubDag(run'[n].dag, d) && Converges(d) && KeysTellApart(d)
    requires LastCommitted(run[m]) <= LastCommitted(run'[n])
    ensures Behind(run[m], run'[n]) <==> NothingBetween(run[m], run'[n])
  {
    hide IsRun, Sound, WellFormed, SubDag, Standing, KeysTellApart, NothingBetween, Rooted, OneWitnessPerCreator;
    hide StrongQuorums, Behind, LastCommitted;
    RunStanding(participants, run, steps, m, d);
    RunStanding(participants, run', steps', n, d);
    RunRooted(participants, run, steps, m);
    RunRooted(participants, run', steps', n);
    if Behind(run[m], run'[n]) {
      BehindOnlyIf(run[m], run'[n]);
    }
    if NothingBetween(run[m], run'[n]) {
      BehindIf(run[m], run'[n], d);
    }
  }
}
