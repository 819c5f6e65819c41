/** Whole runs: what has been received stays received, and the commit order is a
    linear extension of the graph. */
module ConsensusRuns {
  import opened Dags
  import opened Rounds
  import opened Sorting
  import opened Consensus
  import opened ConsensusInsert
  import opened ConsensusDivide
  import opened ConsensusDecide
  import opened ConsensusCommit
  import opened ConsensusPasses

  // ---------------------------------------------------------------- stability

  /** No event gets into a round all of whose witnesses are decided as a new witness. */
  ghost predicate NoNewWitnesses(s: State, s': State) {
    forall r :: Decided(s, r) ==> r in s'.rounds && s'.rounds[r].Witnesses() == s.rounds[r].Witnesses()
  }

  /** Every received event is received where the table, as it now is, puts it, and
      whatever the table puts at or below the last committed round is in its frame. */
  ghost predicate Stable(s: State)
    requires WellFormed(s.dag)
  {
    && (forall x :: x in s.received ==> ReceivedAt(s, x, s.received[x]))
    && (forall r :: 0 <= r <= LastCommitted(s) ==> Decided(s, r))
    && (forall k :: 0 <= k < |s.pending| && s.pending[k].decided ==> Decided(s, s.pending[k].index))
    && (forall x, r :: r <= LastCommitted(s) && ReceivedAt(s, x, r) ==> x in s.received)
    && (forall x :: x in s.received && s.received[x] <= LastCommitted(s) ==>
          s.received[x] in s.frames && x in s.frames[s.received[x]].events)
  }

  /** Decided rounds keep their famous witnesses. */
  ghost predicate Fixed(s: State, s': State) {
    forall r :: Decided(s, r) ==> Decided(s', r) && s'.rounds[r].FamousWitnesses() == s.rounds[r].FamousWitnesses()
  }

  /** The graph is the same or has grown, and no round assignment changed. */
  ghost predicate Onward(s: State, s': State) {
    && Based(s.dag) && Table(s) && Based(s'.dag) && SubDag(s.dag, s'.dag)
    && forall h :: h in s.round ==> h in s'.round && s'.round[h] == s.round[h]
  }

  lemma {:induction false} FamousKnown(s: State, r: int, w: Hash)
    requires Based(s.dag) && Table(s) && r in s.rounds && w in s.rounds[r].FamousWitnesses()
    ensures w in s.dag.events && w in s.round && s.round[w] == r
  {
    hide WellFormed, Witness, Verdict;
    assert EntryOk(s, r, w);
  }

  lemma {:induction false} AllSeeSame(s: State, s': State, x: Hash, r: int)
    requires Onward(s, s') && Fixed(s, s') && Decided(s, r)
    ensures AllSee(s, x, r) <==> AllSee(s', x, r)
  {
    hide WellFormed, Table, RoundInfo.FamousWitnesses, RoundInfo.WitnessesDecided, Reach;
    forall w | w in s.rounds[r].FamousWitnesses() ensures Reach(s.dag, w, x) <==> Reach(s'.dag, w, x) {
      FamousKnown(s, r, w);
      ReachGrows(s.dag, s'.dag, w, x);
    }
  }

  /** A reception stands. */
  lemma {:induction false} ReceivedStays(s: State, s': State, x: Hash, i: int)
    requires Onward(s, s') && Fixed(s, s') && ReceivedAt(s, x, i)
    ensures ReceivedAt(s', x, i)
  {
    hide WellFormed, Table, Decided, AllSee;
    forall k | s.round[x] < k <= i ensures AllSee(s, x, k) <==> AllSee(s', x, k) {
      AllSeeSame(s, s', x, k);
    }
  }

  /** Nothing is received below decided rounds that was not received there before. */
  lemma {:induction false} ReceivedWas(s: State, s': State, x: Hash, i: int)
    requires Onward(s, s') && Fixed(s, s') && ReceivedAt(s', x, i) && x in s.round
    requires forall k :: s.round[x] < k <= i ==> Decided(s, k)
    ensures ReceivedAt(s, x, i)
  {
    hide WellFormed, Table, Decided, AllSee;
    forall k | s.round[x] < k <= i ensures AllSee(s, x, k) <==> AllSee(s', x, k) {
      AllSeeSame(s, s', x, k);
    }
  }

  // ---------------------------------------------------------------- InsertEvent

  lemma {:induction false} InsertOnward(s: State, h: Hash, e: Event)
    requires Sound(s) && Fresh(s.dag, h, e) && Insert(s.dag, h, e).Ok?
    ensures Onward(s, InsertedState(s, h, e)) && Fixed(s, InsertedState(s, h, e))
  {
    hide WellFormed, Table, Divided, Queue, Committed, Ledger, Remaining, Fresh, LastEventFrom, OtherParentFound;
    hide RoundInfo.WitnessesDecided;
    InsertGrows(s.dag, h, e);
  }

  /** The parts of Stable that need only that nothing is moved. */
  lemma {:induction false} StableOnward(s: State, s': State)
    requires Onward(s, s') && Fixed(s, s') && Stable(s)
    requires s'.received == s.received && s'.lastConsensusRound == s.lastConsensusRound && s'.frames == s.frames
    requires forall k :: 0 <= k < |s'.pending| && s'.pending[k].decided ==> Decided(s', s'.pending[k].index)
    requires forall x, r :: r <= LastCommitted(s) && ReceivedAt(s', x, r) ==> x in s.round
    requires forall x :: x in s.round ==> 0 <= s.round[x]
    ensures Stable(s')
  {
    hide WellFormed, Table, Decided, AllSee;
    forall x | x in s'.received ensures ReceivedAt(s', x, s'.received[x]) {
      ReceivedStays(s, s', x, s.received[x]);
    }
    forall x, r | r <= LastCommitted(s') && ReceivedAt(s', x, r) ensures x in s'.received {
      ReceivedWas(s, s', x, r);
    }
  }

  lemma {:induction false} RoundsNotNegative(s: State)
    requires Based(s.dag) && Table(s)
    ensures forall x :: x in s.round ==> 0 <= s.round[x]
  {
    hide WellFormed, EntryOk;
  }

  lemma {:induction false} PendingStays(s: State, s': State)
    requires WellFormed(s.dag) && Stable(s) && Fixed(s, s')
    requires forall k :: 0 <= k < |s'.pending| && s'.pending[k].decided ==>
               k < |s.pending| && s'.pending[k] == s.pending[k]
    ensures forall k :: 0 <= k < |s'.pending| && s'.pending[k].decided ==> Decided(s', s'.pending[k].index)
  {
    hide WellFormed, Decided, ReceivedAt;
  }

  lemma {:induction false} InsertStable(s: State, h: Hash, e: Event)
    requires Sound(s) && Stable(s) && Fresh(s.dag, h, e) && Insert(s.dag, h, e).Ok?
    ensures WellFormed(InsertedState(s, h, e).dag) && Stable(InsertedState(s, h, e))
  {
    hide Table, Divided, Queue, Committed, Ledger, Remaining, Fresh, LastEventFrom, OtherParentFound, Stable;
    hide ReceivedAt, EventOk, LogOk;
    var s' := InsertedState(s, h, e);
    InsertOnward(s, h, e);
    RoundsNotNegative(s);
    PendingStays(s, s');
    ReceivedHasRound(s');
    StableOnward(s, s');
  }

  lemma {:induction false} ReceivedHasRound(s: State)
    requires WellFormed(s.dag)
    ensures forall x, r :: ReceivedAt(s, x, r) ==> x in s.round
  {
    hide WellFormed, Decided, AllSee;
  }

  // ---------------------------------------------------------------- DivideRounds

  /** Rows only gain entries, the queue only gains undecided rounds. */
  ghost predicate DividedMore(s: State, s': State) {
    && s'.dag == s.dag && s'.received == s.received && s'.frames == s.frames
    && s'.lastConsensusRound == s.lastConsensusRound
    && (forall h :: h in s.round ==> h in s'.round && s'.round[h] == s.round[h])
    && (forall r :: r in s.rounds ==> r in s'.rounds)
    && (forall r, h :: r in s.rounds && h in s.rounds[r].events ==>
          h in s'.rounds[r].events && s'.rounds[r].events[h] == s.rounds[r].events[h])
    && (forall k :: 0 <= k < |s'.pending| && s'.pending[k].decided ==>
          k < |s.pending| && s'.pending[k] == s.pending[k])
  }

  lemma {:induction false} DivideOneMore(s: State, h: Hash)
    requires Based(s.dag) && Table(s) && h in s.dag.events && Next(s, h)
    ensures DividedMore(s, DivideOne(s, h))
  {
    hide WellFormed, Round, Witness, Lamport, EntryOk, Table, Next, RoundInfo.AddEvent, RowOf;
    DivideFacts(s, h);
    forall r, g | r in s.rounds && g in s.rounds[r].events
      ensures r in DivideOne(s, h).rounds && g in DivideOne(s, h).rounds[r].events &&
              DivideOne(s, h).rounds[r].events[g] == s.rounds[r].events[g]
    {
      EntryKept(s, h, r, g);
    }
  }

  lemma {:induction false} DividedMoreTrans(s: State, t: State, u: State)
    requires DividedMore(s, t) && DividedMore(t, u)
    ensures DividedMore(s, u)
  {
  }

  lemma {:induction false} DivideListMore(s: State, list: seq<Hash>)
    requires Sound(s) && Covers(s, list)
    ensures DividedMore(s, DivideList(s, list))
    decreases |list|
  {
    hide WellFormed, Round, Witness, Lamport, Table, Queue, Committed, Ledger, Remaining, Next, Divided, DividedState;
    if list != [] {
      hide DividedMore;
      CoversNext(s, list);
      if list[0] in s.round {
        DivideListMore(s, list[1..]);
      } else {
        var t := DivideOne(s, list[0]);
        DivideSound(s, list[0]);
        DivideKeepsDag(s, list[0]);
        DivideOneMore(s, list[0]);
        DivideListMore(t, list[1..]);
        DividedMoreTrans(s, t, DivideList(t, list[1..]));
      }
    }
  }

  lemma {:induction false} DivideFixed(s: State, s': State)
    requires DividedMore(s, s') && NoNewWitnesses(s, s')
    ensures Fixed(s, s')
  {
    forall r | Decided(s, r)
      ensures Decided(s', r) && s'.rounds[r].FamousWitnesses() == s.rounds[r].FamousWitnesses()
    {
      RowFixed(s.rounds[r], s'.rounds[r]);
    }
  }

  lemma {:induction false} RowFixed(a: RoundInfo, b: RoundInfo)
    requires forall h :: h in a.events ==> h in b.events && b.events[h] == a.events[h]
    requires b.Witnesses() == a.Witnesses() && a.WitnessesDecided()
    ensures b.WitnessesDecided() && b.FamousWitnesses() == a.FamousWitnesses()
  {
    assert forall h :: h in b.events && b.events[h].isWitness ==> h in b.Witnesses();
    assert forall h :: h in a.Witnesses() ==> h in a.events;
  }

  /** Famous witnesses of an old round see only old events. */
  lemma {:induction false} SeenAreDivided(s: State, s': State, x: Hash, r: int)
    requires Based(s.dag) && Divided(s) && Table(s) && DividedMore(s, s') && Fixed(s, s') && Decided(s, r)
    requires AllSee(s', x, r) && x in s.dag.events
    ensures x in s.round
  {
    hide WellFormed, Table, Reach, Round, Lamport;
    var w :| w in s'.rounds[r].FamousWitnesses();
    FamousKnown(s, r, w);
    if x != w {
      ReachRank(s.dag, w, x);
    }
  }

  lemma {:induction false} DivideOnward(s: State, s': State)
    requires Based(s.dag) && Table(s) && DividedMore(s, s')
    ensures Onward(s, s')
  {
    hide WellFormed, Table;
  }

  /** DivideRounds keeps receptions when decided rounds gain no witness. */
  lemma {:induction false} DivideStable(s: State, s': State)
    requires Sound(s) && Stable(s) && Sound(s') && DividedMore(s, s') && NoNewWitnesses(s, s')
    ensures Stable(s')
  {
    hide EventOk, LogOk, Table, Divided, Queue, Committed, Ledger, Remaining, NoNewWitnesses;
    DivideFixed(s, s');
    DivideOnward(s, s');
    RoundsNotNegative(s);
    PendingStays(s, s');
    forall x, r | r <= LastCommitted(s) && ReceivedAt(s', x, r) ensures x in s.round {
      NotBelowZero(s', x, r);
      RoundIsOfEvent(s', x);
      SeenAreDivided(s, s', x, r);
    }
    hide ReceivedAt;
    StableOnward(s, s');
  }

  lemma {:induction false} NotBelowZero(s: State, x: Hash, r: int)
    requires Based(s.dag) && Table(s) && ReceivedAt(s, x, r)
    ensures 0 <= r
  {
    hide WellFormed, Decided, AllSee;
    RoundsNotNegative(s);
  }

  lemma {:induction false} RoundIsOfEvent(s: State, x: Hash)
    requires Based(s.dag) && Divided(s) && x in s.round
    ensures x in s.dag.events
  {
    hide WellFormed;
  }

  // ---------------------------------------------------------------- DecideFame

  lemma {:induction false} RowKeepsFame(a: RoundInfo, b: RoundInfo)
    requires RowRefamed(a, b) && a.WitnessesDecided()
    ensures b == a
  {
    assert forall x :: x in a.events ==> b.events[x] == a.events[x];
    assert a.events == b.events;
  }

  lemma {:induction false} FameFixed(s: State, s': State)
    requires Based(s.dag) && FameStep(s, s')
    ensures Fixed(s, s')
  {
    hide WellFormed, RowRefamed, RowJustified, RowComplete, RoundInfo.WitnessesDecided;
    forall r | Decided(s, r)
      ensures Decided(s', r) && s'.rounds[r].FamousWitnesses() == s.rounds[r].FamousWitnesses()
    {
      RowKeepsFame(s.rounds[r], s'.rounds[r]);
    }
  }

  lemma {:induction false} FamePending(s: State, s': State)
    requires Based(s.dag) && FameStep(s, s') && Fixed(s, s') && Stable(s)
    ensures forall k :: 0 <= k < |s'.pending| && s'.pending[k].decided ==> Decided(s', s'.pending[k].index)
  {
    hide WellFormed, RowRefamed, RowJustified, RowComplete, RoundInfo.WitnessesDecided, ReceivedAt;
  }

  lemma {:induction false} FameOnward(s: State, s': State)
    requires Based(s.dag) && Table(s) && FameStep(s, s')
    ensures Onward(s, s') && s'.round == s.round && s'.received == s.received
    ensures s'.frames == s.frames && s'.lastConsensusRound == s.lastConsensusRound
  {
    hide WellFormed, Table, RowRefamed, RowJustified, RowComplete, RoundInfo.WitnessesDecided;
  }

  /** DecideFame keeps receptions. */
  lemma {:induction false} FameStable(s: State, s': State)
    requires Sound(s) && Stable(s) && FameStep(s, s')
    ensures WellFormed(s'.dag) && Stable(s')
  {
    hide EventOk, LogOk, Table, Divided, Queue, Committed, Ledger, Remaining, FameStep, Stable, ReceivedAt, Decided;
    FameFixed(s, s');
    FameOnward(s, s');
    FamePending(s, s');
    RoundsNotNegative(s);
    ReceivedHasRound(s');
    StableOnward(s, s');
  }

  // ---------------------------------------------------------------- DecideRoundReceived

  /** The table says the same about decisions, fame and receptions. */
  ghost predicate SameFame(s: State, s': State) {
    && s'.dag == s.dag && s'.round == s.round && s'.rounds.Keys == s.rounds.Keys
    && forall r :: r in s.rounds ==>
         && s'.rounds[r].FamousWitnesses() == s.rounds[r].FamousWitnesses()
         && (s'.rounds[r].WitnessesDecided() <==> s.rounds[r].WitnessesDecided())
  }

  lemma {:induction false} SameReceptions(s: State, s': State, x: Hash, i: int)
    requires WellFormed(s.dag) && SameFame(s, s')
    ensures ReceivedAt(s, x, i) <==> ReceivedAt(s', x, i)
  {
    hide WellFormed, Reach, RoundInfo.FamousWitnesses, RoundInfo.WitnessesDecided;
    assert forall k :: Decided(s, k) <==> Decided(s', k);
    assert forall k :: AllSee(s, x, k) <==> AllSee(s', x, k);
  }

  /** Events are received where the table puts them, and nothing else changes. */
  ghost predicate ReceivedMore(s: State, s': State)
    requires WellFormed(s.dag)
  {
    && SameFame(s, s')
    && s' == s.(rounds := s'.rounds, received := s'.received, undetermined := s'.undetermined)
    && (forall x :: x in s.received ==> x in s'.received && s'.received[x] == s.received[x])
    && (forall x :: x in s'.received && x !in s.received ==> ReceivedAt(s, x, s'.received[x]))
  }

  lemma {:induction false} ReceiveIfMore(s: State, x: Hash)
    requires Sound(s)
    ensures ReceivedMore(s, ReceiveIf(s, x))
    ensures IsReceivable(s, x) ==> x in ReceiveIf(s, x).received
  {
    hide WellFormed, Table, Divided, Queue, Committed, Ledger, Remaining, RoundInfo.SetConsensusEvent;
    hide RoundInfo.FamousWitnesses, RoundInfo.WitnessesDecided, RoundInfo.Witnesses;
    if x !in s.received && IsReceivable(s, x) {
      var i := ReceptionRound(s, x);
      forall r | r in s.rounds
        ensures ReceiveOne(s, x, i).rounds[r].FamousWitnesses() == s.rounds[r].FamousWitnesses()
        ensures ReceiveOne(s, x, i).rounds[r].WitnessesDecided() <==> s.rounds[r].WitnessesDecided()
      {
        ReceiveKeepsFame(s, x, i, r);
      }
    }
  }

  lemma {:induction false} ReceivedMoreTrans(s: State, t: State, u: State)
    requires WellFormed(s.dag) && ReceivedMore(s, t) && WellFormed(t.dag) && ReceivedMore(t, u)
    ensures ReceivedMore(s, u)
  {
    hide WellFormed, RoundInfo.FamousWitnesses, RoundInfo.WitnessesDecided, ReceivedAt;
    forall x | x in u.received && x !in s.received ensures ReceivedAt(s, x, u.received[x]) {
      SameReceptions(s, t, x, u.received[x]);
    }
  }

  lemma {:induction false} ReceiveListMore(s: State, list: seq<Hash>)
    requires Sound(s)
    ensures ReceivedMore(s, ReceiveList(s, list))
    ensures forall x :: x in list && IsReceivable(s, x) ==> x in ReceiveList(s, list).received
    decreases |list|
  {
    hide WellFormed, Table, Divided, Queue, Committed, Ledger, Remaining;
    if list != [] {
      hide ReceiveIf;
      var t := ReceiveIf(s, list[0]);
      ReceiveIfMore(s, list[0]);
      ReceiveIfSound(s, list[0]);
      hide Sound;
      ReceiveListMore(t, list[1..]);
      forall x | x in list && IsReceivable(s, x) ensures x in ReceiveList(s, list).received {
        var i := ReceptionRound(s, x);
        SameReceptions(s, t, x, i);
        assert IsReceivable(t, x);
        assert x == list[0] || x in list[1..];
      }
      ReceivedMoreTrans(s, t, ReceiveList(t, list[1..]));
    }
  }

  /** Everything the table receives is received. */
  ghost predicate Settled(s: State)
    requires WellFormed(s.dag)
  {
    forall x, i :: ReceivedAt(s, x, i) ==> x in s.received
  }

  /** DecideRoundReceived settles every reception. */
  lemma {:induction false} ReceiveSettles(s: State, s': State)
    requires Sound(s) && s' == ReceiveList(s, s.undetermined)
    ensures WellFormed(s.dag) && WellFormed(s'.dag) && ReceivedMore(s, s') && Settled(s')
  {
    hide EventOk, LogOk, Table, Queue, Committed, Ledger, Remaining, ReceiveList;
    ReceiveListMore(s, s.undetermined);
    UndeterminedExactly(s.dag, s.received.Keys);
    forall x, i | ReceivedAt(s', x, i) ensures x in s'.received && ReceivedAt(s, x, i) {
      SameReceptions(s, s', x, i);
      assert IsReceivable(s, x);
      assert x in s.received || x in s.undetermined;
    }
  }

  /** And keeps the old ones. */
  lemma {:induction false} ReceiveStable(s: State, s': State)
    requires Sound(s) && Stable(s) && s' == ReceiveList(s, s.undetermined)
    ensures WellFormed(s'.dag) && Stable(s') && Settled(s')
  {
    hide Sound, WellFormed, Stable, Settled, ReceiveList, ReceivedMore;
    ReceiveSettles(s, s');
    ReceiveStableParts(s, s');
  }

  lemma {:induction false} ReceiveStableParts(s: State, s': State)
    requires WellFormed(s.dag) && Stable(s) && ReceivedMore(s, s') && WellFormed(s'.dag) && Settled(s')
    ensures Stable(s')
  {
    hide WellFormed, AllSee, RoundInfo.FamousWitnesses, RoundInfo.WitnessesDecided;
    forall x | x in s'.received ensures ReceivedAt(s', x, s'.received[x]) {
      SameReceptions(s, s', x, s'.received[x]);
    }
    hide ReceivedAt;
    assert forall r :: Decided(s, r) <==> Decided(s', r);
  }

  // ---------------------------------------------------------------- ProcessDecidedRounds

  lemma {:induction false} SameFameCommitted(s: State, f: Frame)
    requires s.pending != [] && AllStored(s.dag, f.events)
    ensures SameFame(s, CommitOne(s, f))
  {
    hide Payload, LoadedCount;
  }

  lemma {:induction false} FrameComplete(s: State, r: int, f: Frame, x: Hash)
    requires Based(s.dag) && Table(s) && FrameOf(s, r, f) && x in s.received && s.received[x] == r
    ensures x in f.events
  {
    hide WellFormed, Witness, Verdict, Less;
    assert EntryOk(s, r, x);
  }

  lemma {:induction false} CommitStable(s: State, f: Frame)
    requires Sound(s) && Stable(s) && Settled(s) && s.pending != [] && s.pending[0].decided
    requires AllStored(s.dag, f.events) && FrameOf(s, s.pending[0].index, f)
    ensures WellFormed(CommitOne(s, f).dag) && Stable(CommitOne(s, f)) && Settled(CommitOne(s, f))
  {
    hide EventOk, LogOk, Table, Divided, Committed, Ledger, Remaining, Payload, LoadedCount, AllSee;
    hide RoundInfo.FamousWitnesses, RoundInfo.WitnessesDecided;
    var s' := CommitOne(s, f);
    FrameRound(s, f);
    HeadOfQueue(s);
    SameFameCommitted(s, f);
    forall x | x in s.received && s.received[x] == f.round ensures x in f.events {
      FrameComplete(s, f.round, f, x);
    }
    hide FrameOf, Queue;
    forall x, i ensures ReceivedAt(s, x, i) <==> ReceivedAt(s', x, i) {
      SameReceptions(s, s', x, i);
    }
    hide ReceivedAt;
    assert forall r :: Decided(s, r) <==> Decided(s', r);
  }

  lemma {:induction false} CommitsStable(s: State, s': State)
    requires Sound(s) && Stable(s) && Settled(s) && Commits(s, s')
    ensures WellFormed(s'.dag) && Stable(s')
    decreases |s.pending|
  {
    hide EventOk, LogOk, Table, Divided, Queue, Committed, Ledger, Remaining, Stable, Settled, FrameOf, CommitOne;
    if s.pending != [] && s.pending[0].decided {
      var f: Frame :| AllStored(s.dag, f.events) && FrameOf(s, s.pending[0].index, f) && Commits(CommitOne(s, f), s');
      CommitSound(s, f);
      CommitStable(s, f);
      QueueShrinks(s, f);
      hide Sound;
      CommitsStable(CommitOne(s, f), s');
    }
  }

  lemma {:induction false} QueueShrinks(s: State, f: Frame)
    requires s.pending != [] && AllStored(s.dag, f.events)
    ensures |CommitOne(s, f).pending| < |s.pending|
  {
    hide Payload, LoadedCount;
  }

  /** A whole RunConsensus keeps receptions when decided rounds gain no witness. */
  lemma {:induction false} PassesStable(s: State, s1: State, s2: State, s3: State, s': State)
    requires Sound(s) && Stable(s) && Passes(s, s1, s2, s3, s') && NoNewWitnesses(s, s1)
    ensures Sound(s') && Stable(s')
  {
    hide WellFormed, Table, Divided, Queue, Committed, Ledger, Remaining, FameStep, Commits, Stable, Settled;
    hide NoNewWitnesses, DivideList, ReceiveList;
    PassesSound(s, s1, s2, s3, s');
    UndeterminedCovers(s);
    DivideListMore(s, s.undetermined);
    DivideStable(s, s1);
    FameStable(s1, s2);
    ReceiveStable(s2, s3);
    CommitsStable(s3, s');
  }
}
