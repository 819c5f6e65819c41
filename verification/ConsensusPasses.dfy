/** RunConsensus as one step of the consensus state: the passes in their fixed order. */
module ConsensusPasses {
  import opened Dags
  import opened Rounds
  import opened Consensus
  import opened ConsensusDivide
  import opened ConsensusDecide
  import opened ConsensusCommit

  // ---------------------------------------------------------------- undetermined events

  /** `list` is in insertion order. */
  ghost predicate InOrder(d: Dag, list: seq<Hash>) {
    && AllStored(d, list)
    && forall i, j :: 0 <= i < j < |list| ==> Rank(d, list[i]) < Rank(d, list[j])
  }

  lemma {:induction false} RemainingPrefix(d: Dag, n: nat, gone: set<Hash>)
    requires WellFormed(d) && n <= |d.order|
    ensures var list := Remaining(d.order[..n], gone);
            && InOrder(d, list)
            && (forall i :: 0 <= i < |list| ==> Rank(d, list[i]) <= n)
            && (forall h :: h in list <==> h in d.events && Rank(d, h) <= n && h !in gone)
  {
    hide WellFormed;
    if n > 0 {
      RemainingPrefix(d, n - 1, gone);
      assert d.order[..n][..n - 1] == d.order[..n - 1];
      var last := d.order[n - 1];
      RankOfOrder(d, n - 1);
      forall h | h in d.events && Rank(d, h) == n ensures h == last {
        OrderOfRank(d, h);
      }
      RemainingNext(d, n, gone);
    } else {
      forall h | h in d.events ensures Rank(d, h) > 0 {
        OrderOfRank(d, h);
      }
    }
  }

  lemma {:induction false} RemainingNext(d: Dag, n: nat, gone: set<Hash>)
    requires 0 < n <= |d.order|
    ensures Remaining(d.order[..n], gone) ==
            Remaining(d.order[..n - 1], gone) + if d.order[n - 1] in gone then [] else [d.order[n - 1]]
  {
    assert d.order[..n][..n - 1] == d.order[..n - 1];
  }

  lemma {:induction false} RankOfOrder(d: Dag, i: nat)
    requires WellFormed(d) && i < |d.order|
    ensures d.order[i] in d.events && Rank(d, d.order[i]) == i + 1
  {
  }

  lemma {:induction false} OrderOfRank(d: Dag, h: Hash)
    requires WellFormed(d) && h in d.events
    ensures 0 < Rank(d, h) <= |d.order| && d.order[Rank(d, h) - 1] == h
  {
    assert EventOk(d, h);
  }

  /** The undetermined events are the events not yet received, oldest first. */
  lemma {:induction false} UndeterminedExactly(d: Dag, gone: set<Hash>)
    requires WellFormed(d)
    ensures InOrder(d, Remaining(d.order, gone))
    ensures forall h :: h in Remaining(d.order, gone) <==> h in d.events && h !in gone
  {
    RemainingPrefix(d, |d.order|, gone);
    assert d.order[..|d.order|] == d.order;
    forall h | h in d.events ensures Rank(d, h) <= |d.order| {
      OrderOfRank(d, h);
    }
  }

  // ---------------------------------------------------------------- DivideRounds

  /** DivideRounds over a list of events: those that already have a round are passed over. */
  ghost function DivideList(s: State, list: seq<Hash>): State
    requires Based(s.dag) && AllStored(s.dag, list)
    decreases |list|
  {
    if list == [] then s
    else
      assert list[0] in s.dag.events;
      DivideList(if list[0] in s.round then s else DivideOne(s, list[0]), list[1..])
  }

  ghost predicate Covers(s: State, list: seq<Hash>) {
    InOrder(s.dag, list) && forall g :: g in s.dag.events ==> g in s.round || g in list
  }

  lemma {:induction false} CoversNext(s: State, list: seq<Hash>)
    requires Based(s.dag) && Covers(s, list) && list != []
    ensures list[0] in s.dag.events
    ensures list[0] !in s.round ==> Next(s, list[0])
    ensures list[0] in s.round ==> Covers(s, list[1..])
    ensures list[0] !in s.round ==> Covers(DivideOne(s, list[0]), list[1..])
  {
    hide WellFormed, Round, Witness, Lamport, DividedState, Rank;
    assert forall g :: g in list ==> Rank(s.dag, list[0]) <= Rank(s.dag, g);
    assert forall g :: g in list ==> g == list[0] || g in list[1..];
    DivideRounded(s, list[0]);
  }

  lemma {:induction false} DivideRounded(s: State, h: Hash)
    requires Based(s.dag) && h in s.dag.events
    ensures DivideOne(s, h).dag == s.dag && DivideOne(s, h).round.Keys == s.round.Keys + {h}
  {
    hide Round, Witness, Lamport, Enqueues, RowOf;
  }

  /** DivideRounds keeps the state sound and leaves no event without a round. */
  lemma {:induction false} DivideListSound(s: State, list: seq<Hash>)
    requires Sound(s) && Covers(s, list)
    ensures Sound(DivideList(s, list))
    ensures DivideList(s, list).round.Keys == s.dag.events.Keys
    decreases |list|
  {
    hide WellFormed, Round, Witness, Lamport, Table, Queue, Committed, Ledger, Remaining, Next, DividedState;
    if list == [] {
      assert forall g :: g in s.dag.events <==> g in s.round;
    } else {
      hide Divided;
      CoversNext(s, list);
      if list[0] in s.round {
        DivideListSound(s, list[1..]);
      } else {
        DivideSound(s, list[0]);
        DivideKeepsDag(s, list[0]);
        DivideListSound(DivideOne(s, list[0]), list[1..]);
      }
    }
  }

  lemma {:induction false} DivideKeepsDag(s: State, h: Hash)
    requires Based(s.dag) && h in s.dag.events
    ensures DivideOne(s, h).dag == s.dag
  {
    hide Round, Witness, Lamport, Enqueues, RowOf;
  }

  lemma {:induction false} UndeterminedCovers(s: State)
    requires Sound(s)
    ensures Covers(s, s.undetermined)
  {
    hide WellFormed, Queue, Committed, Ledger, Remaining, EntryOk;
    UndeterminedExactly(s.dag, s.received.Keys);
  }

  // ---------------------------------------------------------------- DecideRoundReceived

  ghost predicate IsReceivable(s: State, x: Hash)
    requires WellFormed(s.dag)
  {
    exists i :: ReceivedAt(s, x, i)
  }

  ghost function ReceptionRound(s: State, x: Hash): (i: int)
    requires WellFormed(s.dag) && IsReceivable(s, x)
    ensures ReceivedAt(s, x, i)
  {
    var i :| ReceivedAt(s, x, i);
    i
  }

  /** DecideRoundReceived on one event. */
  ghost function ReceiveIf(s: State, x: Hash): State
    requires WellFormed(s.dag)
  {
    if x !in s.received && IsReceivable(s, x) then ReceiveOne(s, x, ReceptionRound(s, x)) else s
  }

  ghost function ReceiveList(s: State, list: seq<Hash>): State
    requires WellFormed(s.dag)
    decreases |list|
  {
    if list == [] then s
    else ReceiveList(ReceiveIf(s, list[0]), list[1..])
  }

  lemma {:induction false} ReceiveIfSound(s: State, x: Hash)
    requires Sound(s)
    ensures Sound(ReceiveIf(s, x)) && ReceiveIf(s, x).dag == s.dag
  {
    hide WellFormed, Table, Queue, Committed, Ledger, Remaining, Divided;
    if x !in s.received && IsReceivable(s, x) {
      hide Decided;
      ReceiveSound(s, x, ReceptionRound(s, x));
    }
  }

  lemma {:induction false} ReceiveListSound(s: State, list: seq<Hash>)
    requires Sound(s)
    ensures Sound(ReceiveList(s, list))
    decreases |list|
  {
    if list != [] {
      ReceiveIfSound(s, list[0]);
      hide Sound, ReceiveIf, WellFormed;
      ReceiveListSound(ReceiveIf(s, list[0]), list[1..]);
    }
  }

  // ---------------------------------------------------------------- ProcessDecidedRounds

  /** Decided rounds are committed from the head of the queue until one is not decided. */
  ghost predicate Commits(s: State, s': State)
    decreases |s.pending|
  {
    if s.pending == [] || !s.pending[0].decided then s' == s
    else exists f: Frame :: AllStored(s.dag, f.events) && FrameOf(s, s.pending[0].index, f)
           && Commits(CommitOne(s, f), s')
  }

  lemma {:induction false} CommitsSound(s: State, s': State)
    requires Sound(s) && Commits(s, s')
    ensures Sound(s')
    decreases |s.pending|
  {
    hide Sound, FrameOf;
    if s.pending != [] && s.pending[0].decided {
      var f: Frame :| AllStored(s.dag, f.events) && FrameOf(s, s.pending[0].index, f) && Commits(CommitOne(s, f), s');
      CommitSound(s, f);
      CommitsSound(CommitOne(s, f), s');
    }
  }

  // ---------------------------------------------------------------- RunConsensus

  /** The passes of RunConsensus that change the consensus state, through the states between them. */
  ghost predicate Passes(s: State, s1: State, s2: State, s3: State, s': State) {
    && Based(s.dag) && AllStored(s.dag, s.undetermined) && s1 == DivideList(s, s.undetermined)
    && Based(s1.dag) && FameStep(s1, s2)
    && WellFormed(s2.dag) && s3 == ReceiveList(s2, s2.undetermined)
    && Commits(s3, s')
  }

  /** A whole RunConsensus keeps the state sound. */
  lemma {:induction false} PassesSound(s: State, s1: State, s2: State, s3: State, s': State)
    requires Sound(s) && Passes(s, s1, s2, s3, s')
    ensures Sound(s1) && Sound(s2) && Sound(s3) && Sound(s')
    ensures s1.round.Keys == s.dag.events.Keys
  {
    hide Sound, WellFormed, FameStep, Commits, Remaining;
    UndeterminedCovers(s);
    DivideListSound(s, s.undetermined);
    FameSound(s1, s2);
    ReceiveListSound(s2, s2.undetermined);
    CommitsSound(s3, s');
  }
}
