/** DecideFame and DecideRoundReceived as steps of the consensus state. */
module ConsensusDecide {
  import opened Dags
  import opened Rounds
  import opened Fame
  import opened Sorting
  import opened Consensus
  import opened ConsensusDivide

  // ---------------------------------------------------------------- DecideFame

  /** The row has the same events, and no settled fame is touched. */
  ghost predicate RowRefamed(a: RoundInfo, b: RoundInfo) {
    && a.queued == b.queued && a.events.Keys == b.events.Keys
    && forall x :: x in a.events ==>
         && b.events[x].consensus == a.events[x].consensus && b.events[x].isWitness == a.events[x].isWitness
         && (a.events[x].famous != Undefined || !a.events[x].isWitness ==> b.events[x] == a.events[x])
  }

  /** Nobody in a round before `j` decides about `x`. */
  ghost predicate UndecidedBefore(s: State, x: Hash, j: int)
    requires Based(s.dag)
  {
    forall y, v :: y in s.round && Ballot(s.dag, x, y) && Round(s.dag, y) < j ==> !Decides(s.dag, x, y, v)
  }

  /** Some witness in the table decides `v` about `x`, in the first round in which any does. */
  ghost predicate FirstVerdict(s: State, x: Hash, v: bool)
    requires Based(s.dag)
  {
    exists y :: y in s.round && Ballot(s.dag, x, y) && Decides(s.dag, x, y, v) && UndecidedBefore(s, x, Round(s.dag, y))
  }

  /** Fame is recorded only as the first witnesses in the table to decide it do. */
  ghost predicate RowJustified(s: State, a: RoundInfo, b: RoundInfo)
    requires Based(s.dag)
  {
    forall x :: x in a.events && x in b.events && a.events[x].famous == Undefined && b.events[x].famous != Undefined
      ==> FirstVerdict(s, x, b.events[x].famous == Yes)
  }

  lemma {:induction false} FirstIsVerdict(s: State, x: Hash, v: bool)
    requires Based(s.dag) && FirstVerdict(s, x, v)
    ensures Verdict(s, x, v)
  {
    hide Based, Decides, UndecidedBefore;
  }

  /** The first verdict is unique: it does not matter in which order the witnesses of a round are taken. */
  lemma {:induction false} FirstVerdictUnique(s: State, x: Hash, v: bool, u: bool)
    requires Based(s.dag) && OneWitnessPerCreator(s.dag) && FirstVerdict(s, x, v) && FirstVerdict(s, x, u)
    ensures v == u
  {
    hide Based, Round, Decides, OneWitnessPerCreator;
    var d := s.dag;
    var y :| y in s.round && Ballot(d, x, y) && Decides(d, x, y, v) && UndecidedBefore(s, x, Round(d, y));
    var z :| z in s.round && Ballot(d, x, z) && Decides(d, x, z, u) && UndecidedBefore(s, x, Round(d, z));
    SameRoundAgree(d, x, y, z, v, u);
  }

  /** No witness is left undefined that some witness in the table decides. */
  ghost predicate RowComplete(s: State, b: RoundInfo)
    requires Based(s.dag)
  {
    forall x, v :: x in b.events && b.events[x].isWitness && b.events[x].famous == Undefined ==> !Verdict(s, x, v)
  }

  /** Nothing but justified fame and the flags of the queue may differ. */
  ghost predicate Refamed(s: State, s': State)
    requires Based(s.dag)
  {
    && s' == s.(rounds := s'.rounds, pending := s'.pending)
    && s'.rounds.Keys == s.rounds.Keys
    && forall r :: r in s.rounds ==> RowRefamed(s.rounds[r], s'.rounds[r]) && RowJustified(s, s.rounds[r], s'.rounds[r])
  }

  /** DecideFame: in every round still in the queue, exactly the witnesses some
      witness decides are settled, as the first to decide do. */
  ghost predicate FameStep(s: State, s': State)
    requires Based(s.dag)
  {
    && Refamed(s, s')
    && (forall r :: r in s.rounds && r <= LastCommitted(s) ==> s'.rounds[r] == s.rounds[r])
    && (forall r :: r in s.rounds && r > LastCommitted(s) ==> RowComplete(s, s'.rounds[r]))
    && |s'.pending| == |s.pending|
    && forall k :: 0 <= k < |s.pending| ==>
         && s'.pending[k].index == s.pending[k].index && s.pending[k].index in s.rounds
         && (s'.pending[k].decided <==> s.pending[k].decided || s'.rounds[s.pending[k].index].WitnessesDecided())
  }

  lemma {:induction false} EntryRefamed(s: State, s': State, r: int, h: Hash)
    requires Based(s.dag) && Table(s) && Refamed(s, s') && r in s'.rounds && h in s'.rounds[r].events
    ensures EntryOk(s', r, h)
  {
    hide WellFormed, Witness, Verdict, FirstVerdict, RowComplete, RoundInfo.WitnessesDecided;
    assert EntryOk(s, r, h) && RowRefamed(s.rounds[r], s'.rounds[r]) && RowJustified(s, s.rounds[r], s'.rounds[r]);
    assert s'.dag == s.dag && s'.round == s.round && s'.received == s.received;
    var v := s'.rounds[r].events[h].famous == Yes;
    if s'.rounds[r].events[h].famous != Undefined {
      if s.rounds[r].events[h].famous == Undefined {
        FirstIsVerdict(s, h, v);
      }
      VerdictKept(s, s', h, v);
    }
  }

  lemma {:induction false} TableRefamed(s: State, s': State)
    requires Based(s.dag) && Table(s) && Refamed(s, s')
    ensures Table(s')
  {
    hide WellFormed, EntryOk, RowJustified, RowComplete, RoundInfo.WitnessesDecided, RoundInfo.Witnesses;
    forall r, h | r in s'.rounds && h in s'.rounds[r].events ensures EntryOk(s', r, h) {
      EntryRefamed(s, s', r, h);
    }
    forall r | r in s.rounds
      ensures s'.rounds[r].queued == s.rounds[r].queued && s'.rounds[r].events.Keys == s.rounds[r].events.Keys
      ensures s'.rounds[r].Witnesses() == s.rounds[r].Witnesses()
    {
      assert RowRefamed(s.rounds[r], s'.rounds[r]);
      RefamedWitnesses(s.rounds[r], s'.rounds[r]);
    }
  }

  lemma {:induction false} RefamedWitnesses(a: RoundInfo, b: RoundInfo)
    requires RowRefamed(a, b)
    ensures b.Witnesses() == a.Witnesses()
  {
    assert forall x :: x in a.events <==> x in b.events;
  }

  lemma {:induction false} QueueRefamed(s: State, s': State)
    requires Based(s.dag) && Queue(s) && FameStep(s, s')
    ensures Queue(s')
  {
    hide WellFormed, RowRefamed, RowJustified, RowComplete, RoundInfo.WitnessesDecided;
  }

  /** DecideFame keeps the state sound. */
  lemma {:induction false} FameSound(s: State, s': State)
    requires Sound(s) && FameStep(s, s')
    ensures Sound(s')
  {
    hide WellFormed, Table, Queue, Committed, Ledger, Remaining, Divided;
    TableRefamed(s, s');
    QueueRefamed(s, s');
    hide RowRefamed, RowJustified, RowComplete, RoundInfo.WitnessesDecided;
    CommittedKept(s, s');
    DividedSame(s, s');
  }

  /** What DecideFame does is determined, although it enumerates witnesses from maps. */
  lemma {:induction false} FameDetermined(s: State, a: State, b: State)
    requires Based(s.dag) && OneWitnessPerCreator(s.dag) && FameStep(s, a) && FameStep(s, b)
    ensures a == b
  {
    hide WellFormed, OneWitnessPerCreator, RowRefamed, RowJustified, RowComplete, RoundInfo.WitnessesDecided;
    forall r | r in s.rounds ensures a.rounds[r] == b.rounds[r] {
      if r > LastCommitted(s) {
        RowDetermined(s, s.rounds[r], a.rounds[r], b.rounds[r]);
      }
    }
    assert a.rounds == b.rounds;
    assert a.pending == b.pending;
  }

  lemma {:induction false} RowDetermined(s: State, row: RoundInfo, a: RoundInfo, b: RoundInfo)
    requires Based(s.dag) && OneWitnessPerCreator(s.dag)
    requires RowRefamed(row, a) && RowJustified(s, row, a) && RowComplete(s, a)
    requires RowRefamed(row, b) && RowJustified(s, row, b) && RowComplete(s, b)
    ensures a == b
  {
    hide WellFormed, OneWitnessPerCreator, FirstVerdict, Verdict;
    forall x | x in row.events ensures a.events[x] == b.events[x] {
      if row.events[x].famous == Undefined && row.events[x].isWitness {
        SettledAlike(s, row, a, b, x);
      }
    }
    assert a.events == b.events;
  }

  lemma {:induction false} SettledAlike(s: State, row: RoundInfo, a: RoundInfo, b: RoundInfo, x: Hash)
    requires Based(s.dag) && OneWitnessPerCreator(s.dag)
    requires RowRefamed(row, a) && RowJustified(s, row, a) && RowComplete(s, a)
    requires RowRefamed(row, b) && RowJustified(s, row, b) && RowComplete(s, b)
    requires x in row.events && row.events[x].famous == Undefined && row.events[x].isWitness
    ensures x in a.events && x in b.events && a.events[x].famous == b.events[x].famous
  {
    hide WellFormed, OneWitnessPerCreator, FirstVerdict, Verdict;
    var v, u := a.events[x].famous == Yes, b.events[x].famous == Yes;
    if a.events[x].famous != Undefined {
      FirstIsVerdict(s, x, v);
    }
    if b.events[x].famous != Undefined {
      FirstIsVerdict(s, x, u);
    }
    if a.events[x].famous != Undefined && b.events[x].famous != Undefined {
      FirstVerdictUnique(s, x, v, u);
    }
  }

  lemma {:induction false} DividedSame(s: State, s': State)
    requires Based(s.dag) && Divided(s) && s'.dag == s.dag && s'.round == s.round && s'.lamport == s.lamport
    ensures Divided(s')
  {
    hide WellFormed, Round, Lamport;
  }

  // ---------------------------------------------------------------- DecideRoundReceived

  ghost predicate Decided(s: State, r: int) {
    r in s.rounds && s.rounds[r].WitnessesDecided()
  }

  /** Round `r` has famous witnesses and all of them see `x`. */
  ghost predicate AllSee(s: State, x: Hash, r: int)
    requires WellFormed(s.dag)
  {
    && r in s.rounds
    && s.rounds[r].FamousWitnesses() != {}
    && forall w :: w in s.rounds[r].FamousWitnesses() ==> Reach(s.dag, w, x)
  }

  /** `i` is the first round after that of `x` whose famous witnesses all see `x`, and every round up to it is
      decided. */
  ghost predicate ReceivedAt(s: State, x: Hash, i: int)
    requires WellFormed(s.dag)
  {
    && x in s.round && s.round[x] < i
    && (forall k :: s.round[x] < k <= i ==> Decided(s, k))
    && AllSee(s, x, i)
    && (forall k :: s.round[x] < k < i ==> !AllSee(s, x, k))
  }

  lemma {:induction false} ReceivedOnce(s: State, x: Hash, i: int, j: int)
    requires WellFormed(s.dag) && ReceivedAt(s, x, i) && ReceivedAt(s, x, j)
    ensures i == j
  {
    hide WellFormed, AllSee, Decided;
  }

  /** `x` is received in round `i`. */
  function ReceiveOne(s: State, x: Hash, i: int): State
    requires i in s.rounds
  {
    var received := s.received[x := i];
    s.(rounds := s.rounds[i := s.rounds[i].SetConsensusEvent(x)],
       received := received,
       undetermined := Remaining(s.dag.order, received.Keys))
  }

  ghost predicate Receivable(s: State, x: Hash, i: int) {
    x in s.round && x !in s.received && s.round[x] < i && i in s.rounds
  }

  /** What ReceiveOne changes in the table: one consensus flag. */
  lemma {:induction false} ReceiveFacts(s: State, x: Hash, i: int)
    requires Based(s.dag) && Table(s) && Receivable(s, x, i)
    ensures var s' := ReceiveOne(s, x, i);
            && s'.dag == s.dag && s'.round == s.round && s'.received == s.received[x := i]
            && s'.rounds.Keys == s.rounds.Keys && s'.lastRound == s.lastRound
            && x !in s.rounds[i].events
            && s'.rounds[i] ==
               RoundInfo(s.rounds[i].events[x := RoundEvent(true, false, Undefined)], s.rounds[i].queued)
            && (forall q :: q in s.rounds && q != i ==> s'.rounds[q] == s.rounds[q])
  {
    hide WellFormed, Witness, Verdict;
    assert x in s.rounds[i].events ==> EntryOk(s, i, x);
  }

  /** Receiving an event moves no witness and no fame. */
  lemma {:induction false} ReceiveKeepsFame(s: State, x: Hash, i: int, r: int)
    requires Based(s.dag) && Table(s) && Receivable(s, x, i) && r in s.rounds
    ensures var s' := ReceiveOne(s, x, i);
            && s'.rounds[r].FamousWitnesses() == s.rounds[r].FamousWitnesses()
            && s'.rounds[r].Witnesses() == s.rounds[r].Witnesses()
            && (s'.rounds[r].WitnessesDecided() <==> s.rounds[r].WitnessesDecided())
  {
    hide Based, WellFormed, Table, ReceiveOne;
    ReceiveFacts(s, x, i);
    var a, b := s.rounds[r], ReceiveOne(s, x, i).rounds[r];
    if r == i {
      assert forall w :: w in a.events ==> w in b.events && b.events[w] == a.events[w];
      assert forall w :: w in b.events && b.events[w].isWitness ==> w in a.events;
    }
  }

  lemma {:induction false} OldEntryReceived(s: State, x: Hash, i: int, r: int, h: Hash)
    requires Based(s.dag) && Table(s) && Receivable(s, x, i)
    requires r in s.rounds && h in s.rounds[r].events && !(r == i && h == x)
    ensures h in ReceiveOne(s, x, i).rounds[r].events && EntryOk(ReceiveOne(s, x, i), r, h)
  {
    hide WellFormed, Witness, Verdict, ReceiveOne, Table;
    ReceiveFacts(s, x, i);
    TableEntry(s, r, h);
    var s' := ReceiveOne(s, x, i);
    if s'.rounds[r].events[h].famous != Undefined {
      VerdictKept(s, s', h, s'.rounds[r].events[h].famous == Yes);
    }
  }

  lemma {:induction false} EntryReceived(s: State, x: Hash, i: int, r: int, h: Hash)
    requires Based(s.dag) && Table(s) && Receivable(s, x, i)
    requires r in s.rounds && h in ReceiveOne(s, x, i).rounds[r].events && x in s.dag.events
    ensures EntryOk(ReceiveOne(s, x, i), r, h)
  {
    hide WellFormed, Witness, Verdict, ReceiveOne, Table;
    ReceiveFacts(s, x, i);
    if !(r == i && h == x) {
      hide EntryOk;
      OldEntryReceived(s, x, i, r, h);
    }
  }

  lemma {:induction false} TableReceived(s: State, x: Hash, i: int)
    requires Based(s.dag) && Table(s) && Receivable(s, x, i) && x in s.dag.events
    ensures Table(ReceiveOne(s, x, i))
  {
    hide WellFormed, EntryOk, ReceiveOne, RoundInfo.Witnesses;
    var s' := ReceiveOne(s, x, i);
    ReceiveFacts(s, x, i);
    assert forall r :: r in s'.rounds <==> r in s.rounds;
    forall r | r in s'.rounds ensures s'.rounds[r].queued {
      assert r == i || s'.rounds[r] == s.rounds[r];
    }
    forall r | r in s'.rounds ensures s'.rounds[r].Witnesses() == s.rounds[r].Witnesses() {
      ReceiveKeepsFame(s, x, i, r);
    }
    forall h | h in s'.round ensures s'.round[h] in s'.rounds && h in s'.rounds[s'.round[h]].events {
      RowReceived(s, x, i, s.round[h], h);
    }
    forall h | h in s'.received ensures h in s'.round && s'.round[h] < s'.received[h] <= s'.lastRound &&
                                        s'.received[h] in s'.rounds && h in s'.rounds[s'.received[h]].events {
      if h != x {
        RowReceived(s, x, i, s.received[h], h);
      }
    }
    forall r, h | r in s'.rounds && h in s'.rounds[r].events ensures EntryOk(s', r, h) {
      EntryReceived(s, x, i, r, h);
    }
  }

  lemma {:induction false} RowReceived(s: State, x: Hash, i: int, r: int, h: Hash)
    requires Based(s.dag) && Table(s) && Receivable(s, x, i) && r in s.rounds && h in s.rounds[r].events
    ensures r in ReceiveOne(s, x, i).rounds && h in ReceiveOne(s, x, i).rounds[r].events
  {
    hide WellFormed, Table, ReceiveOne;
    ReceiveFacts(s, x, i);
    assert r in ReceiveOne(s, x, i).rounds.Keys;
  }

  lemma {:induction false} CommittedReceived(s: State, x: Hash, i: int)
    requires Committed(s) && Ledger(s) && x !in s.received && i in s.rounds
    ensures Committed(ReceiveOne(s, x, i)) && Ledger(ReceiveOne(s, x, i))
  {
    hide Less, Payload, LoadedCount, BlockPayload, FrameEvents, BlocksFor, Remaining;
    var s' := ReceiveOne(s, x, i);
    forall r | r in s'.frames ensures FrameSound(s', r) {
      assert FrameSound(s, r);
    }
    forall k | 0 <= k < |s'.blocks| ensures BlockSound(s', k) {
      assert BlockSound(s, k);
    }
  }

  /** One reception keeps the state sound. */
  lemma {:induction false} ReceiveSound(s: State, x: Hash, i: int)
    requires Sound(s) && Receivable(s, x, i)
    ensures Sound(ReceiveOne(s, x, i))
  {
    hide WellFormed, Table, Queue, Committed, Ledger, Remaining, RoundInfo.SetConsensusEvent;
    assert x in s.dag.events;
    hide Divided;
    TableReceived(s, x, i);
    CommittedReceived(s, x, i);
    DividedSame(s, ReceiveOne(s, x, i));
    QueueSame(s, ReceiveOne(s, x, i));
  }

  lemma {:induction false} QueueSame(s: State, s': State)
    requires Queue(s) && s'.pending == s.pending && s'.lastRound == s.lastRound
    requires s'.lastConsensusRound == s.lastConsensusRound
    ensures Queue(s')
  {
  }
}
