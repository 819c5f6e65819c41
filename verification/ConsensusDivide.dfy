/** DivideRounds, one event at a time. */
module ConsensusDivide {
  import opened Dags
  import opened Rounds
  import opened Fame
  import opened Sorting
  import opened Consensus

  /** The row the event goes into, and whether its round has to be queued. */
  function RowOf(s: State, r: int): RoundInfo {
    if r in s.rounds then s.rounds[r] else NEW_ROUND
  }

  predicate Enqueues(s: State, r: int) {
    !RowOf(s, r).queued && (s.lastConsensusRound == None || r >= s.lastConsensusRound.value)
  }

  /** The state after event `h` is given round `r`, witness flag `w` and timestamp `t`. */
  function DividedState(s: State, h: Hash, r: int, w: bool, t: int): State {
    var row := RowOf(s, r);
    var row' := row.(queued := row.queued || Enqueues(s, r)).AddEvent(h, w);
    s.(rounds := s.rounds[r := row'],
       lastRound := Max(s.lastRound, r),
       round := s.round[h := r],
       lamport := s.lamport[h := t],
       pending := s.pending + if Enqueues(s, r) then [Pending(r, false)] else [])
  }

  /** `h` is the oldest event without a round. */
  ghost predicate Next(s: State, h: Hash) {
    && h in s.dag.events && h !in s.round
    && forall g :: g in s.dag.events && Rank(s.dag, g) < Rank(s.dag, h) ==> g in s.round
  }

  ghost function DivideOne(s: State, h: Hash): State
    requires Based(s.dag) && h in s.dag.events
  {
    DividedState(s, h, Round(s.dag, h), Witness(s.dag, h), Lamport(s.dag, h))
  }

  /** An event opens at most the round after the last. */
  lemma {:induction false} RoundInReach(s: State, h: Hash)
    requires Based(s.dag) && Divided(s) && Table(s) && h in s.dag.events && Next(s, h)
    ensures 0 <= Round(s.dag, h) <= s.lastRound + 1
  {
    hide WellFormed, Round, EntryOk, EventOk, Reach;
    var d := s.dag;
    Parents(d, h);
    RoundStep(d, h);
    var e := d.events[h];
    RootParent(d, h);
    if e.selfParent in d.events {
      assert e.selfParent in s.round;
    } else {
      RootIsBelow(d, e.selfParent);
    }
    if e.otherParent != NoHash {
      assert e.otherParent in s.round;
    }
  }

  lemma {:induction false} RootIsBelow(d: Dag, x: Hash)
    requires Based(d) && Known(d, x) && x !in d.events
    ensures Round(d, x) == -1
  {
  }

  lemma {:induction false} DividedKept(s: State, h: Hash)
    requires Based(s.dag) && Divided(s) && h in s.dag.events && Next(s, h)
    ensures Divided(DivideOne(s, h))
  {
    hide WellFormed, Round, Witness, Lamport;
  }

  lemma {:induction false} VerdictKept(s: State, s': State, x: Hash, v: bool)
    requires Based(s.dag) && s'.dag == s.dag && s.round.Keys <= s'.round.Keys && Verdict(s, x, v)
    ensures Verdict(s', x, v)
  {
    hide WellFormed, Round, Decides;
  }

  lemma {:induction false} NotInTable(s: State, h: Hash, r: int)
    requires Based(s.dag) && Table(s) && h !in s.round && r in s.rounds
    ensures h !in s.rounds[r].events
  {
    hide Based, WellFormed, Witness, Verdict;
    assert h in s.rounds[r].events ==> EntryOk(s, r, h);
  }

  /** A row gains one entry, and the event its round. */
  lemma {:induction false} PlacedFacts(s: State, h: Hash, r: int, w: bool, t: int)
    requires h !in RowOf(s, r).events
    ensures var s' := DividedState(s, h, r, w, t);
            && s'.dag == s.dag && s'.received == s.received && s'.round == s.round[h := r]
            && r in s'.rounds && s'.rounds[r].events == RowOf(s, r).events[h := RoundEvent(false, w, Undefined)]
            && (forall q :: q != r ==> (q in s'.rounds <==> q in s.rounds))
            && (forall q :: q in s.rounds && q != r ==> s'.rounds[q] == s.rounds[q])
  {
    hide RowOf, Enqueues;
  }

  /** That is what DivideOne changes. */
  lemma {:induction false} DivideFacts(s: State, h: Hash)
    requires Based(s.dag) && Table(s) && h in s.dag.events && Next(s, h)
    ensures var r, s' := Round(s.dag, h), DivideOne(s, h);
            && s'.dag == s.dag && s'.received == s.received && s'.round == s.round[h := r] && h !in s.round
            && r in s'.rounds && h !in RowOf(s, r).events
            && s'.rounds[r].events == RowOf(s, r).events[h := RoundEvent(false, Witness(s.dag, h), Undefined)]
            && (forall q :: q != r ==> (q in s'.rounds <==> q in s.rounds))
            && (forall q :: q in s.rounds && q != r ==> s'.rounds[q] == s.rounds[q])
  {
    hide WellFormed, Round, Witness, Lamport, Table, EntryOk, DividedState;
    var r := Round(s.dag, h);
    if r in s.rounds {
      NotInTable(s, h, r);
    }
    PlacedFacts(s, h, r, Witness(s.dag, h), Lamport(s.dag, h));
  }

  lemma {:induction false} EntryKept(s: State, h: Hash, r: int, g: Hash)
    requires Based(s.dag) && Table(s) && h in s.dag.events && Next(s, h)
    requires r in s.rounds && g in s.rounds[r].events
    ensures var s' := DivideOne(s, h);
            r in s'.rounds && g in s'.rounds[r].events && s'.rounds[r].events[g] == s.rounds[r].events[g]
              && EntryOk(s', r, g)
  {
    hide WellFormed, Round, Witness, Lamport, Verdict, DivideOne, Next, RoundInfo.AddEvent, Table;
    TableEntry(s, r, g);
    DivideFacts(s, h);
    var s' := DivideOne(s, h);
    if s.rounds[r].events[g].famous != Undefined {
      VerdictKept(s, s', g, s.rounds[r].events[g].famous == Yes);
    }
  }

  lemma {:induction false} NewEntry(s: State, h: Hash)
    requires Based(s.dag) && Divided(s) && Table(s) && h in s.dag.events && Next(s, h)
    ensures var r, s' := Round(s.dag, h), DivideOne(s, h);
            r in s'.rounds && h in s'.rounds[r].events && EntryOk(s', r, h)
  {
    hide WellFormed, Round, Witness, Lamport, Verdict, DivideOne, Next, RoundInfo.AddEvent, Divided;
    assert h in s.received ==> h in s.round;
    hide Table;
    DivideFacts(s, h);
  }

  lemma {:induction false} RowsKept(s: State, h: Hash)
    requires Based(s.dag) && Divided(s) && Table(s) && Queue(s) && h in s.dag.events && Next(s, h)
    ensures var s' := DivideOne(s, h);
            && -1 <= s'.lastRound
            && (forall r :: r in s'.rounds <==> 0 <= r <= s'.lastRound)
            && (forall r :: r in s'.rounds ==> s'.rounds[r].queued)
            && (forall g :: g in s'.received ==> g in s'.round && s'.round[g] < s'.received[g] <= s'.lastRound)
  {
    hide WellFormed, Round, Witness, Lamport, EntryOk, Divided, RoundInfo.AddEvent;
    RoundInReach(s, h);
    RowQueued(s, h);
  }

  lemma {:induction false} RowQueued(s: State, h: Hash)
    requires Based(s.dag) && Divided(s) && Table(s) && Queue(s) && h in s.dag.events && Next(s, h)
    ensures DivideOne(s, h).rounds[Round(s.dag, h)].queued
  {
    hide WellFormed, Round, Witness, Lamport, EntryOk, Divided, Next;
    RoundInReach(s, h);
  }

  lemma {:induction false} EntriesKept(s: State, h: Hash)
    requires Based(s.dag) && Divided(s) && Table(s) && h in s.dag.events && Next(s, h)
    ensures var s' := DivideOne(s, h);
            forall q, g :: q in s'.rounds && g in s'.rounds[q].events ==> EntryOk(s', q, g)
  {
    hide WellFormed, Round, Witness, Lamport, EntryOk, Divided, Table, Next, DivideOne;
    var r := Round(s.dag, h);
    var s' := DivideOne(s, h);
    NewEntry(s, h);
    DivideFacts(s, h);
    forall q, g | q in s'.rounds && g in s'.rounds[q].events ensures EntryOk(s', q, g) {
      if !(q == r && g == h) {
        assert q in s.rounds && g in s.rounds[q].events;
        EntryKept(s, h, q, g);
      }
    }
  }

  lemma {:induction false} PlacesKept(s: State, h: Hash)
    requires Based(s.dag) && Divided(s) && Table(s) && h in s.dag.events && Next(s, h)
    ensures var s' := DivideOne(s, h);
            && (forall g :: g in s'.round ==> s'.round[g] in s'.rounds && g in s'.rounds[s'.round[g]].events)
            && (forall g :: g in s'.received ==> s'.received[g] in s'.rounds && g in s'.rounds[s'.received[g]].events)
  {
    hide WellFormed, Round, Witness, Lamport, EntryOk, Divided, Next, DivideOne;
    NewEntry(s, h);
    DivideFacts(s, h);
    var s' := DivideOne(s, h);
    forall g | g in s'.round ensures s'.round[g] in s'.rounds && g in s'.rounds[s'.round[g]].events {
      if g != h { EntryKept(s, h, s.round[g], g); }
    }
    forall g | g in s'.received ensures s'.received[g] in s'.rounds && g in s'.rounds[s'.received[g]].events {
      EntryKept(s, h, s.received[g], g);
    }
  }

  /** The new event's row has its creator's witness for the round in it. */
  lemma {:induction false} NewRowWitnessed(s: State, h: Hash)
    requires Based(s.dag) && Divided(s) && Table(s) && h in s.dag.events && Next(s, h)
    ensures var r, s' := Round(s.dag, h), DivideOne(s, h);
            r in s'.rounds && s'.rounds[r].Witnesses() != {}
  {
    hide WellFormed, Round, Witness, Lamport, Verdict, DivideOne, EventOk, Reach, Witnessed;
    var r, s' := Round(s.dag, h), DivideOne(s, h);
    var w := OwnWitness(s.dag, h);
    DivideFacts(s, h);
    if w != h {
      ReachRank(s.dag, h, w);
      assert w in s.round && s.round[w] == r;
      TableEntry(s, r, w);
      EntryKept(s, h, r, w);
    }
    assert w in s'.rounds[r].Witnesses();
  }

  lemma {:induction false} WitnessedKept(s: State, h: Hash)
    requires Based(s.dag) && Divided(s) && Table(s) && h in s.dag.events && Next(s, h)
    ensures Witnessed(DivideOne(s, h))
  {
    hide WellFormed, Round, Witness, Lamport, EntryOk, Divided, Next, DivideOne, RoundInfo.Witnesses;
    NewRowWitnessed(s, h);
    DivideFacts(s, h);
    var s' := DivideOne(s, h);
    forall r | r in s'.rounds ensures s'.rounds[r].Witnesses() != {} {
      assert r == Round(s.dag, h) || (r in s.rounds && s'.rounds[r] == s.rounds[r]);
    }
  }

  lemma {:induction false} TableKept(s: State, h: Hash)
    requires Based(s.dag) && Divided(s) && Table(s) && Queue(s) && h in s.dag.events && Next(s, h)
    ensures Table(DivideOne(s, h))
  {
    hide WellFormed, Round, Witness, Lamport, EntryOk, Divided, Next, DividedState, Queue, Witnessed;
    RowsKept(s, h);
    WitnessedKept(s, h);
    EntriesKept(s, h);
    PlacesKept(s, h);
  }

  lemma {:induction false} QueueKept(s: State, h: Hash)
    requires Based(s.dag) && Divided(s) && Table(s) && Queue(s) && h in s.dag.events && Next(s, h)
    ensures Queue(DivideOne(s, h))
  {
    hide WellFormed, Round, Witness, Lamport, EntryOk, Divided, Next;
    RoundInReach(s, h);
  }

  /** Frames and blocks do not depend on what is being divided. */
  lemma {:induction false} CommittedKept(s: State, s': State)
    requires Committed(s) && Ledger(s)
    requires s'.dag == s.dag && s'.received == s.received && s'.frames == s.frames && s'.consensus == s.consensus
    requires s'.blocks == s.blocks && s'.consensusTransactions == s.consensusTransactions
    requires s'.pendingLoaded == s.pendingLoaded && s'.lastConsensusRound == s.lastConsensusRound
    requires forall h :: h in s.lamport ==> h in s'.lamport && s'.lamport[h] == s.lamport[h]
    ensures Committed(s') && Ledger(s')
  {
    hide Less, Payload, LoadedCount, BlockPayload, FrameEvents, BlocksFor;
    forall r | r in s'.frames ensures FrameSound(s', r) {
      assert FrameSound(s, r);
    }
    forall i | 0 <= i < |s'.blocks| ensures BlockSound(s', i) {
      assert BlockSound(s, i);
    }
  }

  /** One step of DivideRounds keeps the state sound. */
  lemma {:induction false} DivideSound(s: State, h: Hash)
    requires Sound(s) && h in s.dag.events && Next(s, h)
    ensures Sound(DivideOne(s, h))
  {
    hide WellFormed, Round, Witness, Lamport, Divided, Table, Queue, Committed, Ledger, Remaining;
    DividedKept(s, h);
    TableKept(s, h);
    QueueKept(s, h);
    NotAgain(s, h);
    CommittedKept(s, DivideOne(s, h));
  }

  lemma {:induction false} NotAgain(s: State, h: Hash)
    requires Based(s.dag) && Divided(s) && h in s.dag.events && Next(s, h)
    ensures h !in s.lamport
  {
    hide WellFormed;
  }
}
