/** Inserting an event keeps the consensus state sound. */
module ConsensusInsert {
  import opened Dags
  import opened Rounds
  import opened Fame
  import opened Sorting
  import opened Consensus

  /** InsertEvent: the graph takes the event, which starts out undetermined. */
  function InsertedState(s: State, h: Hash, e: Event): State
    requires Insert(s.dag, h, e).Ok?
  {
    s.(dag := Insert(s.dag, h, e).value,
       undetermined := s.undetermined + [h],
       pendingLoaded := s.pendingLoaded + if IsLoaded(e) then 1 else 0)
  }

  /** `d'` holds all of `d` at the same places. */
  ghost predicate Grown(d: Dag, d': Dag) {
    && Based(d) && Based(d') && SubDag(d, d')
    && forall h :: h in d.events ==> h in d.topo && h in d'.topo && d'.topo[h] == d.topo[h]
  }

  lemma {:induction false} InsertGrows(d: Dag, h: Hash, e: Event)
    requires Based(d) && Fresh(d, h, e) && Insert(d, h, e).Ok?
    ensures Grown(d, Insert(d, h, e).value)
  {
    hide EventOk, LogOk;
    InsertKeeps(d, h, e);
  }

  lemma {:induction false} RoundGrows(d: Dag, d': Dag, h: Hash)
    requires Grown(d, d') && h in d.events
    ensures h in d'.events
    ensures Round(d, h) == Round(d', h) && Lamport(d, h) == Lamport(d', h)
    ensures Witness(d, h) <==> Witness(d', h)
  {
    hide WellFormed, Round, Witness, Lamport;
    RoundAgree(d, d', h);
    LamportAgree(d, d', h);
  }

  lemma {:induction false} VerdictGrows(s: State, s': State, x: Hash, v: bool)
    requires Grown(s.dag, s'.dag) && s.round.Keys <= s'.round.Keys && Verdict(s, x, v)
    ensures Verdict(s', x, v)
  {
    hide WellFormed, Round, Witness, Decides;
    var y :| y in s.round && Ballot(s.dag, x, y) && Decides(s.dag, x, y, v);
    DecisionMoves(s.dag, s'.dag, x, y, v);
  }

  /** Only the graph differs, and it has grown. */
  ghost predicate SameTables(s: State, s': State) {
    && s'.rounds == s.rounds && s'.lastRound == s.lastRound
    && s'.round == s.round && s'.lamport == s.lamport && s'.received == s.received
    && s'.pending == s.pending && s'.lastConsensusRound == s.lastConsensusRound
    && s'.frames == s.frames && s'.consensus == s.consensus && s'.blocks == s.blocks
    && s'.consensusTransactions == s.consensusTransactions
  }

  lemma {:induction false} DividedGrows(s: State, s': State)
    requires Grown(s.dag, s'.dag) && SameTables(s, s') && Divided(s)
    requires forall g :: g in s'.dag.events && g !in s.dag.events ==> Rank(s'.dag, g) > |s.dag.order|
    requires forall h :: h in s.dag.events ==> Rank(s.dag, h) <= |s.dag.order|
    ensures Divided(s')
  {
    hide WellFormed, Round, Lamport, Witness;
    forall h | h in s'.round ensures s'.round[h] == Round(s'.dag, h) && s'.lamport[h] == Lamport(s'.dag, h) {
      RoundGrows(s.dag, s'.dag, h);
    }
  }

  lemma {:induction false} EntryGrows(s: State, s': State, r: int, h: Hash)
    requires Grown(s.dag, s'.dag) && SameTables(s, s') && r in s.rounds && h in s.rounds[r].events && EntryOk(s, r, h)
    ensures EntryOk(s', r, h)
  {
    hide Based, WellFormed, Round, Lamport, Witness, Verdict;
    RoundGrows(s.dag, s'.dag, h);
    if s.rounds[r].events[h].famous != Undefined {
      VerdictGrows(s, s', h, s.rounds[r].events[h].famous == Yes);
    }
  }

  lemma {:induction false} TableGrows(s: State, s': State)
    requires Grown(s.dag, s'.dag) && SameTables(s, s') && Table(s)
    ensures Table(s')
  {
    hide Based, WellFormed, EntryOk;
    forall r, h | r in s'.rounds && h in s'.rounds[r].events ensures EntryOk(s', r, h) {
      EntryGrows(s, s', r, h);
    }
  }

  lemma {:induction false} PayloadGrows(d: Dag, d': Dag, list: seq<Hash>)
    requires SubDag(d, d') && AllStored(d, list)
    ensures Payload(d, list) == Payload(d', list) && LoadedCount(d, list) == LoadedCount(d', list)
  {
    if list != [] {
      PayloadGrows(d, d', list[..|list| - 1]);
    }
  }

  lemma {:induction false} CommittedGrows(s: State, s': State)
    requires Grown(s.dag, s'.dag) && SameTables(s, s') && Committed(s)
    ensures Committed(s')
  {
    hide Based, WellFormed, FrameEvents, Less;
    forall r | r in s'.frames ensures FrameSound(s', r) {
      assert FrameSound(s, r);
    }
  }

  lemma {:induction false} HashGrows(d: Dag, d': Dag, f: Frame)
    requires Grown(d, d') && AllStored(d, f.events)
    ensures HashOfFrame(d, f) == HashOfFrame(d', f)
  {
    hide Based;
  }

  lemma {:induction false} ChainGrows(d: Dag, d': Dag, frames: map<int, Frame>, n: nat)
    requires Grown(d, d') && forall r :: 0 <= r < n ==> r in frames && AllStored(d, frames[r].events)
    ensures forall r :: 0 <= r < n ==> AllStored(d', frames[r].events)
    ensures BlocksFor(d, frames, n) == BlocksFor(d', frames, n)
  {
    hide Based, Payload, HashOfFrame;
    if n > 0 {
      ChainGrows(d, d', frames, n - 1);
      PayloadGrows(d, d', frames[n - 1].events);
      HashGrows(d, d', frames[n - 1]);
    }
  }

  lemma {:induction false} BlocksGrow(s: State, s': State)
    requires Grown(s.dag, s'.dag) && SameTables(s, s') && Committed(s)
    requires forall i :: 0 <= i < |s.blocks| ==> BlockSound(s, i)
    ensures forall i :: 0 <= i < |s'.blocks| ==> BlockSound(s', i)
  {
    hide Based, WellFormed, Payload;
    forall i | 0 <= i < |s'.blocks| ensures BlockSound(s', i) {
      assert BlockSound(s, i);
      PayloadGrows(s.dag, s'.dag, s.frames[s.blocks[i].roundReceived].events);
    }
  }

  lemma {:induction false} RemainingSnoc(order: seq<Hash>, h: Hash, gone: set<Hash>)
    ensures Remaining(order + [h], gone) == Remaining(order, gone) + if h in gone then [] else [h]
  {
    assert (order + [h])[..|order|] == order;
  }

  lemma {:induction false} LoadedSnoc(d: Dag, list: seq<Hash>, h: Hash)
    requires AllStored(d, list) && h in d.events
    ensures AllStored(d, list + [h])
    ensures LoadedCount(d, list + [h]) == LoadedCount(d, list) + if IsLoaded(d.events[h]) then 1 else 0
    ensures Payload(d, list + [h]) == Payload(d, list) + d.events[h].transactions
  {
    assert (list + [h])[..|list|] == list;
  }

  lemma {:induction false} LedgerGrows(s: State, s': State, h: Hash)
    requires Grown(s.dag, s'.dag) && SameTables(s, s') && Committed(s) && Ledger(s)
    requires h in s'.dag.events && s'.dag.order == s.dag.order + [h]
    requires s'.pendingLoaded == s.pendingLoaded + if IsLoaded(s'.dag.events[h]) then 1 else 0
    ensures Ledger(s')
  {
    hide Based, WellFormed, BlockSound, FrameSound, FrameEvents, LoadedCount, Payload, BlockPayload, IsLoaded;
    hide BlocksFor, HashOfFrame;
    ChainGrows(s.dag, s'.dag, s.frames, LastCommitted(s) + 1);
    BlocksGrow(s, s');
    PayloadGrows(s.dag, s'.dag, s.consensus);
    PayloadGrows(s.dag, s'.dag, s.dag.order);
    LoadedSnoc(s'.dag, s.dag.order, h);
  }

  /** InsertEvent keeps the state sound. */
  lemma {:induction false} InsertSound(s: State, h: Hash, e: Event)
    requires Sound(s) && Fresh(s.dag, h, e) && Insert(s.dag, h, e).Ok?
    ensures Sound(InsertedState(s, h, e))
  {
    hide WellFormed, Divided, Table, Queue, Committed, Ledger, Fresh, LastEventFrom, OtherParentFound, Verify, IsLoaded;
    hide Remaining, Grown;
    var s' := InsertedState(s, h, e);
    InsertGrows(s.dag, h, e);
    NewIsLast(s.dag, h, e);
    NewIsUndetermined(s, h, e);
    RemainingSnoc(s.dag.order, h, s.received.Keys);
    GrownParts(s, s', h);
  }

  lemma {:induction false} GrownParts(s: State, s': State, h: Hash)
    requires Sound(s) && Grown(s.dag, s'.dag) && SameTables(s, s')
    requires h in s'.dag.events && s'.dag.order == s.dag.order + [h]
    requires s'.pendingLoaded == s.pendingLoaded + if IsLoaded(s'.dag.events[h]) then 1 else 0
    requires forall g :: g in s'.dag.events && g !in s.dag.events ==> Rank(s'.dag, g) > |s.dag.order|
    requires forall g :: g in s.dag.events ==> Rank(s.dag, g) <= |s.dag.order|
    ensures Based(s'.dag) && Divided(s') && Table(s') && Queue(s') && Committed(s') && Ledger(s')
  {
    hide WellFormed, Divided, Table, Queue, Committed, Ledger, IsLoaded, Remaining;
    DividedGrows(s, s');
    TableGrows(s, s');
    CommittedGrows(s, s');
    LedgerGrows(s, s', h);
    QueueGrows(s, s');
  }

  lemma {:induction false} QueueGrows(s: State, s': State)
    requires SameTables(s, s') && Queue(s)
    ensures Queue(s')
  {
  }

  lemma {:induction false} NewIsLast(d: Dag, h: Hash, e: Event)
    requires WellFormed(d) && Fresh(d, h, e) && Insert(d, h, e).Ok?
    ensures var d' := Insert(d, h, e).value;
            forall g :: g in d'.events && g !in d.events ==> Rank(d', g) > |d.order|
    ensures forall g :: g in d.events ==> Rank(d, g) <= |d.order|
  {
    forall g | g in d.events ensures Rank(d, g) <= |d.order| {
      assert EventOk(d, g);
    }
  }

  lemma {:induction false} NewIsUndetermined(s: State, h: Hash, e: Event)
    requires Based(s.dag) && Divided(s) && Table(s) && Fresh(s.dag, h, e)
    ensures h !in s.received
  {
  }
}
