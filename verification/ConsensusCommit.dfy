/** ProcessDecidedRounds, one round at a time. */
module ConsensusCommit {
  import opened Dags
  import opened Rounds
  import opened Frames
  import opened Sorting
  import opened Consensus
  import opened ConsensusDivide
  import opened ConsensusDecide

  /** The sort key of an event within its frame: timestamp, then signature. */
  ghost function FrameKey(s: State, h: Hash): (int, int)
    requires h in s.lamport && h in s.dag.events
  {
    (s.lamport[h], s.dag.events[h].signature.r)
  }

  /** `list` is the consensus events of round `r`, each once, in key order. */
  ghost predicate FrameLists(s: State, r: int, list: seq<Hash>) {
    && r in s.rounds
    && (forall h :: h in list <==> h in s.rounds[r].ConsensusEvents())
    && (forall i, j :: 0 <= i < j < |list| ==> list[i] != list[j])
    && (forall i :: 0 <= i < |list| ==> list[i] in s.lamport && list[i] in s.dag.events)
    && (forall i, j :: 0 <= i < j < |list| ==> !Less(FrameKey(s, list[j]), FrameKey(s, list[i])))
  }

  /** `f` is the frame of round `r`: its consensus events, on the roots that go with them
      after what has been committed so far. */
  ghost predicate FrameOf(s: State, r: int, f: Frame) {
    && f.round == r && FrameLists(s, r, f.events)
    && Based(s.dag) && AllStored(s.dag, s.consensus) && AllStored(s.dag, f.events)
    && f.roots == RootsAfter(s.dag, s.consensus, f.events)
  }

  /** The frame at the head of the queue is committed: its events become consensus
      events, and its transactions, if there are any, a block. */
  function CommitOne(s: State, f: Frame): State
    requires s.pending != [] && AllStored(s.dag, f.events)
  {
    var txs := Payload(s.dag, f.events);
    s.(frames := s.frames[f.round := f],
       consensus := s.consensus + f.events,
       blocks := s.blocks + if txs == [] then [] else [Block(|s.blocks|, f.round, HashOfFrame(s.dag, f), txs)],
       consensusTransactions := s.consensusTransactions + |txs|,
       pendingLoaded := s.pendingLoaded - LoadedCount(s.dag, f.events),
       lastConsensusRound := Some(f.round),
       pending := s.pending[1..])
  }

  // ---------------------------------------------------------------- sums

  lemma {:induction false} PayloadSplit(d: Dag, a: seq<Hash>, b: seq<Hash>)
    requires AllStored(d, a) && AllStored(d, b)
    ensures AllStored(d, a + b)
    ensures Payload(d, a + b) == Payload(d, a) + Payload(d, b)
    ensures LoadedCount(d, a + b) == LoadedCount(d, a) + LoadedCount(d, b)
  {
    if b == [] {
      assert a + b == a;
    } else {
      var n := |b| - 1;
      PayloadSplit(d, a, b[..n]);
      assert (a + b)[..|a + b| - 1] == a + b[..n];
    }
  }

  lemma {:induction false} FrameEventsSame(f: map<int, Frame>, g: map<int, Frame>, n: nat)
    requires forall r :: 0 <= r < n ==> r in f && r in g && g[r] == f[r]
    ensures FrameEvents(f, n) == FrameEvents(g, n)
  {
    if n > 0 {
      FrameEventsSame(f, g, n - 1);
    }
  }

  lemma {:induction false} BlockPayloadSnoc(blocks: seq<Block>, b: Block)
    ensures BlockPayload(blocks + [b]) == BlockPayload(blocks) + b.transactions
  {
    assert (blocks + [b])[..|blocks|] == blocks;
  }

  // ---------------------------------------------------------------- soundness

  lemma {:induction false} HeadOfQueue(s: State)
    requires Queue(s) && s.pending != []
    ensures s.pending[0].index == LastCommitted(s) + 1
  {
  }

  lemma {:induction false} QueueCommitted(s: State, f: Frame)
    requires Queue(s) && s.pending != [] && f.round == s.pending[0].index && AllStored(s.dag, f.events)
    requires -1 <= LastCommitted(s)
    ensures Queue(CommitOne(s, f))
  {
    hide Payload, LoadedCount;
  }

  lemma {:induction false} NewFrameSound(s: State, f: Frame)
    requires Based(s.dag) && Table(s) && s.pending != [] && AllStored(s.dag, f.events) && FrameOf(s, f.round, f)
    ensures FrameSound(CommitOne(s, f), f.round)
  {
    hide WellFormed, Table, Payload, LoadedCount, HashOfFrame, Less;
    forall i | 0 <= i < |f.events| ensures f.events[i] in s.received && s.received[f.events[i]] == f.round {
      assert f.events[i] in f.events;
      ListedReceived(s, f.round, f.events[i]);
    }
  }

  lemma {:induction false} ListedReceived(s: State, r: int, h: Hash)
    requires Based(s.dag) && Table(s) && r in s.rounds && h in s.rounds[r].ConsensusEvents()
    ensures h in s.received && s.received[h] == r
  {
    hide WellFormed, Witness, Verdict;
    assert EntryOk(s, r, h);
  }

  lemma {:induction false} FrameStays(s: State, s': State, r: int)
    requires r in s.frames && r in s'.frames && s'.frames[r] == s.frames[r] && FrameSound(s, r)
    requires s'.dag == s.dag && s'.received == s.received && s'.lamport == s.lamport
    ensures FrameSound(s', r)
  {
    hide Less;
  }

  lemma {:induction false} FramesCommitted(s: State, f: Frame)
    requires Based(s.dag) && Table(s) && Committed(s) && s.pending != [] && AllStored(s.dag, f.events)
    requires f.round == LastCommitted(s) + 1 && FrameOf(s, f.round, f)
    ensures Committed(CommitOne(s, f))
  {
    hide Based, WellFormed, Table, Payload, LoadedCount, FrameOf, FrameSound;
    var s' := CommitOne(s, f);
    NewFrameSound(s, f);
    forall r | r in s.frames && r != f.round ensures FrameSound(s', r) {
      FrameStays(s, s', r);
    }
    FrameEventsSame(s.frames, s'.frames, f.round);
  }

  lemma {:induction false} BlocksCommitted(s: State, f: Frame)
    requires Committed(s) && Ledger(s) && s.pending != [] && AllStored(s.dag, f.events)
    requires f.round == LastCommitted(s) + 1
    ensures var s' := CommitOne(s, f);
            && (forall i :: 0 <= i < |s'.blocks| ==> BlockSound(s', i))
            && (forall i, j :: 0 <= i < j < |s'.blocks| ==> s'.blocks[i].roundReceived < s'.blocks[j].roundReceived)
  {
    hide Payload, LoadedCount, FrameSound, FrameEvents, BlockPayload;
    var s' := CommitOne(s, f);
    forall i | 0 <= i < |s.blocks| ensures BlockSound(s', i) && s.blocks[i].roundReceived <= LastCommitted(s) {
      assert BlockSound(s, i);
    }
  }

  lemma {:induction false} ChainSame(d: Dag, f: map<int, Frame>, g: map<int, Frame>, n: nat)
    requires forall r :: 0 <= r < n ==> r in f && r in g && g[r] == f[r] && AllStored(d, f[r].events)
    ensures BlocksFor(d, f, n) == BlocksFor(d, g, n)
  {
    hide Payload;
    if n > 0 {
      ChainSame(d, f, g, n - 1);
    }
  }

  lemma {:induction false} ChainCommitted(s: State, f: Frame)
    requires Chained(s) && s.pending != [] && AllStored(s.dag, f.events) && f.round == LastCommitted(s) + 1
    ensures Chained(CommitOne(s, f))
  {
    hide Payload, LoadedCount;
    ChainSame(s.dag, s.frames, CommitOne(s, f).frames, f.round);
  }

  lemma {:induction false} LedgerCommitted(s: State, f: Frame)
    requires Committed(s) && Ledger(s) && s.pending != [] && AllStored(s.dag, f.events)
    requires f.round == LastCommitted(s) + 1
    ensures Ledger(CommitOne(s, f))
  {
    hide Payload, LoadedCount, Committed, BlockPayload, BlockSound, Chained;
    var s' := CommitOne(s, f);
    ChainCommitted(s, f);
    BlocksCommitted(s, f);
    PayloadSplit(s.dag, s.consensus, f.events);
    if |s'.blocks| > |s.blocks| {
      BlockPayloadSnoc(s.blocks, s'.blocks[|s.blocks|]);
    } else {
      assert s'.blocks == s.blocks;
      assert Payload(s.dag, s.consensus) + [] == Payload(s.dag, s.consensus);
    }
  }

  /** Committing a frame keeps the state sound. */
  lemma {:induction false} CommitSound(s: State, f: Frame)
    requires Sound(s) && s.pending != [] && FrameOf(s, s.pending[0].index, f) && AllStored(s.dag, f.events)
    ensures Sound(CommitOne(s, f))
  {
    hide WellFormed, Table, Queue, Committed, Ledger, Remaining, Divided, FrameOf, Payload, LoadedCount;
    var s' := CommitOne(s, f);
    FrameRound(s, f);
    HeadOfQueue(s);
    CommittedFrom(s);
    FramesCommitted(s, f);
    LedgerCommitted(s, f);
    QueueCommitted(s, f);
    DividedSame(s, s');
    TableSame(s, s');
  }

  lemma {:induction false} FrameRound(s: State, f: Frame)
    requires s.pending != [] && FrameOf(s, s.pending[0].index, f)
    ensures f.round == s.pending[0].index
  {
  }

  lemma {:induction false} CommittedFrom(s: State)
    requires Committed(s)
    ensures -1 <= LastCommitted(s)
  {
  }

  lemma {:induction false} TableSame(s: State, s': State)
    requires Based(s.dag) && Table(s) && s'.dag == s.dag && s'.rounds == s.rounds && s'.lastRound == s.lastRound
    requires s'.round == s.round && s'.received == s.received
    ensures Table(s')
  {
    hide WellFormed, Witness, Verdict;
    forall r, h | r in s'.rounds && h in s'.rounds[r].events ensures EntryOk(s', r, h) {
      EntrySame(s, s', r, h);
    }
  }

  lemma {:induction false} EntrySame(s: State, s': State, r: int, h: Hash)
    requires Based(s.dag) && s'.dag == s.dag && s'.rounds == s.rounds && s'.round == s.round
    requires s'.received == s.received
    requires r in s.rounds && h in s.rounds[r].events && EntryOk(s, r, h)
    ensures EntryOk(s', r, h)
  {
    hide WellFormed, Witness, Verdict;
    if s.rounds[r].events[h].famous != Undefined {
      VerdictKept(s, s', h, s.rounds[r].events[h].famous == Yes);
    }
  }
}
