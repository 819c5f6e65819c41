/** What runs of InsertEvent and RunConsensus guarantee about what is committed. */
module CommitOrder {
  import opened Dags
  import opened Rounds
  import opened Consensus
  import opened ConsensusInsert
  import opened ConsensusDivide
  import opened ConsensusDecide
  import opened ConsensusCommit
  import opened ConsensusPasses
  import opened ConsensusRuns

  // ---------------------------------------------------------------- positions in the commit order

  /** The commit order restarts at each frame where the previous one ended. */
  lemma {:induction false} FrameAt(frames: map<int, Frame>, n: nat, r: nat, i: nat)
    requires forall q :: 0 <= q < n ==> q in frames
    requires r < n && i < |frames[r].events|
    ensures |FrameEvents(frames, r)| + i < |FrameEvents(frames, n)|
    ensures FrameEvents(frames, n)[|FrameEvents(frames, r)| + i] == frames[r].events[i]
    decreases n
  {
    if r < n - 1 {
      FrameAt(frames, n - 1, r, i);
    }
  }

  lemma {:induction false} FrameStarts(frames: map<int, Frame>, r: nat, n: nat)
    requires forall q :: 0 <= q < n ==> q in frames
    requires r < n
    ensures |FrameEvents(frames, r)| + |frames[r].events| <= |FrameEvents(frames, n)|
    decreases n
  {
    if r < n - 1 {
      FrameStarts(frames, r, n - 1);
    }
  }

  lemma {:induction false} FindFrame(frames: map<int, Frame>, n: nat, p: nat) returns (r: nat, i: nat)
    requires forall q :: 0 <= q < n ==> q in frames
    requires p < |FrameEvents(frames, n)|
    ensures r < n && i < |frames[r].events| && p == |FrameEvents(frames, r)| + i
    decreases n
  {
    if p < |FrameEvents(frames, n - 1)| {
      r, i := FindFrame(frames, n - 1, p);
    } else {
      r, i := n - 1, p - |FrameEvents(frames, n - 1)|;
    }
  }

  // ---------------------------------------------------------------- causal order

  /** Every ancestor of a committed event is committed before it. */
  ghost predicate Causal(s: State)
    requires WellFormed(s.dag)
  {
    forall p, y :: 0 <= p < |s.consensus| && y in s.dag.events && y != s.consensus[p] && Reach(s.dag, s.consensus[p], y)
      ==> exists q :: 0 <= q < p && s.consensus[q] == y
  }

  lemma {:induction false} FirstSeeing(s: State, y: Hash, r: int) returns (j: int)
    requires WellFormed(s.dag) && y in s.round && s.round[y] < r && AllSee(s, y, r)
    ensures s.round[y] < j <= r && AllSee(s, y, j)
    ensures forall k :: s.round[y] < k < j ==> !AllSee(s, y, k)
    decreases r - s.round[y]
  {
    hide AllSee, WellFormed;
    if k :| s.round[y] < k < r && AllSee(s, y, k) {
      j := FirstSeeing(s, y, k);
    } else {
      j := r;
    }
  }

  /** Whoever sees an event sees its ancestors. */
  lemma {:induction false} SeenThrough(s: State, x: Hash, y: Hash, r: int)
    requires WellFormed(s.dag) && AllSee(s, x, r) && Reach(s.dag, x, y)
    ensures AllSee(s, y, r)
  {
    hide WellFormed, Reach, RoundInfo.FamousWitnesses;
    forall w | w in s.rounds[r].FamousWitnesses() ensures Reach(s.dag, w, y) {
      ReachTrans(s.dag, w, x, y);
    }
  }

  lemma {:induction false} AncestorDivided(s: State, x: Hash, y: Hash)
    requires Based(s.dag) && Divided(s) && x in s.round && y in s.dag.events && Reach(s.dag, x, y)
    ensures y in s.round && s.round[y] <= s.round[x]
    ensures y != x ==> s.lamport[y] < s.lamport[x]
  {
    hide WellFormed, Reach, Round, Lamport;
    if y != x {
      ReachRank(s.dag, x, y);
      ReachLamport(s.dag, x, y);
    }
    RoundMonotone(s.dag, x, y);
  }

  /** An ancestor of an event received in a committed round is received no later. */
  lemma {:induction false} AncestorReceived(s: State, x: Hash, y: Hash)
    requires Sound(s) && Stable(s) && x in s.received && s.received[x] <= LastCommitted(s)
    requires y in s.dag.events && Reach(s.dag, x, y)
    ensures y in s.received && s.received[y] <= s.received[x]
  {
    hide WellFormed, Table, Divided, Queue, Committed, Ledger, Remaining, Decided, AllSee, Reach;
    var r := s.received[x];
    assert ReceivedAt(s, x, r);
    AncestorDivided(s, x, y);
    SeenThrough(s, x, y, r);
    RoundsNotNegative(s);
    var j := FirstSeeing(s, y, r);
    assert ReceivedAt(s, y, j);
    ReceivedOnce(s, y, j, s.received[y]);
  }

  lemma {:induction false} FrameFacts(s: State, r: int, i: nat)
    requires Committed(s) && 0 <= r <= LastCommitted(s) && i < |s.frames[r].events|
    ensures s.frames[r].events[i] in s.received && s.received[s.frames[r].events[i]] == r
  {
    assert FrameSound(s, r);
  }

  lemma {:induction false} FrameSortedAt(s: State, r: int, i: nat, j: nat)
    requires Committed(s) && 0 <= r <= LastCommitted(s) && i < |s.frames[r].events| && j < |s.frames[r].events|
    requires s.frames[r].events[i] in s.lamport && s.frames[r].events[j] in s.lamport
    requires s.lamport[s.frames[r].events[i]] < s.lamport[s.frames[r].events[j]]
    ensures i < j
  {
    assert FrameSound(s, r);
  }

  lemma {:induction false} AncestorCommitted(s: State, p: nat, y: Hash)
    requires Sound(s) && Stable(s) && p < |s.consensus|
    requires y in s.dag.events && y != s.consensus[p] && Reach(s.dag, s.consensus[p], y)
    ensures exists q :: 0 <= q < p && s.consensus[q] == y
  {
    hide WellFormed, Table, Divided, Queue, Ledger, Remaining, Decided, Reach, ReceivedAt, FrameSound;
    CommittedReceived(s, s.consensus[p]);
    AncestorReceived(s, s.consensus[p], y);
    AncestorPlaced(s, p, y);
  }

  /** An ancestor in the frame of an earlier round, or of the same, is committed earlier. */
  lemma {:induction false} AncestorPlaced(s: State, p: nat, y: Hash)
    requires Sound(s) && p < |s.consensus| && s.consensus[p] in s.received
    requires y in s.dag.events && y != s.consensus[p] && Reach(s.dag, s.consensus[p], y)
    requires y in s.received && s.received[y] <= s.received[s.consensus[p]]
    requires s.received[y] in s.frames && y in s.frames[s.received[y]].events
    ensures exists q :: 0 <= q < p && s.consensus[q] == y
  {
    hide WellFormed, Table, Divided, Queue, Ledger, Remaining, Reach, FrameSound;
    var n := LastCommitted(s) + 1;
    var r, i := FindFrame(s.frames, n, p);
    FrameAt(s.frames, n, r, i);
    var x := s.consensus[p];
    FrameFacts(s, r, i);
    var j := s.received[y];
    ReceptionNotNegative(s, y);
    var k :| 0 <= k < |s.frames[j].events| && s.frames[j].events[k] == y;
    FrameAt(s.frames, n, j, k);
    if j < r {
      FrameStarts(s.frames, j, r);
    } else {
      ReceivedIsDivided(s, x);
      AncestorDivided(s, x, y);
      LamportKeys(s);
      FrameSortedAt(s, r, k, i);
    }
    assert s.consensus[|FrameEvents(s.frames, j)| + k] == y;
  }

  lemma {:induction false} ReceptionNotNegative(s: State, y: Hash)
    requires Based(s.dag) && Table(s) && y in s.received
    ensures 0 <= s.received[y]
  {
    hide WellFormed, EntryOk;
  }

  lemma {:induction false} ReceivedIsDivided(s: State, y: Hash)
    requires Based(s.dag) && Table(s) && y in s.received
    ensures y in s.round
  {
    hide WellFormed, EntryOk;
  }

  lemma {:induction false} LamportKeys(s: State)
    requires Based(s.dag) && Divided(s)
    ensures s.lamport.Keys == s.round.Keys
  {
    hide WellFormed;
  }

  /** The commit order extends the ancestry relation. */
  lemma {:induction false} CausalOrder(s: State)
    requires Sound(s) && Stable(s)
    ensures Causal(s)
  {
    hide Reach, EventOk, LogOk, Table, Divided, Queue, Committed, Ledger, Stable;
    forall p, y | 0 <= p < |s.consensus| && y in s.dag.events && y != s.consensus[p] && Reach(s.dag, s.consensus[p], y)
      ensures exists q :: 0 <= q < p && s.consensus[q] == y
    {
      AncestorCommitted(s, p, y);
    }
  }

  // ---------------------------------------------------------------- conservation

  /** No event is committed twice. */
  lemma {:induction false} CommittedOnce(s: State, p: nat, q: nat)
    requires Committed(s) && p < q < |s.consensus|
    ensures s.consensus[p] != s.consensus[q]
  {
    hide FrameSound;
    var n := LastCommitted(s) + 1;
    var r, i := FindFrame(s.frames, n, p);
    var t, j := FindFrame(s.frames, n, q);
    FrameAt(s.frames, n, r, i);
    FrameAt(s.frames, n, t, j);
    FrameFacts(s, r, i);
    FrameFacts(s, t, j);
    if r == t {
      FrameDistinct(s, r, i, j);
    }
  }

  lemma {:induction false} FrameDistinct(s: State, r: int, i: nat, j: nat)
    requires Committed(s) && 0 <= r <= LastCommitted(s) && i < j < |s.frames[r].events|
    ensures s.frames[r].events[i] != s.frames[r].events[j]
  {
    assert FrameSound(s, r);
  }

  /** Row `r` lists `h` as a consensus event. */
  ghost predicate ConsensusIn(s: State, h: Hash, r: int) {
    r in s.rounds && h in s.rounds[r].ConsensusEvents()
  }

  lemma {:induction false} ConsensusInIff(s: State, h: Hash, r: int)
    requires Based(s.dag) && Table(s)
    ensures ConsensusIn(s, h, r) <==> h in s.received && s.received[h] == r
  {
    hide WellFormed, Witness, Verdict;
    if r in s.rounds && h in s.rounds[r].events {
      assert EntryOk(s, r, h);
    }
  }

  lemma {:induction false} CommittedReceived(s: State, h: Hash)
    requires Committed(s) && h in s.consensus
    ensures h in s.received && s.received[h] in s.frames && h in s.frames[s.received[h]].events
  {
    hide FrameSound;
    var p :| 0 <= p < |s.consensus| && s.consensus[p] == h;
    var r, i := FindFrame(s.frames, LastCommitted(s) + 1, p);
    FrameAt(s.frames, LastCommitted(s) + 1, r, i);
    FrameFacts(s, r, i);
  }

  /** Every event is undetermined or a consensus event of exactly one round, never
      both, and is committed only in the frame of that round. */
  lemma {:induction false} EventConservation(s: State, h: Hash)
    requires Sound(s) && h in s.dag.events
    ensures h in s.undetermined <==> forall r :: !ConsensusIn(s, h, r)
    ensures forall r, q :: ConsensusIn(s, h, r) && ConsensusIn(s, h, q) ==> r == q
    ensures h in s.consensus ==> h !in s.undetermined
  {
    hide WellFormed, Table, Queue, Committed, Ledger, Remaining, Divided, ConsensusIn;
    UndeterminedExactly(s.dag, s.received.Keys);
    forall r ensures ConsensusIn(s, h, r) <==> h in s.received && s.received[h] == r {
      ConsensusInIff(s, h, r);
    }
    assert h in s.received ==> ConsensusIn(s, h, s.received[h]);
    if h in s.consensus {
      CommittedReceived(s, h);
    }
  }

  // ---------------------------------------------------------------- runs

  datatype Step =
    | Inserting(hash: Hash, event: Event)
    | Running(divided: State, voted: State, received: State)

  ghost predicate Moves(s: State, step: Step, s': State) {
    match step
    case Inserting(h, e) => Fresh(s.dag, h, e) && Insert(s.dag, h, e).Ok? && s' == InsertedState(s, h, e)
    case Running(s1, s2, s3) => Passes(s, s1, s2, s3, s')
  }

  /** The states of a node from its start, one step at a time. */
  ghost predicate IsRun(participants: set<Creator>, run: seq<State>, steps: seq<Step>) {
    && |run| == |steps| + 1 && run[0] == Initial(participants, run[0].dag.cacheSize)
    && forall i :: 0 <= i < |steps| ==> Moves(run[i], steps[i], run[i + 1])
  }

  /** No RunConsensus of the run puts a new witness into a decided round. */
  ghost predicate Quiet(run: seq<State>, steps: seq<Step>)
    requires |steps| <= |run|
  {
    forall i :: 0 <= i < |steps| && steps[i].Running? ==> NoNewWitnesses(run[i], steps[i].divided)
  }

  lemma {:induction false} MoveSound(s: State, step: Step, s': State)
    requires Sound(s) && Moves(s, step, s')
    ensures Sound(s')
  {
    hide Sound, Passes, InsertedState;
    match step
    case Inserting(h, e) => InsertSound(s, h, e);
    case Running(s1, s2, s3) => PassesSound(s, s1, s2, s3, s');
  }

  /** Every state of every run is sound. */
  lemma {:induction false} RunSound(participants: set<Creator>, run: seq<State>, steps: seq<Step>, n: nat)
    requires IsRun(participants, run, steps) && n < |run|
    ensures Sound(run[n])
  {
    hide Sound, Moves, Initial;
    if n == 0 {
      InitialSound(participants, run[0].dag.cacheSize);
    } else {
      RunSound(participants, run, steps, n - 1);
      MoveSound(run[n - 1], steps[n - 1], run[n]);
    }
  }

  lemma {:induction false} InitialStable(participants: set<Creator>, cacheSize: nat)
    ensures WellFormed(Initial(participants, cacheSize).dag) && Stable(Initial(participants, cacheSize))
  {
    InitialBased(participants, cacheSize);
    hide Based, WellFormed, AllSee, Decided;
  }

  lemma {:induction false} RunStable(participants: set<Creator>, run: seq<State>, steps: seq<Step>, n: nat)
    requires IsRun(participants, run, steps) && Quiet(run, steps) && n < |run|
    ensures Sound(run[n]) && Stable(run[n])
  {
    hide Moves, Initial, Stable, WellFormed, Table, Divided, Queue, Committed, Ledger, Remaining;
    RunSound(participants, run, steps, n);
    if n == 0 {
      InitialStable(participants, run[0].dag.cacheSize);
    } else {
      RunStable(participants, run, steps, n - 1);
      MoveStable(run[n - 1], steps[n - 1], run[n]);
    }
  }

  lemma {:induction false} MoveStable(s: State, step: Step, s': State)
    requires Sound(s) && Stable(s) && Moves(s, step, s') && (step.Running? ==> NoNewWitnesses(s, step.divided))
    ensures WellFormed(s'.dag) && Stable(s')
  {
    hide Stable, Passes, InsertedState, WellFormed, Table, Divided, Queue, Committed, Ledger, Remaining, NoNewWitnesses;
    match step
    case Inserting(h, e) => InsertStable(s, h, e);
    case Running(s1, s2, s3) => PassesStable(s, s1, s2, s3, s');
  }

  /** In every state of a run whose decided rounds gain no witness, whatever is
      committed comes after all its ancestors. */
  lemma {:induction false} RunCausal(participants: set<Creator>, run: seq<State>, steps: seq<Step>, n: nat)
    requires IsRun(participants, run, steps) && Quiet(run, steps) && n < |run|
    ensures WellFormed(run[n].dag) && Causal(run[n])
  {
    hide IsRun, Quiet, Stable, Causal, WellFormed, Table, Divided, Queue, Committed, Ledger, Remaining;
    RunStable(participants, run, steps, n);
    CausalOrder(run[n]);
  }

  // ---------------------------------------------------------------- nothing is taken back

  /** What was committed is still committed, at the same place. */
  ghost predicate Appends(s: State, s': State) {
    && s.consensus <= s'.consensus && s.blocks <= s'.blocks
    && forall r :: r in s.frames ==> r in s'.frames && s'.frames[r] == s.frames[r]
  }

  lemma {:induction false} CommitOneAppends(s: State, f: Frame)
    requires Committed(s) && Queue(s) && s.pending != [] && AllStored(s.dag, f.events) && f.round == s.pending[0].index
    ensures Appends(s, CommitOne(s, f))
  {
    hide Payload, LoadedCount, FrameSound, FrameEvents;
  }

  lemma {:induction false} CommitsAppend(s: State, s': State)
    requires Sound(s) && Commits(s, s')
    ensures Appends(s, s')
    decreases |s.pending|
  {
    hide WellFormed, Table, Divided, Queue, Committed, Ledger, Remaining, FrameOf, CommitOne;
    if s.pending != [] && s.pending[0].decided {
      var f: Frame :| AllStored(s.dag, f.events) && FrameOf(s, s.pending[0].index, f) && Commits(CommitOne(s, f), s');
      FrameRound(s, f);
      CommitOneAppends(s, f);
      CommitSound(s, f);
      QueueShrinks(s, f);
      hide Sound;
      CommitsAppend(CommitOne(s, f), s');
    }
  }

  lemma {:induction false} DivideListCommits(s: State, list: seq<Hash>)
    requires Based(s.dag) && AllStored(s.dag, list)
    ensures var s' := DivideList(s, list);
            s'.consensus == s.consensus && s'.blocks == s.blocks && s'.frames == s.frames && s'.dag == s.dag
    decreases |list|
  {
    hide WellFormed, Round, Witness, Lamport, RowOf, Enqueues, RoundInfo.AddEvent;
    if list != [] {
      if list[0] in s.round {
        DivideListCommits(s, list[1..]);
      } else {
        DivideListCommits(DivideOne(s, list[0]), list[1..]);
      }
    }
  }

  lemma {:induction false} MoveAppends(s: State, step: Step, s': State)
    requires Sound(s) && Moves(s, step, s')
    ensures Appends(s, s')
  {
    hide Sound, WellFormed, FameStep, Commits, DivideList, ReceiveList;
    match step
    case Inserting(h, e) =>
    case Running(s1, s2, s3) =>
      PassesSound(s, s1, s2, s3, s');
      DivideListCommits(s, s.undetermined);
      FameCommits(s1, s2);
      ReceiveCommits(s2);
      CommitsAppend(s3, s');
  }

  lemma {:induction false} FameCommits(s: State, s': State)
    requires Based(s.dag) && FameStep(s, s')
    ensures s'.consensus == s.consensus && s'.blocks == s.blocks && s'.frames == s.frames && s'.dag == s.dag
  {
    hide WellFormed, RowRefamed, RowJustified, RowComplete, RoundInfo.WitnessesDecided;
  }

  lemma {:induction false} ReceiveCommits(s: State)
    requires Sound(s)
    ensures var s' := ReceiveList(s, s.undetermined);
            s'.consensus == s.consensus && s'.blocks == s.blocks && s'.frames == s.frames && s'.dag == s.dag
  {
    hide WellFormed, Table, Divided, Queue, Committed, Ledger, Remaining, ReceiveList, SameFame;
    ReceiveListMore(s, s.undetermined);
  }

  /** The commit order and the chain of blocks only ever grow at the end. */
  lemma {:induction false} RunAppends(participants: set<Creator>, run: seq<State>, steps: seq<Step>, m: nat, n: nat)
    requires IsRun(participants, run, steps) && m <= n < |run|
    ensures Appends(run[m], run[n])
    decreases n
  {
    hide Moves, Initial, Sound;
    if m < n {
      RunAppends(participants, run, steps, m, n - 1);
      RunSound(participants, run, steps, n - 1);
      MoveAppends(run[n - 1], steps[n - 1], run[n]);
      hide IsRun;
      AppendsTrans(run[m], run[n - 1], run[n]);
    }
  }

  lemma {:induction false} AppendsTrans(s: State, t: State, u: State)
    requires Appends(s, t) && Appends(t, u)
    ensures Appends(s, u)
  {
  }

  /** The queue, the committed rounds and the blocks of every reachable state. */
  lemma {:induction false} RunPipeline(participants: set<Creator>, run: seq<State>, steps: seq<Step>, n: nat)
    requires IsRun(participants, run, steps) && n < |run|
    ensures var s := run[n];
            && (forall k :: 0 <= k < |s.pending| ==> s.pending[k].index == LastCommitted(s) + 1 + k)
            && LastCommitted(s) + |s.pending| == s.lastRound
            && -1 <= LastCommitted(s)
            && (forall r :: r in s.frames <==> 0 <= r <= LastCommitted(s))
            && s.consensus == FrameEvents(s.frames, LastCommitted(s) + 1)
            && (forall i :: 0 <= i < |s.blocks| ==> s.blocks[i].index == i)
            && (forall i, j :: 0 <= i < j < |s.blocks| ==> s.blocks[i].roundReceived < s.blocks[j].roundReceived)
    ensures var s := run[n];
            && AllStored(s.dag, s.consensus) && AllStored(s.dag, s.dag.order)
            && BlockPayload(s.blocks) == Payload(s.dag, s.consensus)
            && s.consensusTransactions == |BlockPayload(s.blocks)|
            && s.pendingLoaded == LoadedCount(s.dag, s.dag.order) - LoadedCount(s.dag, s.consensus)
  {
    hide IsRun, WellFormed, Table, Divided, Remaining, FrameSound, Payload, LoadedCount, BlockPayload, FrameEvents;
    RunSound(participants, run, steps, n);
    forall i | 0 <= i < |run[n].blocks| ensures run[n].blocks[i].index == i {
      assert BlockSound(run[n], i);
    }
  }

  /** A row holds the witnesses of its round among the events that have been given a round. */
  ghost predicate RowExact(s: State, r: int)
    requires Based(s.dag) && r in s.rounds
  {
    && s.rounds[r].Witnesses() != {}
    && forall w :: w in s.rounds[r].Witnesses() <==> w in s.round && w in Witnesses(s.dag, r)
  }

  lemma {:induction false} RowIsExact(s: State, r: int)
    requires Sound(s) && r in s.rounds
    ensures RowExact(s, r)
  {
    hide WellFormed, Queue, Committed, Ledger, Remaining, Round, Witness, Verdict;
    forall w | w in s.rounds[r].Witnesses() ensures w in s.round && w in Witnesses(s.dag, r) {
      assert EntryOk(s, r, w);
    }
    forall w | w in s.round && w in Witnesses(s.dag, r) ensures w in s.rounds[r].Witnesses() {
      assert EntryOk(s, r, w);
    }
  }

  /** Rounds have no gaps: in every reachable state the table holds a row for each round from 0
      to the last one, and each has a witness. */
  lemma {:induction false} RunRounds(participants: set<Creator>, run: seq<State>, steps: seq<Step>, n: nat)
    requires IsRun(participants, run, steps) && n < |run|
    ensures Based(run[n].dag)
    ensures forall r :: r in run[n].rounds <==> 0 <= r <= run[n].lastRound
    ensures forall r :: 0 <= r <= run[n].lastRound ==> RowExact(run[n], r)
  {
    hide IsRun, WellFormed, Divided, Queue, Committed, Ledger, Remaining, RowExact;
    RunSound(participants, run, steps, n);
    forall r | 0 <= r <= run[n].lastRound ensures RowExact(run[n], r) {
      RowIsExact(run[n], r);
    }
  }
}
