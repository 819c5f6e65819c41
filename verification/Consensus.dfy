/** The consensus state of one node, what every pass keeps true of it, and what a
    run of passes adds up to: a commit order that extends the graph. */
module Consensus {
  import opened Dags
  import opened Rounds
  import opened Fame
  import opened Sorting

  // ---------------------------------------------------------------- round table

  datatype Trilean = Undefined | Yes | No

  datatype RoundEvent = RoundEvent(consensus: bool, isWitness: bool, famous: Trilean)

  datatype RoundInfo = RoundInfo(events: map<Hash, RoundEvent>, queued: bool) {
    function AddEvent(x: Hash, isWitness: bool): RoundInfo {
      if x in events then this else this.(events := events[x := RoundEvent(false, isWitness, Undefined)])
    }

    function SetConsensusEvent(x: Hash): RoundInfo {
      var e := if x in events then events[x] else RoundEvent(false, false, Undefined);
      this.(events := events[x := e.(consensus := true)])
    }

    function SetFame(x: Hash, f: bool): RoundInfo {
      var e := if x in events then events[x] else RoundEvent(false, true, Undefined);
      this.(events := events[x := e.(famous := if f then Yes else No)])
    }

    function Witnesses(): set<Hash> {
      set x | x in events && events[x].isWitness
    }

    predicate WitnessesDecided() {
      forall x :: x in events && events[x].isWitness ==> events[x].famous != Undefined
    }

    function FamousWitnesses(): set<Hash> {
      set x | x in events && events[x].isWitness && events[x].famous == Yes
    }

    function ConsensusEvents(): set<Hash> {
      set x | x in events && events[x].consensus
    }

    predicate IsDecided(x: Hash) {
      x in events && events[x].isWitness && events[x].famous != Undefined
    }
  }

  const NEW_ROUND := RoundInfo(map[], false)

  datatype Pending = Pending(index: int, decided: bool)

  datatype Frame = Frame(round: int, roots: map<Creator, Root>, events: seq<Hash>)

  /** What the hash of a frame covers: the frame, and of each event's message also the
      topological index the node gave it. Hashing is injective, so this stands for the hash. */
  datatype FrameHash = FrameHash(frame: Frame, topological: seq<nat>)

  datatype Block = Block(index: int, roundReceived: int, frameHash: FrameHash, transactions: seq<Transaction>)

  datatype State = State(
    dag: Dag,
    rounds: map<int, RoundInfo>,
    lastRound: int,
    round: map<Hash, int>,            // Message.Round of the events that have one
    lamport: map<Hash, int>,          // Message.LamportTimestamp
    received: map<Hash, int>,         // Message.RoundReceived
    undetermined: seq<Hash>,
    pending: seq<Pending>,
    lastConsensusRound: Option<int>,
    frames: map<int, Frame>,
    consensus: seq<Hash>,             // the events added as consensus events, in order
    blocks: seq<Block>,
    pendingLoaded: int,
    consensusTransactions: nat)

  function LastCommitted(s: State): int {
    if s.lastConsensusRound == None then -1 else s.lastConsensusRound.value
  }

  // ---------------------------------------------------------------- counting

  /** The hashes of `order` that are not in `gone`, in the same order. */
  function Remaining(order: seq<Hash>, gone: set<Hash>): seq<Hash> {
    if order == [] then []
    else
      var n := |order| - 1;
      Remaining(order[..n], gone) + if order[n] in gone then [] else [order[n]]
  }

  function LoadedCount(d: Dag, list: seq<Hash>): nat
    requires AllStored(d, list)
  {
    if list == [] then 0
    else LoadedCount(d, list[..|list| - 1]) + if IsLoaded(d.events[list[|list| - 1]]) then 1 else 0
  }

  /** The transactions of the listed events, one after the other. */
  function Payload(d: Dag, list: seq<Hash>): seq<Transaction>
    requires AllStored(d, list)
  {
    if list == [] then []
    else Payload(d, list[..|list| - 1]) + d.events[list[|list| - 1]].transactions
  }

  /** The events of frames 0 .. n - 1. */
  function FrameEvents(frames: map<int, Frame>, n: nat): seq<Hash>
    requires forall r :: 0 <= r < n ==> r in frames
  {
    if n == 0 then [] else FrameEvents(frames, n - 1) + frames[n - 1].events
  }

  function HashOfFrame(d: Dag, f: Frame): FrameHash {
    FrameHash(f, seq(|f.events|, i requires 0 <= i < |f.events| =>
                                   if f.events[i] in d.topo then d.topo[f.events[i]] else 0))
  }

  /** One block for each of frames 0 .. n - 1 that carries transactions, numbered from 0. */
  function BlocksFor(d: Dag, frames: map<int, Frame>, n: nat): seq<Block>
    requires forall r :: 0 <= r < n ==> r in frames && AllStored(d, frames[r].events)
  {
    if n == 0 then []
    else
      var blocks, txs := BlocksFor(d, frames, n - 1), Payload(d, frames[n - 1].events);
      blocks + if txs == [] then [] else [Block(|blocks|, n - 1, HashOfFrame(d, frames[n - 1]), txs)]
  }

  function BlockPayload(blocks: seq<Block>): seq<Transaction> {
    if blocks == [] then [] else BlockPayload(blocks[..|blocks| - 1]) + blocks[|blocks| - 1].transactions
  }

  // ---------------------------------------------------------------- what every pass keeps

  /** Rounds and timestamps are assigned to the oldest events, and are what the graph says. */
  ghost predicate Divided(s: State)
    requires Based(s.dag)
  {
    && s.round.Keys == s.lamport.Keys <= s.dag.events.Keys
    && (forall h :: h in s.round ==> s.round[h] == Round(s.dag, h) && s.lamport[h] == Lamport(s.dag, h))
    && (forall g, h :: g in s.dag.events && h in s.round && Rank(s.dag, g) < Rank(s.dag, h) ==> g in s.round)
  }

  /** The entry `rounds[r].events[h]` is what it should be. */
  ghost predicate EntryOk(s: State, r: int, h: Hash)
    requires Based(s.dag) && r in s.rounds && h in s.rounds[r].events
  {
    var e := s.rounds[r].events[h];
    && h in s.dag.events && h in s.round
    && (s.round[h] == r || e.consensus)
    && (e.isWitness <==> s.round[h] == r && Witness(s.dag, h))
    && (e.consensus <==> h in s.received && s.received[h] == r)
    && (e.famous != Undefined ==> e.isWitness && Verdict(s, h, e.famous == Yes))
  }

  /** Some witness in the table decides the fame of `x` as `v`. */
  ghost predicate Verdict(s: State, x: Hash, v: bool)
    requires Based(s.dag)
  {
    exists y :: y in s.round && Ballot(s.dag, x, y) && Decides(s.dag, x, y, v)
  }

  /** Every round of the table has a witness. */
  ghost predicate Witnessed(s: State) {
    forall r :: r in s.rounds ==> s.rounds[r].Witnesses() != {}
  }

  /** The table holds rounds 0 to lastRound, each with its events and a witness, each queued once. */
  ghost predicate Table(s: State)
    requires Based(s.dag)
  {
    && -1 <= s.lastRound
    && (forall r :: r in s.rounds <==> 0 <= r <= s.lastRound)
    && (forall r :: r in s.rounds ==> s.rounds[r].queued)
    && Witnessed(s)
    && (forall r, h :: r in s.rounds && h in s.rounds[r].events ==> EntryOk(s, r, h))
    && (forall h :: h in s.round ==> s.round[h] in s.rounds && h in s.rounds[s.round[h]].events)
    && (forall h :: h in s.received ==> h in s.round && s.round[h] < s.received[h] <= s.lastRound &&
                                        s.received[h] in s.rounds && h in s.rounds[s.received[h]].events)
  }

  lemma {:induction false} TableEntry(s: State, r: int, h: Hash)
    requires Based(s.dag) && Table(s) && r in s.rounds && h in s.rounds[r].events
    ensures EntryOk(s, r, h)
  {
    hide EntryOk, WellFormed;
  }

  /** The queue is exactly the rounds after the last committed one. */
  ghost predicate Queue(s: State) {
    && (s.lastConsensusRound == None || 0 <= s.lastConsensusRound.value)
    && |s.pending| == s.lastRound - LastCommitted(s)
    && forall k :: 0 <= k < |s.pending| ==> s.pending[k].index == LastCommitted(s) + 1 + k
  }

  ghost predicate FrameSound(s: State, r: int)
    requires r in s.frames
  {
    var f := s.frames[r].events;
    && s.frames[r].round == r
    && (forall i :: 0 <= i < |f| ==>
         f[i] in s.received && s.received[f[i]] == r && f[i] in s.dag.events && f[i] in s.lamport)
    && (forall i, j :: 0 <= i < j < |f| ==> f[i] != f[j])
    && (forall i, j :: 0 <= i < j < |f| ==>
          !Less((s.lamport[f[j]], s.dag.events[f[j]].signature.r), (s.lamport[f[i]], s.dag.events[f[i]].signature.r)))
  }

  /** One frame per committed round; the consensus events are the frames end to end. */
  ghost predicate Committed(s: State) {
    && (forall r :: r in s.frames <==> 0 <= r <= LastCommitted(s))
    && (forall r :: r in s.frames ==> FrameSound(s, r))
    && -1 <= LastCommitted(s)
    && s.consensus == FrameEvents(s.frames, LastCommitted(s) + 1)
    && AllStored(s.dag, s.consensus)
  }

  ghost predicate BlockSound(s: State, i: nat)
    requires i < |s.blocks|
  {
    var b := s.blocks[i];
    && b.index == i
    && b.roundReceived in s.frames
    && AllStored(s.dag, s.frames[b.roundReceived].events)
    && b.transactions == Payload(s.dag, s.frames[b.roundReceived].events) != []
  }

  /** The blocks are those of the committed frames. */
  ghost predicate Chained(s: State) {
    && -1 <= LastCommitted(s)
    && (forall r :: 0 <= r <= LastCommitted(s) ==> r in s.frames && AllStored(s.dag, s.frames[r].events))
    && s.blocks == BlocksFor(s.dag, s.frames, LastCommitted(s) + 1)
  }

  /** Blocks are numbered from 0, in strictly increasing rounds, and carry between them every committed transaction. */
  ghost predicate Ledger(s: State) {
    && AllStored(s.dag, s.consensus) && AllStored(s.dag, s.dag.order) && Chained(s)
    && (forall i :: 0 <= i < |s.blocks| ==> BlockSound(s, i))
    && (forall i, j :: 0 <= i < j < |s.blocks| ==> s.blocks[i].roundReceived < s.blocks[j].roundReceived)
    && BlockPayload(s.blocks) == Payload(s.dag, s.consensus)
    && s.consensusTransactions == |BlockPayload(s.blocks)|
    && s.pendingLoaded == LoadedCount(s.dag, s.dag.order) - LoadedCount(s.dag, s.consensus)
  }

  /** True of every state a run without Reset reaches. */
  ghost predicate Sound(s: State) {
    && Based(s.dag)
    && Divided(s)
    && Table(s)
    && s.undetermined == Remaining(s.dag.order, s.received.Keys)
    && Queue(s)
    && Committed(s)
    && Ledger(s)
  }

  function Initial(participants: set<Creator>, cacheSize: nat): State {
    State(Dag(map[], map[], [], map c | c in participants :: [], map c | c in participants :: BaseRoot(c),
              map c | c in participants :: RootHash(c) := c, cacheSize),
          map[], -1, map[], map[], map[], [], [], None, map[], [], [], 0, 0)
  }

  lemma {:induction false} InitialBased(participants: set<Creator>, cacheSize: nat)
    ensures Based(Initial(participants, cacheSize).dag)
  {
    var d := Initial(participants, cacheSize).dag;
    assert forall c :: c in d.roots ==> RootHash(c) in d.rootOf;
    assert forall c :: c in d.roots ==> LogOk(d, c);
  }

  lemma {:induction false} InitialSound(participants: set<Creator>, cacheSize: nat)
    ensures Sound(Initial(participants, cacheSize))
  {
    hide Based, Divided, Table, Queue, Committed, Ledger;
    InitialBased(participants, cacheSize);
    InitialTables(participants, cacheSize);
    InitialCounts(participants, cacheSize);
  }

  lemma {:induction false} InitialTables(participants: set<Creator>, cacheSize: nat)
    requires Based(Initial(participants, cacheSize).dag)
    ensures var s := Initial(participants, cacheSize); Divided(s) && Table(s) && Queue(s)
  {
    hide Based, Round, Lamport, EntryOk;
  }

  lemma {:induction false} InitialCounts(participants: set<Creator>, cacheSize: nat)
    ensures var s := Initial(participants, cacheSize); Committed(s) && Ledger(s)
  {
  }
}
