/** Two nodes that hold different parts of one graph commit the same events in the same order. */
module Agreement {
  import opened Dags
  import opened Rounds
  import opened Fame
  import opened Sorting
  import opened Consensus
  import opened ConsensusDecide
  import opened ConsensusRuns
  import opened CommitOrder
  import opened Frames
  import opened ConsensusRoots

  /** The node's graph is part of `d`. */
  ghost predicate Holds(s: State, d: Dag) {
    Sound(s) && Based(d) && SubDag(s.dag, d)
  }

  /** And its decided rounds have gained no witness. */
  ghost predicate PartOf(s: State, d: Dag) {
    Holds(s, d) && Stable(s)
  }

  /** What makes votes about every witness converge. */
  ghost predicate Converges(d: Dag) {
    && Based(d) && OneWitnessPerCreator(d)
    && forall x :: x in d.events && Witness(d, x) ==> StrongQuorums(d, x)
  }

  /** Different events have different timestamps or signatures. */
  ghost predicate KeysTellApart(d: Dag)
    requires WellFormed(d)
  {
    forall x, y ::
      x in d.events && y in d.events && Lamport(d, x) == Lamport(d, y)
        && d.events[x].signature.r == d.events[y].signature.r
      ==> x == y
  }

  // ---------------------------------------------------------------- fame

  /** Recorded fame is the verdict of some witness in the table. */
  lemma {:induction false} FameIsVerdict(s: State, r: int, w: Hash) returns (y: Hash)
    requires Sound(s) && r in s.rounds && w in s.rounds[r].events && s.rounds[r].events[w].famous != Undefined
    ensures y in s.round && Ballot(s.dag, w, y) && Decides(s.dag, w, y, s.rounds[r].events[w].famous == Yes)
    ensures w in s.dag.events && w in s.round && s.round[w] == r && Witness(s.dag, w)
  {
    hide WellFormed, Divided, Queue, Committed, Ledger, Remaining, Witness, Round, Decides;
    assert EntryOk(s, r, w);
    y :| y in s.round && Ballot(s.dag, w, y) && Decides(s.dag, w, y, s.rounds[r].events[w].famous == Yes);
  }

  /** Two nodes never store opposite fame for a witness. */
  lemma {:induction false} SameVerdict(a: State, b: State, d: Dag, r: int, w: Hash)
    requires Holds(a, d) && Holds(b, d) && OneWitnessPerCreator(d) && w in d.events && StrongQuorums(d, w)
    requires r in a.rounds && w in a.rounds[r].events && a.rounds[r].events[w].famous != Undefined
    requires r in b.rounds && w in b.rounds[r].events && b.rounds[r].events[w].famous != Undefined
    ensures a.rounds[r].events[w].famous == b.rounds[r].events[w].famous
  {
    hide Sound, WellFormed, Witness, Round, Decides, Ballot, StrongQuorums, OneWitnessPerCreator;
    var y := FameIsVerdict(a, r, w);
    var z := FameIsVerdict(b, r, w);
    FameAgreement(d, a.dag, b.dag, w, y, z, a.rounds[r].events[w].famous == Yes, b.rounds[r].events[w].famous == Yes);
  }

  // ---------------------------------------------------------------- witnesses that come late

  /** A node that has decided a round holds a witness two rounds up. */
  lemma {:induction false} TwoRoundsUp(s: State, r: int) returns (z: Hash)
    requires Sound(s) && 0 <= r && Decided(s, r)
    ensures z in s.dag.events && z in s.round && Witness(s.dag, z) && Round(s.dag, z) == r + 2
  {
    hide WellFormed, Queue, Committed, Ledger, Remaining, Witness, Round, Lamport, Decides, EntryOk, Reach, EventOk;
    var u :| u in s.rounds[r].Witnesses();
    var y := FameIsVerdict(s, r, u);
    Above(s.dag, u, y);
    z := NoGaps(s.dag, y, r + 2);
    if z != y {
      ReachRank(s.dag, y, z);
    }
  }

  lemma {:induction false} Above(d: Dag, x: Hash, y: Hash)
    requires Ballot(d, x, y) && (Decides(d, x, y, true) || Decides(d, x, y, false))
    ensures Round(d, y) >= Round(d, x) + 2
  {
    hide Based, Round, Witness, CoinRound, Yays, Nays;
  }

  /** A witness a node did not hold when it decided the round is not famous for any other. */
  lemma {:induction false} LateIsNotFamous(a: State, b: State, d: Dag, r: int, w: Hash)
    requires Holds(a, d) && Holds(b, d) && OneWitnessPerCreator(d) && w in d.events && StrongQuorums(d, w)
    requires 0 <= r && Decided(b, r) && w !in b.round
    requires r in a.rounds && w in a.rounds[r].events && a.rounds[r].events[w].famous != Undefined
    ensures a.rounds[r].events[w].famous == No
  {
    hide Sound, WellFormed, Witness, Round, Decides, Voters, OneWitnessPerCreator, Reach, Decided, SubDag;
    var y := FameIsVerdict(a, r, w);
    var z := TwoRoundsUp(b, r);
    RoundOfHeld(a, d, w);
    RoundOfHeld(b, d, z);
    NotSeen(b, d, z, w);
    Unseen(d, w, z);
    DecisionMoves(a.dag, d, w, y, a.rounds[r].events[w].famous == Yes);
    DecisionsAgree(d, w, y, z, a.rounds[r].events[w].famous == Yes, false);
  }

  lemma {:induction false} RoundOfHeld(s: State, d: Dag, w: Hash)
    requires Holds(s, d) && w in s.round
    ensures Based(s.dag) && w in s.dag.events && w in d.events && Round(d, w) == s.round[w]
    ensures Round(s.dag, w) == s.round[w]
    ensures Witness(s.dag, w) <==> Witness(d, w)
  {
    hide WellFormed, Table, Queue, Committed, Ledger, Remaining, Witness, Round, Lamport;
    RoundAgree(s.dag, d, w);
  }

  /** What has a round sees only what has one. */
  lemma {:induction false} NotSeen(s: State, d: Dag, z: Hash, w: Hash)
    requires Holds(s, d) && z in s.round && w in d.events && w !in s.round
    ensures !Reach(d, z, w)
  {
    hide WellFormed, Table, Queue, Committed, Ledger, Remaining, Witness, Round, Lamport, Reach;
    if Reach(d, z, w) {
      ReachAgree(s.dag, d, z, w);
      ReachKnown(s.dag, z, w);
      RootsAreNotEvents(d, s.dag, w);
      if z != w {
        ReachRank(s.dag, z, w);
      }
    }
  }

  lemma {:induction false} FamousToo(a: State, b: State, d: Dag, r: int)
    requires Holds(a, d) && Holds(b, d) && Converges(d) && 0 <= r && Decided(a, r) && Decided(b, r)
    ensures a.rounds[r].FamousWitnesses() <= b.rounds[r].FamousWitnesses()
  {
    hide Sound, WellFormed, SubDag, OneWitnessPerCreator, StrongQuorums, Witness, RoundInfo.WitnessesDecided;
    forall w | w in a.rounds[r].FamousWitnesses() ensures w in b.rounds[r].FamousWitnesses() {
      var y := FameIsVerdict(a, r, w);
      RoundOfHeld(a, d, w);
      if w in b.round {
        RoundOfHeld(b, d, w);
        InRow(b, r, w);
        SameVerdict(a, b, d, r, w);
      } else {
        LateIsNotFamous(a, b, d, r, w);
      }
    }
  }

  /** Two nodes that have decided a round have the same famous witnesses in it. */
  lemma {:induction false} SameFamous(a: State, b: State, d: Dag, r: int)
    requires Holds(a, d) && Holds(b, d) && Converges(d) && 0 <= r && Decided(a, r) && Decided(b, r)
    ensures a.rounds[r].FamousWitnesses() == b.rounds[r].FamousWitnesses()
  {
    hide Holds, Converges, Decided;
    FamousToo(a, b, d, r);
    FamousToo(b, a, d, r);
  }

  /** A witness of a decided round that has its round is in its row, settled. */
  lemma {:induction false} InRow(s: State, r: int, w: Hash)
    requires Sound(s) && Decided(s, r) && w in s.round && s.round[w] == r && w in s.dag.events && Based(s.dag)
    requires Witness(s.dag, w)
    ensures w in s.rounds[r].events && s.rounds[r].events[w].isWitness && s.rounds[r].events[w].famous != Undefined
  {
    hide WellFormed, Divided, Queue, Committed, Ledger, Remaining, Witness, Verdict;
    assert EntryOk(s, r, w);
  }

  // ---------------------------------------------------------------- receptions

  lemma {:induction false} SameSight(a: State, b: State, d: Dag, x: Hash, r: int)
    requires PartOf(a, d) && PartOf(b, d) && Converges(d)
    requires 0 <= r <= LastCommitted(a) && r <= LastCommitted(b)
    ensures AllSee(a, x, r) <==> AllSee(b, x, r)
  {
    hide WellFormed, Table, Divided, Queue, Committed, Ledger, Remaining, Converges, Reach, ReceivedAt;
    hide RoundInfo.WitnessesDecided;
    hide RoundInfo.FamousWitnesses, RoundInfo.Witnesses, Witnesses;
    assert Decided(a, r) && Decided(b, r);
    SameFamous(a, b, d, r);
    forall w | w in a.rounds[r].FamousWitnesses() ensures Reach(a.dag, w, x) <==> Reach(b.dag, w, x) {
      FamousKnown(a, r, w);
      FamousKnown(b, r, w);
      ReachAgree(a.dag, b.dag, w, x);
    }
  }

  lemma {:induction false} SeenIsDivided(a: State, b: State, d: Dag, x: Hash, r: int)
    requires Holds(a, d) && Holds(b, d) && x in a.round && AllSee(b, x, r)
    ensures x in b.round && a.round[x] == b.round[x]
  {
    hide WellFormed, Table, Queue, Committed, Ledger, Remaining, RoundInfo.FamousWitnesses, Reach, Round, Lamport;
    var w :| w in b.rounds[r].FamousWitnesses();
    FamousKnown(b, r, w);
    ReachKnown(b.dag, w, x);
    RootsAreNotEvents(a.dag, b.dag, x);
    if x != w {
      ReachRank(b.dag, w, x);
    }
    RoundAgree(a.dag, b.dag, x);
  }

  lemma {:induction false} SameReception(a: State, b: State, d: Dag, x: Hash, r: int)
    requires PartOf(a, d) && PartOf(b, d) && Converges(d)
    requires r <= LastCommitted(a) && r <= LastCommitted(b) && ReceivedAt(a, x, r)
    ensures ReceivedAt(b, x, r)
  {
    hide WellFormed, Table, Divided, Queue, Committed, Ledger, Remaining, Converges, AllSee, Decided;
    RoundsNotNegative(a);
    forall k | a.round[x] < k <= r ensures AllSee(a, x, k) <==> AllSee(b, x, k) {
      SameSight(a, b, d, x, k);
    }
    SeenIsDivided(a, b, d, x, r);
  }

  // ---------------------------------------------------------------- frames

  lemma {:induction false} InFrameIff(s: State, d: Dag, r: int, x: Hash)
    requires PartOf(s, d) && 0 <= r <= LastCommitted(s)
    ensures r in s.frames
    ensures x in s.frames[r].events <==> ReceivedAt(s, x, r)
  {
    hide WellFormed, Table, Divided, Queue, Ledger, Remaining, ReceivedAt, FrameSound, FrameEvents, Decided;
    if x in s.frames[r].events {
      var i :| 0 <= i < |s.frames[r].events| && s.frames[r].events[i] == x;
      FrameFacts(s, r, i);
    }
    if ReceivedAt(s, x, r) {
      ReceivedOnce(s, x, r, s.received[x]);
    }
  }

  ghost function KeysOf(d: Dag): Keys
    requires WellFormed(d)
  {
    map h | h in d.events :: (Lamport(d, h), d.events[h].signature.r)
  }

  lemma {:induction false} FrameKeyed(s: State, d: Dag, r: int)
    requires Holds(s, d) && r in s.frames
    ensures Keyed(s.frames[r].events, KeysOf(d)) && Sorted(s.frames[r].events, KeysOf(d))
    ensures forall i, j :: 0 <= i < j < |s.frames[r].events| ==> s.frames[r].events[i] != s.frames[r].events[j]
  {
    hide WellFormed, Table, Queue, Ledger, Remaining, Lamport, Round, FrameEvents;
    assert FrameSound(s, r);
    var f := s.frames[r].events;
    forall i | 0 <= i < |f|
      ensures f[i] in KeysOf(d) && KeysOf(d)[f[i]] == (s.lamport[f[i]], s.dag.events[f[i]].signature.r)
    {
      LamportAgree(s.dag, d, f[i]);
    }
  }

  lemma {:induction false} SameBag(s: seq<Hash>, t: seq<Hash>)
    requires forall x :: x in s <==> x in t
    requires forall i, j :: 0 <= i < j < |s| ==> s[i] != s[j]
    requires forall i, j :: 0 <= i < j < |t| ==> t[i] != t[j]
    ensures multiset(s) == multiset(t)
  {
    forall x ensures multiset(s)[x] == multiset(t)[x] {
      Once(s, x);
      Once(t, x);
    }
  }

  lemma {:induction false} Once(s: seq<Hash>, x: Hash)
    requires forall i, j :: 0 <= i < j < |s| ==> s[i] != s[j]
    ensures multiset(s)[x] == if x in s then 1 else 0
  {
    if s != [] {
      var n := |s| - 1;
      assert s == s[..n] + [s[n]];
      Once(s[..n], x);
    }
  }

  /** Two nodes list the same events in the same order for a round both have committed. */
  lemma {:induction false} FrameAgreement(a: State, b: State, d: Dag, r: int)
    requires PartOf(a, d) && PartOf(b, d) && Converges(d) && KeysTellApart(d)
    requires 0 <= r <= LastCommitted(a) && r <= LastCommitted(b)
    ensures r in a.frames && r in b.frames && a.frames[r].events == b.frames[r].events
  {
    hide WellFormed, Table, Divided, Queue, Committed, Ledger, Remaining, Converges, Stable, ReceivedAt, Keyed, Sorted;
    InFrameIff(a, d, r, NoHash);
    InFrameIff(b, d, r, NoHash);
    forall x ensures x in a.frames[r].events <==> x in b.frames[r].events {
      InFrameIff(a, d, r, x);
      InFrameIff(b, d, r, x);
      if ReceivedAt(a, x, r) { SameReception(a, b, d, x, r); }
      if ReceivedAt(b, x, r) { SameReception(b, a, d, x, r); }
    }
    hide Sound;
    SameListing(a, b, d, r);
  }

  /** The same events are listed in the same order. */
  lemma {:induction false} SameListing(a: State, b: State, d: Dag, r: int)
    requires Holds(a, d) && Holds(b, d) && KeysTellApart(d) && r in a.frames && r in b.frames
    requires forall x :: x in a.frames[r].events <==> x in b.frames[r].events
    ensures a.frames[r].events == b.frames[r].events
  {
    hide Sound, WellFormed, SubDag, KeysTellApart, Keyed, Sorted;
    FrameKeyed(a, d, r);
    FrameKeyed(b, d, r);
    SameBag(a.frames[r].events, b.frames[r].events);
    KeysDifferOf(d, a.frames[r].events);
    SortedUnique(a.frames[r].events, b.frames[r].events, KeysOf(d));
  }

  lemma {:induction false} KeysDifferOf(d: Dag, s: seq<Hash>)
    requires WellFormed(d) && KeysTellApart(d)
    ensures KeysDiffer(s, KeysOf(d))
  {
    hide WellFormed, Lamport;
  }

  // ---------------------------------------------------------------- the commit order

  lemma {:induction false} SamePrefix(f: map<int, Frame>, g: map<int, Frame>, m: nat, n: nat)
    requires m <= n
    requires forall r :: 0 <= r < n ==> r in g
    requires forall r :: 0 <= r < m ==> r in f && f[r].events == g[r].events
    ensures FrameEvents(f, m) <= FrameEvents(g, n)
    ensures m == n ==> FrameEvents(f, m) == FrameEvents(g, n)
    decreases n
  {
    if m < n {
      SamePrefix(f, g, m, n - 1);
    } else if m > 0 {
      SamePrefix(f, g, m - 1, m - 1);
    }
  }

  lemma {:induction false} HeldAgree(a: State, b: State, d: Dag)
    requires Holds(a, d) && Holds(b, d)
    ensures Based(a.dag) && Based(b.dag) && Agree(a.dag, b.dag)
  {
    hide WellFormed, Table, Divided, Queue, Committed, Ledger, Remaining;
  }

  /** And put them on the same roots: the frames are the same. */
  lemma {:induction false} SameFrame(a: State, b: State, d: Dag, r: int)
    requires PartOf(a, d) && PartOf(b, d) && Rooted(a) && Rooted(b) && Converges(d) && KeysTellApart(d)
    requires 0 <= r <= LastCommitted(a) && r <= LastCommitted(b)
    ensures r in a.frames && r in b.frames && a.frames[r] == b.frames[r]
  {
    hide Sound, WellFormed, Converges, Stable, KeysTellApart, Rooted, SubDag;
    forall k | 0 <= k <= r ensures k in a.frames && k in b.frames && a.frames[k].events == b.frames[k].events {
      FrameAgreement(a, b, d, k);
    }
    SameRoots(a, b, d, r);
  }

  /** Frames that list the same events up to some round have the same roots there. */
  lemma {:induction false} SameRoots(a: State, b: State, d: Dag, r: nat)
    requires Holds(a, d) && Holds(b, d) && Rooted(a) && Rooted(b)
    requires forall k :: 0 <= k <= r ==> k in a.frames && k in b.frames && a.frames[k].events == b.frames[k].events
    ensures a.frames[r] == b.frames[r]
  {
    hide Sound, WellFormed, RootsAfter, FrameEvents, Agree, SubDag;
    HeldAgree(a, b, d);
    assert RootedAt(a, r) && RootedAt(b, r);
    SamePrefix(a.frames, b.frames, r, r);
    RootsAgree(a.dag, b.dag, FrameEvents(a.frames, r), a.frames[r].events);
    FrameIsOfRound(a, r);
    FrameIsOfRound(b, r);
  }

  lemma {:induction false} FrameIsOfRound(s: State, r: int)
    requires Sound(s) && r in s.frames
    ensures s.frames[r].round == r
  {
    hide WellFormed, Table, Divided, Queue, Ledger, Remaining, FrameEvents;
    assert FrameSound(s, r);
  }

  // ---------------------------------------------------------------- the chain of blocks

  /** The two blocks have the same body and come from the same frame. */
  ghost predicate Alike(x: Block, y: Block) {
    x.index == y.index && x.roundReceived == y.roundReceived && x.transactions == y.transactions
      && x.frameHash.frame == y.frameHash.frame
  }

  ghost predicate AllAlike(xs: seq<Block>, ys: seq<Block>) {
    |xs| <= |ys| && forall i :: 0 <= i < |xs| ==> Alike(xs[i], ys[i])
  }

  /** Blocks built from the same frames over graphs that agree are alike. */
  lemma {:induction false} SameChain(d: Dag, e: Dag, f: map<int, Frame>, g: map<int, Frame>, m: nat, n: nat)
    requires m <= n && Agree(d, e)
    requires forall r :: 0 <= r < m ==> r in f && AllStored(d, f[r].events)
    requires forall r :: 0 <= r < n ==> r in g && AllStored(e, g[r].events)
    requires forall r :: 0 <= r < m ==> f[r] == g[r]
    ensures AllAlike(BlocksFor(d, f, m), BlocksFor(e, g, n))
    ensures m == n ==> |BlocksFor(d, f, m)| == |BlocksFor(e, g, n)|
    decreases n
  {
    hide Payload, Agree;
    if m < n {
      SameChain(d, e, f, g, m, n - 1);
    } else if m > 0 {
      SameChain(d, e, f, g, m - 1, m - 1);
      SamePayload(d, e, f[m - 1].events);
    }
  }

  lemma {:induction false} SamePayload(d: Dag, e: Dag, list: seq<Hash>)
    requires Agree(d, e) && AllStored(d, list) && AllStored(e, list)
    ensures Payload(d, list) == Payload(e, list)
  {
    if list != [] {
      SamePayload(d, e, list[..|list| - 1]);
    }
  }

  /** Whichever node is behind has committed a prefix of the other's events, in the
      same frames, and produced blocks with the same bodies from them. */
  lemma {:induction false} CommitAgreement(a: State, b: State, d: Dag)
    requires PartOf(a, d) && PartOf(b, d) && Rooted(a) && Rooted(b) && Converges(d) && KeysTellApart(d)
    requires LastCommitted(a) <= LastCommitted(b)
    ensures a.consensus <= b.consensus
    ensures forall r :: r in a.frames ==> r in b.frames && a.frames[r] == b.frames[r]
    ensures AllAlike(a.blocks, b.blocks)
  {
    hide Sound, Rooted, Converges, Stable, KeysTellApart, SubDag, WellFormed, AllAlike;
    forall r | 0 <= r <= LastCommitted(a) ensures r in a.frames && r in b.frames && a.frames[r] == b.frames[r] {
      SameFrame(a, b, d, r);
    }
    FramesSuffice(a, b, d);
  }

  /** Equal frames make equal commits. */
  lemma {:induction false} FramesSuffice(a: State, b: State, d: Dag)
    requires Holds(a, d) && Holds(b, d) && LastCommitted(a) <= LastCommitted(b)
    requires forall r :: 0 <= r <= LastCommitted(a) ==> r in a.frames && r in b.frames && a.frames[r] == b.frames[r]
    ensures a.consensus <= b.consensus
    ensures forall r :: r in a.frames ==> r in b.frames && a.frames[r] == b.frames[r]
    ensures AllAlike(a.blocks, b.blocks)
  {
    hide Sound, FrameEvents, BlocksFor, Agree, SubDag, WellFormed, AllAlike;
    HeldAgree(a, b, d);
    FrameParts(a);
    FrameParts(b);
    ChainParts(a);
    ChainParts(b);
    SamePrefix(a.frames, b.frames, LastCommitted(a) + 1, LastCommitted(b) + 1);
    SameChain(a.dag, b.dag, a.frames, b.frames, LastCommitted(a) + 1, LastCommitted(b) + 1);
  }

  lemma {:induction false} ChainParts(s: State)
    requires Sound(s)
    ensures -1 <= LastCommitted(s)
    ensures forall r :: 0 <= r <= LastCommitted(s) ==> r in s.frames && AllStored(s.dag, s.frames[r].events)
    ensures s.blocks == BlocksFor(s.dag, s.frames, LastCommitted(s) + 1)
  {
    hide WellFormed, Table, Divided, Queue, Committed, Remaining, BlocksFor, BlockSound, Payload, LoadedCount;
    hide BlockPayload;
  }

  // ---------------------------------------------------------------- the hashes in the blocks

  /** The graphs give the frame's events the same topological indexes. */
  ghost predicate SamePlaces(d: Dag, e: Dag, f: Frame) {
    forall i :: 0 <= i < |f.events| ==>
      f.events[i] in d.topo && f.events[i] in e.topo && d.topo[f.events[i]] == e.topo[f.events[i]]
  }

  /** The frame hash covers each event's topological index, which is the node's own:
      two nodes hash the same frame alike if and only if they took its events in at the same places. */
  lemma {:induction false} SameHashIff(d: Dag, e: Dag, f: Frame)
    requires Based(d) && Based(e) && AllStored(d, f.events) && AllStored(e, f.events)
    ensures HashOfFrame(d, f) == HashOfFrame(e, f) <==> SamePlaces(d, e, f)
  {
    hide EventOk, LogOk;
    var x, y := HashOfFrame(d, f).topological, HashOfFrame(e, f).topological;
    forall i | 0 <= i < |f.events|
      ensures f.events[i] in d.topo && f.events[i] in e.topo && x[i] == d.topo[f.events[i]]
      ensures y[i] == e.topo[f.events[i]]
    {
      assert f.events[i] in d.topo.Keys && f.events[i] in e.topo.Keys;
    }
    if SamePlaces(d, e, f) {
      assert x == y;
    } else {
      var i :| 0 <= i < |f.events| && d.topo[f.events[i]] != e.topo[f.events[i]];
      assert x[i] != y[i];
    }
  }

  /** What hash a block carries. */
  lemma {:induction false} BlockHashed(d: Dag, frames: map<int, Frame>, n: nat, i: nat)
    requires forall r :: 0 <= r < n ==> r in frames && AllStored(d, frames[r].events)
    requires i < |BlocksFor(d, frames, n)|
    ensures var b := BlocksFor(d, frames, n)[i];
            0 <= b.roundReceived < n && b.frameHash == HashOfFrame(d, frames[b.roundReceived])
  {
    hide Payload, HashOfFrame;
    if i < |BlocksFor(d, frames, n - 1)| {
      BlockHashed(d, frames, n - 1, i);
    }
  }

  /** So of two nodes' blocks that are alike, the whole blocks are equal exactly under that condition. */
  lemma {:induction false} BlocksEqualIff(a: State, b: State, d: Dag, i: nat)
    requires PartOf(a, d) && PartOf(b, d) && Rooted(a) && Rooted(b) && Converges(d) && KeysTellApart(d)
    requires LastCommitted(a) <= LastCommitted(b) && i < |a.blocks|
    ensures i < |b.blocks| && Alike(a.blocks[i], b.blocks[i])
    ensures a.blocks[i] == b.blocks[i] <==> SamePlaces(a.dag, b.dag, a.blocks[i].frameHash.frame)
  {
    hide Sound, Rooted, Converges, Stable, KeysTellApart, BlocksFor, Agree, SubDag, WellFormed, SamePlaces;
    HeldAgree(a, b, d);
    ChainParts(a);
    ChainParts(b);
    CommitAgreement(a, b, d);
    BlockHashed(a.dag, a.frames, LastCommitted(a) + 1, i);
    BlockHashed(b.dag, b.frames, LastCommitted(b) + 1, i);
    SameHashIff(a.dag, b.dag, a.blocks[i].frameHash.frame);
  }

  // ---------------------------------------------------------------- whole runs

  /** Two nodes, each in any state of any run of its own, never store opposite fame for a witness. */
  lemma {:induction false} RunsAgreeOnFame(participants: set<Creator>, run: seq<State>, steps: seq<Step>, m: nat,
                                           run': seq<State>, steps': seq<Step>, n: nat, d: Dag, r: int, w: Hash)
    requires IsRun(participants, run, steps) && m < |run| && IsRun(participants, run', steps') && n < |run'|
    requires Based(d) && SubDag(run[m].dag, d) && SubDag(run'[n].dag, d)
    requires OneWitnessPerCreator(d) && w in d.events && StrongQuorums(d, w)
    requires r in run[m].rounds && w in run[m].rounds[r].events && run[m].rounds[r].events[w].famous != Undefined
    requires r in run'[n].rounds && w in run'[n].rounds[r].events && run'[n].rounds[r].events[w].famous != Undefined
    ensures run[m].rounds[r].events[w].famous == run'[n].rounds[r].events[w].famous
  {
    hide IsRun, Sound, Based, SubDag, OneWitnessPerCreator, StrongQuorums;
    RunSound(participants, run, steps, m);
    RunSound(participants, run', steps', n);
    SameVerdict(run[m], run'[n], d, r, w);
  }

  /** `a` has committed part of what `b` has. */
  ghost predicate Behind(a: State, b: State) {
    && a.consensus <= b.consensus && AllAlike(a.blocks, b.blocks)
    && forall r :: r in a.frames ==> r in b.frames && a.frames[r] == b.frames[r]
  }

  /** Of two nodes, each in any state of any run of its own whose decided rounds gain no witness, one is behind the
      other. */
  lemma {:induction false} RunsAgree(participants: set<Creator>, run: seq<State>, steps: seq<Step>, m: nat,
                                     run': seq<State>, steps': seq<Step>, n: nat, d: Dag)
    requires IsRun(participants, run, steps) && Quiet(run, steps) && m < |run|
    requires IsRun(participants, run', steps') && Quiet(run', steps') && n < |run'|
    requires Based(d) && SubDag(run[m].dag, d) && SubDag(run'[n].dag, d) && Converges(d) && KeysTellApart(d)
    ensures Behind(run[m], run'[n]) || Behind(run'[n], run[m])
  {
    hide IsRun, Quiet, Sound, Stable, Rooted, Based, SubDag, Converges, KeysTellApart, AllAlike, LastCommitted;
    RunStable(participants, run, steps, m);
    RunStable(participants, run', steps', n);
    RunRooted(participants, run, steps, m);
    RunRooted(participants, run', steps', n);
    if LastCommitted(run[m]) <= LastCommitted(run'[n]) {
      CommitAgreement(run[m], run'[n], d);
    } else {
      CommitAgreement(run'[n], run[m], d);
    }
  }
}
