/** What building a frame relies on: the listing of its events, and its roots one participant at a time. */
module FrameBuild {
  import opened Dags
  import opened Rounds
  import opened Sorting
  import opened Consensus
  import opened ConsensusInsert
  import opened ConsensusDecide
  import opened ConsensusCommit
  import opened ConsensusPasses
  import opened ConsensusRoots
  import opened Frames

  // ---------------------------------------------------------------- the listing

  function FrameKeys(dag: Dag, lamport: map<Hash, int>): Keys {
    map h | h in lamport && h in dag.events :: (lamport[h], dag.events[h].signature.r)
  }

  /** The consensus events of a round have timestamps. */
  lemma {:induction false} ReceivedHaveKeys(s: State, r: int)
    requires Based(s.dag) && Divided(s) && Table(s) && r in s.rounds
    ensures forall h :: h in s.rounds[r].ConsensusEvents() ==> h in s.lamport && h in s.dag.events && h in s.round
  {
    hide WellFormed, Witness, Verdict;
    forall h | h in s.rounds[r].ConsensusEvents() ensures h in s.lamport && h in s.dag.events && h in s.round {
      assert EntryOk(s, r, h);
    }
  }

  lemma {:induction false} SortedIsFrame(s: State, r: int, sorted: seq<Hash>)
    requires r in s.rounds && Lists(sorted, s.rounds[r].ConsensusEvents())
    requires Keyed(sorted, FrameKeys(s.dag, s.lamport)) && Sorted(sorted, FrameKeys(s.dag, s.lamport))
    ensures AllStored(s.dag, sorted) && FrameLists(s, r, sorted)
  {
    hide Less;
    var keys := FrameKeys(s.dag, s.lamport);
    forall i, j | 0 <= i < j < |sorted| ensures !Less(FrameKey(s, sorted[j]), FrameKey(s, sorted[i])) {
      assert keys[sorted[i]] == FrameKey(s, sorted[i]) && keys[sorted[j]] == FrameKey(s, sorted[j]);
    }
  }

  /** What GetFrame returns, and the stored frames afterwards. */
  ghost predicate Fetched(s: State, r: int, res: Result<Frame>, frames: map<int, Frame>) {
    if r in s.frames then res == Ok(s.frames[r]) && frames == s.frames
    else if r !in s.rounds then res == Err(KeyNotFound) && frames == s.frames
    else res.Ok? && FrameOf(s, r, res.value) && frames == s.frames[r := res.value]
  }

  lemma {:induction false} FrameBuilt(s: State, r: int, lasts: map<Creator, Hash>, list: seq<Hash>,
                                      roots: map<Creator, Root>)
    requires Based(s.dag) && LastsRight(s.dag, s.consensus, lasts) && LastsOk(s.dag, lasts) && AllStored(s.dag, list)
    requires FrameLists(s, r, list)
    requires roots == FrameRoots(s.dag, lasts, list)
    ensures FrameOf(s, r, Frame(r, roots, list))
  {
    hide WellFormed, FrameLists, FrameRoots, LastsOf;
  }

  // ---------------------------------------------------------------- the roots

  /** `c` has a root exactly if it has an event in the list, made from its first. */
  ghost predicate FirstRooted(d: Dag, list: seq<Hash>, roots: map<Creator, Root>, c: Creator)
    requires Based(d) && AllStored(d, list)
  {
    var first := FirstOf(d, list, c);
    && (c in roots <==> first.Some?)
    && (first.Some? ==> first.value in d.events && roots[c] == CreatedRoot(d, first.value))
  }

  ghost predicate FirstsRooted(d: Dag, list: seq<Hash>, k: nat, roots: map<Creator, Root>) {
    && Based(d) && k <= |list| && AllStored(d, list)
    && forall c :: FirstRooted(d, list[..k], roots, c)
  }

  lemma {:induction false} FirstsBegin(d: Dag, list: seq<Hash>)
    requires Based(d) && AllStored(d, list)
    ensures FirstsRooted(d, list, 0, map[])
  {
    hide WellFormed;
  }

  lemma {:induction false} FirstsAdvance(d: Dag, list: seq<Hash>, k: nat, roots: map<Creator, Root>)
    requires k < |list| && FirstsRooted(d, list, k, roots)
    ensures list[k] in d.events
    ensures d.events[list[k]].creator in roots ==> FirstsRooted(d, list, k + 1, roots)
    ensures var c := d.events[list[k]].creator;
            c !in roots ==> FirstsRooted(d, list, k + 1, roots[c := CreatedRoot(d, list[k])])
  {
    hide WellFormed, CreatedRoot;
    var b := d.events[list[k]].creator;
    assert FirstRooted(d, list[..k], roots, b);
    var roots' := if b in roots then roots else roots[b := CreatedRoot(d, list[k])];
    var list' := list[..k + 1];
    forall c ensures FirstRooted(d, list', roots', c) {
      assert FirstRooted(d, list[..k], roots, c);
      FirstOfNext(d, list, k, c);
    }
  }

  lemma {:induction false} FirstOfNext(d: Dag, list: seq<Hash>, k: nat, c: Creator)
    requires k < |list| && AllStored(d, list)
    ensures FirstOf(d, list[..k + 1], c) ==
            var first := FirstOf(d, list[..k], c);
            if first.Some? then first else if d.events[list[k]].creator == c then Some(list[k]) else None
  {
    assert list[..k + 1][..k] == list[..k];
  }

  lemma {:induction false} SomeCreator(rest: set<Creator>)
    requires rest != {}
    ensures exists c: Creator :: c in rest
  {
    if forall c: Creator :: c !in rest {
      assert false;
    }
  }

  /** Every participant outside `rest`, and every one with an event in the frame, has its root. */
  ghost predicate PeersRooted(d: Dag, lasts: map<Creator, Hash>, list: seq<Hash>, roots: map<Creator, Root>,
                              rest: set<Creator>) {
    && Based(d) && AllStored(d, list) && LastsOk(d, lasts)
    && (forall c :: c in roots <==> c in d.roots && (c !in rest || FirstOf(d, list, c).Some?))
    && forall c :: c in roots ==> roots[c] == PlainRoot(d, lasts, list, c)
  }

  lemma {:induction false} PeersBegin(d: Dag, lasts: map<Creator, Hash>, list: seq<Hash>, roots: map<Creator, Root>)
    requires FirstsRooted(d, list, |list|, roots) && LastsOk(d, lasts)
    ensures PeersRooted(d, lasts, list, roots, d.roots.Keys)
  {
    hide CreatedRoot, FirstOf;
    assert list[..|list|] == list;
    forall c ensures c in roots <==> FirstOf(d, list, c).Some?
             ensures c in roots ==> c in d.roots && roots[c] == PlainRoot(d, lasts, list, c) {
      assert FirstRooted(d, list, roots, c);
      if c in roots {
        FirstIsListed(d, list, c);
        assert EventOk(d, FirstOf(d, list, c).value);
      }
    }
  }

  lemma {:induction false} PeersAdvance(d: Dag, lasts: map<Creator, Hash>, list: seq<Hash>, roots: map<Creator, Root>,
                                        rest: set<Creator>, c: Creator)
    requires PeersRooted(d, lasts, list, roots, rest) && c in rest && rest <= d.roots.Keys
    ensures c in d.roots
    ensures c in roots ==> PeersRooted(d, lasts, list, roots, rest - {c})
    ensures c !in roots && c in lasts ==>
              lasts[c] in d.events && PeersRooted(d, lasts, list, roots[c := CreatedRoot(d, lasts[c])], rest - {c})
    ensures c !in roots && c !in lasts ==> PeersRooted(d, lasts, list, roots[c := d.roots[c]], rest - {c})
  {
    hide WellFormed, CreatedRoot, FirstOf;
  }

  lemma {:induction false} PeersEnd(d: Dag, lasts: map<Creator, Hash>, list: seq<Hash>, roots: map<Creator, Root>)
    requires PeersRooted(d, lasts, list, roots, {})
    ensures roots == PlainRoots(d, lasts, list)
  {
    hide WellFormed, PlainRoot;
    var plain := PlainRoots(d, lasts, list);
    assert forall c :: c in roots <==> c in plain;
    assert forall c :: c in roots ==> roots[c] == plain[c];
  }

  /** The step of the last loop, with the hashes met so far in a set. */
  lemma {:induction false} OthersAdvance(d: Dag, plain: map<Creator, Root>, list: seq<Hash>, k: nat, treated: set<Hash>)
    requires Based(d) && AllStored(d, list) && k < |list| && forall h :: h in treated <==> h in list[..k + 1]
    ensures var roots, e := WithOthers(d, plain, list, k), d.events[list[k]];
            (e.otherParent != NoHash && e.otherParent !in treated && e.creator in roots
              && e.selfParent != roots[e.creator].selfParent.hash)
            <==> NeedsOther(d, roots, list, k)
    ensures d.events[list[k]].otherParent != NoHash ==> d.events[list[k]].otherParent in d.events
  {
    hide WellFormed, WithOthers;
    NamedIsStored(d, list[k]);
    assert list[..k + 1] == list[..k] + [list[k]];
  }

  lemma {:induction false} OthersKeepKeys(d: Dag, plain: map<Creator, Root>, list: seq<Hash>, k: nat)
    requires Based(d) && AllStored(d, list) && k <= |list|
    ensures WithOthers(d, plain, list, k).Keys == plain.Keys
  {
    hide WellFormed, OtherRoot;
    if k > 0 {
      OthersKeepKeys(d, plain, list, k - 1);
    }
  }

  ghost predicate CreatorsIn(d: Dag, list: seq<Hash>, roots: map<Creator, Root>)
    requires AllStored(d, list)
  {
    forall i :: 0 <= i < |list| ==> d.events[list[i]].creator in roots
  }

  lemma {:induction false} CreatorsHaveRoots(d: Dag, lasts: map<Creator, Hash>, list: seq<Hash>)
    requires Based(d) && AllStored(d, list) && LastsOk(d, lasts)
    ensures CreatorsIn(d, list, PlainRoots(d, lasts, list))
  {
    hide PlainRoot;
    forall i | 0 <= i < |list| ensures d.events[list[i]].creator in d.roots {
      assert EventOk(d, list[i]);
    }
  }

  // ---------------------------------------------------------------- the last consensus events

  /** `lasts` holds the last consensus event of each participant that has one. */
  ghost predicate LastsRight(d: Dag, consensus: seq<Hash>, lasts: map<Creator, Hash>) {
    Based(d) && AllStored(d, consensus) && lasts == LastsOf(d, consensus)
  }

  lemma {:induction false} LastsNext(d: Dag, consensus: seq<Hash>, lasts: map<Creator, Hash>, h: Hash)
    requires LastsRight(d, consensus, lasts) && h in d.events
    ensures LastsRight(d, consensus + [h], lasts[d.events[h].creator := h])
  {
    hide WellFormed;
    assert (consensus + [h])[..|consensus|] == consensus;
  }

  lemma {:induction false} LastsAreOk(d: Dag, consensus: seq<Hash>, lasts: map<Creator, Hash>)
    requires LastsRight(d, consensus, lasts)
    ensures LastsOk(d, lasts)
  {
    hide WellFormed, LastsOk;
  }

  /** True of the stored frames and last consensus events in every run. */
  ghost predicate Rooting(s: State, lasts: map<Creator, Hash>) {
    Rooted(s) && LastsRight(s.dag, s.consensus, lasts)
  }

  lemma {:induction false} RootingBegins(participants: set<Creator>, cacheSize: nat)
    ensures Rooting(Initial(participants, cacheSize), map[])
  {
    hide WellFormed, Rooted;
    InitialBased(participants, cacheSize);
    InitialRooted(participants, cacheSize);
  }

  lemma {:induction false} RootingKept(s: State, s': State, lasts: map<Creator, Hash>)
    requires Rooting(s, lasts) && s'.dag == s.dag && s'.frames == s.frames && s'.consensus == s.consensus
    ensures Rooting(s', lasts)
  {
    hide Rooted, LastsRight;
    RootedKept(s, s');
  }

  /** Inserting an event leaves the stored frames and the last consensus events right. */
  lemma {:induction false} RootingStays(s: State, h: Hash, e: Event, lasts: map<Creator, Hash>)
    requires Sound(s) && Insert(s.dag, h, e).Ok? && Fresh(s.dag, h, e) && Rooting(s, lasts)
    ensures Rooting(InsertedState(s, h, e), lasts)
  {
    hide Sound, WellFormed, Fresh, Rooted, Grown, Insert, LastsOf, Agree;
    var s' := InsertedState(s, h, e);
    InsertGrows(s.dag, h, e);
    RootedGrows(s, s');
    StoredGrows(s.dag, s'.dag, s.consensus);
    GrownBased(s.dag, s'.dag);
    LastsAgree(s.dag, s'.dag, s.consensus);
  }

  lemma {:induction false} GrownBased(d: Dag, d': Dag)
    requires Grown(d, d')
    ensures Based(d')
  {
    hide Based;
  }

  // ---------------------------------------------------------------- committing from the head of the queue

  /** Whatever the commits from `g` lead to, those from `s` lead to it. */
  ghost predicate Onto(s: State, g: State) {
    forall s' :: Commits(g, s') ==> Commits(s, s')
  }

  /** The commits done so far have led from `s` to `g`, and those from `g` on are still to be done. */
  ghost predicate Committing(s: State, g: State, lasts: map<Creator, Hash>) {
    && Sound(g) && Onto(s, g) && Rooting(g, lasts)
    && g.dag == s.dag && g.round == s.round && g.round.Keys == g.dag.events.Keys
  }

  lemma {:induction false} CommitsBegin(s: State, lasts: map<Creator, Hash>)
    requires Sound(s) && Rooting(s, lasts) && s.round.Keys == s.dag.events.Keys
    ensures Committing(s, s, lasts)
  {
    hide Sound, Rooting, Commits;
  }

  lemma {:induction false} OntoNext(s: State, g: State, f: Frame)
    requires Onto(s, g) && g.pending != [] && g.pending[0].decided
    requires AllStored(g.dag, f.events) && FrameOf(g, g.pending[0].index, f)
    ensures Onto(s, CommitOne(g, f))
  {
    hide FrameOf, CommitOne;
    forall s' | Commits(CommitOne(g, f), s') ensures Commits(s, s') {
      assert Commits(g, s');
    }
  }

  lemma {:induction false} CommitsAdvance(s: State, g: State, lasts: map<Creator, Hash>, f: Frame,
                                          lasts': map<Creator, Hash>)
    requires Committing(s, g, lasts) && g.pending != [] && g.pending[0].decided
    requires AllStored(g.dag, f.events) && FrameOf(g, g.pending[0].index, f)
    requires LastsRight(g.dag, g.consensus + f.events, lasts')
    ensures Committing(s, CommitOne(g, f), lasts')
  {
    hide Sound, Onto, Rooted, FrameOf, LastsRight, Payload, LoadedCount, HashOfFrame;
    OntoNext(s, g, f);
    CommitSound(g, f);
    RootedCommit(g, f);
  }

  lemma {:induction false} CommitsEnd(s: State, g: State, lasts: map<Creator, Hash>)
    requires Committing(s, g, lasts) && (g.pending == [] || !g.pending[0].decided)
    ensures Commits(s, g) && Sound(g) && Rooting(g, lasts)
  {
    hide Sound, Rooting;
    assert Commits(g, g);
  }

  /** The round at the head of the queue has a row and no frame yet. */
  lemma {:induction false} HeadToCommit(s: State, g: State, lasts: map<Creator, Hash>, list: seq<Pending>)
    requires Committing(s, g, lasts) && g.pending != []
    ensures var p := g.(pending := list);
            && Based(p.dag) && Divided(p) && Table(p) && p.round.Keys == p.dag.events.Keys
            && LastsRight(p.dag, p.consensus, lasts)
            && g.pending[0].index in p.rounds && g.pending[0].index !in p.frames
            && (p.lastConsensusRound == None || p.lastConsensusRound.value < g.pending[0].index)
  {
    hide WellFormed, Ledger, Remaining, FrameSound, EntryOk, FrameEvents, Onto, Rooted, Round, Lamport, LastsOf;
    HeadOfQueue(g);
    var p := g.(pending := list);
    DividedSame(g, p);
    TableSame(g, p);
  }

  lemma {:induction false} QueueFree(s: State, p: seq<Pending>, r: int, f: Frame)
    requires FrameOf(s, r, f)
    ensures FrameOf(s.(pending := p), r, f) && f.round == r && AllStored(s.dag, f.events)
  {
    hide Less, WellFormed, RootsAfter;
  }

  /** The blocks a frame adds to a chain of `n`. */
  function NewBlocks(d: Dag, n: nat, f: Frame): seq<Block>
    requires AllStored(d, f.events)
  {
    var txs := Payload(d, f.events);
    if txs == [] then [] else [Block(n, f.round, HashOfFrame(d, f), txs)]
  }

  /** What committing `f` does, once it is stored, and apart from the queue. */
  ghost predicate CommittedAs(s: State, s': State, f: Frame) {
    && AllStored(s.dag, f.events)
    && s' == s.(consensus := s'.consensus, blocks := s'.blocks, lastConsensusRound := Some(f.round),
                consensusTransactions := s'.consensusTransactions, pendingLoaded := s'.pendingLoaded)
    && s'.consensus == s.consensus + f.events
    && s'.blocks == s.blocks + NewBlocks(s.dag, |s.blocks|, f)
    && s'.consensusTransactions == s.consensusTransactions + |Payload(s.dag, f.events)|
    && s'.pendingLoaded == s.pendingLoaded - LoadedCount(s.dag, f.events)
  }

  lemma {:induction false} CommittedState(s: State, s': State, left: seq<Pending>, f: Frame)
    requires left != [] && CommittedAs(s.(frames := s.frames[f.round := f]), s', f)
    ensures s' == CommitOne(s.(pending := left), f).(pending := s.pending)
  {
    hide Payload, LoadedCount, HashOfFrame;
  }

  lemma {:induction false} PayloadNext(d: Dag, list: seq<Hash>, k: nat)
    requires AllStored(d, list) && k < |list|
    ensures Payload(d, list[..k + 1]) == Payload(d, list[..k]) + d.events[list[k]].transactions
    ensures LoadedCount(d, list[..k + 1]) == LoadedCount(d, list[..k]) + if IsLoaded(d.events[list[k]]) then 1 else 0
  {
    assert list[..k + 1][..k] == list[..k];
  }

  lemma {:induction false} NoEvents(d: Dag, list: seq<Hash>)
    requires |list| == 0
    ensures AllStored(d, list) && Payload(d, list) == [] && LoadedCount(d, list) == 0
  {
  }
}
