/** Concrete inputs on which claims one might expect to hold do not; the exact conditions are
    Caches.AncestorsStayIff, RollingIndices.SetAlignedIff, Rounds.OneWitnessIff,
    Posets.Poset.LamportTimestamp and Agreement.SameHashIff. */
module Examples {
  import opened Dags
  import opened Rounds
  import opened Fame
  import opened Consensus
  import opened ConsensusInsert
  import opened Caches
  import opened Frames
  import opened FrameReset
  import opened Posets
  import opened RollingIndices

  /** An event without payload or tables. */
  function Plain(c: Creator, index: int, selfParent: Hash): Event {
    Event(c, index, selfParent, NoHash, [], false, [], [], Signature(0, true), {}, [])
  }

  const FIRST := Digest([1])
  const SECOND := Digest([2])

  /** One participant and its first event. */
  function OneEvent(): Dag {
    Stored(Initial({0}, 1).dag, FIRST, Plain(0, 0, RootHash(0)))
  }

  lemma {:induction false} FirstGoesIn()
    ensures Based(Initial({0}, 1).dag) && Fresh(Initial({0}, 1).dag, FIRST, Plain(0, 0, RootHash(0)))
    ensures Insert(Initial({0}, 1).dag, FIRST, Plain(0, 0, RootHash(0))) == Ok(OneEvent())
    ensures Based(OneEvent())
  {
    InitialBased({0}, 1);
    var d := Initial({0}, 1).dag;
    assert d.logs[0] == [];
    InsertGrows(d, FIRST, Plain(0, 0, RootHash(0)));
  }

  /** The event's root was denied to it before it came; the denial is still in the cache afterwards. */
  lemma {:induction false} DeniedTooEarly()
    ensures var cache := map[Key(FIRST, RootHash(0)) := false];
            AncestorsOk(cache, Initial({0}, 1).dag) && !AncestorsOk(cache, OneEvent())
  {
    FirstGoesIn();
    var cache := map[Key(FIRST, RootHash(0)) := false];
    var d := Initial({0}, 1).dag;
    NotYetReaching(d, FIRST, Plain(0, 0, RootHash(0)), RootHash(0));
    assert AncestorsOk(cache, d);
    StaleAnswer(cache, d, FIRST, Plain(0, 0, RootHash(0)));
  }

  lemma {:induction false} QuotaOfOne()
    ensures Quota(Initial({0}, 1).dag) == 1
  {
    assert Initial({0}, 1).dag.roots.Keys == {0};
  }

  lemma {:induction false} NoViewYet()
    ensures WellFormed(Initial({0}, 1).dag) && Sentinels(Initial({0}, 1).dag, FIRST, RootHash(0)) == {}
    ensures Reach(Initial({0}, 1).dag, RootHash(0), RootHash(0))
  {
    FirstGoesIn();
    NoSentinels(Initial({0}, 1).dag, FIRST, RootHash(0));
  }

  /** With one participant, an event strongly sees its root. Denied to it before it came, that is wrong afterwards. */
  lemma {:induction false} StronglyDeniedTooEarly()
    ensures var cache := map[Key(FIRST, RootHash(0)) := false];
            StronglyOk(cache, Initial({0}, 1).dag) && !StronglyOk(cache, OneEvent())
  {
    hide Sentinels, Based, WellFormed, Fresh, Insert, Initial, OneEvent, Quota, Reach;
    var cache := map[Key(FIRST, RootHash(0)) := false];
    var d, e := Initial({0}, 1).dag, Plain(0, 0, RootHash(0));
    FirstGoesIn();
    QuotaOfOne();
    NoViewYet();
    assert StronglyOk(cache, d);
    StronglyStayIff(cache, d, FIRST, e);
    assert Key(FIRST, RootHash(0)) in cache && e.creator in SentinelsOfNew(d, FIRST, e, RootHash(0));
  }

  lemma {:induction false} NotYetIn()
    ensures Based(Initial({0}, 1).dag) && FIRST !in Initial({0}, 1).dag.events && !Known(Initial({0}, 1).dag, FIRST)
    ensures !Reach(Initial({0}, 1).dag, FIRST, RootHash(0))
  {
    FirstGoesIn();
    NotYetReaching(Initial({0}, 1).dag, FIRST, Plain(0, 0, RootHash(0)), RootHash(0));
  }

  lemma {:induction false} KeptOrNot<K, V>(k: K, v: V, c: map<K, V>)
    requires Evicted(map[][k := v], c)
    ensures c == map[] || c == map[k := v]
  {
    if k !in c {
      assert c.Keys == {};
    }
  }

  /** Asked on an empty store whether its root is an ancestor of the event to come, the poset
      denies it. If the cache keeps the denial, it is wrong once the event is in. */
  method AskTooEarly() returns (p: Poset, r: Result<bool>)
    ensures r == Ok(false) && p.dag == Initial({0}, 1).dag
    ensures p.ancestorCache == map[] || p.ancestorCache == map[Key(FIRST, RootHash(0)) := false]
    ensures p.ancestorCache != map[] ==> !AncestorsOk(p.ancestorCache, OneEvent())
  {
    hide AncestorsOk, TimestampsOk, StronglyOk, RoundsOk, Asked, Based, Sound, Initial, OneEvent, Known, Reach, Evicted;
    p := new Poset({0}, 1);
    NotYetIn();
    DeniedTooEarly();
    r := p.Ancestor(FIRST, RootHash(0));
    KeptOrNot(Key(FIRST, RootHash(0)), false, p.ancestorCache);
  }

  /** A new window takes a negative index. After that any index is appended right behind it. */
  lemma {:induction false} JumpFromBelowZero()
    ensures var w := Window(1, -2, [-2]);
            Window(1, -1, []).Set(-2, -2) == Ok(w) && Aligned(w) && w.Set(5, 5).Ok? && !Aligned(w.Set(5, 5).value)
  {
    var w := Window(1, -2, [-2]);
    assert [] + [-2] == [-2];
    SetAlignedIff(w, 5);
  }

  /** The same participant's second event, with no other-parent either. */
  function TwoEvents(): Dag {
    Stored(OneEvent(), SECOND, Plain(0, 1, FIRST))
  }

  lemma {:induction false} SecondFits()
    requires WellFormed(OneEvent())
    ensures Fresh(OneEvent(), SECOND, Plain(0, 1, FIRST)) && Insert(OneEvent(), SECOND, Plain(0, 1, FIRST)).Ok?
  {
    hide WellFormed;
  }

  lemma {:induction false} SecondGoesIn()
    ensures Based(OneEvent()) && Insert(OneEvent(), SECOND, Plain(0, 1, FIRST)) == Ok(TwoEvents()) && Based(TwoEvents())
  {
    hide WellFormed, Initial, OneEvent, Insert, Fresh, Stored, Plain;
    FirstGoesIn();
    SecondFits();
    Appended(OneEvent(), SECOND, Plain(0, 1, FIRST));
    InsertGrows(OneEvent(), SECOND, Plain(0, 1, FIRST));
  }

  /** A first event may carry any index. The store is not well formed then. */
  lemma {:induction false} FirstAtFive()
    ensures var r := Insert(Initial({0}, 1).dag, FIRST, Plain(0, 5, RootHash(0)));
            r.Ok? && !WellFormed(r.value)
  {
    FirstGoesIn();
    hide Based, WellFormed;
    InsertKeepsIff(Initial({0}, 1).dag, FIRST, Plain(0, 5, RootHash(0)));
  }

  /** Nor is it when an event takes the place of the one it stands on. */
  lemma {:induction false} TakesThePlace()
    ensures var r := Insert(OneEvent(), SECOND, Plain(0, 0, FIRST));
            r.Ok? && r.value.logs[0] == [SECOND] && !WellFormed(r.value)
  {
    FirstGoesIn();
    PlaceTaken();
    hide WellFormed, OneEvent, Insert;
    InsertKeepsIff(OneEvent(), SECOND, Plain(0, 0, FIRST));
  }

  lemma {:induction false} PlaceTaken()
    ensures var d, r := OneEvent(), Insert(OneEvent(), SECOND, Plain(0, 0, FIRST));
            && 0 in d.roots && 0 in d.logs && LastIndexFrom(d, 0) == 0 && d.events.Keys == {FIRST}
            && d.rootOf.Keys == {RootHash(0)}
            && d.events[FIRST].otherParent == NoHash && r.Ok? && r.value.logs[0] == [SECOND]
  {
    assert Held(1, 1) == 1;
  }

  /** A jump ahead is refused. */
  lemma {:induction false} JumpRefused()
    ensures Insert(OneEvent(), SECOND, Plain(0, 7, FIRST)) == Err(SkippedIndex)
  {
  }

  lemma {:induction false} NoTables(d: Dag, x: Hash, r: int)
    requires Based(d) && x in d.events && d.events[x].witnessProof == [] && d.events[x].flagTable == {}
    ensures Raised(d, x, r) == r
  {
    hide Based, Seen, Quota;
  }

  lemma {:induction false} SameRound(d: Dag, x: Hash, y: Hash)
    requires Based(d) && x in d.events && y in d.events && d.events[x].selfParent == RootHash(d.events[x].creator)
    requires d.events[y].selfParent == x && d.events[y].witnessProof == [] && d.events[y].flagTable == {}
    requires d.events[x].otherParent == NoHash && d.events[y].otherParent == NoHash && x.Digest?
    ensures Round(d, x) == 0 && Round(d, y) == 0 && Witness(d, x) && Witness(d, y)
  {
    hide WellFormed, Raised;
    NoTables(d, y, 0);
  }

  /** Both are witnesses of round 0. */
  lemma {:induction false} TwoWitnesses()
    ensures Based(TwoEvents()) && !OneWitnessPerCreator(TwoEvents())
  {
    SecondGoesIn();
    hide Based, Round, Witness;
    SameRound(TwoEvents(), FIRST, SECOND);
  }

  /** A frame root that stands on the participant's second event. */
  function LaterRoots(): map<Creator, Root> {
    map[0 := Root(0, RootEvent(SECOND, 0, 1, 1, 0), map[])]
  }

  lemma {:induction false} LaterStore()
    ensures Separate(LaterRoots()) && WellFormed(EmptyDag(LaterRoots(), 1))
    ensures forall x :: Known(EmptyDag(LaterRoots(), 1), x) <==> x == SECOND
  {
    hide WellFormed;
    var d := EmptyDag(LaterRoots(), 1);
    EmptyWellFormed(d);
    assert d.rootOf.Keys == {SECOND};
  }

  lemma {:induction false} FirstTimestamp()
    ensures Based(OneEvent()) && Known(OneEvent(), FIRST) && !Known(OneEvent(), SECOND)
    ensures Lamport(OneEvent(), FIRST) == 0
  {
    FirstGoesIn();
  }

  lemma {:induction false} FirstDropped(cache: map<Hash, int>)
    requires TimestampsOk(cache, OneEvent())
    ensures TimestampsRight(cache, EmptyDag(LaterRoots(), 1)) && !Known(EmptyDag(LaterRoots(), 1), FIRST)
    ensures FIRST in cache ==> cache[FIRST] == 0
  {
    hide WellFormed, Lamport, EmptyDag, OneEvent, Known;
    LaterStore();
    FirstTimestamp();
  }

  /** A poset that has taken the first event in and been asked for its timestamp. */
  method AskedFirst() returns (p: Poset)
    ensures fresh(p) && p.dag == OneEvent() && TimestampsOk(p.timestampCache, p.dag)
  {
    hide AncestorsOk, TimestampsOk, TimestampsRight, StronglyOk, RoundsOk, Asked, Based, Sound, Initial, OneEvent;
    hide Known, Lamport, Learned, Fresh, Insert;
    p := new Poset({0}, 1);
    FirstGoesIn();
    var error := p.InsertEvent(FIRST, Plain(0, 0, RootHash(0)));
    OkIsRight(p.timestampCache, p.dag);
    var r := p.LamportTimestamp(FIRST);
  }

  /** A restart on that root drops the first event, but not its timestamp: as long as the cache
      keeps it, the poset answers for a hash that is not known. */
  method StillAnswered() returns (p: Poset, kept: bool, r: Result<int>)
    ensures !Known(p.dag, FIRST)
    ensures r == if kept then Ok(0) else Err(KeyNotFound)
  {
    hide TimestampsOk, TimestampsRight, OneEvent, Known, Lamport, LaterRoots, EmptyDag, Learned, Insert;
    p := AskedFirst();
    CacheSizeOfOne();
    FirstDropped(p.timestampCache);
    LaterStore();
    var error := p.Reset(0, Frame(1, LaterRoots(), []), map[]);
    kept := FIRST in p.timestampCache;
    r := p.LamportTimestamp(FIRST);
  }

  lemma {:induction false} CacheSizeOfOne()
    ensures OneEvent().cacheSize == 1
  {
  }

  function NameOf(c: Creator): Hash { if c == 0 then FIRST else SECOND }

  function Opening(c: Creator): Event { Plain(c, 0, RootHash(c)) }

  /** Of two participants, only `c` has an event. */
  function Single(c: Creator): Dag
    requires c == 0 || c == 1
  {
    Stored(Initial({0, 1}, 1).dag, NameOf(c), Opening(c))
  }

  /** Both have one; that of `c` was inserted first. */
  function Both(c: Creator): Dag
    requires c == 0 || c == 1
  {
    Stored(Single(c), NameOf(1 - c), Opening(1 - c))
  }

  lemma {:induction false} SingleGoesIn(c: Creator)
    requires c == 0 || c == 1
    ensures Insert(Initial({0, 1}, 1).dag, NameOf(c), Opening(c)) == Ok(Single(c)) && Based(Single(c))
  {
    InitialBased({0, 1}, 1);
    var d := Initial({0, 1}, 1).dag;
    assert d.logs[c] == [];
    hide Based;
    InsertGrows(d, NameOf(c), Opening(c));
  }

  lemma {:induction false} OtherFits(c: Creator)
    requires (c == 0 || c == 1) && WellFormed(Single(c))
    ensures Fresh(Single(c), NameOf(1 - c), Opening(1 - c)) && Insert(Single(c), NameOf(1 - c), Opening(1 - c)).Ok?
  {
    hide WellFormed;
    assert Single(c).logs[1 - c] == [] && Single(c).roots[1 - c] == BaseRoot(1 - c);
  }

  lemma {:induction false} BothGoIn(c: Creator)
    requires c == 0 || c == 1
    ensures Insert(Single(c), NameOf(1 - c), Opening(1 - c)) == Ok(Both(c)) && Based(Both(c))
  {
    hide WellFormed, Initial, Single, Insert, Fresh, Stored, Opening;
    SingleGoesIn(c);
    OtherFits(c);
    Appended(Single(c), NameOf(1 - c), Opening(1 - c));
    InsertGrows(Single(c), NameOf(1 - c), Opening(1 - c));
  }

  lemma {:induction false} PlacesOf(c: Creator)
    requires c == 0 || c == 1
    ensures Both(c).topo == map[NameOf(c) := 0, NameOf(1 - c) := 1]
    ensures Both(c).roots == Initial({0, 1}, 1).dag.roots
    ensures Both(c).events == map[FIRST := Opening(0), SECOND := Opening(1)]
  {
  }

  /** Two nodes that hold the same two events, taken in in different orders, hash one frame differently. */
  lemma {:induction false} SameFrameOtherHash()
    ensures var f := Frame(1, map[], [FIRST, SECOND]);
            Based(Both(0)) && Based(Both(1)) && Agree(Both(0), Both(1))
              && HashOfFrame(Both(0), f) != HashOfFrame(Both(1), f)
  {
    hide Based, Both, Initial, Opening;
    BothGoIn(0);
    BothGoIn(1);
    PlacesOf(0);
    PlacesOf(1);
    var f := Frame(1, map[], [FIRST, SECOND]);
    assert HashOfFrame(Both(0), f).topological[0] == 0;
    assert HashOfFrame(Both(1), f).topological[0] == 1;
  }
}
