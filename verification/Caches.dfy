/** The memo caches of the graph queries, and when an insertion leaves them right. */
module Caches {
  import opened Dags
  import opened Rounds
  import opened Fame
  import opened Queries
  import opened ConsensusInsert

  datatype Key = Key(x: Hash, y: Hash)

  ghost predicate TimestampsOk(c: map<Hash, int>, d: Dag) {
    WellFormed(d) && forall x :: x in c ==> Known(d, x) && c[x] == Lamport(d, x)
  }

  /** What is remembered of the hashes that are known is right. After a restart the cache also
      remembers hashes that are not. */
  ghost predicate TimestampsRight(c: map<Hash, int>, d: Dag) {
    WellFormed(d) && forall x :: x in c && Known(d, x) ==> c[x] == Lamport(d, x)
  }

  lemma {:induction false} OkIsRight(c: map<Hash, int>, d: Dag)
    requires TimestampsOk(c, d)
    ensures TimestampsRight(c, d)
  {
    hide WellFormed, Lamport;
  }

  /** Whatever `c'` holds was in `c` already, or is what the graph `d` says. */
  ghost predicate Learned(c: map<Hash, int>, c': map<Hash, int>, d: Dag)
    requires WellFormed(d)
  {
    forall x :: x in c' ==> (x in c && c'[x] == c[x]) || (Known(d, x) && c'[x] == Lamport(d, x))
  }

  ghost predicate RoundsOk(c: map<Hash, int>, d: Dag) {
    Based(d) && forall x :: x in c ==> Known(d, x) && c[x] == Round(d, x)
  }

  ghost predicate AncestorsOk(c: map<Key, bool>, d: Dag) {
    WellFormed(d) && forall k :: k in c ==> k.x != NoHash && k.y != NoHash && c[k] == Reach(d, k.x, k.y)
  }

  ghost predicate StronglyOk(c: map<Key, bool>, d: Dag) {
    WellFormed(d) && forall k :: k in c ==> k.x != NoHash && k.y != NoHash && c[k] == StronglySees(d, k.x, k.y)
  }

  /** `c'` is what an LRU cache may still hold of `c`. */
  ghost predicate Evicted<K, V>(c: map<K, V>, c': map<K, V>) {
    forall k :: k in c' ==> k in c && c'[k] == c[k]
  }

  /** Any set of entries may be gone after an Add. */
  method Evict<K, V>(c: map<K, V>) returns (c': map<K, V>)
    ensures Evicted(c, c')
  {
    var keep: set<K> := *;
    c' := map k | k in c && k in keep :: c[k];
  }

  // ---------------------------------------------------------------- later insertions

  lemma {:induction false} TimestampsStay(c: map<Hash, int>, d: Dag, d': Dag)
    requires Grown(d, d') && TimestampsOk(c, d)
    ensures TimestampsOk(c, d')
  {
    hide WellFormed, Lamport;
    forall x | x in c ensures Known(d', x) && c[x] == Lamport(d', x) {
      ReachGrows(d, d', x, x);
    }
  }

  lemma {:induction false} RoundsStay(c: map<Hash, int>, d: Dag, d': Dag)
    requires Grown(d, d') && RoundsOk(c, d)
    ensures RoundsOk(c, d')
  {
    hide WellFormed, Round;
    SharedRoots(d, d');
    forall x | x in c ensures Known(d', x) && c[x] == Round(d', x) {
      RoundAgree(d, d', x);
    }
  }

  /** A query about a hash that is not in the graph yet is answered, and remembered. */
  ghost predicate AskedEarly(c: map<Key, bool>, h: Hash) {
    exists k :: k in c && k.x == h
  }

  /** Only hashes in the graph have been asked about. */
  ghost predicate Asked(c: map<Key, bool>, d: Dag) {
    forall k :: k in c ==> Known(d, k.x)
  }

  /** Then no insertion comes too late, and it stays so. */
  lemma {:induction false} AskedStays(c: map<Key, bool>, d: Dag, h: Hash, e: Event)
    requires Based(d) && Asked(c, d) && Fresh(d, h, e) && Insert(d, h, e).Ok?
    ensures !AskedEarly(c, h) && Asked(c, Insert(d, h, e).value)
  {
    hide EventOk, LogOk;
    InsertGrows(d, h, e);
    SharedRoots(d, Insert(d, h, e).value);
  }

  lemma {:induction false} ReachOfOld(d: Dag, h: Hash, e: Event, x: Hash, y: Hash)
    requires Based(d) && Fresh(d, h, e) && Insert(d, h, e).Ok? && x != h
    ensures WellFormed(Insert(d, h, e).value)
    ensures Reach(d, x, y) <==> Reach(Insert(d, h, e).value, x, y)
  {
    hide EventOk, LogOk, Fresh;
    InsertGrows(d, h, e);
    if Known(d, x) {
      hide WellFormed;
      ReachGrows(d, Insert(d, h, e).value, x, y);
    }
  }

  lemma {:induction false} ReachOfNew(d: Dag, h: Hash, e: Event, y: Hash)
    requires Based(d) && Fresh(d, h, e) && Insert(d, h, e).Ok? && y != h
    ensures WellFormed(Insert(d, h, e).value)
    ensures Reach(Insert(d, h, e).value, h, y) <==>
              Reach(d, e.selfParent, y) || (e.otherParent != NoHash && Reach(d, e.otherParent, y))
  {
    var d' := Insert(d, h, e).value;
    InsertGrows(d, h, e);
    Parents(d', h);
    hide EventOk, LogOk, WellFormed;
    ReachOfOld(d, h, e, e.selfParent, y);
    if e.otherParent != NoHash {
      ReachOfOld(d, h, e, e.otherParent, y);
    }
  }

  /** The remembered answers about ancestors survive an insertion exactly when no
      ancestor of the new event was already denied to it. */
  lemma {:induction false} AncestorsStayIff(c: map<Key, bool>, d: Dag, h: Hash, e: Event)
    requires Based(d) && AncestorsOk(c, d) && Fresh(d, h, e) && Insert(d, h, e).Ok?
    ensures AncestorsOk(c, Insert(d, h, e).value) <==>
              forall y :: Key(h, y) in c && y != h ==>
                !(Reach(d, e.selfParent, y) || (e.otherParent != NoHash && Reach(d, e.otherParent, y)))
  {
    hide EventOk, LogOk, Fresh;
    InsertGrows(d, h, e);
    hide WellFormed, Reach;
    var d' := Insert(d, h, e).value;
    forall k | k in c && k.x != h ensures c[k] == Reach(d', k.x, k.y) {
      ReachOfOld(d, h, e, k.x, k.y);
    }
    forall y | Key(h, y) in c
      ensures c[Key(h, y)] == (y == h)
      ensures y == h ==> Reach(d', h, y)
      ensures y != h ==>
                (Reach(d', h, y) <==>
                  Reach(d, e.selfParent, y) || (e.otherParent != NoHash && Reach(d, e.otherParent, y)))
    {
      NotYetReaching(d, h, e, y);
      if y != h { ReachOfNew(d, h, e, y); } else { ReachSelf(d', h); }
    }
    assert forall k :: k in c && k.x == h ==> k == Key(h, k.y);
  }

  lemma {:induction false} ReachSelf(d: Dag, x: Hash)
    requires WellFormed(d)
    ensures Reach(d, x, x)
  {
  }

  lemma {:induction false} NotYetReaching(d: Dag, h: Hash, e: Event, y: Hash)
    requires WellFormed(d) && Fresh(d, h, e)
    ensures Reach(d, h, y) <==> h == y
  {
  }

  /** A hash asked about before it arrives, and an ancestor denied to it, leave a wrong answer behind. */
  lemma {:induction false} StaleAnswer(c: map<Key, bool>, d: Dag, h: Hash, e: Event)
    requires Based(d) && AncestorsOk(c, d) && Fresh(d, h, e) && Insert(d, h, e).Ok?
    requires Key(h, e.selfParent) in c
    ensures WellFormed(Insert(d, h, e).value)
    ensures c[Key(h, e.selfParent)] != Reach(Insert(d, h, e).value, h, e.selfParent)
  {
    var d' := Insert(d, h, e).value;
    InsertGrows(d, h, e);
    Parents(d', h);
    hide EventOk, LogOk;
    NotYetReaching(d, h, e, e.selfParent);
    ReachSelf(d', e.selfParent);
  }

  /** The participants that will stand between the event `e`, once it is in as `h`, and `y`. */
  ghost function SentinelsOfNew(d: Dag, h: Hash, e: Event, y: Hash): set<Creator>
    requires WellFormed(d)
  {
    if y == h then {e.creator}
    else if Reach(d, e.selfParent, y) || (e.otherParent != NoHash && Reach(d, e.otherParent, y)) then
      {e.creator} + Sentinels(d, e.otherParent, y) + Sentinels(d, e.selfParent, y)
    else {}
  }

  lemma {:induction false} SentinelsOnceIn(d: Dag, h: Hash, e: Event, y: Hash)
    requires Based(d) && Fresh(d, h, e) && Insert(d, h, e).Ok?
    ensures Based(Insert(d, h, e).value)
    ensures Sentinels(Insert(d, h, e).value, h, y) == SentinelsOfNew(d, h, e, y)
  {
    hide EventOk, LogOk;
    var d' := Insert(d, h, e).value;
    InsertGrows(d, h, e);
    Parents(d', h);
    hide WellFormed, Sentinels, Reach;
    ReachSelf(d', h);
    if y != h { ReachOfNew(d, h, e, y); }
    if Reach(d', h, y) {
      SentinelsStep(d', h, y);
      SentinelsOfOld(d, h, e, e.otherParent, y);
      SentinelsOfOld(d, h, e, e.selfParent, y);
    } else {
      NoSentinelsBelow(d', h, y);
    }
  }

  /** The remembered answers about strong views survive an insertion exactly when the new event
      was not already denied a view that its parents and its creator now make up a quota for. */
  lemma {:induction false} StronglyStayIff(c: map<Key, bool>, d: Dag, h: Hash, e: Event)
    requires Based(d) && StronglyOk(c, d) && Fresh(d, h, e) && Insert(d, h, e).Ok?
    ensures StronglyOk(c, Insert(d, h, e).value) <==>
              forall y :: Key(h, y) in c ==> |SentinelsOfNew(d, h, e, y)| < Quota(d)
  {
    hide EventOk, LogOk;
    InsertGrows(d, h, e);
    var d' := Insert(d, h, e).value;
    assert Quota(d') == Quota(d);
    forall y ensures Sentinels(d, h, y) == {} { NoSentinels(d, h, y); }
    hide WellFormed, Sentinels, SentinelsOfNew, Fresh;
    forall k | k in c && k.x != h ensures StronglySees(d', k.x, k.y) == StronglySees(d, k.x, k.y) {
      SentinelsOfOld(d, h, e, k.x, k.y);
    }
    forall y | Key(h, y) in c
      ensures !c[Key(h, y)] && (StronglySees(d', h, y) <==> |SentinelsOfNew(d, h, e, y)| >= Quota(d))
    {
      SentinelsOnceIn(d, h, e, y);
    }
    assert forall k :: k in c && k.x == h ==> k == Key(h, k.y);
  }

  lemma {:induction false} StronglyStay(c: map<Key, bool>, d: Dag, h: Hash, e: Event)
    requires Based(d) && StronglyOk(c, d) && Fresh(d, h, e) && Insert(d, h, e).Ok?
    requires !AskedEarly(c, h)
    ensures StronglyOk(c, Insert(d, h, e).value)
  {
    hide EventOk, LogOk, Fresh, StronglyOk, SentinelsOfNew;
    StronglyStayIff(c, d, h, e);
    assert forall y :: Key(h, y) in c ==> Key(h, y).x == h;
  }

  lemma {:induction false} SentinelsOfOld(d: Dag, h: Hash, e: Event, x: Hash, y: Hash)
    requires Based(d) && Fresh(d, h, e) && Insert(d, h, e).Ok? && x != h
    ensures Based(Insert(d, h, e).value)
    ensures Sentinels(d, x, y) == Sentinels(Insert(d, h, e).value, x, y)
  {
    hide EventOk, LogOk;
    var d' := Insert(d, h, e).value;
    InsertGrows(d, h, e);
    if Known(d, x) {
      SharedRoots(d, d');
      hide WellFormed;
      SentinelsAgree(d, d', x, y);
    } else {
      NoSentinels(d, x, y);
      NoSentinels(d', x, y);
    }
  }

  lemma {:induction false} NoSentinels(d: Dag, x: Hash, y: Hash)
    requires WellFormed(d) && !Known(d, x)
    ensures Sentinels(d, x, y) == {}
  {
  }
}
