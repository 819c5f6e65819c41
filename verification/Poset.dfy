/** The Poset object: the store of events and rounds, the queues, the memo caches,
    the graph queries behind them, and the consensus passes. */
module Posets {
  import opened Dags
  import opened Quorum
  import opened Rounds
  import opened Fame
  import opened Sorting
  import opened Consensus
  import opened ConsensusInsert
  import opened ConsensusDivide
  import opened ConsensusDecide
  import opened ConsensusCommit
  import opened ConsensusPasses
  import opened CommitOrder
  import opened Caches
  import opened Queries
  import opened PosetFacts
  import opened Frames
  import opened FrameBuild
  import opened FrameReset

  class Poset {
    const superMajority: nat

    // the store
    var dag: Dag
    var rounds: map<int, RoundInfo>
    var lastRound: int
    var round: map<Hash, int>
    var lamport: map<Hash, int>
    var received: map<Hash, int>
    var frames: map<int, Frame>
    var consensus: seq<Hash>
    var lastConsensusEvents: map<Creator, Hash>
    var blocks: seq<Block>

    // the queues and counters
    var undetermined: seq<Hash>
    var pending: seq<Pending>
    var lastConsensusRound: Option<int>
    var pendingLoaded: int
    var consensusTransactions: nat
    var topologicalIndex: nat

    // the memo caches
    var ancestorCache: map<Key, bool>
    var stronglySeeCache: map<Key, bool>
    var roundCache: map<Hash, int>
    var timestampCache: map<Hash, int>

    ghost function Abs(): State
      reads this`dag, this`rounds, this`lastRound, this`round, this`lamport, this`received
      reads this`undetermined, this`pending, this`lastConsensusRound, this`frames, this`consensus, this`blocks
      reads this`pendingLoaded, this`consensusTransactions
    {
      State(dag, rounds, lastRound, round, lamport, received, undetermined, pending, lastConsensusRound,
            frames, consensus, blocks, pendingLoaded, consensusTransactions)
    }

    /** The caches hold nothing but right answers, and the consensus passes have asked nothing too early. */
    ghost predicate CachesOk()
      reads this`dag, this`ancestorCache, this`stronglySeeCache, this`roundCache, this`timestampCache
    {
      CachesRight() && Asked(ancestorCache, dag) && Asked(stronglySeeCache, dag)
    }

    ghost predicate CachesRight()
      reads this`dag, this`ancestorCache, this`stronglySeeCache, this`roundCache, this`timestampCache
    {
      && AncestorsOk(ancestorCache, dag) && StronglyOk(stronglySeeCache, dag)
      && RoundsOk(roundCache, dag) && TimestampsOk(timestampCache, dag)
      && superMajority == Quota(dag)
    }

    lemma {:induction false} QuotaIs()
      requires CachesOk()
      ensures superMajority == Quota(dag)
    {
      hide AncestorsOk, StronglyOk, RoundsOk, TimestampsOk, SuperMajority;
    }

    /** True between any two calls of the consensus passes and insertions. */
    ghost predicate Valid()
      reads this
    {
      Sound(Abs()) && CachesOk() && Rooting(Abs(), lastConsensusEvents)
    }

    constructor (participants: set<Creator>, cacheSize: nat)
      ensures Abs() == Initial(participants, cacheSize) && Sound(Abs()) && CachesOk()
      ensures ancestorCache == map[] && stronglySeeCache == map[] && roundCache == map[] && timestampCache == map[]
      ensures Rooting(Abs(), lastConsensusEvents)
    {
      hide Sound, Rooting, AncestorsOk, StronglyOk, RoundsOk, TimestampsOk, SuperMajority;
      superMajority := SuperMajority(|participants|);
      var s := Initial(participants, cacheSize);
      dag, rounds, lastRound, round, lamport, received := s.dag, s.rounds, s.lastRound, s.round, s.lamport, s.received;
      frames, consensus, lastConsensusEvents, blocks := map[], [], map[], [];
      undetermined, pending, lastConsensusRound := [], [], None;
      pendingLoaded, consensusTransactions, topologicalIndex := 0, 0, 0;
      ancestorCache, stronglySeeCache, roundCache, timestampCache := map[], map[], map[], map[];
      new;
      InitialSound(participants, cacheSize);
      EmptyCaches(participants, cacheSize);
      RootingBegins(participants, cacheSize);
    }

    // -------------------------------------------------------------- Lamport timestamps

    /** The timestamp of a known hash is the one the graph determines, from base roots and from a
        frame's. A hash that is not known is an error, unless the cache still remembers it from
        before a restart. */
    method LamportTimestamp(x: Hash) returns (r: Result<int>)
      requires TimestampsRight(timestampCache, dag)
      modifies this`timestampCache
      ensures TimestampsRight(timestampCache, dag)
      ensures old(TimestampsOk(timestampCache, dag)) ==> TimestampsOk(timestampCache, dag)
      ensures Learned(old(timestampCache), timestampCache, dag)
      ensures Known(dag, x) ==> r == Ok(Lamport(dag, x))
      ensures !Known(dag, x) ==> r == if x in old(timestampCache) then Ok(old(timestampCache)[x]) else Err(KeyNotFound)
      decreases Rank(dag, x), 1
    {
      hide WellFormed, Lamport;
      if x in timestampCache {
        return Ok(timestampCache[x]);
      }
      r := LamportTimestamp2(x);
      if r.Ok? {
        timestampCache := Evict(timestampCache[x := r.value]);
      }
    }

    method LamportTimestamp2(x: Hash) returns (r: Result<int>)
      requires TimestampsRight(timestampCache, dag)
      modifies this`timestampCache
      ensures TimestampsRight(timestampCache, dag)
      ensures old(TimestampsOk(timestampCache, dag)) ==> TimestampsOk(timestampCache, dag)
      ensures Learned(old(timestampCache), timestampCache, dag)
      ensures r == if Known(dag, x) then Ok(Lamport(dag, x)) else Err(KeyNotFound)
      decreases Rank(dag, x), 0
    {
      hide WellFormed;
      if x in dag.events {
        LamportStep(dag, x);
      }
      if x in dag.rootOf {
        RootRecorded(dag, x);
        return Ok(dag.roots[dag.rootOf[x]].selfParent.lamport);
      }
      if x !in dag.events {
        return Err(KeyNotFound);
      }
      var ex := dag.events[x];
      var root := dag.roots[ex.creator];
      var plt;
      if ex.selfParent == root.selfParent.hash {
        plt := root.selfParent.lamport;
      } else {
        var t := LamportTimestamp(ex.selfParent);
        plt := t.value;
      }
      if ex.otherParent != NoHash {
        var opLT: Option<int> := None;
        if ex.otherParent in dag.events {
          var t := LamportTimestamp(ex.otherParent);
          opLT := Some(t.value);
        } else if x in root.others && root.others[x].hash == ex.otherParent {
          opLT := Some(root.others[x].lamport);
        }
        if opLT.Some? && opLT.value > plt {
          plt := opLT.value;
        }
      }
      return Ok(plt + 1);
    }

    /** The same between consensus passes. */
    method TimestampOf(x: Hash) returns (t: int)
      requires CachesOk() && Known(dag, x)
      modifies this`timestampCache
      ensures CachesOk() && WellFormed(dag) && t == Lamport(dag, x)
    {
      hide WellFormed, Lamport, Asked, AncestorsOk, StronglyOk, RoundsOk, TimestampsRight, SuperMajority;
      OkIsRight(timestampCache, dag);
      var time := LamportTimestamp(x);
      return time.value;
    }

    /** How much later `y` is than `x`. */
    method LamportTimestampDiff(x: Hash, y: Hash) returns (r: Result<int>)
      requires TimestampsOk(timestampCache, dag)
      modifies this`timestampCache
      ensures TimestampsOk(timestampCache, dag)
      ensures r == if Known(dag, x) && Known(dag, y) then Ok(Lamport(dag, y) - Lamport(dag, x)) else Err(KeyNotFound)
    {
      hide WellFormed, Lamport;
      OkIsRight(timestampCache, dag);
      var xlt := LamportTimestamp(x);
      if xlt.Err? {
        return Err(KeyNotFound);
      }
      var ylt := LamportTimestamp(y);
      if ylt.Err? {
        return Err(KeyNotFound);
      }
      return Ok(ylt.value - xlt.value);
    }

    // -------------------------------------------------------------- ancestry

    /** True exactly when `y` can be reached from `x` by parent links; an error
        only when `x` is an event and `y` is not known at all. */
    method Ancestor(x: Hash, y: Hash) returns (r: Result<bool>)
      requires Based(dag) && AncestorsOk(ancestorCache, dag) && TimestampsOk(timestampCache, dag)
      modifies this`ancestorCache, this`timestampCache
      ensures AncestorsOk(ancestorCache, dag) && TimestampsOk(timestampCache, dag)
      ensures r.Ok? ==> r.value == (x != NoHash && y != NoHash && Reach(dag, x, y))
      ensures r.Err? ==> x in dag.events && !Known(dag, y)
      ensures old(Asked(ancestorCache, dag)) && (Known(dag, x) || x == NoHash) ==> Asked(ancestorCache, dag)
      ensures !Known(dag, x) && x != y && x != NoHash && y != NoHash ==>
                Evicted(old(ancestorCache)[Key(x, y) := false], ancestorCache)
      decreases Rank(dag, x), 1
    {
      hide WellFormed, TimestampsOk, Reach;
      if x !in dag.events && Reach(dag, x, y) {
        OnlyItself(dag, x, y);
      }
      if Key(x, y) in ancestorCache {
        return Ok(ancestorCache[Key(x, y)]);
      }
      if x == NoHash || y == NoHash {
        return Ok(false);
      }
      r := Ancestor2(x, y);
      if r.Ok? {
        ancestorCache := Evict(ancestorCache[Key(x, y) := r.value]);
      }
    }

    method Ancestor2(x: Hash, y: Hash) returns (r: Result<bool>)
      requires Based(dag) && AncestorsOk(ancestorCache, dag) && TimestampsOk(timestampCache, dag)
      requires x != NoHash && y != NoHash
      modifies this`ancestorCache, this`timestampCache
      ensures AncestorsOk(ancestorCache, dag) && TimestampsOk(timestampCache, dag)
      ensures r.Ok? ==> r.value == Reach(dag, x, y)
      ensures r.Err? ==> x in dag.events && !Known(dag, y)
      ensures old(Asked(ancestorCache, dag)) && (Known(dag, x) || x == NoHash) ==> Asked(ancestorCache, dag)
      ensures x !in dag.events ==> ancestorCache == old(ancestorCache)
      decreases Rank(dag, x), 0
    {
      hide WellFormed, Lamport, TimestampsOk, TimestampsRight, AncestorsOk, Asked, Reach, EventOk;
      if x == y {
        ReachSelf(dag, x);
        return Ok(true);
      }
      if x !in dag.events {
        if Reach(dag, x, y) { OnlyItself(dag, x, y); }
        return Ok(false);
      }
      var ex := dag.events[x];
      var diff := LamportTimestampDiff(x, y);
      if diff.Err? {
        return Err(diff.error);
      }
      if diff.value > 0 {
        NotReachedForward(dag, x, y);
        return Ok(false);
      }
      Parents(dag, x);
      RoundReads(dag, x);
      LamportStep(dag, x);
      ReachStep(dag, x, y);
      if y in dag.events {
        var ey := dag.events[y];
        if ex.creator == ey.creator {
          SameCreatorIff(dag, x, y);
          return Ok(ex.index >= ey.index);
        }
      } else {
        RootRecorded(dag, y);
        if ex.creator == dag.rootOf[y] {
          SameCreatorIff(dag, x, y);
          return Ok(ex.index >= dag.roots[dag.rootOf[y]].selfParent.index);
        }
      }
      var res := Ancestor(ex.selfParent, y);
      if res.value {
        return Ok(true);
      }
      r := Ancestor(ex.otherParent, y);
    }

    /** Seeing is ancestry: there are no forks to tell apart. */
    method See(x: Hash, y: Hash) returns (b: bool)
      requires Based(dag) && CachesOk() && x in dag.events && y in dag.events
      modifies this`ancestorCache, this`timestampCache
      ensures CachesOk() && b == Reach(dag, x, y)
    {
      hide WellFormed, Reach, Asked, AncestorsOk, StronglyOk, RoundsOk, TimestampsOk, SuperMajority;
      NoHashIsNoEvent(dag);
      var see := Ancestor(x, y);
      return see.value;
    }

    // -------------------------------------------------------------- strongly seeing

    /** Adds the creators that lie between `y` and `x` to `sentinels`. */
    method MapSentinels(x: Hash, y: Hash, sentinels: set<Creator>) returns (r: Result<set<Creator>>)
      requires Based(dag) && AncestorsOk(ancestorCache, dag) && TimestampsOk(timestampCache, dag)
      requires y != NoHash
      modifies this`ancestorCache, this`timestampCache
      ensures AncestorsOk(ancestorCache, dag) && TimestampsOk(timestampCache, dag)
      ensures r.Ok? ==> r.value == sentinels + Sentinels(dag, x, y)
      ensures r.Err? ==> !Known(dag, y) && (x in dag.events || x == y)
      ensures old(Asked(ancestorCache, dag)) && (Known(dag, x) || x == NoHash) ==> Asked(ancestorCache, dag)
      decreases Rank(dag, x)
    {
      hide WellFormed, Lamport, Reach, Sentinels;
      if x == NoHash {
        NoSentinelsOfNoHash(dag, y);
        return Ok(sentinels);
      }
      var see := Ancestor(x, y);
      if see.Err? {
        return Err(see.error);
      }
      if !see.value {
        NoSentinelsBelow(dag, x, y);
        return Ok(sentinels);
      }
      if x !in dag.events {
        if x in dag.rootOf {
          RootSentinels(dag, x, y);
          return Ok(sentinels + {dag.rootOf[x]});
        }
        OnlyItself(dag, x, y);
        return Err(KeyNotFound);
      }
      LamportStep(dag, x);
      SentinelsStep(dag, x, y);
      var ex := dag.events[x];
      if x == y {
        return Ok(sentinels + {ex.creator});
      }
      ReachKnown(dag, x, y);
      var above := MapSentinels(ex.otherParent, y, sentinels + {ex.creator});
      r := MapSentinels(ex.selfParent, y, above.value);
    }

    method StronglySee(x: Hash, y: Hash) returns (r: Result<bool>)
      requires Based(dag) && CachesRight()
      modifies this`ancestorCache, this`timestampCache, this`stronglySeeCache
      ensures CachesRight() && (old(CachesOk()) && Known(dag, x) ==> CachesOk())
      ensures r.Ok? ==> r.value == (x != NoHash && y != NoHash && StronglySees(dag, x, y))
      ensures r.Err? ==> !Known(dag, y) && (x in dag.events || x == y)
    {
      hide WellFormed, Sentinels, AncestorsOk, TimestampsOk, RoundsOk, Quota;
      if x == NoHash || y == NoHash {
        return Ok(false);
      }
      if Key(x, y) in stronglySeeCache {
        return Ok(stronglySeeCache[Key(x, y)]);
      }
      var sentinels := MapSentinels(x, y, {});
      if sentinels.Err? {
        return Err(sentinels.error);
      }
      var ss := |sentinels.value| >= superMajority;
      stronglySeeCache := Evict(stronglySeeCache[Key(x, y) := ss]);
      return Ok(ss);
    }

    // -------------------------------------------------------------- rounds

    method RoundWitnesses(r: int) returns (ws: set<Hash>)
      ensures ws == RowWitnesses(Abs(), r)
    {
      if r in rounds {
        return rounds[r].Witnesses();
      }
      return {};
    }

    /** Whether `w` is one of the listed witnesses, other than `x` itself, and `x` sees it. */
    method IsSee(x: Hash, w: Hash, ws: set<Hash>) returns (b: bool)
      requires Based(dag) && x in dag.events && ws <= dag.events.Keys
      requires CachesOk()
      modifies this`ancestorCache, this`timestampCache
      ensures CachesOk()
      ensures b <==> w in SeenOf(dag, x, ws)
    {
      hide WellFormed, Reach, CachesOk;
      if w !in ws || w == x {
        return false;
      }
      b := See(x, w);
    }

    method CountTable(x: Hash, table: set<Hash>, ws: set<Hash>) returns (count: nat)
      requires Based(dag) && x in dag.events && ws <= dag.events.Keys
      requires CachesOk()
      modifies this`ancestorCache, this`timestampCache
      ensures CachesOk()
      ensures count == |table * SeenOf(dag, x, ws)|
    {
      hide WellFormed, Lamport, Reach, SeenOf, CachesOk;
      count := 0;
      var rest := table;
      ghost var found: set<Hash> := {};
      while rest != {}
        invariant rest <= table
        invariant CachesOk()
        invariant forall w :: w in found <==> w in table && w !in rest && w in SeenOf(dag, x, ws)
        invariant count == |found|
      {
        var w :| w in rest;
        var seen := IsSee(x, w, ws);
        rest := rest - {w};
        if seen {
          OneMore(found, w);
          count := count + 1;
          found := found + {w};
        }
      }
      assert found == table * SeenOf(dag, x, ws);
    }

    method CountProof(x: Hash, proof: seq<Hash>, ws: set<Hash>) returns (count: nat)
      requires Based(dag) && x in dag.events && ws <= dag.events.Keys
      requires CachesOk()
      modifies this`ancestorCache, this`timestampCache
      ensures CachesOk()
      ensures count == CountIn(proof, SeenOf(dag, x, ws))
    {
      hide WellFormed, Lamport, Reach, SeenOf, CachesOk;
      count := 0;
      var i := |proof|;
      while i > 0
        invariant 0 <= i <= |proof|
        invariant CachesOk()
        invariant count == CountIn(proof[i..], SeenOf(dag, x, ws))
      {
        i := i - 1;
        var seen := IsSee(x, proof[i], ws);
        assert proof[i..][1..] == proof[i + 1..];
        if seen {
          count := count + 1;
        }
      }
      assert proof[0..] == proof;
    }

    /** The round that the graph alone determines, although the row of witnesses is read from the table. */
    method RoundOf(x: Hash) returns (r: Result<int>)
      requires Based(dag) && Divided(Abs()) && Table(Abs()) && CachesOk() && Ready(Abs(), x)
      modifies this`roundCache, this`ancestorCache, this`timestampCache
      ensures CachesOk()
      ensures r == if Known(dag, x) then Ok(Round(dag, x)) else Err(KeyNotFound)
      decreases Rank(dag, x), 1
    {
      hide WellFormed, Lamport, Reach, Round, Divided, Table, StronglyOk, Asked, AncestorsOk, TimestampsOk;
      if x in roundCache {
        return Ok(roundCache[x]);
      }
      r := RoundOf2(x);
      if r.Ok? {
        roundCache := Evict(roundCache[x := r.value]);
      }
    }

    method RoundOf2(x: Hash) returns (r: Result<int>)
      requires Based(dag) && Divided(Abs()) && Table(Abs()) && CachesOk() && Ready(Abs(), x)
      modifies this`roundCache, this`ancestorCache, this`timestampCache
      ensures CachesOk()
      ensures r == if Known(dag, x) then Ok(Round(dag, x)) else Err(KeyNotFound)
      decreases Rank(dag, x), 0
    {
      hide CachesOk, WellFormed, Lamport, Reach, Round, Divided, Table, StronglyOk, Asked, AncestorsOk, TimestampsOk;
      hide RoundsOk;
      hide SuperMajority, Raised, Seen, SeenOf, RowWitnesses;
      if x in dag.rootOf {
        RootRecorded(dag, x);
        BaseRootRound(dag, x);
        return Ok(dag.roots[dag.rootOf[x]].selfParent.round);
      }
      if x !in dag.events {
        return Err(KeyNotFound);
      }
      QuotaIs();
      var ex := dag.events[x];
      RoundReads(dag, x);
      RoundRule(dag, x);
      var root := dag.roots[ex.creator];
      if ex.selfParent == root.selfParent.hash && ex.otherParent == NoHash {
        return Ok(root.nextRound);
      }
      ReadyParents(Abs(), x);
      var spRound := RoundOf(ex.selfParent);
      var parentRound := spRound.value;
      if ex.otherParent != NoHash {
        var opRound := RoundOf(ex.otherParent);
        if opRound.value > parentRound {
          var ws := RoundWitnesses(opRound.value);
          SeenInTable(Abs(), x, opRound.value);
          var seeOpRoundRoots := CountTable(x, ex.flagTable, ws);
          if seeOpRoundRoots >= superMajority {
            return Ok(opRound.value + 1);
          }
          if seeOpRoundRoots > 0 {
            return Ok(opRound.value);
          }
          parentRound := opRound.value;
        }
      }
      var raised := RaisedRound(x, parentRound);
      return Ok(raised);
    }

    /** The second half of the round rule: witness proof, then flag table. */
    method RaisedRound(x: Hash, parentRound: int) returns (r: int)
      requires Based(dag) && Divided(Abs()) && Table(Abs()) && CachesOk() && Ready(Abs(), x) && x in dag.events
      modifies this`ancestorCache, this`timestampCache
      ensures CachesOk()
      ensures r == Raised(dag, x, parentRound)
    {
      hide CachesOk, WellFormed, Lamport, Reach, Round, Divided, Table, StronglyOk, Asked, AncestorsOk, TimestampsOk;
      hide RoundsOk, SuperMajority, CountIn, Seen, SeenOf, RowWitnesses;
      QuotaIs();
      var ex := dag.events[x];
      var ws := RoundWitnesses(parentRound);
      SeenInTable(Abs(), x, parentRound);
      if |ex.witnessProof| >= superMajority {
        var count := CountProof(x, ex.witnessProof, ws);
        if count >= superMajority {
          return parentRound + 1;
        }
      }
      if |ex.flagTable| >= superMajority {
        var count := CountTable(x, ex.flagTable, ws);
        if count >= superMajority {
          return parentRound + 1;
        }
      }
      return parentRound;
    }

    method IsWitness(x: Hash) returns (r: Result<bool>)
      requires Based(dag) && Divided(Abs()) && Table(Abs()) && CachesOk() && Ready(Abs(), x)
      modifies this`roundCache, this`ancestorCache, this`timestampCache
      ensures CachesOk()
      ensures r == if x in dag.events then Ok(Witness(dag, x)) else Err(KeyNotFound)
    {
      hide WellFormed, Lamport, Reach, Round, Divided, Table, StronglyOk, CachesOk, Asked, AncestorsOk, TimestampsOk;
      hide RoundsOk;
      if x !in dag.events {
        return Err(KeyNotFound);
      }
      var ex := dag.events[x];
      if ex.otherParent == NoHash {
        return Ok(true);
      }
      RoundReads(dag, x);
      ReadyParents(Abs(), x);
      var xRound := RoundOf(x);
      var spRound := RoundOf(ex.selfParent);
      return Ok(xRound.value > spRound.value);
    }

    // -------------------------------------------------------------- InsertEvent

    /** The checks, then the store: the event goes in, or it is named what is wrong with it and the
        graph and the queues stay as they are. The topological counter has moved by the time the
        store refuses an index. */
    method TakeIn(h: Hash, e: Event) returns (error: Option<Error>)
      modifies this`dag, this`undetermined, this`pendingLoaded, this`topologicalIndex
      ensures topologicalIndex ==
              old(topologicalIndex) + if error in {None, Some(SkippedIndex), Some(TooLate)} then 1 else 0
      ensures error == None <==> old(Insert(dag, h, e)).Ok?
      ensures error == None ==>
                old(Insert(dag, h, e)).Ok? && dag == old(Insert(dag, h, e)).value
                  && Abs() == InsertedState(old(Abs()), h, e)
      ensures error != None ==> error == Some(old(Insert(dag, h, e)).error) && Abs() == old(Abs())
    {
      hide Verify, LastEventFrom, OtherParentFound, Logged, StoredIn, IsLoaded;
      if !Verify(e) {
        return Some(InvalidSignature);
      }
      if e.creator !in dag.roots || e.creator !in dag.logs {
        return Some(UnknownParticipant);
      }
      if e.selfParent != LastEventFrom(dag, e.creator) {
        return Some(SelfParentNotLast);
      }
      if !OtherParentFound(dag, h, e) {
        return Some(OtherParentUnknown);
      }
      topologicalIndex := topologicalIndex + 1;
      var log := Logged(dag, h, e);
      if log.Err? {
        LogRefuses(dag, h, e);
        return Some(log.error);
      }
      File(h, e, log.value);
      return None;
    }

    /** Stores the event, which starts out undetermined. */
    method File(h: Hash, e: Event, log: seq<Hash>)
      modifies this`dag, this`undetermined, this`pendingLoaded
      ensures Abs() == old(Abs()).(dag := StoredIn(old(dag), h, e, log), undetermined := old(undetermined) + [h],
                                   pendingLoaded := old(pendingLoaded) + if IsLoaded(e) then 1 else 0)
    {
      hide StoredIn, IsLoaded;
      dag := StoredIn(dag, h, e, log);
      undetermined := undetermined + [h];
      if IsLoaded(e) {
        pendingLoaded := pendingLoaded + 1;
      }
    }

    /** The event goes in or the failed check is named. An event with the next index and a new name
        leaves the state sound, and the caches and stored frames right, unless a query about it was
        answered before it came. */
    method InsertEvent(h: Hash, e: Event) returns (error: Option<Error>)
      requires Sound(Abs()) && CachesRight()
      modifies this`dag, this`undetermined, this`pendingLoaded, this`topologicalIndex
      ensures error == None <==> old(Insert(dag, h, e)).Ok?
      ensures error == None ==> old(Insert(dag, h, e)).Ok? && Abs() == InsertedState(old(Abs()), h, e)
      ensures error != None ==> error == Some(old(Insert(dag, h, e)).error) && Abs() == old(Abs())
      ensures error != None || old(Fresh(dag, h, e)) ==>
                && Sound(Abs())
                && (old(!AskedEarly(ancestorCache, h) && !AskedEarly(stronglySeeCache, h)) ==> CachesRight())
                && (old(CachesOk()) ==> CachesOk())
                && (old(Rooting(Abs(), lastConsensusEvents)) ==> Rooting(Abs(), lastConsensusEvents))
    {
      hide Sound, Fresh, Rooting, Grown, Asked, AncestorsOk, StronglyOk, RoundsOk, TimestampsOk, AskedEarly;
      hide SuperMajority;
      hide Insert, IsLoaded, Based;
      if Insert(dag, h, e).Ok? && Fresh(dag, h, e) {
        InsertSound(Abs(), h, e);
        InsertionKeeps(Abs(), h, e, ancestorCache, stronglySeeCache, lastConsensusEvents);
        if !AskedEarly(ancestorCache, h) && !AskedEarly(stronglySeeCache, h) {
          CachesStay(ancestorCache, stronglySeeCache, roundCache, timestampCache, dag, h, e);
        }
      }
      error := TakeIn(h, e);
    }

    // -------------------------------------------------------------- DivideRounds

    /** What the graph says of the oldest event without a round. */
    method Placement(hash: Hash) returns (r: int, isWitness: bool, timestamp: int)
      requires Based(dag) && Divided(Abs()) && Table(Abs()) && CachesOk() && hash in dag.events && Next(Abs(), hash)
      modifies this`roundCache, this`ancestorCache, this`timestampCache
      ensures CachesOk()
      ensures r == Round(dag, hash) && isWitness == Witness(dag, hash) && timestamp == Lamport(dag, hash)
    {
      hide WellFormed, Divided, Table, Round, Witness, Lamport, Next;
      hide CachesOk, Asked, AncestorsOk, StronglyOk, RoundsOk, TimestampsOk, SuperMajority;
      NextIsReady(Abs(), hash);
      var roundNumber := RoundOf(hash);
      var witnessed := IsWitness(hash);
      var time := TimestampOf(hash);
      return roundNumber.value, witnessed.value, time;
    }

    method DivideEvent(hash: Hash)
      requires Sound(Abs()) && CachesOk() && hash in dag.events
      requires hash !in round ==> Next(Abs(), hash)
      modifies this
      ensures hash in old(round) ==> Abs() == old(Abs())
      ensures hash !in old(round) ==> Based(old(dag)) && Abs() == DivideOne(old(Abs()), hash)
      ensures Sound(Abs()) && CachesOk() && lastConsensusEvents == old(lastConsensusEvents)
    {
      hide Sound, Based, DivideOne, Next, CachesOk;
      if hash !in round {
        DivideNew(hash);
      }
    }

    method DivideNew(hash: Hash)
      requires Sound(Abs()) && CachesOk() && hash in dag.events && hash !in round && Next(Abs(), hash)
      modifies this`pending, this`rounds, this`lastRound, this`round, this`lamport,
               this`ancestorCache, this`stronglySeeCache, this`roundCache, this`timestampCache
      ensures Based(old(dag)) && Abs() == DivideOne(old(Abs()), hash) && Sound(Abs()) && CachesOk()
    {
      hide Sound, Based, DividedState, Round, Witness, Lamport, Next, CachesOk, Divided, Table;
      ghost var s := Abs();
      SoundParts(s);
      DivideSound(s, hash);
      var r, isWitness, timestamp := Placement(hash);
      assert Abs() == s;
      PlaceEvent(hash, r, isWitness, timestamp);
    }

    /** Enters the event in the row of its round, queueing the round if it is new. */
    method PlaceEvent(hash: Hash, r: int, isWitness: bool, timestamp: int)
      modifies this`pending, this`rounds, this`lastRound, this`round, this`lamport
      ensures Abs() == DividedState(old(Abs()), hash, r, isWitness, timestamp)
    {
      hide RoundInfo.AddEvent;
      var row := if r in rounds then rounds[r] else NEW_ROUND;
      row := Enqueue(r, row);
      Enter(hash, r, row.AddEvent(hash, isWitness), timestamp);
    }

    method Enter(hash: Hash, r: int, row: RoundInfo, timestamp: int)
      modifies this`rounds, this`lastRound, this`round, this`lamport
      ensures Abs() == old(Abs()).(rounds := old(rounds)[r := row], lastRound := Max(old(lastRound), r),
                                   round := old(round)[hash := r], lamport := old(lamport)[hash := timestamp])
    {
      rounds, lastRound := rounds[r := row], Max(lastRound, r);
      round, lamport := round[hash := r], lamport[hash := timestamp];
    }

    /** A round is queued once, and not if it is below the last committed one. */
    method Enqueue(r: int, row: RoundInfo) returns (row': RoundInfo)
      modifies this`pending
      ensures Abs() == old(Abs()).(pending := pending)
      ensures if !row.queued && (lastConsensusRound == None || r >= lastConsensusRound.value)
              then pending == old(pending) + [Pending(r, false)] && row' == row.(queued := true)
              else pending == old(pending) && row' == row
    {
      row' := row;
      if !row.queued && (lastConsensusRound == None || r >= lastConsensusRound.value) {
        pending := pending + [Pending(r, false)];
        row' := row.(queued := true);
      }
    }

    /** Gives every undetermined event that has none its round, witness flag and timestamp. */
    method DivideRounds()
      requires Sound(Abs()) && CachesOk()
      modifies this
      ensures Based(old(dag)) && AllStored(old(dag), old(undetermined))
      ensures Abs() == DivideList(old(Abs()), old(undetermined))
      ensures Sound(Abs()) && CachesOk() && lastConsensusEvents == old(lastConsensusEvents)
    {
      hide Sound, Based, Dividing, DivideOne, DivideList, CachesOk, Asked, AncestorsOk, Next;
      ghost var s := Abs();
      var list := undetermined;
      DivideBegins(s);
      var i := 0;
      while i < |list|
        invariant 0 <= i <= |list| && Dividing(s, Abs(), list, i) && CachesOk()
        invariant lastConsensusEvents == old(lastConsensusEvents)
      {
        DivideAdvances(s, Abs(), list, i);
        DividingSound(s, Abs(), list, i);
        DivideEvent(list[i]);
        i := i + 1;
      }
      DivideEnds(s, Abs(), list);
    }

    // -------------------------------------------------------------- DecideFame

    /** The witnesses among `ws` that `y` strongly sees. */
    method StronglySeen(y: Hash, ws: set<Hash>) returns (ss: set<Hash>)
      requires Based(dag) && CachesOk() && y in dag.events && ws <= dag.events.Keys
      modifies this`ancestorCache, this`timestampCache, this`stronglySeeCache
      ensures CachesOk() && ss == StronglySeenOf(dag, y, ws)
    {
      hide WellFormed, StronglySees, Asked, AncestorsOk, StronglyOk, RoundsOk, TimestampsOk, SuperMajority;
      NoHashIsNoEvent(dag);
      ss := {};
      var rest := ws;
      while rest != {}
        invariant rest <= ws && CachesOk()
        invariant ss == StronglySeenOf(dag, y, ws - rest)
      {
        var w :| w in rest;
        var seen := StronglySee(y, w);
        rest := rest - {w};
        if seen.value {
          ss := ss + {w};
        }
      }
    }

    /** How many of the voters said yes about `x`, and how many did not. */
    static method CountVotes(x: Hash, voters: set<Hash>, votes: map<Key, bool>) returns (yays: nat, nays: nat)
      requires forall w :: w in voters ==> Key(w, x) in votes
      ensures yays == |Ayes(x, voters, votes)| && nays == |voters - Ayes(x, voters, votes)|
    {
      yays, nays := 0, 0;
      var rest := voters;
      ghost var yes: set<Hash>, no: set<Hash> := {}, {};
      while rest != {}
        invariant rest <= voters
        invariant forall w :: w in yes <==> w in voters && w !in rest && votes[Key(w, x)]
        invariant forall w :: w in no <==> w in voters && w !in rest && !votes[Key(w, x)]
        invariant yays == |yes| && nays == |no|
      {
        var w :| w in rest;
        if votes[Key(w, x)] {
          OneMore(yes, w);
          yays := yays + 1;
          yes := yes + {w};
        } else {
          OneMore(no, w);
          nays := nays + 1;
          no := no + {w};
        }
        rest := rest - {w};
      }
      assert yes == Ayes(x, voters, votes);
      assert no == voters - Ayes(x, voters, votes);
    }

    /** The vote of witness `y` about witness `x`, and whether it settles the matter. */
    method CastVote(x: Hash, y: Hash, diff: int, prev: set<Hash>, votes: map<Key, bool>)
      returns (vote: bool, decided: bool)
      requires Based(dag) && Divided(Abs()) && Table(Abs()) && CachesOk()
      requires Polled(Abs(), x, y, diff, prev, votes)
      modifies this`ancestorCache, this`timestampCache, this`stronglySeeCache
      ensures CachesOk() && VoteCast(dag, x, y, vote, decided)
    {
      hide Polled, VoteCast, CachesOk, Divided, Table, Based, Reach, Yays, Nays, StronglySeenOf, CoinRound, MiddleBit;
      hide Quota, Round;
      ghost var s := Abs();
      if diff == 1 {
        FirstCast(s, x, y, diff, prev, votes);
        vote := See(y, x);
        return vote, false;
      }
      PolledLater(s, x, y, diff, prev, votes);
      PollCounts(s, x, y, diff, prev, votes);
      QuotaIs();
      var ssWitnesses := StronglySeen(y, prev);
      var yays, nays := CountVotes(x, ssWitnesses, votes);
      var v := yays >= nays;
      var t := if yays >= nays then yays else nays;
      if !CoinRound(diff) {
        vote, decided := v, t >= superMajority;
      } else {
        vote, decided := if t >= superMajority then v else MiddleBit(y), false;
      }
      Counted(s, x, y, diff, prev, votes, vote, decided);
    }

    /** The fame of witness `x`, if some witness in the table decides it, as the first to do so decide. */
    method DecideWitness(x: Hash, roundIndex: int) returns (fame: Option<bool>)
      requires Based(dag) && Divided(Abs()) && Table(Abs()) && CachesOk()
      requires x in dag.events && x in round && Round(dag, x) == roundIndex
      modifies this`ancestorCache, this`timestampCache, this`stronglySeeCache
      ensures CachesOk()
      ensures fame.Some? ==> FirstVerdict(Abs(), x, fame.value)
      ensures fame == None ==> forall v :: !Verdict(Abs(), x, v)
    {
      hide WellFormed, Round, Vote, Witness, Decides, RowWitnesses, Table, Divided;
      hide CachesOk, Asked, AncestorsOk, StronglyOk, RoundsOk, TimestampsOk, SuperMajority;
      var votes: map<Key, bool> := map[];
      var j := roundIndex + 1;
      NobodyYet(Abs(), x);
      while j <= lastRound
        invariant roundIndex < j && CachesOk()
        invariant j - roundIndex > 1 ==> VotesCast(Abs(), x, j - 1, votes)
        invariant UndecidedBefore(Abs(), x, j)
        invariant roundIndex <= lastRound ==> j <= lastRound + 1
      {
        fame, votes := VoteInRound(x, roundIndex, j, votes);
        if fame.Some? {
          FirstFrom(Abs(), x, j, fame.value);
          return;
        }
        RoundUndecided(Abs(), x, j);
        j := j + 1;
      }
      RoundWithinTable(Abs(), x);
      NobodyAtAll(Abs(), x);
      return None;
    }

    /** One round of voting about `x`; it stops at the first decision. */
    method VoteInRound(x: Hash, roundIndex: int, j: int, board: map<Key, bool>)
      returns (fame: Option<bool>, votes: map<Key, bool>)
      requires Based(dag) && Divided(Abs()) && Table(Abs()) && CachesOk()
      requires x in dag.events && Round(dag, x) == roundIndex < j
      requires j - roundIndex > 1 ==> VotesCast(Abs(), x, j - 1, board)
      modifies this`ancestorCache, this`timestampCache, this`stronglySeeCache
      ensures CachesOk()
      ensures fame.Some? ==> DecidedIn(Abs(), x, j, fame.value)
      ensures fame == None ==> VotesCast(Abs(), x, j, votes)
      ensures fame == None ==> forall y, v :: y in RowWitnesses(Abs(), j) && Ballot(dag, x, y) ==>
                !Decides(dag, x, y, v)
    {
      hide Based, Round, Vote, Witness, Decides, RowWitnesses, Table, Divided, CachesOk, VotesCast, AllVoted, Polled;
      hide VoteCast, DecidedIn;
      votes := board;
      var ws := RoundWitnesses(j);
      var prev := RoundWitnesses(j - 1);
      RowsApart(Abs(), j);
      ghost var s := Abs();
      NoneVoted(dag, x, votes);
      var rest := ws;
      assert ws - rest == {};
      while rest != {}
        invariant rest <= ws && CachesOk() && Abs() == s
        invariant j - roundIndex > 1 ==> VotesCast(s, x, j - 1, votes)
        invariant AllVoted(dag, x, ws - rest, votes)
      {
        var y :| y in rest;
        CanVote(s, x, y, j, votes);
        var vote, decided := CastVote(x, y, j - roundIndex, prev, votes);
        if decided {
          VoteDecides(s, x, y, j, vote);
          return Some(vote), votes;
        }
        if j - roundIndex > 1 {
          VotesKept(s, x, j - 1, votes, y, vote);
        }
        VotedNow(dag, x, ws - rest, votes, y, vote);
        votes := votes[Key(y, x) := vote];
        assert ws - (rest - {y}) == ws - rest + {y};
        rest := rest - {y};
      }
      assert ws - rest == ws;
      RowHasVoted(s, x, j, votes);
      return None, votes;
    }

    /** Settles the fame of every witness of a round that can be settled. */
    method DecideRow(row: RoundInfo, roundIndex: int) returns (info: RoundInfo)
      requires Based(dag) && Divided(Abs()) && Table(Abs()) && CachesOk()
      requires roundIndex in rounds && row == rounds[roundIndex]
      modifies this`ancestorCache, this`timestampCache, this`stronglySeeCache
      ensures CachesOk()
      ensures RowRefamed(row, info) && RowJustified(Abs(), row, info) && RowComplete(Abs(), info)
    {
      hide WellFormed, Round, Verdict, FirstVerdict, Table, Divided, RoundInfo.SetFame, RowRefamed, RowJustified;
      hide CachesOk, Asked, AncestorsOk, StronglyOk, RoundsOk, TimestampsOk, SuperMajority;
      info := row;
      ghost var s := Abs();
      RowUnchanged(s, row);
      var rest := row.Witnesses();
      while rest != {}
        invariant rest <= row.Witnesses() && CachesOk() && Abs() == s
        invariant RowRefamed(row, info) && RowJustified(s, row, info)
        invariant CompleteUpTo(s, row, info, rest)
      {
        var x :| x in rest;
        rest := rest - {x};
        if info.IsDecided(x) {
          PassedOver(s, row, info, rest, x);
        } else {
          RowIsOfRound(s, roundIndex, x);
          var fame := DecideWitness(x, roundIndex);
          if fame.Some? {
            FameSet(s, row, info, rest, x, fame.value);
            info := info.SetFame(x, fame.value);
          } else {
            assert forall v :: !Verdict(Abs(), x, v);
            LeftOpen(s, row, info, rest, x);
          }
        }
      }
      RowDone(s, row, info);
    }

    method UpdatePendingRounds(decidedRounds: set<int>)
      modifies this`pending
      ensures |pending| == |old(pending)|
      ensures forall k :: 0 <= k < |pending| ==>
                pending[k] == old(pending)[k].(decided := old(pending)[k].decided
                  || old(pending)[k].index in decidedRounds)
    {
      var i := 0;
      while i < |pending|
        invariant 0 <= i <= |pending| == |old(pending)|
        invariant forall k :: 0 <= k < i ==>
                    pending[k] == old(pending)[k].(decided := old(pending)[k].decided
                      || old(pending)[k].index in decidedRounds)
        invariant forall k :: i <= k < |pending| ==> pending[k] == old(pending)[k]
      {
        if pending[i].index in decidedRounds {
          pending := pending[i := pending[i].(decided := true)];
        }
        i := i + 1;
      }
    }

    /** Settles fame in every round of the queue; the result is the rounds all of whose witnesses are settled. */
    method VoteOnQueue() returns (decidedRounds: set<int>)
      requires Based(dag) && Divided(Abs()) && Table(Abs()) && CachesOk()
      requires forall k :: 0 <= k < |pending| ==>
                 pending[k].index == LastCommitted(Abs()) + 1 + k && pending[k].index in rounds
      modifies this`rounds, this`ancestorCache, this`timestampCache, this`stronglySeeCache
      ensures CachesOk()
      ensures FameUpTo(old(Abs()), Abs(), |pending|) && MarkedUpTo(Abs(), |pending|, decidedRounds)
    {
      hide Divided, Table, Based, FameUpTo, MarkedUpTo, RoundInfo.WitnessesDecided;
      hide CachesOk, Asked, AncestorsOk, StronglyOk, RoundsOk, TimestampsOk, SuperMajority, RowRefamed, RowJustified;
      hide RowComplete;
      ghost var s := Abs();
      FameBegins(s);
      decidedRounds := {};
      var pos := 0;
      while pos < |pending|
        invariant 0 <= pos <= |pending| && CachesOk()
        invariant Abs() == s.(rounds := rounds) && rounds.Keys == s.rounds.Keys
        invariant Divided(Abs()) && Table(Abs()) && FameUpTo(s, Abs(), pos) && MarkedUpTo(Abs(), pos, decidedRounds)
      {
        var roundIndex := pending[pos].index;
        ghost var t := Abs();
        var info := DecideRow(rounds[roundIndex], roundIndex);
        FameAdvances(s, t, pos, info, decidedRounds);
        rounds := rounds[roundIndex := info];
        if info.WitnessesDecided() {
          decidedRounds := decidedRounds + {roundIndex};
        }
        pos := pos + 1;
      }
    }

    /** Settles fame in every round of the queue, and marks the rounds that are decided by it. */
    method DecideFame()
      requires Sound(Abs()) && CachesOk()
      modifies this`rounds, this`pending, this`ancestorCache, this`timestampCache, this`stronglySeeCache
      ensures Based(old(dag)) && FameStep(old(Abs()), Abs())
      ensures Sound(Abs()) && CachesOk()
    {
      hide Sound, Divided, Table, Based, FameUpTo, MarkedUpTo, FameStep;
      hide CachesOk, Asked, AncestorsOk, StronglyOk, RoundsOk, TimestampsOk, SuperMajority;
      ghost var s := Abs();
      SoundParts(s);
      QueueIsTable(s);
      var decidedRounds := VoteOnQueue();
      ghost var t := Abs();
      UpdatePendingRounds(decidedRounds);
      FameEnds(s, t, Abs(), decidedRounds);
      FameSound(s, Abs());
    }

    // -------------------------------------------------------------- DecideRoundReceived

    /** Those of the listed witnesses that see `x`. */
    method Seers(x: Hash, fws: set<Hash>) returns (s: set<Hash>)
      requires Based(dag) && CachesOk()
      requires x in dag.events && fws <= dag.events.Keys
      modifies this`ancestorCache, this`timestampCache
      ensures CachesOk()
      ensures s <= fws && forall w :: w in fws ==> (w in s <==> Reach(dag, w, x))
    {
      hide WellFormed, Reach, CachesOk;
      s := {};
      var rest := fws;
      while rest != {}
        invariant rest <= fws && CachesOk()
        invariant s <= fws - rest && forall w :: w in fws - rest ==> (w in s <==> Reach(dag, w, x))
      {
        var w :| w in rest;
        var see := See(w, x);
        rest := rest - {w};
        if see {
          s := s + {w};
        }
      }
    }

    /** The round in which `x` is received, if it can be told yet. */
    method Reception(x: Hash) returns (i: Option<int>)
      requires Based(dag) && Divided(Abs()) && Table(Abs()) && CachesOk() && x in round
      modifies this`roundCache, this`ancestorCache, this`timestampCache
      ensures CachesOk()
      ensures i.Some? ==> ReceivedAt(Abs(), x, i.value)
      ensures i == None ==> !IsReceivable(Abs(), x)
    {
      hide WellFormed, Reach, Round, Divided, Table, AllSee, Decided, RoundInfo.WitnessesDecided;
      hide RoundInfo.FamousWitnesses;
      hide CachesOk, Asked, AncestorsOk, StronglyOk, RoundsOk, TimestampsOk, SuperMajority;
      DividedIsReady(Abs(), x);
      ghost var s := Abs();
      var r := RoundOf(x);
      var k := r.value + 1;
      while k <= lastRound
        invariant r.value < k && CachesOk() && Abs() == s
        invariant PassedBy(s, x, k)
      {
        RowExists(s, x, k);
        var tr := rounds[k];
        if !tr.WitnessesDecided() {
          StoppedAt(s, x, k);
          return None;
        }
        var fws := tr.FamousWitnesses();
        FamousStored(s, k);
        var seers := Seers(x, fws);
        AllSeeByCount(s, x, k, seers);
        if |seers| == |fws| && |seers| > 0 {
          ReceivedHere(s, x, k);
          return Some(k);
        }
        NotReceivedHere(s, x, k);
        k := k + 1;
      }
      StoppedAt(s, x, k);
      return None;
    }

    /** Receives `x` if it can be. */
    method ReceiveEvent(x: Hash) returns (i: Option<int>)
      requires Based(dag) && Divided(Abs()) && Table(Abs()) && CachesOk() && x in round
      modifies this`received, this`rounds, this`roundCache, this`ancestorCache, this`timestampCache
      ensures CachesOk()
      ensures i.Some? ==> ReceivedAt(old(Abs()), x, i.value) && i.value in old(rounds)
      ensures i.Some? ==> received == old(received)[x := i.value]
      ensures i.Some? ==> rounds == old(rounds)[i.value := old(rounds)[i.value].SetConsensusEvent(x)]
      ensures i == None ==> !IsReceivable(old(Abs()), x) && received == old(received) && rounds == old(rounds)
    {
      hide WellFormed, Round, Divided, Table, ReceivedAt, RoundInfo.SetConsensusEvent;
      hide CachesOk, Asked, AncestorsOk, StronglyOk, RoundsOk, TimestampsOk, SuperMajority;
      i := Reception(x);
      if i.Some? {
        ReceivedInTable(Abs(), x, i.value);
        received := received[x := i.value];
        rounds := rounds[i.value := rounds[i.value].SetConsensusEvent(x)];
      }
    }

    /** Receives every undetermined event that can be; the others stay undetermined, in order. */
    method DecideRoundReceived()
      requires Sound(Abs()) && CachesOk() && round.Keys == dag.events.Keys
      modifies this`received, this`rounds, this`undetermined, this`roundCache, this`ancestorCache, this`timestampCache
      ensures WellFormed(old(dag)) && Abs() == ReceiveList(old(Abs()), old(undetermined))
      ensures Sound(Abs()) && CachesOk()
    {
      hide Sound, WellFormed, Receiving, ReceiveIf, ReceiveList, Remaining, RoundInfo.SetConsensusEvent, IsReceivable;
      hide ReceivedAt;
      hide CachesOk, Asked, AncestorsOk, StronglyOk, RoundsOk, TimestampsOk, SuperMajority, Divided, Table, Based;
      ghost var s, g := Abs(), Abs();
      var list := undetermined;
      var newUndetermined: seq<Hash> := [];
      ReceptionsBegin(s);
      var k := 0;
      while k < |list|
        invariant 0 <= k <= |list| && CachesOk()
        invariant Receiving(s, g, k, newUndetermined) && Abs() == g.(undetermined := list)
      {
        ReceivingParts(s, g, k, newUndetermined);
        var i := ReceiveEvent(list[k]);
        ReceptionsAdvance(s, g, k, newUndetermined, i);
        g := ReceiveIf(g, list[k]);
        if i == None {
          newUndetermined := newUndetermined + [list[k]];
        }
        k := k + 1;
      }
      undetermined := newUndetermined;
      ReceptionsEnd(s, g, newUndetermined);
    }

    // -------------------------------------------------------------- frames

    method CreateSelfParentRootEvent(h: Hash) returns (root: RootEvent)
      requires Based(dag) && Divided(Abs()) && Table(Abs()) && CachesOk() && h in round && h in dag.events
      modifies this`roundCache, this`ancestorCache, this`timestampCache
      ensures CachesOk() && root == SelfRoot(dag, h)
    {
      hide WellFormed, Divided, Table, Round, Lamport, CachesOk, Asked, AncestorsOk, StronglyOk, RoundsOk, TimestampsOk;
      hide SuperMajority;
      DividedIsReady(Abs(), h);
      RoundReads(dag, h);
      ReadyParents(Abs(), h);
      var e := dag.events[h];
      var time := TimestampOf(e.selfParent);
      var r := RoundOf(e.selfParent);
      return RootEvent(e.selfParent, e.creator, e.index - 1, time, r.value);
    }

    method CreateOtherParentRootEvent(h: Hash) returns (root: RootEvent)
      requires Based(dag) && Divided(Abs()) && Table(Abs()) && CachesOk() && h in round && h in dag.events
      requires dag.events[h].otherParent in dag.events
      modifies this`roundCache, this`ancestorCache, this`timestampCache
      ensures CachesOk() && root == OtherRoot(dag, h)
    {
      hide WellFormed, Divided, Table, Round, Lamport, CachesOk, Asked, AncestorsOk, StronglyOk, RoundsOk, TimestampsOk;
      hide SuperMajority;
      DividedIsReady(Abs(), h);
      RoundReads(dag, h);
      ReadyParents(Abs(), h);
      var op := dag.events[h].otherParent;
      var time := TimestampOf(op);
      var r := RoundOf(op);
      return RootEvent(op, dag.events[op].creator, dag.events[op].index, time, r.value);
    }

    method CreateRoot(h: Hash) returns (root: Root)
      requires Based(dag) && Divided(Abs()) && Table(Abs()) && CachesOk() && h in round && h in dag.events
      modifies this`roundCache, this`ancestorCache, this`timestampCache
      ensures CachesOk() && root == CreatedRoot(dag, h)
    {
      hide WellFormed, Divided, Table, Round, SelfRoot, OtherRoot, CachesOk, Asked, AncestorsOk, StronglyOk, RoundsOk;
      hide TimestampsOk, SuperMajority;
      DividedIsReady(Abs(), h);
      NamedIsStored(dag, h);
      var r := RoundOf(h);
      var sp := CreateSelfParentRootEvent(h);
      root := Root(r.value, sp, map[]);
      if dag.events[h].otherParent != NoHash {
        var op := CreateOtherParentRootEvent(h);
        root := root.(others := map[h := op]);
      }
    }

    /** The consensus events of a round, in frame order. */
    method SortedEvents(r: int) returns (list: seq<Hash>)
      requires Based(dag) && Divided(Abs()) && Table(Abs()) && r in rounds
      ensures AllStored(dag, list) && FrameLists(Abs(), r, list)
    {
      hide Based, Divided, Table, FrameLists, Less, StableSort, Sorted, RoundInfo.ConsensusEvents;
      ReceivedHaveKeys(Abs(), r);
      var keys := FrameKeys(dag, lamport);
      var events: seq<Hash> := [];
      var hashes := rounds[r].ConsensusEvents();
      var rest := hashes;
      while rest != {}
        invariant rest <= hashes && Lists(events, hashes - rest)
      {
        var h :| h in rest;
        ListsNext(events, hashes - rest, h);
        assert hashes - rest + {h} == hashes - (rest - {h});
        events := events + [h];
        rest := rest - {h};
      }
      assert hashes - rest == hashes;
      list := StableSort(events, keys);
      StableSortSorted(events, keys);
      SortedLists(events, list, hashes);
      SortedIsFrame(Abs(), r, list);
    }

    /** A root for each creator of a listed event, from its first. */
    method FirstRoots(list: seq<Hash>) returns (roots: map<Creator, Root>)
      requires Based(dag) && Divided(Abs()) && Table(Abs()) && CachesOk() && round.Keys == dag.events.Keys
      requires AllStored(dag, list)
      modifies this`roundCache, this`ancestorCache, this`timestampCache
      ensures CachesOk() && FirstsRooted(dag, list, |list|, roots)
    {
      hide WellFormed, Divided, Table, CreatedRoot, FirstsRooted, CachesOk, Asked, AncestorsOk, StronglyOk, RoundsOk;
      hide TimestampsOk, SuperMajority;
      roots := map[];
      FirstsBegin(dag, list);
      var i := 0;
      while i < |list|
        invariant 0 <= i <= |list| && CachesOk() && FirstsRooted(dag, list, i, roots)
      {
        FirstsAdvance(dag, list, i, roots);
        var c := dag.events[list[i]].creator;
        if c !in roots {
          var root := CreateRoot(list[i]);
          roots := roots[c := root];
        }
        i := i + 1;
      }
    }

    /** The participants without an event in the frame take the root of their last consensus event, or the one they
        have. */
    method PeerRoots(list: seq<Hash>, firsts: map<Creator, Root>) returns (roots: map<Creator, Root>)
      requires Based(dag) && Divided(Abs()) && Table(Abs()) && CachesOk() && round.Keys == dag.events.Keys
      requires AllStored(dag, list)
      requires FirstsRooted(dag, list, |list|, firsts) && LastsOk(dag, lastConsensusEvents)
      modifies this`roundCache, this`ancestorCache, this`timestampCache
      ensures CachesOk() && roots == PlainRoots(dag, lastConsensusEvents, list)
    {
      hide WellFormed, Divided, Table, CreatedRoot, FirstsRooted, PeersRooted, PlainRoots, CachesOk, Asked, AncestorsOk;
      hide StronglyOk, RoundsOk, TimestampsOk, SuperMajority;
      roots := firsts;
      PeersBegin(dag, lastConsensusEvents, list, roots);
      var rest := dag.roots.Keys;
      while rest != {}
        invariant rest <= dag.roots.Keys && CachesOk() && PeersRooted(dag, lastConsensusEvents, list, roots, rest)
      {
        SomeCreator(rest);
        var c: Creator :| c in rest;
        PeersAdvance(dag, lastConsensusEvents, list, roots, rest, c);
        if c !in roots {
          if c in lastConsensusEvents {
            var root := CreateRoot(lastConsensusEvents[c]);
            roots := roots[c := root];
          } else {
            roots := roots[c := dag.roots[c]];
          }
        }
        rest := rest - {c};
      }
      PeersEnd(dag, lastConsensusEvents, list, roots);
    }

    /** Other-parents outside the frame are recorded in the root of the event's creator. */
    method RecordOthers(list: seq<Hash>, plain: map<Creator, Root>) returns (roots: map<Creator, Root>)
      requires Based(dag) && Divided(Abs()) && Table(Abs()) && CachesOk() && round.Keys == dag.events.Keys
      requires AllStored(dag, list)
      requires CreatorsIn(dag, list, plain)
      modifies this`roundCache, this`ancestorCache, this`timestampCache
      ensures CachesOk() && roots == WithOthers(dag, plain, list, |list|)
    {
      hide WellFormed, Divided, Table, NeedsOther, OtherRoot, CachesOk, Asked, AncestorsOk, StronglyOk, RoundsOk;
      hide TimestampsOk, SuperMajority;
      roots := plain;
      var treated: set<Hash> := {};
      var i := 0;
      while i < |list|
        invariant 0 <= i <= |list| && CachesOk()
        invariant forall h :: h in treated <==> h in list[..i]
        invariant roots == WithOthers(dag, plain, list, i)
      {
        treated := treated + {list[i]};
        assert list[..i + 1] == list[..i] + [list[i]];
        OthersKeepKeys(dag, plain, list, i);
        OthersAdvance(dag, plain, list, i, treated);
        var e := dag.events[list[i]];
        if e.otherParent != NoHash && e.otherParent !in treated && e.selfParent != roots[e.creator].selfParent.hash {
          var other := CreateOtherParentRootEvent(list[i]);
          roots := roots[e.creator := roots[e.creator].(others := roots[e.creator].others[list[i] := other])];
        }
        i := i + 1;
      }
    }

    /** The frame of a round: its consensus events in order, with roots to put them on. */
    method GetFrame(r: int) returns (res: Result<Frame>)
      requires Based(dag) && Divided(Abs()) && Table(Abs()) && CachesOk() && round.Keys == dag.events.Keys
      requires LastsRight(dag, consensus, lastConsensusEvents)
      modifies this`frames, this`roundCache, this`ancestorCache, this`timestampCache
      ensures CachesOk() && Fetched(old(Abs()), r, res, frames)
    {
      hide Divided, Table, FrameOf, FrameLists, PlainRoots, WithOthers, CachesOk, Based, LastsOk, LastsRight;
      hide FirstsRooted;
      if r in frames {
        return Ok(frames[r]);
      }
      if r !in rounds {
        return Err(KeyNotFound);
      }
      LastsAreOk(dag, consensus, lastConsensusEvents);
      ghost var s := Abs();
      var list := SortedEvents(r);
      var firsts := FirstRoots(list);
      var plain := PeerRoots(list, firsts);
      CreatorsHaveRoots(dag, lastConsensusEvents, list);
      var roots := RecordOthers(list, plain);
      FrameBuilt(s, r, lastConsensusEvents, list, roots);
      frames := frames[r := Frame(r, roots, list)];
      return Ok(Frame(r, roots, list));
    }

    // -------------------------------------------------------------- ProcessDecidedRounds

    /** The events become consensus events, in order. */
    method AddConsensusEvents(list: seq<Hash>)
      requires AllStored(dag, list) && LastsRight(dag, consensus, lastConsensusEvents)
      modifies this`consensus, this`lastConsensusEvents, this`consensusTransactions, this`pendingLoaded
      ensures consensus == old(consensus) + list && LastsRight(dag, consensus, lastConsensusEvents)
      ensures consensusTransactions == old(consensusTransactions) + |Payload(dag, list)|
      ensures pendingLoaded == old(pendingLoaded) - LoadedCount(dag, list)
    {
      hide LastsRight, IsLoaded;
      var i := 0;
      while i < |list|
        invariant 0 <= i <= |list| && consensus == old(consensus) + list[..i]
        invariant LastsRight(dag, consensus, lastConsensusEvents)
        invariant consensusTransactions == old(consensusTransactions) + |Payload(dag, list[..i])|
        invariant pendingLoaded == old(pendingLoaded) - LoadedCount(dag, list[..i])
      {
        PayloadNext(dag, list, i);
        LastsNext(dag, consensus, lastConsensusEvents, list[i]);
        var e := dag.events[list[i]];
        consensus := consensus + [list[i]];
        lastConsensusEvents := lastConsensusEvents[e.creator := list[i]];
        consensusTransactions := consensusTransactions + |e.transactions|;
        if IsLoaded(e) {
          pendingLoaded := pendingLoaded - 1;
        }
        i := i + 1;
      }
      assert list[..|list|] == list;
    }

    /** NewBlockFromFrame. */
    static method NewBlock(dag: Dag, index: int, f: Frame) returns (b: Block)
      requires AllStored(dag, f.events)
      ensures b == Block(index, f.round, HashOfFrame(dag, f), Payload(dag, f.events))
    {
      var transactions := [];
      var i := 0;
      while i < |f.events|
        invariant 0 <= i <= |f.events| && transactions == Payload(dag, f.events[..i])
      {
        PayloadNext(dag, f.events, i);
        transactions := transactions + dag.events[f.events[i]].transactions;
        i := i + 1;
      }
      assert f.events[..|f.events|] == f.events;
      return Block(index, f.round, HashOfFrame(dag, f), transactions);
    }

    /** The frame's events and, if they carry transactions, its block. */
    method CommitFrame(f: Frame)
      requires AllStored(dag, f.events) && LastsRight(dag, consensus, lastConsensusEvents)
      requires lastConsensusRound == None || lastConsensusRound.value < f.round
      modifies this`consensus, this`blocks, this`lastConsensusEvents, this`consensusTransactions, this`pendingLoaded
      modifies this`lastConsensusRound
      ensures LastsRight(dag, consensus, lastConsensusEvents) && CommittedAs(old(Abs()), Abs(), f)
    {
      hide LastsRight, Payload, LoadedCount, NewBlocks;
      AddEventsAndBlock(f);
      if lastConsensusRound == None || f.round > lastConsensusRound.value {
        lastConsensusRound := Some(f.round);
      }
    }

    method AddEventsAndBlock(f: Frame)
      requires AllStored(dag, f.events) && LastsRight(dag, consensus, lastConsensusEvents)
      modifies this`consensus, this`blocks, this`lastConsensusEvents, this`consensusTransactions, this`pendingLoaded
      ensures LastsRight(dag, consensus, lastConsensusEvents)
      ensures consensus == old(consensus) + f.events && blocks == old(blocks) + NewBlocks(dag, |old(blocks)|, f)
      ensures consensusTransactions == old(consensusTransactions) + |Payload(dag, f.events)|
      ensures pendingLoaded == old(pendingLoaded) - LoadedCount(dag, f.events)
    {
      hide LastsRight, Payload, LoadedCount, HashOfFrame;
      if |f.events| > 0 {
        AddConsensusEvents(f.events);
        var block := NewBlock(dag, |blocks|, f);
        if |block.transactions| > 0 {
          blocks := blocks + [block];
        }
      } else {
        NoEvents(dag, f.events);
      }
    }

    method NewFrame(r: int, ghost left: seq<Pending>) returns (f: Frame)
      requires Based(dag) && Divided(Abs()) && Table(Abs()) && CachesOk() && round.Keys == dag.events.Keys
      requires LastsRight(dag, consensus, lastConsensusEvents) && r in rounds && r !in frames
      modifies this`frames, this`roundCache, this`ancestorCache, this`timestampCache
      ensures CachesOk() && Abs() == old(Abs()).(frames := old(frames)[r := f]) && f.round == r
      ensures AllStored(dag, f.events) && FrameOf(old(Abs()).(pending := left), r, f)
    {
      hide Divided, Table, FrameOf, CachesOk, Based, LastsRight;
      var frame := GetFrame(r);
      f := frame.value;
      QueueFree(old(Abs()), left, r, f);
    }

    /** Commits round `r`; `left` is the queue from `r` on. */
    method CommitRound(r: int, ghost left: seq<Pending>) returns (ghost f: Frame)
      requires Based(dag) && Divided(Abs()) && Table(Abs()) && CachesOk() && round.Keys == dag.events.Keys
      requires LastsRight(dag, consensus, lastConsensusEvents) && r in rounds && r !in frames && left != []
      requires lastConsensusRound == None || lastConsensusRound.value < r
      modifies this`frames, this`consensus, this`blocks, this`lastConsensusEvents, this`consensusTransactions
      modifies this`pendingLoaded, this`lastConsensusRound, this`roundCache, this`ancestorCache, this`timestampCache
      ensures CachesOk() && LastsRight(dag, consensus, lastConsensusEvents)
      ensures AllStored(dag, f.events) && FrameOf(old(Abs()).(pending := left), r, f)
      ensures Abs() == CommitOne(old(Abs()).(pending := left), f).(pending := old(pending))
    {
      hide Divided, Table, FrameOf, CachesOk, Asked, AncestorsOk, StronglyOk, RoundsOk, TimestampsOk, SuperMajority;
      hide Based, LastsRight, CommitOne, CommittedAs;
      ghost var s := Abs();
      var fr := NewFrame(r, left);
      f := fr;
      CommitFrame(fr);
      CommittedState(s, Abs(), left, f);
    }

    /** Commits decided rounds from the head of the queue, up to the first that is not decided. */
    method ProcessDecidedRounds()
      requires Sound(Abs()) && CachesOk() && round.Keys == dag.events.Keys && Rooting(Abs(), lastConsensusEvents)
      modifies this`frames, this`consensus, this`blocks, this`lastConsensusEvents, this`consensusTransactions
      modifies this`pendingLoaded, this`lastConsensusRound, this`pending
      modifies this`roundCache, this`ancestorCache, this`timestampCache
      ensures Commits(old(Abs()), Abs())
      ensures Sound(Abs()) && CachesOk() && Rooting(Abs(), lastConsensusEvents)
    {
      hide Sound, Divided, Table, FrameOf, CachesOk, Asked, AncestorsOk, StronglyOk, RoundsOk, TimestampsOk;
      hide SuperMajority, Based, LastsRight, Rooting;
      hide Committing, Commits, Payload, LoadedCount;
      ghost var s, g := Abs(), Abs();
      CommitsBegin(s, lastConsensusEvents);
      var queue := pending;
      var processedIndex := 0;
      assert queue[0..] == queue;
      while processedIndex < |queue| && queue[processedIndex].decided
        invariant 0 <= processedIndex <= |queue| && CachesOk() && g.pending == queue[processedIndex..]
        invariant Abs() == g.(pending := queue) && Committing(s, g, lastConsensusEvents)
      {
        HeadToCommit(s, g, lastConsensusEvents, queue);
        ghost var lasts := lastConsensusEvents;
        ghost var f := CommitRound(queue[processedIndex].index, g.pending);
        assert g == g.(pending := queue).(pending := g.pending);
        CommitsAdvance(s, g, lasts, f, lastConsensusEvents);
        g := CommitOne(g, f);
        processedIndex := processedIndex + 1;
      }
      pending := queue[processedIndex..];
      assert Abs() == g;
      CommitsEnd(s, g, lastConsensusEvents);
    }

    /** One round of consensus: the four passes in their order. */
    method RunConsensus() returns (ghost s1: State, ghost s2: State, ghost s3: State)
      requires Sound(Abs()) && CachesOk() && Rooting(Abs(), lastConsensusEvents)
      modifies this
      ensures Passes(old(Abs()), s1, s2, s3, Abs()) && dag == old(dag)
      ensures Sound(Abs()) && CachesOk() && Rooting(Abs(), lastConsensusEvents)
    {
      hide Sound, Divided, Table, FrameOf, CachesOk, Asked, AncestorsOk, StronglyOk, RoundsOk, TimestampsOk;
      hide SuperMajority, Based, LastsRight, Rooting;
      hide Commits, FameStep, ReceiveList, DivideList, Covers, WellFormed, Remaining;
      ghost var s := Abs();
      UndeterminedCovers(s);
      DivideListSound(s, s.undetermined);
      DivideRounds();
      s1 := Abs();
      DivideListCommits(s, s.undetermined);
      DecideFame();
      s2 := Abs();
      DecideRoundReceived();
      s3 := Abs();
      RootingKept(s, s3, lastConsensusEvents);
      ProcessDecidedRounds();
    }

    // -------------------------------------------------------------- Reset

    /** Inserts the frame's events in frame order, up to the first that is refused. */
    method InsertFrame(f: Frame, events: map<Hash, Event>) returns (error: Option<Error>)
      requires undetermined == [] && forall i :: 0 <= i < |f.events| ==> f.events[i] in events
      modifies this`dag, this`undetermined, this`pendingLoaded, this`topologicalIndex
      ensures var r := InsertFirst(old(dag), events, f.events, |f.events|);
              if r.Ok? then error == None && dag == r.value && undetermined == f.events else error == Some(r.error)
    {
      hide Insert;
      var i := 0;
      while i < |f.events|
        invariant 0 <= i <= |f.events|
        invariant InsertFirst(old(dag), events, f.events, i) == Ok(dag) && undetermined == f.events[..i]
      {
        error := TakeIn(f.events[i], events[f.events[i]]);
        if error != None {
          InsertStops(old(dag), events, f.events, i + 1, |f.events|);
          return;
        }
        i := i + 1;
      }
      assert f.events[..i] == f.events;
      return None;
    }

    /** Starts again from a frame: the state is cleared, except the timestamp cache, and the
        frame's events are inserted on its roots. `events` are the events the frame carries, `d`
        the graph of the node that built it. */
    method Reset(blockRound: int, f: Frame, events: map<Hash, Event>) returns (error: Option<Error>)
      requires Separate(f.roots) && forall i :: 0 <= i < |f.events| ==> f.events[i] in events
      modifies this
      ensures var r := InsertFirst(EmptyDag(f.roots, old(dag.cacheSize)), events, f.events, |f.events|);
              if r.Ok? then error == None && dag == r.value && undetermined == f.events else error == Some(r.error)
      ensures ancestorCache == map[] && stronglySeeCache == map[] && roundCache == map[]
      ensures timestampCache == old(timestampCache)
      ensures pending == [] && rounds == map[] && lastRound == -1 && lastConsensusRound == Some(blockRound)
      ensures forall d :: Regrown(d, dag) && TimestampsRight(timestampCache, d) ==> TimestampsRight(timestampCache, dag)
    {
      hide Insert, InsertFirst, EmptyDag, TimestampsRight, Regrown;
      ClearQueues(blockRound);
      ClearStore(f.roots);
      error := InsertFrame(f, events);
      forall d | Regrown(d, dag) && TimestampsRight(timestampCache, d) ensures TimestampsRight(timestampCache, dag) {
        CachesOutliveRestart(d, dag, timestampCache);
      }
    }

    /** An empty store on the given roots. */
    method ClearStore(roots: map<Creator, Root>)
      requires Separate(roots)
      modifies this`dag, this`rounds, this`lastRound, this`round, this`lamport, this`received
      ensures dag == EmptyDag(roots, old(dag.cacheSize)) && rounds == map[] && lastRound == -1 && round == map[]
      ensures lamport == map[] && received == map[]
    {
      hide EmptyDag;
      dag, rounds, lastRound := EmptyDag(roots, dag.cacheSize), map[], -1;
      round, lamport, received := map[], map[], map[];
    }

    /** Empty queues and caches; only that of timestamps is kept. */
    method ClearQueues(blockRound: int)
      modifies this`undetermined, this`pending, this`pendingLoaded, this`lastConsensusRound, this`ancestorCache
      modifies this`stronglySeeCache, this`roundCache, this`topologicalIndex
      ensures topologicalIndex == 0 && undetermined == [] && pending == [] && pendingLoaded == 0
      ensures lastConsensusRound == Some(blockRound)
      ensures ancestorCache == map[] && stronglySeeCache == map[] && roundCache == map[]
    {
      lastConsensusRound, undetermined, pending, pendingLoaded, topologicalIndex := Some(blockRound), [], [], 0, 0;
      ancestorCache, stronglySeeCache, roundCache := map[], map[], map[];
    }
  }
}
